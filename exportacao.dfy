/**
 * `exportarServicos` and `exportarPrestadores`: both walk, in natural order,
 * the tickets at stage `integracao-unico` whose status is not `concluido`.
 * The service export writes one payment record per provider that has a
 * `sciUnico` code and marks the exported tickets `trabalhando`; the provider
 * export writes one registration record per provider still lacking the code
 * and marks it `aguardando-codigo-sci`. Each run's text document is what the
 * e-mail carries; `None` means the run stopped on an exception and no e-mail
 * went out, while the writes already made stay.
 */
module Exportacao {
  import opened Wrappers
  import opened Datas
  import opened PrestadorSchema
  import opened Entidades

  /** `Ticket.find({ etapa: "integracao-unico", status: { $ne: "concluido" } })` */
  predicate Selecionado(t: Ticket) {
    t.etapa == EtapaIntegracaoUnico && t.status != StatusConcluido
  }

  /** JavaScript truthiness of `prestador.sciUnico`. */
  predicate TemSciUnico(p: Prestador) {
    p.sciUnico.Some? && p.sciUnico.value != 0
  }

  /** A Number path's value in JavaScript arithmetic: `null` counts as 0. */
  function NumeroJs(v: Option<int>): int {
    if v.Some? then v.value else 0
  }

  /** The ids that are stored, in their order. */
  function Presentes(m: map<Id, Servico>, ids: seq<Id>): (p: seq<Id>)
    ensures |p| <= |ids|
    ensures forall k :: 0 <= k < |p| ==> p[k] in m
    ensures forall x :: x in p <==> x in ids && x in m
    ensures (forall k :: 0 <= k < |ids| ==> ids[k] in m) ==> p == ids
    decreases |ids|
  {
    if ids == [] then []
    else (if ids[0] in m then [ids[0]] else []) + Presentes(m, ids[1..])
  }

  /** `populate("servicos")`: the referenced services that exist, in order. */
  function Populados(m: map<Id, Servico>, ids: seq<Id>): (r: seq<Servico>)
    ensures |r| <= |ids|
    ensures forall k :: 0 <= k < |r| ==> r[k] in m.Values
    ensures (forall k :: 0 <= k < |ids| ==> ids[k] in m) ==>
              |r| == |ids| && forall k :: 0 <= k < |ids| ==> r[k] == m[ids[k]]
    decreases |ids|
  {
    if ids == [] then []
    else (if ids[0] in m then [m[ids[0]]] else []) + Populados(m, ids[1..])
  }

  /** Whatever the ids, the populated services are the stored services of the stored ids, in order. */
  lemma {:induction false} PopuladosSaoOsPresentes(m: map<Id, Servico>, ids: seq<Id>)
    ensures var p := Presentes(m, ids); var r := Populados(m, ids);
      |r| == |p| && forall k :: 0 <= k < |r| ==> r[k] == m[p[k]]
    decreases |ids|
  {
    if ids != [] {
      PopuladosSaoOsPresentes(m, ids[1..]);
      var cabeca := if ids[0] in m then [ids[0]] else [];
      assert Presentes(m, ids) == cabeca + Presentes(m, ids[1..]);
      assert Populados(m, ids) == (if ids[0] in m then [m[ids[0]]] else []) + Populados(m, ids[1..]);
    }
  }

  // ----- the per-ticket accumulation -----

  /** The ticket's amount: the sum of its services' `valorTotal`. */
  function SomaTotal(servs: seq<Servico>): int
    decreases |servs|
  {
    if servs == [] then 0 else SomaTotal(servs[..|servs| - 1]) + NumeroJs(servs[|servs| - 1].valorTotal)
  }

  /** `new Date(anoCompetencia, mesCompetencia - 1)` */
  function Competencia(s: Servico): Date {
    MonthStart(NumeroJs(s.anoCompetencia), NumeroJs(s.mesCompetencia) - 1)
  }

  function Competencias(servs: seq<Servico>): (ds: seq<Date>)
    ensures |ds| == |servs| && forall k :: 0 <= k < |servs| ==> ds[k] == Competencia(servs[k])
  {
    seq(|servs|, k requires 0 <= k < |servs| => Competencia(servs[k]))
  }

  /** The inner loop over a ticket's services: the running total and the competency dates. */
  method AcumularServicos(servs: seq<Servico>) returns (total: int, datas: seq<Date>)
    ensures total == SomaTotal(servs)
    ensures datas == Competencias(servs)
  {
    total := 0;
    datas := [];
    var i := 0;
    while i < |servs|
      invariant 0 <= i <= |servs|
      invariant total == SomaTotal(servs[..i])
      invariant |datas| == i && forall k :: 0 <= k < i ==> datas[k] == Competencia(servs[k])
    {
      assert servs[..i + 1][..i] == servs[..i];
      total := total + NumeroJs(servs[i].valorTotal);
      datas := datas + [Competencia(servs[i])];
      i := i + 1;
    }
    assert servs[..i] == servs;
  }

  /**
   * The realization date of a ticket with services is the 1st of its latest
   * competency month: one of the competencies, and none is later.
   */
  lemma DataDeRealizacaoMaisRecente(servs: seq<Servico>)
    requires |servs| > 0
    ensures Latest(Competencias(servs)).Some?
    ensures exists k :: 0 <= k < |servs| && Latest(Competencias(servs)).value == Competencia(servs[k])
    ensures forall k :: 0 <= k < |servs| ==> NotAfter(Competencia(servs[k]), Latest(Competencias(servs)).value)
  {
    var ds := Competencias(servs);
    var d := Latest(ds).value;
    assert d in ds;
    var k :| 0 <= k < |ds| && ds[k] == d;
    assert Competencia(servs[k]) == d;
    forall j | 0 <= j < |servs|
      ensures NotAfter(Competencia(servs[j]), d)
    {
      assert ds[j] in ds;
    }
  }

  // ----- the service export -----

  /** The environment settings the record takes. */
  datatype ConfigSci = ConfigSci(codCentroCusto: string, codEmpresa: string, porcentagemIss: string)

  /** The fields handed to the service-record renderer. */
  datatype RegistroServico = RegistroServico(
    codAutonomo: int,
    codCentroDeCustos: string,
    codEmpresa: string,
    porcentualIss: string,
    dataDePagamento: string,
    dataDeRealizacao: string,
    tipoDeDocumento: int,
    valor: int)

  /**
   * The record of an exported ticket: the provider's code, the configured
   * settings, the payment date, the latest competency and the ticket's total.
   */
  function RegistroDoTicket(p: Prestador, servs: seq<Servico>, cfg: ConfigSci, pagamento: Date): (r: RegistroServico)
    requires TemSciUnico(p) && |servs| > 0
    ensures r.codAutonomo == p.sciUnico.value && r.valor == SomaTotal(servs) && r.tipoDeDocumento == 1
    ensures r.dataDeRealizacao == FormatDdMMyyyy(Latest(Competencias(servs)).value)
    ensures r.dataDePagamento == FormatDdMMyyyy(pagamento)
    ensures r.codCentroDeCustos == cfg.codCentroCusto && r.codEmpresa == cfg.codEmpresa && r.porcentualIss == cfg.porcentagemIss
  {
    RegistroServico(p.sciUnico.value, cfg.codCentroCusto, cfg.codEmpresa, cfg.porcentagemIss,
                    FormatDdMMyyyy(pagamento), FormatDdMMyyyy(Latest(Competencias(servs)).value), 1, SomaTotal(servs))
  }

  /** A selected ticket whose provider reference is dangling: reading `prestador.sciUnico` throws. */
  predicate FalhaServico(db: Db, id: Id) {
    id in db.tickets && Selecionado(db.tickets[id]) && db.tickets[id].prestador !in db.prestadores
  }

  /** A selected ticket that passes the export test apart from the seen-list. */
  predicate Elegivel(db: Db, id: Id) {
    && id in db.tickets && Selecionado(db.tickets[id])
    && db.tickets[id].prestador in db.prestadores
    && TemSciUnico(db.prestadores[db.tickets[id].prestador])
    && |Populados(db.servicos, db.tickets[id].servicos)| > 0
    && SomaTotal(Populados(db.servicos, db.tickets[id].servicos)) > 0
  }

  predicate SemFalhaServicoAntes(db: Db, id: Id) {
    forall u :: 0 <= u < id ==> !FalhaServico(db, u)
  }

  /** No earlier eligible ticket has the same provider. */
  predicate PrimeiroDoPrestador(db: Db, id: Id)
    requires id in db.tickets
  {
    forall u :: 0 <= u < id && Elegivel(db, u) ==> db.tickets[u].prestador != db.tickets[id].prestador
  }

  /** The loop's variables: the document, the seen-list, the tickets marked so far, and whether it threw. */
  datatype ExportacaoServicos = ExportacaoServicos(documento: string, exportados: seq<Id>, marcados: seq<Id>, falhou: bool)

  /** One iteration of the ticket loop, on ticket `id`. */
  function PassoServicos(db: Db, cfg: ConfigSci, pagamento: Date, render: RegistroServico -> string,
                         e: ExportacaoServicos, id: Id): ExportacaoServicos
  {
    if e.falhou || id !in db.tickets || !Selecionado(db.tickets[id]) then e
    else if db.tickets[id].prestador !in db.prestadores then e.(falhou := true)
    else
      var t := db.tickets[id];
      var p := db.prestadores[t.prestador];
      var servs := Populados(db.servicos, t.servicos);
      if TemSciUnico(p) && |servs| > 0 && t.prestador !in e.exportados && SomaTotal(servs) > 0 then
        ExportacaoServicos(e.documento + render(RegistroDoTicket(p, servs, cfg, pagamento)) + "\n\n",
                           e.exportados + [t.prestador], e.marcados + [id], false)
      else e
  }

  /** The loop over the tickets with ids below `n`. */
  function ServicosAte(db: Db, cfg: ConfigSci, pagamento: Date, render: RegistroServico -> string, n: nat): ExportacaoServicos
  {
    if n == 0 then ExportacaoServicos("", [], [], false)
    else PassoServicos(db, cfg, pagamento, render, ServicosAte(db, cfg, pagamento, render, n - 1), n - 1)
  }

  /** Each marked ticket with its provider's seen-list entry, in order. */
  ghost predicate MarcadosCoerentes(db: Db, e: ExportacaoServicos, n: nat) {
    && |e.exportados| == |e.marcados|
    && (forall k :: 0 <= k < |e.marcados| ==>
          e.marcados[k] < n && Elegivel(db, e.marcados[k]) && e.exportados[k] == db.tickets[e.marcados[k]].prestador)
    && (forall a, b :: 0 <= a < b < |e.marcados| ==> e.marcados[a] < e.marcados[b] && e.exportados[a] != e.exportados[b])
  }

  lemma {:induction false} ServicosAteCoerente(db: Db, cfg: ConfigSci, pagamento: Date, render: RegistroServico -> string, n: nat)
    ensures MarcadosCoerentes(db, ServicosAte(db, cfg, pagamento, render, n), n)
  {
    if n > 0 {
      ServicosAteCoerente(db, cfg, pagamento, render, n - 1);
      var e := ServicosAte(db, cfg, pagamento, render, n - 1);
      var e' := ServicosAte(db, cfg, pagamento, render, n);
      if e'.marcados != e.marcados {
        assert e'.marcados == e.marcados + [n - 1];
        assert e'.exportados == e.exportados + [db.tickets[n - 1].prestador];
        assert db.tickets[n - 1].prestador !in e.exportados;
        assert Elegivel(db, n - 1);
      }
    }
  }

  /** The run throws exactly when some selected ticket has a dangling provider. */
  lemma {:induction false} ServicosAteFalha(db: Db, cfg: ConfigSci, pagamento: Date, render: RegistroServico -> string, n: nat)
    ensures ServicosAte(db, cfg, pagamento, render, n).falhou <==> !SemFalhaServicoAntes(db, n)
  {
    if n > 0 {
      ServicosAteFalha(db, cfg, pagamento, render, n - 1);
      if !SemFalhaServicoAntes(db, n - 1) {
        var u :| 0 <= u < n - 1 && FalhaServico(db, u);
        assert !SemFalhaServicoAntes(db, n) by { assert FalhaServico(db, u); }
      } else if FalhaServico(db, n - 1) {
        assert !SemFalhaServicoAntes(db, n);
      } else {
        assert SemFalhaServicoAntes(db, n) by {
          forall u | 0 <= u < n
            ensures !FalhaServico(db, u)
          {
            if u < n - 1 {
              assert !FalhaServico(db, u);
            }
          }
        }
      }
    }
  }

  /** A provider is on the seen-list iff an eligible ticket of it was reached before any exception. */
  lemma {:induction false} ServicosAteExportados(db: Db, cfg: ConfigSci, pagamento: Date, render: RegistroServico -> string, n: nat, q: Id)
    ensures q in ServicosAte(db, cfg, pagamento, render, n).exportados <==>
      (exists u :: 0 <= u < n && Elegivel(db, u) && SemFalhaServicoAntes(db, u) && db.tickets[u].prestador == q)
  {
    if n > 0 {
      ServicosAteExportados(db, cfg, pagamento, render, n - 1, q);
      ServicosAteFalha(db, cfg, pagamento, render, n - 1);
      var e := ServicosAte(db, cfg, pagamento, render, n - 1);
      if (exists u :: 0 <= u < n && Elegivel(db, u) && SemFalhaServicoAntes(db, u) && db.tickets[u].prestador == q) {
        var u :| 0 <= u < n && Elegivel(db, u) && SemFalhaServicoAntes(db, u) && db.tickets[u].prestador == q;
        if u == n - 1 && q !in e.exportados {
          assert !e.falhou;
        }
      }
    }
  }

  /**
   * A ticket is exported iff it is eligible, no exception came before it, and
   * no earlier eligible ticket has the same provider.
   */
  lemma ServicosAteMarcados(db: Db, cfg: ConfigSci, pagamento: Date, render: RegistroServico -> string, n: nat, id: Id)
    ensures id in ServicosAte(db, cfg, pagamento, render, n).marcados <==>
      id < n && Elegivel(db, id) && SemFalhaServicoAntes(db, id) && PrimeiroDoPrestador(db, id)
  {
    ServicosAteMarcaUm(db, cfg, pagamento, render, n, id);
  }

  lemma {:induction false} ServicosAteMarcaUm(db: Db, cfg: ConfigSci, pagamento: Date, render: RegistroServico -> string, n: nat, id: Id)
    ensures id in ServicosAte(db, cfg, pagamento, render, n).marcados <==>
      id < n && Elegivel(db, id) && SemFalhaServicoAntes(db, id) && PrimeiroDoPrestador(db, id)
  {
    if n > 0 {
      ServicosAteMarcaUm(db, cfg, pagamento, render, n - 1, id);
      if id == n - 1 {
        var e := ServicosAte(db, cfg, pagamento, render, n - 1);
        ServicosAteCoerente(db, cfg, pagamento, render, n - 1);
        ServicosAteFalha(db, cfg, pagamento, render, n - 1);
        if id in db.tickets {
          ServicosAteExportados(db, cfg, pagamento, render, n - 1, db.tickets[id].prestador);
        }
        assert id !in e.marcados;
      }
    }
  }

  /** A ticket whose record can be built: its provider is stored and has `sciUnico`, and it has services. */
  predicate ComRegistro(db: Db, id: Id) {
    && id in db.tickets && db.tickets[id].prestador in db.prestadores
    && TemSciUnico(db.prestadores[db.tickets[id].prestador])
    && |Populados(db.servicos, db.tickets[id].servicos)| > 0
  }

  /** The document is the rendered records of the marked tickets, in ticket order, each followed by a blank line. */
  function Documento(db: Db, cfg: ConfigSci, pagamento: Date, render: RegistroServico -> string, ids: seq<Id>): string
    requires forall k :: 0 <= k < |ids| ==> ComRegistro(db, ids[k])
  {
    if ids == [] then ""
    else
      var id := ids[|ids| - 1];
      assert ComRegistro(db, id);
      var t := db.tickets[id];
      Documento(db, cfg, pagamento, render, ids[..|ids| - 1])
        + render(RegistroDoTicket(db.prestadores[t.prestador], Populados(db.servicos, t.servicos), cfg, pagamento)) + "\n\n"
  }

  /** One more marked ticket appends its rendered record to the document. */
  lemma DocumentoAcrescenta(db: Db, cfg: ConfigSci, pagamento: Date, render: RegistroServico -> string, ids: seq<Id>, id: Id)
    requires forall k :: 0 <= k < |ids| ==> ComRegistro(db, ids[k])
    requires ComRegistro(db, id)
    ensures Documento(db, cfg, pagamento, render, ids + [id])
         == Documento(db, cfg, pagamento, render, ids)
            + render(RegistroDoTicket(db.prestadores[db.tickets[id].prestador],
                                      Populados(db.servicos, db.tickets[id].servicos), cfg, pagamento)) + "\n\n"
  {
    assert (ids + [id])[..|ids + [id]| - 1] == ids;
  }

  /** The loop's document is the records of the tickets it marked. */
  ghost predicate DocumentoDosMarcados(db: Db, cfg: ConfigSci, pagamento: Date, render: RegistroServico -> string, e: ExportacaoServicos) {
    && (forall k :: 0 <= k < |e.marcados| ==> ComRegistro(db, e.marcados[k]))
    && e.documento == Documento(db, cfg, pagamento, render, e.marcados)
  }

  /** One loop iteration, from `e` to `e'`, keeps the document equal to the records of the marked tickets. */
  lemma DocumentoPasso(db: Db, cfg: ConfigSci, pagamento: Date, render: RegistroServico -> string,
                       e: ExportacaoServicos, e': ExportacaoServicos, id: Id)
    requires e' == PassoServicos(db, cfg, pagamento, render, e, id)
    requires DocumentoDosMarcados(db, cfg, pagamento, render, e)
    ensures DocumentoDosMarcados(db, cfg, pagamento, render, e')
  {
    if e'.marcados != e.marcados {
      assert e'.marcados == e.marcados + [id];
      DocumentoAcrescenta(db, cfg, pagamento, render, e.marcados, id);
    }
  }

  lemma {:induction false} ServicosAteDocumentoDosMarcados(db: Db, cfg: ConfigSci, pagamento: Date, render: RegistroServico -> string, n: nat)
    ensures DocumentoDosMarcados(db, cfg, pagamento, render, ServicosAte(db, cfg, pagamento, render, n))
  {
    if n > 0 {
      ServicosAteDocumentoDosMarcados(db, cfg, pagamento, render, n - 1);
      DocumentoPasso(db, cfg, pagamento, render, ServicosAte(db, cfg, pagamento, render, n - 1),
                     ServicosAte(db, cfg, pagamento, render, n), n - 1);
    }
  }

  /** The document the service loop builds is the rendered records of the tickets it marked, in order. */
  lemma ServicosAteDocumento(db: Db, cfg: ConfigSci, pagamento: Date, render: RegistroServico -> string, n: nat)
    ensures var e := ServicosAte(db, cfg, pagamento, render, n);
      MarcadosCoerentes(db, e, n) && e.documento == Documento(db, cfg, pagamento, render, e.marcados)
  {
    ServicosAteCoerente(db, cfg, pagamento, render, n);
    ServicosAteDocumentoDosMarcados(db, cfg, pagamento, render, n);
  }

  /** The exported tickets become `trabalhando`; every other ticket stays as it was. */
  function MarcarTrabalhando(tickets: map<Id, Ticket>, ids: seq<Id>): (r: map<Id, Ticket>)
    ensures r.Keys == tickets.Keys
    ensures forall t :: t in tickets && t in ids ==> r[t] == tickets[t].(status := StatusTrabalhando)
    ensures forall t :: t in tickets && t !in ids ==> r[t] == tickets[t]
  {
    map t | t in tickets :: if t in ids then tickets[t].(status := StatusTrabalhando) else tickets[t]
  }

  lemma MarcarMaisUm(tickets: map<Id, Ticket>, ids: seq<Id>, id: Id)
    requires id in tickets && id !in ids
    ensures MarcarTrabalhando(tickets, ids + [id])
         == MarcarTrabalhando(tickets, ids)[id := tickets[id].(status := StatusTrabalhando)]
  {
  }

  /** Marking tickets `trabalhando` keeps the store consistent. */
  lemma MarcarTrabalhandoValido(db: Db, ids: seq<Id>)
    requires db.Valid()
    ensures db.(tickets := MarcarTrabalhando(db.tickets, ids)).Valid()
  {
    MesmosVinculosValido(db, MarcarTrabalhando(db.tickets, ids));
  }

  /** Saves ticket `id` as `trabalhando` and records it as marked. */
  method SalvarTrabalhando(store: Store, db: Db, ghost marcados: seq<Id>, id: Id)
    requires id in db.tickets && id !in marcados
    requires store.tickets == MarcarTrabalhando(db.tickets, marcados)
    modifies store
    ensures store.tickets == MarcarTrabalhando(db.tickets, marcados + [id])
    ensures store.prestadores == old(store.prestadores) && store.servicos == old(store.servicos)
    ensures store.contas == old(store.contas) && store.nextId == old(store.nextId)
  {
    MarcarMaisUm(db.tickets, marcados, id);
    store.tickets := store.tickets[id := db.tickets[id].(status := StatusTrabalhando)];
  }

  /** One iteration of the ticket loop on the store: the exported ticket is saved as `trabalhando`. */
  method ExportarTicket(store: Store, db: Db, cfg: ConfigSci, pagamento: Date, render: RegistroServico -> string,
                        id: Id, doc: string, exportados: seq<Id>, ghost marcados: seq<Id>)
    returns (doc': string, exportados': seq<Id>, ghost marcados': seq<Id>, falhou: bool)
    requires forall k :: 0 <= k < |marcados| ==> marcados[k] < id
    requires store.tickets == MarcarTrabalhando(db.tickets, marcados)
    modifies store
    ensures PassoServicos(db, cfg, pagamento, render, ExportacaoServicos(doc, exportados, marcados, false), id)
         == ExportacaoServicos(doc', exportados', marcados', falhou)
    ensures forall k :: 0 <= k < |marcados'| ==> marcados'[k] <= id
    ensures store.tickets == MarcarTrabalhando(db.tickets, marcados')
    ensures store.prestadores == old(store.prestadores) && store.servicos == old(store.servicos)
    ensures store.contas == old(store.contas) && store.nextId == old(store.nextId)
  {
    doc', exportados', marcados', falhou := doc, exportados, marcados, false;
    if id !in db.tickets || !Selecionado(db.tickets[id]) {
      return;
    }
    var t := db.tickets[id];
    if t.prestador !in db.prestadores {
      falhou := true;
      return;
    }
    var prestador := db.prestadores[t.prestador];
    var servs := Populados(db.servicos, t.servicos);
    if TemSciUnico(prestador) && |servs| > 0 && t.prestador !in exportados {
      var total, datas := AcumularServicos(servs);
      if total > 0 {
        var registro := RegistroServico(prestador.sciUnico.value, cfg.codCentroCusto, cfg.codEmpresa,
                                        cfg.porcentagemIss, FormatDdMMyyyy(pagamento),
                                        FormatDdMMyyyy(Latest(datas).value), 1, total);
        assert registro == RegistroDoTicket(prestador, servs, cfg, pagamento);
        assert id !in marcados;
        SalvarTrabalhando(store, db, marcados, id);
        doc' := doc + render(registro) + "\n\n";
        exportados' := exportados + [t.prestador];
        marcados' := marcados + [id];
      }
    }
  }

  /**
   * `exportarServicos`, with the settings, the payment date (today plus the
   * configured days) and the record renderer as parameters. The result is the
   * document e-mailed at the end, `None` when the loop threw.
   */
  method ExportarServicos(store: Store, cfg: ConfigSci, pagamento: Date, render: RegistroServico -> string)
    returns (documento: Option<string>)
    modifies store
    ensures var e := ServicosAte(old(store.State()), cfg, pagamento, render, old(store.nextId));
      && documento == (if e.falhou then None else Some(e.documento))
      && store.State() == old(store.State()).(tickets := MarcarTrabalhando(old(store.tickets), e.marcados))
  {
    var db := store.State();
    var doc := "";
    var exportados: seq<Id> := [];
    ghost var marcados: seq<Id> := [];
    var i := 0;
    while i < db.nextId
      invariant 0 <= i <= db.nextId
      invariant ServicosAte(db, cfg, pagamento, render, i) == ExportacaoServicos(doc, exportados, marcados, false)
      invariant forall k :: 0 <= k < |marcados| ==> marcados[k] < i
      invariant store.prestadores == db.prestadores && store.servicos == db.servicos
      invariant store.contas == db.contas && store.nextId == db.nextId
      invariant store.tickets == MarcarTrabalhando(db.tickets, marcados)
    {
      var falhou;
      doc, exportados, marcados, falhou := ExportarTicket(store, db, cfg, pagamento, render, i, doc, exportados, marcados);
      if falhou {
        ServicosAteSegueFalhando(db, cfg, pagamento, render, i + 1, db.nextId);
        return None;
      }
      i := i + 1;
    }
    return Some(doc);
  }

  /** Once the loop has thrown, later tickets change nothing. */
  lemma {:induction false} ServicosAteSegueFalhando(db: Db, cfg: ConfigSci, pagamento: Date, render: RegistroServico -> string, m: nat, n: nat)
    requires m <= n && ServicosAte(db, cfg, pagamento, render, m).falhou
    ensures ServicosAte(db, cfg, pagamento, render, n) == ServicosAte(db, cfg, pagamento, render, m)
    decreases n - m
  {
    if m < n {
      ServicosAteSegueFalhando(db, cfg, pagamento, render, m, n - 1);
    }
  }
  /** Two services of the same provider, competencies 3/2024 and 6/2024: the record's realization date is 01062024. */
  lemma ExemploDataDeRealizacao(prestador: Id)
    ensures var s1 := Servico(prestador, Some(3), Some(2024), None, None, None, None, Some(100), false, "ativo");
            var s2 := Servico(prestador, Some(6), Some(2024), None, None, None, None, Some(50), false, "ativo");
      && SomaTotal([s1, s2]) == 150
      && Latest(Competencias([s1, s2])) == Some(Date(2024, 6, 1))
      && FormatDdMMyyyy(Latest(Competencias([s1, s2])).value) == "01062024"
  {
    var s1 := Servico(prestador, Some(3), Some(2024), None, None, None, None, Some(100), false, "ativo");
    var s2 := Servico(prestador, Some(6), Some(2024), None, None, None, None, Some(50), false, "ativo");
    assert [s1, s2][..1] == [s1];
    assert [s1][..0] == [];
    assert SomaTotal([s1]) == 100;
    assert Competencias([s1, s2]) == [Date(2024, 3, 1), Date(2024, 6, 1)];
    assert Competencias([s1, s2])[..1] == [Date(2024, 3, 1)];
    FormatJune2024();
  }

  // ----- the provider export -----

  /** The fields handed to the provider-record renderer; `None` is `undefined`. */
  datatype RegistroPrestador = RegistroPrestador(
    documento: Option<string>,
    bairro: Option<string>,
    email: Option<string>,
    nome: string,
    cep: Option<string>,
    nomeMae: Option<string>,
    pisNis: Option<string>,
    rg: Option<string>,
    orgaoEmissorRG: Option<string>,
    dataNascimento: string)

  /**
   * The record of a provider, as the `pessoaFisica ? … : ""` guards intend
   * it. The provider schema has no `bairro`, so it is always `undefined`;
   * the individual-person fields are `""` when the provider has no
   * `pessoaFisica`. `None` when the provider is an individual without a
   * birth date: formatting the missing date throws.
   */
  function RegistroDoPrestador(p: Prestador): (r: Option<RegistroPrestador>)
    ensures r.None? <==> p.pessoaFisica.Some? && p.pessoaFisica.value.dataNascimento.None?
    ensures r.Some? ==> r.value.documento == p.documento && r.value.email == p.email && r.value.nome == p.nome
    ensures r.Some? ==> r.value.bairro.None? && (p.endereco.None? ==> r.value.cep == Some(""))
    ensures r.Some? && p.pessoaFisica.None? ==>
      && r.value.nomeMae == Some("") && r.value.pisNis == Some("") && r.value.rg == Some("")
      && r.value.orgaoEmissorRG == Some("") && r.value.dataNascimento == ""
    ensures r.Some? && p.endereco.Some? ==> r.value.cep == p.endereco.value.cep
    ensures r.Some? && p.pessoaFisica.Some? ==>
      && r.value.nomeMae == p.pessoaFisica.value.nomeMae && r.value.pisNis == p.pessoaFisica.value.pis
      && r.value.rg == p.pessoaFisica.value.rg.numero && r.value.orgaoEmissorRG == p.pessoaFisica.value.rg.orgaoEmissor
      && r.value.dataNascimento == FormatDdMMyyyy(p.pessoaFisica.value.dataNascimento.value)
  {
    var cep := if p.endereco.Some? then p.endereco.value.cep else Some("");
    match p.pessoaFisica
    case None =>
      Some(RegistroPrestador(p.documento, None, p.email, p.nome, cep, Some(""), Some(""), Some(""), Some(""), ""))
    case Some(pf) =>
      if pf.dataNascimento.None? then None
      else
        Some(RegistroPrestador(p.documento, None, p.email, p.nome, cep, pf.nomeMae, pf.pis, pf.rg.numero,
                               pf.rg.orgaoEmissor, FormatDdMMyyyy(pf.dataNascimento.value)))
  }

  /**
   * The record as the guards actually evaluate: `pessoaFisica` is a nested
   * path, which Mongoose always returns as an object, so every guard takes
   * its first branch and a provider without individual-person data gets
   * `undefined` fields and a missing birth date, which throws.
   */
  function RegistroDoPrestadorComoEscrito(p: Prestador): (r: Option<RegistroPrestador>)
    ensures r.None? <==> p.pessoaFisica.None? || p.pessoaFisica.value.dataNascimento.None?
    ensures p.pessoaFisica.Some? ==> r == RegistroDoPrestador(p)
  {
    var pf := if p.pessoaFisica.Some? then p.pessoaFisica.value else PessoaFisica(None, None, None, Rg(None, None));
    var cep := if p.endereco.Some? then p.endereco.value.cep else Some("");
    if pf.dataNascimento.None? then None
    else
      Some(RegistroPrestador(p.documento, None, p.email, p.nome, cep, pf.nomeMae, pf.pis, pf.rg.numero,
                             pf.rg.orgaoEmissor, FormatDdMMyyyy(pf.dataNascimento.value)))
  }

  /** A provider without individual-person data: as written the export throws on it; as intended it gets empty fields. */
  lemma SemPessoaFisicaComoEscritoFalha(p: Prestador)
    requires p.pessoaFisica.None?
    ensures RegistroDoPrestadorComoEscrito(p).None?
    ensures RegistroDoPrestador(p).Some? && RegistroDoPrestador(p).value.dataNascimento == ""
  {
  }

  /** A selected ticket on which the provider loop throws: a dangling provider, or a provider to export whose record cannot be built. */
  predicate FalhaPrestador(db: Db, id: Id) {
    && id in db.tickets && Selecionado(db.tickets[id])
    && (db.tickets[id].prestador !in db.prestadores
        || (!TemSciUnico(db.prestadores[db.tickets[id].prestador])
            && RegistroDoPrestador(db.prestadores[db.tickets[id].prestador]).None?))
  }

  /** A selected ticket whose provider lacks `sciUnico` and has a record. */
  predicate Candidato(db: Db, id: Id) {
    && id in db.tickets && Selecionado(db.tickets[id])
    && db.tickets[id].prestador in db.prestadores
    && !TemSciUnico(db.prestadores[db.tickets[id].prestador])
    && RegistroDoPrestador(db.prestadores[db.tickets[id].prestador]).Some?
  }

  predicate SemFalhaPrestadorAntes(db: Db, id: Id) {
    forall u :: 0 <= u < id ==> !FalhaPrestador(db, u)
  }

  /** The provider loop's variables: the document, the seen-list, and whether it threw. */
  datatype ExportacaoPrestadores = ExportacaoPrestadores(documento: string, exportados: seq<Id>, falhou: bool)

  /** One iteration of the provider loop, on ticket `id`. */
  function PassoPrestadores(db: Db, render: RegistroPrestador -> string, e: ExportacaoPrestadores, id: Id): ExportacaoPrestadores
  {
    if e.falhou || id !in db.tickets || !Selecionado(db.tickets[id]) then e
    else if db.tickets[id].prestador !in db.prestadores then e.(falhou := true)
    else
      var q := db.tickets[id].prestador;
      var p := db.prestadores[q];
      if TemSciUnico(p) || q in e.exportados then e
      else
        match RegistroDoPrestador(p)
        case None => e.(falhou := true)
        case Some(r) => ExportacaoPrestadores(e.documento + render(r) + "\n\n", e.exportados + [q], false)
  }

  /** The provider loop over the tickets with ids below `n`. */
  function PrestadoresAte(db: Db, render: RegistroPrestador -> string, n: nat): ExportacaoPrestadores
  {
    if n == 0 then ExportacaoPrestadores("", [], false)
    else PassoPrestadores(db, render, PrestadoresAte(db, render, n - 1), n - 1)
  }

  /** The run throws exactly when a ticket before `n` is one the loop throws on. */
  lemma {:induction false} PrestadoresAteFalha(db: Db, render: RegistroPrestador -> string, n: nat)
    ensures PrestadoresAte(db, render, n).falhou <==> !SemFalhaPrestadorAntes(db, n)
  {
    if n > 0 {
      PrestadoresAteFalha(db, render, n - 1);
      var e := PrestadoresAte(db, render, n - 1);
      if !SemFalhaPrestadorAntes(db, n - 1) {
        var u :| 0 <= u < n - 1 && FalhaPrestador(db, u);
        assert !SemFalhaPrestadorAntes(db, n) by { assert FalhaPrestador(db, u); }
      } else if FalhaPrestador(db, n - 1) {
        assert !SemFalhaPrestadorAntes(db, n);
        var q := db.tickets[n - 1].prestador;
        if q in db.prestadores && q in e.exportados {
          PrestadoresAteExportadosTemRegistro(db, render, n - 1);
        }
      } else {
        assert SemFalhaPrestadorAntes(db, n) by {
          forall u | 0 <= u < n
            ensures !FalhaPrestador(db, u)
          {
            if u < n - 1 {
              assert !FalhaPrestador(db, u);
            }
          }
        }
      }
    }
  }

  /** Distinct providers, each stored, without `sciUnico` and with a record. */
  ghost predicate ExportadosCoerentes(db: Db, ex: seq<Id>) {
    && (forall k :: 0 <= k < |ex| ==>
          ex[k] in db.prestadores && !TemSciUnico(db.prestadores[ex[k]]) && RegistroDoPrestador(db.prestadores[ex[k]]).Some?)
    && (forall a, b :: 0 <= a < b < |ex| ==> ex[a] != ex[b])
  }

  /** The seen-list of the provider loop holds distinct providers, each stored, without `sciUnico` and with a record. */
  lemma {:induction false} PrestadoresAteExportadosTemRegistro(db: Db, render: RegistroPrestador -> string, n: nat)
    ensures ExportadosCoerentes(db, PrestadoresAte(db, render, n).exportados)
  {
    if n > 0 {
      PrestadoresAteExportadosTemRegistro(db, render, n - 1);
      var e := PrestadoresAte(db, render, n - 1);
      var e' := PrestadoresAte(db, render, n);
      if e'.exportados != e.exportados {
        var q := db.tickets[n - 1].prestador;
        assert !e.falhou && n - 1 in db.tickets && Selecionado(db.tickets[n - 1]) && q in db.prestadores;
        assert !TemSciUnico(db.prestadores[q]) && q !in e.exportados;
        assert RegistroDoPrestador(db.prestadores[q]).Some?;
        assert e'.exportados == e.exportados + [q];
      }
    }
  }

  /** A provider is exported iff a candidate ticket of it comes before any exception. */
  lemma {:induction false} PrestadoresAteExportados(db: Db, render: RegistroPrestador -> string, n: nat, q: Id)
    ensures q in PrestadoresAte(db, render, n).exportados <==>
      (exists u :: 0 <= u < n && Candidato(db, u) && SemFalhaPrestadorAntes(db, u) && db.tickets[u].prestador == q)
  {
    if n > 0 {
      PrestadoresAteExportados(db, render, n - 1, q);
      PrestadoresAteFalha(db, render, n - 1);
      var e := PrestadoresAte(db, render, n - 1);
      var e' := PrestadoresAte(db, render, n);
      assert forall x :: x in e.exportados ==> x in e'.exportados;
      if q in e'.exportados {
        if q !in e.exportados {
          assert Candidato(db, n - 1) && SemFalhaPrestadorAntes(db, n - 1) && db.tickets[n - 1].prestador == q;
        } else {
          var u :| 0 <= u < n - 1 && Candidato(db, u) && SemFalhaPrestadorAntes(db, u) && db.tickets[u].prestador == q;
        }
      } else {
        forall u | 0 <= u < n && Candidato(db, u) && SemFalhaPrestadorAntes(db, u)
          ensures db.tickets[u].prestador != q
        {
          if u == n - 1 {
            assert !e.falhou;
          }
        }
      }
    }
  }

  /** Once the provider loop has thrown, later tickets change nothing. */
  lemma {:induction false} PrestadoresAteSegueFalhando(db: Db, render: RegistroPrestador -> string, m: nat, n: nat)
    requires m <= n && PrestadoresAte(db, render, m).falhou
    ensures PrestadoresAte(db, render, n) == PrestadoresAte(db, render, m)
    decreases n - m
  {
    if m < n {
      PrestadoresAteSegueFalhando(db, render, m, n - 1);
    }
  }

  /** The provider document is the rendered records of the exported providers, in export order, each followed by a blank line. */
  function DocumentoPrestadores(db: Db, render: RegistroPrestador -> string, ids: seq<Id>): string
    requires forall k :: 0 <= k < |ids| ==> ids[k] in db.prestadores && RegistroDoPrestador(db.prestadores[ids[k]]).Some?
  {
    if ids == [] then ""
    else
      var q := ids[|ids| - 1];
      DocumentoPrestadores(db, render, ids[..|ids| - 1]) + render(RegistroDoPrestador(db.prestadores[q]).value) + "\n\n"
  }

  lemma {:induction false} PrestadoresAteDocumento(db: Db, render: RegistroPrestador -> string, n: nat)
    ensures var e := PrestadoresAte(db, render, n);
      ExportadosCoerentes(db, e.exportados) && e.documento == DocumentoPrestadores(db, render, e.exportados)
  {
    PrestadoresAteExportadosTemRegistro(db, render, n);
    if n > 0 {
      PrestadoresAteDocumento(db, render, n - 1);
      var e := PrestadoresAte(db, render, n - 1);
      var e' := PrestadoresAte(db, render, n);
      if e'.exportados != e.exportados {
        assert e'.exportados[..|e'.exportados| - 1] == e.exportados;
      }
    }
  }

  /** Exported providers become `aguardando-codigo-sci` with the export time; every other provider stays as it was. */
  function MarcarAguardandoSci(prestadores: map<Id, Prestador>, ids: seq<Id>, agora: Date): (r: map<Id, Prestador>)
    ensures r.Keys == prestadores.Keys
    ensures forall q :: q in prestadores && q in ids ==>
      r[q] == prestadores[q].(status := AguardandoCodigoSci, dataExportacao := Some(agora))
    ensures forall q :: q in prestadores && q !in ids ==> r[q] == prestadores[q]
  {
    map q | q in prestadores ::
      if q in ids then prestadores[q].(status := AguardandoCodigoSci, dataExportacao := Some(agora)) else prestadores[q]
  }

  lemma MarcarAguardandoMaisUm(prestadores: map<Id, Prestador>, ids: seq<Id>, q: Id, agora: Date)
    requires q in prestadores && q !in ids
    ensures MarcarAguardandoSci(prestadores, ids + [q], agora)
         == MarcarAguardandoSci(prestadores, ids, agora)[q := prestadores[q].(status := AguardandoCodigoSci, dataExportacao := Some(agora))]
  {
  }

  /** Marking providers keeps `sid` and `sciUnico`, hence the store's consistency. */
  lemma MarcarAguardandoSciValido(db: Db, ids: seq<Id>, agora: Date)
    requires db.Valid()
    ensures db.(prestadores := MarcarAguardandoSci(db.prestadores, ids, agora)).Valid()
  {
    var d := db.(prestadores := MarcarAguardandoSci(db.prestadores, ids, agora));
    assert d.IdsAlocados() by { assert db.IdsAlocados(); }
    assert d.Referencias() by { assert db.Referencias(); }
    assert d.ChavesUnicas() by { assert db.ChavesUnicas(); }
  }

  /** Providers that have `sciUnico` come out of a provider export untouched. */
  lemma PrestadoresComSciIntocados(db: Db, render: RegistroPrestador -> string, agora: Date, q: Id)
    requires q in db.prestadores && TemSciUnico(db.prestadores[q])
    ensures MarcarAguardandoSci(db.prestadores, PrestadoresAte(db, render, db.nextId).exportados, agora)[q]
         == db.prestadores[q]
  {
    PrestadoresAteExportadosTemRegistro(db, render, db.nextId);
  }

  /** Saves provider `q` as `aguardando-codigo-sci` and records it as exported. */
  method SalvarAguardandoSci(store: Store, db: Db, exportados: seq<Id>, q: Id, agora: Date)
    requires q in db.prestadores && q !in exportados
    requires store.prestadores == MarcarAguardandoSci(db.prestadores, exportados, agora)
    modifies store
    ensures store.prestadores == MarcarAguardandoSci(db.prestadores, exportados + [q], agora)
    ensures store.tickets == old(store.tickets) && store.servicos == old(store.servicos)
    ensures store.contas == old(store.contas) && store.nextId == old(store.nextId)
  {
    MarcarAguardandoMaisUm(db.prestadores, exportados, q, agora);
    store.prestadores := store.prestadores[q := db.prestadores[q].(status := AguardandoCodigoSci, dataExportacao := Some(agora))];
  }

  /** One iteration of the provider loop on the store. */
  method ExportarPrestadorDoTicket(store: Store, db: Db, render: RegistroPrestador -> string, agora: Date,
                                   id: Id, doc: string, exportados: seq<Id>)
    returns (doc': string, exportados': seq<Id>, falhou: bool)
    requires store.prestadores == MarcarAguardandoSci(db.prestadores, exportados, agora)
    modifies store
    ensures PassoPrestadores(db, render, ExportacaoPrestadores(doc, exportados, false), id)
         == ExportacaoPrestadores(doc', exportados', falhou)
    ensures store.prestadores == MarcarAguardandoSci(db.prestadores, exportados', agora)
    ensures store.tickets == old(store.tickets) && store.servicos == old(store.servicos)
    ensures store.contas == old(store.contas) && store.nextId == old(store.nextId)
  {
    doc', exportados', falhou := doc, exportados, false;
    if id !in db.tickets || !Selecionado(db.tickets[id]) {
      return;
    }
    var q := db.tickets[id].prestador;
    if q !in db.prestadores {
      falhou := true;
      return;
    }
    var prestador := db.prestadores[q];
    if !TemSciUnico(prestador) && q !in exportados {
      var registro := RegistroDoPrestador(prestador);
      if registro.None? {
        falhou := true;
        return;
      }
      doc' := doc + render(registro.value) + "\n\n";
      SalvarAguardandoSci(store, db, exportados, q, agora);
      exportados' := exportados + [q];
    }
  }

  /**
   * `exportarPrestadores`, with the export time and the record renderer as
   * parameters. The result is the document e-mailed at the end, `None` when
   * the loop threw.
   */
  method ExportarPrestadores(store: Store, agora: Date, render: RegistroPrestador -> string)
    returns (documento: Option<string>)
    modifies store
    ensures var e := PrestadoresAte(old(store.State()), render, old(store.nextId));
      && documento == (if e.falhou then None else Some(e.documento))
      && store.State() == old(store.State()).(prestadores := MarcarAguardandoSci(old(store.prestadores), e.exportados, agora))
  {
    var db := store.State();
    var doc := "";
    var exportados: seq<Id> := [];
    var i := 0;
    while i < db.nextId
      invariant 0 <= i <= db.nextId
      invariant PrestadoresAte(db, render, i) == ExportacaoPrestadores(doc, exportados, false)
      invariant store.tickets == db.tickets && store.servicos == db.servicos
      invariant store.contas == db.contas && store.nextId == db.nextId
      invariant store.prestadores == MarcarAguardandoSci(db.prestadores, exportados, agora)
    {
      var falhou;
      doc, exportados, falhou := ExportarPrestadorDoTicket(store, db, render, agora, i, doc, exportados);
      if falhou {
        PrestadoresAteSegueFalhando(db, render, i + 1, db.nextId);
        return None;
      }
      i := i + 1;
    }
    return Some(doc);
  }
}
