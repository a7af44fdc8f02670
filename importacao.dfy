/**
 * `importarComissoes`: the commission spreadsheet, already read into a grid of
 * cells, becomes row records (header dropped, rows without `sid` or provider
 * name skipped); each row then finds or creates its provider by `sid` and
 * creates one service and one ticket. All rows run in one session, so the
 * import commits entirely or leaves the store as it was.
 */
module Importacao {
  import opened Wrappers
  import opened Texto
  import opened PrestadorSchema
  import opened Entidades

  /** A spreadsheet cell as the sheet reader yields it: text or a number. */
  datatype Cell = Text(s: string) | Num(n: int)

  /** JavaScript truthiness of a cell that may be missing (`undefined`). */
  predicate Truthy(c: Option<Cell>) {
    match c
    case None => false
    case Some(Text(s)) => s != ""
    case Some(Num(n)) => n != 0
  }

  function CellAt(row: seq<Cell>, k: nat): Option<Cell> {
    if k < |row| then Some(row[k]) else None
  }

  /** `row[k] || fallback` */
  function OrElse(row: seq<Cell>, k: nat, fallback: Cell): Cell {
    if Truthy(CellAt(row, k)) then row[k] else fallback
  }

  /** A field read from column `k`: a truthy cell is copied, a missing or falsy one gives `fallback`. */
  predicate CampoDaColuna(row: seq<Cell>, k: nat, fallback: Cell, v: Cell) {
    && (Truthy(Some(v)) <==> Truthy(CellAt(row, k)))
    && (Truthy(CellAt(row, k)) ==> v == row[k])
    && (!Truthy(CellAt(row, k)) ==> v == fallback)
  }

  datatype LinhaComissao = LinhaComissao(
    sid: Cell,
    nomePrestador: Cell,
    mesCompetencia: Cell,
    anoCompetencia: Cell,
    valorPrincipal: Cell,
    valorBonus: Cell,
    valorAjusteComercial: Cell,
    valorHospedagemAnuncio: Cell,
    valorTotal: Cell)

  /** One data row by column position: `""` for the text columns, `0` for the amounts when the cell is missing or falsy. */
  function MapearLinha(row: seq<Cell>): (l: LinhaComissao)
    ensures CampoDaColuna(row, 0, Text(""), l.sid) && CampoDaColuna(row, 1, Text(""), l.nomePrestador)
    ensures CampoDaColuna(row, 2, Text(""), l.mesCompetencia) && CampoDaColuna(row, 3, Text(""), l.anoCompetencia)
    ensures CampoDaColuna(row, 4, Num(0), l.valorPrincipal) && CampoDaColuna(row, 5, Num(0), l.valorBonus)
    ensures CampoDaColuna(row, 6, Num(0), l.valorAjusteComercial) && CampoDaColuna(row, 7, Num(0), l.valorHospedagemAnuncio)
    ensures CampoDaColuna(row, 8, Num(0), l.valorTotal)
  {
    LinhaComissao(
      OrElse(row, 0, Text("")), OrElse(row, 1, Text("")), OrElse(row, 2, Text("")), OrElse(row, 3, Text("")),
      OrElse(row, 4, Num(0)), OrElse(row, 5, Num(0)), OrElse(row, 6, Num(0)), OrElse(row, 7, Num(0)),
      OrElse(row, 8, Num(0)))
  }

  /** The filter: both `sid` and `nomePrestador` are truthy. */
  predicate LinhaValida(l: LinhaComissao) {
    Truthy(Some(l.sid)) && Truthy(Some(l.nomePrestador))
  }

  /** The grid's rows after the header, mapped and filtered. */
  function ProcessarLinhas(grid: seq<seq<Cell>>): seq<LinhaComissao> {
    if |grid| <= 1 then [] else FiltrarValidas(grid[1..])
  }

  function FiltrarValidas(rows: seq<seq<Cell>>): seq<LinhaComissao>
    decreases |rows|
  {
    if rows == [] then []
    else
      var l := MapearLinha(rows[0]);
      (if LinhaValida(l) then [l] else []) + FiltrarValidas(rows[1..])
  }

  /** The positions from `from` on whose rows pass the filter, in file order. */
  function Mantidas(grid: seq<seq<Cell>>, from: nat): (idx: seq<nat>)
    ensures forall k :: 0 <= k < |idx| ==> from <= idx[k] < |grid| && LinhaValida(MapearLinha(grid[idx[k]]))
    ensures forall i :: from <= i < |grid| && LinhaValida(MapearLinha(grid[i])) ==> i in idx
    ensures forall a, b :: 0 <= a < b < |idx| ==> idx[a] < idx[b]
    decreases |grid| - from
  {
    if from >= |grid| then []
    else (if LinhaValida(MapearLinha(grid[from])) then [from] else []) + Mantidas(grid, from + 1)
  }

  lemma {:induction false} FiltrarValidasSaoAsMantidas(grid: seq<seq<Cell>>, from: nat)
    requires from <= |grid|
    ensures var idx := Mantidas(grid, from);
      |FiltrarValidas(grid[from..])| == |idx|
      && forall k :: 0 <= k < |idx| ==> FiltrarValidas(grid[from..])[k] == MapearLinha(grid[idx[k]])
    decreases |grid| - from
  {
    if from < |grid| {
      FiltrarValidasSaoAsMantidas(grid, from + 1);
      assert grid[from..][1..] == grid[from + 1..];
    }
  }

  /**
   * Row 0 never contributes; a later row is kept iff its `sid` and name cells
   * are truthy; kept rows come out mapped and in file order.
   */
  lemma ProcessarLinhasMantemOrdem(grid: seq<seq<Cell>>)
    ensures var idx := Mantidas(grid, 1); var out := ProcessarLinhas(grid);
      && |out| == |idx|
      && (forall k :: 0 <= k < |idx| ==> out[k] == MapearLinha(grid[idx[k]]))
      && (forall i :: i in idx <==> 1 <= i < |grid| && Truthy(CellAt(grid[i], 0)) && Truthy(CellAt(grid[i], 1)))
      && (forall a, b :: 0 <= a < b < |idx| ==> idx[a] < idx[b])
  {
    if |grid| >= 1 {
      FiltrarValidasSaoAsMantidas(grid, 1);
    }
  }

  // ----- the writes of one row -----

  /**
   * Mongoose's cast of a cell to a Number path: a number is kept, `""`
   * becomes `null`, a string of decimal digits becomes its value, any other
   * text is a cast error.
   */
  function ParaNumero(c: Cell): Result<Option<int>, Cell> {
    match c
    case Num(n) => Ok(Some(n))
    case Text(s) =>
      if s == "" then Ok(None)
      else if AllDigits(s) then Ok(Some(DigitsValue(s)))
      else Err(c)
  }

  /** Decimal digits cast to the number they write, leading zeros or not. */
  lemma ParaNumeroDecimal(n: nat, zeros: string)
    requires forall i :: 0 <= i < |zeros| ==> zeros[i] == '0'
    ensures ParaNumero(Text(NatToString(n))) == Ok(Some(n))
    ensures ParaNumero(Text(zeros + NatToString(n))) == Ok(Some(n))
  {
    NatToStringDigits(n);
    ZerosPrefixValue(zeros, NatToString(n));
  }

  /** Mongoose's cast of a cell to a String path. */
  function ParaTexto(c: Cell): string {
    match c
    case Text(s) => s
    case Num(n) => NumberToString(n)
  }

  /** A Number path's value inside a template literal: `null` prints as `"null"`. */
  function Interpolar(v: Option<int>): string {
    match v
    case None => "null"
    case Some(n) => NumberToString(n)
  }

  /** The `sid` the row looks up and stores, when it casts to a number. */
  function SidDaLinha(l: LinhaComissao): Option<int> {
    match ParaNumero(l.sid)
    case Ok(Some(sid)) => Some(sid)
    case _ => None
  }

  /** The service a row creates for `prestador`; it fails when a competency or amount cell does not cast. */
  function NovoServico(prestador: Id, l: LinhaComissao): Result<Servico, LinhaComissao> {
    var mes := ParaNumero(l.mesCompetencia);
    var ano := ParaNumero(l.anoCompetencia);
    var principal := ParaNumero(l.valorPrincipal);
    var bonus := ParaNumero(l.valorBonus);
    var ajuste := ParaNumero(l.valorAjusteComercial);
    var hospedagem := ParaNumero(l.valorHospedagemAnuncio);
    var total := ParaNumero(l.valorTotal);
    if mes.Ok? && ano.Ok? && principal.Ok? && bonus.Ok? && ajuste.Ok? && hospedagem.Ok? && total.Ok? then
      Ok(Servico(prestador, mes.value, ano.value, principal.value, bonus.value, ajuste.value, hospedagem.value,
                 total.value, false, "ativo"))
    else Err(l)
  }

  function TituloDoTicket(nome: string, s: Servico): string {
    "Comissão " + nome + ": " + Interpolar(s.mesCompetencia) + "/" + Interpolar(s.anoCompetencia)
  }

  /** `Prestador.findOne({ sid })`, or else a new provider pending review under the next id. */
  function PrestadorDaLinha(db: Db, sid: int, nome: string): (r: (Db, Id))
    ensures r.1 in r.0.prestadores && r.0.prestadores[r.1].sid == sid
  {
    var existente := PrestadorPorSid(db.prestadores, sid, 0, db.nextId);
    if existente.Some? then (db, existente.value)
    else (db.(prestadores := db.prestadores[db.nextId := NovoPrestador(sid, nome, PendenteDeRevisao)],
              nextId := db.nextId + 1), db.nextId)
  }

  /** Stores a service and a ticket under the next two ids. */
  function Acrescentar(db: Db, s: Servico, t: Ticket): Db {
    Db(db.prestadores, db.servicos[db.nextId := s], db.tickets[db.nextId + 1 := t], db.contas, db.nextId + 2)
  }

  /** The three writes of one row inside the session; `Err` aborts the import. */
  function ImportarLinha(db: Db, l: LinhaComissao): Result<Db, LinhaComissao> {
    match SidDaLinha(l)
    case None => Err(l)
    case Some(sid) =>
      var r := PrestadorDaLinha(db, sid, ParaTexto(l.nomePrestador));
      var db1 := r.0;
      var pid := r.1;
      match NovoServico(pid, l)
      case Err(_) => Err(l)
      case Ok(s) =>
        Ok(Acrescentar(db1, s, TicketNovo(db1, pid, s)))
  }

  /** The rows in order; the first failing row aborts the whole import. */
  function ImportarTodas(db: Db, linhas: seq<LinhaComissao>): Result<Db, LinhaComissao>
    decreases |linhas|
  {
    if linhas == [] then Ok(db)
    else
      match ImportarTodas(db, linhas[..|linhas| - 1])
      case Err(l) => Err(l)
      case Ok(d) => ImportarLinha(d, linhas[|linhas| - 1])
  }

  lemma {:induction false} ErroInterrompe(db: Db, linhas: seq<LinhaComissao>, k: nat)
    requires 0 < k <= |linhas| && ImportarTodas(db, linhas[..k]).Err?
    ensures ImportarTodas(db, linhas) == ImportarTodas(db, linhas[..k])
    decreases |linhas|
  {
    if k < |linhas| {
      var prefixo := linhas[..|linhas| - 1];
      assert prefixo[..k] == linhas[..k];
      ErroInterrompe(db, prefixo, k);
    } else {
      assert linhas[..k] == linhas;
    }
  }

  // ----- what an import does to the store -----

  /** `d` keeps every record of `db` unchanged and the same payables. */
  ghost predicate Estende(db: Db, d: Db) {
    && db.nextId <= d.nextId
    && (forall id :: id in db.prestadores ==> id in d.prestadores && d.prestadores[id] == db.prestadores[id])
    && (forall id :: id in db.servicos ==> id in d.servicos && d.servicos[id] == db.servicos[id])
    && (forall id :: id in db.tickets ==> id in d.tickets && d.tickets[id] == db.tickets[id])
    && d.contas == db.contas
  }

  /**
   * Ticket `t` of `d` is the one row `l` creates: in its initial state, with
   * exactly one service that carries the row's competency and values, linked
   * to the provider with the row's `sid`, titled after the stored name.
   */
  ghost predicate TicketDaLinha(d: Db, t: Id, l: LinhaComissao) {
    && t in d.tickets
    && (var tk := d.tickets[t];
        && tk.etapa == EtapaRequisicao && tk.status == StatusAguardandoInicio
        && tk.observacao == "" && tk.contaPagarOmie.None?
        && |tk.servicos| == 1 && tk.servicos[0] in d.servicos && tk.prestador in d.prestadores
        && (var s := d.servicos[tk.servicos[0]]; var p := d.prestadores[tk.prestador];
            && SidDaLinha(l) == Some(p.sid)
            && s.prestador == tk.prestador && s.status == "ativo" && !s.correcao
            && NovoServico(tk.prestador, l) == Ok(s)
            && tk.titulo == TituloDoTicket(p.nome, s)))
  }

  lemma TicketDaLinhaPersiste(db: Db, d: Db, t: Id, l: LinhaComissao)
    requires Estende(db, d) && TicketDaLinha(db, t, l)
    ensures TicketDaLinha(d, t, l)
  {
    var tk := db.tickets[t];
    assert d.tickets[t] == tk;
    assert d.servicos[tk.servicos[0]] == db.servicos[tk.servicos[0]];
    assert d.prestadores[tk.prestador] == db.prestadores[tk.prestador];
  }

  lemma EstendeTransitivo(a: Db, b: Db, c: Db)
    requires Estende(a, b) && Estende(b, c)
    ensures Estende(a, c)
  {
  }

  /** Creating a provider under a fresh id with a `sid` no provider has keeps the store consistent. */
  lemma AcrescentarPrestador(db: Db, p: Prestador)
    requires db.Valid() && p.sciUnico.None?
    requires forall id :: id in db.prestadores ==> db.prestadores[id].sid != p.sid
    ensures var d := db.(prestadores := db.prestadores[db.nextId := p], nextId := db.nextId + 1);
      d.Valid() && Estende(db, d)
  {
  }

  /**
   * Find-or-create on a consistent store: the provider with that `sid` is
   * reused when there is one and nothing changes; otherwise one new provider,
   * pending review, is added; the store stays consistent either way.
   */
  lemma PrestadorDaLinhaEfeito(db: Db, sid: int, nome: string)
    requires db.Valid()
    ensures var d := PrestadorDaLinha(db, sid, nome).0;
      && d.Valid() && Estende(db, d)
      && d.servicos == db.servicos && d.tickets == db.tickets
      && ((exists p :: p in db.prestadores && db.prestadores[p].sid == sid) ==> d == db)
      && (forall p :: p in d.prestadores && p !in db.prestadores ==> d.prestadores[p] == NovoPrestador(sid, nome, PendenteDeRevisao))
  {
    var existente := PrestadorPorSid(db.prestadores, sid, 0, db.nextId);
    if existente.None? {
      forall p | p in db.prestadores
        ensures db.prestadores[p].sid != sid
      {
        assert p < db.nextId by { assert db.IdsAlocados(); }
      }
      AcrescentarPrestador(db, NovoPrestador(sid, nome, PendenteDeRevisao));
    }
  }

  lemma TamanhoAposInsercao<V>(m: map<Id, V>, k: Id, v: V)
    requires k !in m
    ensures |m[k := v]| == |m| + 1
  {
  }

  lemma AcrescentarReferencias(db: Db, s: Servico, t: Ticket)
    requires db.Referencias() && db.IdsAlocados() && s.prestador in db.prestadores && t.prestador in db.prestadores
    requires t.servicos == [db.nextId] && t.contaPagarOmie.None?
    ensures Acrescentar(db, s, t).Referencias()
  {
    var d := Acrescentar(db, s, t);
    IdsLivres(db);
    forall u, k | u in d.tickets && 0 <= k < |d.tickets[u].servicos|
      ensures d.tickets[u].servicos[k] in d.servicos
    {
      if u != db.nextId + 1 {
        assert d.tickets[u] == db.tickets[u];
      }
    }
  }

  lemma ServicoETicketConsistentes(db: Db, s: Servico, t: Ticket)
    requires db.Valid() && s.prestador in db.prestadores && t.prestador in db.prestadores
    requires t.servicos == [db.nextId] && t.contaPagarOmie.None?
    ensures Acrescentar(db, s, t).Valid() && Estende(db, Acrescentar(db, s, t))
  {
    var d := Acrescentar(db, s, t);
    AcrescentarEstende(db, s, t);
    IdsLivres(db);
    AcrescentarReferencias(db, s, t);
    assert d.VinculosUnicos() by { assert db.VinculosUnicos(); }
    assert d.ChavesUnicas() by { assert db.ChavesUnicas(); }
    assert d.CodigosUnicos() by { assert db.CodigosUnicos(); }
  }

  lemma TamanhosAposAcrescentar(db: Db, s: Servico, t: Ticket)
    requires db.nextId !in db.servicos && db.nextId + 1 !in db.tickets
    ensures var d := Acrescentar(db, s, t);
      && |d.servicos| == |db.servicos| + 1 && |d.tickets| == |db.tickets| + 1
      && d.tickets.Keys == db.tickets.Keys + {db.nextId + 1}
  {
    TamanhoAposInsercao(db.servicos, db.nextId, s);
    TamanhoAposInsercao(db.tickets, db.nextId + 1, t);
  }

  lemma IdsLivres(db: Db)
    requires db.IdsAlocados()
    ensures db.nextId !in db.servicos && db.nextId + 1 !in db.tickets
  {
  }

  /** Adding a service and an unlinked ticket of an existing provider under fresh ids keeps the store consistent. */
  lemma AcrescentarServicoETicket(db: Db, s: Servico, t: Ticket)
    requires db.Valid() && s.prestador in db.prestadores && t.prestador in db.prestadores
    requires t.servicos == [db.nextId] && t.contaPagarOmie.None?
    ensures var d := Acrescentar(db, s, t);
      && d.Valid() && Estende(db, d)
      && |d.servicos| == |db.servicos| + 1 && |d.tickets| == |db.tickets| + 1
      && d.tickets.Keys == db.tickets.Keys + {db.nextId + 1}
  {
    ServicoETicketConsistentes(db, s, t);
    IdsLivres(db);
    TamanhosAposAcrescentar(db, s, t);
  }

  /**
   * One row on a consistent store: the store stays consistent, nothing
   * already there changes, one service and one ticket are added; the
   * provider with the row's `sid` is reused when there is one and otherwise
   * created pending review.
   */
  lemma ImportarLinhaEfeito(db: Db, l: LinhaComissao)
    requires db.Valid() && ImportarLinha(db, l).Ok?
    ensures var d := ImportarLinha(db, l).value;
      && d.Valid() && Estende(db, d)
      && |d.servicos| == |db.servicos| + 1 && |d.tickets| == |db.tickets| + 1
      && ((exists p :: p in db.prestadores && Some(db.prestadores[p].sid) == SidDaLinha(l)) ==> d.prestadores == db.prestadores)
      && (forall p :: p in d.prestadores && p !in db.prestadores ==>
            d.prestadores[p] == NovoPrestador(SidDaLinha(l).value, ParaTexto(l.nomePrestador), PendenteDeRevisao))
  {
    var sid := SidDaLinha(l).value;
    var r := PrestadorDaLinha(db, sid, ParaTexto(l.nomePrestador));
    var db1 := r.0;
    var pid := r.1;
    PrestadorDaLinhaEfeito(db, sid, ParaTexto(l.nomePrestador));
    var s := NovoServico(pid, l).value;
    var tk := TicketNovo(db1, pid, s);
    var d := Acrescentar(db1, s, tk);
    assert ImportarLinha(db, l) == Ok(d);
    AcrescentarServicoETicket(db1, s, tk);
    EstendeTransitivo(db, db1, d);
  }

  /**
   * Under the `sciUnico` index as declared, a row whose `sid` is new, on a
   * store that already holds a provider without `sciUnico`, creates a second
   * such provider: the store it yields breaks that index (the database
   * would refuse the insert), while it keeps the sparse keys of `Valid`.
   */
  lemma SegundoPrestadorSemSciQuebraIndice(db: Db, l: LinhaComissao)
    requires db.Valid() && ImportarLinha(db, l).Ok?
    requires exists q :: q in db.prestadores && db.prestadores[q].sciUnico.None?
    requires forall q :: q in db.prestadores ==> Some(db.prestadores[q].sid) != SidDaLinha(l)
    ensures var d := ImportarLinha(db, l).value;
      && db.nextId in d.prestadores && d.prestadores[db.nextId].sciUnico.None?
      && !d.IndiceSciUnicoComoDeclarado() && d.Valid()
  {
    var q :| q in db.prestadores && db.prestadores[q].sciUnico.None?;
    var sid := SidDaLinha(l).value;
    var nome := ParaTexto(l.nomePrestador);
    assert PrestadorPorSid(db.prestadores, sid, 0, db.nextId).None?;
    var db1 := PrestadorDaLinha(db, sid, nome).0;
    assert db1.prestadores == db.prestadores[db.nextId := NovoPrestador(sid, nome, PendenteDeRevisao)];
    ImportarLinhaEfeito(db, l);
    var d := ImportarLinha(db, l).value;
    assert d.prestadores == db1.prestadores;
    assert q < db.nextId by { assert db.IdsAlocados(); }
    assert d.prestadores[q].sciUnico == d.prestadores[db.nextId].sciUnico;
  }

  lemma PrestadorDaLinhaAlocados(db: Db, sid: int, nome: string)
    requires db.IdsAlocados()
    ensures var d := PrestadorDaLinha(db, sid, nome).0;
      d.IdsAlocados() && Estende(db, d) && d.servicos == db.servicos && d.tickets == db.tickets
  {
  }

  /** The row's ticket as `ImportarLinha` builds it, for provider `pid` after the find-or-create. */
  function TicketNovo(db1: Db, pid: Id, s: Servico): Ticket
    requires pid in db1.prestadores
  {
    Ticket(TituloDoTicket(db1.prestadores[pid].nome, s), "", EtapaRequisicao, StatusAguardandoInicio, pid, [db1.nextId], None)
  }

  /** Adding a service and a ticket under fresh ids keeps the ids allocated and every record. */
  lemma AcrescentarEstende(db: Db, s: Servico, t: Ticket)
    requires db.IdsAlocados()
    ensures var d := Acrescentar(db, s, t);
      && d.IdsAlocados() && Estende(db, d) && d.tickets.Keys == db.tickets.Keys + {db.nextId + 1}
  {
    IdsLivres(db);
    var d := Acrescentar(db, s, t);
    assert d.IdsAlocados() by { assert db.IdsAlocados(); }
  }

  /** The ticket stored for a row is that row's ticket. */
  lemma AcrescentarTicketDaLinha(db1: Db, l: LinhaComissao, pid: Id, s: Servico)
    requires pid in db1.prestadores && SidDaLinha(l) == Some(db1.prestadores[pid].sid) && NovoServico(pid, l) == Ok(s)
    ensures TicketDaLinha(Acrescentar(db1, s, TicketNovo(db1, pid, s)), db1.nextId + 1, l)
  {
    var d := Acrescentar(db1, s, TicketNovo(db1, pid, s));
    assert d.tickets[db1.nextId + 1] == TicketNovo(db1, pid, s);
    assert d.servicos[db1.nextId] == s;
    assert d.prestadores[pid] == db1.prestadores[pid];
  }

  /** The one ticket a row adds is the row's ticket; what was there stays. */
  lemma ImportarLinhaTicket(db: Db, l: LinhaComissao)
    requires db.IdsAlocados() && ImportarLinha(db, l).Ok?
    ensures var d := ImportarLinha(db, l).value;
      && d.IdsAlocados() && Estende(db, d)
      && (exists t :: t in d.tickets && t !in db.tickets)
      && (forall t :: t in d.tickets && t !in db.tickets ==> TicketDaLinha(d, t, l))
  {
    var sid := SidDaLinha(l).value;
    var r := PrestadorDaLinha(db, sid, ParaTexto(l.nomePrestador));
    var db1 := r.0;
    var pid := r.1;
    PrestadorDaLinhaAlocados(db, sid, ParaTexto(l.nomePrestador));
    var s := NovoServico(pid, l).value;
    var d := Acrescentar(db1, s, TicketNovo(db1, pid, s));
    assert ImportarLinha(db, l) == Ok(d);
    AcrescentarEstende(db1, s, TicketNovo(db1, pid, s));
    AcrescentarTicketDaLinha(db1, l, pid, s);
    EstendeTransitivo(db, db1, d);
    assert db1.nextId + 1 in d.tickets && db1.nextId + 1 !in db.tickets;
  }

  lemma {:induction false} ImportarTodasEstende(db: Db, linhas: seq<LinhaComissao>)
    requires db.IdsAlocados() && ImportarTodas(db, linhas).Ok?
    ensures var d := ImportarTodas(db, linhas).value;
      d.IdsAlocados() && Estende(db, d)
    decreases |linhas|
  {
    if linhas != [] {
      var prefixo := linhas[..|linhas| - 1];
      var ultima := linhas[|linhas| - 1];
      assert ImportarTodas(db, prefixo).Ok?;
      var d1 := ImportarTodas(db, prefixo).value;
      assert ImportarTodas(db, linhas) == ImportarLinha(d1, ultima);
      ImportarTodasEstende(db, prefixo);
      ImportarLinhaTicket(d1, ultima);
      EstendeTransitivo(db, d1, ImportarLinha(d1, ultima).value);
    }
  }

  /**
   * The whole import on a consistent store: consistency kept, old records
   * untouched, one service and one ticket per row, and every new provider
   * is pending review without `sciUnico`.
   */
  lemma {:induction false} ImportarTodasEfeito(db: Db, linhas: seq<LinhaComissao>)
    requires db.Valid() && ImportarTodas(db, linhas).Ok?
    ensures var d := ImportarTodas(db, linhas).value;
      && d.Valid() && Estende(db, d)
      && |d.servicos| == |db.servicos| + |linhas| && |d.tickets| == |db.tickets| + |linhas|
      && (forall p :: p in d.prestadores && p !in db.prestadores ==>
            d.prestadores[p].status == PendenteDeRevisao && d.prestadores[p].sciUnico.None?)
    decreases |linhas|
  {
    if linhas != [] {
      var prefixo := linhas[..|linhas| - 1];
      var ultima := linhas[|linhas| - 1];
      assert ImportarTodas(db, prefixo).Ok?;
      var d1 := ImportarTodas(db, prefixo).value;
      assert ImportarTodas(db, linhas) == ImportarLinha(d1, ultima);
      ImportarTodasEfeito(db, prefixo);
      ImportarLinhaEfeito(d1, ultima);
      var d := ImportarLinha(d1, ultima).value;
      EstendeTransitivo(db, d1, d);
      forall p | p in d.prestadores && p !in db.prestadores
        ensures d.prestadores[p].status == PendenteDeRevisao && d.prestadores[p].sciUnico.None?
      {
        if p in d1.prestadores {
          assert d.prestadores[p] == d1.prestadores[p];
        }
      }
    }
  }

  /** Every ticket in `d` and not in `db` is the ticket of one of the rows. */
  ghost predicate NovosSaoDasLinhas(db: Db, d: Db, linhas: seq<LinhaComissao>) {
    forall t :: t in d.tickets && t !in db.tickets ==> exists k :: 0 <= k < |linhas| && TicketDaLinha(d, t, linhas[k])
  }

  lemma NovosSaoDasLinhasPasso(db: Db, d1: Db, d: Db, linhas: seq<LinhaComissao>)
    requires |linhas| > 0 && NovosSaoDasLinhas(db, d1, linhas[..|linhas| - 1]) && Estende(d1, d)
    requires forall t :: t in d.tickets && t !in d1.tickets ==> TicketDaLinha(d, t, linhas[|linhas| - 1])
    ensures NovosSaoDasLinhas(db, d, linhas)
  {
    var prefixo := linhas[..|linhas| - 1];
    forall t | t in d.tickets && t !in db.tickets
      ensures exists k :: 0 <= k < |linhas| && TicketDaLinha(d, t, linhas[k])
    {
      if t in d1.tickets {
        var k :| 0 <= k < |prefixo| && TicketDaLinha(d1, t, prefixo[k]);
        TicketDaLinhaPersiste(d1, d, t, prefixo[k]);
        assert prefixo[k] == linhas[k];
      } else {
        assert TicketDaLinha(d, t, linhas[|linhas| - 1]);
      }
    }
  }

  /** Every ticket the import adds is the ticket of one of its rows. */
  lemma {:induction false} ImportarTodasTicketsDasLinhas(db: Db, linhas: seq<LinhaComissao>)
    requires db.IdsAlocados() && ImportarTodas(db, linhas).Ok?
    ensures var d := ImportarTodas(db, linhas).value;
      forall t :: t in d.tickets && t !in db.tickets ==> exists k :: 0 <= k < |linhas| && TicketDaLinha(d, t, linhas[k])
    decreases |linhas|
  {
    if linhas != [] {
      var prefixo := linhas[..|linhas| - 1];
      var ultima := linhas[|linhas| - 1];
      assert ImportarTodas(db, prefixo).Ok?;
      var d1 := ImportarTodas(db, prefixo).value;
      assert ImportarTodas(db, linhas) == ImportarLinha(d1, ultima);
      ImportarTodasEstende(db, prefixo);
      ImportarTodasTicketsDasLinhas(db, prefixo);
      assert NovosSaoDasLinhas(db, d1, prefixo);
      ImportarLinhaTicket(d1, ultima);
      NovosSaoDasLinhasPasso(db, d1, ImportarLinha(d1, ultima).value, linhas);
      assert NovosSaoDasLinhas(db, ImportarTodas(db, linhas).value, linhas);
    }
  }

  /** Every row has a ticket in `d` that is not in `db`. */
  ghost predicate CadaLinhaTemTicket(db: Db, d: Db, linhas: seq<LinhaComissao>) {
    forall l :: l in linhas ==> exists t :: t in d.tickets && t !in db.tickets && TicketDaLinha(d, t, l)
  }

  lemma CadaLinhaTemTicketPasso(db: Db, d1: Db, d: Db, linhas: seq<LinhaComissao>)
    requires |linhas| > 0 && CadaLinhaTemTicket(db, d1, linhas[..|linhas| - 1]) && Estende(d1, d)
    requires forall t :: t in db.tickets ==> t in d1.tickets
    requires exists t :: t in d.tickets && t !in d1.tickets
    requires forall t :: t in d.tickets && t !in d1.tickets ==> TicketDaLinha(d, t, linhas[|linhas| - 1])
    ensures CadaLinhaTemTicket(db, d, linhas)
  {
    var prefixo := linhas[..|linhas| - 1];
    assert linhas == prefixo + [linhas[|linhas| - 1]];
    forall l | l in linhas
      ensures exists t :: t in d.tickets && t !in db.tickets && TicketDaLinha(d, t, l)
    {
      if l in prefixo {
        var t :| t in d1.tickets && t !in db.tickets && TicketDaLinha(d1, t, l);
        TicketDaLinhaPersiste(d1, d, t, l);
      } else {
        var t :| t in d.tickets && t !in d1.tickets;
        assert t !in db.tickets;
      }
    }
  }

  /** Every row of the import has its ticket among the added ones. */
  lemma {:induction false} ImportarTodasCadaLinhaTemTicket(db: Db, linhas: seq<LinhaComissao>)
    requires db.IdsAlocados() && ImportarTodas(db, linhas).Ok?
    ensures var d := ImportarTodas(db, linhas).value;
      forall l :: l in linhas ==> exists t :: t in d.tickets && t !in db.tickets && TicketDaLinha(d, t, l)
    decreases |linhas|
  {
    if linhas != [] {
      var prefixo := linhas[..|linhas| - 1];
      var ultima := linhas[|linhas| - 1];
      assert ImportarTodas(db, prefixo).Ok?;
      var d1 := ImportarTodas(db, prefixo).value;
      assert ImportarTodas(db, linhas) == ImportarLinha(d1, ultima);
      ImportarTodasEstende(db, prefixo);
      ImportarTodasCadaLinhaTemTicket(db, prefixo);
      assert CadaLinhaTemTicket(db, d1, prefixo);
      ImportarLinhaTicket(d1, ultima);
      CadaLinhaTemTicketPasso(db, d1, ImportarLinha(d1, ultima).value, linhas);
      assert CadaLinhaTemTicket(db, ImportarTodas(db, linhas).value, linhas);
    }
  }

  /** A failing row anywhere makes the whole import fail with the first failing row. */
  lemma {:induction false} ImportarTodasFalhaNaPrimeira(db: Db, linhas: seq<LinhaComissao>)
    requires ImportarTodas(db, linhas).Err?
    ensures exists k :: 0 <= k < |linhas| && ImportarTodas(db, linhas).error == linhas[k]
                     && ImportarTodas(db, linhas[..k]).Ok? && ImportarLinha(ImportarTodas(db, linhas[..k]).value, linhas[k]).Err?
    decreases |linhas|
  {
    var prefixo := linhas[..|linhas| - 1];
    match ImportarTodas(db, prefixo)
    case Err(_) =>
      ImportarTodasFalhaNaPrimeira(db, prefixo);
      var k :| 0 <= k < |prefixo| && ImportarTodas(db, prefixo).error == prefixo[k]
        && ImportarTodas(db, prefixo[..k]).Ok? && ImportarLinha(ImportarTodas(db, prefixo[..k]).value, prefixo[k]).Err?;
      assert prefixo[..k] == linhas[..k];
    case Ok(_) =>
      assert linhas[..|linhas| - 1] == prefixo;
  }

  // ----- the controller -----

  /**
   * One row's writes on the store: find or create the provider, then the
   * service and the ticket. `false` when the row fails; the store may then
   * hold a partial write, which the caller rolls back.
   */
  method GravarLinha(store: Store, l: LinhaComissao) returns (ok: bool)
    modifies store
    ensures ok <==> ImportarLinha(old(store.State()), l).Ok?
    ensures ok ==> ImportarLinha(old(store.State()), l) == Ok(store.State())
  {
    ghost var antes := store.State();
    var sidLido := SidDaLinha(l);
    if sidLido.None? {
      return false;
    }
    var sid := sidLido.value;
    var existente := PrestadorPorSid(store.prestadores, sid, 0, store.nextId);
    var pid: Id;
    if existente.Some? {
      pid := existente.value;
    } else {
      pid := store.nextId;
      store.prestadores := store.prestadores[pid := NovoPrestador(sid, ParaTexto(l.nomePrestador), PendenteDeRevisao)];
      store.nextId := store.nextId + 1;
    }
    assert pid in store.prestadores;

    var servico := NovoServico(pid, l);
    if servico.Err? {
      return false;
    }
    var sId := store.nextId;
    var tId := sId + 1;
    var titulo := TituloDoTicket(store.prestadores[pid].nome, servico.value);
    store.servicos := store.servicos[sId := servico.value];
    store.tickets := store.tickets[tId := Ticket(titulo, "", EtapaRequisicao, StatusAguardandoInicio, pid, [sId], None)];
    store.nextId := tId + 1;
    return true;
  }

  datatype RespostaImportacao = Criado201 | SemArquivo400 | Erro500(linha: LinhaComissao)

  /**
   * `importarComissoes` from the parsed grid (`None`: no file uploaded). A
   * failing row aborts the session: the store is restored to its state at
   * the start and the row is reported.
   */
  method ImportarComissoes(store: Store, arquivo: Option<seq<seq<Cell>>>) returns (resp: RespostaImportacao)
    modifies store
    ensures arquivo.None? ==> resp == SemArquivo400 && store.State() == old(store.State())
    ensures arquivo.Some? ==>
      match ImportarTodas(old(store.State()), ProcessarLinhas(arquivo.value))
      case Ok(db) => resp == Criado201 && store.State() == db
      case Err(l) => resp == Erro500(l) && store.State() == old(store.State())
  {
    var inicio := store.State();
    if arquivo.None? {
      return SemArquivo400;
    }
    var linhas := ProcessarLinhas(arquivo.value);
    var i := 0;
    while i < |linhas|
      invariant 0 <= i <= |linhas|
      invariant ImportarTodas(inicio, linhas[..i]) == Ok(store.State())
    {
      ghost var antes := store.State();
      assert linhas[..i + 1][..i] == linhas[..i];
      assert ImportarTodas(inicio, linhas[..i + 1]) == ImportarLinha(antes, linhas[i]);
      var ok := GravarLinha(store, linhas[i]);
      if !ok {
        store.Restore(inicio);
        ErroInterrompe(inicio, linhas, i + 1);
        assert ImportarTodas(inicio, linhas) == Err(linhas[i]);
        return Erro500(linhas[i]);
      }
      i := i + 1;
    }
    assert linhas[..i] == linhas;
    return Criado201;
  }
}
