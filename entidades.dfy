/**
 * The entity store the controllers read and write: providers, services,
 * tickets and account payables, each collection a map from document id to
 * record. Ids are handed out in increasing order from `nextId`, so ascending
 * ids are the collections' natural (insertion) order, the order in which
 * `find` and `findOne` meet documents.
 */
module Entidades {
  import opened Wrappers
  import opened Datas
  import opened PrestadorSchema

  type Id = nat

  // Ticket stages (`etapa`) and work states (`status`) the controllers write or test.
  const EtapaRequisicao := "requisicao"
  const EtapaAprovacaoPagamento := "aprovacao-pagamento"
  const EtapaIntegracaoOmie := "integracao-omie"
  const EtapaIntegracaoUnico := "integracao-unico"
  const EtapaConcluido := "concluido"

  const StatusAguardandoInicio := "aguardando-inicio"
  const StatusTrabalhando := "trabalhando"
  const StatusRevisao := "revisao"
  const StatusConcluido := "concluido"

  /** The observation written on a ticket whose payable disappeared from the ERP. */
  const MarcaContaRemovida := "[CONTA A PAGAR REMOVIDA DO OMIE]"

  /**
   * A billable line of a provider for one competency month. The competency
   * and amount paths are Numbers; `None` is a stored `null`.
   */
  datatype Servico = Servico(
    prestador: Id,
    mesCompetencia: Option<int>,
    anoCompetencia: Option<int>,
    valorPrincipal: Option<int>,
    valorBonus: Option<int>,
    valorAjusteComercial: Option<int>,
    valorHospedagemAnuncio: Option<int>,
    valorTotal: Option<int>,
    correcao: bool,
    status: string)

  /** The workflow unit, with the fields the controllers use (`servicos`, `contaPagarOmie`). */
  datatype Ticket = Ticket(
    titulo: string,
    observacao: string,
    etapa: string,
    status: string,
    prestador: Id,
    servicos: seq<Id>,
    contaPagarOmie: Option<Id>)

  /** The local mirror of an ERP payable. */
  datatype ContaPagar = ContaPagar(codigoLancamentoOmie: int, statusTitulo: string)

  /** A snapshot of the whole store. */
  datatype Db = Db(
    prestadores: map<Id, Prestador>,
    servicos: map<Id, Servico>,
    tickets: map<Id, Ticket>,
    contas: map<Id, ContaPagar>,
    nextId: Id)
  {
    /** Every id in use was handed out before `nextId`. */
    ghost predicate IdsAlocados() {
      && (forall id :: id in prestadores ==> id < nextId)
      && (forall id :: id in servicos ==> id < nextId)
      && (forall id :: id in tickets ==> id < nextId)
      && (forall id :: id in contas ==> id < nextId)
    }

    /** Every reference resolves. */
    ghost predicate Referencias() {
      && (forall s :: s in servicos ==> servicos[s].prestador in prestadores)
      && (forall t :: t in tickets ==> tickets[t].prestador in prestadores)
      && (forall t, k :: t in tickets && 0 <= k < |tickets[t].servicos| ==> tickets[t].servicos[k] in servicos)
      && (forall t :: t in tickets && tickets[t].contaPagarOmie.Some? ==> tickets[t].contaPagarOmie.value in contas)
    }

    /** At most one ticket references a given payable. */
    ghost predicate VinculosUnicos() {
      forall t1, t2 :: t1 in tickets && t2 in tickets && t1 != t2 && tickets[t1].contaPagarOmie.Some?
        ==> tickets[t1].contaPagarOmie != tickets[t2].contaPagarOmie
    }

    /**
     * `sid` is unique across providers, and so is `sciUnico` among the
     * providers that have one: a sparse index, which is what the import
     * needs, since it creates providers without `sciUnico`.
     */
    ghost predicate ChavesUnicas() {
      && (forall a, b :: a in prestadores && b in prestadores && a != b ==> prestadores[a].sid != prestadores[b].sid)
      && (forall a, b :: a in prestadores && b in prestadores && a != b && prestadores[a].sciUnico.Some?
            ==> prestadores[a].sciUnico != prestadores[b].sciUnico)
    }

    /**
     * The `sciUnico` index as the provider schema declares it: `unique`
     * without `sparse`, so a missing `sciUnico` counts as a value and at most
     * one provider may lack it.
     */
    ghost predicate IndiceSciUnicoComoDeclarado() {
      forall a, b :: a in prestadores && b in prestadores && a != b ==> prestadores[a].sciUnico != prestadores[b].sciUnico
    }

    /** The ERP code of a payable is unique. */
    ghost predicate CodigosUnicos() {
      forall a, b :: a in contas && b in contas && a != b ==> contas[a].codigoLancamentoOmie != contas[b].codigoLancamentoOmie
    }

    ghost predicate Valid() {
      IdsAlocados() && Referencias() && VinculosUnicos() && ChavesUnicas() && CodigosUnicos()
    }
  }

  /** The collections as fields that the controllers update in place. */
  class Store {
    var prestadores: map<Id, Prestador>
    var servicos: map<Id, Servico>
    var tickets: map<Id, Ticket>
    var contas: map<Id, ContaPagar>
    var nextId: Id

    function State(): Db
      reads this
    {
      Db(prestadores, servicos, tickets, contas, nextId)
    }

    constructor (db: Db)
      ensures State() == db
    {
      prestadores, servicos, tickets, contas, nextId := db.prestadores, db.servicos, db.tickets, db.contas, db.nextId;
    }

    /** Puts every collection back as it was in `db` (a transaction's abort). */
    method Restore(db: Db)
      modifies this
      ensures State() == db
    {
      prestadores, servicos, tickets, contas, nextId := db.prestadores, db.servicos, db.tickets, db.contas, db.nextId;
    }
  }

  // ----- findOne: the first document in natural order that matches -----

  /** `Prestador.findOne({ sid })` over the ids in `[from, to)`. */
  function PrestadorPorSid(m: map<Id, Prestador>, sid: int, from: nat, to: nat): (r: Option<Id>)
    decreases (to as int) - (from as int)
    ensures r.Some? ==> from <= r.value < to && r.value in m && m[r.value].sid == sid
    ensures r.Some? ==> forall id :: from <= id < r.value && id in m ==> m[id].sid != sid
    ensures r.None? ==> forall id :: from <= id < to && id in m ==> m[id].sid != sid
  {
    if from >= to then None
    else if from in m && m[from].sid == sid then Some(from)
    else PrestadorPorSid(m, sid, from + 1, to)
  }

  /** `ContaPagar.findOne({ codigo_lancamento_omie })` over the ids in `[from, to)`. */
  function ContaPorCodigo(m: map<Id, ContaPagar>, codigo: int, from: nat, to: nat): (r: Option<Id>)
    decreases (to as int) - (from as int)
    ensures r.Some? ==> from <= r.value < to && r.value in m && m[r.value].codigoLancamentoOmie == codigo
    ensures r.Some? ==> forall id :: from <= id < r.value && id in m ==> m[id].codigoLancamentoOmie != codigo
    ensures r.None? ==> forall id :: from <= id < to && id in m ==> m[id].codigoLancamentoOmie != codigo
  {
    if from >= to then None
    else if from in m && m[from].codigoLancamentoOmie == codigo then Some(from)
    else ContaPorCodigo(m, codigo, from + 1, to)
  }

  /** `Ticket.findOne({ contaPagarOmie })` over the ids in `[from, to)`. */
  function TicketPorConta(m: map<Id, Ticket>, conta: Id, from: nat, to: nat): (r: Option<Id>)
    decreases (to as int) - (from as int)
    ensures r.Some? ==> from <= r.value < to && r.value in m && m[r.value].contaPagarOmie == Some(conta)
    ensures r.Some? ==> forall id :: from <= id < r.value && id in m ==> m[id].contaPagarOmie != Some(conta)
    ensures r.None? ==> forall id :: from <= id < to && id in m ==> m[id].contaPagarOmie != Some(conta)
  {
    if from >= to then None
    else if from in m && m[from].contaPagarOmie == Some(conta) then Some(from)
    else TicketPorConta(m, conta, from + 1, to)
  }

  /** The ticket lookup depends only on the tickets' `contaPagarOmie` links. */
  lemma {:induction false} TicketPorContaSoDependeDosVinculos(m: map<Id, Ticket>, m': map<Id, Ticket>, conta: Id, from: nat, to: nat)
    requires m.Keys == m'.Keys
    requires forall id :: id in m ==> m'[id].contaPagarOmie == m[id].contaPagarOmie
    ensures TicketPorConta(m', conta, from, to) == TicketPorConta(m, conta, from, to)
    decreases (to as int) - (from as int)
  {
    if from < to {
      TicketPorContaSoDependeDosVinculos(m, m', conta, from + 1, to);
    }
  }

  /** The payable lookup depends only on the payables' codes. */
  lemma {:induction false} ContaPorCodigoSoDependeDosCodigos(m: map<Id, ContaPagar>, m': map<Id, ContaPagar>, codigo: int, from: nat, to: nat)
    requires m.Keys == m'.Keys
    requires forall id :: id in m ==> m'[id].codigoLancamentoOmie == m[id].codigoLancamentoOmie
    ensures ContaPorCodigo(m', codigo, from, to) == ContaPorCodigo(m, codigo, from, to)
    decreases (to as int) - (from as int)
  {
    if from < to {
      ContaPorCodigoSoDependeDosCodigos(m, m', codigo, from + 1, to);
    }
  }
  /** The tickets of `tickets` carry the same references as those of `db`. */
  ghost predicate MesmosVinculos(db: Db, tickets: map<Id, Ticket>) {
    && tickets.Keys == db.tickets.Keys
    && forall t :: t in tickets ==>
         && tickets[t].prestador == db.tickets[t].prestador
         && tickets[t].servicos == db.tickets[t].servicos
         && tickets[t].contaPagarOmie == db.tickets[t].contaPagarOmie
  }

  lemma MesmosVinculosAlocados(db: Db, tickets: map<Id, Ticket>)
    requires db.IdsAlocados() && MesmosVinculos(db, tickets)
    ensures db.(tickets := tickets).IdsAlocados()
  {
  }

  lemma MesmosVinculosReferencias(db: Db, tickets: map<Id, Ticket>)
    requires db.Referencias() && MesmosVinculos(db, tickets)
    ensures db.(tickets := tickets).Referencias()
  {
    var d := db.(tickets := tickets);
    forall t, k | t in tickets && 0 <= k < |tickets[t].servicos|
      ensures tickets[t].servicos[k] in d.servicos
    {
      assert tickets[t].servicos == db.tickets[t].servicos;
    }
  }

  lemma MesmosVinculosUnicos(db: Db, tickets: map<Id, Ticket>)
    requires db.VinculosUnicos() && MesmosVinculos(db, tickets)
    ensures db.(tickets := tickets).VinculosUnicos()
  {
  }

  /** Rewriting tickets without touching their references keeps the store consistent. */
  lemma MesmosVinculosValido(db: Db, tickets: map<Id, Ticket>)
    requires db.Valid() && MesmosVinculos(db, tickets)
    ensures db.(tickets := tickets).Valid()
  {
    MesmosVinculosAlocados(db, tickets);
    MesmosVinculosReferencias(db, tickets);
    MesmosVinculosUnicos(db, tickets);
  }
}
