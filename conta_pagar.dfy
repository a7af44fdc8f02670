/**
 * The reconciliation of tickets with the ERP's account payables: the webhook
 * (`contaPagarWebHook`) applies the ERP's notifications, and the poll
 * (`obterContaPagarOmie`) asks the ERP about one payable and reconciles. A
 * ticket linked to a payable moves between `integracao-omie`, `concluido` and
 * `aprovacao-pagamento` as the payable is settled, reopened or deleted.
 *
 * A lookup keyed by a payable that does not exist matches no ticket, and a
 * lookup keyed by a missing code matches no payable.
 */
module ContaPagarController {
  import opened Wrappers
  import opened Entidades

  const TopicoAlterado := "Financas.ContaPagar.Alterado"
  const TopicoBaixaRealizada := "Financas.ContaPagar.BaixaRealizada"
  const TopicoBaixaCancelada := "Financas.ContaPagar.BaixaCancelada"
  const TopicoExcluido := "Financas.ContaPagar.Excluido"
  const StatusPago := "PAGO"

  // ----- lookups and writes -----

  /** `ContaPagar.findOne({ codigo_lancamento_omie })`; a missing code matches nothing. */
  function ContaDoCodigo(db: Db, codigo: Option<int>): (r: Option<Id>)
    ensures r.Some? ==> r.value in db.contas && Some(db.contas[r.value].codigoLancamentoOmie) == codigo
  {
    if codigo.None? then None else ContaPorCodigo(db.contas, codigo.value, 0, db.nextId)
  }

  /** `Ticket.findOne({ contaPagarOmie: contaPagar?._id })`; no payable matches no ticket. */
  function TicketDaConta(db: Db, conta: Option<Id>): (r: Option<Id>)
    ensures r.Some? ==> conta.Some? && r.value in db.tickets && db.tickets[r.value].contaPagarOmie == conta
  {
    if conta.None? then None else TicketPorConta(db.tickets, conta.value, 0, db.nextId)
  }

  /** The three ways the controller rewrites a ticket. */
  datatype Transicao = Concluir | ReabrirIntegracao | DevolverParaAprovacao

  function Aplicar(tr: Transicao, t: Ticket): (r: Ticket)
    ensures r.titulo == t.titulo && r.prestador == t.prestador && r.servicos == t.servicos
    ensures tr != DevolverParaAprovacao ==> r.observacao == t.observacao && r.contaPagarOmie == t.contaPagarOmie
    ensures tr == Concluir ==> r.etapa == EtapaConcluido && r.status == StatusConcluido
    ensures tr == ReabrirIntegracao ==> r.etapa == EtapaIntegracaoOmie && r.status == StatusTrabalhando
    ensures tr == DevolverParaAprovacao ==>
      && r.etapa == EtapaAprovacaoPagamento && r.status == StatusRevisao
      && r.contaPagarOmie.None? && r.observacao == MarcaContaRemovida
  {
    match tr
    case Concluir => t.(status := StatusConcluido, etapa := EtapaConcluido)
    case ReabrirIntegracao => t.(status := StatusTrabalhando, etapa := EtapaIntegracaoOmie)
    case DevolverParaAprovacao =>
      t.(status := StatusRevisao, etapa := EtapaAprovacaoPagamento, contaPagarOmie := None, observacao := MarcaContaRemovida)
  }

  /** `Ticket.findOneAndUpdate` on the ticket found, if any. */
  function AtualizarTicket(db: Db, t: Option<Id>, tr: Transicao): (r: Db)
    ensures r.prestadores == db.prestadores && r.servicos == db.servicos && r.contas == db.contas
    ensures r.nextId == db.nextId && r.tickets.Keys == db.tickets.Keys
    ensures t.Some? && t.value in db.tickets ==> r.tickets[t.value] == Aplicar(tr, db.tickets[t.value])
    ensures forall u :: u in db.tickets && t != Some(u) ==> r.tickets[u] == db.tickets[u]
  {
    if t.Some? && t.value in db.tickets then db.(tickets := db.tickets[t.value := Aplicar(tr, db.tickets[t.value])])
    else db
  }

  /** `findOneAndDelete` of the payable found, if any. */
  function RemoverConta(db: Db, c: Option<Id>): (r: Db)
    ensures r.prestadores == db.prestadores && r.servicos == db.servicos && r.tickets == db.tickets
    ensures r.nextId == db.nextId
    ensures c.Some? ==> r.contas.Keys == db.contas.Keys - {c.value}
    ensures forall k :: k in r.contas ==> k in db.contas && r.contas[k] == db.contas[k]
    ensures c.None? ==> r == db
  {
    if c.Some? then db.(contas := db.contas - {c.value}) else db
  }

  /** Sets `status_titulo` on the payable found, if any. */
  function AtualizarStatus(db: Db, c: Option<Id>, situacao: string): (r: Db)
    ensures r.prestadores == db.prestadores && r.servicos == db.servicos && r.tickets == db.tickets
    ensures r.nextId == db.nextId && r.contas.Keys == db.contas.Keys
    ensures c.Some? && c.value in db.contas ==> r.contas[c.value] == db.contas[c.value].(statusTitulo := situacao)
    ensures forall k :: k in db.contas && c != Some(k) ==> r.contas[k] == db.contas[k]
  {
    if c.Some? && c.value in db.contas then db.(contas := db.contas[c.value := db.contas[c.value].(statusTitulo := situacao)])
    else db
  }

  // ----- the webhook -----

  /**
   * A notification: `ping`, `topic`, the payable code at the path the topic
   * reads (`event.codigo_lancamento_omie` for `Alterado` and `Excluido`,
   * `event[0].conta_a_pagar[0].codigo_lancamento_omie` for the two `Baixa`
   * topics) and `event.situacao`.
   */
  datatype Webhook = Webhook(ping: Option<string>, topic: Option<string>, codigo: Option<int>, situacao: string)

  datatype RespostaWebhook = Pong | Recebido

  predicate TopicoTratado(topic: Option<string>) {
    topic.Some? && topic.value in {TopicoAlterado, TopicoBaixaRealizada, TopicoBaixaCancelada, TopicoExcluido}
  }

  /** The webhook's answer and the store after it. */
  function AplicarWebhook(db: Db, w: Webhook): (r: (RespostaWebhook, Db))
    ensures r.0 == Pong <==> w.ping == Some("omie")
    ensures r.0 == Pong || !TopicoTratado(w.topic) ==> r.1 == db
  {
    if w.ping == Some("omie") then (Pong, db)
    else if w.topic == Some(TopicoAlterado) then
      (Recebido, AtualizarStatus(db, ContaDoCodigo(db, w.codigo), w.situacao))
    else if w.topic == Some(TopicoBaixaRealizada) then
      (Recebido, AtualizarTicket(db, TicketDaConta(db, ContaDoCodigo(db, w.codigo)), Concluir))
    else if w.topic == Some(TopicoBaixaCancelada) then
      (Recebido, AtualizarTicket(db, TicketDaConta(db, ContaDoCodigo(db, w.codigo)), ReabrirIntegracao))
    else if w.topic == Some(TopicoExcluido) then
      var c := ContaDoCodigo(db, w.codigo);
      var semConta := RemoverConta(db, c);
      (Recebido, AtualizarTicket(semConta, TicketDaConta(semConta, c), DevolverParaAprovacao))
    else (Recebido, db)
  }

  /** `contaPagarWebHook` on the store. */
  method ContaPagarWebHook(store: Store, w: Webhook) returns (resp: RespostaWebhook)
    modifies store
    ensures (resp, store.State()) == AplicarWebhook(old(store.State()), w)
  {
    if w.ping == Some("omie") {
      return Pong;
    }
    var db := store.State();
    var c := ContaDoCodigo(db, w.codigo);
    if w.topic == Some(TopicoAlterado) {
      if c.Some? {
        store.contas := store.contas[c.value := store.contas[c.value].(statusTitulo := w.situacao)];
      }
    } else if w.topic == Some(TopicoBaixaRealizada) || w.topic == Some(TopicoBaixaCancelada) {
      var t := TicketDaConta(db, c);
      if t.Some? {
        var tr := if w.topic == Some(TopicoBaixaRealizada) then Concluir else ReabrirIntegracao;
        store.tickets := store.tickets[t.value := Aplicar(tr, store.tickets[t.value])];
      }
    } else if w.topic == Some(TopicoExcluido) {
      if c.Some? {
        store.contas := store.contas - {c.value};
      }
      var t := TicketDaConta(store.State(), c);
      if t.Some? {
        store.tickets := store.tickets[t.value := Aplicar(DevolverParaAprovacao, store.tickets[t.value])];
      }
    }
    return Recebido;
  }

  // ----- the poll -----

  /** The ERP credentials of the stored `BaseOmie`. */
  datatype Credenciais = Credenciais(appKey: string, appSecret: string)

  /** What the ERP's `consultar` gave: the payable's title status, nothing, or an exception. */
  datatype Consulta = Encontrada(statusTitulo: string) | NaoEncontrada | Falhou

  datatype RespostaConsulta =
    | Ok200(statusTitulo: string)
    | TicketNaoEncontrado404
    | CredenciaisAusentes400
    | ContaNaoEncontrada404
    | Erro500

  /**
   * `obterContaPagarOmie(codigo)` with the stored `BaseOmie` (`None`: none
   * stored) and the ERP's answer as parameters: the response and the store
   * after it.
   */
  function Consultar(db: Db, codigo: int, base: Option<Credenciais>, consulta: Consulta): (r: (RespostaConsulta, Db))
    ensures TicketDaConta(db, ContaDoCodigo(db, Some(codigo))).None? ==> r == (TicketNaoEncontrado404, db)
    ensures r.0 in {TicketNaoEncontrado404, CredenciaisAusentes400, Erro500} ==> r.1 == db
    ensures var t := TicketDaConta(db, ContaDoCodigo(db, Some(codigo)));
      && (t.Some? && base.None? ==> r == (Erro500, db))
      && (t.Some? && base.Some? && (base.value.appKey == "" || base.value.appSecret == "") ==>
            r == (CredenciaisAusentes400, db))
      && (t.Some? && base.Some? && base.value.appKey != "" && base.value.appSecret != "" && consulta == Falhou ==>
            r == (Erro500, db))
    ensures r.0 == ContaNaoEncontrada404 <==>
      TicketDaConta(db, ContaDoCodigo(db, Some(codigo))).Some? && base.Some?
      && base.value.appKey != "" && base.value.appSecret != "" && consulta == NaoEncontrada
  {
    var c := ContaDoCodigo(db, Some(codigo));
    var t := TicketDaConta(db, c);
    if t.None? then (TicketNaoEncontrado404, db)
    else if base.None? then (Erro500, db)
    else if base.value.appKey == "" || base.value.appSecret == "" then (CredenciaisAusentes400, db)
    else
      match consulta
      case Falhou => (Erro500, db)
      case NaoEncontrada =>
        var devolvido := AtualizarTicket(db, t, DevolverParaAprovacao);
        (ContaNaoEncontrada404, RemoverConta(devolvido, ContaDoCodigo(devolvido, Some(codigo))))
      case Encontrada(st) =>
        var atualizado := if st == StatusPago then AtualizarTicket(db, t, Concluir) else db;
        (Ok200(st), AtualizarStatus(atualizado, c, st))
  }

  /** `obterContaPagarOmie` on the store. */
  method ObterContaPagarOmie(store: Store, codigo: int, base: Option<Credenciais>, consulta: Consulta)
    returns (resp: RespostaConsulta)
    modifies store
    ensures (resp, store.State()) == Consultar(old(store.State()), codigo, base, consulta)
  {
    var db := store.State();
    var c := ContaDoCodigo(db, Some(codigo));
    var t := TicketDaConta(db, c);
    if t.None? {
      return TicketNaoEncontrado404;
    }
    if base.None? {
      return Erro500;
    }
    if base.value.appKey == "" || base.value.appSecret == "" {
      return CredenciaisAusentes400;
    }
    match consulta {
      case Falhou =>
        return Erro500;
      case NaoEncontrada =>
        store.tickets := store.tickets[t.value := Aplicar(DevolverParaAprovacao, store.tickets[t.value])];
        var excluida := ContaDoCodigo(store.State(), Some(codigo));
        if excluida.Some? {
          store.contas := store.contas - {excluida.value};
        }
        return ContaNaoEncontrada404;
      case Encontrada(st) =>
        if st == StatusPago {
          store.tickets := store.tickets[t.value := Aplicar(Concluir, store.tickets[t.value])];
        }
        store.contas := store.contas[c.value := store.contas[c.value].(statusTitulo := st)];
        return Ok200(st);
    }
  }

  // ----- properties -----

  /** On a consistent store, the ticket found for a payable is the only one linked to it. */
  lemma {:induction false} TicketDaContaUnico(db: Db, c: Id)
    requires db.Valid()
    ensures var t := TicketDaConta(db, Some(c));
      forall u :: u in db.tickets && db.tickets[u].contaPagarOmie == Some(c) ==> t == Some(u)
  {
    var t := TicketDaConta(db, Some(c));
    forall u | u in db.tickets && db.tickets[u].contaPagarOmie == Some(c)
      ensures t == Some(u)
    {
      assert u < db.nextId by { assert db.IdsAlocados(); }
    }
  }

  /** `Alterado` sets the status of the payable with that code and changes nothing else. */
  lemma WebhookAlterado(db: Db, codigo: int, situacao: string, ping: Option<string>)
    requires db.Valid() && ping != Some("omie")
    ensures var d := AplicarWebhook(db, Webhook(ping, Some(TopicoAlterado), Some(codigo), situacao)).1;
      && d.tickets == db.tickets && d.prestadores == db.prestadores && d.servicos == db.servicos
      && d.nextId == db.nextId && d.contas.Keys == db.contas.Keys
      && (forall c :: c in db.contas && db.contas[c].codigoLancamentoOmie == codigo ==>
            d.contas[c] == db.contas[c].(statusTitulo := situacao))
      && (forall c :: c in db.contas && db.contas[c].codigoLancamentoOmie != codigo ==> d.contas[c] == db.contas[c])
  {
    var achada := ContaDoCodigo(db, Some(codigo));
    forall c | c in db.contas && db.contas[c].codigoLancamentoOmie == codigo
      ensures achada == Some(c)
    {
      assert c < db.nextId by { assert db.IdsAlocados(); }
    }
  }

  /** The ticket lookup for a payable is the same before and after a transition that keeps the links. */
  lemma TicketDaContaAposAtualizar(db: Db, t: Option<Id>, tr: Transicao, c: Option<Id>)
    requires tr != DevolverParaAprovacao
    ensures TicketDaConta(AtualizarTicket(db, t, tr), c) == TicketDaConta(db, c)
  {
    var d := AtualizarTicket(db, t, tr);
    if c.Some? {
      TicketPorContaSoDependeDosVinculos(db.tickets, d.tickets, c.value, 0, db.nextId);
    }
  }

  /** Delivering `BaixaRealizada` twice leaves the store as delivering it once. */
  lemma BaixaRealizadaIdempotente(db: Db, w: Webhook)
    requires w.ping != Some("omie") && w.topic == Some(TopicoBaixaRealizada)
    ensures AplicarWebhook(AplicarWebhook(db, w).1, w).1 == AplicarWebhook(db, w).1
  {
    var c := ContaDoCodigo(db, w.codigo);
    var t := TicketDaConta(db, c);
    var d := AtualizarTicket(db, t, Concluir);
    TicketDaContaAposAtualizar(db, t, Concluir, c);
    assert ContaDoCodigo(d, w.codigo) == c;
    if t.Some? {
      assert d.tickets[t.value := Aplicar(Concluir, d.tickets[t.value])] == d.tickets;
    }
  }

  /**
   * `BaixaRealizada` concludes the ticket found for the payable with that code
   * (on a consistent store: the ticket linked to it) and changes nothing else.
   */
  lemma BaixaRealizadaConclui(db: Db, w: Webhook)
    requires w.ping != Some("omie") && w.topic == Some(TopicoBaixaRealizada)
    ensures var c := ContaDoCodigo(db, w.codigo); var t := TicketDaConta(db, c); var d := AplicarWebhook(db, w).1;
      && d.prestadores == db.prestadores && d.servicos == db.servicos && d.contas == db.contas
      && d.nextId == db.nextId && d.tickets.Keys == db.tickets.Keys
      && (forall u :: u in db.tickets && t == Some(u) ==>
            d.tickets[u] == db.tickets[u].(etapa := EtapaConcluido, status := StatusConcluido))
      && (forall u :: u in db.tickets && t != Some(u) ==> d.tickets[u] == db.tickets[u])
      && (db.Valid() && c.Some? ==>
            forall u :: u in db.tickets && db.tickets[u].contaPagarOmie == c ==>
              d.tickets[u] == db.tickets[u].(etapa := EtapaConcluido, status := StatusConcluido))
  {
    var c := ContaDoCodigo(db, w.codigo);
    if db.Valid() && c.Some? {
      TicketDaContaUnico(db, c.value);
    }
  }

  /**
   * `BaixaCancelada` moves the ticket found for the payable with that code
   * (on a consistent store: the ticket linked to it) back to
   * `integracao-omie`/`trabalhando`; nothing else changes.
   */
  lemma BaixaCanceladaSoEtapaEStatus(db: Db, w: Webhook)
    requires w.ping != Some("omie") && w.topic == Some(TopicoBaixaCancelada)
    ensures var c := ContaDoCodigo(db, w.codigo); var t := TicketDaConta(db, c); var d := AplicarWebhook(db, w).1;
      && d.prestadores == db.prestadores && d.servicos == db.servicos && d.contas == db.contas
      && d.nextId == db.nextId && d.tickets.Keys == db.tickets.Keys
      && (forall u :: u in db.tickets && t == Some(u) ==>
            d.tickets[u] == db.tickets[u].(etapa := EtapaIntegracaoOmie, status := StatusTrabalhando))
      && (forall u :: u in db.tickets && t != Some(u) ==> d.tickets[u] == db.tickets[u])
      && (db.Valid() && c.Some? ==>
            forall u :: u in db.tickets && db.tickets[u].contaPagarOmie == c ==>
              d.tickets[u] == db.tickets[u].(etapa := EtapaIntegracaoOmie, status := StatusTrabalhando))
  {
    var c := ContaDoCodigo(db, w.codigo);
    if db.Valid() && c.Some? {
      TicketDaContaUnico(db, c.value);
    }
  }

  /** Once a payable is deleted, no ticket refers to it and its linked ticket is back in payment approval. */
  lemma ExcluidoDevolveTicket(db: Db, w: Webhook)
    requires db.Valid() && w.ping != Some("omie") && w.topic == Some(TopicoExcluido)
    ensures var c := ContaDoCodigo(db, w.codigo); var d := AplicarWebhook(db, w).1;
      && d.prestadores == db.prestadores && d.servicos == db.servicos && d.nextId == db.nextId
      && d.tickets.Keys == db.tickets.Keys
      && (c.None? ==> d == db)
      && (c.Some? ==> d.contas == db.contas - {c.value} && forall u :: u in d.tickets ==> d.tickets[u].contaPagarOmie != c)
      && (forall u :: u in db.tickets && c.Some? && db.tickets[u].contaPagarOmie == c ==>
            d.tickets[u] == db.tickets[u].(etapa := EtapaAprovacaoPagamento, status := StatusRevisao,
                                            contaPagarOmie := None, observacao := MarcaContaRemovida))
      && (forall u :: u in db.tickets && (c.None? || db.tickets[u].contaPagarOmie != c) ==> d.tickets[u] == db.tickets[u])
  {
    var c := ContaDoCodigo(db, w.codigo);
    if c.Some? {
      var semConta := RemoverConta(db, c);
      assert TicketDaConta(semConta, c) == TicketDaConta(db, c);
      TicketDaContaUnico(db, c.value);
    }
  }

  /** Transitions that keep the links keep the store consistent. */
  lemma AtualizarTicketValido(db: Db, t: Option<Id>, tr: Transicao)
    requires db.Valid() && tr != DevolverParaAprovacao
    ensures AtualizarTicket(db, t, tr).Valid()
  {
    MesmosVinculosValido(db, AtualizarTicket(db, t, tr).tickets);
  }

  /** Unlinking one ticket from its payable keeps the store consistent. */
  lemma DesvincularValido(db: Db, u: Id, novo: Ticket)
    requires db.Valid() && u in db.tickets && novo.contaPagarOmie.None?
    requires novo.prestador == db.tickets[u].prestador && novo.servicos == db.tickets[u].servicos
    ensures db.(tickets := db.tickets[u := novo]).Valid()
  {
    var d := db.(tickets := db.tickets[u := novo]);
    assert d.IdsAlocados() by { assert db.IdsAlocados(); }
    assert d.Referencias() by {
      assert db.Referencias();
      forall t, k | t in d.tickets && 0 <= k < |d.tickets[t].servicos|
        ensures d.tickets[t].servicos[k] in d.servicos
      {
        assert d.tickets[t].servicos == db.tickets[t].servicos;
      }
      forall t | t in d.tickets && d.tickets[t].contaPagarOmie.Some?
        ensures d.tickets[t].contaPagarOmie.value in d.contas
      {
        assert d.tickets[t] == db.tickets[t];
      }
    }
    assert d.VinculosUnicos() by {
      assert db.VinculosUnicos();
      forall t1, t2 | t1 in d.tickets && t2 in d.tickets && t1 != t2 && d.tickets[t1].contaPagarOmie.Some?
        ensures d.tickets[t1].contaPagarOmie != d.tickets[t2].contaPagarOmie
      {
        assert d.tickets[t1] == db.tickets[t1];
      }
    }
    assert d.ChavesUnicas() by { assert db.ChavesUnicas(); }
    assert d.CodigosUnicos() by { assert db.CodigosUnicos(); }
  }

  /** A payable that no ticket refers to can be deleted without breaking consistency. */
  lemma RemoverSemVinculoValido(db: Db, c: Id)
    requires db.Valid()
    requires forall u :: u in db.tickets ==> db.tickets[u].contaPagarOmie != Some(c)
    ensures db.(contas := db.contas - {c}).Valid()
  {
    var d := db.(contas := db.contas - {c});
    assert d.IdsAlocados() by { assert db.IdsAlocados(); }
    assert d.Referencias() by { assert db.Referencias(); }
    assert d.VinculosUnicos() by { assert db.VinculosUnicos(); }
    assert d.ChavesUnicas() by { assert db.ChavesUnicas(); }
    assert d.CodigosUnicos() by { assert db.CodigosUnicos(); }
  }

  /** Reverting the ticket found for a payable keeps the store consistent. */
  lemma DevolverValido(db: Db, c: Id)
    requires db.Valid()
    ensures AtualizarTicket(db, TicketDaConta(db, Some(c)), DevolverParaAprovacao).Valid()
  {
    var t := TicketDaConta(db, Some(c));
    if t.Some? {
      DesvincularValido(db, t.value, Aplicar(DevolverParaAprovacao, db.tickets[t.value]));
    }
  }

  /** After reverting the ticket found for a payable, no ticket refers to that payable. */
  lemma DevolverDesvincula(db: Db, c: Id)
    requires db.Valid()
    ensures var d1 := AtualizarTicket(db, TicketDaConta(db, Some(c)), DevolverParaAprovacao);
      forall u :: u in d1.tickets ==> d1.tickets[u].contaPagarOmie != Some(c)
  {
    var t := TicketDaConta(db, Some(c));
    TicketDaContaUnico(db, c);
    var d1 := AtualizarTicket(db, t, DevolverParaAprovacao);
    forall u | u in d1.tickets
      ensures d1.tickets[u].contaPagarOmie != Some(c)
    {
      if t.None? || u != t.value {
        assert d1.tickets[u] == db.tickets[u];
      }
    }
  }

  /** Reverting the ticket of a payable and deleting that payable keeps the store consistent. */
  lemma DevolverERemoverValido(db: Db, c: Id)
    requires db.Valid()
    ensures var t := TicketDaConta(db, Some(c));
      RemoverConta(AtualizarTicket(db, t, DevolverParaAprovacao), Some(c)).Valid()
  {
    DevolverValido(db, c);
    DevolverDesvincula(db, c);
    RemoverSemVinculoValido(AtualizarTicket(db, TicketDaConta(db, Some(c)), DevolverParaAprovacao), c);
  }

  lemma AtualizarStatusValido(db: Db, c: Option<Id>, situacao: string)
    requires db.Valid()
    ensures AtualizarStatus(db, c, situacao).Valid()
  {
    var d := AtualizarStatus(db, c, situacao);
    assert d.IdsAlocados() by { assert db.IdsAlocados(); }
    assert d.Referencias() by { assert db.Referencias(); }
    assert d.CodigosUnicos() by { assert db.CodigosUnicos(); }
  }

  /** Every webhook keeps the store consistent. */
  lemma WebhookValido(db: Db, w: Webhook)
    requires db.Valid()
    ensures AplicarWebhook(db, w).1.Valid()
  {
    var c := ContaDoCodigo(db, w.codigo);
    if w.ping == Some("omie") {
    } else if w.topic == Some(TopicoAlterado) {
      AtualizarStatusValido(db, c, w.situacao);
    } else if w.topic == Some(TopicoBaixaRealizada) {
      AtualizarTicketValido(db, TicketDaConta(db, c), Concluir);
    } else if w.topic == Some(TopicoBaixaCancelada) {
      AtualizarTicketValido(db, TicketDaConta(db, c), ReabrirIntegracao);
    } else if w.topic == Some(TopicoExcluido) {
      if c.Some? {
        ExcluidoComoDevolverERemover(db, c.value);
        DevolverERemoverValido(db, c.value);
      }
    }
  }

  /** Deleting the payable and then reverting its ticket is reverting and then deleting. */
  lemma ExcluidoComoDevolverERemover(db: Db, c: Id)
    ensures var semConta := RemoverConta(db, Some(c));
      AtualizarTicket(semConta, TicketDaConta(semConta, Some(c)), DevolverParaAprovacao)
      == RemoverConta(AtualizarTicket(db, TicketDaConta(db, Some(c)), DevolverParaAprovacao), Some(c))
  {
  }

  /** Every poll keeps the store consistent. */
  lemma ConsultarValido(db: Db, codigo: int, base: Option<Credenciais>, consulta: Consulta)
    requires db.Valid()
    ensures Consultar(db, codigo, base, consulta).1.Valid()
  {
    var c := ContaDoCodigo(db, Some(codigo));
    var t := TicketDaConta(db, c);
    if t.Some? && base.Some? && base.value.appKey != "" && base.value.appSecret != "" {
      match consulta
      case Falhou =>
      case NaoEncontrada =>
        ConsultaAusenteComoExcluido(db, codigo, base.value, None, "");
        WebhookValido(db, Webhook(None, Some(TopicoExcluido), Some(codigo), ""));
      case Encontrada(st) =>
        var atualizado := if st == StatusPago then AtualizarTicket(db, t, Concluir) else db;
        AtualizarTicketValido(db, t, Concluir);
        AtualizarStatusValido(atualizado, c, st);
    }
  }

  /**
   * When the ERP no longer has the payable, the poll and the `Excluido`
   * webhook leave the store in the same state.
   */
  lemma ConsultaAusenteComoExcluido(db: Db, codigo: int, base: Credenciais, ping: Option<string>, situacao: string)
    requires TicketDaConta(db, ContaDoCodigo(db, Some(codigo))).Some?
    requires base.appKey != "" && base.appSecret != "" && ping != Some("omie")
    ensures Consultar(db, codigo, Some(base), NaoEncontrada)
         == (ContaNaoEncontrada404, AplicarWebhook(db, Webhook(ping, Some(TopicoExcluido), Some(codigo), situacao)).1)
  {
    var c := ContaDoCodigo(db, Some(codigo));
    var devolvido := AtualizarTicket(db, TicketDaConta(db, c), DevolverParaAprovacao);
    assert ContaDoCodigo(devolvido, Some(codigo)) == c;
    ExcluidoComoDevolverERemover(db, c.value);
  }

  /**
   * A poll that finds the payable paid puts the tickets where the
   * `BaixaRealizada` webhook puts them, and mirrors the ERP's status on the
   * payable.
   */
  lemma ConsultaPagoComoBaixaRealizada(db: Db, codigo: int, base: Credenciais, ping: Option<string>, situacao: string)
    requires TicketDaConta(db, ContaDoCodigo(db, Some(codigo))).Some?
    requires base.appKey != "" && base.appSecret != "" && ping != Some("omie")
    ensures var r := Consultar(db, codigo, Some(base), Encontrada(StatusPago));
      && r.0 == Ok200(StatusPago)
      && r.1.tickets == AplicarWebhook(db, Webhook(ping, Some(TopicoBaixaRealizada), Some(codigo), situacao)).1.tickets
      && r.1.contas == db.contas[ContaDoCodigo(db, Some(codigo)).value := db.contas[ContaDoCodigo(db, Some(codigo)).value].(statusTitulo := StatusPago)]
      && r.1.prestadores == db.prestadores && r.1.servicos == db.servicos && r.1.nextId == db.nextId
  {
  }

  /** A poll that finds the payable in any other status mirrors it and leaves the tickets alone. */
  lemma ConsultaNaoPagoEspelhaStatus(db: Db, codigo: int, base: Credenciais, st: string)
    requires TicketDaConta(db, ContaDoCodigo(db, Some(codigo))).Some?
    requires base.appKey != "" && base.appSecret != "" && st != StatusPago
    ensures var r := Consultar(db, codigo, Some(base), Encontrada(st));
      && r.0 == Ok200(st) && r.1.tickets == db.tickets
      && r.1.contas == db.contas[ContaDoCodigo(db, Some(codigo)).value := db.contas[ContaDoCodigo(db, Some(codigo)).value].(statusTitulo := st)]
      && r.1.prestadores == db.prestadores && r.1.servicos == db.servicos && r.1.nextId == db.nextId
  {
  }

  /**
   * A `BaixaRealizada` that arrives after the payable was deleted changes
   * nothing: the ticket stays in payment approval.
   */
  lemma BaixaAposExcluidoSemEfeito(db: Db, codigo: int, ping: Option<string>, situacao: string, situacao': string)
    requires db.Valid() && ping != Some("omie")
    ensures var d := AplicarWebhook(db, Webhook(ping, Some(TopicoExcluido), Some(codigo), situacao)).1;
      AplicarWebhook(d, Webhook(ping, Some(TopicoBaixaRealizada), Some(codigo), situacao')).1 == d
  {
    var c := ContaDoCodigo(db, Some(codigo));
    var d := AplicarWebhook(db, Webhook(ping, Some(TopicoExcluido), Some(codigo), situacao)).1;
    if c.Some? {
      var c' := ContaDoCodigo(d, Some(codigo));
      if c'.Some? {
        assert false;
      }
    }
  }
}
