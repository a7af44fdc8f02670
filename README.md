# Commission import, SCI export and payable reconciliation

This project is a Dafny model of three parts of the oondemand back end:

- **Commission import** (`importarComissoes`). A spreadsheet of commissions is read by column
  position. Rows without a `sid` or a provider name are dropped. For each remaining row the
  controller finds the provider by `sid`, or creates one pending review. It then stores one
  service and one ticket in `requisicao`/`aguardando-inicio`. All of this happens in one session:
  the first failing row aborts the whole import.
- **SCI exports** (`exportarServicos`, `exportarPrestadores`). Selected tickets are those in stage
  `integracao-unico` whose status is not `concluido`.
  - The service export writes one record per provider that has `sciUnico`. The record holds the
    ticket's total and its latest competency as `ddMMyyyy`. Each exported ticket is saved as
    `trabalhando`.
  - The provider export writes one record per provider that has no `sciUnico`. Each exported
    provider is saved as `aguardando-codigo-sci`, with the export time.
- **Payable reconciliation** (`contaPagarWebHook`, `obterContaPagarOmie`). The ERP's webhook and
  a poll keep each ticket in step with its account payable:
  - a settled payable concludes the ticket;
  - a cancelled settlement sends the ticket back to `integracao-omie`;
  - a deleted payable sends the ticket back to `aprovacao-pagamento`, unlinked and flagged.
- **The provider schema** (`Prestador.js`): its enums, defaults and patterns, and the e-mail
  setter and validator.

The database is a value `Db`: four maps from ids to records, plus the next free id. The class
`Store` holds the same maps as fields, which the controller methods update in place. Each
controller method's postcondition ties the store after the call to a pure function of the store
before it. The lemmas are stated about those functions. Queries scan ids in ascending order,
which stands for the collections' natural order. `Db.Valid` is the consistency the lemmas keep:
- ids are allocated below `nextId`;
- references resolve;
- at most one ticket links to a payable;
- `sid` and payable codes are unique, and so is `sciUnico` among the providers that have one.

Values that come from outside are parameters:
- the uploaded sheet, as a grid of text and number cells;
- the `SCI_*` settings and the computed payment date;
- the current time;
- the stored ERP credentials and the ERP's answer to `consultar`;
- the two record renderers, as functions from the record's fields to text.

The `Parse*` functions of the provider schema and `PrestadorSchema.GravarEmail` state what the
schema accepts and stores. The controllers never call them: they specify the schema, and the
import keeps its own casts (`Importacao.ParaNumero`, `Importacao.ParaTexto`).

## Model

| member | source | states |
|---|---|---|
| Datas.MonthStart | src/controllers/acaoEtapaController.js:166-167 | `new Date(year, month - 1)` always lands on the 1st of a month from 1 to 12 |
| Datas.MonthStartOfCompetency | src/controllers/acaoEtapaController.js:166-167 | for a four-digit year and month 1..12 the date is the 1st of that very month |
| Datas.Latest | src/controllers/acaoEtapaController.js:171 | `max` of the dates: none only for an empty list, otherwise one of the dates and not earlier than any of them |
| Datas.FormatParseRoundTrip | src/controllers/acaoEtapaController.js:178-182 | `ddMMyyyy` (`FormatDdMMyyyy`, :182) prints every date of years 1..9999 as eight digits that read back as the same date |
| Datas.FormatJune2024 | src/controllers/acaoEtapaController.js:182 | competency 6/2024 prints as `01062024` |
| PrestadorSchema.ParseStatus | src/models/Prestador.js:69-80 | accepts exactly the six `status` names, each naming its own value |
| PrestadorSchema.ParseTipo | src/models/Prestador.js:34 | accepts exactly `pj` and `pf` |
| PrestadorSchema.ParseTipoConta | src/models/Prestador.js:19 | accepts exactly `""`, `corrente`, `poupanca` |
| PrestadorSchema.ParseRegime | src/models/Prestador.js:63-66 | accepts exactly the four tax regimes |
| PrestadorSchema.NovoPrestador | src/models/Prestador.js:23-84 | a provider built from `sid`, `nome` and `status` keeps them; `sciUnico`, `email` and `dataExportacao` stay unset |
| PrestadorSchema.SidValidoIntervalo | src/models/Prestador.js:28-33 | the `sid` pattern holds for a number iff it is between 1000000 and 9999999 |
| PrestadorSchema.SciUnicoValidoIntervalo | src/models/Prestador.js:25 | the `sciUnico` pattern holds for a number iff it is at least 10000 |
| PrestadorSchema.ToLower | src/models/Prestador.js:39 | the `lowercase` setter keeps the length and lower-cases each character |
| PrestadorSchema.ToLowerIdempotent | src/models/Prestador.js:39 | lower-casing twice is lower-casing once |
| PrestadorSchema.EmailPatternLower | src/models/Prestador.js:39-43 | lower-casing neither creates nor destroys a match of `/\S+@\S+\.\S+/` (`EmailPattern`, Prestador.js:42) |
| PrestadorSchema.GravarEmail | src/models/Prestador.js:37-47 | an e-mail is accepted iff it is null or matches the pattern; a stored e-mail is lower case and matches |
| PrestadorSchema.NovoPrestadorValido | src/models/Prestador.js:23-84 | a provider created with a non-empty name passes the enforced validations; it meets the declared `sid` pattern iff `sid` has seven digits |
| PrestadorSchema.VazioComoAusente | src/models/Prestador.js:35 | an empty `documento` (or `cep`, Prestador.js:6) passes the `match` validators exactly as a missing one does |
| Entidades.Store.Restore | src/controllers/acaoEtapaController.js:105-106 | aborting the session puts back the state it started from |
| Entidades.PrestadorPorSid | src/controllers/acaoEtapaController.js:65-67 | `findOne({ sid })` finds the first provider with that `sid`, and none only when no provider has it |
| Entidades.ContaPorCodigo | src/controllers/contaPagarController.js:10-12 | finds the first payable with that code, and none only when no payable has it |
| Entidades.TicketPorConta | src/controllers/contaPagarController.js:14 | finds the first ticket linked to the payable, and none only when no ticket is |
| Entidades.TicketPorContaSoDependeDosVinculos | src/controllers/contaPagarController.js:104-113 | the ticket lookup depends only on the tickets' payable links |
| Entidades.MesmosVinculosValido | src/controllers/contaPagarController.js:104-113 | rewriting tickets without touching their links keeps the store consistent |
| Importacao.MapearLinha | src/controllers/acaoEtapaController.js:48-58 | each field copies its column when truthy, else `""` for columns 0-3 and `0` for columns 4-8 |
| Importacao.Mantidas | src/controllers/acaoEtapaController.js:60 | the kept positions are exactly the rows whose `sid` and name are truthy, in increasing order |
| Importacao.ProcessarLinhasMantemOrdem | src/controllers/acaoEtapaController.js:44-60 | the processed rows (`ProcessarLinhas` and `FiltrarValidas`, :44-60) are the mapped rows after the header whose columns 0 and 1 are truthy, in file order, with nothing else |
| Importacao.ParaNumeroDecimal | src/controllers/acaoEtapaController.js:77-88 | the Number cast (`ParaNumero`, used by `NovoServico` for the competency and amount cells, :77-88) reads decimal digits as the number they write, with or without leading zeros |
| Importacao.PrestadorDaLinha | src/controllers/acaoEtapaController.js:65-75 | the provider returned is stored and has the row's `sid` |
| Importacao.PrestadorDaLinhaEfeito | src/controllers/acaoEtapaController.js:65-75 | an existing provider with that `sid` is reused and nothing changes; otherwise exactly one provider is added, `pendente-de-revisao`; consistency is kept |
| Importacao.ImportarLinhaEfeito | src/controllers/acaoEtapaController.js:63-99 | the one-row transition (`ImportarLinha`, :63-99), when it succeeds, keeps consistency and every existing record, and adds one service and one ticket |
| Importacao.ImportarLinhaTicket | src/controllers/acaoEtapaController.js:77-98 | the one ticket a row adds is in `requisicao`/`aguardando-inicio`, unlinked, titled `Comissão <name>: <month>/<year>` (`TituloDoTicket`, :94), with one `ativo` service carrying the row's cast values (`NovoServico`, :77-88) |
| Importacao.ErroInterrompe | src/controllers/acaoEtapaController.js:101-111 | once a row fails, the rows after it do not change the outcome |
| Importacao.ImportarTodasEfeito | src/controllers/acaoEtapaController.js:63-112 | the whole loop (`ImportarTodas`, :63-112), when it succeeds, keeps consistency and every existing record, adds one service and one ticket per row, and every new provider is pending review without `sciUnico` |
| Importacao.SegundoPrestadorSemSciQuebraIndice | src/models/Prestador.js:25 | with the `sciUnico` index as declared, a row with a new `sid` on a store that already has a provider without `sciUnico` yields a store that breaks that index, though it keeps the sparse keys of `Valid` |
| Importacao.ImportarTodasTicketsDasLinhas | src/controllers/acaoEtapaController.js:63-112 | every ticket the import adds is the ticket of one of its rows |
| Importacao.ImportarTodasCadaLinhaTemTicket | src/controllers/acaoEtapaController.js:63-112 | every row has its ticket among the added ones |
| Importacao.ImportarTodasFalhaNaPrimeira | src/controllers/acaoEtapaController.js:101-111 | a failed import reports a row whose prefix imported and which then failed |
| Importacao.GravarLinha | src/controllers/acaoEtapaController.js:64-99 | the store method writes exactly what the row's transition gives, and reports whether it succeeded |
| Importacao.ImportarComissoes | src/controllers/acaoEtapaController.js:21-129 | no file gives 400 and no change; otherwise 201 with every row written, or 500 with the store back as it was |
| Exportacao.Populados | src/controllers/acaoEtapaController.js:137 | populated services are stored ones, never more than the ids, and exactly the referenced ones when all exist |
| Exportacao.PopuladosSaoOsPresentes | src/controllers/acaoEtapaController.js:137 | whatever the ids, the populated services are the stored services of the ids that exist, in order; dangling ids are skipped |
| Exportacao.Competencias | src/controllers/acaoEtapaController.js:167 | one competency date per service, in order |
| Exportacao.AcumularServicos | src/controllers/acaoEtapaController.js:160-168 | the inner loop yields the sum of `valorTotal` (`SomaTotal`, :160-165) and the competency dates |
| Exportacao.DataDeRealizacaoMaisRecente | src/controllers/acaoEtapaController.js:171 | for a non-empty ticket the realization date is one service's competency and not earlier than any other |
| Exportacao.RegistroDoTicket | src/controllers/acaoEtapaController.js:173-185 | the record carries `sciUnico`, the configured cost centre, company and ISS percentage, the total, document type 1, the latest competency and the payment date as `ddMMyyyy` |
| Exportacao.ServicosAteFalha | src/controllers/acaoEtapaController.js:153-158 | the loop throws iff a selected ticket before the end has a dangling provider |
| Exportacao.ServicosAteExportados | src/controllers/acaoEtapaController.js:155-191 | a provider is on the seen-list iff one of its eligible tickets is reached before any exception |
| Exportacao.ServicosAteMarcados | src/controllers/acaoEtapaController.js:155-191 | in the service loop (`PassoServicos` and `ServicosAte`, :153-193) a ticket is saved as `trabalhando` iff it is eligible, reached before any exception, and the first eligible one of its provider |
| Exportacao.ServicosAteDocumento | src/controllers/acaoEtapaController.js:173-185 | the document is the rendered records of the marked tickets, in ticket order, each followed by a blank line |
| Exportacao.ServicosAteSegueFalhando | src/controllers/acaoEtapaController.js:196-198 | once the loop has thrown, later tickets change nothing |
| Exportacao.MarcarTrabalhando | src/controllers/acaoEtapaController.js:187-188 | marked tickets become `trabalhando`; other tickets are unchanged |
| Exportacao.MarcarTrabalhandoValido | src/controllers/acaoEtapaController.js:187-188 | marking tickets keeps the store consistent |
| Exportacao.ExportarServicos | src/controllers/acaoEtapaController.js:131-199 | the method saves exactly the marked tickets as `trabalhando`; the document reaches the e-mail only when the loop did not throw |
| Exportacao.ExemploDataDeRealizacao | src/controllers/acaoEtapaController.js:160-182 | services of 3/2024 and 6/2024 give their summed total and realization date `01062024` |
| Exportacao.RegistroDoPrestador | src/controllers/acaoEtapaController.js:221-236 | a record exists iff the provider is not an individual missing a birth date; `documento`, `email`, `nome`, the address's `cep` and the individual's `nomeMae`, `pis`, `rg.numero`, `rg.orgaoEmissor` are copied, and the birth date is formatted; without an address `cep` is `""`, without individual data those fields are `""`; `bairro` is always undefined |
| Exportacao.RegistroDoPrestadorComoEscrito | src/controllers/acaoEtapaController.js:227-235 | with `pessoaFisica` always truthy, a record exists iff the provider has individual data with a birth date, and then it is the intended record |
| Exportacao.SemPessoaFisicaComoEscritoFalha | src/controllers/acaoEtapaController.js:227-235 | for a provider without individual data the guards as evaluated throw, while the intended record has empty fields |
| Exportacao.PrestadoresAteFalha | src/controllers/acaoEtapaController.js:216-236 | the provider loop throws iff a ticket before the end has a dangling provider or an unformattable birth date |
| Exportacao.PrestadoresAteExportadosTemRegistro | src/controllers/acaoEtapaController.js:216-242 | the exported providers are distinct and stored, each without `sciUnico` and with a record |
| Exportacao.PrestadoresAteExportados | src/controllers/acaoEtapaController.js:216-242 | in the provider loop (`PassoPrestadores` and `PrestadoresAte`, :216-243) a provider is exported iff a candidate ticket of it comes before any exception |
| Exportacao.PrestadoresAteDocumento | src/controllers/acaoEtapaController.js:216-242 | the provider document is the rendered records of the exported providers, in export order, each followed by a blank line |
| Exportacao.PrestadoresAteSegueFalhando | src/controllers/acaoEtapaController.js:246-248 | once the loop has thrown, later tickets change nothing |
| Exportacao.MarcarAguardandoSci | src/controllers/acaoEtapaController.js:238-240 | exported providers become `aguardando-codigo-sci` with the export time; others are unchanged |
| Exportacao.MarcarAguardandoSciValido | src/controllers/acaoEtapaController.js:238-240 | marking providers keeps the store consistent |
| Exportacao.PrestadoresComSciIntocados | src/controllers/acaoEtapaController.js:217-218 | a provider with `sciUnico` comes out of a provider export unchanged |
| Exportacao.ExportarPrestadores | src/controllers/acaoEtapaController.js:201-249 | the method saves exactly the exported providers; the document reaches the e-mail only when the loop did not throw |
| ContaPagarController.ContaDoCodigo | src/controllers/contaPagarController.js:99-102 | the payable found carries the code; a missing code finds none |
| ContaPagarController.TicketDaConta | src/controllers/contaPagarController.js:104-107 | the ticket found is linked to the payable; no payable finds no ticket |
| ContaPagarController.Aplicar | src/controllers/contaPagarController.js:108-151 | the three rewrites keep title, provider and services; settlement sets `concluido`/`concluido`, a cancelled settlement `integracao-omie`/`trabalhando`, deletion `aprovacao-pagamento`/`revisao` with the link cleared and the removal note; only deletion touches the link and the note |
| ContaPagarController.AtualizarTicket | src/controllers/contaPagarController.js:104-113 | `findOneAndUpdate` rewrites the ticket found and no other record |
| ContaPagarController.RemoverConta | src/controllers/contaPagarController.js:139-141 | `findOneAndDelete` removes the payable found and keeps every other record |
| ContaPagarController.AtualizarStatus | src/controllers/contaPagarController.js:85-93 | sets `status_titulo` on the payable found and changes no other record |
| ContaPagarController.AplicarWebhook | src/controllers/contaPagarController.js:75-161 | the answer is `pong` iff `ping` is `omie`; `pong` and unhandled topics change nothing |
| ContaPagarController.ContaPagarWebHook | src/controllers/contaPagarController.js:75-161 | the store method does exactly the webhook transition |
| ContaPagarController.Consultar | src/controllers/contaPagarController.js:6-73 | no linked ticket gives 404 and no change; with a ticket, no stored BaseOmie gives 500 (destructuring null throws), an empty appKey or appSecret gives 400, and an ERP call that throws gives 500, each with no change; the second 404 happens iff a ticket is found, credentials are set, and the ERP has no such payable |
| ContaPagarController.ObterContaPagarOmie | src/controllers/contaPagarController.js:6-73 | the store method does exactly the poll transition |
| ContaPagarController.TicketDaContaUnico | src/controllers/contaPagarController.js:14 | on a consistent store the ticket found is the only one linked to the payable |
| ContaPagarController.WebhookAlterado | src/controllers/contaPagarController.js:82-94 | `Alterado` sets `status_titulo` on the payable with that code; tickets, providers, services, `nextId` and other payables are unchanged |
| ContaPagarController.BaixaRealizadaIdempotente | src/controllers/contaPagarController.js:96-114 | delivering `BaixaRealizada` twice gives the same store as delivering it once |
| ContaPagarController.BaixaRealizadaConclui | src/controllers/contaPagarController.js:96-114 | `BaixaRealizada` sets the ticket found for the payable (on a consistent store, the ticket linked to it) to `concluido`/`concluido` and changes no other ticket, provider, service or payable |
| ContaPagarController.BaixaCanceladaSoEtapaEStatus | src/controllers/contaPagarController.js:116-134 | `BaixaCancelada` sets the ticket found for the payable (on a consistent store, the ticket linked to it) to `integracao-omie`/`trabalhando` and changes no other ticket, provider, service or payable |
| ContaPagarController.ExcluidoDevolveTicket | src/controllers/contaPagarController.js:136-154 | `Excluido` deletes exactly that payable and sends its ticket to `aprovacao-pagamento`/`revisao`, unlinked and flagged; no ticket is lost and none still refers to it; other tickets, providers and services are unchanged; an unknown code changes nothing |
| ContaPagarController.DevolverERemoverValido | src/controllers/contaPagarController.js:136-154 | reverting the payable's ticket and deleting the payable keeps the store consistent |
| ContaPagarController.WebhookValido | src/controllers/contaPagarController.js:75-161 | every webhook keeps the store consistent |
| ContaPagarController.ConsultarValido | src/controllers/contaPagarController.js:6-73 | every poll keeps the store consistent |
| ContaPagarController.ConsultaAusenteComoExcluido | src/controllers/contaPagarController.js:35-51 | when the ERP no longer has the payable, the poll leaves the store exactly as the `Excluido` webhook does |
| ContaPagarController.ConsultaPagoComoBaixaRealizada | src/controllers/contaPagarController.js:54-63 | a poll that finds the payable `PAGO` puts the tickets where `BaixaRealizada` puts them; that payable's `status_titulo` becomes `PAGO` and no other payable, field, provider or service changes |
| ContaPagarController.ConsultaNaoPagoEspelhaStatus | src/controllers/contaPagarController.js:54-63 | a poll that finds another status copies it to that payable's `status_titulo` and changes no ticket, other payable, provider or service |
| ContaPagarController.BaixaAposExcluidoSemEfeito | src/controllers/contaPagarController.js:96-154 | a `BaixaRealizada` arriving after the payable was deleted changes nothing |

## Left out

- Reading the uploaded file (XLSX parsing, `fs.unlinkSync`) is left out. The sheet arrives as a grid of cells, and an unreadable file is not modelled.
- Mongoose sessions are modelled as a snapshot of the store, put back on abort. Concurrent writers are left out.
- Database errors (a failed query or save outside the modelled cases) are left out. The source turns them into 500 responses.
- Mongoose's cast to Number is modelled for numbers, `""` and plain decimal digit text. Other text fails the row. Signs, decimals, exponents and white space are not parsed.
- Amounts are integers. The source's floating-point sums are not modelled.
- Servico.js is not part of this model. Its `mesCompetencia`, `anoCompetencia` and the five amounts are taken to be Number paths, so a row's cells go through the Number cast (`Importacao.ParaNumero`).
- Importacao.ImportarComissoes: the 500 answer carries the failing row, which the source only writes to the log (acaoEtapaController.js:102-104). The body the source sends, `{ message, detalhes: err.message }`, is not modelled.
- Exportacao.RegistroDoTicket: the renderers `criarServicoParaExportacao` and `criarPrestadorParaExportacao` are not part of this model. They are parameters, so the record layout is not checked.
- The `SCI_*` environment settings and `addDays(new Date(), SCI_DIAS_PAGAMENTO)` are parameters. Date arithmetic and time zones are left out.
- `new Date()` at provider export is a parameter. Only the calendar date is kept.
- The e-mail senders are left out. The document they would receive is the method's result; `None` means the loop threw and nothing was sent.
- The service export answers 200 before its loop runs, and the provider export does the same. That response timing is left out.
- The `!tickets` check of the service export can never fire, since `find` returns a list. It is left out.
- `importarPrestadores` and `importarRPAs` only answer fixed text and are left out.
- Ticket.js declares `baseOmie` as required. It declares `servico`, not `servicos`, and has `contaPagarOmie` commented out. The model follows the fields the controllers read and write, and does not apply that schema's validation on save.
- Provider validation on save (the `nome`, pattern and e-mail checks) is stated in PrestadorSchema. A save that would fail that validation is not modelled as a failing row.
- Exportacao.ExportarServicos: providers on the seen-list are compared by id. The source tests `_id` values with `includes`, which finds a provider only when its populated documents share the same `_id` object; the model assumes it does.
- Exportacao.ExportarPrestadores: the same assumption holds for the seen-list of the provider export, which tests `prestador._id` with `includes` in the same way.
- PrestadorSchema.PadroesDeclarados: Mongoose ignores `match` on Number paths, so `sid` and `sciUnico` are not checked on save.
- PrestadorSchema.ToLower: lower-cases ASCII letters only, not full Unicode case mapping.
- An unset `pessoaFisica` is modelled as absent. The export uses the record its guards intend; the record as the guards evaluate, with Mongoose's always-present nested object, is stated beside it (see Findings).
- ContaPagarController.AplicarWebhook: a lookup keyed by a missing code or a missing payable is modelled as matching nothing. The database driver may instead send such a key as `null`, which matches every unlinked ticket.
- ContaPagarController.Consultar: the first 404 (contaPagarController.js:14-19) relies on the same assumption: with no payable for the code, `Ticket.findOne({ contaPagarOmie: undefined })` is taken to find no ticket.
- ContaPagarController.BaixaAposExcluidoSemEfeito: relies on the same assumption, since after the deletion the code finds no payable.
- ContaPagarController.AplicarWebhook: a `Baixa` payload whose `event[0]` lacks `conta_a_pagar` throws in the source and answers 500. It is not modelled; the code is taken as given or missing.
- ContaPagarController.AplicarWebhook: `event.situacao` is taken as text. A missing `situacao` is not modelled.
- ContaPagarController.Consultar: the ERP call `consultar` is not part of this model. Its outcome is a parameter: found with a status, not found, or threw.

## Findings

| source | as written | input that shows it | evidently intended | confidence | as-written member | corrected member |
|---|---|---|---|---|---|---|
| src/models/Prestador.js:25 | `sciUnico` is declared `unique: true` without `sparse`, so the index counts a missing `sciUnico` as a value and admits only one provider without it | a store holding a provider without `sciUnico`, and a sheet row whose `sid` no provider has: the import creates a second provider without `sciUnico`, the insert breaks the index and the whole import rolls back | `sciUnico` unique only among providers that have one (a sparse index), since the import always creates providers without it; `Entidades.Db.ChavesUnicas` states that and the import keeps it | not executed; the index is built only if Mongoose's automatic index creation runs | Importacao.SegundoPrestadorSemSciQuebraIndice | Importacao.ImportarTodasEfeito |
| src/controllers/acaoEtapaController.js:227-235 | `prestador.pessoaFisica ? … : ""` tests a nested path, which Mongoose always returns as an object, so the `""` branches never run and `format(undefined, "ddMMyyyy")` throws for a provider without individual data | a selected ticket whose provider has no `sciUnico` and no `pessoaFisica` data: the provider loop throws and nothing is e-mailed | a provider without individual data exported with empty individual fields | not executed | Exportacao.SemPessoaFisicaComoEscritoFalha | Exportacao.RegistroDoPrestador |
