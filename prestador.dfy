/**
 * The provider record of `prestadorSchema` with its nested address
 * (`enderecoSchema`) and bank details (`dadosBancariosSchema`): the enum
 * domains, the `match` patterns, the e-mail validator and the defaults.
 *
 * Mongoose runs `match` only on String paths: the patterns declared on the
 * Number paths `sid` and `sciUnico` are stated here as predicates
 * (`SidValido`, `SciUnicoValido`) but no write in the model enforces them.
 */
module PrestadorSchema {
  import opened Wrappers
  import opened Texto
  import opened Datas

  // ----- enum domains -----

  /** `status`, default `"ativo"`. */
  datatype Status = Ativo | EmAnalise | PendenteDeRevisao | Inativo | Arquivado | AguardandoCodigoSci

  function StatusName(s: Status): string {
    match s
    case Ativo => "ativo"
    case EmAnalise => "em-analise"
    case PendenteDeRevisao => "pendente-de-revisao"
    case Inativo => "inativo"
    case Arquivado => "arquivado"
    case AguardandoCodigoSci => "aguardando-codigo-sci"
  }

  /** Accepts exactly the six names of the `status` enum. */
  function ParseStatus(name: string): (r: Option<Status>)
    ensures r.Some? ==> StatusName(r.value) == name
    ensures r.None? ==> forall s: Status :: StatusName(s) != name
  {
    if name == "ativo" then Some(Ativo)
    else if name == "em-analise" then Some(EmAnalise)
    else if name == "pendente-de-revisao" then Some(PendenteDeRevisao)
    else if name == "inativo" then Some(Inativo)
    else if name == "arquivado" then Some(Arquivado)
    else if name == "aguardando-codigo-sci" then Some(AguardandoCodigoSci)
    else None
  }

  const StatusPadrao: Status := Ativo

  /** `tipo`: legal entity or individual. */
  datatype Tipo = Pj | Pf

  function TipoName(t: Tipo): string {
    match t
    case Pj => "pj"
    case Pf => "pf"
  }

  function ParseTipo(name: string): (r: Option<Tipo>)
    ensures r.Some? ==> TipoName(r.value) == name
    ensures r.None? ==> forall t: Tipo :: TipoName(t) != name
  {
    if name == "pj" then Some(Pj) else if name == "pf" then Some(Pf) else None
  }

  /** `dadosBancarios.tipoConta`: empty, checking or savings. */
  datatype TipoConta = SemTipo | Corrente | Poupanca

  function TipoContaName(t: TipoConta): string {
    match t
    case SemTipo => ""
    case Corrente => "corrente"
    case Poupanca => "poupanca"
  }

  function ParseTipoConta(name: string): (r: Option<TipoConta>)
    ensures r.Some? ==> TipoContaName(r.value) == name
    ensures r.None? ==> forall t: TipoConta :: TipoContaName(t) != name
  {
    if name == "" then Some(SemTipo)
    else if name == "corrente" then Some(Corrente)
    else if name == "poupanca" then Some(Poupanca)
    else None
  }

  /** `pessoaJuridica.regimeTributario`. */
  datatype RegimeTributario = Mei | SimplesNacional | LucroPresumido | LucroReal

  function RegimeName(r: RegimeTributario): string {
    match r
    case Mei => "MEI"
    case SimplesNacional => "Simples Nacional"
    case LucroPresumido => "Lucro Presumido"
    case LucroReal => "Lucro Real"
  }

  function ParseRegime(name: string): (r: Option<RegimeTributario>)
    ensures r.Some? ==> RegimeName(r.value) == name
    ensures r.None? ==> forall g: RegimeTributario :: RegimeName(g) != name
  {
    if name == "MEI" then Some(Mei)
    else if name == "Simples Nacional" then Some(SimplesNacional)
    else if name == "Lucro Presumido" then Some(LucroPresumido)
    else if name == "Lucro Real" then Some(LucroReal)
    else None
  }

  // ----- records -----

  datatype Endereco = Endereco(
    cep: Option<string>, rua: Option<string>, numero: Option<string>,
    complemento: Option<string>, cidade: Option<string>, estado: Option<string>)

  datatype DadosBancarios = DadosBancarios(
    banco: Option<string>, agencia: Option<string>, conta: Option<string>, tipoConta: Option<TipoConta>)

  datatype Rg = Rg(numero: Option<string>, orgaoEmissor: Option<string>)

  datatype PessoaFisica = PessoaFisica(
    dataNascimento: Option<Date>, pis: Option<string>, nomeMae: Option<string>, rg: Rg)

  datatype PessoaJuridica = PessoaJuridica(
    razaoSocial: Option<string>, nomeFantasia: Option<string>, codigoCNAE: Option<string>,
    codigoServicoNacional: Option<string>, regimeTributario: Option<RegimeTributario>)

  /** A stored provider; `None` stands for a path the document does not hold. */
  datatype Prestador = Prestador(
    sciUnico: Option<int>,
    nome: string,
    sid: int,
    tipo: Option<Tipo>,
    documento: Option<string>,
    dadosBancarios: Option<DadosBancarios>,
    email: Option<string>,
    endereco: Option<Endereco>,
    pessoaFisica: Option<PessoaFisica>,
    pessoaJuridica: Option<PessoaJuridica>,
    status: Status,
    dataExportacao: Option<Date>)

  /** A provider built from `sid`, `nome` and `status` only: every other path takes its default or stays unset. */
  function NovoPrestador(sid: int, nome: string, status: Status): (p: Prestador)
    ensures p.sid == sid && p.nome == nome && p.status == status
    ensures p.sciUnico.None? && p.dataExportacao.None? && p.email.None?
  {
    Prestador(None, nome, sid, None, None, None, None, None, None, None, status, None)
  }

  // ----- patterns -----

  /** `/^\d{7}$/` */
  predicate SidPattern(s: string) { |s| == 7 && AllDigits(s) }

  /** `/^\d{5,}$/` */
  predicate SciUnicoPattern(s: string) { |s| >= 5 && AllDigits(s) }

  /** `/^\d{11}$|^\d{14}$/` */
  predicate DocumentoPattern(s: string) { (|s| == 11 || |s| == 14) && AllDigits(s) }

  /** `/^\d{8}$/` */
  predicate CepPattern(s: string) { |s| == 8 && AllDigits(s) }

  /** The declared `sid` pattern applied to the number's decimal text. */
  predicate SidValido(sid: int) { SidPattern(NumberToString(sid)) }

  /** The declared `sciUnico` pattern applied to the number's decimal text. */
  predicate SciUnicoValido(sci: int) { SciUnicoPattern(NumberToString(sci)) }

  /** A `sid` matches its pattern iff it is a number of exactly seven digits. */
  lemma SidValidoIntervalo(sid: int)
    ensures SidValido(sid) <==> 1000000 <= sid <= 9999999
  {
    if sid >= 0 {
      DigitCount(sid, 7);
      NatToStringDigits(sid);
      assert Pow10(6) == 1000000 && Pow10(7) == 10000000;
    } else {
      assert NumberToString(sid)[0] == '-';
    }
  }

  /** A `sciUnico` matches its pattern iff it is a number of at least five digits. */
  lemma SciUnicoValidoIntervalo(sci: int)
    ensures SciUnicoValido(sci) <==> sci >= 10000
  {
    if sci >= 0 {
      NatToStringDigits(sci);
      var m := |NatToString(sci)|;
      assert Pow10(4) == 10000;
      if m >= 5 {
        Pow10Monotone(4, m - 1);
      } else {
        Pow10Monotone(m, 4);
      }
    } else {
      assert NumberToString(sci)[0] == '-';
    }
  }

  // ----- e-mail -----

  /** JavaScript `\s`: the white space and line terminator code points. */
  predicate IsSpace(c: char) {
    var k := c as int;
    (9 <= k <= 13) || k == 32 || k == 0xA0 || k == 0x1680 || (0x2000 <= k <= 0x200A)
    || k == 0x2028 || k == 0x2029 || k == 0x202F || k == 0x205F || k == 0x3000 || k == 0xFEFF
  }

  /**
   * `/\S+@\S+\.\S+/` matches with its `@` at `at` and its `.` at `dot`: a
   * non-space before the `@`, only non-spaces up to the `.`, a non-space after it.
   */
  predicate EmailMatchAt(v: string, at: int, dot: int) {
    && 1 <= at && at + 2 <= dot && dot + 2 <= |v|
    && v[at] == '@' && v[dot] == '.'
    && !IsSpace(v[at - 1]) && !IsSpace(v[dot + 1])
    && forall k :: at < k < dot ==> !IsSpace(v[k])
  }

  /** `/\S+@\S+\.\S+/.test(v)`: the pattern is not anchored, so it may match anywhere in `v`. */
  predicate EmailPattern(v: string) {
    exists at, dot | 0 <= at < dot < |v| :: EmailMatchAt(v, at, dot)
  }

  /** The `email` validator: `null` passes, any other value must match the pattern. */
  predicate EmailValidator(v: Option<string>) {
    v.None? || EmailPattern(v.value)
  }

  /** ASCII lower case of one character. */
  function LowerChar(c: char): char {
    if 'A' <= c <= 'Z' then (c as int + 32) as char else c
  }

  /** The `lowercase: true` setter, on ASCII letters. */
  function ToLower(s: string): (r: string)
    ensures |r| == |s|
    ensures forall i :: 0 <= i < |s| ==> r[i] == LowerChar(s[i])
  {
    seq(|s|, i requires 0 <= i < |s| => LowerChar(s[i]))
  }

  /** Lower-casing twice is lower-casing once. */
  lemma ToLowerIdempotent(s: string)
    ensures ToLower(ToLower(s)) == ToLower(s)
  {
  }

  /** Lower-casing neither creates nor destroys a match of the e-mail pattern. */
  lemma EmailPatternLower(v: string)
    ensures EmailPattern(ToLower(v)) <==> EmailPattern(v)
  {
    var w := ToLower(v);
    assert forall k :: 0 <= k < |v| ==> (IsSpace(w[k]) <==> IsSpace(v[k]));
    assert forall k :: 0 <= k < |v| ==> (w[k] == '@' <==> v[k] == '@') && (w[k] == '.' <==> v[k] == '.');
    if EmailPattern(v) {
      var at, dot :| 0 <= at < dot < |v| && EmailMatchAt(v, at, dot);
      assert EmailMatchAt(w, at, dot);
    }
    if EmailPattern(w) {
      var at, dot :| 0 <= at < dot < |w| && EmailMatchAt(w, at, dot);
      assert EmailMatchAt(v, at, dot);
    }
  }

  /**
   * Setting `email`: the value is lower-cased first and then validated, so a
   * stored e-mail is always lower case and matches the pattern, and a value
   * is refused exactly when it does not match the pattern.
   */
  function GravarEmail(v: Option<string>): (r: Result<Option<string>, string>)
    ensures r.Ok? <==> EmailValidator(v)
    ensures r.Ok? ==> EmailValidator(r.value) && (r.value.Some? ==> ToLower(r.value.value) == r.value.value)
    ensures r.Ok? ==> r.value.None? == v.None?
  {
    match v
    case None => Ok(None)
    case Some(s) =>
      var lower := ToLower(s);
      EmailPatternLower(s);
      ToLowerIdempotent(s);
      if EmailPattern(lower) then Ok(Some(lower)) else Err(s)
  }

  // ----- the whole document -----

  /**
   * The validations Mongoose enforces on save: required `nome`, the String
   * patterns and the e-mail validator. A `match` validator lets an empty
   * string pass, like a missing value; the e-mail validator does not.
   */
  predicate ValidacaoAplicada(p: Prestador) {
    && p.nome != ""
    && (p.documento.Some? && p.documento.value != "" ==> DocumentoPattern(p.documento.value))
    && (p.endereco.Some? && p.endereco.value.cep.Some? && p.endereco.value.cep.value != "" ==>
          CepPattern(p.endereco.value.cep.value))
    && EmailValidator(p.email)
  }

  /** The patterns declared on the Number paths, which Mongoose does not apply. */
  predicate PadroesDeclarados(p: Prestador) {
    SidValido(p.sid) && (p.sciUnico.Some? ==> SciUnicoValido(p.sciUnico.value))
  }

  /** An empty `documento` or `cep` passes the enforced validations as a missing one does. */
  lemma VazioComoAusente(p: Prestador, e: Endereco)
    ensures ValidacaoAplicada(p.(documento := Some(""))) == ValidacaoAplicada(p.(documento := None))
    ensures ValidacaoAplicada(p.(endereco := Some(e.(cep := Some(""))))) == ValidacaoAplicada(p.(endereco := Some(e.(cep := None))))
  {
  }

  /** A provider created from a `sid` and a non-empty name passes the enforced validations, whatever its `sid`. */
  lemma NovoPrestadorValido(sid: int, nome: string, status: Status)
    requires nome != ""
    ensures ValidacaoAplicada(NovoPrestador(sid, nome, status))
    ensures PadroesDeclarados(NovoPrestador(sid, nome, status)) <==> 1000000 <= sid <= 9999999
  {
    SidValidoIntervalo(sid);
  }
}
