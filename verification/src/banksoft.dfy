/** The decision part of the Banksoft (Banco PINE) withdrawal request
    (handlers/banksoft.py): how the client's marital status is named, which
    margin and which external órgão code the proposal carries, which
    proposal type is sent, the instalment schedule, the invoice due date,
    the HTTP-like status read back from the SOAP answer, and the bank
    number sent when bank details change. Amounts are in cents; today's
    date and the parsed SOAP answer are inputs. */
module Banksoft {
  import opened Common
  import opened Codes

  // ---------------------------------------------------------------------
  // Marital status

  /** The names Banksoft accepts. Every status but "single" is recognised
      both with and without the "(a)" suffix; single only with it. */
  function MaritalStatus(s: string): (r: string)
    ensures r in {"Solteiro", "Casado", "Viuvo", "Divorciado", "Desquitado", "NaoDefinido"}
    ensures r == "Solteiro" <==> s == "Solteiro(a)"
    ensures r == "Casado" <==> s == "Casado(a)" || s == "Casado"
    ensures r == "Viuvo" <==> s == "Viuvo(a)" || s == "Viuvo"
    ensures r == "Divorciado" <==> s == "Divorciado(a)" || s == "Divorciado"
    ensures r == "Desquitado" <==> s == "Desquitado(a)" || s == "Desquitado"
  {
    if s == "Solteiro(a)" then "Solteiro"
    else if s in {"Casado(a)", "Casado"} then "Casado"
    else if s in {"Viuvo(a)", "Viuvo"} then "Viuvo"
    else if s in {"Divorciado(a)", "Divorciado"} then "Divorciado"
    else if s in {"Desquitado(a)", "Desquitado"} then "Desquitado"
    else "NaoDefinido"
  }

  // ---------------------------------------------------------------------
  // Margin and external órgão code

  /** The benefit card's margins (cents) and the payroll codes stored per
      margin. */
  datatype CardMargins = CardMargins(
    tipoMargem: int,
    margemSaque: int, margemCompra: int, margemAtual: int,
    folha: Option<string>, folhaCompra: Option<string>, folhaSaque: Option<string>)

  /** The code sent as `pCodigoOrgaoExterno`: a stored payroll code (which
      may be `None`), or the fallback 999. */
  datatype Orgao = Folha(code: Option<string>) | Fallback

  const ORGAO_FALLBACK: int := 999

  predicate Blank(f: Option<string>) { f.None? || f.value == "" }

  /** The margin a card of margin type `tipo` commits, as the sum of the
      margins it covers: withdrawal, purchase, both, or the single one. */
  function CommittedMargin(c: CardMargins): (m: int)
  {
    (if c.tipoMargem in {MARGEM_SAQUE, MARGEM_UNIFICADA} then c.margemSaque else 0)
    + (if c.tipoMargem in {MARGEM_COMPRA, MARGEM_UNIFICADA} then c.margemCompra else 0)
    + (if c.tipoMargem !in {MARGEM_SAQUE, MARGEM_COMPRA, MARGEM_UNIFICADA} then c.margemAtual else 0)
  }

  /** The payroll code stored with the margin the type reserves against;
      a unified card reserves against its purchase payroll. */
  function MarginFolha(c: CardMargins): Option<string>
  {
    if c.tipoMargem == MARGEM_SAQUE then c.folhaSaque
    else if c.tipoMargem in {MARGEM_COMPRA, MARGEM_UNIFICADA} then c.folhaCompra
    else c.folha
  }

  /** The margin and órgão code of the proposal. `manual` is the
      contract's manual-entry flag. */
  function MarginAndOrgao(c: CardMargins, manual: bool): (r: (int, Orgao))
    ensures r.0 == CommittedMargin(c)
    ensures c.tipoMargem == MARGEM_UNIFICADA ==> r.0 == c.margemSaque + c.margemCompra
    ensures r.1 == Fallback <==> manual || (Blank(c.folha) && Blank(c.folhaCompra) && Blank(c.folhaSaque))
    ensures r.1.Folha? ==> r.1.code == MarginFolha(c)
  {
    var (margem, folha) :=
      if c.tipoMargem == MARGEM_SAQUE then (c.margemSaque, c.folhaSaque)
      else if c.tipoMargem == MARGEM_COMPRA then (c.margemCompra, c.folhaCompra)
      else if c.tipoMargem == MARGEM_UNIFICADA then (c.margemSaque + c.margemCompra, c.folhaCompra)
      else (c.margemAtual, c.folha);
    if manual || (Blank(c.folha) && Blank(c.folhaCompra) && Blank(c.folhaSaque)) then (margem, Fallback)
    else (margem, Folha(folha))
  }

  /** The fallback is never chosen while the payroll code of the reserved
      margin is filled in, unless the contract was typed by hand. */
  lemma FilledFolhaAvoidsFallback(c: CardMargins)
    requires !Blank(MarginFolha(c))
    ensures MarginAndOrgao(c, false).1 == Folha(MarginFolha(c))
  {
  }

  // ---------------------------------------------------------------------
  // Proposal type

  datatype ProposalKind =
    | CartaoMaisSaqueRotativo
    | CartaoDeCredito
    | CartaoMaisSaqueParcelado
    | CartaoSaqueComplementar

  /** What the proposal carries: its type, the instalment count (absent
      for a plain credit card, which sends no withdrawal block) and whether
      the client's bank account is sent. */
  datatype Proposal = Proposal(kind: ProposalKind, parcelas: Option<int>, sendsAccount: bool)

  predicate IsCardProduct(produto: int) {
    produto in {PRODUTO_CARTAO_BENEFICIO, PRODUTO_CARTAO_CONSIGNADO}
  }

  /** The proposal for a card or complementary-withdrawal contract. A
      complementary withdrawal always has a withdrawal; any other product
      leaves the card unbound and the request fails. */
  function ProposalFor(produto: int, possuiSaque: bool, parcelado: bool, qtdParcelado: int)
    : (r: Result<Proposal>)
    ensures r.Ok? <==> IsCardProduct(produto) || produto == PRODUTO_SAQUE_COMPLEMENTAR
    ensures r.Ok? ==> (r.value.kind == CartaoDeCredito <==> IsCardProduct(produto) && !possuiSaque && !parcelado)
    ensures r.Ok? ==> (r.value.kind == CartaoSaqueComplementar <==> produto == PRODUTO_SAQUE_COMPLEMENTAR)
    ensures r.Ok? && IsCardProduct(produto) && parcelado ==> r.value.kind == CartaoMaisSaqueParcelado
    ensures r.Ok? ==> (r.value.sendsAccount <==> r.value.kind != CartaoDeCredito)
    ensures r.Ok? ==> (r.value.parcelas.Some? <==> r.value.kind != CartaoDeCredito)
    ensures r.Ok? && r.value.parcelas.Some? ==> r.value.parcelas.value == (if parcelado then qtdParcelado else 1)
  {
    if IsCardProduct(produto) then
      var base := if possuiSaque then Proposal(CartaoMaisSaqueRotativo, Some(1), true)
                  else Proposal(CartaoDeCredito, None, false);
      if parcelado then Ok(Proposal(CartaoMaisSaqueParcelado, Some(qtdParcelado), true)) else Ok(base)
    else if produto == PRODUTO_SAQUE_COMPLEMENTAR then
      Ok(Proposal(CartaoSaqueComplementar, Some(if parcelado then qtdParcelado else 1), true))
    else Err("UnboundLocalError")
  }

  /** The condition under which the instalment list is sent, as written
      (`saque and parcelado or not saque and parcelado`): it is the
      instalment flag alone. */
  function SendsInstalments(possuiSaque: bool, parcelado: bool): (b: bool)
    ensures b <==> parcelado
  {
    (possuiSaque && parcelado) || (!possuiSaque && parcelado)
  }

  // ---------------------------------------------------------------------
  // Instalment schedule

  datatype Instalment = Instalment(numero: int, vencimento: Date)

  /** Instalments 1..n; instalment i falls due i-1 months after the first
      due date, with the day clamped to the month's length. */
  function Instalments(first: Date, n: nat): (r: seq<Instalment>)
    requires ValidDate(first)
    ensures |r| == n
    ensures forall i :: 0 <= i < n ==> r[i].numero == i + 1 && ValidDate(r[i].vencimento)
  {
    seq(n, i requires 0 <= i => Instalment(i + 1, AddMonths(first, i)))
  }

  /** Consecutive instalments fall in consecutive months, never later in
      the month than the first one and on the same day whenever the month
      is long enough. */
  lemma InstalmentsMonthly(first: Date, n: nat, i: int)
    requires ValidDate(first) && 0 <= i < n
    ensures var d := Instalments(first, n)[i].vencimento;
      && d.year * 12 + d.month == first.year * 12 + first.month + i
      && d.day <= first.day
      && (first.day <= DaysInMonth(d.year, d.month) ==> d.day == first.day)
    ensures i + 1 < n ==>
      (var a, b := Instalments(first, n)[i].vencimento, Instalments(first, n)[i + 1].vencimento;
       b.year * 12 + b.month == a.year * 12 + a.month + 1)
  {
  }

  /** A first due date on day 28 or earlier keeps its day in every month. */
  lemma EarlyDayKeptEveryMonth(first: Date, n: nat)
    requires ValidDate(first) && first.day <= 28
    ensures forall i :: 0 <= i < n ==> Instalments(first, n)[i].vencimento.day == first.day
  {
    forall i | 0 <= i < n
      ensures Instalments(first, n)[i].vencimento.day == first.day
    {
      InstalmentsMonthly(first, n, i);
      var d := Instalments(first, n)[i].vencimento;
      assert DaysInMonth(d.year, d.month) >= 28;
    }
  }

  // ---------------------------------------------------------------------
  // Invoice due date

  /** `get_data_vencimento` as written: the due date falls in the month
      after today, and a requested day is capped at the DAY of "today plus
      one month" (not at the length of that month, which is what the
      comment beside the test says it means). A day below 1 makes
      `datetime` raise. */
  function DueDateAsWritten(today: Date, dia: int): (r: Result<Date>)
    requires ValidDate(today)
    ensures r.Ok? <==> dia >= 1
    ensures r.Ok? ==> (ValidDate(r.value)
      && r.value.year * 12 + r.value.month == today.year * 12 + today.month + 1
      && r.value.day <= today.day && r.value.day <= dia)
  {
    var next := AddMonths(today, 1);
    var day := if dia > next.day then next.day else dia;
    if day < 1 then Err("ValueError") else Ok(Date(next.year, next.month, day))
  }

  /** The due date as intended: the requested day of next month, or that
      month's last day when the month is shorter. */
  function DueDate(today: Date, dia: int): (r: Result<Date>)
    requires ValidDate(today)
    ensures r.Ok? <==> dia >= 1
    ensures r.Ok? ==> (ValidDate(r.value)
      && r.value.year * 12 + r.value.month == today.year * 12 + today.month + 1)
    ensures r.Ok? ==> (r.value.day == dia <==> dia <= DaysInMonth(r.value.year, r.value.month))
    ensures r.Ok? && dia > DaysInMonth(r.value.year, r.value.month) ==>
      r.value.day == DaysInMonth(r.value.year, r.value.month)
  {
    var next := AddMonths(today, 1);
    var last := DaysInMonth(next.year, next.month);
    if dia < 1 then Err("ValueError")
    else Ok(Date(next.year, next.month, if dia > last then last else dia))
  }

  /** The two agree exactly when the requested day fits before today's
      day, or today's day already is the last day of next month. */
  lemma DueDateAgreement(today: Date, dia: int)
    requires ValidDate(today) && dia >= 1
    ensures var next := AddMonths(today, 1);
      (DueDateAsWritten(today, dia) == DueDate(today, dia)
       <==> dia <= next.day || next.day == DaysInMonth(next.year, next.month))
  {
  }

  /** On 5 January 2024 a card due on the 10th gets 5 February instead of
      10 February. */
  lemma DueDateCappedAtToday()
    ensures DueDateAsWritten(Date(2024, 1, 5), 10) == Ok(Date(2024, 2, 5))
    ensures DueDate(Date(2024, 1, 5), 10) == Ok(Date(2024, 2, 10))
  {
    assert AddMonths(Date(2024, 1, 5), 1) == Date(2024, 2, 5);
  }

  // ---------------------------------------------------------------------
  // Reading the answer

  /** The fields read from `IncluirPropostaCartaoCompletoResult`; a missing
      one makes the lookup raise. */
  const ANSWER_KEYS: seq<string> := ["NumeroProposta", "Status", "MensagemErro"]

  /** 200 when the answer holds all three fields and the status is the
      text `true`; 400 otherwise, including when the answer cannot be read. */
  function ReturnStatus(answer: Option<map<string, string>>): (code: int)
    ensures code in {200, 400}
    ensures code == 200 <==>
      (answer.Some? && (forall k :: k in ANSWER_KEYS ==> k in answer.value) && answer.value["Status"] == "true")
  {
    if answer.None? then 400
    else
      var a := answer.value;
      if "NumeroProposta" !in a || "Status" !in a || "MensagemErro" !in a then 400
      else if a["Status"] == "true" then 200 else 400
  }

  /** Only the digits of the stored bank code are sent. */
  function BankNumber(s: string): (r: string)
    ensures AllDigits(r)
    ensures forall i :: 0 <= i < |s| && IsDigit(s[i]) ==> s[i] in r
    ensures |r| <= |s|
  {
    KeepChars(s, DIGITS)
  }

  /** A bank code of digits only is sent unchanged, so cleaning is
      idempotent. */
  lemma BankNumberOfDigits(s: string)
    requires AllDigits(s)
    ensures BankNumber(s) == s
  {
    KeepDigitsOfDigits(s);
  }

  lemma BankNumberIdempotent(s: string)
    ensures BankNumber(BankNumber(s)) == BankNumber(s)
  {
    BankNumberOfDigits(BankNumber(s));
  }
}
