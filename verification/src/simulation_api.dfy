/** The free-margin simulation API (simulacao/api/views.py): the rate
    chosen for each term, the rate filter reported back, the request body
    per term, the last due date of each simulated option, the filtering of
    the financial institution's answer, and the benefit checks on the
    options offered. Rates and amounts are integers in their smallest
    decimal unit; the rate table, the parameters and the institution's
    answer are inputs. */
module SimulationApi {
  import opened Common
  import BenefitRules

  // ---------------------------------------------------------------------
  // Rate per term

  /** An active, in-force commission-rate row: contract type, term and
      maximum effective rate. */
  datatype RateRow = RateRow(tipoContrato: int, prazo: int, tx: int)

  /** `obter_taxa`'s rounding: the term up to the next multiple of twelve,
      unchanged when it is one already. */
  function RoundTermUp(prazo: int): (r: int)
    ensures r % 12 == 0
    ensures prazo <= r < prazo + 12
    ensures r == prazo <==> prazo % 12 == 0
  {
    var resto := prazo % 12;
    if resto == 0 then prazo else prazo - resto + 12
  }

  /** The greatest value of a list, absent for the empty list. */
  function MaxOf(s: seq<int>): (r: Option<int>)
    ensures r.None? <==> |s| == 0
    ensures r.Some? ==> r.value in s && forall i :: 0 <= i < |s| ==> s[i] <= r.value
  {
    if |s| == 0 then None
    else
      var rest := MaxOf(s[1..]);
      assert forall i :: 1 <= i < |s| ==> s[i] == s[1..][i - 1];
      if rest.None? || s[0] >= rest.value then Some(s[0]) else rest
  }

  /** The rows the query as written selects: every row of the contract
      type, and the rows of type 1 for the rounded term. */
  predicate SelectedAsWritten(row: RateRow, prazo: int, tipoContrato: int)
    ensures Selected(row, prazo, tipoContrato) && row.tipoContrato == tipoContrato ==>
      SelectedAsWritten(row, prazo, tipoContrato)
    ensures Selected(row, prazo, tipoContrato) && row.tipoContrato == 1 ==> SelectedAsWritten(row, prazo, tipoContrato)
    ensures tipoContrato != 1 && SelectedAsWritten(row, prazo, tipoContrato) && row.prazo == RoundTermUp(prazo) ==>
      Selected(row, prazo, tipoContrato)
  {
    row.tipoContrato == tipoContrato || (row.prazo == RoundTermUp(prazo) && row.tipoContrato == 1)
  }

  function RatesAsWritten(rows: seq<RateRow>, prazo: int, tipoContrato: int): (r: seq<int>)
    ensures forall i :: 0 <= i < |rows| && SelectedAsWritten(rows[i], prazo, tipoContrato) ==> rows[i].tx in r
    ensures forall x :: x in r ==>
      exists i :: 0 <= i < |rows| && SelectedAsWritten(rows[i], prazo, tipoContrato) && rows[i].tx == x
    decreases |rows|
  {
    if |rows| == 0 then []
    else
      var rest := RatesAsWritten(rows[1..], prazo, tipoContrato);
      assert forall i :: 1 <= i < |rows| ==> rows[i] == rows[1..][i - 1];
      (if SelectedAsWritten(rows[0], prazo, tipoContrato) then [rows[0].tx] else []) + rest
  }

  /** `obter_taxa` as written: the highest selected rate. */
  function ObterTaxaAsWritten(rows: seq<RateRow>, prazo: int, tipoContrato: int): (r: Option<int>)
    ensures r.None? <==> forall i :: 0 <= i < |rows| ==> !SelectedAsWritten(rows[i], prazo, tipoContrato)
    ensures r.Some? ==>
      exists i :: 0 <= i < |rows| && SelectedAsWritten(rows[i], prazo, tipoContrato) && rows[i].tx == r.value
    ensures r.Some? ==>
      forall i :: 0 <= i < |rows| && SelectedAsWritten(rows[i], prazo, tipoContrato) ==> rows[i].tx <= r.value
  {
    var rates := RatesAsWritten(rows, prazo, tipoContrato);
    var r := MaxOf(rates);
    if r.None? then
      r
    else
      forall i | 0 <= i < |rows| && SelectedAsWritten(rows[i], prazo, tipoContrato) ensures rows[i].tx <= r.value {
        assert rows[i].tx in rates;
      }
      r
  }

  /** For contract type 1 the term plays no part: the first condition
      already takes every row of the type. */
  lemma {:induction false} ObterTaxaAsWrittenIgnoresTerm(rows: seq<RateRow>, p1: int, p2: int)
    ensures ObterTaxaAsWritten(rows, p1, 1) == ObterTaxaAsWritten(rows, p2, 1)
  {
    RatesAsWrittenTypeOne(rows, p1, p2);
  }

  lemma {:induction false} RatesAsWrittenTypeOne(rows: seq<RateRow>, p1: int, p2: int)
    ensures RatesAsWritten(rows, p1, 1) == RatesAsWritten(rows, p2, 1)
    decreases |rows|
  {
    if |rows| > 0 {
      RatesAsWrittenTypeOne(rows[1..], p1, p2);
    }
  }

  /** The rows of the rounded term, of the contract type or of the default
      type 1. */
  predicate Selected(row: RateRow, prazo: int, tipoContrato: int) {
    row.prazo == RoundTermUp(prazo) && (row.tipoContrato == tipoContrato || row.tipoContrato == 1)
  }

  function Rates(rows: seq<RateRow>, prazo: int, tipoContrato: int): (r: seq<int>)
    ensures forall i :: 0 <= i < |rows| && Selected(rows[i], prazo, tipoContrato) ==> rows[i].tx in r
    ensures forall x :: x in r ==> exists i :: 0 <= i < |rows| && Selected(rows[i], prazo, tipoContrato) && rows[i].tx == x
    decreases |rows|
  {
    if |rows| == 0 then []
    else
      var rest := Rates(rows[1..], prazo, tipoContrato);
      assert forall i :: 1 <= i < |rows| ==> rows[i] == rows[1..][i - 1];
      (if Selected(rows[0], prazo, tipoContrato) then [rows[0].tx] else []) + rest
  }

  /** The rate of a term: the highest rate among the rows of its rounded
      term. */
  function ObterTaxa(rows: seq<RateRow>, prazo: int, tipoContrato: int): (r: Option<int>)
    ensures r.None? <==> forall i :: 0 <= i < |rows| ==> !Selected(rows[i], prazo, tipoContrato)
    ensures r.Some? ==> exists i :: 0 <= i < |rows| && Selected(rows[i], prazo, tipoContrato) && rows[i].tx == r.value
    ensures r.Some? ==> forall i :: 0 <= i < |rows| && Selected(rows[i], prazo, tipoContrato) ==> rows[i].tx <= r.value
  {
    var rates := Rates(rows, prazo, tipoContrato);
    var r := MaxOf(rates);
    if r.None? then
      r
    else
      forall i | 0 <= i < |rows| && Selected(rows[i], prazo, tipoContrato) ensures rows[i].tx <= r.value {
        assert rows[i].tx in rates;
      }
      r
  }

  /** Terms with the same rounded term get the same rate. */
  lemma ObterTaxaByRoundedTerm(rows: seq<RateRow>, p1: int, p2: int, tipoContrato: int)
    requires RoundTermUp(p1) == RoundTermUp(p2)
    ensures ObterTaxa(rows, p1, tipoContrato) == ObterTaxa(rows, p2, tipoContrato)
  {
    assert Rates(rows, p1, tipoContrato) == Rates(rows, p2, tipoContrato) by {
      RatesSameSelection(rows, p1, p2, tipoContrato);
    }
  }

  lemma {:induction false} RatesSameSelection(rows: seq<RateRow>, p1: int, p2: int, tipoContrato: int)
    requires RoundTermUp(p1) == RoundTermUp(p2)
    ensures Rates(rows, p1, tipoContrato) == Rates(rows, p2, tipoContrato)
    decreases |rows|
  {
    if |rows| > 0 {
      RatesSameSelection(rows[1..], p1, p2, tipoContrato);
    }
  }

  /** A long-term rate of type 1 is charged on a twelve-month term by the
      query as written. */
  lemma ObterTaxaAsWrittenTakesOtherTerm()
    ensures ObterTaxaAsWritten([RateRow(1, 84, 300), RateRow(1, 12, 180)], 12, 1) == Some(300)
    ensures ObterTaxa([RateRow(1, 84, 300), RateRow(1, 12, 180)], 12, 1) == Some(180)
  {
    var rows := [RateRow(1, 84, 300), RateRow(1, 12, 180)];
    assert rows[1..] == [RateRow(1, 12, 180)];
    assert rows[1..][1..] == [];
    assert RoundTermUp(12) == 12;
    assert RatesAsWritten(rows, 12, 1) == [300, 180];
    assert Rates(rows, 12, 1) == [180];
  }

  // ---------------------------------------------------------------------
  // Rates chosen in `simular_contrato`

  /** The rates chosen for the options' terms and the filter rate. */
  datatype ChosenRates = ChosenRates(taxas: seq<int>, filtro: int)

  const ERR_NO_RATE: string := "Não foi possível as taxas para realizar a simulação."
  const ERR_NO_BODY: string := "Não foi possível montar o corpo da requisição para comunicação com a financeira."
  const ERR_NO_OPTIONS: string := "Não foi possível opções de contrato."

  /** The rate of one term: the given rate unless it is zero or absent,
      then the table's. */
  function RateForTerm(rows: seq<RateRow>, prazo: int, tipoContrato: int, vrTaxa: Option<int>): (r: Option<int>)
    ensures vrTaxa.Some? && vrTaxa.value != 0 ==> r == vrTaxa
    ensures r.None? <==>
      (vrTaxa.None? || vrTaxa.value == 0) && forall i :: 0 <= i < |rows| ==> !Selected(rows[i], prazo, tipoContrato)
    ensures r.Some? && (vrTaxa.None? || vrTaxa.value == 0) ==>
      (exists i :: 0 <= i < |rows| && Selected(rows[i], prazo, tipoContrato) && rows[i].tx == r.value)
      && forall i :: 0 <= i < |rows| && Selected(rows[i], prazo, tipoContrato) ==> rows[i].tx <= r.value
  {
    if vrTaxa.None? || vrTaxa.value == 0 then ObterTaxa(rows, prazo, tipoContrato) else vrTaxa
  }

  predicate Usable(rate: Option<int>) { rate.Some? && rate.value != 0 }

  /** The positive terms, in order. */
  function PositiveTerms(prazos: seq<int>): (r: seq<int>)
    ensures forall x :: x in r <==> x in prazos && x > 0
    decreases |prazos|
  {
    if |prazos| == 0 then []
    else
      var rest := PositiveTerms(prazos[1..]);
      assert forall x :: x in prazos <==> x == prazos[0] || x in prazos[1..];
      (if prazos[0] > 0 then [prazos[0]] else []) + rest
  }

  /** Every positive term gets a usable rate. */
  predicate AllUsable(rows: seq<RateRow>, tipoContrato: int, vrTaxa: Option<int>, prazos: seq<int>) {
    forall i :: 0 <= i < |prazos| && prazos[i] > 0 ==> Usable(RateForTerm(rows, prazos[i], tipoContrato, vrTaxa))
  }

  /** The loop over the options: every positive term needs a usable rate,
      and the rates are listed in the order of the terms. */
  function ChooseRates(rows: seq<RateRow>, tipoContrato: int, vrTaxa: Option<int>, prazos: seq<int>)
    : (r: Result<seq<int>>)
    ensures r.Ok? <==> AllUsable(rows, tipoContrato, vrTaxa, prazos)
    ensures r.Err? ==> r.message == ERR_NO_RATE
    ensures r.Ok? ==> |r.value| == |PositiveTerms(prazos)|
    ensures r.Ok? ==> forall k :: 0 <= k < |r.value| ==>
      Some(r.value[k]) == RateForTerm(rows, PositiveTerms(prazos)[k], tipoContrato, vrTaxa)
    decreases |prazos|
  {
    if |prazos| == 0 then Ok([])
    else
      var rest := ChooseRates(rows, tipoContrato, vrTaxa, prazos[1..]);
      AllUsableStep(rows, tipoContrato, vrTaxa, prazos);
      if prazos[0] <= 0 then
        assert PositiveTerms(prazos) == PositiveTerms(prazos[1..]);
        rest
      else
        var taxa := RateForTerm(rows, prazos[0], tipoContrato, vrTaxa);
        if !Usable(taxa) then Err(ERR_NO_RATE)
        else if rest.Err? then rest
        else
          assert PositiveTerms(prazos) == [prazos[0]] + PositiveTerms(prazos[1..]);
          AlignedCons(t => RateForTerm(rows, t, tipoContrato, vrTaxa), prazos[0], PositiveTerms(prazos[1..]),
                      taxa.value, rest.value);
          Ok([taxa.value] + rest.value)
  }

  /** Values listed term by term stay aligned when a term and its value
      are put in front. */
  lemma AlignedCons(f: int -> Option<int>, t: int, ts: seq<int>, x: int, xs: seq<int>)
    requires Some(x) == f(t)
    requires |xs| == |ts| && forall k :: 0 <= k < |xs| ==> Some(xs[k]) == f(ts[k])
    ensures forall k :: 0 <= k < |xs| + 1 ==> Some(([x] + xs)[k]) == f(([t] + ts)[k])
  {
    forall k | 0 <= k < |xs| + 1 ensures Some(([x] + xs)[k]) == f(([t] + ts)[k]) {
      if k > 0 {
        assert ([x] + xs)[k] == xs[k - 1] && ([t] + ts)[k] == ts[k - 1];
      }
    }
  }

  /** A list of terms is all usable exactly when its head is (or is not
      positive) and its tail is. */
  lemma AllUsableStep(rows: seq<RateRow>, tipoContrato: int, vrTaxa: Option<int>, prazos: seq<int>)
    requires |prazos| > 0
    ensures AllUsable(rows, tipoContrato, vrTaxa, prazos) <==>
      (prazos[0] <= 0 || Usable(RateForTerm(rows, prazos[0], tipoContrato, vrTaxa)))
      && AllUsable(rows, tipoContrato, vrTaxa, prazos[1..])
  {
    assert forall i :: 1 <= i < |prazos| ==> prazos[i] == prazos[1..][i - 1];
  }

  /** The filter rate: the largest chosen rate, starting from zero. */
  function FilterRate(taxas: seq<int>): (r: int)
    ensures r >= 0 && forall k :: 0 <= k < |taxas| ==> taxas[k] <= r
    ensures r == 0 || r in taxas
  {
    var m := MaxOf(taxas);
    if m.None? || m.value < 0 then 0 else m.value
  }

  /** The part of `simular_contrato` before the call to the institution:
      there must be options, a usable rate for every positive term, and at
      least one positive term to build a request for. */
  function SimularContratoRates(rows: seq<RateRow>, tipoContrato: int, vrTaxa: Option<int>, prazos: seq<int>)
    : (r: Result<ChosenRates>)
    ensures |prazos| == 0 ==> r == Err(ERR_NO_OPTIONS)
    ensures |prazos| > 0 && !AllUsable(rows, tipoContrato, vrTaxa, prazos) ==> r == Err(ERR_NO_RATE)
    ensures r.Ok? <==> |prazos| > 0 && AllUsable(rows, tipoContrato, vrTaxa, prazos) && exists i :: 0 <= i < |prazos| && prazos[i] > 0
    ensures r.Ok? ==> r.value.taxas == ChooseRates(rows, tipoContrato, vrTaxa, prazos).value
    ensures r.Ok? ==> r.value.filtro == FilterRate(r.value.taxas)
    ensures r.Err? && r.message == ERR_NO_BODY ==> forall i :: 0 <= i < |prazos| ==> prazos[i] <= 0
  {
    if |prazos| == 0 then Err(ERR_NO_OPTIONS)
    else
      var taxas :- ChooseRates(rows, tipoContrato, vrTaxa, prazos);
      var p := PositiveTerms(prazos);
      if |taxas| == 0 then
        assert forall i :: 0 <= i < |prazos| ==> (prazos[i] > 0 ==> prazos[i] in p);
        Err(ERR_NO_BODY)
      else
        assert p[0] in p;
        Ok(ChosenRates(taxas, FilterRate(taxas)))
  }

  /** A rate given by the caller is used for every term, and is then the
      filter rate when positive. */
  lemma GivenRateIsFilter(rows: seq<RateRow>, tipoContrato: int, taxa: int, prazos: seq<int>)
    requires taxa > 0
    requires SimularContratoRates(rows, tipoContrato, Some(taxa), prazos).Ok?
    ensures SimularContratoRates(rows, tipoContrato, Some(taxa), prazos).value.filtro == taxa
  {
    var c := SimularContratoRates(rows, tipoContrato, Some(taxa), prazos).value;
    assert c.taxas[0] == taxa;
    assert forall k :: 0 <= k < |c.taxas| ==> c.taxas[k] == taxa;
  }

  // ---------------------------------------------------------------------
  // Request body

  /** The per-term body of the simulation request. */
  datatype SimulationBody = SimulationBody(
    numberOfInstallments: int, installmentFaceValue: int, firstDueDate: Date,
    monthlyInterestRate: int, limitDaysToDisburse: int, disbursementDate: Date)

  /** `definir_body_request_simulacao`: writing the disbursement date fails
      without one, and the failure yields no body. */
  function DefinirBody(qtParcelas: int, vrParcela: int, primeiroVencimento: Date, taxa: int,
                       diasLimite: int, desembolso: Option<Date>): (r: Option<SimulationBody>)
    ensures r.None? <==> desembolso.None?
    ensures r.Some? ==> (r.value.numberOfInstallments == qtParcelas && r.value.monthlyInterestRate == taxa
                         && r.value.firstDueDate == primeiroVencimento && r.value.disbursementDate == desembolso.value)
  {
    match desembolso
    case None => None
    case Some(d) => Some(SimulationBody(qtParcelas, vrParcela, primeiroVencimento, taxa, diasLimite, d))
  }

  // ---------------------------------------------------------------------
  // The institution's answer

  /** One simulated operation of the answer: its instalment count and, when
      it has a disbursement option, the issue amount. */
  datatype AnswerItem = AnswerItem(numberOfInstallments: int, issueAmount: Option<int>)

  /** The filter as written: the condition reads the first item's count for
      every item, so it keeps all items or none. The empty answer raises. */
  function FilterAnswerAsWritten(items: seq<AnswerItem>, prazos: seq<int>): (r: Result<seq<AnswerItem>>)
    ensures r.Err? <==> |items| == 0
    ensures r.Ok? ==> r.value == items || r.value == []
  {
    if |items| == 0 then Err("IndexError: list index out of range")
    else if items[0].numberOfInstallments in prazos then Ok(items)
    else Ok([])
  }

  /** The items whose instalment count is one of the requested terms. */
  function FilterAnswer(items: seq<AnswerItem>, prazos: seq<int>): (r: seq<AnswerItem>)
    ensures forall x :: x in r <==> x in items && x.numberOfInstallments in prazos
    ensures |r| <= |items|
    decreases |items|
  {
    if |items| == 0 then []
    else
      var rest := FilterAnswer(items[1..], prazos);
      assert forall x :: x in items <==> x == items[0] || x in items[1..];
      (if items[0].numberOfInstallments in prazos then [items[0]] else []) + rest
  }

  /** An answer with an unrequested count behind a requested one keeps it
      as written. */
  lemma FilterAnswerAsWrittenKeepsUnrequested()
    ensures var items := [AnswerItem(12, Some(100000)), AnswerItem(7, Some(70000))];
      FilterAnswerAsWritten(items, [12, 24]) == Ok(items)
      && FilterAnswer(items, [12, 24]) == [AnswerItem(12, Some(100000))]
  {
    var items := [AnswerItem(12, Some(100000)), AnswerItem(7, Some(70000))];
    assert items[1..] == [AnswerItem(7, Some(70000))];
    assert items[1..][1..] == [];
  }

  /** The two filters agree when every answered count was requested. */
  lemma {:induction false} FiltersAgreeOnRequestedCounts(items: seq<AnswerItem>, prazos: seq<int>)
    requires |items| > 0
    requires forall i :: 0 <= i < |items| ==> items[i].numberOfInstallments in prazos
    ensures FilterAnswerAsWritten(items, prazos) == Ok(FilterAnswer(items, prazos))
  {
    FilterKeepsAll(items, prazos);
  }

  lemma {:induction false} FilterKeepsAll(items: seq<AnswerItem>, prazos: seq<int>)
    requires forall i :: 0 <= i < |items| ==> items[i].numberOfInstallments in prazos
    ensures FilterAnswer(items, prazos) == items
    decreases |items|
  {
    if |items| > 0 {
      var tail := items[1..];
      assert forall i :: 0 <= i < |tail| ==> tail[i] == items[i + 1];
      FilterKeepsAll(tail, prazos);
      assert items[0].numberOfInstallments in prazos;
      assert FilterAnswer(items, prazos) == [items[0]] + tail;
      assert items == [items[0]] + tail;
    }
  }

  /** The last due date of an option of `n` instalments: the first due
      date moved `n - 1` months. */
  function LastDueDate(primeiroVencimento: Date, n: int): (r: Date)
    requires ValidDate(primeiroVencimento)
    ensures ValidDate(r)
  {
    AddMonths(primeiroVencimento, n - 1)
  }

  /** The last due date lies `n - 1` calendar months after the first, on
      the same day when the month has it; for one instalment it is the
      first due date; and it never precedes the first. */
  lemma LastDueDateSpec(primeiroVencimento: Date, n: int)
    requires ValidDate(primeiroVencimento) && n >= 1
    ensures var r := LastDueDate(primeiroVencimento, n);
      r.year * 12 + r.month == primeiroVencimento.year * 12 + primeiroVencimento.month + n - 1
      && (primeiroVencimento.day <= DaysInMonth(r.year, r.month) ==> r.day == primeiroVencimento.day)
      && !Before(r, primeiroVencimento)
    ensures n == 1 ==> LastDueDate(primeiroVencimento, n) == primeiroVencimento
  {
  }

  /** A contract option built from the answer. */
  datatype SimulatedOption = SimulatedOption(
    qtParcelas: int, primeiroVencimento: Date, ultimoVencimento: Date, dentroFaixaIdade: Option<bool>)

  /** A contract option offered for a term, with its maximum contract value. */
  datatype TermOption = TermOption(prazo: int, vrContratoMax: int)

  function FirstWithTerm(options: seq<TermOption>, prazo: int): (r: Option<TermOption>)
    ensures r.Some? ==> r.value in options && r.value.prazo == prazo
    ensures r.None? ==> forall i :: 0 <= i < |options| ==> options[i].prazo != prazo
    decreases |options|
  {
    if |options| == 0 then None
    else if options[0].prazo == prazo then Some(options[0])
    else FirstWithTerm(options[1..], prazo)
  }

  /** `transpor_dados_financeira`, for one kept item: the due dates and
      whether the issue amount is within the age band's maximum for its
      term (absent when no option has the term, or the item has no issue
      amount). */
  function TransporItem(item: AnswerItem, primeiroVencimento: Date, options: seq<TermOption>): (r: SimulatedOption)
    requires ValidDate(primeiroVencimento)
    ensures r.qtParcelas == item.numberOfInstallments
    ensures r.ultimoVencimento == LastDueDate(primeiroVencimento, item.numberOfInstallments)
    ensures r.dentroFaixaIdade.Some? <==> item.issueAmount.Some? && FirstWithTerm(options, item.numberOfInstallments).Some?
    ensures r.dentroFaixaIdade.Some? ==>
      (r.dentroFaixaIdade.value <==> item.issueAmount.value <= FirstWithTerm(options, item.numberOfInstallments).value.vrContratoMax)
  {
    var byTerm := FirstWithTerm(options, item.numberOfInstallments);
    SimulatedOption(item.numberOfInstallments, primeiroVencimento,
                    LastDueDate(primeiroVencimento, item.numberOfInstallments),
                    if byTerm.Some? && item.issueAmount.Some? then Some(item.issueAmount.value <= byTerm.value.vrContratoMax)
                    else None)
  }

  /** The distinct rates reported with the simulation. */
  function ListaTaxas(taxas: seq<int>): (r: set<int>)
    ensures forall x :: x in r <==> x in taxas
  {
    set x | x in taxas
  }

  // ---------------------------------------------------------------------
  // Benefit checks on the options

  /** What the benefit rules need about the client's benefit. */
  datatype BenefitFacts = BenefitFacts(concession: Option<Date>, species: int, ageAtConcession: int, benefitMonths: int)

  /** A contract option: its instalment count, the amount released to the
      client, and whether the contract ends before the benefit does. */
  datatype ContractOption = ContractOption(qtParcelas: int, vrLiberadoCliente: int, endDateValid: bool)

  predicate PassesBenefitRules(b: BenefitFacts, o: ContractOption) {
    BenefitRules.ValidarRegraMorte(b.concession, b.species, b.ageAtConcession, b.benefitMonths, o.qtParcelas).approved
    && o.endDateValid
  }

  function KeepPassing(b: BenefitFacts, options: seq<ContractOption>): (r: seq<ContractOption>)
    ensures forall x :: x in r <==> x in options && PassesBenefitRules(b, x)
    ensures |r| <= |options|
    decreases |options|
  {
    if |options| == 0 then []
    else
      var rest := KeepPassing(b, options[1..]);
      assert forall x :: x in options <==> x == options[0] || x in options[1..];
      (if PassesBenefitRules(b, options[0]) then [options[0]] else []) + rest
  }

  predicate BelowMinimum(options: seq<ContractOption>, minValue: int) {
    exists i :: 0 <= i < |options| && options[i].vrLiberadoCliente < minValue
  }

  const ERR_MIN_VALUE: string := "Valor minimo para esse tipo de contrato é"
  const ERR_NO_VALID_OPTION: string :=
    "Este cliente não passou na validação das regras benefício por invalidez ou pelo fim do benefício."

  /** `verifica_opcoes_contrato_cliente`: without an IN100 answer the
      options are kept as they are; with one, any option releasing less
      than the minimum raises, and otherwise the options that pass the
      death rule and end before the benefit are kept, at least one. */
  function VerificaOpcoes(in100Returned: bool, b: BenefitFacts, minValue: int, options: seq<ContractOption>)
    : (r: Result<seq<ContractOption>>)
    ensures !in100Returned ==> r == Ok(options)
    ensures in100Returned ==>
      (r.Ok? <==> !BelowMinimum(options, minValue) && exists i :: 0 <= i < |options| && PassesBenefitRules(b, options[i]))
    ensures in100Returned && r.Ok? ==> forall x :: x in r.value <==> x in options && PassesBenefitRules(b, x)
    ensures in100Returned && BelowMinimum(options, minValue) ==> r == Err(ERR_MIN_VALUE)
  {
    if !in100Returned then Ok(options)
    else if BelowMinimum(options, minValue) then Err(ERR_MIN_VALUE)
    else
      var kept := KeepPassing(b, options);
      if |kept| == 0 then
        Err(ERR_NO_VALID_OPTION)
      else
        assert kept[0] in options;
        Ok(kept)
  }

  /** A client whose species is outside the death rule keeps exactly the
      options that end before the benefit. */
  lemma VerificaOutsideDeathRule(b: BenefitFacts, minValue: int, options: seq<ContractOption>)
    requires b.concession.Some? && b.species !in BenefitRules.DEATH_RULE_SPECIES
    requires VerificaOpcoes(true, b, minValue, options).Ok?
    ensures forall x :: x in VerificaOpcoes(true, b, minValue, options).value <==> x in options && x.endDateValid
  {
  }

  /** Without a concession date no option passes the death rule, so a
      client with an IN100 answer is refused. */
  lemma VerificaWithoutConcessionRefuses(b: BenefitFacts, minValue: int, options: seq<ContractOption>)
    requires b.concession.None?
    ensures VerificaOpcoes(true, b, minValue, options).Err?
  {
  }
}
