/** The contract-creation and portability-simulation views
    (contract/views.py): the simulation rules for a portability, the
    negative-margin restriction, the per-client contract limit and the
    in-progress card check, the initial status of a new contract, the
    batch creation of portability proposals, and the back-office KPI sum.
    Amounts are in cents. */
module ContractViews {
  import opened Common
  import opened Codes

  // ---------------------------------------------------------------------
  // Portability simulation rules

  /** A verdict and its message, empty when valid. */
  datatype Verdict = Verdict(valid: bool, message: string)

  const MIN_NEW_INSTALMENT: int := 3500
  const MSG_TOO_SMALL: string := "Nova parcela muito pequena"
  const MSG_GREATER: string := "Nova parcela maior que parcela atual"
  const MSG_EQUAL: string := "Nova parcela igual a parcela atual"
  const MSG_OVER_MARGIN: string := "Nova parcela é maior que a parcela atual mais a margem disponível"
  const MSG_MIN_VALUE: string := "Valor minimo para esse tipo de contrato é"

  /** The instalment checks apply when an instalment was typed (a non-zero
      value) and the margin is a number. */
  predicate InstalmentChecksApply(typedInstallment: Option<int>, marginValue: Option<int>) {
    typedInstallment.Some? && typedInstallment.value != 0 && marginValue.Some?
  }

  /** `validate_simulation_rules`: the new instalment must be at least
      35.00, below the typed one, and, with a negative margin, within the
      typed instalment plus the margin; the final balance must reach the
      product minimum; and, given a client and an instalment count, the
      benefit's instalment-count rule (`installmentsRule`, computed
      elsewhere) decides. */
  function ValidateSimulationRules(totalAmount: int, typedInstallment: Option<int>, marginValue: Option<int>,
                                   finalBalanceDue: int, minValue: int, hasClient: bool,
                                   installmentsNumber: Option<int>, installmentsRule: Verdict): (r: Verdict)
    ensures InstalmentChecksApply(typedInstallment, marginValue) && totalAmount < MIN_NEW_INSTALMENT ==>
      r == Verdict(false, MSG_TOO_SMALL)
    ensures r.valid && InstalmentChecksApply(typedInstallment, marginValue) ==>
      MIN_NEW_INSTALMENT <= totalAmount < typedInstallment.value
      && (marginValue.value < 0 ==> totalAmount <= typedInstallment.value + marginValue.value)
    ensures r.valid ==> finalBalanceDue >= minValue
    ensures !InstalmentChecksApply(typedInstallment, marginValue) && finalBalanceDue < minValue ==>
      r == Verdict(false, MSG_MIN_VALUE)
    ensures r.valid && hasClient && installmentsNumber.Some? && installmentsNumber.value != 0 ==> installmentsRule.valid
    ensures (!hasClient || installmentsNumber.None? || installmentsNumber.value == 0) ==>
      (r.valid <==> (InstalmentChecksApply(typedInstallment, marginValue) ==>
                       MIN_NEW_INSTALMENT <= totalAmount < typedInstallment.value
                       && (marginValue.value < 0 ==> totalAmount <= typedInstallment.value + marginValue.value))
                    && finalBalanceDue >= minValue)
    ensures !r.valid ==> (r.message != ""
                          || (hasClient && installmentsNumber.Some? && installmentsNumber.value != 0 && r == installmentsRule))
  {
    if InstalmentChecksApply(typedInstallment, marginValue) && totalAmount < MIN_NEW_INSTALMENT then
      Verdict(false, MSG_TOO_SMALL)
    else if InstalmentChecksApply(typedInstallment, marginValue) && totalAmount > typedInstallment.value then
      Verdict(false, MSG_GREATER)
    else if InstalmentChecksApply(typedInstallment, marginValue) && totalAmount == typedInstallment.value then
      Verdict(false, MSG_EQUAL)
    else if InstalmentChecksApply(typedInstallment, marginValue) && marginValue.value < 0
            && totalAmount > typedInstallment.value + marginValue.value then
      Verdict(false, MSG_OVER_MARGIN)
    else if finalBalanceDue < minValue then
      Verdict(false, MSG_MIN_VALUE)
    else if hasClient && installmentsNumber.Some? && installmentsNumber.value != 0 then
      installmentsRule
    else
      Verdict(true, "")
  }

  /** A non-negative margin never binds: the verdict is the same as with a
      zero margin. */
  lemma NonNegativeMarginNeverBinds(totalAmount: int, typedInstallment: Option<int>, margin: int,
                                    finalBalanceDue: int, minValue: int, hasClient: bool,
                                    installmentsNumber: Option<int>, installmentsRule: Verdict)
    requires margin >= 0
    ensures ValidateSimulationRules(totalAmount, typedInstallment, Some(margin), finalBalanceDue, minValue,
                                    hasClient, installmentsNumber, installmentsRule)
         == ValidateSimulationRules(totalAmount, typedInstallment, Some(0), finalBalanceDue, minValue,
                                    hasClient, installmentsNumber, installmentsRule)
  {
  }

  /** Lowering a new instalment that passes the rules keeps it passing as
      long as it stays at or above the minimum. */
  lemma LowerInstalmentStillPasses(t1: int, t2: int, typedInstallment: Option<int>, marginValue: Option<int>,
                                   finalBalanceDue: int, minValue: int, hasClient: bool,
                                   installmentsNumber: Option<int>, installmentsRule: Verdict)
    requires MIN_NEW_INSTALMENT <= t2 <= t1
    requires ValidateSimulationRules(t1, typedInstallment, marginValue, finalBalanceDue, minValue,
                                     hasClient, installmentsNumber, installmentsRule).valid
    ensures ValidateSimulationRules(t2, typedInstallment, marginValue, finalBalanceDue, minValue,
                                    hasClient, installmentsNumber, installmentsRule).valid
  {
  }

  // ---------------------------------------------------------------------
  // Negative margin

  const ERR_NEGATIVE_MARGIN: string := "Você só pode realizar um contrato com a margem negativa"

  /** `__validate_negative_margin`: with a negative IN100 margin, at most
      one contract may be created. */
  function ValidateNegativeMargin(in100Margin: Option<int>, contractsNumber: int): (r: Result<()>)
    ensures r.Err? <==> in100Margin.Some? && in100Margin.value < 0 && contractsNumber > 1
    ensures r.Err? ==> r.message == ERR_NEGATIVE_MARGIN
  {
    if in100Margin.Some? && in100Margin.value < 0 && contractsNumber > 1 then Err(ERR_NEGATIVE_MARGIN)
    else Ok(())
  }

  /** A batch accepted under a margin is accepted with fewer contracts, and
      a single contract is always accepted. */
  lemma NegativeMarginAntitone(in100Margin: Option<int>, m: int, n: int)
    requires m <= n && ValidateNegativeMargin(in100Margin, n).Ok?
    ensures ValidateNegativeMargin(in100Margin, m).Ok?
    ensures ValidateNegativeMargin(in100Margin, 1).Ok?
  {
  }

  // ---------------------------------------------------------------------
  // Creating a contract

  const CARD_PRODUCTS: set<int> := {PRODUTO_CARTAO_BENEFICIO, PRODUTO_CARTAO_BENEFICIO_REPRESENTANTE, PRODUTO_CARTAO_CONSIGNADO}

  /** The card statuses of a refused proposal: a contract in any other
      status is still in progress. */
  const REFUSED_CARD_STATUSES: set<int> := {
    REPROVADA_MESA_CORBAN, REPROVADA_FINALIZADA, REPROVADA_MESA_FORMALIZACAO, RECUSADA_AVERBACAO,
    REPROVADA_REVISAO_MESA_DE_FORMALIZACAO, REPROVADO_CONSULTA_DATAPREV, ERRO_CONSULTA_DATAPREV,
    REPROVADA_MESA_DE_AVERBECAO, REPROVADO}

  /** An existing contract of the client: its product, and for card
      contracts the card client record (absent when it does not exist) and
      the card status. */
  datatype ExistingContract = ExistingContract(tipoProduto: int, cardClient: Option<CardClient>, cardStatus: int)
  datatype CardClient = CardClient(numeroMatricula: string, tipoProduto: int, tipoMargem: int)

  /** The request for the same registration, product and margin type
      collides with an existing card contract in progress. */
  predicate InProgressFor(c: ExistingContract, tipoProduto: int, matricula: string, tipoMargem: int) {
    c.tipoProduto in CARD_PRODUCTS && c.cardClient.Some?
    && c.cardClient.value.numeroMatricula == matricula && c.cardClient.value.tipoProduto == tipoProduto
    && c.cardClient.value.tipoMargem == tipoMargem
    && c.cardStatus !in REFUSED_CARD_STATUSES
  }

  /** The loop over the client's contracts: the first one in progress for
      the request stops it. */
  function HasCardInProgress(existing: seq<ExistingContract>, tipoProduto: int, matricula: string, tipoMargem: int)
    : (r: bool)
    ensures r <==> exists i :: 0 <= i < |existing| && InProgressFor(existing[i], tipoProduto, matricula, tipoMargem)
    decreases |existing|
  {
    if |existing| == 0 then false
    else
      assert forall i :: 1 <= i < |existing| ==> existing[i] == existing[1..][i - 1];
      InProgressFor(existing[0], tipoProduto, matricula, tipoMargem)
      || HasCardInProgress(existing[1..], tipoProduto, matricula, tipoMargem)
  }

  /** The contract limit: a token the client already holds is renewed,
      otherwise the client must hold fewer contracts than the maximum. An
      empty token counts as none. */
  function WithinContractLimit(token: Option<string>, tokens: seq<string>, maximum: int): (r: bool)
    ensures token.Some? && token.value != "" && token.value in tokens ==> r
    ensures |tokens| < maximum ==> r
    ensures r ==> (token.Some? && token.value in tokens) || |tokens| < maximum
  {
    var renewing := token.Some? && token.value != "" && token.value in tokens;
    if renewing then true else |tokens| < maximum
  }

  /** A client at the maximum can only renew: a new token is refused. */
  lemma AtMaximumOnlyRenews(token: string, tokens: seq<string>, maximum: int)
    requires |tokens| >= maximum && token !in tokens
    ensures !WithinContractLimit(Some(token), tokens, maximum)
    ensures !WithinContractLimit(None, tokens, maximum)
  {
  }

  /** `_set_status_contrato`: the card products start their history at the
      client's formalization, the INSS products at the link sending; other
      products get no initial history entry. */
  function InitialStatus(tipoProduto: int): (r: Option<int>)
    ensures tipoProduto in CARD_PRODUCTS ==> r == Some(FORMALIZACAO_CLIENTE)
    ensures tipoProduto in {PRODUTO_INSS, PRODUTO_INSS_CORBAN, PRODUTO_INSS_REPRESENTANTE_LEGAL} ==>
      r == Some(AGUARDA_ENVIO_LINK)
    ensures r.None? <==>
      tipoProduto !in CARD_PRODUCTS && tipoProduto !in {PRODUTO_INSS, PRODUTO_INSS_CORBAN, PRODUTO_INSS_REPRESENTANTE_LEGAL}
  {
    if tipoProduto in CARD_PRODUCTS then Some(FORMALIZACAO_CLIENTE)
    else if tipoProduto == PRODUTO_INSS || tipoProduto == PRODUTO_INSS_CORBAN
            || tipoProduto == PRODUTO_INSS_REPRESENTANTE_LEGAL then Some(AGUARDA_ENVIO_LINK)
    else None
  }

  /** A created contract: its history entry and its contract status. */
  datatype Created = Created(historyStatus: Option<int>, contratoStatus: int)

  const ERR_CARD_IN_PROGRESS: string :=
    "Cliente possui um contrato em andamento para esse produto com a mesma matricula/benefício"
  const ERR_CONTRACT_LIMIT: string := "O CPF cadastrado alcançou o número máximo de contratos ativos."

  /** `_criar_contrato`: a card request colliding with a card contract in
      progress is refused; then the contract limit; a created contract is in
      DIGITACAO with its product's initial history. */
  function CriarContrato(tipoProduto: int, matricula: string, tipoMargem: int, existing: seq<ExistingContract>,
                         token: Option<string>, tokens: seq<string>, maximum: int): (r: Result<Created>)
    ensures tipoProduto in CARD_PRODUCTS && HasCardInProgress(existing, tipoProduto, matricula, tipoMargem) ==>
      r == Err(ERR_CARD_IN_PROGRESS)
    ensures r.Ok? <==>
      (tipoProduto !in CARD_PRODUCTS || !HasCardInProgress(existing, tipoProduto, matricula, tipoMargem))
      && WithinContractLimit(token, tokens, maximum)
    ensures r.Ok? ==> r.value.contratoStatus == CONTRATO_DIGITACAO && r.value.historyStatus == InitialStatus(tipoProduto)
  {
    if tipoProduto in CARD_PRODUCTS && HasCardInProgress(existing, tipoProduto, matricula, tipoMargem) then
      Err(ERR_CARD_IN_PROGRESS)
    else if !WithinContractLimit(token, tokens, maximum) then
      Err(ERR_CONTRACT_LIMIT)
    else
      Ok(Created(InitialStatus(tipoProduto), CONTRATO_DIGITACAO))
  }

  /** A refused card contract never blocks a new request for the same
      registration. */
  lemma RefusedCardDoesNotBlock(tipoProduto: int, matricula: string, tipoMargem: int, status: int)
    requires status in REFUSED_CARD_STATUSES
    ensures !HasCardInProgress([ExistingContract(tipoProduto, Some(CardClient(matricula, tipoProduto, tipoMargem)), status)],
                               tipoProduto, matricula, tipoMargem)
  {
  }

  // ---------------------------------------------------------------------
  // Portability batches

  const ERR_NO_DATA: string := "Nenhum dado foi enviado."
  const ERR_NO_BACKOFFICE: string := "Parâmetros de back office para o produto não encontrados."
  const ERR_NEGATIVE_CHANGE: string := "Não é possível realizar um refinanciamento com troco negativo."
  const ERR_GENERIC: string := "Confira os parametros do sistema e tente novamente."

  /** The main-proposal flags of a batch: the loop sets the flag for the
      first proposal and clears it after each. */
  function MainFlags(n: nat): (r: seq<bool>)
    ensures |r| == n
    ensures forall k :: 0 <= k < n ==> (r[k] <==> k == 0)
  {
    seq(n, k => k == 0)
  }

  function CountTrue(s: seq<bool>): (r: nat)
    ensures r <= |s|
  {
    if |s| == 0 then 0 else (if s[0] then 1 else 0) + CountTrue(s[1..])
  }

  /** Every non-empty batch has exactly one main proposal. */
  lemma {:induction false} OneMainProposal(n: nat)
    ensures CountTrue(MainFlags(n)) == (if n == 0 then 0 else 1)
  {
    if n > 0 {
      var f := MainFlags(n);
      NoneTrue(f[1..]);
    }
  }

  lemma {:induction false} NoneTrue(s: seq<bool>)
    requires forall k :: 0 <= k < |s| ==> !s[k]
    ensures CountTrue(s) == 0
    decreases |s|
  {
    if |s| > 0 {
      NoneTrue(s[1..]);
    }
  }

  predicate AnyNegative(trocos: seq<int>) {
    exists k :: 0 <= k < |trocos| && trocos[k] < 0
  }

  /** `_create_port_refin`: no data, no back-office parameters and a
      proposal with negative change are refused in that order; otherwise
      one proposal per entry, the first being the main one. */
  function CreatePortRefin(hasData: bool, hasBackofficeParams: bool, trocos: seq<int>): (r: Result<seq<bool>>)
    ensures !hasData ==> r == Err(ERR_NO_DATA)
    ensures hasData && !hasBackofficeParams ==> r == Err(ERR_NO_BACKOFFICE)
    ensures r.Ok? <==> hasData && hasBackofficeParams && !AnyNegative(trocos)
    ensures hasData && hasBackofficeParams && AnyNegative(trocos) ==> r == Err(ERR_NEGATIVE_CHANGE)
    ensures r.Ok? ==> r.value == MainFlags(|trocos|)
  {
    if !hasData then Err(ERR_NO_DATA)
    else if !hasBackofficeParams then Err(ERR_NO_BACKOFFICE)
    else if AnyNegative(trocos) then Err(ERR_NEGATIVE_CHANGE)
    else Ok(MainFlags(|trocos|))
  }

  /** `_create_port`: no data and no back-office parameters are refused;
      the negative-margin refusal is raised inside the guarded block and
      answered with the generic error; otherwise one proposal per entry,
      the first being the main one. */
  function CreatePort(hasData: bool, hasBackofficeParams: bool, in100Margin: Option<int>, proposals: nat)
    : (r: Result<seq<bool>>)
    ensures r.Ok? <==> hasData && hasBackofficeParams && ValidateNegativeMargin(in100Margin, proposals).Ok?
    ensures hasData && hasBackofficeParams && ValidateNegativeMargin(in100Margin, proposals).Err? ==>
      r == Err(ERR_GENERIC)
    ensures r.Ok? ==> r.value == MainFlags(proposals)
  {
    if !hasData then Err(ERR_NO_DATA)
    else if !hasBackofficeParams then Err(ERR_NO_BACKOFFICE)
    else if ValidateNegativeMargin(in100Margin, proposals).Err? then Err(ERR_GENERIC)
    else Ok(MainFlags(proposals))
  }

  // ---------------------------------------------------------------------
  // KPI

  /** What the KPI sum reads of a contract. */
  datatype KpiContract = KpiContract(
    tipoProduto: int, saldoDevedorAtualizado: Option<int>, saldoDevedor: Option<int>,
    valorTotal: Option<int>, vrContrato: Option<int>)

  /** The amount a contract adds to the KPI. */
  function KpiValue(c: KpiContract): (r: int)
    ensures c.tipoProduto == PRODUTO_PORTABILIDADE && c.saldoDevedorAtualizado.Some? ==> r == c.saldoDevedorAtualizado.value
    ensures c.tipoProduto == PRODUTO_PORTABILIDADE && c.saldoDevedorAtualizado.None? ==> r == c.saldoDevedor.GetOr(0)
    ensures c.tipoProduto == PRODUTO_PORTABILIDADE_REFINANCIAMENTO ==> r == c.valorTotal.GetOr(0)
    ensures c.tipoProduto == PRODUTO_MARGEM_LIVRE ==> r == c.vrContrato.GetOr(0)
    ensures c.tipoProduto !in {PRODUTO_PORTABILIDADE, PRODUTO_PORTABILIDADE_REFINANCIAMENTO, PRODUTO_MARGEM_LIVRE} ==> r == 0
  {
    if c.tipoProduto == PRODUTO_PORTABILIDADE then
      (if c.saldoDevedorAtualizado.Some? then c.saldoDevedorAtualizado.value else c.saldoDevedor.GetOr(0))
    else if c.tipoProduto == PRODUTO_PORTABILIDADE_REFINANCIAMENTO then c.valorTotal.GetOr(0)
    else if c.tipoProduto == PRODUTO_MARGEM_LIVRE then c.vrContrato.GetOr(0)
    else 0
  }

  /** `sum_contracts`: the sum of the contracts' amounts, zero for none. */
  function SumContracts(contracts: seq<KpiContract>): (r: int)
    decreases |contracts|
  {
    if |contracts| == 0 then 0 else KpiValue(contracts[0]) + SumContracts(contracts[1..])
  }

  /** The sum splits over a concatenation: the KPI of two result pages adds
      up. */
  lemma {:induction false} SumContractsAppend(a: seq<KpiContract>, b: seq<KpiContract>)
    ensures SumContracts(a + b) == SumContracts(a) + SumContracts(b)
    decreases |a|
  {
    if |a| > 0 {
      assert (a + b)[1..] == a[1..] + b;
      SumContractsAppend(a[1..], b);
    } else {
      assert a + b == b;
    }
  }

  /** Contracts of other products add nothing. */
  lemma {:induction false} SumIgnoresOtherProducts(contracts: seq<KpiContract>)
    requires forall k :: 0 <= k < |contracts| ==>
      contracts[k].tipoProduto !in {PRODUTO_PORTABILIDADE, PRODUTO_PORTABILIDADE_REFINANCIAMENTO, PRODUTO_MARGEM_LIVRE}
    ensures SumContracts(contracts) == 0
    decreases |contracts|
  {
    if |contracts| > 0 {
      SumIgnoresOtherProducts(contracts[1..]);
    }
  }

  /** With no negative amounts stored, the sum bounds each contract's
      amount. */
  lemma {:induction false} SumBoundsEach(contracts: seq<KpiContract>, k: int)
    requires 0 <= k < |contracts|
    requires forall j :: 0 <= j < |contracts| ==> KpiValue(contracts[j]) >= 0
    ensures 0 <= KpiValue(contracts[k]) <= SumContracts(contracts)
    decreases |contracts|
  {
    SumNonNegative(contracts[1..]);
    if k > 0 {
      SumBoundsEach(contracts[1..], k - 1);
    }
  }

  lemma {:induction false} SumNonNegative(contracts: seq<KpiContract>)
    requires forall j :: 0 <= j < |contracts| ==> KpiValue(contracts[j]) >= 0
    ensures SumContracts(contracts) >= 0
    decreases |contracts|
  {
    if |contracts| > 0 {
      SumNonNegative(contracts[1..]);
    }
  }
}
