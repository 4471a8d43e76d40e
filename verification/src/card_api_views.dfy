/** The benefit-card API views (contract/products/cartao_beneficio/api/views.py):
    eligibility for a complementary withdrawal from the card processor's
    answers, the withdrawal limit check (amount already committed, amount
    still available, the fitness flag), the supplementary-withdrawal
    simulation checks, the insured identification of the insurance files
    and the guards of a plan collection. Money is in cents; the processor's
    answers and the stored rows are inputs. */
module CardApiViews {
  import opened Common
  import opened Codes
  import CardSimulation

  // ---------------------------------------------------------------------
  // Processor status codes (StatusAccountDock, StatusCardDock)

  const ACCOUNT_NORMAL: int := 0
  const ACCOUNT_LANCADO: int := 1

  const CARD_NORMAL_DESBLOQUEADO: int := 1
  const CARD_BLOQUEADO_PODE_SER_REVERTIDO: int := 2
  const CARD_CANCELADO_EXTRAVIADO: int := 3
  const CARD_CANCELADO_DANIFICADO: int := 4
  const CARD_CANCELADO_TARJA: int := 5
  const CARD_CANCELADO_EMBOSSING: int := 6

  /** The card states that still allow a complementary withdrawal. */
  predicate CardAllowsWithdrawal(code: int) {
    code in {CARD_NORMAL_DESBLOQUEADO, CARD_BLOQUEADO_PODE_SER_REVERTIDO, CARD_CANCELADO_EXTRAVIADO,
             CARD_CANCELADO_DANIFICADO, CARD_CANCELADO_TARJA, CARD_CANCELADO_EMBOSSING}
  }

  predicate AccountAllowsWithdrawal(code: int) {
    code == ACCOUNT_NORMAL || code == ACCOUNT_LANCADO
  }

  // ---------------------------------------------------------------------
  // Eligibility for a complementary withdrawal

  /** The account query: whether it was made, the account status and the
      withdrawal balance it reports. */
  datatype AccountReply = AccountReply(consultaRealizada: bool, idStatusConta: int, saqueDisponivel: int)

  /** The card query returns the text 'error' or the card status. */
  datatype CardReply = CardQueryError | CardStatus(code: int)

  /** What the eligibility dictionary shows for a status. */
  datatype Shown = NotQueried | Code(code: int) | CardQueryFailed | Blank

  datatype Eligibility = Eligibility(
    accountStatus: Shown, cardStatus: Shown, aprovada: bool, saqueDisponivel: Option<int>)

  /** `elegibilidade_saque_complementar`. */
  function Elegibilidade(account: AccountReply, card: CardReply): (r: Eligibility)
    ensures r.aprovada <==>
      account.consultaRealizada && AccountAllowsWithdrawal(account.idStatusConta)
      && card.CardStatus? && CardAllowsWithdrawal(card.code)
    ensures r.saqueDisponivel.Some? <==> r.aprovada
    ensures r.aprovada ==> r.saqueDisponivel == Some(account.saqueDisponivel)
    ensures !account.consultaRealizada ==> r.accountStatus == NotQueried && r.cardStatus == NotQueried
    ensures account.consultaRealizada ==> r.accountStatus == Code(account.idStatusConta)
  {
    if !account.consultaRealizada then Eligibility(NotQueried, NotQueried, false, None)
    else if !AccountAllowsWithdrawal(account.idStatusConta) then
      Eligibility(Code(account.idStatusConta), Blank, false, None)
    else match card
      case CardQueryError => Eligibility(Code(account.idStatusConta), CardQueryFailed, false, None)
      case CardStatus(c) =>
        if CardAllowsWithdrawal(c) then
          Eligibility(Code(account.idStatusConta), Code(c), true, Some(account.saqueDisponivel))
        else Eligibility(Code(account.idStatusConta), Code(c), false, None)
  }

  // ---------------------------------------------------------------------
  // Amount already committed to withdrawals

  /** The withdrawal row behind a card or complementary-withdrawal contract. */
  datatype WithdrawalRow = WithdrawalRow(status: int, valorSaque: Option<int>)

  /** A contract of the card: its product, its withdrawal row and what the
      card processor answers about it. */
  datatype CardContract = CardContract(tipoProduto: int, row: WithdrawalRow, dock: AccountReply, card: CardReply)

  /** The statuses whose withdrawal still counts against the balance. */
  predicate Committed(status: int) {
    status in {PENDENTE_DOCUMENTACAO, PENDENTE_DOCUMENTACAO_MESA_CORBAN, APROVADA_MESA_CORBAN,
               ANDAMENTO_FORMALIZACAO, FORMALIZACAO_CLIENTE, APROVADA_FINALIZADA,
               ANDAMENTO_LIBERACAO_SAQUE, PENDENTE_CORRECAO_DADOS_BANCARIOS,
               CHECAGEM_MESA_FORMALIZACAO, APROVADA_MESA_FORMALIZACAO, REPROVADA_MESA_FORMALIZACAO,
               CHECAGEM_MESA_CORBAN, ERRO_SOLICITACAO_SAQUE}
  }

  /** The products whose withdrawal row the committed-amount loop fetches. */
  predicate FetchesRow(tipoProduto: int) {
    tipoProduto == PRODUTO_SAQUE_COMPLEMENTAR
    || tipoProduto == PRODUTO_CARTAO_BENEFICIO || tipoProduto == PRODUTO_CARTAO_CONSIGNADO
  }

  /** The running state of the loop: whether a committed contract was
      seen, and the total. */
  datatype Committing = Committing(found: bool, total: int)

  /** The loop as written: the withdrawal row variable is only assigned for
      the three products, so a contract of any other product re-examines
      the row of the contract before it. */
  function CommittedAsWritten(contracts: seq<CardContract>, carry: Option<WithdrawalRow>, acc: Committing)
    : (r: Committing)
    ensures acc.found ==> r.found
    ensures r.found && !acc.found ==> |contracts| > 0
    ensures NonNegativeWithdrawals(contracts, carry) ==> r.total >= acc.total
    decreases |contracts|
  {
    if |contracts| == 0 then acc
    else
      var c := contracts[0];
      assert forall i :: 1 <= i < |contracts| ==> contracts[i] == contracts[1..][i - 1];
      var row := if FetchesRow(c.tipoProduto) then Some(c.row) else carry;
      var next :=
        if row.Some? && Committed(row.value.status) then
          Committing(true, acc.total + row.value.valorSaque.GetOr(0))
        else acc;
      CommittedAsWritten(contracts[1..], row, next)
  }

  /** Whether a contract's own withdrawal row counts. */
  predicate Counts(c: CardContract) {
    FetchesRow(c.tipoProduto) && Committed(c.row.status)
  }

  /** The committed amount: the withdrawal values, None as zero, of the
      card and complementary-withdrawal contracts in a committed status. */
  function CommittedTotal(contracts: seq<CardContract>): (r: Committing)
    ensures r.found <==> exists i :: 0 <= i < |contracts| && Counts(contracts[i])
    ensures (forall i :: 0 <= i < |contracts| ==> contracts[i].row.valorSaque.GetOr(0) >= 0) ==> r.total >= 0
    decreases |contracts|
  {
    if |contracts| == 0 then Committing(false, 0)
    else
      var rest := CommittedTotal(contracts[1..]);
      assert forall i :: 1 <= i < |contracts| ==> contracts[i] == contracts[1..][i - 1];
      if Counts(contracts[0]) then Committing(true, contracts[0].row.valorSaque.GetOr(0) + rest.total)
      else rest
  }

  /** When every contract has a withdrawal row of its own, the loop as
      written computes the committed amount. */
  lemma {:induction false} CommittedAsWrittenAgrees(contracts: seq<CardContract>, carry: Option<WithdrawalRow>, acc: Committing)
    requires forall i :: 0 <= i < |contracts| ==> FetchesRow(contracts[i].tipoProduto)
    ensures CommittedAsWritten(contracts, carry, acc)
      == Committing(acc.found || CommittedTotal(contracts).found, acc.total + CommittedTotal(contracts).total)
    decreases |contracts|
  {
    if |contracts| > 0 {
      var c := contracts[0];
      var next := if Committed(c.row.status) then Committing(true, acc.total + c.row.valorSaque.GetOr(0)) else acc;
      CommittedAsWrittenAgrees(contracts[1..], Some(c.row), next);
    }
  }

  /** A contract of another product after a committed one counts that
      withdrawal a second time. */
  lemma CommittedAsWrittenCountsTwice()
    ensures var committed := CardContract(PRODUTO_SAQUE_COMPLEMENTAR, WithdrawalRow(APROVADA_FINALIZADA, Some(10000)),
                                          AccountReply(false, 0, 0), CardQueryError);
      var other := CardContract(PRODUTO_CARTAO_BENEFICIO_REPRESENTANTE, WithdrawalRow(REPROVADA_FINALIZADA, None),
                                AccountReply(false, 0, 0), CardQueryError);
      CommittedAsWritten([committed, other], None, Committing(false, 0)).total == 20000
      && CommittedTotal([committed, other]).total == 10000
  {
    var committed := CardContract(PRODUTO_SAQUE_COMPLEMENTAR, WithdrawalRow(APROVADA_FINALIZADA, Some(10000)),
                                  AccountReply(false, 0, 0), CardQueryError);
    var other := CardContract(PRODUTO_CARTAO_BENEFICIO_REPRESENTANTE, WithdrawalRow(REPROVADA_FINALIZADA, None),
                              AccountReply(false, 0, 0), CardQueryError);
    assert [committed, other][1..] == [other];
    assert [other][1..] == [];
    var afterFirst := Committing(true, 10000);
    assert CommittedAsWritten([other], Some(committed.row), afterFirst) == Committing(true, 20000);
    assert CommittedTotal([other]) == Committing(false, 0);
  }

  // ---------------------------------------------------------------------
  // Amount still available

  /** The available amount as written: with committed contracts, the
      distance between balance and committed amount, whichever is larger;
      without, the balance; a negative result becomes zero. */
  function AvailableAsWritten(saldo: int, committed: Committing): (r: int)
    ensures r >= 0
    ensures committed.found ==> r == if saldo > committed.total then saldo - committed.total else committed.total - saldo
    ensures !committed.found ==> r == if saldo < 0 then 0 else saldo
  {
    var disponivel :=
      if committed.found then
        (if saldo > committed.total then saldo - committed.total else committed.total - saldo)
      else saldo;
    if disponivel < 0 then 0 else disponivel
  }

  /** Committing more than the balance makes the written formula report
      the excess as available. */
  lemma AvailableAsWrittenGrowsPastBalance()
    ensures AvailableAsWritten(10000, Committing(true, 30000)) == 20000
    ensures Available(10000, Committing(true, 30000)) == 0
  {
  }

  /** The available amount: the balance less what is committed, never
      negative. */
  function Available(saldo: int, committed: Committing): (r: int)
    ensures r >= 0
    ensures saldo >= 0 && committed.total >= 0 ==> r <= saldo
    ensures committed.found && committed.total >= 0 ==> r == if saldo > committed.total then saldo - committed.total else 0
    ensures !committed.found ==> r == if saldo < 0 then 0 else saldo
  {
    var disponivel := if committed.found then saldo - committed.total else saldo;
    if disponivel < 0 then 0 else disponivel
  }

  /** The two agree whenever the balance covers what is committed. */
  lemma AvailableAgreesWhenCovered(saldo: int, committed: Committing)
    requires committed.found ==> saldo >= committed.total
    ensures Available(saldo, committed) == AvailableAsWritten(saldo, committed)
  {
  }

  /** A larger commitment never leaves more available. */
  lemma AvailableAntitone(saldo: int, t1: int, t2: int)
    requires t1 <= t2
    ensures Available(saldo, Committing(true, t2)) <= Available(saldo, Committing(true, t1))
  {
  }

  // ---------------------------------------------------------------------
  // The limit check

  /** Python's `int()` of a value in cents: the whole units, truncated
      toward zero. */
  function WholeUnits(cents: int): (r: int)
    ensures cents >= 0 ==> r * 100 <= cents < r * 100 + 100
    ensures cents < 0 ==> r <= 0
  {
    if cents >= 0 then cents / 100 else -((-cents) / 100)
  }

  /** A card contract is fit for a complementary withdrawal when it is a
      card, not finally reproved, eligible, and has more than fifty whole
      units available. */
  predicate FitContract(c: CardContract) {
    (c.tipoProduto == PRODUTO_CARTAO_BENEFICIO || c.tipoProduto == PRODUTO_CARTAO_BENEFICIO_REPRESENTANTE
     || c.tipoProduto == PRODUTO_CARTAO_CONSIGNADO)
    && c.row.status != REPROVADA_FINALIZADA
    && Elegibilidade(c.dock, c.card).aprovada
    && WholeUnits(Elegibilidade(c.dock, c.card).saqueDisponivel.value) > 50
  }

  /** More than fifty whole units means at least 51.00. */
  lemma FitNeedsFiftyOne(c: CardContract)
    ensures FitContract(c) ==> c.dock.saqueDisponivel >= 5100
    ensures (Elegibilidade(c.dock, c.card).aprovada && c.dock.saqueDisponivel >= 5100
             && c.row.status != REPROVADA_FINALIZADA && c.tipoProduto == PRODUTO_CARTAO_BENEFICIO) ==> FitContract(c)
  {
  }

  datatype LimitReply = LimitReply(
    limiteDisponivelSaque: int, limiteUtilizadoSaque: int, limiteTotalSaque: int,
    valorMaximoSaque: int, limitePreAprovado: int, aptoSaque: bool)

  /** The outcome of the limit check: the withdrawal product switched off,
      or the limits. */
  datatype LimitOutcome = SwitchedOff | Limits(reply: LimitReply)

  /** The processor's limits for the card: global limit, global withdrawal
      limit and withdrawal balance. */
  datatype DockLimits = DockLimits(limiteGlobal: int, limiteSaqueGlobal: int, saldoDisponivelSaque: int)

  /** `ConsultaLimiteSaque.post`: the age rule must be unique, the
      complementary-withdrawal parameter active; then the limits. */
  function ConsultaLimiteSaque(idade: int, rules: seq<CardSimulation.AgeRule>, parametroAtivo: bool,
                               limits: DockLimits, contracts: seq<CardContract>, permiteSaqueComplementar: bool)
    : (r: Result<LimitOutcome>)
    ensures r.Err? <==> CardSimulation.SelectAgeRule(rules, idade).Err?
    ensures r.Ok? ==> (r.value.SwitchedOff? <==> !parametroAtivo)
    ensures r.Ok? && r.value.Limits? ==>
      var q := r.value.reply;
      q.limiteDisponivelSaque == Available(limits.saldoDisponivelSaque, CommittedTotal(contracts))
      && q.limiteDisponivelSaque >= 0
      && q.valorMaximoSaque == q.limiteDisponivelSaque
      && q.limiteUtilizadoSaque + limits.saldoDisponivelSaque == limits.limiteSaqueGlobal
      && q.limiteTotalSaque == limits.limiteSaqueGlobal
      && q.limitePreAprovado == limits.limiteGlobal
      && (q.aptoSaque <==> permiteSaqueComplementar && exists i :: 0 <= i < |contracts| && FitContract(contracts[i]))
  {
    var _ :- CardSimulation.SelectAgeRule(rules, idade);
    if !parametroAtivo then Ok(SwitchedOff)
    else
      var disponivel := Available(limits.saldoDisponivelSaque, CommittedTotal(contracts));
      var apto := AnyFit(contracts) && permiteSaqueComplementar;
      Ok(Limits(LimitReply(disponivel, limits.limiteSaqueGlobal - limits.saldoDisponivelSaque,
                           limits.limiteSaqueGlobal, disponivel, limits.limiteGlobal, apto)))
  }

  function AnyFit(contracts: seq<CardContract>): (r: bool)
    ensures r <==> exists i :: 0 <= i < |contracts| && FitContract(contracts[i])
    decreases |contracts|
  {
    if |contracts| == 0 then false
    else
      assert forall i :: 1 <= i < |contracts| ==> contracts[i] == contracts[1..][i - 1];
      FitContract(contracts[0]) || AnyFit(contracts[1..])
  }

  // ---------------------------------------------------------------------
  // Supplementary-withdrawal simulation

  /** The withdrawal product of the card's convenio. */
  datatype WithdrawalProduct = WithdrawalProduct(permiteSaque: bool, permiteSaqueParcelado: bool, vrMinimoSaque: int)

  /** The statuses that bound a new simulation. */
  predicate BoundsSimulation(status: int) {
    status in {PENDENTE_DOCUMENTACAO, PENDENTE_DOCUMENTACAO_MESA_CORBAN, APROVADA_MESA_CORBAN,
               FORMALIZACAO_CLIENTE, APROVADA_FINALIZADA, ANDAMENTO_LIBERACAO_SAQUE,
               PENDENTE_CORRECAO_DADOS_BANCARIOS}
  }

  predicate SimulationFetchesRow(tipoProduto: int) {
    tipoProduto == PRODUTO_CARTAO_BENEFICIO || tipoProduto == PRODUTO_CARTAO_BENEFICIO_REPRESENTANTE
    || tipoProduto == PRODUTO_CARTAO_CONSIGNADO || tipoProduto == PRODUTO_SAQUE_COMPLEMENTAR
  }

  const ERR_SIMULATION: string := "Ocorreu um erro ao processar a simulação."

  /** The simulation's limit loop as written: the first contract whose row
      is in a bounding status decides, with the distance between balance
      and its withdrawal; when none does, the balance. No contract leaves
      the limit unbound, as does a first contract of another product, and
      a bounding row without a withdrawal value cannot be converted. */
  function SimulationLimitAsWritten(saldo: int, contracts: seq<CardContract>, carry: Option<WithdrawalRow>)
    : (r: Result<int>)
    ensures r.Ok? && saldo >= 0 ==> r.value >= 0
    ensures |contracts| == 0 ==> (r.Ok? <==> carry.Some?)
    decreases |contracts|
  {
    if |contracts| == 0 then (if carry.None? then Err(ERR_SIMULATION) else Ok(saldo))
    else
      var c := contracts[0];
      var row := if SimulationFetchesRow(c.tipoProduto) then Some(c.row) else carry;
      if row.None? then Err(ERR_SIMULATION)
      else if BoundsSimulation(row.value.status) then
        (if row.value.valorSaque.None? then Err(ERR_SIMULATION)
         else var v := row.value.valorSaque.value;
           Ok(if saldo > v then saldo - v else v - saldo))
      else SimulationLimitAsWritten(saldo, contracts[1..], row)
  }

  /** No withdrawal value in the rows, nor in the row carried along, is
      negative. */
  predicate NonNegativeWithdrawals(contracts: seq<CardContract>, carry: Option<WithdrawalRow>) {
    (carry.Some? ==> carry.value.valorSaque.GetOr(0) >= 0)
    && forall i :: 0 <= i < |contracts| ==> contracts[i].row.valorSaque.GetOr(0) >= 0
  }

  /** The same loop with the balance less the withdrawal, never negative. */
  function SimulationLimit(saldo: int, contracts: seq<CardContract>, carry: Option<WithdrawalRow>)
    : (r: Result<int>)
    ensures r.Ok? && saldo >= 0 ==> r.value >= 0
    ensures r.Ok? && saldo >= 0 && NonNegativeWithdrawals(contracts, carry) ==> r.value <= saldo
    ensures r.Err? <==> SimulationLimitAsWritten(saldo, contracts, carry).Err?
    ensures r.Ok? && r.value > 0 && r.value < saldo ==> SimulationLimitAsWritten(saldo, contracts, carry) == r
    decreases |contracts|
  {
    if |contracts| == 0 then (if carry.None? then Err(ERR_SIMULATION) else Ok(saldo))
    else
      var c := contracts[0];
      var row := if SimulationFetchesRow(c.tipoProduto) then Some(c.row) else carry;
      if row.None? then Err(ERR_SIMULATION)
      else if BoundsSimulation(row.value.status) then
        (if row.value.valorSaque.None? then Err(ERR_SIMULATION)
         else var v := row.value.valorSaque.value;
           Ok(if saldo > v then saldo - v else 0))
      else SimulationLimit(saldo, contracts[1..], row)
  }

  /** A withdrawal above the balance lets the written loop offer the excess. */
  lemma SimulationLimitAsWrittenOffersExcess()
    ensures var c := CardContract(PRODUTO_CARTAO_BENEFICIO, WithdrawalRow(FORMALIZACAO_CLIENTE, Some(30000)),
                                  AccountReply(false, 0, 0), CardQueryError);
      SimulationLimitAsWritten(10000, [c], None) == Ok(20000) && SimulationLimit(10000, [c], None) == Ok(0)
  {
  }

  const ERR_NO_PRODUCT: string := "O convênio solicitado não possui o produto saque complementar."
  const ERR_NO_WITHDRAWAL: string := "O convênio solicitado não permite saque"
  const ERR_OUT_OF_BOUNDS: string := "O valor informado não atende aos requisitos parametrizado."

  /** `SimulacaoSaqueComplementar.post`, up to the simulated withdrawal
      value, which the financial calculation supplies: the convenio must
      offer the product and some withdrawal, and the value must exceed the
      minimum and not exceed the available limit. */
  function SimulacaoSaqueComplementar(produto: Option<WithdrawalProduct>, saldo: int,
                                      contracts: seq<CardContract>, valorSaque: int): (r: Result<int>)
    ensures r.Ok? <==>
      produto.Some? && SimulationLimit(saldo, contracts, None).Ok?
      && (produto.value.permiteSaque || produto.value.permiteSaqueParcelado)
      && produto.value.vrMinimoSaque < valorSaque <= SimulationLimit(saldo, contracts, None).value
    ensures r.Ok? ==> r.value == valorSaque
    ensures produto.None? ==> r == Err(ERR_NO_PRODUCT)
    ensures r.Ok? && saldo >= 0 && NonNegativeWithdrawals(contracts, None) ==> valorSaque <= saldo
    ensures produto.Some? && !produto.value.permiteSaque && !produto.value.permiteSaqueParcelado ==>
      r == (if |contracts| == 0 || SimulationLimit(saldo, contracts, None).Ok? then Err(ERR_NO_WITHDRAWAL)
            else Err(ERR_SIMULATION))
  {
    if produto.None? then Err(ERR_NO_PRODUCT)
    else
      var limite := SimulationLimit(saldo, contracts, None);
      // a failure inside the loop raises before the convenio's permissions are read;
      // with no contracts the limit is unbound only when it is compared
      if limite.Err? && |contracts| > 0 then Err(ERR_SIMULATION)
      else if !produto.value.permiteSaque && !produto.value.permiteSaqueParcelado then Err(ERR_NO_WITHDRAWAL)
      else if limite.Err? then Err(ERR_SIMULATION)
      else if !(produto.value.vrMinimoSaque < valorSaque <= limite.value) then Err(ERR_OUT_OF_BOUNDS)
      else Ok(valorSaque)
  }

  // ---------------------------------------------------------------------
  // Insured identification in the insurance files

  /** The insured identification: the plan's branch, line, operation and
      plan codes followed by the processor account id, the account id
      zero-padded on the left so that the whole is 18 characters when it
      would be shorter. */
  function IdentificacaoSeguro(identificacao: string, idConta: string): (r: string)
    ensures |identificacao + idConta| < 18 ==> |r| == 18
    ensures |identificacao + idConta| >= 18 ==> r == identificacao + idConta
    ensures StartsWith(r, identificacao) && EndsWith(r, idConta)
    ensures forall i :: |identificacao| <= i < |r| - |idConta| ==> r[i] == '0'
  {
    var novaIdSeq :=
      if |identificacao + idConta| < 18 then Repeat('0', 18 - |identificacao + idConta|) + idConta
      else idConta;
    assert (identificacao + novaIdSeq)[..|identificacao|] == identificacao;
    assert (identificacao + novaIdSeq)[|identificacao + novaIdSeq| - |idConta|..] == idConta;
    identificacao + novaIdSeq
  }

  /** The identification is the plan codes followed by the account id
      right-justified with zeros in what is left of 18 characters. */
  lemma IdentificacaoIsRjust(identificacao: string, idConta: string)
    requires |identificacao| <= 18
    ensures IdentificacaoSeguro(identificacao, idConta)
      == identificacao + PadLeft(idConta, 18 - |identificacao|, '0')
  {
    var r := IdentificacaoSeguro(identificacao, idConta);
    var p := identificacao + PadLeft(idConta, 18 - |identificacao|, '0');
    assert |r| == |p|;
    forall i | 0 <= i < |r| ensures r[i] == p[i] {
      if i < |identificacao| {
        assert r[i] == r[..|identificacao|][i];
      } else if i >= |r| - |idConta| {
        assert r[i] == r[|r| - |idConta|..][i - (|r| - |idConta|)];
        assert p[i] == p[|p| - |idConta|..][i - (|p| - |idConta|)];
      }
    }
  }

  // ---------------------------------------------------------------------
  // Plan collection

  /** A contracted benefit: its plan, its status (4 is cancelled) and how
      many collections were made. */
  datatype Benefit = Benefit(planoPk: int, status: int, qtdArrecadacao: Option<int>)

  datatype PlanKind = Prata | Ouro | Diamante | OtherPlan
  datatype Plan = Plan(pk: int, kind: PlanKind)

  const BENEFIT_CANCELLED: int := 4

  datatype Collection =
    | NoActivePlan      // 404 'Cliente não tem plano ativo'
    | PlanCancelled     // 400 'Plano foi cancelado.'
    | NotCollectable    // 404 'Plano não liberado para arrecadação.'
    | Collected(qtdArrecadacao: int)

  /** The collection counter after one more collection. */
  function NextCollectionCount(qtd: Option<int>): (r: int)
    ensures qtd.None? ==> r == 1
    ensures qtd.Some? ==> r == qtd.value + 1
  {
    if qtd.None? then 1 else qtd.value + 1
  }

  /** `ArrecadacaoPlano.post`, up to the file it writes: the first of the
      contract's plans that is the benefit's plan decides. */
  function ArrecadacaoPlano(plans: seq<Plan>, b: Benefit): (r: Collection)
    ensures r.NoActivePlan? <==> forall i :: 0 <= i < |plans| ==> plans[i].pk != b.planoPk
    ensures r.PlanCancelled? <==> (exists i :: 0 <= i < |plans| && plans[i].pk == b.planoPk) && b.status == BENEFIT_CANCELLED
    ensures r.Collected? ==> b.status != BENEFIT_CANCELLED && r.qtdArrecadacao == NextCollectionCount(b.qtdArrecadacao)
    decreases |plans|
  {
    if |plans| == 0 then NoActivePlan
    else if plans[0].pk == b.planoPk then
      (if b.status == BENEFIT_CANCELLED then PlanCancelled
       else if plans[0].kind == Prata then Collected(NextCollectionCount(b.qtdArrecadacao))
       else NotCollectable)
    else
      assert forall i :: 1 <= i < |plans| ==> plans[i] == plans[1..][i - 1];
      ArrecadacaoPlano(plans[1..], b)
  }

  /** Collection happens exactly for a live benefit whose plan, as first
      listed, is a PRATA plan. */
  lemma {:induction false} CollectedIffPrata(plans: seq<Plan>, b: Benefit, k: nat)
    requires k < |plans| && plans[k].pk == b.planoPk
    requires forall i :: 0 <= i < k ==> plans[i].pk != b.planoPk
    ensures ArrecadacaoPlano(plans, b).Collected? <==> b.status != BENEFIT_CANCELLED && plans[k].kind == Prata
    decreases k
  {
    if k > 0 {
      CollectedIffPrata(plans[1..], b, k - 1);
    }
  }

  /** Successive collections count 1, 2, 3, ... */
  lemma CollectionCountIncreases(qtd: Option<int>)
    requires qtd.Some? ==> qtd.value >= 0
    ensures NextCollectionCount(qtd) >= 1
    ensures NextCollectionCount(Some(NextCollectionCount(qtd))) == NextCollectionCount(qtd) + 1
  {
  }
}
