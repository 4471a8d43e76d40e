/** The portability-with-refinancing desk API
    (contract/products/portabilidade_refin/api.py): the Corban Master's
    approval and cancellation of a contract awaiting recalculation
    approval, and the resubmission of a refinancing payment whose bank
    data had to be corrected. Database rows are records, the QiTech answers
    are inputs, and the clock is a `Calendar.Clock` parameter. */
module PortRefinApi {
  import opened Common
  import opened Codes
  import opened Contracts
  import Calendar
  import FinancialPortability

  /** A refinancing row: status, endorsement date, the disbursement date
      written before a resubmission and the resubmission result.
      `cancelled` records that `CancelRefinancing` ran on it. */
  datatype Refin = Refin(status: int, dtAverbacao: Option<Date>, dtDesembolso: Option<string>,
                         sucessoReapresentacao: Option<bool>, motivoReapresentacao: string,
                         cancelled: bool)

  /** A contract of the desk with its portability row and refinancings. */
  datatype RefinContract = RefinContract(token: string, clientId: int, tipoProduto: int,
                                         port: Option<FinancialPortability.PortRow>,
                                         refins: seq<Refin>, state: ContractState)

  /** Stored endorsement dates are calendar dates. */
  predicate WellFormed(c: RefinContract) {
    forall i :: 0 <= i < |c.refins| && c.refins[i].dtAverbacao.Some? ==> ValidDate(c.refins[i].dtAverbacao.value)
  }

  const MSG_UNAUTHORIZED: string := "Acesso não autorizado."
  const MSG_NO_CONTRACT_TO_CANCEL: string := "Contrato não disponível para cancelamento."
  const MSG_NO_PORTABILITY_TO_CANCEL: string := "Portabilidade não disponível para cancelamento."
  const MSG_CONTRACT_NOT_FOUND: string := "Contrato não encontrado."
  const MSG_NOT_ENDORSED: string := "Não foi possível realizar a reapresentação do pagamento pois ele ainda não foi averbado."
  const MSG_YEAR_PASSED: string := "Não foi possível realizar a reapresentação do pagamento pois ja se passaram os 1 ano de reapresentação."
  const MSG_NO_ACCOUNT: string := "Não foi possível realizar a reapresentação do pagamento pois os dados bancários do cliente não foram encontrados."
  const MSG_NO_BANK: string := "Não foi possível realizar a reapresentação do pagamento pois Banco do cliente não encontrado."
  const MSG_SUPPORT: string := "Não foi possível realizar a reapresentação do pagamento, contacte o Suporte."
  const MSG_RESUBMITTED: string := "Reapresentação do pagamento realizada."
  const MSG_RESUBMIT_FAILED: string := "Não foi possível realizar a reapresentação do pagamento. Contate o Suporte."
  const MANUAL_REFUSAL: string := "Recusa manual de portabilidade + refinanciamento."
  const DESK_RESUBMITTED: string := "Reapresentada, AGUARDANDO DESEMBOLSO (REFIN)"
  const DESK_REFIN_FINISHED: string := "REFIN ja foi finalizado"
  const CORBAN_MASTER_GROUP: string := "Corban Master"

  // ---------------------------------------------------------------------
  // _validate_approve_refuse_request

  predicate IsDeskCandidate(c: RefinContract, token: string) {
    c.token == token && c.tipoProduto == PRODUTO_PORTABILIDADE_REFINANCIAMENTO
  }

  predicate AwaitsRecalcApproval(c: RefinContract) {
    c.port.Some? && c.port.value.status == PENDENTE_APROVACAO_RECALCULO_CORBAN
  }

  /** `_validate_approve_refuse_request`: a signed-in user must be in the
      Corban Master group; the first port+refin contract with the token must
      have its portability awaiting the Corban's recalculation approval.
      The result is the contract's position. */
  function ValidateApproveRefuse(userPresent: bool, groups: set<string>, token: string,
                                 contracts: seq<RefinContract>): (r: Result<nat>)
    ensures userPresent && CORBAN_MASTER_GROUP !in groups ==> r == Err(MSG_UNAUTHORIZED)
    ensures r.Ok? <==>
      (!userPresent || CORBAN_MASTER_GROUP in groups)
      && FirstIndex(contracts, (c: RefinContract) => IsDeskCandidate(c, token)).Some?
      && AwaitsRecalcApproval(contracts[FirstIndex(contracts, (c: RefinContract) => IsDeskCandidate(c, token)).value])
    ensures r.Ok? ==>
      r.value < |contracts| && IsDeskCandidate(contracts[r.value], token) && AwaitsRecalcApproval(contracts[r.value])
      && forall j :: 0 <= j < r.value ==> !IsDeskCandidate(contracts[j], token)
  {
    if userPresent && CORBAN_MASTER_GROUP !in groups then Err(MSG_UNAUTHORIZED)
    else match FirstIndex(contracts, (c: RefinContract) => IsDeskCandidate(c, token))
      case None => Err(MSG_NO_CONTRACT_TO_CANCEL)
      case Some(i) =>
        if AwaitsRecalcApproval(contracts[i]) then Ok(i) else Err(MSG_NO_PORTABILITY_TO_CANCEL)
  }

  /** `cancel_contract` after validation: the portability is refused with
      a cancelled CCB, the contract is cancelled, the refusal is sent to
      QiTech (answered with `refuseResp`), the contract log gains the
      manual refusal and the single refinancing is cancelled. */
  function CancelContract(c: RefinContract, refuseResp: FinancialPortability.QiResponse): (r: Result<RefinContract>)
    requires AwaitsRecalcApproval(c)
    ensures r.Ok? ==>
      r.value.state.status == CONTRATO_CANCELADO
      && r.value.port.Some? && r.value.port.value.status == REPROVADO
      && r.value.state.LastStatus() == Some(REPROVADO)
      && |r.value.state.log| == |c.state.log| + 1
      && |r.value.refins| == 1 && r.value.refins[0].cancelled
      && r.value.token == c.token && r.value.tipoProduto == c.tipoProduto
    ensures r.Ok? ==>
      r.value.port.value.statusCcb
        == (if FinancialPortability.HasProposal(c.port) && !FinancialPortability.HttpError(refuseResp.statusCode)
            then CCB_PENDING_RESPONSE else CCB_CANCELED)
    ensures |c.refins| != 1 ==> r.Err?
  {
    var port := c.port.value.(statusCcb := CCB_CANCELED, status := REPROVADO);
    var state := c.state.(status := CONTRATO_CANCELADO);
    var refusal :- FinancialPortability.Refuse(Some(port), refuseResp);
    var state1 := AddRecord(state, REPROVADO, MANUAL_REFUSAL);
    if |c.refins| != 1 then Err("Refinanciamento.DoesNotExist or MultipleObjectsReturned")
    else
      Ok(c.(port := refusal.port, state := state1, refins := [c.refins[0].(cancelled := true)]))
  }

  /** A cancelled contract can be neither approved nor cancelled again. */
  lemma CancelledLeavesDesk(userPresent: bool, groups: set<string>, token: string,
                            contracts: seq<RefinContract>, refuseResp: FinancialPortability.QiResponse)
    requires ValidateApproveRefuse(userPresent, groups, token, contracts).Ok?
    requires var i := ValidateApproveRefuse(userPresent, groups, token, contracts).value;
      CancelContract(contracts[i], refuseResp).Ok?
    ensures var i := ValidateApproveRefuse(userPresent, groups, token, contracts).value;
      var after := contracts[i := CancelContract(contracts[i], refuseResp).value];
      ValidateApproveRefuse(userPresent, groups, token, after) == Err(MSG_NO_PORTABILITY_TO_CANCEL)
  {
    var i := ValidateApproveRefuse(userPresent, groups, token, contracts).value;
    var after := contracts[i := CancelContract(contracts[i], refuseResp).value];
    var f := FirstIndex(after, (c: RefinContract) => IsDeskCandidate(c, token));
    assert IsDeskCandidate(after[i], token);
    assert forall j :: 0 <= j < i ==> after[j] == contracts[j];
    assert forall j :: 0 <= j < i ==> !IsDeskCandidate(after[j], token);
    assert f == Some(i);
  }

  // ---------------------------------------------------------------------
  // Payment resubmission

  datatype RefinLookup = Found(index: nat) | NotEndorsed | Expired(index: nat)

  predicate PendingBankData(r: Refin) { r.status == PENDENTE_CORRECAO_DADOS_BANCARIOS }

  /** `_get_refinancing` with `_validate_date_limit`: the first refinancing
      waiting for corrected bank data must be endorsed, and less than a
      year (relativedelta years) may have passed since the endorsement;
      otherwise the refinancing is cancelled and the request refused. */
  function GetRefinancing(refins: seq<Refin>, today: Date): (r: RefinLookup)
    requires ValidDate(today)
    requires forall i :: 0 <= i < |refins| && refins[i].dtAverbacao.Some? ==> ValidDate(refins[i].dtAverbacao.value)
    ensures r.NotEndorsed? <==>
      FirstIndex(refins, PendingBankData).None? || refins[FirstIndex(refins, PendingBankData).value].dtAverbacao.None?
    ensures !r.NotEndorsed? ==>
      FirstIndex(refins, PendingBankData) == Some(r.index)
      && refins[r.index].dtAverbacao.Some?
      && (r.Expired? <==> !Before(today, AddMonths(refins[r.index].dtAverbacao.value, 12)))
  {
    match FirstIndex(refins, PendingBankData)
    case None => NotEndorsed
    case Some(i) =>
      match refins[i].dtAverbacao
      case None => NotEndorsed
      case Some(dt) =>
        Calendar.YearReached(dt, today);
        if Calendar.RelDelta(dt, today).years >= 1 then Expired(i) else Found(i)
  }

  /** A bank account of the client. */
  datatype BankAccount = BankAccount(id: int, clientId: int, bankCode: string)

  /** The resubmission answer: its HTTP code and the decoded `description`. */
  datatype QiAnswer = QiAnswer(statusCode: int, description: Option<string>)

  /** The credit-transfer query made after a failed resubmission: `NoOperation`
      when it holds no refinancing operation, `Operation(status)` with the
      operation's status (`None` when that key is missing). */
  datatype CreditQuery = NoOperation | Operation(operationStatus: Option<string>)

  datatype Processed = Processed(code: int, message: string, validation: bool, contract: RefinContract, retornos: nat)

  /** `_process_response`, including the generic error answer a KeyError
      ends in: on 2xx the refinancing waits for disbursement and the log
      gains that status; otherwise the failure is recorded with QiTech's
      description, extended with the operation status, and an 'opened'
      operation marks the refinancing as finished. One QiTech return row is
      stored either way. */
  function ProcessResponse(c: RefinContract, today: Date, answer: QiAnswer, query: CreditQuery): (r: Processed)
    requires ValidDate(today) && WellFormed(c)
    ensures r.retornos <= 1 && (r.validation ==> r.retornos == 0) && r.contract.token == c.token
    ensures r.validation <==> !GetRefinancing(c.refins, today).Found?
    ensures GetRefinancing(c.refins, today).Found? ==> r.retornos == 1
    ensures r.code == 200 <==> answer.statusCode in {200, 201, 202} && GetRefinancing(c.refins, today).Found?
    ensures r.code == 200 ==>
      var i := GetRefinancing(c.refins, today).index;
      r.contract == c.(refins := c.refins[i := c.refins[i].(status := AGUARDANDO_DESEMBOLSO_REFIN, sucessoReapresentacao := Some(true))],
                       state := AddRecord(c.state, AGUARDANDO_DESEMBOLSO_REFIN, DESK_RESUBMITTED))
      && r.retornos == 1
    ensures r.code != 200 ==> r.code == 400
  {
    match GetRefinancing(c.refins, today)
    case NotEndorsed => Processed(400, MSG_NOT_ENDORSED, true, c, 0)
    case Expired(i) => Processed(400, MSG_YEAR_PASSED, true, c.(refins := c.refins[i := c.refins[i].(cancelled := true)]), 0)
    case Found(i) =>
      var refin := c.refins[i];
      if answer.statusCode in {200, 201, 202} then
        var refin1 := refin.(status := AGUARDANDO_DESEMBOLSO_REFIN, sucessoReapresentacao := Some(true));
        Processed(200, MSG_RESUBMITTED, false,
                  c.(refins := c.refins[i := refin1], state := AddRecord(c.state, AGUARDANDO_DESEMBOLSO_REFIN, DESK_RESUBMITTED)), 1)
      else if answer.description.None? then Processed(400, MSG_SUPPORT, false, c, 1)
      else match query
        case NoOperation =>
          Processed(400, MSG_RESUBMIT_FAILED, false,
                    c.(refins := c.refins[i := refin.(sucessoReapresentacao := Some(false), motivoReapresentacao := answer.description.value)]), 1)
        case Operation(None) => Processed(400, MSG_SUPPORT, false, c, 1)
        case Operation(Some(op)) =>
          var message := answer.description.value + "status_qitech" + op;
          var finished := op == "opened";
          var refin1 := if finished then refin.(status := INT_FINALIZADO_DO_REFIN) else refin;
          var state1 := if finished then AddRecord(c.state, INT_FINALIZADO_DO_REFIN, DESK_REFIN_FINISHED) else c.state;
          Processed(400, MSG_RESUBMIT_FAILED, false,
                    c.(refins := c.refins[i := refin1.(sucessoReapresentacao := Some(false), motivoReapresentacao := message)], state := state1), 1)
  }

  /** A failed resubmission marks the refinancing as finished exactly when
      QiTech reports its operation as opened. */
  lemma FailedResubmissionFinishes(c: RefinContract, today: Date, answer: QiAnswer, op: string)
    requires ValidDate(today) && WellFormed(c) && GetRefinancing(c.refins, today).Found?
    requires answer.statusCode !in {200, 201, 202} && answer.description.Some?
    ensures var i := GetRefinancing(c.refins, today).index;
      var r := ProcessResponse(c, today, answer, Operation(Some(op)));
      r.code == 400 && r.contract.refins[i].sucessoReapresentacao == Some(false)
      && (r.contract.refins[i].status == INT_FINALIZADO_DO_REFIN <==> op == "opened" || c.refins[i].status == INT_FINALIZADO_DO_REFIN)
      && (r.contract.state.LastStatus() == Some(INT_FINALIZADO_DO_REFIN) <==> op == "opened" || (op != "opened" && c.state.LastStatus() == Some(INT_FINALIZADO_DO_REFIN)))
  {
  }

  /** `_get_contract`: the first contract with the token. */
  function FindContract(contracts: seq<RefinContract>, token: string): (r: Option<nat>)
    ensures r.Some? ==>
      r.value < |contracts| && contracts[r.value].token == token
      && forall j :: 0 <= j < r.value ==> contracts[j].token != token
    ensures r.None? ==> forall j :: 0 <= j < |contracts| ==> contracts[j].token != token
  {
    FirstIndex(contracts, (c: RefinContract) => c.token == token)
  }

  datatype ResubmitReply = ResubmitReply(code: int, message: string, validation: bool,
                                         contracts: seq<RefinContract>, retornos: nat)

  predicate AllWellFormed(contracts: seq<RefinContract>) {
    forall i :: 0 <= i < |contracts| ==> WellFormed(contracts[i])
  }

  /** `payment_resubmission`: find the contract, its refinancing, the
      client's account and its bank, write the disbursement date (today
      before 17h, else the next day), send the resubmission and process
      QiTech's answer. Validation errors are re-raised as they are; any
      other error becomes the generic answer with one stored return. */
  function PaymentResubmission(contracts: seq<RefinContract>, accounts: seq<BankAccount>, banks: set<string>,
                               token: string, accountId: int, clock: Calendar.Clock,
                               answer: QiAnswer, query: CreditQuery): (r: ResubmitReply)
    requires Calendar.ValidClock(clock) && AllWellFormed(contracts)
    ensures FindContract(contracts, token).None? ==>
      r == ResubmitReply(400, MSG_CONTRACT_NOT_FOUND, true, contracts, 0)
    ensures r.validation ==> r.retornos == 0 && r.code == 400
    ensures |r.contracts| == |contracts|
    ensures r.code == 200 ==>
      FindContract(contracts, token).Some?
      && var ci := FindContract(contracts, token).value;
      var c := contracts[ci];
      var g := GetRefinancing(c.refins, clock.today);
      var date := Calendar.DisbursementDate(clock.today, clock.hour);
      g.Found? && answer.statusCode in {200, 201, 202} && date.Ok?
      && r.contracts == contracts[ci := c.(refins := c.refins[g.index := c.refins[g.index].(
                                             status := AGUARDANDO_DESEMBOLSO_REFIN, sucessoReapresentacao := Some(true),
                                             dtDesembolso := Some(date.value))],
                                           state := AddRecord(c.state, AGUARDANDO_DESEMBOLSO_REFIN, DESK_RESUBMITTED))]
      && r.retornos == 1
    ensures FindContract(contracts, token).Some? ==>
      var c := contracts[FindContract(contracts, token).value];
      (GetRefinancing(c.refins, clock.today).Expired? ==> r.message == MSG_YEAR_PASSED && r.validation)
      && (GetRefinancing(c.refins, clock.today).NotEndorsed? ==> r == ResubmitReply(400, MSG_NOT_ENDORSED, true, contracts, 0))
  {
    match FindContract(contracts, token)
    case None => ResubmitReply(400, MSG_CONTRACT_NOT_FOUND, true, contracts, 0)
    case Some(ci) =>
      var c := contracts[ci];
      match GetRefinancing(c.refins, clock.today)
      case NotEndorsed => ResubmitReply(400, MSG_NOT_ENDORSED, true, contracts, 0)
      case Expired(i) =>
        ResubmitReply(400, MSG_YEAR_PASSED, true, contracts[ci := c.(refins := c.refins[i := c.refins[i].(cancelled := true)])], 0)
      case Found(i) =>
        match FirstIndex(accounts, (a: BankAccount) => a.clientId == c.clientId && a.id == accountId)
        case None => ResubmitReply(400, MSG_NO_ACCOUNT, true, contracts, 0)
        case Some(ai) =>
          if accounts[ai].bankCode !in banks then ResubmitReply(400, MSG_NO_BANK, true, contracts, 0)
          else match Calendar.DisbursementDate(clock.today, clock.hour)
            case Err(_) => ResubmitReply(400, MSG_SUPPORT, false, contracts, 1)
            case Ok(date) =>
              var p := SendResubmission(c, i, date, clock.today, answer, query);
              ResubmitReply(p.code, p.message, p.validation, contracts[ci := p.contract], p.retornos)
  }

  /** `_request_payment_resubmission` and `_process_response` for the
      refinancing found: the disbursement date is written first, so the
      second lookup finds the same refinancing. */
  function SendResubmission(c: RefinContract, i: nat, date: string, today: Date, answer: QiAnswer, query: CreditQuery): (p: Processed)
    requires ValidDate(today) && WellFormed(c) && GetRefinancing(c.refins, today) == Found(i)
    ensures !p.validation && p.contract.token == c.token && p.retornos == 1
    ensures p.code == 200 <==> answer.statusCode in {200, 201, 202}
    ensures p.code == 200 ==>
      p.contract == c.(refins := c.refins[i := c.refins[i].(status := AGUARDANDO_DESEMBOLSO_REFIN, sucessoReapresentacao := Some(true),
                                                          dtDesembolso := Some(date))],
                       state := AddRecord(c.state, AGUARDANDO_DESEMBOLSO_REFIN, DESK_RESUBMITTED))
  {
    var c1 := c.(refins := c.refins[i := c.refins[i].(dtDesembolso := Some(date))]);
    DateWrittenFirst(c, i, date, today);
    ProcessResponse(c1, today, answer, query)
  }

  /** The contract with the disbursement date written is well formed, its
      lookup finds the same refinancing, and a success on it is the
      success on the original with the date added. */
  lemma DateWrittenFirst(c: RefinContract, i: nat, date: string, today: Date)
    requires ValidDate(today) && WellFormed(c) && GetRefinancing(c.refins, today) == Found(i)
    ensures var c1 := c.(refins := c.refins[i := c.refins[i].(dtDesembolso := Some(date))]);
      && WellFormed(c1) && GetRefinancing(c1.refins, today) == Found(i)
      && c1.refins[i := c1.refins[i].(status := AGUARDANDO_DESEMBOLSO_REFIN, sucessoReapresentacao := Some(true))]
         == c.refins[i := c.refins[i].(status := AGUARDANDO_DESEMBOLSO_REFIN, sucessoReapresentacao := Some(true),
                                       dtDesembolso := Some(date))]
  {
    var r := c.refins[i];
    var r1 := r.(dtDesembolso := Some(date));
    LookupUnchanged(c.refins, i, r1, today);
    assert r1.(status := AGUARDANDO_DESEMBOLSO_REFIN, sucessoReapresentacao := Some(true))
      == r.(status := AGUARDANDO_DESEMBOLSO_REFIN, sucessoReapresentacao := Some(true), dtDesembolso := Some(date));
    UpdateTwice(c.refins, i, r1, r1.(status := AGUARDANDO_DESEMBOLSO_REFIN, sucessoReapresentacao := Some(true)));
  }

  lemma UpdateTwice<T>(s: seq<T>, i: nat, x: T, y: T)
    requires i < |s|
    ensures s[i := x][i := y] == s[i := y]
  {
  }

  /** Writing the disbursement date does not change which refinancing the
      second lookup finds. */
  lemma LookupUnchanged(refins: seq<Refin>, i: nat, r: Refin, today: Date)
    requires ValidDate(today) && i < |refins|
    requires forall k :: 0 <= k < |refins| && refins[k].dtAverbacao.Some? ==> ValidDate(refins[k].dtAverbacao.value)
    requires r.status == refins[i].status && r.dtAverbacao == refins[i].dtAverbacao
    ensures GetRefinancing(refins[i := r], today) == GetRefinancing(refins, today)
  {
    var after := refins[i := r];
    assert forall k :: 0 <= k < |refins| ==> PendingBankData(after[k]) == PendingBankData(refins[k]);
    var f, g := FirstIndex(refins, PendingBankData), FirstIndex(after, PendingBankData);
    assert f == g;
  }

  /** A successful resubmission is not repeated: when no other refinancing
      of the contract waits for corrected bank data, the same request again
      is refused because nothing is left to resubmit. */
  lemma ResubmitOnce(contracts: seq<RefinContract>, accounts: seq<BankAccount>, banks: set<string>,
                     token: string, accountId: int, clock: Calendar.Clock, answer: QiAnswer, query: CreditQuery)
    requires Calendar.ValidClock(clock) && AllWellFormed(contracts)
    requires PaymentResubmission(contracts, accounts, banks, token, accountId, clock, answer, query).code == 200
    requires var ci := FindContract(contracts, token).value;
      var refins := contracts[ci].refins;
      forall k :: 0 <= k < |refins| && k != GetRefinancing(refins, clock.today).index ==> !PendingBankData(refins[k])
    ensures var first := PaymentResubmission(contracts, accounts, banks, token, accountId, clock, answer, query);
      AllWellFormed(first.contracts)
      && PaymentResubmission(first.contracts, accounts, banks, token, accountId, clock, answer, query)
         == ResubmitReply(400, MSG_NOT_ENDORSED, true, first.contracts, 0)
  {
    var first := PaymentResubmission(contracts, accounts, banks, token, accountId, clock, answer, query);
    var ci := FindContract(contracts, token).value;
    var c := contracts[ci];
    var i := GetRefinancing(c.refins, clock.today).index;
    var c2 := first.contracts[ci];
    assert first.contracts == contracts[ci := c2];
    SecondResubmissionRefused(contracts, accounts, banks, token, accountId, clock, answer, query, ci, i, c2);
  }

  /** Replacing the contract found by one whose only waiting refinancing
      has left that status, its endorsement date kept, makes the next
      request a "not endorsed" refusal. */
  lemma SecondResubmissionRefused(contracts: seq<RefinContract>, accounts: seq<BankAccount>, banks: set<string>,
                                  token: string, accountId: int, clock: Calendar.Clock, answer: QiAnswer,
                                  query: CreditQuery, ci: nat, i: nat, c2: RefinContract)
    requires Calendar.ValidClock(clock) && AllWellFormed(contracts)
    requires FindContract(contracts, token) == Some(ci) && i < |contracts[ci].refins|
    requires forall k :: 0 <= k < |contracts[ci].refins| && k != i ==> !PendingBankData(contracts[ci].refins[k])
    requires c2.token == token && |c2.refins| == |contracts[ci].refins|
    requires c2.refins == contracts[ci].refins[i := c2.refins[i]]
    requires !PendingBankData(c2.refins[i]) && c2.refins[i].dtAverbacao == contracts[ci].refins[i].dtAverbacao
    ensures AllWellFormed(contracts[ci := c2])
    ensures PaymentResubmission(contracts[ci := c2], accounts, banks, token, accountId, clock, answer, query)
            == ResubmitReply(400, MSG_NOT_ENDORSED, true, contracts[ci := c2], 0)
  {
    var c := contracts[ci];
    NothingPendingAfter(c.refins, i, c2.refins[i]);
    assert WellFormed(c2) by {
      assert WellFormed(c);
      forall k | 0 <= k < |c2.refins| && c2.refins[k].dtAverbacao.Some?
        ensures ValidDate(c2.refins[k].dtAverbacao.value)
      {
        assert c2.refins[k].dtAverbacao == c.refins[k].dtAverbacao;
      }
    }
    FindContractStable(contracts, ci, c2, token);
    NotEndorsedAgain(contracts[ci := c2], accounts, banks, token, accountId, clock, answer, query, ci);
  }

  /** A contract none of whose refinancings waits for corrected bank data
      is refused as not endorsed. */
  lemma NotEndorsedAgain(contracts: seq<RefinContract>, accounts: seq<BankAccount>, banks: set<string>,
                         token: string, accountId: int, clock: Calendar.Clock, answer: QiAnswer, query: CreditQuery,
                         ci: nat)
    requires Calendar.ValidClock(clock) && AllWellFormed(contracts)
    requires FindContract(contracts, token) == Some(ci)
    requires FirstIndex(contracts[ci].refins, PendingBankData).None?
    ensures PaymentResubmission(contracts, accounts, banks, token, accountId, clock, answer, query)
            == ResubmitReply(400, MSG_NOT_ENDORSED, true, contracts, 0)
  {
  }

  /** Moving the only refinancing waiting for corrected bank data out of
      that status leaves none waiting. */
  lemma NothingPendingAfter(refins: seq<Refin>, i: nat, r: Refin)
    requires i < |refins| && !PendingBankData(r)
    requires forall k :: 0 <= k < |refins| && k != i ==> !PendingBankData(refins[k])
    ensures FirstIndex(refins[i := r], PendingBankData).None?
  {
    var after := refins[i := r];
    assert forall k :: 0 <= k < |after| ==> !PendingBankData(after[k]);
  }

  /** Replacing the contract a token finds by one with the same token
      keeps it the one found. */
  lemma FindContractStable(contracts: seq<RefinContract>, ci: nat, x: RefinContract, token: string)
    requires FindContract(contracts, token) == Some(ci) && x.token == token
    ensures FindContract(contracts[ci := x], token) == Some(ci)
  {
    var after := contracts[ci := x];
    assert forall j :: 0 <= j < ci ==> after[j] == contracts[j];
    assert after[ci].token == token;
  }
}
