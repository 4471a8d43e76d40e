/** The QiTech proposal handlers of a portability with refinancing
    (contract/products/portabilidade_refin/handlers/proposal_financial_portability.py):
    refusing a portability proposal, refusing a free-margin proposal,
    accepting and submitting a portability proposal. The QiTech answer is an
    input: its HTTP code and its decoded body; each handler returns whether
    it succeeded, whether it called QiTech at all, the row it leaves and the
    QiTech return rows it stores. A raise is an `Err`. */
module FinancialPortability {
  import opened Common
  import opened Codes
  import opened Contracts

  /** The decoded QiTech body: its `code`, `translation` and `title` keys,
      and whether it holds any other key. `None` is a body that decoded to
      nothing. */
  datatype Decoded = Decoded(code: Option<string>, translation: Option<string>, title: Option<string>, otherKeys: bool)

  datatype QiResponse = QiResponse(statusCode: int, body: Option<Decoded>)

  /** `raise_for_status` raises for client and server errors. */
  predicate HttpError(statusCode: int) { 400 <= statusCode < 600 }

  /** Python truthiness of the decoded body. */
  predicate BodyTruthy(b: Option<Decoded>) {
    b.Some? && (b.value.code.Some? || b.value.translation.Some? || b.value.title.Some? || b.value.otherKeys)
  }

  /** The portability row's QiTech fields. */
  datatype PortRow = PortRow(
    chaveProposta: string, statusCcb: int, status: int,
    sucessoRecusa: Option<bool>, motivoRecusa: string,
    sucessoAceite: Option<bool>, motivoAceite: string,
    sucessoSubmissao: Option<bool>, motivoSubmissao: string)

  /** The handler runs only for an existing row with a proposal key. */
  predicate HasProposal(p: Option<PortRow>) { p.Some? && |p.value.chaveProposta| > 0 }

  const ERR_KEY: string := "KeyError"
  const ERR_NONE_BODY: string := "TypeError: 'NoneType' object is not subscriptable"
  const CODE_ALREADY_CANCELLED: string := "CT000010"
  const CODE_ACCEPT_REFUSED: string := "SSC000041"

  /** The `Status: ...` line that opens every failure note. */
  function StatusLine(statusCode: int): string {
    "Status: " + IntToString(statusCode) + "\n"
  }

  // ---------------------------------------------------------------------
  // RefuseProposalFinancialPortability

  datatype RefuseOutcome = RefuseOutcome(ok: bool, called: bool, port: Option<PortRow>, retornos: seq<string>)

  /** `RefuseProposalFinancialPortability.execute`: on a 2xx answer the
      return is stored, the CCB waits for QiTech's response and the refusal
      is marked successful; on an error answer a proposal QiTech had already
      cancelled (CT000010) also counts as refused, any other code is noted
      as a failed refusal. */
  function Refuse(p: Option<PortRow>, resp: QiResponse): (r: Result<RefuseOutcome>)
    ensures !HasProposal(p) ==> r == Ok(RefuseOutcome(false, false, p, []))
    ensures HasProposal(p) && !HttpError(resp.statusCode) ==>
      r.Ok? && r.value.ok && r.value.called && r.value.retornos == ["DELETE"]
      && r.value.port == Some(p.value.(statusCcb := CCB_PENDING_RESPONSE, sucessoRecusa := Some(true)))
    ensures HasProposal(p) && HttpError(resp.statusCode) && resp.body.Some?
            && resp.body.value.code == Some(CODE_ALREADY_CANCELLED) ==>
      r == Ok(RefuseOutcome(true, true, Some(p.value.(sucessoRecusa := Some(true))), []))
    ensures r.Ok? && r.value.called && !r.value.ok ==>
      HttpError(resp.statusCode) && p.Some? && r.value.port.Some?
      && r.value.port.value.sucessoRecusa == Some(false)
      && r.value.port.value.statusCcb == p.value.statusCcb
    ensures r.Ok? ==> (r.value.ok ==> r.value.called) && (r.value.called <==> HasProposal(p))
    ensures r.Ok? && p.Some? ==>
      r.value.port.Some? && r.value.port.value.status == p.value.status
      && r.value.port.value.chaveProposta == p.value.chaveProposta
    ensures r.Err? ==> HasProposal(p) && HttpError(resp.statusCode)
  {
    if !HasProposal(p) then Ok(RefuseOutcome(false, false, p, []))
    else
      var row := p.value;
      if !HttpError(resp.statusCode) then
        Ok(RefuseOutcome(true, true, Some(row.(statusCcb := CCB_PENDING_RESPONSE, sucessoRecusa := Some(true))), ["DELETE"]))
      else match resp.body
        case None => Err("AttributeError: 'NoneType' object has no attribute 'get'")
        case Some(b) =>
          if b.code == Some(CODE_ALREADY_CANCELLED) then
            Ok(RefuseOutcome(true, true, Some(row.(sucessoRecusa := Some(true))), []))
          else if b.translation.None? || b.code.None? then Err(ERR_KEY)
          else
            var motivo := StatusLine(resp.statusCode) + " Descrição:" + b.translation.value + " " + b.code.value;
            Ok(RefuseOutcome(false, true, Some(row.(sucessoRecusa := Some(false), motivoRecusa := motivo)), []))
  }

  /** Refusing a proposal whose refusal has already succeeded, or which
      QiTech reports as already cancelled, succeeds again and leaves the
      CCB status where the first refusal put it. */
  lemma RefuseRepeatable(p: Option<PortRow>, resp: QiResponse, again: QiResponse)
    requires Refuse(p, resp).Ok? && Refuse(p, resp).value.ok
    requires !HttpError(again.statusCode)
             || (again.body.Some? && again.body.value.code == Some(CODE_ALREADY_CANCELLED))
    ensures var once := Refuse(p, resp).value.port;
      var twice := Refuse(once, again);
      twice.Ok? && twice.value.ok && twice.value.port.Some?
      && twice.value.port.value.sucessoRecusa == Some(true)
      && (HttpError(again.statusCode) ==> twice.value.port == once)
  {
  }

  // ---------------------------------------------------------------------
  // RefuseProposalFinancialFreeMargin

  /** The free-margin row's refusal fields. */
  datatype FreeMarginRow = FreeMarginRow(chaveProposta: string, sucessoRecusa: Option<bool>, motivoRecusa: string)

  datatype FreeMarginOutcome = FreeMarginOutcome(ok: bool, called: bool, row: Option<FreeMarginRow>, retornos: seq<string>)

  /** `RefuseProposalFinancialFreeMargin.execute`: the debt is cancelled at
      QiTech; both a 2xx and an error answer are stored, and the error
      answer's title becomes the refusal note. */
  function RefuseFreeMargin(m: Option<FreeMarginRow>, resp: QiResponse): (r: Result<FreeMarginOutcome>)
    ensures !(m.Some? && |m.value.chaveProposta| > 0) ==> r == Ok(FreeMarginOutcome(false, false, m, []))
    ensures m.Some? && |m.value.chaveProposta| > 0 ==>
      (r.Ok? <==> !HttpError(resp.statusCode) || (resp.body.Some? && resp.body.value.title.Some?))
      && (r.Ok? ==>
            r.value.called && r.value.retornos == ["DELETE"]
            && (r.value.ok <==> !HttpError(resp.statusCode))
            && r.value.row.Some? && r.value.row.value.sucessoRecusa == Some(r.value.ok))
  {
    if !(m.Some? && |m.value.chaveProposta| > 0) then Ok(FreeMarginOutcome(false, false, m, []))
    else
      var row := m.value;
      if !HttpError(resp.statusCode) then
        Ok(FreeMarginOutcome(true, true, Some(row.(sucessoRecusa := Some(true))), ["DELETE"]))
      else if resp.body.None? || resp.body.value.title.None? then Err(ERR_KEY)
      else
        var motivo := StatusLine(resp.statusCode) + " Descrição:" + resp.body.value.title.value;
        Ok(FreeMarginOutcome(false, true, Some(row.(sucessoRecusa := Some(false), motivoRecusa := motivo)), ["DELETE"]))
  }

  // ---------------------------------------------------------------------
  // AcceptProposalFinancialPortability

  datatype AcceptOutcome = AcceptOutcome(ok: bool, called: bool, port: Option<PortRow>, state: ContractState,
                                         retornos: seq<string>, refusal: Option<RefuseOutcome>)

  const PENDING_RESPONSE: string := "pending_response"

  /** The accept error branch shared by both versions: a refused acceptance
      (SSC000041) refuses the portability and sends the refusal (answered
      with `refuseResp`); every error is noted as a failed acceptance. */
  function AcceptError(row: PortRow, c: ContractState, resp: QiResponse, refuseResp: QiResponse): (r: Result<AcceptOutcome>)
    requires |row.chaveProposta| > 0
    ensures r.Ok? ==>
      (!r.value.ok && r.value.called && resp.body.Some? && r.value.port.Some?
       && r.value.port.value.sucessoAceite == Some(false))
    ensures r.Ok? && resp.body.Some? && r.value.port.Some? && resp.body.value.code == Some(CODE_ACCEPT_REFUSED) ==>
      r.value.state.LastStatus() == Some(REPROVADO) && r.value.port.value.status == REPROVADO
      && r.value.refusal.Some? && r.value.refusal.value.called
    ensures r.Ok? && resp.body.Some? && r.value.port.Some? && resp.body.value.code != Some(CODE_ACCEPT_REFUSED) ==>
      r.value.state == c && r.value.refusal.None? && r.value.port.value.status == row.status
  {
    match resp.body
    case None => Err(ERR_NONE_BODY)
    case Some(b) =>
      if b.code.None? then Err(ERR_KEY)
      else
        var refused :- if b.code == Some(CODE_ACCEPT_REFUSED) then
            var rr :- Refuse(Some(row.(status := REPROVADO)), refuseResp);
            Ok(Some(rr))
          else Ok(None);
        var row1 := if refused.Some? then refused.value.port.value else row;
        var c1 := if refused.Some? then AddRecord(c.(productStatus := REPROVADO), REPROVADO, "") else c;
        if b.translation.None? then Err(ERR_KEY)
        else
          var motivo := StatusLine(resp.statusCode) + " Descrição:" + b.translation.value
                        + "\nCODIGO ERRO(QITECH) :" + b.code.value;
          Ok(AcceptOutcome(false, true, Some(row1.(sucessoAceite := Some(false), motivoAceite := motivo)), c1, [], refused))
  }

  /** `AcceptProposalFinancialPortability.execute` as written: a 2xx answer
      is stored, marks the acceptance successful (and, for the
      'pending_response' status, the CCB as waiting), but the handler
      returns the truthiness of the decoded body. */
  function AcceptAsWritten(p: Option<PortRow>, c: ContractState, status: string, resp: QiResponse, refuseResp: QiResponse): (r: Result<AcceptOutcome>)
    ensures !HasProposal(p) ==> r == Ok(AcceptOutcome(false, false, p, c, [], None))
    ensures HasProposal(p) && !HttpError(resp.statusCode) ==>
      r.Ok? && (r.value.ok <==> BodyTruthy(resp.body)) && r.value.port.Some?
      && r.value.port.value.sucessoAceite == Some(true)
  {
    if !HasProposal(p) then Ok(AcceptOutcome(false, false, p, c, [], None))
    else if !HttpError(resp.statusCode) then
      var row := p.value;
      var row1 := if status == PENDING_RESPONSE then row.(statusCcb := CCB_PENDING_RESPONSE) else row;
      Ok(AcceptOutcome(BodyTruthy(resp.body), true, Some(row1.(sucessoAceite := Some(true))), c, [status], None))
    else AcceptError(p.value, c, resp, refuseResp)
  }

  /** An accepted proposal whose answer decoded to nothing is reported as a
      failure although the row records the acceptance as successful. */
  lemma AcceptAsWrittenMisreports()
    ensures var row := PortRow("key", CCB_PENDING_ACCEPTANCE, 0, None, "", None, "", None, "");
      var r := AcceptAsWritten(Some(row), ContractState(0, 0, []), "accepted_by_requester",
                               QiResponse(200, None), QiResponse(200, None));
      r.Ok? && !r.value.ok && r.value.port.value.sucessoAceite == Some(true)
  {
  }

  /** The acceptance as evidently intended: the result is the success the
      row records. */
  function Accept(p: Option<PortRow>, c: ContractState, status: string, resp: QiResponse, refuseResp: QiResponse): (r: Result<AcceptOutcome>)
    ensures !HasProposal(p) ==> r == Ok(AcceptOutcome(false, false, p, c, [], None))
    ensures HasProposal(p) && !HttpError(resp.statusCode) ==>
      r.Ok? && r.value.ok && r.value.called && r.value.state == c && r.value.retornos == [status]
      && r.value.port.Some? && r.value.port.value.sucessoAceite == Some(true)
      && r.value.port.value.statusCcb == (if status == PENDING_RESPONSE then CCB_PENDING_RESPONSE else p.value.statusCcb)
    ensures r.Ok? && r.value.called ==>
      r.value.port.Some? && (r.value.ok <==> r.value.port.value.sucessoAceite == Some(true))
    ensures r.Ok? && r.value.called && !r.value.ok ==> HttpError(resp.statusCode)
  {
    if !HasProposal(p) then Ok(AcceptOutcome(false, false, p, c, [], None))
    else if !HttpError(resp.statusCode) then
      var row := p.value;
      var row1 := if status == PENDING_RESPONSE then row.(statusCcb := CCB_PENDING_RESPONSE) else row;
      Ok(AcceptOutcome(true, true, Some(row1.(sucessoAceite := Some(true))), c, [status], None))
    else AcceptError(p.value, c, resp, refuseResp)
  }

  /** The two versions agree on everything but the result of a 2xx answer
      whose body is empty. */
  lemma AcceptVersionsAgree(p: Option<PortRow>, c: ContractState, status: string, resp: QiResponse, refuseResp: QiResponse)
    requires !(HasProposal(p) && !HttpError(resp.statusCode) && !BodyTruthy(resp.body))
    ensures AcceptAsWritten(p, c, status, resp, refuseResp) == Accept(p, c, status, resp, refuseResp)
  {
  }

  // ---------------------------------------------------------------------
  // SubmitFinancialPortabilityProposal

  /** The four log messages of a submission. */
  datatype SubmitKind = Submitted | AlreadySubmitted | SubmitException | SubmitError

  predicate Accepted2xx(statusCode: int) { statusCode in {200, 201, 202} }

  /** `generate_message`: the contract prefix, then what happened. */
  function GenerateMessage(base: string, success: bool, statusCode: int, exception: bool): (r: string)
    ensures StartsWith(r, base)
    ensures r[|base|..] == SubmitSuffix(MessageKind(success, statusCode, exception))
  {
    var m := base + SubmitSuffix(MessageKind(success, statusCode, exception));
    assert m[..|base|] == base;
    m
  }

  /** Which message a submission outcome gets. */
  function MessageKind(success: bool, statusCode: int, exception: bool): (k: SubmitKind)
    ensures k == Submitted <==> success && Accepted2xx(statusCode)
    ensures k == AlreadySubmitted <==> success && !Accepted2xx(statusCode)
    ensures k == SubmitException <==> !success && exception
  {
    if success then (if Accepted2xx(statusCode) then Submitted else AlreadySubmitted)
    else if exception then SubmitException
    else SubmitError
  }

  function SubmitSuffix(k: SubmitKind): string {
    match k
    case Submitted => " Proposta submetida com sucesso."
    case AlreadySubmitted => " Proposta já havia sido submetida com sucesso."
    case SubmitException => " Erro na submissão da proposta (Exception)."
    case SubmitError => " Erro na submissão da proposta."
  }

  /** The four messages are told apart: the message says which outcome it
      reports. */
  lemma MessagesDistinguish(base: string, s1: bool, c1: int, e1: bool, s2: bool, c2: int, e2: bool)
    requires GenerateMessage(base, s1, c1, e1) == GenerateMessage(base, s2, c2, e2)
    ensures MessageKind(s1, c1, e1) == MessageKind(s2, c2, e2)
  {
    var k1, k2 := MessageKind(s1, c1, e1), MessageKind(s2, c2, e2);
    assert SubmitSuffix(k1) == SubmitSuffix(k2);
    if k1 != k2 {
      SuffixesDiffer(k1, k2);
    }
  }

  lemma SuffixesDiffer(k1: SubmitKind, k2: SubmitKind)
    requires k1 != k2
    ensures SubmitSuffix(k1) != SubmitSuffix(k2)
  {
  }

  datatype SubmitOutcome = SubmitOutcome(ok: bool, called: bool, port: Option<PortRow>, retornos: seq<string>, message: Option<SubmitKind>)

  /** `SubmitFinancialPortabilityProposal.execute`: a 2xx answer, or a
      proposal QiTech already lists as pending response or acceptance
      (`proposalStatus`, the status its query returns, looked up only when
      the answer is not 2xx), is a successful submission; anything else is
      noted as a failed one. */
  function Submit(p: Option<PortRow>, status: string, resp: QiResponse, proposalStatus: Option<string>): (r: Result<SubmitOutcome>)
    ensures !HasProposal(p) ==> r == Ok(SubmitOutcome(false, false, p, [], None))
    ensures HasProposal(p) ==>
      var succeeded := Accepted2xx(resp.statusCode)
        || (proposalStatus.Some? && proposalStatus.value in {"pending_response", "pending_acceptance"});
      (succeeded ==>
         r.Ok? && r.value.ok && r.value.retornos == [status]
         && r.value.port.Some? && r.value.port.value.sucessoSubmissao == Some(true)
         && r.value.port.value.statusCcb == (if status == PENDING_RESPONSE then CCB_PENDING_RESPONSE else p.value.statusCcb)
         && r.value.message == Some(if Accepted2xx(resp.statusCode) then Submitted else AlreadySubmitted))
      && (!succeeded && r.Ok? ==>
            !r.value.ok && r.value.port.Some? && r.value.port.value.sucessoSubmissao == Some(false)
            && r.value.port.value.statusCcb == p.value.statusCcb && r.value.message == Some(SubmitError))
    ensures r.Ok? ==> (r.value.called <==> HasProposal(p))
  {
    if !HasProposal(p) then Ok(SubmitOutcome(false, false, p, [], None))
    else
      var row := p.value;
      var already := proposalStatus.Some? && proposalStatus.value in {"pending_response", "pending_acceptance"};
      if Accepted2xx(resp.statusCode) || already then
        var row1 := if status == PENDING_RESPONSE then row.(statusCcb := CCB_PENDING_RESPONSE) else row;
        Ok(SubmitOutcome(true, true, Some(row1.(sucessoSubmissao := Some(true))), [status],
                         Some(MessageKind(true, resp.statusCode, false))))
      else match resp.body
        case None => Err(ERR_NONE_BODY)
        case Some(b) =>
          if b.translation.None? || b.code.None? then Err(ERR_KEY)
          else
            var motivo := StatusLine(resp.statusCode) + "Descrição:" + b.translation.value
                          + "\nCODIGO ERRO(QITECH) :" + b.code.value;
            Ok(SubmitOutcome(false, true, Some(row.(sucessoSubmissao := Some(false), motivoSubmissao := motivo)), [],
                             Some(MessageKind(false, resp.statusCode, false))))
  }

  /** Submitting with the 'pending_response' status leaves the CCB waiting
      for a response whenever the submission succeeds, and so does a
      successful acceptance with that status. */
  lemma PendingResponseSetsCcb(p: PortRow, c: ContractState, resp: QiResponse, proposalStatus: Option<string>, refuseResp: QiResponse)
    requires |p.chaveProposta| > 0
    ensures var s := Submit(Some(p), PENDING_RESPONSE, resp, proposalStatus);
      s.Ok? && s.value.ok ==> s.value.port.Some? && s.value.port.value.statusCcb == CCB_PENDING_RESPONSE
    ensures var a := Accept(Some(p), c, PENDING_RESPONSE, resp, refuseResp);
      a.Ok? && a.value.ok ==> a.value.port.Some? && a.value.port.value.statusCcb == CCB_PENDING_RESPONSE
  {
  }
}
