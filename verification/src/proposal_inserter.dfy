/** Inserting a portability proposal at QiTech
    (core/tasks/insert_portability_proposal/qitech_proposal_inserter.py):
    the validation chain that decides whether the inserted proposal is kept,
    the due dates read from the answer, the accept step, and the discipline
    of the "proposal being inserted" flag across every exit path. The HTTP
    call is abstracted as its outcome. */
module ProposalInserter {
  import opened Common
  import opened Codes
  import opened Contracts
  import PortabilityViews

  /** `TYPES_OF_BENEFIT_THAT_NEEDS_VALIDATION`, as a sequence (it is a tuple). */
  const TYPES_NEEDING_VALIDATION: seq<int> := [4, 5, 6, 32, 33, 34, 51, 83, 87, 92]

  /** The tuple has ten distinct codes and agrees with the species set the
      link-sending rule uses. */
  lemma TypesNeedingValidationShape()
    ensures |TYPES_NEEDING_VALIDATION| == 10
    ensures forall i, j :: 0 <= i < j < 10 ==> TYPES_NEEDING_VALIDATION[i] != TYPES_NEEDING_VALIDATION[j]
    ensures forall s :: s in TYPES_NEEDING_VALIDATION <==> s in PortabilityViews.SPECIES_NEEDING_VALIDATION
  {
  }

  /** `is_benefit_blocked`: the same situations the link-sending rule
      refuses. */
  predicate IsBenefitBlocked(situation: string)
    ensures IsBenefitBlocked(situation) <==> situation in PortabilityViews.BLOCKED_SITUATIONS
  {
    situation in ["INELEGÍVEL", "BLOQUEADA", "BLOQUEADO"]
  }

  /** `does_specie_needs_validation`: the same species the link-sending
      rule checks. */
  predicate SpeciesNeedsValidation(species: int)
    ensures SpeciesNeedsValidation(species) <==> species in PortabilityViews.SPECIES_NEEDING_VALIDATION
  {
    TypesNeedingValidationShape();
    species in TYPES_NEEDING_VALIDATION
  }

  /** What the validation reads. */
  datatype ProposalFacts = ProposalFacts(
    lastStatus: int,
    speciesRegistered: bool,
    situation: string,
    species: int,
    speciesRuleApproved: bool)

  datatype Validation = Valid | Invalid(reason: string)

  const REASON_REPROVED: string := "Contrato esta com status reprovado"
  const REASON_BLOCKED: string := "Beneficio bloqueado ou cessado"
  const REASON_POLICY: string := "Fora da Politica"

  /** `validate_proposal`: reproved status, unregistered species, blocked
      benefit and failing species rule are checked in that order, and the
      first that applies gives the reason. */
  function ValidateProposal(f: ProposalFacts): (r: Validation)
    ensures PortabilityViews.IsReproval(f.lastStatus) ==> r == Invalid(REASON_REPROVED)
    ensures !PortabilityViews.IsReproval(f.lastStatus) && !f.speciesRegistered ==>
      r == Invalid(IntToString(f.species) + " - Especie não cadastrada")
    ensures !PortabilityViews.IsReproval(f.lastStatus) && f.speciesRegistered && IsBenefitBlocked(f.situation) ==>
      r == Invalid(REASON_BLOCKED)
    ensures r.Valid? <==>
      !PortabilityViews.IsReproval(f.lastStatus) && f.speciesRegistered && !IsBenefitBlocked(f.situation)
      && (SpeciesNeedsValidation(f.species) ==> f.speciesRuleApproved)
    ensures r == Invalid(REASON_POLICY) <==>
      !PortabilityViews.IsReproval(f.lastStatus) && f.speciesRegistered && !IsBenefitBlocked(f.situation)
      && SpeciesNeedsValidation(f.species) && !f.speciesRuleApproved
  {
    if PortabilityViews.IsReproval(f.lastStatus) then Invalid(REASON_REPROVED)
    else if !f.speciesRegistered then Invalid(IntToString(f.species) + " - Especie não cadastrada")
    else if IsBenefitBlocked(f.situation) then Invalid(REASON_BLOCKED)
    else if SpeciesNeedsValidation(f.species) then
      if f.speciesRuleApproved then Valid else Invalid(REASON_POLICY)
    else Valid
  }

  /** The inserter's validation and the link-sending rule refuse the same
      proposals: for a contract not already reproved with a returned IN100,
      the proposal is invalid exactly when the link rule sends a refusal. */
  lemma ValidationAgreesWithLinkRule(c: ContractState, f: ProposalFacts, failedCall: string, insertionFailed: bool)
    requires c.LastStatus() == Some(f.lastStatus)
    requires !PortabilityViews.IsReproval(f.lastStatus)
    ensures var in100 := PortabilityViews.In100Facts(true, f.speciesRegistered, f.situation, f.species, failedCall);
      var refused := PortabilityViews.StatusEnvioLink(c, in100, f.speciesRuleApproved, insertionFailed).refused;
      ValidateProposal(f).Invalid? <==> refused
  {
    TypesNeedingValidationShape();
    assert IsBenefitBlocked(f.situation) <==> f.situation in PortabilityViews.BLOCKED_SITUATIONS;
  }

  // ---------------------------------------------------------------------

  datatype Instalment = Instalment(dueDate: string)
  datatype DisbursementOption = DisbursementOption(installments: seq<Instalment>)

  /** `extract_first_and_last_due_date`: the due dates of the first and the
      last instalment of the first disbursement option; indexing an empty
      list raises. */
  function ExtractFirstAndLastDueDate(options: seq<DisbursementOption>): (r: Result<(string, string)>)
    ensures r.Ok? <==> |options| > 0 && |options[0].installments| > 0
    ensures r.Ok? ==> r.value.0 == options[0].installments[0].dueDate
    ensures r.Ok? ==> r.value.1 == options[0].installments[|options[0].installments| - 1].dueDate
    ensures r.Ok? && |options[0].installments| == 1 ==> r.value.0 == r.value.1
  {
    if |options| == 0 then Err("IndexError: disbursement_options")
    else
      var inst := options[0].installments;
      if |inst| == 0 then Err("IndexError: installments")
      else Ok((inst[0].dueDate, inst[|inst| - 1].dueDate))
  }

  /** `accept_proposal`: moves to FORMALIZACAO_CLIENTE only when no such
      status was ever recorded. */
  function AcceptProposal(c: ContractState, insertionFailure: string): (r: ContractState)
    ensures c.HasStatus(FORMALIZACAO_CLIENTE) ==> r == c
    ensures !c.HasStatus(FORMALIZACAO_CLIENTE) ==>
      r.status == CONTRATO_AGUARDANDO_FORMALIZACAO && r.productStatus == FORMALIZACAO_CLIENTE
      && r.log == c.log + [StatusRecord(FORMALIZACAO_CLIENTE, if insertionFailure != "" then insertionFailure else "-")]
    ensures r.HasStatus(FORMALIZACAO_CLIENTE)
  {
    if c.HasStatus(FORMALIZACAO_CLIENTE) then c
    else
      var r := PortabilityViews.AtualizarContratoPortabilidade(c, CONTRATO_AGUARDANDO_FORMALIZACAO, FORMALIZACAO_CLIENTE,
        if insertionFailure != "" then insertionFailure else "-");
      assert r.log[|c.log|].nome == FORMALIZACAO_CLIENTE;
      r
  }

  /** Accepting twice is the same as accepting once. */
  lemma AcceptProposalIdempotent(c: ContractState, msg: string)
    ensures AcceptProposal(AcceptProposal(c, msg), msg) == AcceptProposal(c, msg)
  {
  }

  // ---------------------------------------------------------------------
  // The insertion run

  /** The QiTech answer: an HTTP error, or a body with the CCB url and the
      disbursement options. */
  datatype SendResult = HttpError | Answer(ccbUrl: string, options: seq<DisbursementOption>)

  datatype Raised = NoRaise | InsertException | CcbAttachmentException | LookupError

  /** What happened to the proposal. */
  datatype Decision = NotValidated | Refused(reason: string) | AwaitingIn100 | Accepted

  /** The observable effects of `insert_proposal`: every value written to
      `is_proposal_being_inserted`, in order, the exception that escapes,
      the decision taken, and the value of `sucesso_insercao_proposta` if
      it was written. */
  datatype InsertRun = InsertRun(flagWrites: seq<bool>, raised: Raised, decision: Decision,
                                 insertSuccess: Option<bool>)

  /** `insert_proposal` with `treat_successful_response_data` and
      `treat_unsuccessful_response_data` inlined. `in100Returned` is the
      IN100 state after the link-sending update. */
  function InsertProposal(send: SendResult, f: ProposalFacts, in100Returned: bool): (r: InsertRun)
    ensures |r.flagWrites| >= 2 && r.flagWrites[0] && !r.flagWrites[|r.flagWrites| - 1]
    ensures send.HttpError? ==> r.raised == InsertException && r.insertSuccess == Some(false)
    ensures send.Answer? && ExtractFirstAndLastDueDate(send.options).Ok? && !StartsWith(send.ccbUrl, "http") ==>
      r.raised == CcbAttachmentException && r.decision == NotValidated && r.insertSuccess == Some(false)
    ensures r.decision.Refused? ==> ValidateProposal(f) == Invalid(r.decision.reason) && r.raised == NoRaise
    ensures r.decision == Accepted ==> ValidateProposal(f).Valid? && in100Returned && r.insertSuccess == Some(true)
    ensures r.raised == NoRaise <==> r.decision != NotValidated
  {
    var start := [true];
    var finally := [false];
    match send
    case HttpError =>
      InsertRun(start + [false] + finally, InsertException, NotValidated, Some(false))
    case Answer(url, options) =>
      if ExtractFirstAndLastDueDate(options).Err? then
        InsertRun(start + finally, LookupError, NotValidated, None)
      else if !StartsWith(url, "http") then
        InsertRun(start + [false] + finally, CcbAttachmentException, NotValidated, Some(false))
      else
        match ValidateProposal(f)
        case Invalid(reason) => InsertRun(start + finally, NoRaise, Refused(reason), None)
        case Valid =>
          InsertRun(start + [false] + finally, NoRaise, if in100Returned then Accepted else AwaitingIn100, Some(true))
  }
}
