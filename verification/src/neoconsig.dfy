/** The decision part of the Neoconsig payroll-deduction handler
    (handlers/neoconsig.py): the margin listing, the reserve request and
    its confirmation with the card fields they write, the margins a
    reservation runs through and the reserves a cancellation sends. The
    service's answers are inputs, as maps from key to text. */
module Neoconsig {
  import opened Common
  import opened Codes
  import opened Averbadoras

  // ---------------------------------------------------------------------
  // margins_consult

  /** The keys every listed margin gains, all blank. */
  const BLANK_KEYS: set<string> := {"nome", "cargo", "nascimento", "estavel_bool", "cliente", "idProduto"}

  /** An item of a list answer: an object, or any other JSON value. */
  datatype Item = Mapping(fields: map<string, string>) | Scalar

  /** The answer: one object, or a list. */
  datatype ListingAnswer = Object(fields: map<string, string>) | List(items: seq<Item>)

  datatype Listing = ListingError(descricao: string, codigoRetorno: string) | Rows(rows: seq<map<string, string>>)

  /** `{**margin, 'nome': '', ...}`: the item's keys with the six blank
      keys written over them. */
  function WithBlanks(m: map<string, string>): (r: map<string, string>)
    ensures r.Keys == m.Keys + BLANK_KEYS
    ensures forall k :: k in BLANK_KEYS ==> r[k] == ""
    ensures forall k :: k in m && k !in BLANK_KEYS ==> r[k] == m[k]
  {
    map k | k in m.Keys + BLANK_KEYS :: if k in BLANK_KEYS then "" else m[k]
  }

  predicate AllMappings(items: seq<Item>) {
    forall i :: 0 <= i < |items| ==> items[i].Mapping?
  }

  /** An object with 'descricao' is the service's error (raising when
      'codigoRetorno' is missing); a list of objects becomes the rows, and
      so does an empty object, which iterates as no item; any other answer
      fails inside the comprehension and is reported with
      code '500' and the message `failure`. */
  function MarginsConsult(answer: ListingAnswer, failure: string): (r: Result<Listing>)
    ensures r.Err? <==> answer.Object? && "descricao" in answer.fields && "codigoRetorno" !in answer.fields
    ensures r.Ok? && r.value.Rows? <==>
      (answer.List? && AllMappings(answer.items)) || (answer.Object? && answer.fields == map[])
    ensures r.Ok? && r.value.Rows? && answer.List? ==>
      (|r.value.rows| == |answer.items|
       && forall i :: 0 <= i < |r.value.rows| ==> r.value.rows[i] == WithBlanks(answer.items[i].fields))
    ensures r.Ok? && r.value.ListingError? && !(answer.Object? && "descricao" in answer.fields) ==>
      r.value == ListingError(failure, "500")
  {
    match answer
    case Object(fields) =>
      if "descricao" in fields then
        if "codigoRetorno" in fields then Ok(ListingError(fields["descricao"], fields["codigoRetorno"])) else Err("KeyError")
      else if |fields| == 0 then Ok(Rows([]))
      else Ok(ListingError(failure, "500"))
    case List(items) =>
      if AllMappings(items) then
        Ok(Rows(seq(|items|, (i: int) requires 0 <= i < |items| && AllMappings(items) => WithBlanks(items[i].fields))))
      else Ok(ListingError(failure, "500"))
  }

  // ---------------------------------------------------------------------
  // margins_to_reserve and margins_to_cancel

  /** The margins `margin_reserve_and_confirmation` reserves: purchase and
      withdrawal for a unified card, else the one margin of its type. */
  function MarginsToReserve(card: BenefitCard): (r: seq<Slot>)
    ensures r == SlotsToReserve(card)
  {
    if card.tipoMargem == Some(MARGEM_UNIFICADA) then
      [Slot(MARGEM_COMPRA, card.margemCompra, card.verbaCompra, card.folhaCompra, card.reservaCompra),
       Slot(MARGEM_SAQUE, card.margemSaque, card.verbaSaque, card.folhaSaque, card.reservaSaque)]
    else if card.tipoMargem == Some(MARGEM_SAQUE) then
      [Slot(MARGEM_SAQUE, card.margemSaque, card.verbaSaque, card.folhaSaque, card.reservaSaque)]
    else if card.tipoMargem == Some(MARGEM_COMPRA) then
      [Slot(MARGEM_COMPRA, card.margemCompra, card.verbaCompra, card.folhaCompra, card.reservaCompra)]
    else if card.tipoMargem == Some(MARGEM_UNICA) then
      [Slot(MARGEM_UNICA, card.margemAtual, card.verba, card.folha, card.reserva)]
    else []
  }

  /** The (registration, reserve) pairs `cancel_margin_reserve` sends. */
  function MarginsToCancel(card: BenefitCard, matricula: Option<string>): seq<(Option<string>, Option<string>)> {
    if card.tipoMargem == Some(MARGEM_UNIFICADA) then [(matricula, card.reservaCompra), (matricula, card.reservaSaque)]
    else if card.tipoMargem == Some(MARGEM_SAQUE) then [(matricula, card.reservaSaque)]
    else if card.tipoMargem == Some(MARGEM_COMPRA) then [(matricula, card.reservaCompra)]
    else if card.tipoMargem == Some(MARGEM_UNICA) then [(matricula, card.reserva)]
    else []
  }

  /** A cancellation sends, in order, the reserve of every margin a
      reservation of the same card runs through. */
  lemma CancelMirrorsReserve(card: BenefitCard, matricula: Option<string>)
    ensures |MarginsToCancel(card, matricula)| == |MarginsToReserve(card)|
    ensures forall i :: 0 <= i < |MarginsToCancel(card, matricula)| ==>
      MarginsToCancel(card, matricula)[i] == (matricula, MarginsToReserve(card)[i].reserva)
  {
  }

  // ---------------------------------------------------------------------
  // margin_reserve

  const MSG_NO_CONTRACT_ID: string := "Id de contrato não identificado ao realizar reserva de margem."

  /** What a reserve or confirmation call returns: an error record, or the
      card with the slot as updated. */
  datatype ReserveOutcome = ErrorRecord(descricao: string, codigoRetorno: string)
                          | Reserved(card: BenefitCard, slot: Slot)

  /** `margin_reserve`: the service's error is recorded (raising without
      'codigoRetorno'); an answer without 'idContrato' is recorded with code
      '500'; otherwise the id is stored as the reserve of the slot's type,
      on the card and in the slot. */
  function MarginReserve(card: BenefitCard, slot: Slot, answer: map<string, string>): (r: Result<ReserveOutcome>)
    requires slot.kind in SLOT_KINDS
    ensures r.Err? <==> "descricao" in answer && "codigoRetorno" !in answer
    ensures r.Ok? && "descricao" in answer ==> r.value == ErrorRecord(answer["descricao"], answer["codigoRetorno"])
    ensures "descricao" !in answer && "idContrato" !in answer ==> r == Ok(ErrorRecord(MSG_NO_CONTRACT_ID, "500"))
    ensures r.Ok? && r.value.Reserved? ==>
      "idContrato" in answer
      && SlotOf(r.value.card, slot.kind).reserva == Some(answer["idContrato"])
      && (forall k :: k in SLOT_KINDS && k != slot.kind ==> SlotOf(r.value.card, k) == SlotOf(card, k))
      && r.value.slot == slot.(reserva := Some(answer["idContrato"]))
  {
    if "descricao" in answer then
      if "codigoRetorno" in answer then Ok(ErrorRecord(answer["descricao"], answer["codigoRetorno"])) else Err("KeyError")
    else if "idContrato" !in answer then Ok(ErrorRecord(MSG_NO_CONTRACT_ID, "500"))
    else
      var id := answer["idContrato"];
      Ok(Reserved(StoreReserve(card, slot.kind, id), slot.(reserva := Some(id))))
  }

  // ---------------------------------------------------------------------
  // margin_reserve_confirm

  /** Writes a whole slot of the card. */
  function WithSlot(card: BenefitCard, s: Slot): (r: BenefitCard)
    requires s.kind in SLOT_KINDS
    ensures SlotOf(r, s.kind) == s
    ensures forall k :: k in SLOT_KINDS && k != s.kind ==> SlotOf(r, k) == SlotOf(card, k)
    ensures r.tipoMargem == card.tipoMargem
  {
    if s.kind == MARGEM_COMPRA then
      card.(margemCompra := s.valor, verbaCompra := s.verba, folhaCompra := s.folha, reservaCompra := s.reserva)
    else if s.kind == MARGEM_SAQUE then
      card.(margemSaque := s.valor, verbaSaque := s.verba, folhaSaque := s.folha, reservaSaque := s.reserva)
    else card.(margemAtual := s.valor, verba := s.verba, folha := s.folha, reserva := s.reserva)
  }

  /** `margin_reserve_confirm`: the service's error is recorded; without
      'idContrato' the handler's own error path looks up 'descricao' again
      and raises; otherwise the slot of the margin's type takes the
      margin's amount and service code, the agreement code as payroll code
      and the confirmed id as reserve. */
  function MarginReserveConfirm(card: BenefitCard, slot: Slot, codConvenio: string, answer: map<string, string>)
    : (r: Result<ReserveOutcome>)
    requires slot.kind in SLOT_KINDS
    ensures r.Err? <==> ("descricao" in answer && "codigoRetorno" !in answer)
                        || ("descricao" !in answer && "idContrato" !in answer)
    ensures r.Ok? && "descricao" in answer ==> r.value == ErrorRecord(answer["descricao"], answer["codigoRetorno"])
    ensures r.Ok? && "descricao" !in answer ==>
      r.value.Reserved? && "idContrato" in answer
      && SlotOf(r.value.card, slot.kind) == Slot(slot.kind, slot.valor, slot.verba, Some(codConvenio), Some(answer["idContrato"]))
      && (forall k :: k in SLOT_KINDS && k != slot.kind ==> SlotOf(r.value.card, k) == SlotOf(card, k))
  {
    if "descricao" in answer then
      if "codigoRetorno" in answer then Ok(ErrorRecord(answer["descricao"], answer["codigoRetorno"])) else Err("KeyError")
    else if "idContrato" !in answer then Err("KeyError")
    else
      var s := Slot(slot.kind, slot.valor, slot.verba, Some(codConvenio), Some(answer["idContrato"]));
      Ok(Reserved(WithSlot(card, s), s))
  }

  // ---------------------------------------------------------------------
  // margin_reserve_and_confirmation

  /** The answers for one margin of the loop: the reserve call's error
      description, if it recorded one, and the confirmation's. */
  datatype Step = Step(kind: int, reserveError: Option<string>, confirmError: Option<string>)

  /** A record's `descricao` is truthy. */
  predicate Failed(e: Option<string>) { e.Some? && e.value != "" }

  /** What the loop returns: nothing (no margin to reserve), an error
      record, or the last confirmation of the given margin. */
  datatype LoopResult = NoRecord | ErrorResult(descricao: string) | Confirmed(kind: int)

  /** The margins whose confirmation the loop accepted, whether it called
      `cancel_margin_reserve`, and the record returned. */
  datatype ConfirmRun = ConfirmRun(confirmed: seq<int>, cancelled: bool, result: LoopResult)

  function StepKinds(steps: seq<Step>): (r: seq<int>)
    ensures |r| == |steps| && forall i :: 0 <= i < |r| ==> r[i] == steps[i].kind
  {
    if |steps| == 0 then [] else [steps[0].kind] + StepKinds(steps[1..])
  }

  function ConfirmResult(s: Step): LoopResult {
    if Failed(s.confirmError) then ErrorResult(s.confirmError.value) else Confirmed(s.kind)
  }

  /** The loop as written: a reserve error returns at once; the second
      test, meant for the confirmation, tests the reserve answer again, so
      a failed confirmation neither cancels nor stops the loop, and the
      next margin's confirmation replaces it. */
  function ReserveAndConfirmAsWritten(steps: seq<Step>, confirmed: seq<int>, last: LoopResult): (r: ConfirmRun)
    ensures !r.cancelled
    ensures |steps| > 0 && Failed(steps[0].reserveError) ==> r == ConfirmRun(confirmed, false, ErrorResult(steps[0].reserveError.value))
    decreases |steps|
  {
    if |steps| == 0 then ConfirmRun(confirmed, false, last)
    else if Failed(steps[0].reserveError) then ConfirmRun(confirmed, false, ErrorResult(steps[0].reserveError.value))
    else
      var s := steps[0];
      ReserveAndConfirmAsWritten(steps[1..], confirmed + (if Failed(s.confirmError) then [] else [s.kind]), ConfirmResult(s))
  }

  /** The loop with the second test on the confirmation: a failed
      confirmation cancels the card's reserves and is returned. */
  function ReserveAndConfirm(steps: seq<Step>, confirmed: seq<int>, last: LoopResult): (r: ConfirmRun)
    ensures r.cancelled ==> r.result.ErrorResult?
    ensures r.result.Confirmed? ==> forall i :: 0 <= i < |steps| ==> !Failed(steps[i].reserveError) && !Failed(steps[i].confirmError)
    ensures (forall i :: 0 <= i < |steps| ==> !Failed(steps[i].reserveError) && !Failed(steps[i].confirmError)) ==>
      !r.cancelled && r.confirmed == confirmed + StepKinds(steps)
      && r.result == (if |steps| == 0 then last else Confirmed(steps[|steps| - 1].kind))
    decreases |steps|
  {
    if |steps| == 0 then ConfirmRun(confirmed, false, last)
    else if Failed(steps[0].reserveError) then ConfirmRun(confirmed, false, ErrorResult(steps[0].reserveError.value))
    else if Failed(steps[0].confirmError) then ConfirmRun(confirmed, true, ErrorResult(steps[0].confirmError.value))
    else
      var s := steps[0];
      var r := ReserveAndConfirm(steps[1..], confirmed + [s.kind], Confirmed(s.kind));
      assert forall i :: 1 <= i < |steps| ==> steps[i] == steps[1..][i - 1];
      r
  }

  /** A failed confirmation is returned and cancels the reserves. */
  lemma {:induction false} FailedConfirmationCancels(steps: seq<Step>, confirmed: seq<int>, last: LoopResult, j: nat)
    requires j < |steps| && Failed(steps[j].confirmError)
    requires forall i :: 0 <= i <= j ==> !Failed(steps[i].reserveError)
    requires forall i :: 0 <= i < j ==> !Failed(steps[i].confirmError)
    ensures ReserveAndConfirm(steps, confirmed, last)
      == ConfirmRun(confirmed + StepKinds(steps[..j]), true, ErrorResult(steps[j].confirmError.value))
    decreases j
  {
    if j > 0 {
      FailedConfirmationCancels(steps[1..], confirmed + [steps[0].kind], Confirmed(steps[0].kind), j - 1);
      assert steps[1..][..j - 1] == steps[..j][1..];
    }
  }

  /** The steps of a unified card: purchase first, both reserves
      accepted. */
  function UnifiedSteps(compraConfirm: Option<string>, saqueConfirm: Option<string>): seq<Step> {
    [Step(MARGEM_COMPRA, None, compraConfirm), Step(MARGEM_SAQUE, None, saqueConfirm)]
  }

  /** As written, a unified card whose purchase confirmation fails and
      whose withdrawal confirmation succeeds comes back as a success with
      nothing cancelled; the corrected loop cancels and returns the
      purchase error. */
  lemma FailedPurchaseConfirmationHidden(e: string)
    requires e != ""
    ensures ReserveAndConfirmAsWritten(UnifiedSteps(Some(e), None), [], NoRecord)
      == ConfirmRun([MARGEM_SAQUE], false, Confirmed(MARGEM_SAQUE))
    ensures ReserveAndConfirm(UnifiedSteps(Some(e), None), [], NoRecord) == ConfirmRun([], true, ErrorResult(e))
  {
    var steps := UnifiedSteps(Some(e), None);
    assert steps[1..] == [Step(MARGEM_SAQUE, None, None)];
    assert steps[1..][1..] == [];
    assert ReserveAndConfirmAsWritten(steps[1..], [], ErrorResult(e))
      == ReserveAndConfirmAsWritten([], [] + [MARGEM_SAQUE], Confirmed(MARGEM_SAQUE));
    assert ReserveAndConfirmAsWritten(steps, [], NoRecord) == ReserveAndConfirmAsWritten(steps[1..], [] + [], ErrorResult(e));
  }
}
