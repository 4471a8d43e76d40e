/** What the payroll-deduction handlers (handlers/zetra.py, handlers/facil.py,
    handlers/neoconsig.py) share: the customer's benefit card with its three
    margin slots (purchase, withdrawal and the single margin), which slots a
    margin type reserves, where a reserve number is stored, and the loop
    that reserves the two margins of a unified card one after the other. */
module Averbadoras {
  import opened Common
  import opened Codes

  /** The card fields the handlers read and write. Amounts are in cents;
      every field may be unset. */
  datatype BenefitCard = BenefitCard(
    tipoMargem: Option<int>,
    margemCompra: Option<int>, margemSaque: Option<int>, margemAtual: Option<int>,
    verbaCompra: Option<string>, verbaSaque: Option<string>, verba: Option<string>,
    folhaCompra: Option<string>, folhaSaque: Option<string>, folha: Option<string>,
    reservaCompra: Option<string>, reservaSaque: Option<string>, reserva: Option<string>)

  /** One margin to reserve or cancel: its type and the amount, service
      code (verba), payroll code (folha) and reserve number it uses. */
  datatype Slot = Slot(kind: int, valor: Option<int>, verba: Option<string>, folha: Option<string>,
                       reserva: Option<string>)

  /** The margin types that own a slot of their own. */
  const SLOT_KINDS: set<int> := {MARGEM_COMPRA, MARGEM_SAQUE, MARGEM_UNICA}

  /** The purchase, withdrawal or single-margin fields of the card. */
  function SlotOf(card: BenefitCard, kind: int): (r: Slot)
    requires kind in SLOT_KINDS
    ensures r.kind == kind
    ensures kind == MARGEM_COMPRA ==>
      r.valor == card.margemCompra && r.verba == card.verbaCompra && r.folha == card.folhaCompra
      && r.reserva == card.reservaCompra
    ensures kind == MARGEM_SAQUE ==>
      r.valor == card.margemSaque && r.verba == card.verbaSaque && r.folha == card.folhaSaque
      && r.reserva == card.reservaSaque
    ensures kind == MARGEM_UNICA ==>
      r.valor == card.margemAtual && r.verba == card.verba && r.folha == card.folha && r.reserva == card.reserva
  {
    if kind == MARGEM_COMPRA then
      Slot(kind, card.margemCompra, card.verbaCompra, card.folhaCompra, card.reservaCompra)
    else if kind == MARGEM_SAQUE then
      Slot(kind, card.margemSaque, card.verbaSaque, card.folhaSaque, card.reservaSaque)
    else Slot(kind, card.margemAtual, card.verba, card.folha, card.reserva)
  }

  /** The margins a card's type reserves: purchase then withdrawal for a
      unified card, the one slot of a purchase, withdrawal or single
      margin, and none for any other type. */
  function SlotsToReserve(card: BenefitCard): (r: seq<Slot>)
    ensures card.tipoMargem == Some(MARGEM_UNIFICADA) ==>
      r == [SlotOf(card, MARGEM_COMPRA), SlotOf(card, MARGEM_SAQUE)]
    ensures card.tipoMargem.Some? && card.tipoMargem.value in SLOT_KINDS ==>
      r == [SlotOf(card, card.tipoMargem.value)]
    ensures |r| == 0 <==> !(card.tipoMargem.Some? && card.tipoMargem.value in SLOT_KINDS + {MARGEM_UNIFICADA})
  {
    if card.tipoMargem == Some(MARGEM_UNIFICADA) then [SlotOf(card, MARGEM_COMPRA), SlotOf(card, MARGEM_SAQUE)]
    else if card.tipoMargem.Some? && card.tipoMargem.value in SLOT_KINDS then [SlotOf(card, card.tipoMargem.value)]
    else []
  }

  /** Stores a reserve number in the slot of its margin type. */
  function StoreReserve(card: BenefitCard, kind: int, id: string): (r: BenefitCard)
    requires kind in SLOT_KINDS
    ensures SlotOf(r, kind).reserva == Some(id)
    ensures forall k :: k in SLOT_KINDS && k != kind ==> SlotOf(r, k) == SlotOf(card, k)
    ensures SlotOf(r, kind) == SlotOf(card, kind).(reserva := Some(id))
    ensures r.tipoMargem == card.tipoMargem
  {
    if kind == MARGEM_COMPRA then card.(reservaCompra := Some(id))
    else if kind == MARGEM_SAQUE then card.(reservaSaque := Some(id))
    else card.(reserva := Some(id))
  }

  // ---------------------------------------------------------------------
  // The unified reservation loop

  /** One reservation request of the loop and whether its answer was
      stored without raising. */
  datatype Attempt = Attempt(kind: int, ok: bool)

  /** The margins the loop reserved and cancelled, in order, and whether
      the reservation record it returns is a success. */
  datatype Run = Run(reserved: seq<int>, cancelled: seq<int>, success: bool)

  /** The margins still held after the run. */
  function Held(r: Run): set<int> {
    set k | k in r.reserved && k !in r.cancelled
  }

  function Kinds(attempts: seq<Attempt>): (r: seq<int>)
    ensures |r| == |attempts| && forall i :: 0 <= i < |r| ==> r[i] == attempts[i].kind
  {
    seq(|attempts|, (i: int) requires 0 <= i < |attempts| => attempts[i].kind)
  }

  /** The loop of `_margin_reserve_unified` (zetra) and of the unified
      branch of `realiza_reserva` (facil) as written: a failed request
      cancels every margin reserved so far, and the loop goes on with the
      next margin; the record returned is the last request's. */
  function ReserveLoopAsWritten(attempts: seq<Attempt>, reserved: seq<int>, cancelled: seq<int>, lastOk: bool)
    : (r: Run)
    ensures (forall k :: k in cancelled ==> k in reserved) ==> forall k :: k in r.cancelled ==> k in r.reserved
    ensures r.success == (if |attempts| == 0 then lastOk else attempts[|attempts| - 1].ok)
    ensures forall k :: k in r.reserved ==> k in reserved || k in Kinds(attempts)
    decreases |attempts|
  {
    if |attempts| == 0 then Run(reserved, cancelled, lastOk)
    else
      assert forall k :: k in Kinds(attempts[1..]) ==> k in Kinds(attempts);
      if attempts[0].ok then ReserveLoopAsWritten(attempts[1..], reserved + [attempts[0].kind], cancelled, true)
      else ReserveLoopAsWritten(attempts[1..], reserved, cancelled + reserved, false)
  }

  /** The loop stopping at the first failed request, after cancelling
      every margin reserved before it. */
  function ReserveLoop(attempts: seq<Attempt>, reserved: seq<int>): (r: Run)
    ensures r.success <==> forall i :: 0 <= i < |attempts| ==> attempts[i].ok
    ensures !r.success ==> r.cancelled == r.reserved
    ensures r.success ==> r.cancelled == []
    decreases |attempts|
  {
    if |attempts| == 0 then Run(reserved, [], true)
    else if attempts[0].ok then
      var r := ReserveLoop(attempts[1..], reserved + [attempts[0].kind]);
      assert forall i :: 1 <= i < |attempts| ==> attempts[i] == attempts[1..][i - 1];
      r
    else Run(reserved, reserved, false)
  }

  /** A successful loop reserved exactly the requested margins, in order. */
  lemma {:induction false} ReserveLoopReservesAll(attempts: seq<Attempt>, reserved: seq<int>)
    requires ReserveLoop(attempts, reserved).success
    ensures ReserveLoop(attempts, reserved).reserved == reserved + Kinds(attempts)
    decreases |attempts|
  {
    if |attempts| > 0 {
      assert attempts[0].ok;
      ReserveLoopReservesAll(attempts[1..], reserved + [attempts[0].kind]);
      assert Kinds(attempts) == [attempts[0].kind] + Kinds(attempts[1..]);
    }
  }

  /** The unified card's requests: purchase first, then withdrawal. */
  function UnifiedAttempts(compraOk: bool, saqueOk: bool): seq<Attempt> {
    [Attempt(MARGEM_COMPRA, compraOk), Attempt(MARGEM_SAQUE, saqueOk)]
  }

  /** The unified card through the loop as written: the withdrawal
      request alone decides success, and what is held depends on which
      requests went through. */
  function UnifiedReserveAsWritten(compraOk: bool, saqueOk: bool): (r: Run)
    ensures r.success <==> saqueOk
    ensures r.reserved == (if compraOk then [MARGEM_COMPRA] else []) + (if saqueOk then [MARGEM_SAQUE] else [])
    ensures Held(r) == if saqueOk then (if compraOk then {MARGEM_COMPRA, MARGEM_SAQUE} else {MARGEM_SAQUE}) else {}
  {
    var a := UnifiedAttempts(compraOk, saqueOk);
    var first: seq<int> := if compraOk then [MARGEM_COMPRA] else [];
    assert a[1..] == [Attempt(MARGEM_SAQUE, saqueOk)] && a[1..][1..] == [];
    var none: seq<int> := [];
    assert none + [MARGEM_COMPRA] == [MARGEM_COMPRA] && none + none == none;
    assert ReserveLoopAsWritten(a, [], [], false) == ReserveLoopAsWritten(a[1..], first, [], compraOk);
    var r := if saqueOk then Run(first + [MARGEM_SAQUE], [], true) else Run(first, first, false);
    assert ReserveLoopAsWritten(a[1..], first, [], compraOk) == r;
    assert saqueOk && compraOk ==> Held(r) == {MARGEM_COMPRA, MARGEM_SAQUE} by {
      if saqueOk && compraOk { assert r.reserved == [MARGEM_COMPRA, MARGEM_SAQUE]; }
    }
    assert saqueOk && !compraOk ==> Held(r) == {MARGEM_SAQUE} by {
      if saqueOk && !compraOk { assert r.reserved == [MARGEM_SAQUE]; }
    }
    r
  }

  /** As written, a failed withdrawal request cancels the purchase margin
      reserved before it. */
  lemma AsWrittenRollsBackPurchase()
    ensures UnifiedReserveAsWritten(true, false) == Run([MARGEM_COMPRA], [MARGEM_COMPRA], false)
    ensures Held(UnifiedReserveAsWritten(true, false)) == {}
  {
    assert UnifiedReserveAsWritten(true, false).reserved == [MARGEM_COMPRA];
  }

  /** As written, a failed purchase request does not stop the loop: the
      withdrawal margin is reserved and kept, and the returned record is a
      success, though the card's purchase margin was never reserved. */
  lemma AsWrittenKeepsWithdrawalAlone()
    ensures UnifiedReserveAsWritten(false, true) == Run([MARGEM_SAQUE], [], true)
    ensures Held(UnifiedReserveAsWritten(false, true)) == {MARGEM_SAQUE}
  {
    assert UnifiedReserveAsWritten(false, true).reserved == [MARGEM_SAQUE];
  }

  function UnifiedReserve(compraOk: bool, saqueOk: bool): Run {
    ReserveLoop(UnifiedAttempts(compraOk, saqueOk), [])
  }

  /** A unified reservation is all or nothing: both margins are held after
      a success, none after a failure. */
  lemma UnifiedAllOrNothing(compraOk: bool, saqueOk: bool)
    ensures UnifiedReserve(compraOk, saqueOk).success <==> compraOk && saqueOk
    ensures UnifiedReserve(compraOk, saqueOk).success ==>
      Held(UnifiedReserve(compraOk, saqueOk)) == {MARGEM_COMPRA, MARGEM_SAQUE}
    ensures !UnifiedReserve(compraOk, saqueOk).success ==> Held(UnifiedReserve(compraOk, saqueOk)) == {}
  {
    var a := UnifiedAttempts(compraOk, saqueOk);
    assert a[0].ok == compraOk && a[1].ok == saqueOk && |a| == 2;
    if compraOk && saqueOk {
      ReserveLoopReservesAll(a, []);
      assert Kinds(a) == [MARGEM_COMPRA, MARGEM_SAQUE];
    }
  }
}
