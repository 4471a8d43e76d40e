/** The decision part of the Zetra payroll-deduction handler
    (handlers/zetra.py): the margin label of a product and service code,
    which reservation path a card takes, the amount of a single
    reservation, the selection of margins by the convênio's active
    sub-órgãos, the reserve a cancellation uses, and the instalment count
    sent with a reservation. The HTTP answers are inputs. */
module Zetra {
  import opened Common
  import opened Codes
  import opened Averbadoras

  // ---------------------------------------------------------------------
  // determine_tipo_margem

  const VERBA_SAQUE: string := "010"
  const VERBA_COMPRA: string := "009"

  const LABEL_BENEFICIO_SAQUE: string := "Cartão Benefício - Saque"
  const LABEL_BENEFICIO_COMPRA: string := "Cartão Benefício - Compra"
  const LABEL_CONSIGNADO_SAQUE: string := "Cartão Consignado - Saque"
  const LABEL_CONSIGNADO_COMPRA: string := "Cartão Consignado - Compra"

  /** The margin label of a benefit or payroll card and a withdrawal or
      purchase service code; empty for anything else. */
  function MarginLabel(produto: int, verba: string): (r: string)
    ensures r != "" <==> produto in {PRODUTO_CARTAO_BENEFICIO, PRODUTO_CARTAO_CONSIGNADO}
                         && verba in {VERBA_SAQUE, VERBA_COMPRA}
    ensures r in {"", LABEL_BENEFICIO_SAQUE, LABEL_BENEFICIO_COMPRA, LABEL_CONSIGNADO_SAQUE, LABEL_CONSIGNADO_COMPRA}
  {
    if produto == PRODUTO_CARTAO_BENEFICIO && verba == VERBA_SAQUE then LABEL_BENEFICIO_SAQUE
    else if produto == PRODUTO_CARTAO_BENEFICIO && verba == VERBA_COMPRA then LABEL_BENEFICIO_COMPRA
    else if produto == PRODUTO_CARTAO_CONSIGNADO && verba == VERBA_SAQUE then LABEL_CONSIGNADO_SAQUE
    else if produto == PRODUTO_CARTAO_CONSIGNADO && verba == VERBA_COMPRA then LABEL_CONSIGNADO_COMPRA
    else ""
  }

  /** A non-empty label names its product and service code: two inputs with
      the same non-empty label are the same. */
  lemma LabelIdentifiesMargin(p1: int, v1: string, p2: int, v2: string)
    requires MarginLabel(p1, v1) != "" && MarginLabel(p1, v1) == MarginLabel(p2, v2)
    ensures p1 == p2 && v1 == v2
  {
    LabelsDistinct();
  }

  lemma LabelsDistinct()
    ensures LABEL_BENEFICIO_SAQUE != LABEL_BENEFICIO_COMPRA && LABEL_BENEFICIO_SAQUE != LABEL_CONSIGNADO_SAQUE
    ensures LABEL_BENEFICIO_SAQUE != LABEL_CONSIGNADO_COMPRA && LABEL_BENEFICIO_COMPRA != LABEL_CONSIGNADO_SAQUE
    ensures LABEL_BENEFICIO_COMPRA != LABEL_CONSIGNADO_COMPRA && LABEL_CONSIGNADO_SAQUE != LABEL_CONSIGNADO_COMPRA
  {
    assert |LABEL_BENEFICIO_SAQUE| == 24 && |LABEL_CONSIGNADO_COMPRA| == 26;
    assert |LABEL_BENEFICIO_COMPRA| == 25 && |LABEL_CONSIGNADO_SAQUE| == 25;
    assert LABEL_BENEFICIO_COMPRA[8] != LABEL_CONSIGNADO_SAQUE[8];
  }

  // ---------------------------------------------------------------------
  // margin_reserve

  datatype ReservePath = UnifiedPath | SinglePath

  const MSG_NO_CUSTOMER: string := "Cliente não encontrado."
  const MSG_NO_CARD: string := "Cartão benefício do cliente não encontrado."

  /** A missing customer, then a missing card, raises; a unified card takes
      the two-margin path and every other card the single path. */
  function ReserveDispatch(customerFound: bool, card: Option<BenefitCard>): (r: Result<ReservePath>)
    ensures r.Ok? <==> customerFound && card.Some?
    ensures !customerFound ==> r == Err(MSG_NO_CUSTOMER)
    ensures customerFound && card.None? ==> r == Err(MSG_NO_CARD)
    ensures r.Ok? ==> (r.value == UnifiedPath <==> card.value.tipoMargem == Some(MARGEM_UNIFICADA))
  {
    if !customerFound then Err(MSG_NO_CUSTOMER)
    else if card.None? then Err(MSG_NO_CARD)
    else if card.value.tipoMargem == Some(MARGEM_UNIFICADA) then Ok(UnifiedPath)
    else Ok(SinglePath)
  }

  // ---------------------------------------------------------------------
  // _margin_reserve_unique

  /** Python truthiness of an optional amount. */
  predicate Truthy(o: Option<int>) { o.Some? && o.value != 0 }

  /** `float(margem_compra or margem_saque or margem_atual)`: the purchase
      margin when set and non-zero, else the withdrawal margin when set and
      non-zero, else the current margin; an unset current margin then
      raises. */
  function SingleReserveAmount(card: BenefitCard): (r: Result<int>)
    ensures r.Err? <==> !Truthy(card.margemCompra) && !Truthy(card.margemSaque) && card.margemAtual.None?
    ensures Truthy(card.margemCompra) ==> r == Ok(card.margemCompra.value)
    ensures !Truthy(card.margemCompra) && Truthy(card.margemSaque) ==> r == Ok(card.margemSaque.value)
    ensures !Truthy(card.margemCompra) && !Truthy(card.margemSaque) && card.margemAtual.Some? ==>
      r == Ok(card.margemAtual.value)
    ensures r.Ok? && r.value == 0 ==> !Truthy(card.margemCompra) && !Truthy(card.margemSaque)
  {
    if Truthy(card.margemCompra) then Ok(card.margemCompra.value)
    else if Truthy(card.margemSaque) then Ok(card.margemSaque.value)
    else if card.margemAtual.Some? then Ok(card.margemAtual.value)
    else Err("TypeError")
  }

  // ---------------------------------------------------------------------
  // margins_consult: the sub-órgão filter

  /** One entry of the margin list: a margin read for a payroll code, or an
      error the service described. Amounts are in cents. */
  datatype MarginEntry = Margin(folha: string, margem: int, verba: string, tipoMargem: string)
                       | Problem(descricao: string, codigoRetorno: string)

  /** The answer: the selected margins, or an error record with code 400. */
  datatype ConsultAnswer = Margins(rows: seq<MarginEntry>) | ErrorRecord(descricao: string)

  const MSG_NO_ORGAN: string :=
    "A matrícula informada não possui orgão cadastrado, contate o administrador."
  const MSG_NO_MARGIN: string := "A matrícula informada não possui margem para os orgãos cadastrados."

  function MarginsOnFolhas(margins: seq<MarginEntry>, folhas: seq<string>): (r: seq<MarginEntry>)
    ensures forall m :: m in r <==> m in margins && m.Margin? && m.folha in folhas && m.margem != 0
    ensures |r| <= |margins|
  {
    if |margins| == 0 then []
    else
      var m := margins[0];
      (if m.Margin? && m.folha in folhas && m.margem != 0 then [m] else []) + MarginsOnFolhas(margins[1..], folhas)
  }

  /** With the convênio's active payroll codes: the request itself reads
      the first active sub-órgão, so having products but none active
      raises; no active sub-órgão gives the no-organ error; one gives the
      first margin of its payroll code, or that error; several give every
      non-zero margin on an active code, or the no-margin error. */
  function SelectMargins(activeFolhas: seq<string>, margins: seq<MarginEntry>, productCount: nat)
    : (r: Result<ConsultAnswer>)
    ensures r.Err? <==> |activeFolhas| == 0 && productCount > 0
    ensures r.Ok? && r.value.Margins? ==>
      |r.value.rows| > 0 && forall m :: m in r.value.rows ==> m in margins && m.Margin? && m.folha in activeFolhas
    ensures |activeFolhas| == 1 && r.Ok? && r.value.Margins? ==> |r.value.rows| == 1
    ensures |activeFolhas| == 1 ==>
      (r.Ok? && r.value.Margins? <==> exists m :: m in margins && m.Margin? && m.folha == activeFolhas[0])
    ensures |activeFolhas| > 1 ==>
      r.Ok? && (r.value.Margins? <==> exists m :: m in margins && m.Margin? && m.folha in activeFolhas && m.margem != 0)
    ensures |activeFolhas| > 1 && r.Ok? && r.value.Margins? ==>
      forall m :: m in margins && m.Margin? && m.folha in activeFolhas && m.margem != 0 ==> m in r.value.rows
  {
    if |activeFolhas| == 0 then
      if productCount > 0 then Err("AttributeError") else Ok(ErrorRecord(MSG_NO_ORGAN))
    else if |activeFolhas| == 1 then
      match FirstIndex(margins, (m: MarginEntry) => m.Margin? && m.folha == activeFolhas[0])
      case Some(i) => Ok(Margins([margins[i]]))
      case None => Ok(ErrorRecord(MSG_NO_ORGAN))
    else
      var rows := MarginsOnFolhas(margins, activeFolhas);
      if |rows| > 0 then
        assert forall m :: m in rows ==> m in margins && m.Margin? && m.folha in activeFolhas;
        assert rows[0] in rows;
        Ok(Margins(rows))
      else
        assert forall m :: m in margins && m.Margin? && m.folha in activeFolhas && m.margem != 0 ==> m in rows;
        Ok(ErrorRecord(MSG_NO_MARGIN))
  }

  /** A zero margin is dropped when several sub-órgãos are active, but kept
      when it is the only one's. */
  lemma ZeroMarginKeptForSingleOrgan(folha: string, verba: string, tipo: string)
    ensures SelectMargins([folha], [Margin(folha, 0, verba, tipo)], 1) == Ok(Margins([Margin(folha, 0, verba, tipo)]))
    ensures folha != "" ==>
      SelectMargins([folha, ""], [Margin(folha, 0, verba, tipo)], 1) == Ok(ErrorRecord(MSG_NO_MARGIN))
  {
    var m := Margin(folha, 0, verba, tipo);
    assert FirstIndex([m], (x: MarginEntry) => x.Margin? && x.folha == folha) == Some(0);
  }

  // ---------------------------------------------------------------------
  // margin_reserve_cancel and the reservation payload

  /** The reserve a cancellation sends: the purchase one for 'compra', the
      withdrawal one for 'saque', and the single reserve otherwise. */
  function CancelReserve(card: BenefitCard, marginReservedType: string): (r: Option<string>)
    ensures marginReservedType == "compra" ==> r == SlotOf(card, MARGEM_COMPRA).reserva
    ensures marginReservedType == "saque" ==> r == SlotOf(card, MARGEM_SAQUE).reserva
    ensures marginReservedType !in {"compra", "saque"} ==> r == SlotOf(card, MARGEM_UNICA).reserva
  {
    if marginReservedType == "compra" then card.reservaCompra
    else if marginReservedType == "saque" then card.reservaSaque
    else card.reserva
  }

  /** A cancellation right after storing a reserve number sends that number
      back, whichever slot it went to. */
  lemma CancelSendsStoredReserve(card: BenefitCard, kind: int, id: string)
    requires kind in SLOT_KINDS
    ensures CancelReserve(StoreReserve(card, kind, id),
                          if kind == MARGEM_COMPRA then "compra" else if kind == MARGEM_SAQUE then "saque" else "")
            == Some(id)
  {
  }

  const ORIGIN_DIGIMAIS: string := "DIGIMAIS"

  /** The `qtaParcela` field of the reservation request: sent only for the
      DIGIMAIS origin, where an unset count raises. */
  function QtaParcelaField(origin: string, qtaParcela: Option<int>): (r: Result<Option<int>>)
    ensures r.Ok? && r.value.Some? <==> origin == ORIGIN_DIGIMAIS && qtaParcela.Some?
    ensures r.Err? <==> origin == ORIGIN_DIGIMAIS && qtaParcela.None?
    ensures r.Ok? && r.value.Some? ==> r.value == qtaParcela
  {
    if origin != ORIGIN_DIGIMAIS then Ok(None)
    else if qtaParcela.None? then Err("TypeError")
    else Ok(qtaParcela)
  }
}
