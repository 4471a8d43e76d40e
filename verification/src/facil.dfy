/** The decision part of the Fácil payroll-deduction handler
    (handlers/facil.py): the registration lookup and its result codes, the
    margin a reservation uses and where its reserve number is kept, the
    reserves a cancellation sends, and the shape of a consignment answer.
    The service's answers are inputs; the unified reservation loop is the
    one of `Averbadoras`. */
module Facil {
  import opened Common
  import opened Codes
  import opened Averbadoras

  // ---------------------------------------------------------------------
  // consulta_matricula

  const ERRO_CONSULTA: string := "Erro_Consulta"
  const ERRO_FILTRAR: string := "Erro_Filtrar"
  const ERRO_MATRICULA_NAO_ENCONTRADA: string := "Erro_Matricula_Nao_Encontrada"
  const SUBORGAO_VAZIO: string := "SubOrgao_Vazio"
  const CONSIGNACAO_ATIVA: string := "Consignacao_Ativa"
  const MATRICULAS_INVALIDAS: string := "Matriculas_Invalidas"

  /** One registration of the answer; `numeroMatricula` is `None` when the
      item lacks that key. */
  datatype Registration = Registration(numeroMatricula: Option<string>, folha: string)

  /** The answer body: an object with an `error` key, another object (with
      that many keys), or a list of registrations. */
  datatype LookupResponse = DictWithError | OtherDict(size: nat) | Items(items: seq<Registration>)

  /** What the consignment query answers for a registration: an error it
      describes, a consignment with its amount (in cents), or a failure
      that raises. */
  datatype ConsAnswer = ConsError(descricao: string, codigoRetorno: string) | Consignment(valor: int) | ConsRaises

  /** The pair the lookup returns: the valid registrations and an error
      code (`None` on success). */
  datatype LookupResult = LookupResult(rows: seq<Registration>, code: Option<string>)

  /** The registrations carrying the requested number, or `None` when some
      item lacks the key and the filter raises. */
  function Matching(items: seq<Registration>, matricula: string): (r: Option<seq<Registration>>)
    ensures r.None? <==> exists i :: 0 <= i < |items| && items[i].numeroMatricula.None?
    ensures r.Some? ==> forall x :: x in r.value <==> x in items && x.numeroMatricula == Some(matricula)
  {
    if |items| == 0 then Some([])
    else if items[0].numeroMatricula.None? then None
    else
      match Matching(items[1..], matricula)
      case None =>
        assert exists i :: 0 <= i < |items[1..]| && items[1..][i].numeroMatricula.None?;
        None
      case Some(rest) =>
        assert forall i :: 1 <= i < |items| ==> items[i] == items[1..][i - 1];
        Some((if items[0].numeroMatricula == Some(matricula) then [items[0]] else []) + rest)
  }

  /** The scan of the matching registrations as written: the consignment
      test reads an attribute a dictionary never has, so every
      registration on an active payroll code is kept; a raising query
      aborts the scan. */
  function ScanAsWritten(regs: seq<Registration>, activeFolhas: seq<string>, consult: string -> ConsAnswer)
    : (r: Result<seq<Registration>>)
    ensures r.Ok? ==> forall x :: x in r.value <==> x in regs && x.folha in activeFolhas
  {
    if |regs| == 0 then Ok([])
    else if regs[0].folha in activeFolhas && consult(regs[0].folha).ConsRaises? then Err("raised")
    else
      match ScanAsWritten(regs[1..], activeFolhas, consult)
      case Err(m) => Err(m)
      case Ok(rest) =>
        assert forall i :: 1 <= i < |regs| ==> regs[i] == regs[1..][i - 1];
        Ok((if regs[0].folha in activeFolhas then [regs[0]] else []) + rest)
  }

  function ConsultaMatriculaAsWritten(response: LookupResponse, matricula: string, activeFolhas: seq<string>,
                                    consult: string -> ConsAnswer): (r: LookupResult)
    ensures r.code.None? ==> |r.rows| > 0
    ensures r.code.Some? ==> r.rows == []
    ensures r.code != Some(CONSIGNACAO_ATIVA)
  {
    match response
    case DictWithError => LookupResult([], Some(ERRO_CONSULTA))
    case OtherDict(n) =>
      if n == 0 then LookupResult([], Some(ERRO_MATRICULA_NAO_ENCONTRADA)) else LookupResult([], Some(ERRO_FILTRAR))
    case Items(items) =>
      match Matching(items, matricula)
      case None => LookupResult([], Some(ERRO_FILTRAR))
      case Some(found) =>
        if |found| == 0 then LookupResult([], Some(ERRO_MATRICULA_NAO_ENCONTRADA))
        else if |activeFolhas| == 0 then LookupResult([], Some(SUBORGAO_VAZIO))
        else match ScanAsWritten(found, activeFolhas, consult)
          case Err(_) => LookupResult([], Some(ERRO_CONSULTA))
          case Ok(valid) => if |valid| == 0 then LookupResult([], Some(MATRICULAS_INVALIDAS)) else LookupResult(valid, None)
  }

  /** The outcome of the corrected scan. */
  datatype ScanOutcome = Raised | ActiveConsignment | Valid(rows: seq<Registration>)

  /** A consignment with a non-zero amount and no error description. */
  predicate IsActive(a: ConsAnswer) { a.Consignment? && a.valor != 0 }

  /** The scan as evidently intended: the first registration on an active
      payroll code whose query shows an active consignment stops it. */
  function ScanRegistrations(regs: seq<Registration>, activeFolhas: seq<string>, consult: string -> ConsAnswer): (r: ScanOutcome)
    ensures r.Valid? ==> forall x :: x in r.rows <==> x in regs && x.folha in activeFolhas
    ensures r.Valid? ==> forall x :: x in regs && x.folha in activeFolhas ==> !IsActive(consult(x.folha))
    ensures r == ActiveConsignment ==> exists x :: x in regs && x.folha in activeFolhas && IsActive(consult(x.folha))
  {
    if |regs| == 0 then Valid([])
    else if regs[0].folha in activeFolhas && consult(regs[0].folha).ConsRaises? then Raised
    else if regs[0].folha in activeFolhas && IsActive(consult(regs[0].folha)) then ActiveConsignment
    else
      var rest := ScanRegistrations(regs[1..], activeFolhas, consult);
      assert forall i :: 1 <= i < |regs| ==> regs[i] == regs[1..][i - 1];
      match rest
      case Valid(rows) => Valid((if regs[0].folha in activeFolhas then [regs[0]] else []) + rows)
      case ActiveConsignment =>
        assert exists x :: x in regs[1..] && x.folha in activeFolhas && IsActive(consult(x.folha));
        ActiveConsignment
      case Raised => Raised
  }

  function ConsultaMatricula(response: LookupResponse, matricula: string, activeFolhas: seq<string>,
                           consult: string -> ConsAnswer): (r: LookupResult)
    ensures r.code.None? ==> |r.rows| > 0
    ensures r.code.Some? ==> r.rows == []
    ensures r.code.None? ==> forall x :: x in r.rows ==> x.numeroMatricula == Some(matricula) && x.folha in activeFolhas
    ensures r.code.None? ==> forall x :: x in r.rows ==> !IsActive(consult(x.folha))
    ensures r.code == Some(CONSIGNACAO_ATIVA) ==>
      response.Items? && exists x :: x in response.items && x.numeroMatricula == Some(matricula)
                                     && x.folha in activeFolhas && IsActive(consult(x.folha))
  {
    match response
    case DictWithError => LookupResult([], Some(ERRO_CONSULTA))
    case OtherDict(n) =>
      if n == 0 then LookupResult([], Some(ERRO_MATRICULA_NAO_ENCONTRADA)) else LookupResult([], Some(ERRO_FILTRAR))
    case Items(items) =>
      match Matching(items, matricula)
      case None => LookupResult([], Some(ERRO_FILTRAR))
      case Some(found) =>
        if |found| == 0 then LookupResult([], Some(ERRO_MATRICULA_NAO_ENCONTRADA))
        else if |activeFolhas| == 0 then LookupResult([], Some(SUBORGAO_VAZIO))
        else match ScanRegistrations(found, activeFolhas, consult)
          case Raised => LookupResult([], Some(ERRO_CONSULTA))
          case ActiveConsignment => LookupResult([], Some(CONSIGNACAO_ATIVA))
          case Valid(valid) => if |valid| == 0 then LookupResult([], Some(MATRICULAS_INVALIDAS)) else LookupResult(valid, None)
  }

  /** Where no registration on an active code has an active consignment,
      the written and the corrected lookups agree. */
  lemma {:induction false} LookupVersionsAgree(response: LookupResponse, matricula: string, activeFolhas: seq<string>,
                                               consult: string -> ConsAnswer)
    requires forall f :: f in activeFolhas ==> !IsActive(consult(f))
    ensures ConsultaMatriculaAsWritten(response, matricula, activeFolhas, consult) == ConsultaMatricula(response, matricula, activeFolhas, consult)
  {
    if response.Items? && Matching(response.items, matricula).Some? {
      ScansAgree(Matching(response.items, matricula).value, activeFolhas, consult);
    }
  }

  lemma {:induction false} ScansAgree(regs: seq<Registration>, activeFolhas: seq<string>, consult: string -> ConsAnswer)
    requires forall f :: f in activeFolhas ==> !IsActive(consult(f))
    ensures ScanAsWritten(regs, activeFolhas, consult).Err? <==> ScanRegistrations(regs, activeFolhas, consult) == Raised
    ensures ScanAsWritten(regs, activeFolhas, consult).Ok? ==>
      ScanRegistrations(regs, activeFolhas, consult) == Valid(ScanAsWritten(regs, activeFolhas, consult).value)
  {
    if |regs| > 0 {
      ScansAgree(regs[1..], activeFolhas, consult);
    }
  }

  /** As written, a registration with an active consignment is returned as
      valid; the corrected lookup reports the active consignment. */
  lemma AsWrittenMissesActiveConsignment(matricula: string, folha: string)
    ensures var reg := Registration(Some(matricula), folha);
      var consult := (f: string) => Consignment(100);
      ConsultaMatriculaAsWritten(Items([reg]), matricula, [folha], consult) == LookupResult([reg], None)
      && ConsultaMatricula(Items([reg]), matricula, [folha], consult) == LookupResult([], Some(CONSIGNACAO_ATIVA))
  {
    var reg := Registration(Some(matricula), folha);
    var consult := (f: string) => Consignment(100);
    assert [reg][1..] == [];
    assert Matching([], matricula) == Some([]);
    assert Matching([reg], matricula) == Some([reg] + []);
    assert [reg] + [] == [reg];
    assert ScanAsWritten([reg], [folha], consult) == Ok([reg]);
    assert ScanRegistrations([reg], [folha], consult) == ActiveConsignment;
  }

  // ---------------------------------------------------------------------
  // consulta_consignacoes

  const CONSIGNMENT_KEYS: seq<string> := ["codigoOperacao", "valor", "valorLiberado", "codigoOperacaoInstituicao",
                                          "verba", "prazoRestante", "dataConsignacao"]

  /** The result: an error pair, or the consignment's seven fields in the
      order of `CONSIGNMENT_KEYS`. */
  datatype ConsignmentResult = ErrorPair(descricao: string, codigoRetorno: string) | Fields(values: seq<string>)

  /** An answer holding 'descricao' is an error pair; any other answer is
      read field by field; a missing key raises. */
  function ConsignmentOf(answer: map<string, string>): (r: Result<ConsignmentResult>)
    ensures r.Ok? ==> (r.value.ErrorPair? <==> "descricao" in answer)
    ensures r.Ok? && r.value.ErrorPair? ==>
      "codigoRetorno" in answer && r.value == ErrorPair(answer["descricao"], answer["codigoRetorno"])
    ensures r.Ok? && r.value.Fields? ==>
      |r.value.values| == |CONSIGNMENT_KEYS| && forall i :: 0 <= i < |CONSIGNMENT_KEYS| ==>
        CONSIGNMENT_KEYS[i] in answer && r.value.values[i] == answer[CONSIGNMENT_KEYS[i]]
    ensures r.Err? <==> (if "descricao" in answer then "codigoRetorno" !in answer
                         else exists k :: k in CONSIGNMENT_KEYS && k !in answer)
  {
    if "descricao" in answer then
      if "codigoRetorno" in answer then Ok(ErrorPair(answer["descricao"], answer["codigoRetorno"])) else Err("KeyError")
    else if forall k :: k in CONSIGNMENT_KEYS ==> k in answer then
      Ok(Fields(seq(|CONSIGNMENT_KEYS|, (i: int) requires 0 <= i < |CONSIGNMENT_KEYS| => answer[CONSIGNMENT_KEYS[i]])))
    else Err("KeyError")
  }

  // ---------------------------------------------------------------------
  // realiza_reserva and cancela_reserva

  /** The margin a card that is not unified reserves: its purchase,
      withdrawal or single slot; any other type leaves the amount unbound
      and raises. */
  function SingleSlot(card: BenefitCard): (r: Result<Slot>)
    requires card.tipoMargem != Some(MARGEM_UNIFICADA)
    ensures r.Ok? <==> |SlotsToReserve(card)| == 1
    ensures r.Ok? ==> SlotsToReserve(card) == [r.value]
  {
    if card.tipoMargem.Some? && card.tipoMargem.value in SLOT_KINDS then Ok(SlotOf(card, card.tipoMargem.value))
    else Err("UnboundLocalError")
  }

  /** The reserve number of a single reservation goes to the purchase or
      withdrawal field for those types, and to the single field for every
      other type. */
  function StoreSingleReserve(card: BenefitCard, id: string): (r: BenefitCard)
    ensures card.tipoMargem.Some? && card.tipoMargem.value in SLOT_KINDS ==>
      r == StoreReserve(card, card.tipoMargem.value, id)
    ensures !(card.tipoMargem.Some? && card.tipoMargem.value in {MARGEM_COMPRA, MARGEM_SAQUE}) ==>
      r == StoreReserve(card, MARGEM_UNICA, id)
  {
    if card.tipoMargem == Some(MARGEM_COMPRA) then card.(reservaCompra := Some(id))
    else if card.tipoMargem == Some(MARGEM_SAQUE) then card.(reservaSaque := Some(id))
    else card.(reserva := Some(id))
  }

  /** The (folha, reserve) pairs a cancellation sends: the purchase or
      withdrawal pair when the reserved margin is named, both pairs for an
      unnamed cancellation of a unified card, and the single pair
      otherwise. */
  function CancelTargets(card: BenefitCard, margemReservada: Option<string>): (r: seq<(Option<string>, Option<string>)>)
    ensures margemReservada == Some("compra") ==> r == [(card.folhaCompra, card.reservaCompra)]
    ensures margemReservada == Some("saque") ==> r == [(card.folhaSaque, card.reservaSaque)]
    ensures margemReservada.None? && card.tipoMargem == Some(MARGEM_UNIFICADA) ==>
      r == [(card.folhaCompra, card.reservaCompra), (card.folhaSaque, card.reservaSaque)]
    ensures 1 <= |r| <= 2
  {
    var single := if margemReservada == Some("compra") then (card.folhaCompra, card.reservaCompra)
                  else if margemReservada == Some("saque") then (card.folhaSaque, card.reservaSaque)
                  else (card.folha, card.reserva);
    if margemReservada.None? && card.tipoMargem == Some(MARGEM_UNIFICADA) then
      [(card.folhaCompra, card.reservaCompra), (card.folhaSaque, card.reservaSaque)]
    else [single]
  }

  /** An unnamed cancellation of a unified card cancels exactly the slots a
      reservation of that card used, in the same order. */
  lemma UnifiedCancelMirrorsReserve(card: BenefitCard)
    requires card.tipoMargem == Some(MARGEM_UNIFICADA)
    ensures var slots := SlotsToReserve(card);
      CancelTargets(card, None) == [(slots[0].folha, slots[0].reserva), (slots[1].folha, slots[1].reserva)]
  {
  }

  /** After a single-margin reservation stores its number, an unnamed
      cancellation sends that number back; for a purchase card it sends
      the single field instead, which the reservation left alone. */
  lemma SingleCancelAfterReserve(card: BenefitCard, id: string)
    requires card.tipoMargem != Some(MARGEM_UNIFICADA)
    ensures card.tipoMargem != Some(MARGEM_COMPRA) && card.tipoMargem != Some(MARGEM_SAQUE) ==>
      CancelTargets(StoreSingleReserve(card, id), None) == [(card.folha, Some(id))]
    ensures card.tipoMargem == Some(MARGEM_COMPRA) ==>
      CancelTargets(StoreSingleReserve(card, id), None) == [(card.folha, card.reserva)]
      && CancelTargets(StoreSingleReserve(card, id), Some("compra")) == [(card.folhaCompra, Some(id))]
  {
  }
}
