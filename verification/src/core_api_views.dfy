/** Decision rules of the client-facing API views (core/api/views.py): the
    benefit-card offer, the product-type membership test, the CPF mask of
    the insurance query, the document flags set from a contract's
    attachments, the phone-number quota and the formalization-link expiry.
    Query results are inputs. */
module CoreApiViews {
  import opened Common
  import opened Codes

  // ---------------------------------------------------------------------
  // Benefit-card offer

  /** The offered card product and the margin it is offered with. */
  datatype Offer = Offer(tipoProduto: int, margemAtual: int)

  /** `pick_best_benefit_card_offer`: the RCC margin wins when it is nonzero,
      not below the RMC margin and its product is set up; otherwise a
      positive RMC margin with its product; otherwise nothing. */
  function PickBestOffer(margemRcc: int, margemRmc: int, hasRccProduct: bool, hasRmcProduct: bool): (r: Option<Offer>)
    ensures r.Some? ==>
      (r.value == Offer(PRODUTO_CARTAO_BENEFICIO, margemRcc) && margemRcc != 0 && hasRccProduct)
      || (r.value == Offer(PRODUTO_CARTAO_CONSIGNADO, margemRmc) && margemRmc > 0 && hasRmcProduct)
    ensures r.None? <==>
      !(margemRcc != 0 && margemRcc >= margemRmc && hasRccProduct) && !(margemRmc > 0 && hasRmcProduct)
  {
    if margemRcc != 0 && margemRcc >= margemRmc && hasRccProduct then Some(Offer(PRODUTO_CARTAO_BENEFICIO, margemRcc))
    else if margemRmc > 0 && hasRmcProduct then Some(Offer(PRODUTO_CARTAO_CONSIGNADO, margemRmc))
    else None
  }

  /** With both products set up and no negative margin, the offer carries
      the larger margin, and there is an offer exactly when some margin is
      positive. */
  lemma BestOfferIsLargest(margemRcc: nat, margemRmc: nat)
    ensures var r := PickBestOffer(margemRcc, margemRmc, true, true);
      (r.Some? <==> margemRcc > 0 || margemRmc > 0)
      && (r.Some? ==> r.value.margemAtual == if margemRcc >= margemRmc then margemRcc else margemRmc)
  {
  }

  /** A field that holds one value or a list of them. */
  datatype OneOrMany<T> = One(item: T) | Many(items: seq<T>)

  /** `ensure_list`: a non-list becomes a one-element list. */
  function EnsureList<T>(x: OneOrMany<T>): (r: seq<T>)
    ensures x.One? ==> r == [x.item]
    ensures x.Many? ==> r == x.items
  {
    match x
    case One(item) => [item]
    case Many(items) => items
  }

  /** `is_product_type_of`: equality for a single type, membership for a list. */
  predicate IsProductTypeOf(productType: int, types: OneOrMany<int>) {
    productType in EnsureList(types)
  }

  lemma ProductTypeOfSingle(productType: int, other: int)
    ensures IsProductTypeOf(productType, One(other)) <==> productType == other
  {
  }

  /** The card products of `get_benefit_card_product_types`. */
  const BENEFIT_CARD_TYPES: seq<int> :=
    [PRODUTO_CARTAO_BENEFICIO, PRODUTO_CARTAO_BENEFICIO_REPRESENTANTE, PRODUTO_CARTAO_CONSIGNADO]

  /** `is_benefit_card_offer_available`: the contract is not itself a card,
      the user may create benefit cards, and the product parameter allows
      the offer. */
  function OfferAvailable(productType: int, userCanCreateCard: bool, parameterAllows: bool): (r: bool)
    ensures r <==>
      productType !in {PRODUTO_CARTAO_BENEFICIO, PRODUTO_CARTAO_BENEFICIO_REPRESENTANTE, PRODUTO_CARTAO_CONSIGNADO}
      && userCanCreateCard && parameterAllows
  {
    !IsProductTypeOf(productType, Many(BENEFIT_CARD_TYPES)) && userCanCreateCard && parameterAllows
  }

  // ---------------------------------------------------------------------
  // CPF mask of ConsultarSegurosContratado

  /** `is_valid_cpf_format`: 14 characters with the mask's punctuation. */
  predicate IsMaskedCpf(cpf: string) {
    |cpf| == 14 && cpf[3] == '.' && cpf[7] == '.' && cpf[11] == '-'
  }

  /** `format_cpf`, with Python's clamped slices. */
  function FormatCpf(cpf: string): (r: string)
    ensures |cpf| >= 9 ==> |r| == |cpf| + 3
    ensures |cpf| == 11 ==> IsMaskedCpf(r)
  {
    Slice(cpf, 0, 3) + "." + Slice(cpf, 3, 6) + "." + Slice(cpf, 6, 9) + "-" + Suffix(cpf, 9)
  }

  /** The CPF the view looks the client up by. */
  function LookupCpf(cpf: string): (r: string)
    ensures IsMaskedCpf(cpf) ==> r == cpf
    ensures |cpf| == 11 ==> IsMaskedCpf(r)
  {
    if IsMaskedCpf(cpf) then cpf else FormatCpf(cpf)
  }

  /** Masking eleven digits keeps them in order: dropping the punctuation
      gives the digits back, and masking twice changes nothing. */
  lemma MaskRoundTrip(cpf: string)
    requires |cpf| == 11 && AllDigits(cpf)
    ensures RemoveChars(LookupCpf(cpf), {'.', '-'}) == cpf
    ensures LookupCpf(LookupCpf(cpf)) == LookupCpf(cpf)
  {
    assert !IsMaskedCpf(cpf);
    StripMask(cpf[..3], cpf[3..6], cpf[6..9], cpf[9..]);
    assert cpf == cpf[..3] + cpf[3..6] + cpf[6..9] + cpf[9..];
  }

  /** Dropping the punctuation of a masked digit string gives its digits. */
  lemma StripMask(a: string, b: string, c: string, d: string)
    requires AllDigits(a) && AllDigits(b) && AllDigits(c) && AllDigits(d)
    ensures RemoveChars(a + "." + b + "." + c + "-" + d, {'.', '-'}) == a + b + c + d
  {
    DigitsSurvive(a); DigitsSurvive(b); DigitsSurvive(c); DigitsSurvive(d);
    var x1 := a + "." + b;
    StripOne(a, '.', b);
    var x2 := x1 + "." + c;
    StripOne(x1, '.', c);
    StripOne(x2, '-', d);
  }

  /** A dropped separator disappears between its two sides. */
  lemma StripOne(x: string, sep: char, y: string)
    requires sep == '.' || sep == '-'
    ensures RemoveChars(x + [sep] + y, {'.', '-'}) == RemoveChars(x, {'.', '-'}) + RemoveChars(y, {'.', '-'})
  {
    RemoveCharsAppend(x + [sep], y, {'.', '-'});
    RemoveCharsAppend(x, [sep], {'.', '-'});
    assert RemoveChars([sep], {'.', '-'}) == [];
  }

  lemma {:induction false} DigitsSurvive(s: string)
    requires AllDigits(s)
    ensures RemoveChars(s, {'.', '-'}) == s
  {
    if |s| > 0 {
      DigitsSurvive(s[1..]);
    }
  }

  lemma {:induction false} RemoveCharsAppend(s: string, t: string, drop: set<char>)
    ensures RemoveChars(s + t, drop) == RemoveChars(s, drop) + RemoveChars(t, drop)
  {
    if |s| > 0 {
      assert (s + t)[1..] == s[1..] + t;
      RemoveCharsAppend(s[1..], t, drop);
    } else {
      assert s + t == t;
    }
  }

  // ---------------------------------------------------------------------
  // processar_anexos

  /** The contract's document flags set from its attachments. */
  datatype SentFlags = SentFlags(selfie: bool, documentoPessoal: bool, comprovanteResidencia: bool,
                                 contracheque: bool, adicional: bool)

  /** The one-to-one attachment flags of the loop; the additional-document
      type 12 is among them only in the portability upload view. */
  function SetFlag(f: SentFlags, tipoAnexo: int, withAdditional: bool): (r: SentFlags)
    ensures r.selfie == (f.selfie || tipoAnexo == 4)
    ensures r.documentoPessoal == (f.documentoPessoal || tipoAnexo == 8)
    ensures r.comprovanteResidencia == (f.comprovanteResidencia || tipoAnexo == 6)
    ensures r.contracheque == (f.contracheque || tipoAnexo == 16)
    ensures r.adicional == (f.adicional || (withAdditional && tipoAnexo == 12))
  {
    if tipoAnexo == 4 then f.(selfie := true)
    else if tipoAnexo == 8 then f.(documentoPessoal := true)
    else if tipoAnexo == 6 then f.(comprovanteResidencia := true)
    else if tipoAnexo == 16 then f.(contracheque := true)
    else if tipoAnexo == 12 && withAdditional then f.(adicional := true)
    else f
  }

  /** The loop over the attachments, in their stored order. */
  function ApplyAttachments(f: SentFlags, tipos: seq<int>, withAdditional: bool): (r: SentFlags)
    decreases |tipos|
    ensures r.selfie == (f.selfie || 4 in tipos)
    ensures r.documentoPessoal == (f.documentoPessoal || 8 in tipos)
    ensures r.comprovanteResidencia == (f.comprovanteResidencia || 6 in tipos)
    ensures r.contracheque == (f.contracheque || 16 in tipos)
    ensures r.adicional == (f.adicional || (withAdditional && 12 in tipos))
  {
    if |tipos| == 0 then f
    else
      var r := ApplyAttachments(SetFlag(f, tipos[0], withAdditional), tipos[1..], withAdditional);
      assert tipos == [tipos[0]] + tipos[1..];
      r
  }

  /** `processar_anexos`: each flagged type sets its flag, and both sides of
      an identity document (types 2 and 3) or of a driving licence (13 and
      14) count as the personal document. */
  function ProcessAttachments(f: SentFlags, tipos: seq<int>, withAdditional: bool): (r: SentFlags)
    ensures r.selfie == (f.selfie || 4 in tipos)
    ensures r.documentoPessoal ==
      (f.documentoPessoal || 8 in tipos || (2 in tipos && 3 in tipos) || (13 in tipos && 14 in tipos))
    ensures r.comprovanteResidencia == (f.comprovanteResidencia || 6 in tipos)
    ensures r.contracheque == (f.contracheque || 16 in tipos)
    ensures r.adicional == (f.adicional || (withAdditional && 12 in tipos))
  {
    var g := ApplyAttachments(f, tipos, withAdditional);
    if (2 in tipos && 3 in tipos) || (13 in tipos && 14 in tipos) then g.(documentoPessoal := true) else g
  }

  /** The pending flags the formalization upload clears. */
  datatype Pending = Pending(documento: bool, endereco: bool, contracheque: bool)

  /** Uploading type '8', '6' or '16' clears the matching pending flag. */
  function ClearPending(tipoDoc: string, p: Pending): (r: Pending)
    ensures r.documento == (p.documento && tipoDoc != "8")
    ensures r.endereco == (p.endereco && tipoDoc != "6")
    ensures r.contracheque == (p.contracheque && tipoDoc != "16")
  {
    if tipoDoc == "8" && p.documento then p.(documento := false)
    else if tipoDoc == "6" && p.endereco then p.(endereco := false)
    else if tipoDoc == "16" && p.contracheque then p.(contracheque := false)
    else p
  }

  /** Attachments only ever set flags: processing more attachments never
      clears one. */
  lemma AttachmentsOnlySet(f: SentFlags, tipos: seq<int>, more: seq<int>, withAdditional: bool)
    ensures var a := ProcessAttachments(f, tipos, withAdditional);
            var b := ProcessAttachments(f, tipos + more, withAdditional);
      (a.selfie ==> b.selfie) && (a.documentoPessoal ==> b.documentoPessoal)
      && (a.comprovanteResidencia ==> b.comprovanteResidencia)
      && (a.contracheque ==> b.contracheque) && (a.adicional ==> b.adicional)
  {
    assert forall t :: t in tipos ==> t in tipos + more;
  }

  // ---------------------------------------------------------------------
  // ValidarTelefone

  /** A card row (`CartaoBeneficio`) or portability row with the client's
      mobile number and the row's status. */
  datatype PhoneRow = PhoneRow(isCard: bool, telefoneCelular: string, status: int)

  /** A row counts against the phone's quota unless it was refused. */
  predicate Counts(row: PhoneRow, card: bool, phone: string) {
    row.isCard == card && row.telefoneCelular == phone && row.status !in REFUSAL_STATUSES
  }

  /** The number of rows of the kind, with the phone, not reproved. */
  function CountRows(rows: seq<PhoneRow>, card: bool, phone: string): (n: nat)
    ensures n <= |rows|
  {
    if |rows| == 0 then 0
    else (if Counts(rows[0], card, phone) then 1 else 0) + CountRows(rows[1..], card, phone)
  }

  lemma {:induction false} CountRowsAppend(rows: seq<PhoneRow>, row: PhoneRow, card: bool, phone: string)
    ensures CountRows(rows + [row], card, phone) == CountRows(rows, card, phone) + (if Counts(row, card, phone) then 1 else 0)
  {
    if |rows| > 0 {
      assert (rows + [row])[1..] == rows[1..] + [row];
      CountRowsAppend(rows[1..], row, card, phone);
    }
  }

  datatype PhoneReply = PhoneAvailable | PhoneLimitReached | PhoneError

  /** `ValidarTelefone.post`: a missing field, a product that is neither a
      card nor a portability, or a missing backoffice parameter is a server
      error; otherwise the phone is available while its counted rows stay
      below the parameter's phones-per-contract quota. */
  function ValidarTelefone(phone: Option<string>, tipoProduto: Option<int>, quota: Option<int>,
                           rows: seq<PhoneRow>): (r: PhoneReply)
    ensures r == PhoneError <==>
      phone.None? || tipoProduto.None? || quota.None?
      || tipoProduto.value !in {PRODUTO_CARTAO_CONSIGNADO, PRODUTO_CARTAO_BENEFICIO, PRODUTO_PORTABILIDADE}
    ensures r == PhoneAvailable ==>
      CountRows(rows, tipoProduto.value != PRODUTO_PORTABILIDADE, phone.value) < quota.value
    ensures r == PhoneLimitReached ==>
      CountRows(rows, tipoProduto.value != PRODUTO_PORTABILIDADE, phone.value) >= quota.value
  {
    if phone.None? || tipoProduto.None? then PhoneError
    else
      var t := tipoProduto.value;
      if t !in {PRODUTO_CARTAO_CONSIGNADO, PRODUTO_CARTAO_BENEFICIO, PRODUTO_PORTABILIDADE} || quota.None? then PhoneError
      else if CountRows(rows, t != PRODUTO_PORTABILIDADE, phone.value) < quota.value then PhoneAvailable
      else PhoneLimitReached
  }

  /** One more active contract on the phone can only use up the quota: a
      phone unavailable before stays unavailable. */
  lemma QuotaOnlyFills(phone: string, tipoProduto: int, quota: int, rows: seq<PhoneRow>, row: PhoneRow)
    requires ValidarTelefone(Some(phone), Some(tipoProduto), Some(quota), rows) == PhoneLimitReached
    ensures ValidarTelefone(Some(phone), Some(tipoProduto), Some(quota), rows + [row]) == PhoneLimitReached
  {
    CountRowsAppend(rows, row, tipoProduto != PRODUTO_PORTABILIDADE, phone);
  }

  /** A reproved contract never uses the quota. */
  lemma ReprovedDoesNotCount(phone: string, tipoProduto: int, quota: int, rows: seq<PhoneRow>, row: PhoneRow)
    requires row.status in REFUSAL_STATUSES
    ensures ValidarTelefone(Some(phone), Some(tipoProduto), Some(quota), rows + [row])
         == ValidarTelefone(Some(phone), Some(tipoProduto), Some(quota), rows)
  {
    CountRowsAppend(rows, row, tipoProduto != PRODUTO_PORTABILIDADE, phone);
  }

  // ---------------------------------------------------------------------
  // DetalheFormalizacao link expiry

  /** A contract of the envelope: whether only the selfie is pending, the
      seconds since its formalization link was created, and whether it is
      signed. */
  datatype LinkedContract = LinkedContract(selfiePendente: bool, linkAgeSeconds: int, assinado: bool)

  const MSG_LINK_EXPIRED: string := "O link de formalização foi expirado."
  const MSG_ALREADY_SIGNED: string := "Formalização já realizada."

  /** A link is expired after 168 hours. */
  predicate LinkExpired(c: LinkedContract) { c.linkAgeSeconds >= 168 * 3600 }

  predicate Blocks(c: LinkedContract) { !c.selfiePendente && (LinkExpired(c) || c.assinado) }

  /** The loop of `DetalheFormalizacao.get`: the first contract without a
      pending selfie whose link expired or which is already signed stops
      the detail with its error. */
  function CheckLinks(cs: seq<LinkedContract>): (r: Option<string>)
    ensures r.None? <==> forall i :: 0 <= i < |cs| ==> !Blocks(cs[i])
    ensures r.Some? ==>
      exists i :: 0 <= i < |cs| && Blocks(cs[i]) && (forall j :: 0 <= j < i ==> !Blocks(cs[j]))
        && r.value == (if LinkExpired(cs[i]) then MSG_LINK_EXPIRED else MSG_ALREADY_SIGNED)
  {
    if |cs| == 0 then None
    else if !cs[0].selfiePendente && LinkExpired(cs[0]) then Some(MSG_LINK_EXPIRED)
    else if !cs[0].selfiePendente && cs[0].assinado then Some(MSG_ALREADY_SIGNED)
    else
      var r := CheckLinks(cs[1..]);
      assert forall i :: 1 <= i < |cs| ==> cs[i] == cs[1..][i - 1];
      if r.Some? then
        var k :| 0 <= k < |cs[1..]| && Blocks(cs[1..][k]) && (forall j :: 0 <= j < k ==> !Blocks(cs[1..][j]))
                 && r.value == (if LinkExpired(cs[1..][k]) then MSG_LINK_EXPIRED else MSG_ALREADY_SIGNED);
        assert Blocks(cs[k + 1]) && forall j :: 0 <= j < k + 1 ==> !Blocks(cs[j]);
        r
      else r
  }

  /** A pending selfie exempts a contract from both checks. */
  lemma SelfiePendingExempts(cs: seq<LinkedContract>)
    requires forall i :: 0 <= i < |cs| ==> cs[i].selfiePendente
    ensures CheckLinks(cs).None?
  {
  }
}
