/** The contract admin page (core/admin.py): the displayed contract number,
    the representative's CPF and phone, the formalization link column, the
    buttons enabled on a card contract and on a portability or free-margin
    contract, and the inline forms shown per product. */
module CoreAdmin {
  import opened Common
  import opened Codes
  import CoreUtils

  // ---------------------------------------------------------------------
  // Display columns

  /** `byx_contract_id`: 'BYX9' and the contract id zero-filled to ten
      digits; the id can be read back from the digits. */
  function ByxContractId(id: nat): (r: string)
    ensures StartsWith(r, "BYX9") && AllDigits(r[4..])
    ensures id < Pow10(10) ==> |r| == 14
    ensures ParseNat(r[4..]) == id
  {
    var digits := ZeroPad(id, 10);
    assert ("BYX9" + digits)[4..] == digits;
    "BYX9" + digits
  }

  /** The signer on behalf of an illiterate client, as the two columns
      read it; the contract's link to it may be empty. */
  datatype Rogado = Rogado(cpf: Option<string>, telefone: Option<string>)

  /** What a read-only admin field shows when its method raises
      `AttributeError`, as `rogado.cpf` does on an empty link. */
  const EMPTY_VALUE_DISPLAY: string := "-"

  /** `rogado_cpf`: `ddd.ddd.ddd-rest` of a non-empty CPF, else the empty
      text; with no rogado the attribute access raises and the field shows
      the dash. */
  function RogadoCpf(rogado: Option<Rogado>): (r: string)
    ensures rogado.None? ==> r == EMPTY_VALUE_DISPLAY
    ensures rogado.Some? && (rogado.value.cpf.None? || rogado.value.cpf.value == "") ==> r == ""
    ensures rogado.Some? && rogado.value.cpf.Some? && |rogado.value.cpf.value| >= 9 ==>
      var cpf := rogado.value.cpf.value;
      |r| == |cpf| + 3 && r[3] == '.' && r[7] == '.' && r[11] == '-'
      && r[..3] + r[4..7] + r[8..11] + r[12..] == cpf
  {
    match rogado
    case None => EMPTY_VALUE_DISPLAY
    case Some(g) =>
      match g.cpf
      case None => ""
      case Some(c) =>
        if c == "" then ""
        else
          var r := Slice(c, 0, 3) + "." + Slice(c, 3, 6) + "." + Slice(c, 6, 9) + "-" + Slice(c, 9, |c|);
          if |c| >= 9 then
            assert r[..3] == c[..3] && r[4..7] == c[3..6] && r[8..11] == c[6..9] && r[12..] == c[9..];
            assert c[..3] + c[3..6] + c[6..9] + c[9..] == c;
            r
          else r
  }

  /** On a full CPF of digits the column agrees with the shared CPF mask. */
  lemma RogadoCpfAgreesWithFormatarCpf(cpf: string)
    requires AllDigits(cpf) && |cpf| >= 11
    ensures RogadoCpf(Some(Rogado(Some(cpf), None))) == CoreUtils.FormatarCpf(cpf)
  {
    var r := RogadoCpf(Some(Rogado(Some(cpf), None)));
    var f := CoreUtils.FormatarCpf(cpf);
    assert CoreUtils.ZFill(cpf, 11) == cpf;
    assert |r| == |f|;
    forall i | 0 <= i < |r| ensures r[i] == f[i] {
      if i < 3 { assert r[i] == r[..3][i] && f[i] == f[..3][i]; }
      else if 4 <= i < 7 { assert r[i] == r[4..7][i - 4] && f[i] == f[4..7][i - 4]; }
      else if 8 <= i < 11 { assert r[i] == r[8..11][i - 8] && f[i] == f[8..11][i - 8]; }
      else if i >= 12 { assert r[i] == r[12..][i - 12] && f[i] == f[12..][i - 12]; }
    }
  }

  /** `rogado_telefone`: `(dd) ddddd-rest` of a non-empty phone, else the
      empty text; the phone can be read back from the digits. With no
      rogado the field shows the dash. */
  function RogadoTelefone(rogado: Option<Rogado>): (r: string)
    ensures rogado.None? ==> r == EMPTY_VALUE_DISPLAY
    ensures rogado.Some? && (rogado.value.telefone.None? || rogado.value.telefone.value == "") ==> r == ""
    ensures rogado.Some? && rogado.value.telefone.Some? && |rogado.value.telefone.value| >= 7 ==>
      var t := rogado.value.telefone.value;
      |r| == |t| + 4 && r[0] == '(' && r[3] == ')' && r[4] == ' ' && r[10] == '-'
      && r[1..3] + r[5..10] + r[11..] == t
  {
    match rogado
    case None => EMPTY_VALUE_DISPLAY
    case Some(g) =>
      match g.telefone
      case None => ""
      case Some(t) =>
        if t == "" then ""
        else
          var r := "(" + Slice(t, 0, 2) + ") " + Slice(t, 2, 7) + "-" + Slice(t, 7, |t|);
          if |t| >= 7 then
            assert r[1..3] == t[..2] && r[5..10] == t[2..7] && r[11..] == t[7..];
            assert t[..2] + t[2..7] + t[7..] == t;
            r
          else r
  }

  /** The formalization-link column: a dash, or the stored link. */
  datatype UrlCell = Dash | Stored(url: Option<string>)

  const PORTABILITY_NO_LINK: set<int> := {AGUARDANDO_RETORNO_IN100, AGUARDA_ENVIO_LINK} + REFUSAL_STATUSES
  const FREE_MARGIN_NO_LINK: set<int> := {REPROVADO, AGUARDANDO_RETORNO_IN100, AGUARDA_ENVIO_LINK}

  /** `novo_url_formalizacao`: portability contracts hide the link while
      waiting for the IN100 answer or the link, and once refused; free-margin
      contracts in three of those statuses; other products when no link is
      stored. A portability or free-margin contract without its product row
      fails. */
  function NovoUrlFormalizacao(tipoProduto: int, productStatus: Option<int>, url: Option<string>)
    : (r: Result<UrlCell>)
    ensures tipoProduto in {PRODUTO_PORTABILIDADE, PRODUTO_PORTABILIDADE_REFINANCIAMENTO, PRODUTO_MARGEM_LIVRE} ==>
      (r.Err? <==> productStatus.None?)
    ensures tipoProduto in {PRODUTO_PORTABILIDADE, PRODUTO_PORTABILIDADE_REFINANCIAMENTO} && productStatus.Some? ==>
      (r == Ok(Dash) <==> productStatus.value in PORTABILITY_NO_LINK)
    ensures tipoProduto == PRODUTO_MARGEM_LIVRE && productStatus.Some? ==>
      (r == Ok(Dash) <==> productStatus.value in FREE_MARGIN_NO_LINK)
    ensures tipoProduto !in {PRODUTO_PORTABILIDADE, PRODUTO_PORTABILIDADE_REFINANCIAMENTO, PRODUTO_MARGEM_LIVRE} ==>
      r.Ok? && (r.value == Dash <==> url.None? || url.value == "")
    ensures r.Ok? && r.value.Stored? ==> r.value.url == url
  {
    if tipoProduto == PRODUTO_PORTABILIDADE || tipoProduto == PRODUTO_PORTABILIDADE_REFINANCIAMENTO then
      match productStatus
      case None => Err("AttributeError: 'NoneType' object has no attribute 'status'")
      case Some(s) => if s in PORTABILITY_NO_LINK then Ok(Dash) else Ok(Stored(url))
    else if tipoProduto == PRODUTO_MARGEM_LIVRE then
      match productStatus
      case None => Err("AttributeError: 'NoneType' object has no attribute 'status'")
      case Some(s) => if s in FREE_MARGIN_NO_LINK then Ok(Dash) else Ok(Stored(url))
    else if url.None? || url.value == "" then Ok(Dash)
    else Ok(Stored(url))
  }

  /** A refused portability or free-margin contract never shows its link. */
  lemma RefusedHidesLink(tipoProduto: int, url: Option<string>)
    requires tipoProduto in {PRODUTO_PORTABILIDADE, PRODUTO_PORTABILIDADE_REFINANCIAMENTO, PRODUTO_MARGEM_LIVRE}
    ensures NovoUrlFormalizacao(tipoProduto, Some(REPROVADO), url) == Ok(Dash)
    ensures NovoUrlFormalizacao(tipoProduto, Some(AGUARDA_ENVIO_LINK), url) == Ok(Dash)
  {
  }

  // ---------------------------------------------------------------------
  // Card contract buttons

  /** The last margin reserve of a manually typed card contract: whether
      its attachment and its protocol are filled. */
  datatype Reserve = Reserve(hasAttachment: bool, hasProtocol: bool)

  const ENDORSEMENT_STATUSES: set<int> := {CHECAGEM_MESA_DE_AVERBECAO, REGULARIZADA_MESA_AVERBACAO}
  const APPROVABLE_CARD_STATUSES: set<int> := {CHECAGEM_MESA_FORMALIZACAO, PENDENTE_DADOS_DIVERGENTES}
  const REPROVABLE_CARD_STATUSES: set<int> := {
    ANDAMENTO_FORMALIZACAO, CHECAGEM_MESA_FORMALIZACAO, PENDENTE_DOCUMENTACAO, PENDENTE_DADOS_DIVERGENTES,
    CHECAGEM_MESA_CORBAN, REVISAO_MESA_DE_FORMALIZACAO}

  /** `card_should_show_approve_button_for_endorsoment`: for the endorsement
      desk, on a contract typed automatically, or on a manual one whose last
      reserve carries both its attachment and its protocol. */
  predicate CardApproveForEndorsement(isMesaAverbacao: bool, manual: bool, lastReserve: Option<Reserve>) {
    isMesaAverbacao
    && (!manual || (lastReserve.Some? && lastReserve.value.hasAttachment && lastReserve.value.hasProtocol))
  }

  /** `card_should_show_approve_button`. */
  function CardShowApprove(status: int, isMesaAverbacao: bool, manual: bool, lastReserve: Option<Reserve>): (r: bool)
    ensures status in APPROVABLE_CARD_STATUSES ==> r
    ensures r ==> status in APPROVABLE_CARD_STATUSES || (status in ENDORSEMENT_STATUSES && isMesaAverbacao)
    ensures status in ENDORSEMENT_STATUSES ==> (r <==> CardApproveForEndorsement(isMesaAverbacao, manual, lastReserve))
  {
    status in APPROVABLE_CARD_STATUSES
    || (status in ENDORSEMENT_STATUSES && CardApproveForEndorsement(isMesaAverbacao, manual, lastReserve))
  }

  /** `card_should_show_pendency_button`. */
  function CardShowPendency(status: int, isMesaAverbacao: bool): (r: bool)
    ensures status in ENDORSEMENT_STATUSES ==> (r <==> isMesaAverbacao)
    ensures status !in ENDORSEMENT_STATUSES ==> (r <==> status != CHECAGEM_MESA_CORBAN && status != PENDENCIAS_AVERBACAO_CORBAN)
  {
    if status == CHECAGEM_MESA_DE_AVERBECAO || status == REGULARIZADA_MESA_AVERBACAO then isMesaAverbacao
    else status !in {CHECAGEM_MESA_CORBAN, PENDENCIAS_AVERBACAO_CORBAN}
  }

  /** `card_should_show_reprove_button`. */
  function CardShowReprove(status: int, isMesaAverbacao: bool): (r: bool)
    ensures r <==> (status in REPROVABLE_CARD_STATUSES
                    || (isMesaAverbacao && status in ENDORSEMENT_STATUSES + {PENDENCIAS_AVERBACAO_CORBAN}))
  {
    status in REPROVABLE_CARD_STATUSES
    || ((status == CHECAGEM_MESA_DE_AVERBECAO || status == PENDENCIAS_AVERBACAO_CORBAN
         || status == REGULARIZADA_MESA_AVERBACAO) && isMesaAverbacao)
  }

  /** On an endorsement status, an operator outside the endorsement desk
      sees none of the three card buttons; at the Corban endorsement
      pendency only the desk may reprove and nobody may pend. */
  lemma EndorsementOnlyForTheDesk(manual: bool, lastReserve: Option<Reserve>)
    ensures forall s :: s in ENDORSEMENT_STATUSES ==>
      !CardShowApprove(s, false, manual, lastReserve) && !CardShowPendency(s, false) && !CardShowReprove(s, false)
    ensures !CardShowPendency(PENDENCIAS_AVERBACAO_CORBAN, true) && !CardShowPendency(PENDENCIAS_AVERBACAO_CORBAN, false)
    ensures CardShowReprove(PENDENCIAS_AVERBACAO_CORBAN, true) && !CardShowReprove(PENDENCIAS_AVERBACAO_CORBAN, false)
  {
  }

  // ---------------------------------------------------------------------
  // Portability and free-margin buttons

  datatype Buttons = Buttons(aprovar: bool, aprovarProposta: bool, reprovar: bool, pendenciar: bool)

  /** The portability status whose contract page shows the refinancing's
      status for a portability with refinancing; the code is compared as a
      literal. */
  const PORTABILITY_SHOWS_REFINANCING: int := 38

  const WAITING_STATUSES: set<int> := {AGUARDA_ENVIO_LINK, AGUARDANDO_RETORNO_IN100, FORMALIZACAO_CLIENTE}

  /** The status shown on a portability, portability-with-refinancing or
      free-margin contract page. */
  function ShownStatus(tipoProduto: int, portabilityStatus: int, refinancingStatus: int, freeMarginStatus: int)
    : (r: int)
    ensures tipoProduto == PRODUTO_MARGEM_LIVRE ==> r == freeMarginStatus
    ensures tipoProduto == PRODUTO_PORTABILIDADE ==> r == portabilityStatus
    ensures tipoProduto == PRODUTO_PORTABILIDADE_REFINANCIAMENTO ==>
      (r == refinancingStatus <==> portabilityStatus == PORTABILITY_SHOWS_REFINANCING || refinancingStatus == portabilityStatus)
  {
    if tipoProduto == PRODUTO_MARGEM_LIVRE then freeMarginStatus
    else if portabilityStatus == PORTABILITY_SHOWS_REFINANCING && tipoProduto == PRODUTO_PORTABILIDADE_REFINANCIAMENTO
    then refinancingStatus
    else portabilityStatus
  }

  /** The button flags of `changeform_view` for these products: every
      button starts enabled; the customer-service group loses all, the back
      office all but reprove; automatic approval hides approving the
      proposal; the Corban desk and the pending recalculation disable
      further; waiting statuses disable pending. */
  function PortabilityButtons(isSac: bool, isBackoffice: bool, tipoProduto: int, aprovarAutomatico: bool,
                              status: int): (r: Buttons)
    requires tipoProduto in {PRODUTO_PORTABILIDADE, PRODUTO_MARGEM_LIVRE, PRODUTO_PORTABILIDADE_REFINANCIAMENTO}
    ensures var portLike := tipoProduto != PRODUTO_MARGEM_LIVRE;
      (r.aprovar <==> !isSac && !isBackoffice
                      && !(portLike && status in {CHECAGEM_MESA_CORBAN, PENDENTE_APROVACAO_RECALCULO_CORBAN}))
      && (r.aprovarProposta <==> !isSac && !isBackoffice && !(portLike && aprovarAutomatico))
      && (r.reprovar <==> !isSac && !(portLike && status == PENDENTE_APROVACAO_RECALCULO_CORBAN))
      && (r.pendenciar <==> !isSac && !isBackoffice && status !in WAITING_STATUSES
                            && !(portLike && status in {CHECAGEM_MESA_CORBAN, PENDENTE_APROVACAO_RECALCULO_CORBAN}))
  {
    var b0 := Buttons(true, true, true, true);
    var b1 := if isSac then Buttons(false, false, false, false)
              else if isBackoffice then b0.(aprovar := false, aprovarProposta := false, pendenciar := false)
              else b0;
    var portLike := tipoProduto != PRODUTO_MARGEM_LIVRE;
    var b2 := if portLike && aprovarAutomatico then b1.(aprovarProposta := false) else b1;
    var b3 := if portLike && status == CHECAGEM_MESA_CORBAN then b2.(aprovar := false, pendenciar := false)
              else if portLike && status == PENDENTE_APROVACAO_RECALCULO_CORBAN then
                b2.(aprovar := false, pendenciar := false, reprovar := false)
              else b2;
    if status in WAITING_STATUSES then b3.(pendenciar := false) else b3
  }

  /** A pending endorsement adjustment keeps only the reprove button. */
  function ApplyEndorsementAdjustment(proposalStatus: int, b: Buttons): (r: Buttons)
    ensures proposalStatus == INT_AJUSTE_AVERBACAO ==> !r.aprovar && !r.aprovarProposta && !r.pendenciar
    ensures r.reprovar == b.reprovar
    ensures proposalStatus != INT_AJUSTE_AVERBACAO ==> r == b
  {
    if proposalStatus == INT_AJUSTE_AVERBACAO then b.(aprovar := false, aprovarProposta := false, pendenciar := false)
    else b
  }

  /** Enabling is monotone in the operator's rights: what the back office
      sees enabled, any operator outside both groups sees enabled too, and
      the customer-service group sees nothing. */
  lemma ButtonsMonotoneInRights(tipoProduto: int, aprovarAutomatico: bool, status: int)
    requires tipoProduto in {PRODUTO_PORTABILIDADE, PRODUTO_MARGEM_LIVRE, PRODUTO_PORTABILIDADE_REFINANCIAMENTO}
    ensures var bo := PortabilityButtons(false, true, tipoProduto, aprovarAutomatico, status);
      var other := PortabilityButtons(false, false, tipoProduto, aprovarAutomatico, status);
      (bo.aprovar ==> other.aprovar) && (bo.aprovarProposta ==> other.aprovarProposta)
      && (bo.reprovar ==> other.reprovar) && (bo.pendenciar ==> other.pendenciar)
    ensures PortabilityButtons(true, false, tipoProduto, aprovarAutomatico, status) == Buttons(false, false, false, false)
    ensures PortabilityButtons(true, true, tipoProduto, aprovarAutomatico, status) == Buttons(false, false, false, false)
  {
  }

  // ---------------------------------------------------------------------
  // Inline forms

  datatype Inline =
    | ReservaDeMargemInline | ProdutoCartaoBeneficio | AnexoContratoInline | StatusContratoInline
    | RegularizacaoContratoInline | RetornoSaqueInline | ValidacaoContratoInline | PlanosContratoInline
    | ProdutoMargemLivre | ParcelaInline | DadosIN100Inline | TestemunhaInline | LogWebHookQiTechInline
    | ProdutoPortabilidade | AnexoAntifraudeInline | ProdutoRefinanciamento | ProdutoSaqueComplementar
    | OtherInline(name: string)

  /** The contract a page edits, absent on the add page. */
  datatype PageObject = PageObject(tipoProduto: int, manual: bool)

  const CARD_INLINES: set<Inline> := {
    ProdutoCartaoBeneficio, AnexoContratoInline, StatusContratoInline, RegularizacaoContratoInline,
    RetornoSaqueInline, ValidacaoContratoInline, PlanosContratoInline}
  const FREE_MARGIN_INLINES: set<Inline> := {
    ProdutoMargemLivre, ParcelaInline, StatusContratoInline, ValidacaoContratoInline, AnexoContratoInline,
    DadosIN100Inline, TestemunhaInline, LogWebHookQiTechInline}
  const PORTABILITY_INLINES: set<Inline> := {
    ProdutoPortabilidade, StatusContratoInline, AnexoContratoInline, AnexoAntifraudeInline,
    ValidacaoContratoInline, DadosIN100Inline, TestemunhaInline, ParcelaInline}
  const PORT_REFIN_INLINES: set<Inline> := PORTABILITY_INLINES + {ProdutoRefinanciamento}
  const WITHDRAWAL_INLINES: set<Inline> := {
    ProdutoSaqueComplementar, AnexoContratoInline, StatusContratoInline, RetornoSaqueInline,
    ValidacaoContratoInline, PlanosContratoInline}

  /** Whether one inline is shown for the page's contract. */
  predicate InlineShown(obj: Option<PageObject>, inline: Inline) {
    match obj
    case None => true
    case Some(o) =>
      if o.tipoProduto in {PRODUTO_CARTAO_BENEFICIO, PRODUTO_CARTAO_BENEFICIO_REPRESENTANTE, PRODUTO_CARTAO_CONSIGNADO} then
        (inline == ReservaDeMargemInline && o.manual) || inline in CARD_INLINES
      else if o.tipoProduto in {PRODUTO_MARGEM_LIVRE, PRODUTO_INSS, PRODUTO_INSS_REPRESENTANTE_LEGAL} then
        inline in FREE_MARGIN_INLINES
      else if o.tipoProduto == PRODUTO_PORTABILIDADE then inline in PORTABILITY_INLINES
      else if o.tipoProduto == PRODUTO_PORTABILIDADE_REFINANCIAMENTO then inline in PORT_REFIN_INLINES
      else if o.tipoProduto == PRODUTO_SAQUE_COMPLEMENTAR then inline in WITHDRAWAL_INLINES
      else false
  }

  /** `get_formsets_with_inlines`: the instances, in order, that the page
      shows. */
  function FormsetsWithInlines(obj: Option<PageObject>, inlines: seq<Inline>): (r: seq<Inline>)
    ensures obj.None? ==> r == inlines
    ensures forall x :: x in r <==> x in inlines && InlineShown(obj, x)
    ensures |r| <= |inlines|
    decreases |inlines|
  {
    if |inlines| == 0 then []
    else
      var rest := FormsetsWithInlines(obj, inlines[1..]);
      assert forall x :: x in inlines <==> x == inlines[0] || x in inlines[1..];
      assert obj.None? ==> [inlines[0]] + inlines[1..] == inlines;
      (if InlineShown(obj, inlines[0]) then [inlines[0]] else []) + rest
  }

  /** The shown instances of two runs of inlines are those of the first
      followed by those of the second: the page keeps the declared order. */
  lemma {:induction false} FormsetsKeepOrder(obj: Option<PageObject>, a: seq<Inline>, b: seq<Inline>)
    ensures FormsetsWithInlines(obj, a + b) == FormsetsWithInlines(obj, a) + FormsetsWithInlines(obj, b)
    decreases |a|
  {
    if |a| == 0 {
      assert a + b == b;
    } else {
      assert (a + b)[0] == a[0];
      assert (a + b)[1..] == a[1..] + b;
      FormsetsKeepOrder(obj, a[1..], b);
    }
  }

  /** The margin-reserve form appears on a card contract exactly when it
      was typed manually, and never on other products. */
  lemma ReserveInlineOnlyForManualCards(o: PageObject)
    ensures InlineShown(Some(o), ReservaDeMargemInline) <==>
      o.manual && o.tipoProduto in {PRODUTO_CARTAO_BENEFICIO, PRODUTO_CARTAO_BENEFICIO_REPRESENTANTE, PRODUTO_CARTAO_CONSIGNADO}
  {
  }
}
