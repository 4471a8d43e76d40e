/** Value rules of the contract serializers (contract/api/serializers/__init__.py):
    the Portuguese CCB status label, the regularization request's check,
    the formalization link a portability contract exposes, the status of a
    portability with refinancing and the pending-account id. */
module ContractSerializers {
  import opened Common
  import opened Codes
  import opened Contracts
  import ProposalInserter

  // ---------------------------------------------------------------------
  // STATUS_CCB_PTBR

  const CCB_LABELS: seq<string> := [
    "Pendente Submissão", "Pendente Resposta", "Pendente de Aceitação", "Aprovado pelo Originador",
    "Cancelado", "Retido", "Acordo Enviado", "Confirmação Pendente de resolução", "Pago",
    "Rejeitado", "Assinatura Recebida", "Garantia"]

  /** A status shown as its label, or the raw code when it has none. */
  datatype CcbShown = Label(text: string) | RawCode(code: int)

  /** `STATUS_CCB_PTBR.get(status, status)`. */
  function CcbStatusLabel(statusCcb: int): (r: CcbShown)
    ensures r.RawCode? <==> !(0 <= statusCcb < 12)
    ensures r.RawCode? ==> r.code == statusCcb
    ensures r.Label? ==> r.text in CCB_LABELS
  {
    if 0 <= statusCcb < |CCB_LABELS| then Label(CCB_LABELS[statusCcb]) else RawCode(statusCcb)
  }

  /** Different codes never share a label, so the label identifies the
      CCB status. */
  lemma CcbLabelsDistinct(a: int, b: int)
    requires CcbStatusLabel(a) == CcbStatusLabel(b)
    ensures a == b
  {
    if 0 <= a < 12 && 0 <= b < 12 {
      LabelsPairwiseDistinct();
    }
  }

  lemma LabelsPairwiseDistinct()
    ensures forall i, j :: 0 <= i < j < |CCB_LABELS| ==> CCB_LABELS[i] != CCB_LABELS[j]
  {
    assert forall i, j :: 0 <= i < j < |CCB_LABELS| && |CCB_LABELS[i]| == |CCB_LABELS[j]| ==>
      (i, j) == (4, 9);
    assert CCB_LABELS[4][0] != CCB_LABELS[9][0];
  }

  /** The label table follows the `EnumStatusCCB` codes. */
  lemma CcbLabelsFollowCodes()
    ensures CcbStatusLabel(CCB_PENDING_RESPONSE) == Label("Pendente Resposta")
    ensures CcbStatusLabel(CCB_CANCELED) == Label("Cancelado")
    ensures CcbStatusLabel(CCB_PAID) == Label("Pago")
  {
  }

  // ---------------------------------------------------------------------
  // PendingRegistrationRegularizationRequestSerializer.validate

  const MSG_REGULARIZATION_EMPTY: string :=
    "É obrigatório ter pelo menos a \"mensagem_regularizacao\" ou o \"arquivo_regularizacao\"."

  /** A request needs a non-blank-to-Python message or a file. */
  function ValidateRegularization(mensagem: Option<string>, hasFile: bool): (r: Result<()>)
    ensures r.Ok? <==> (mensagem.Some? && mensagem.value != "") || hasFile
    ensures r.Err? ==> r.message == MSG_REGULARIZATION_EMPTY
  {
    if !(mensagem.Some? && mensagem.value != "") && !hasFile then Err(MSG_REGULARIZATION_EMPTY) else Ok(())
  }

  // ---------------------------------------------------------------------
  // get_url_formalizacao

  /** The benefit's stored IN100 answer as the link rule reads it. */
  datatype In100Facts = In100Facts(retornouIn100: bool, speciesRegistered: bool, situacao: string)

  /** The serialized link: a value (`None` is Python's `None`), or the empty
      dict the method returns when it raises. */
  datatype LinkField = LinkValue(url: Option<string>) | ErrorDict

  /** Portability, portability with refinancing and free margin expose the
      stored link only once IN100 answered for a registered species, the
      benefit is not blocked and the last status is no refusal; other
      products always expose it. A contract without status records raises
      at the status test. */
  function UrlFormalizacao(tipoProduto: int, url: Option<string>, in100: Option<In100Facts>,
                           lastStatus: Option<int>): (r: LinkField)
    ensures tipoProduto !in {PRODUTO_PORTABILIDADE, PRODUTO_PORTABILIDADE_REFINANCIAMENTO, PRODUTO_MARGEM_LIVRE}
      ==> r == LinkValue(url)
    ensures tipoProduto in {PRODUTO_PORTABILIDADE, PRODUTO_PORTABILIDADE_REFINANCIAMENTO, PRODUTO_MARGEM_LIVRE} ==>
      (r == ErrorDict <==> in100.Some? && in100.value.retornouIn100 && in100.value.speciesRegistered
                            && !ProposalInserter.IsBenefitBlocked(in100.value.situacao) && lastStatus.None?)
      && (r != LinkValue(None) && r != ErrorDict ==>
            r == LinkValue(url)
            && in100.Some? && in100.value.retornouIn100 && in100.value.speciesRegistered
            && !ProposalInserter.IsBenefitBlocked(in100.value.situacao)
            && lastStatus.Some? && lastStatus.value !in REFUSAL_STATUSES)
  {
    if tipoProduto !in {PRODUTO_PORTABILIDADE, PRODUTO_PORTABILIDADE_REFINANCIAMENTO, PRODUTO_MARGEM_LIVRE} then
      LinkValue(url)
    else if in100.None? || !in100.value.retornouIn100 then LinkValue(None)
    else if !in100.value.speciesRegistered then LinkValue(None)
    else if ProposalInserter.IsBenefitBlocked(in100.value.situacao) then LinkValue(None)
    else if lastStatus.None? then ErrorDict
    else if lastStatus.value in REFUSAL_STATUSES then LinkValue(None)
    else LinkValue(url)
  }

  /** A refused portability-family contract never exposes a link, whatever
      its IN100 answer. */
  lemma RefusedHidesLink(tipoProduto: int, url: Option<string>, in100: Option<In100Facts>, lastStatus: int)
    requires tipoProduto in {PRODUTO_PORTABILIDADE, PRODUTO_PORTABILIDADE_REFINANCIAMENTO, PRODUTO_MARGEM_LIVRE}
    requires lastStatus in REFUSAL_STATUSES
    ensures UrlFormalizacao(tipoProduto, url, in100, Some(lastStatus)) == LinkValue(None)
  {
  }

  // ---------------------------------------------------------------------
  // get_portabilidade_refin

  /** The two statuses the port+refin block shows. */
  datatype PortRefinBlock = PortRefinBlock(status: int, statusPort: int)

  /** The block exists only when both rows do; its status is the
      portability's until the portability is finished, then the
      refinancing's, and `status_port` is always the portability's. */
  function PortRefinBlockOf(portStatus: Option<int>, refinStatus: Option<int>): (r: Option<PortRefinBlock>)
    ensures r.Some? <==> portStatus.Some? && refinStatus.Some?
    ensures r.Some? ==> r.value.statusPort == portStatus.value
    ensures r.Some? ==> r.value.status == PortRefinStatus(portStatus.value, refinStatus.value)
  {
    if portStatus.None? || refinStatus.None? then None
    else if portStatus.value != INT_FINALIZADO then Some(PortRefinBlock(portStatus.value, portStatus.value))
    else Some(PortRefinBlock(refinStatus.value, portStatus.value))
  }

  /** The serializer's status agrees with the product status the contract
      model reports for a portability with refinancing. */
  lemma BlockAgreesWithStatusProduto(rows: ProductRows)
    requires rows.portability.Some? && rows.refinancing.Some?
    ensures var b := PortRefinBlockOf(rows.portability, rows.refinancing);
      b.Some? && StatusProduto(PRODUTO_PORTABILIDADE_REFINANCIAMENTO, rows) == Ok(Shown(b.value.status))
  {
    StatusProdutoPortRefin(rows);
  }

  // ---------------------------------------------------------------------
  // get_id_pending_account

  /** The product row a contract's pending account is read from: absent,
      or present with its refused-payment data. The bank data string stands
      for the account's primary key. */
  function PendingAccountId(tipoProduto: int, freeMargin: Option<Option<RefusedPayment>>,
                            refinancing: Option<Option<RefusedPayment>>): (r: Result<string>)
    ensures tipoProduto == PRODUTO_MARGEM_LIVRE ==>
      r.Ok? && (r.value != "" ==> freeMargin.Some? && FreeMarginPendingAccount(freeMargin.value)
                                  && r.value == freeMargin.value.value.bankData.value)
      && (freeMargin.Some? && FreeMarginPendingAccount(freeMargin.value) ==> r.value == freeMargin.value.value.bankData.value)
    ensures tipoProduto == PRODUTO_PORTABILIDADE_REFINANCIAMENTO ==>
      (r.Ok? <==> refinancing.Some?)
      && (r.Ok? ==> (r.value != "" <==> RefinancingPendingAccount(refinancing.value)))
    ensures tipoProduto !in {PRODUTO_MARGEM_LIVRE, PRODUTO_PORTABILIDADE_REFINANCIAMENTO} ==> r == Ok("")
  {
    if tipoProduto == PRODUTO_MARGEM_LIVRE then
      if freeMargin.Some? && FreeMarginPendingAccount(freeMargin.value) then Ok(freeMargin.value.value.bankData.value)
      else Ok("")
    else if tipoProduto == PRODUTO_PORTABILIDADE_REFINANCIAMENTO then
      if refinancing.None? then Err("AttributeError")
      else if RefinancingPendingAccount(refinancing.value) then Ok(refinancing.value.value.bankData.value)
      else Ok("")
    else Ok("")
  }
}
