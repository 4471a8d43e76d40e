/** The contract record and the per-product rows hanging off it
    (contract/models/contratos.py): product families, the active-status set,
    the product status shown for a contract, and the flags the QiTech
    insertion flow sets on a portability or refinancing row. */
module Contracts {
  import opened Common
  import opened Codes

  /** One row of the contract's status history (`StatusContrato`). */
  datatype StatusRecord = StatusRecord(nome: int, descricao: string)

  /** The contract together with its status history. `status` is the
      coarse contract status, `productStatus` the status of the product row
      the operation works on (portability, card, free margin, ...). */
  datatype ContractState = ContractState(
    status: int,
    productStatus: int,
    log: seq<StatusRecord>)
  {
    function LastStatus(): Option<int> {
      if |log| == 0 then None else Some(log[|log| - 1].nome)
    }

    predicate HasStatus(nome: int) {
      exists i | 0 <= i < |log| :: log[i].nome == nome
    }
  }

  /** Appends one status record, leaving the two status fields alone. */
  function AddRecord(c: ContractState, nome: int, descricao: string): (r: ContractState)
    ensures r.status == c.status && r.productStatus == c.productStatus
    ensures |r.log| == |c.log| + 1 && r.log[..|c.log|] == c.log
    ensures r.LastStatus() == Some(nome) && r.log[|c.log|].descricao == descricao
  {
    c.(log := c.log + [StatusRecord(nome, descricao)])
  }

  // ---------------------------------------------------------------------
  // Product families

  predicate IsCardFamily(p: int) {
    p in {PRODUTO_CARTAO_BENEFICIO, PRODUTO_CARTAO_BENEFICIO_REPRESENTANTE,
          PRODUTO_CARTAO_CONSIGNADO, PRODUTO_SAQUE_COMPLEMENTAR}
  }

  predicate IsPortabilityFamily(p: int) {
    p in {PRODUTO_PORTABILIDADE, PRODUTO_PORTABILIDADE_REFINANCIAMENTO}
  }

  predicate IsInssFamily(p: int) {
    p in {PRODUTO_INSS, PRODUTO_INSS_CORBAN, PRODUTO_INSS_REPRESENTANTE_LEGAL, PRODUTO_MARGEM_LIVRE}
  }

  datatype Bucket = BucketAmigoz | BucketPortabilidade | BucketInss

  /** `Contrato.bucket_name`: the storage bucket of the product's family;
      a product outside the three families has none. */
  function BucketName(tipoProduto: int): (r: Option<Bucket>)
    ensures r == Some(BucketAmigoz) <==> IsCardFamily(tipoProduto)
    ensures r == Some(BucketPortabilidade) <==> IsPortabilityFamily(tipoProduto)
    ensures r == Some(BucketInss) <==> IsInssFamily(tipoProduto)
    ensures r.None? <==> !IsCardFamily(tipoProduto) && !IsPortabilityFamily(tipoProduto) && !IsInssFamily(tipoProduto)
  {
    if IsCardFamily(tipoProduto) then Some(BucketAmigoz)
    else if IsPortabilityFamily(tipoProduto) then Some(BucketPortabilidade)
    else if IsInssFamily(tipoProduto) then Some(BucketInss)
    else None
  }

  /** The five in-progress contract statuses. */
  const ACTIVE_STATUSES: set<int> :=
    {CONTRATO_DIGITACAO, CONTRATO_AGUARDANDO_FORMALIZACAO, CONTRATO_FORMALIZADO,
     CONTRATO_MESA, CONTRATO_EM_AVERBACAO}

  /** `Contrato.is_active`. */
  predicate IsActive(status: int)
    ensures IsActive(status) ==>
      CONTRATO_DIGITACAO <= status <= CONTRATO_MESA
      && status != CONTRATO_PAGO && status != CONTRATO_CANCELADO && status != CONTRATO_ERRO
  {
    status in ACTIVE_STATUSES
  }

  /** Of the eight contract statuses, exactly the paid, cancelled and
      erroring ones are not active. */
  lemma TerminalStatusesInactive()
    ensures forall s :: CONTRATO_DIGITACAO <= s <= CONTRATO_MESA ==>
      (IsActive(s) <==> s != CONTRATO_PAGO && s != CONTRATO_CANCELADO && s != CONTRATO_ERRO)
    ensures |ACTIVE_STATUSES| == 5
  {
  }

  // ---------------------------------------------------------------------
  // Product status of a contract

  /** The product rows a contract may own; each is absent when the row
      does not exist. Statuses are ContractStatus codes. */
  datatype ProductRows = ProductRows(
    card: Option<int>,
    portability: Option<int>,
    refinancing: Option<int>,
    supplementaryWithdrawal: Option<int>,
    freeMargin: Option<int>)

  /** The status a portability-plus-refinancing contract shows: the
      portability's, until the portability is finished, then the
      refinancing's. */
  function PortRefinStatus(portability: int, refinancing: int): (r: int)
    ensures portability != INT_FINALIZADO ==> r == portability
    ensures portability == INT_FINALIZADO ==> r == refinancing
  {
    if portability != INT_FINALIZADO then portability else refinancing
  }

  datatype ShownStatus = Shown(code: int) | Dash

  /** `Contrato.get_status_produto`: the status of the row that matches the
      product type, '-' for products without such a row kind, and an error
      where the source would dereference a missing row. */
  function StatusProduto(tipoProduto: int, rows: ProductRows): (r: Result<ShownStatus>)
    ensures (tipoProduto in {PRODUTO_CARTAO_BENEFICIO, PRODUTO_CARTAO_CONSIGNADO} && rows.card.Some?)
      ==> r == Ok(Shown(rows.card.value))
    ensures (tipoProduto == PRODUTO_PORTABILIDADE && rows.portability.Some?)
      ==> r == Ok(Shown(rows.portability.value))
    ensures (tipoProduto == PRODUTO_PORTABILIDADE_REFINANCIAMENTO && rows.portability.Some?
             && rows.portability.value != INT_FINALIZADO)
      ==> r == Ok(Shown(rows.portability.value))
    ensures (tipoProduto == PRODUTO_PORTABILIDADE_REFINANCIAMENTO && rows.portability.Some?
             && rows.portability.value == INT_FINALIZADO && rows.refinancing.Some?)
      ==> r == Ok(Shown(rows.refinancing.value))
    ensures r == Ok(Dash) <==> tipoProduto !in {PRODUTO_CARTAO_BENEFICIO, PRODUTO_CARTAO_CONSIGNADO,
      PRODUTO_PORTABILIDADE, PRODUTO_PORTABILIDADE_REFINANCIAMENTO, PRODUTO_SAQUE_COMPLEMENTAR,
      PRODUTO_MARGEM_LIVRE}
  {
    if tipoProduto in {PRODUTO_CARTAO_BENEFICIO, PRODUTO_CARTAO_CONSIGNADO} then
      if rows.card.Some? then Ok(Shown(rows.card.value)) else Err("no card row")
    else if tipoProduto == PRODUTO_PORTABILIDADE then
      if rows.portability.Some? then Ok(Shown(rows.portability.value)) else Err("no portability row")
    else if tipoProduto == PRODUTO_PORTABILIDADE_REFINANCIAMENTO then
      if rows.portability.None? then Err("no portability row")
      else if rows.portability.value != INT_FINALIZADO then Ok(Shown(rows.portability.value))
      else if rows.refinancing.Some? then Ok(Shown(rows.refinancing.value))
      else Err("no refinancing row")
    else if tipoProduto == PRODUTO_SAQUE_COMPLEMENTAR then
      if rows.supplementaryWithdrawal.Some? then Ok(Shown(rows.supplementaryWithdrawal.value))
      else Err("no withdrawal row")
    else if tipoProduto == PRODUTO_MARGEM_LIVRE then
      if rows.freeMargin.Some? then Ok(Shown(rows.freeMargin.value)) else Err("no free-margin row")
    else Ok(Dash)
  }

  /** The shown status agrees with the port+refin rule whenever both rows exist. */
  lemma StatusProdutoPortRefin(rows: ProductRows)
    requires rows.portability.Some? && rows.refinancing.Some?
    ensures StatusProduto(PRODUTO_PORTABILIDADE_REFINANCIAMENTO, rows)
      == Ok(Shown(PortRefinStatus(rows.portability.value, rows.refinancing.value)))
  {
  }

  // ---------------------------------------------------------------------
  // Proposal key

  /** What `Contrato.chave_proposta` evaluates to: the key of the matching
      product row, wrapped in a one-element tuple for free margin (a stray
      trailing comma in the source), or nothing for other products. */
  datatype ProposalKey = Plain(key: Option<string>) | OneTuple(key: Option<string>) | NoKey

  function ChaveProposta(tipoProduto: int, refinKey: Option<string>, portKey: Option<string>,
                         freeMarginKey: Option<string>): (r: ProposalKey)
    ensures tipoProduto == PRODUTO_MARGEM_LIVRE <==> r.OneTuple?
    ensures r.NoKey? <==> tipoProduto !in {PRODUTO_PORTABILIDADE_REFINANCIAMENTO, PRODUTO_PORTABILIDADE, PRODUTO_MARGEM_LIVRE}
    ensures r.OneTuple? ==> r.key == freeMarginKey
    ensures r.Plain? ==> r.key == (if tipoProduto == PRODUTO_PORTABILIDADE then portKey else refinKey)
  {
    if tipoProduto == PRODUTO_PORTABILIDADE_REFINANCIAMENTO then Plain(refinKey)
    else if tipoProduto == PRODUTO_PORTABILIDADE then Plain(portKey)
    else if tipoProduto == PRODUTO_MARGEM_LIVRE then OneTuple(freeMarginKey)
    else NoKey
  }

  // ---------------------------------------------------------------------
  // Insertion flags of the portability and refinancing rows

  datatype InsertionFlags = InsertionFlags(
    beingInserted: bool,
    insertSuccess: bool,
    ccbGenerated: bool,
    relatedPartyKey: string,
    proposalKey: string,
    statusCcb: int)

  /** `Portabilidade.flag_successfully_inserted_proposal`. */
  function PortabilityFlagSuccess(f: InsertionFlags): (r: InsertionFlags)
    ensures !r.beingInserted && r.insertSuccess
    ensures r.(beingInserted := f.beingInserted, insertSuccess := f.insertSuccess) == f
  {
    f.(beingInserted := false, insertSuccess := true)
  }

  /** `Refinanciamento.flag_successfully_inserted_proposal`: unlike the
      portability, it leaves the "being inserted" flag as it was. */
  function RefinancingFlagSuccess(f: InsertionFlags): (r: InsertionFlags)
    ensures r.insertSuccess && r.beingInserted == f.beingInserted
    ensures r.(insertSuccess := f.insertSuccess) == f
  {
    f.(insertSuccess := true)
  }

  /** The two success flaggings differ exactly when an insertion was in
      progress. */
  lemma FlagSuccessDifference(f: InsertionFlags)
    ensures PortabilityFlagSuccess(f) == RefinancingFlagSuccess(f) <==> !f.beingInserted
  {
  }

  /** `update_data_on_qi_tech_success_response` (both rows). */
  function QiTechSuccessUpdate(f: InsertionFlags, relatedPartyKey: string, proposalKey: string): (r: InsertionFlags)
    ensures r.relatedPartyKey == relatedPartyKey && r.proposalKey == proposalKey
    ensures r.statusCcb == CCB_PENDING_SUBIMISSION
    ensures r.beingInserted == f.beingInserted && r.insertSuccess == f.insertSuccess
      && r.ccbGenerated == f.ccbGenerated
  {
    f.(relatedPartyKey := relatedPartyKey, proposalKey := proposalKey, statusCcb := CCB_PENDING_SUBIMISSION)
  }

  // ---------------------------------------------------------------------
  // Pending bank account after a refused payment

  /** Refused-payment data: absent, or present with optional bank data
      (present but empty is possible). */
  datatype RefusedPayment = RefusedPayment(bankData: Option<string>)

  /** `MargemLivre.is_there_a_pending_account`: bank data merely present. */
  predicate FreeMarginPendingAccount(refused: Option<RefusedPayment>) {
    refused.Some? && refused.value.bankData.Some?
  }

  /** `Refinanciamento.is_there_a_pending_account`: bank data truthy. */
  predicate RefinancingPendingAccount(refused: Option<RefusedPayment>) {
    refused.Some? && refused.value.bankData.Some? && refused.value.bankData.value != ""
  }

  /** The two rows agree except on present-but-empty bank data. */
  lemma PendingAccountAgreement(refused: Option<RefusedPayment>)
    ensures RefinancingPendingAccount(refused) ==> FreeMarginPendingAccount(refused)
    ensures (FreeMarginPendingAccount(refused) && !RefinancingPendingAccount(refused))
      <==> refused == Some(RefusedPayment(Some("")))
  {
  }
}
