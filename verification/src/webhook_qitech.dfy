/** The decision part of the QiTech webhook handler
    (handlers/webhook_qitech/__init__.py): how benefit-query terms are
    translated, which contracts an "inexistent benefit" answer rejects,
    when an endorsement failure is handed to the pending-approval
    validator, and which Dataprev return codes reject a free-margin
    contract. The external translator and the validators are left out;
    the model says only when they are called. */
module WebhookQitech {
  import opened Common
  import opened Codes

  // ---------------------------------------------------------------------
  // traduzir_campo

  datatype Translation = Known(term: string) | Translate(text: string)

  const TRANSLATED_LABELS: set<string> :=
    {"ELEGÍVEIS", "INELEGÍVEL", "BLOQUEADO", "NÃO PAGADOR", "PAGADOR", "BENEFÍCIO", "NÃO ENCONTRADO"}

  /** Underscores become spaces; the listed spellings of the seven known
      terms get their Portuguese label, and anything else goes to the
      external translator (whose answer is upper-cased). */
  function TraduzirCampo(valor: string): (r: Translation)
    ensures r.Known? ==> r.term in TRANSLATED_LABELS
    ensures r.Translate? ==> r.text == ReplaceChar(valor, '_', ' ')
    ensures forall i :: 0 <= i < |valor| && valor[i] == '_' && r.Translate? ==> r.text[i] == ' '
  {
    var v := ReplaceChar(valor, '_', ' ');
    if v in {"elegible", "Elegible", "ELEGIBLE"} then Known("ELEGÍVEIS")
    else if v in {"inelegible", "Inelegible", "INELEGIBLE"} then Known("INELEGÍVEL")
    else if v in {"blocked", "Blocked", "BLOCKED"} then Known("BLOQUEADO")
    else if v in {"not payer", "Not payer", "Not Payer", "NOT PAYER"} then Known("NÃO PAGADOR")
    else if v in {"payer", "Payer", "PAYER"} then Known("PAGADOR")
    else if v in {"benefit", "Benefit", "BENEFIT"} then Known("BENEFÍCIO")
    else if v in {"not found", "Not found", "Not Found", "not Found", "NOT FOUND"} then Known("NÃO ENCONTRADO")
    else Translate(v)
  }

  /** Replacing underscores a second time changes nothing. */
  lemma ReplaceUnderscoresTwice(s: string)
    ensures ReplaceChar(ReplaceChar(s, '_', ' '), '_', ' ') == ReplaceChar(s, '_', ' ')
  {
    var once := ReplaceChar(s, '_', ' ');
    var twice := ReplaceChar(once, '_', ' ');
    assert |twice| == |once|;
    forall i | 0 <= i < |once| ensures twice[i] == once[i] {
      assert once[i] != '_';
    }
  }

  /** Underscores and spaces are interchangeable in the webhook's terms. */
  lemma TranslationIgnoresUnderscores(valor: string)
    ensures TraduzirCampo(ReplaceChar(valor, '_', ' ')) == TraduzirCampo(valor)
  {
    ReplaceUnderscoresTwice(valor);
  }

  /** Every spelling of "not payer", with underscores or spaces, is
      recognised. */
  lemma SnakeCaseNotPayer(valor: string)
    requires ReplaceChar(valor, '_', ' ') in {"not payer", "Not payer", "Not Payer", "NOT PAYER"}
    ensures TraduzirCampo(valor) == Known("NÃO PAGADOR")
  {
  }

  /** Likewise every spelling of "not found". */
  lemma SnakeCaseNotFound(valor: string)
    requires ReplaceChar(valor, '_', ' ') in {"not found", "Not found", "Not Found", "not Found", "NOT FOUND"}
    ensures TraduzirCampo(valor) == Known("NÃO ENCONTRADO")
  {
  }

  // ---------------------------------------------------------------------
  // "inexistent benefit": rejecting the client's pending contracts

  /** The product statuses in which a contract still waits on the
      benefit query. The third is written as the enumeration member, which
      the model takes to equal its code. */
  const STATUS_BENEFICIO: set<int> := {AGUARDANDO_RETORNO_IN100, FORMALIZACAO_CLIENTE, AGUARDANDO_IN100_RECALCULO}

  /** A contract of the client with that benefit number: its product,
      its contract status, the status of its product record and, for a
      portability with refinancing, the refinancing's status; `records`
      are the status records created, newest last. */
  datatype BenefitContract = BenefitContract(
    produto: int, contractStatus: int, productStatus: int, refinStatus: int, records: seq<int>)

  predicate IsPortability(produto: int) {
    produto in {PRODUTO_PORTABILIDADE, PRODUTO_PORTABILIDADE_REFINANCIAMENTO}
  }

  /** A portability still waiting on the benefit is rejected and its
      contract cancelled (with its refinancing rejected too); a free-margin
      contract waiting on it has its product rejected, and its contract
      status is left as it was. Anything else is untouched. */
  function RejectInexistentBenefit(c: BenefitContract): (r: BenefitContract)
    ensures r.produto == c.produto
    ensures var hit := (IsPortability(c.produto) || c.produto == PRODUTO_MARGEM_LIVRE)
                       && c.productStatus in STATUS_BENEFICIO;
      && (r.productStatus == (if hit then REPROVADO else c.productStatus))
      && (r.records == c.records + (if hit then [REPROVADO] else []))
    ensures r.contractStatus != c.contractStatus ==>
      IsPortability(c.produto) && r.contractStatus == CONTRATO_CANCELADO
    ensures r.refinStatus != c.refinStatus ==>
      c.produto == PRODUTO_PORTABILIDADE_REFINANCIAMENTO && r.refinStatus == REPROVADO
  {
    if IsPortability(c.produto) && c.productStatus in STATUS_BENEFICIO then
      c.(productStatus := REPROVADO, contractStatus := CONTRATO_CANCELADO,
         refinStatus := if c.produto == PRODUTO_PORTABILIDADE_REFINANCIAMENTO then REPROVADO else c.refinStatus,
         records := c.records + [REPROVADO])
    else if c.produto == PRODUTO_MARGEM_LIVRE && c.productStatus in STATUS_BENEFICIO then
      c.(productStatus := REPROVADO, records := c.records + [REPROVADO])
    else c
  }

  /** A repeated webhook rejects nothing more: a rejected contract no
      longer waits on the benefit. */
  lemma InexistentBenefitIdempotent(c: BenefitContract)
    ensures RejectInexistentBenefit(RejectInexistentBenefit(c)) == RejectInexistentBenefit(c)
  {
    assert REPROVADO !in STATUS_BENEFICIO;
  }

  // ---------------------------------------------------------------------
  // Endorsement failure

  /** The enumerators of an endorsement failure; the five named ones are
      the errors about the client's data that the pending-approval
      validator deals with. */
  datatype EndorsementError =
    | InvalidDisbursementAccount
    | FirstNameMismatch
    | InvalidState
    | InvalidBankCode
    | WrongBenefitNumberOnPortability
    | OtherError(enumerator: string)

  predicate Ignored(e: EndorsementError) { !e.OtherError? }

  /** The validator runs when the failure's enumerators meet the named
      set (the comment beside the test says the opposite; the code is
      followed). */
  function RunsPendingApproval(errors: seq<EndorsementError>): (b: bool)
    ensures b <==> exists i :: 0 <= i < |errors| && Ignored(errors[i])
  {
    if |errors| == 0 then false
    else
      assert forall i :: 1 <= i < |errors| ==> errors[i] == errors[1..][i - 1];
      Ignored(errors[0]) || RunsPendingApproval(errors[1..])
  }

  /** Only the set of enumerators matters: the validator runs for a
      combined answer exactly when it runs for one of the parts. */
  lemma {:induction false} PendingApprovalOfUnion(a: seq<EndorsementError>, b: seq<EndorsementError>)
    ensures RunsPendingApproval(a + b) == (RunsPendingApproval(a) || RunsPendingApproval(b))
  {
    if |a| > 0 {
      assert (a + b)[0] == a[0];
      assert (a + b)[1..] == a[1..] + b;
      PendingApprovalOfUnion(a[1..], b);
    } else {
      assert a + b == b;
    }
  }

  // ---------------------------------------------------------------------
  // Dataprev return on a free-margin contract

  /** The nineteen Dataprev codes that reject a free-margin contract. */
  const DATAPREV_REJECTION_CODES: set<string> :=
    {"IE", "AN", "HX", "IF", "AV", "OF", "IA", "OS", "AY", "HZ",
     "AP", "GA", "BC", "NC", "NB", "CA", "HR", "PV", "IR"}

  /** A free-margin contract: its product status, contract status, last
      Dataprev code and the status records created, newest last. */
  datatype FreeMargin = FreeMargin(status: int, contractStatus: int, codigo: string, records: seq<int>)

  /** The code is stored; a rejecting code on a contract not yet rejected
      rejects it, cancels the contract and records the rejection. */
  function ApplyDataprevCode(m: FreeMargin, codigo: string): (r: FreeMargin)
    ensures r.codigo == codigo
    ensures var rejects := codigo in DATAPREV_REJECTION_CODES && m.status != REPROVADO;
      && (r.status == (if rejects then REPROVADO else m.status))
      && (r.contractStatus == (if rejects then CONTRATO_CANCELADO else m.contractStatus))
      && (r.records == m.records + (if rejects then [REPROVADO] else []))
  {
    var stored := m.(codigo := codigo);
    if codigo in DATAPREV_REJECTION_CODES && m.status != REPROVADO then
      stored.(status := REPROVADO, contractStatus := CONTRATO_CANCELADO, records := m.records + [REPROVADO])
    else stored
  }

  /** The same code delivered twice rejects the contract once. */
  lemma DataprevCodeIdempotent(m: FreeMargin, codigo: string)
    ensures ApplyDataprevCode(ApplyDataprevCode(m, codigo), codigo) == ApplyDataprevCode(m, codigo)
  {
  }

  /** After any code the contract is rejected exactly when it was, or
      the code is one of the nineteen. */
  lemma DataprevRejectsExactly(m: FreeMargin, codigo: string)
    ensures ApplyDataprevCode(m, codigo).status == REPROVADO
            <==> m.status == REPROVADO || codigo in DATAPREV_REJECTION_CODES
  {
  }
}
