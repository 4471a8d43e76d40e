/** The contract export of the admin (contract/admin.py): the column set
    the front-office and back-office reports keep, and the value-selection
    rules of the `dehydrate_*` columns. A cell is text, an amount, a raw
    boolean (a column exported without a `dehydrate_` method), or Python's
    `None`. */
module ContractAdmin {
  import opened Common
  import opened Codes
  import opened Contracts

  // ---------------------------------------------------------------------
  // ContratoResource.__init__

  /** The document flags both reports carry, in the same order. */
  const DOCUMENT_COLUMNS: seq<string> := [
    "enviado_documento_pessoal", "pendente_documento_pessoal", "campos_pendentes",
    "enviado_comprovante_residencia", "pendente_comprovante_residencia", "selfie_enviada",
    "selfie_pendente", "contracheque_enviado", "contracheque_pendente", "adicional_enviado",
    "adicional_pendente"]

  const FRONT_FIELDS: seq<string> := FRONT_HEAD + DOCUMENT_COLUMNS + FRONT_TAIL
  const FRONT_HEAD: seq<string> := [
    "numero_cpf", "numero_contrato", "digitado_por", "cliente", "idade", "status",
    "tipo_produto", "tipo_contrato", "corban", "login_usuario", "vlr_proposta",
    "vlr_liberado_cliente", "data_cadastro", "data_status", "data_integracao", "qtd_parcelas",
    "vlr_parcela", "taxa_operacao", "troco", "troco_recalculado", "limite_pre_aprovado",
    "seguro", "vr_seguro", "taxa_seguro", "plano"]
  const FRONT_TAIL: seq<string> := [
    "recusa_portabilidade", "data_envio_CIP", "data_retorno_saldo_CIP", "valor_proposta_cip",
    "taxa_recalculada"]

  const BACKOFFICE_FIELDS: seq<string> := BACKOFFICE_HEAD + DOCUMENT_COLUMNS + BACKOFFICE_TAIL
  const BACKOFFICE_HEAD: seq<string> := [
    "numero_contrato", "cliente", "numero_cpf", "idade", "especie_beneficio", "status",
    "contrato_assinado", "contrato_pago", "tipo_produto", "tipo_contrato", "corban",
    "login_usuario", "digitado_por", "vlr_proposta", "vlr_liberado_cliente", "data_cadastro",
    "data_status", "data_integracao", "qtd_parcelas", "vlr_parcela", "taxa_operacao", "cet_ano",
    "cet_mes", "taxa_efetiva_ano", "taxa_efetiva_mes", "vlr_tac", "vlr_iof",
    "vlr_iof_adicional", "vlr_iof_seguro", "vlr_iof_total", "limite_pre_aprovado", "seguro",
    "vr_seguro", "taxa_seguro", "plano"]
  const BACKOFFICE_TAIL: seq<string> := [
    "observacoes", "restricoes", "regras_validadas", "token_contrato", "token_envelope",
    "numero_contrato_original", "banco_atacado", "quantidade_de_parcelas_digitadas",
    "quantidade_de_parcelas_cip", "valor_parcela", "valor_parcela_cip",
    "valor_parcela_recalculada", "valor_proposta_digitada", "valor_proposta_cip",
    "taxa_digitada", "taxa_cip", "taxa_recalculada", "recusa_portabilidade", "data_envio_CIP",
    "data_retorno_saldo_CIP", "troco", "troco_recalculado"]

  /** The report's wanted columns. */
  function WantedFields(isFront: bool): seq<string> {
    if isFront then FRONT_FIELDS else BACKOFFICE_FIELDS
  }

  /** Popping every declared column that is not wanted, keeping the order
      of the rest. */
  function FilterFields(fields: seq<string>, wanted: seq<string>): (r: seq<string>)
    ensures forall i :: 0 <= i < |r| ==> r[i] in wanted && r[i] in fields
    ensures forall f :: f in fields && f in wanted ==> f in r
    ensures |r| <= |fields|
  {
    if |fields| == 0 then []
    else if fields[0] in wanted then [fields[0]] + FilterFields(fields[1..], wanted)
    else FilterFields(fields[1..], wanted)
  }

  /** Filtering again changes nothing. */
  lemma {:induction false} FilterFieldsIdempotent(fields: seq<string>, wanted: seq<string>)
    ensures FilterFields(FilterFields(fields, wanted), wanted) == FilterFields(fields, wanted)
  {
    if |fields| > 0 {
      FilterFieldsIdempotent(fields[1..], wanted);
      if fields[0] in wanted {
        assert ([fields[0]] + FilterFields(fields[1..], wanted))[1..] == FilterFields(fields[1..], wanted);
      }
    }
  }

  /** The declared balance column is in neither report, so it is always
      dropped. */
  lemma SaldoDevedorNeverExported(fields: seq<string>, isFront: bool)
    ensures "saldo_devedor" !in FilterFields(fields, WantedFields(isFront))
  {
    var x := "saldo_devedor";
    NotInByHead(x, DOCUMENT_COLUMNS);
    if isFront {
      NotInByHead(x, FRONT_HEAD);
      NotInByHead(x, FRONT_TAIL);
      NotInParts(x, FRONT_HEAD, DOCUMENT_COLUMNS, FRONT_TAIL);
    } else {
      NotInByHead(x, BACKOFFICE_HEAD);
      NotInByHead(x, BACKOFFICE_TAIL);
      NotInParts(x, BACKOFFICE_HEAD, DOCUMENT_COLUMNS, BACKOFFICE_TAIL);
    }
    NotWantedDropped(x, fields, WantedFields(isFront));
  }

  /** A text in none of three lists is not in their concatenation. */
  lemma NotInParts(x: string, a: seq<string>, b: seq<string>, c: seq<string>)
    requires x !in a && x !in b && x !in c
    ensures x !in a + b + c
  {
  }

  /** A column the report does not want is dropped. */
  lemma NotWantedDropped(x: string, fields: seq<string>, wanted: seq<string>)
    requires x !in wanted
    ensures x !in FilterFields(fields, wanted)
  {
  }

  /** A text that differs from every list entry in length or first letter
      is not in the list. */
  lemma NotInByHead(x: string, xs: seq<string>)
    requires |x| > 0
    requires forall i :: 0 <= i < |xs| ==> |xs[i]| != |x| || xs[i][0] != x[0]
    ensures x !in xs
  {
  }

  // ---------------------------------------------------------------------
  // Cells

  datatype Cell = Text(text: string) | Amount(value: int) | RawBool(flag: bool) | PyNone

  /** The 'SIM'/'NÃO' rendering of a flag. */
  function YesNo(b: bool): (r: Cell)
    ensures r == Text("SIM") || r == Text("NÃO")
    ensures (r == Text("SIM")) <==> b
  {
    if b then Text("SIM") else Text("NÃO")
  }

  /** The flag columns: the signature and payment flags and the document
      flags. */
  const FLAG_COLUMNS: set<string> := {"contrato_assinado", "contrato_pago"} + (set c | c in DOCUMENT_COLUMNS)

  /** A flag column as written: every flag column has a `dehydrate_`
      method but the additional-document one, whose method is spelled
      `deydrate_`; the export never calls it and the raw flag goes out. */
  function FlagCellAsWritten(column: string, flag: bool): (r: Cell)
    ensures column in FLAG_COLUMNS && column != "adicional_enviado" ==> r == YesNo(flag)
    ensures column == "adicional_enviado" ==> r == RawBool(flag)
  {
    if column in FLAG_COLUMNS - {"adicional_enviado"} then YesNo(flag) else RawBool(flag)
  }

  /** The additional document's sent flag comes out raw while its pending
      neighbour is rendered. */
  lemma FlagCellAsWrittenRawForAdditional()
    ensures FlagCellAsWritten("adicional_enviado", true) == RawBool(true)
    ensures FlagCellAsWritten("adicional_pendente", true) == Text("SIM")
  {
    assert DOCUMENT_COLUMNS[10] == "adicional_pendente";
  }

  /** Every flag column rendered, the additional-document one included. */
  function FlagCell(column: string, flag: bool): (r: Cell)
    ensures column in FLAG_COLUMNS ==> r == YesNo(flag)
    ensures column !in FLAG_COLUMNS ==> r == RawBool(flag)
  {
    if column in FLAG_COLUMNS then YesNo(flag) else RawBool(flag)
  }

  /** Both reports carry every document flag and the back office also the
      signature and payment flags, so each comes out as 'SIM' or 'NÃO'. */
  lemma FlagColumnsRendered(column: string, flag: bool)
    requires column in FLAG_COLUMNS
    ensures FlagCell(column, flag) == Text("SIM") || FlagCell(column, flag) == Text("NÃO")
    ensures column in DOCUMENT_COLUMNS ==> column in FRONT_FIELDS
    ensures column in BACKOFFICE_FIELDS
  {
    if column in DOCUMENT_COLUMNS {
      InMiddle(column, FRONT_HEAD, DOCUMENT_COLUMNS, FRONT_TAIL);
      InMiddle(column, BACKOFFICE_HEAD, DOCUMENT_COLUMNS, BACKOFFICE_TAIL);
    } else {
      assert BACKOFFICE_HEAD[6] == "contrato_assinado" && BACKOFFICE_HEAD[7] == "contrato_pago";
      InHead(column, BACKOFFICE_HEAD, DOCUMENT_COLUMNS, BACKOFFICE_TAIL);
    }
  }

  /** A text of the middle list is in the concatenation. */
  lemma InMiddle(x: string, a: seq<string>, b: seq<string>, c: seq<string>)
    requires x in b
    ensures x in a + b + c
  {
    assert x in a + b;
  }

  /** A text of the first list is in the concatenation. */
  lemma InHead(x: string, a: seq<string>, b: seq<string>, c: seq<string>)
    requires x in a
    ensures x in a + b + c
  {
    assert x in a + b;
  }

  // ---------------------------------------------------------------------
  // dehydrate_observacoes, dehydrate_restricoes, dehydrate_regras_validadas

  /** The refusal statuses whose desk note is the observation. */
  const OBSERVATION_STATUSES: set<int> := {
    REPROVADA_MESA_DE_FORMALIZACAO, REPROVADA_MESA_FORMALIZACAO, REPROVADA_POLITICA_INTERNA,
    REPROVADA_FINALIZADA, SALDO_REPROVADO}

  /** The note of the first refusal record in stored order, else the last
      record's note when it is not empty, else the empty text. */
  function Observacoes(log: seq<StatusRecord>): (r: string)
    ensures (exists i :: 0 <= i < |log| && log[i].nome in OBSERVATION_STATUSES) ==>
      exists i :: 0 <= i < |log| && log[i].nome in OBSERVATION_STATUSES
                  && (forall j :: 0 <= j < i ==> log[j].nome !in OBSERVATION_STATUSES)
                  && r == log[i].descricao
    ensures (forall i :: 0 <= i < |log| ==> log[i].nome !in OBSERVATION_STATUSES) ==>
      r == (if |log| > 0 then log[|log| - 1].descricao else "")
  {
    match FirstIndex(log, (s: StatusRecord) => s.nome in OBSERVATION_STATUSES)
    case Some(i) => log[i].descricao
    case None => if |log| > 0 && log[|log| - 1].descricao != "" then log[|log| - 1].descricao else ""
  }

  /** A contract validation: checked or not, with its note. */
  datatype Validation = Validation(checked: bool, mensagem: string)

  /** The notes of the unchecked validations, concatenated with no separator. */
  function Restricoes(vs: seq<Validation>): (r: string)
    ensures |r| <= SumNotes(vs)
    ensures (forall i :: 0 <= i < |vs| ==> vs[i].checked) ==> r == ""
    ensures (forall i :: 0 <= i < |vs| ==> !vs[i].checked) ==> |r| == SumNotes(vs)
  {
    if |vs| == 0 then ""
    else (if vs[0].checked then "" else vs[0].mensagem) + Restricoes(vs[1..])
  }

  /** The notes of two runs of validations are the first run's notes
      followed by the second's: the column keeps the validations' order. */
  lemma {:induction false} RestricoesAppend(a: seq<Validation>, b: seq<Validation>)
    ensures Restricoes(a + b) == Restricoes(a) + Restricoes(b)
    decreases |a|
  {
    if |a| == 0 {
      assert a + b == b;
    } else {
      assert (a + b)[0] == a[0];
      assert (a + b)[1..] == a[1..] + b;
      RestricoesAppend(a[1..], b);
    }
  }

  function SumNotes(vs: seq<Validation>): nat {
    if |vs| == 0 then 0 else |vs[0].mensagem| + SumNotes(vs[1..])
  }

  /** 'NAO' exactly when some validation is unchecked. */
  function RegrasValidadas(vs: seq<Validation>): (r: string)
    ensures r == "NAO" <==> exists i :: 0 <= i < |vs| && !vs[i].checked
    ensures r == "NAO" || r == "SIM"
  {
    if exists i :: 0 <= i < |vs| && !vs[i].checked then "NAO" else "SIM"
  }

  /** The two columns agree: fully validated contracts have no
      restrictions, and a restriction text means some rule is unchecked. */
  lemma {:induction false} RestrictionsMatchValidation(vs: seq<Validation>)
    ensures RegrasValidadas(vs) == "SIM" ==> Restricoes(vs) == ""
    ensures Restricoes(vs) != "" ==> RegrasValidadas(vs) == "NAO"
  {
    if |vs| > 0 {
      RestrictionsMatchValidation(vs[1..]);
      if RegrasValidadas(vs[1..]) == "NAO" {
        var k :| 0 <= k < |vs[1..]| && !vs[1..][k].checked;
        assert !vs[k + 1].checked;
      }
    }
  }

  // ---------------------------------------------------------------------
  // dehydrate_vlr_proposta

  datatype PortBalance = PortBalance(saldoDevedorAtualizado: int, saldoDevedor: int)
  datatype RefinTotals = RefinTotals(valorTotalRecalculado: int, valorTotal: int, troco: int)
  datatype FreeMarginValues = FreeMarginValues(vrContrato: int, vrLiberadoCliente: int)
  datatype CardWithdrawal = CardWithdrawal(valorSaque: int, possuiSaque: bool, saqueParcelado: bool)

  /** The last product rows of a contract, absent when none exists. Amounts
      are in cents; zero is Python-falsy. */
  datatype ProposalRows = ProposalRows(port: Option<PortBalance>, refin: Option<RefinTotals>,
                                       freeMargin: Option<FreeMarginValues>, withdrawal: Option<int>,
                                       card: Option<CardWithdrawal>)

  const CARD_TYPES: set<int> := {PRODUTO_CARTAO_BENEFICIO, PRODUTO_CARTAO_BENEFICIO_REPRESENTANTE, PRODUTO_CARTAO_CONSIGNADO}

  /** The card column: its withdrawal amount, 'sem saque' for a card with no
      withdrawal of either kind, the empty text otherwise. */
  function CardProposal(card: Option<CardWithdrawal>): Cell {
    if card.None? then Text("N/A")
    else if card.value.valorSaque != 0 then Amount(card.value.valorSaque)
    else if !(card.value.possuiSaque || card.value.saqueParcelado) then Text("sem saque")
    else Text("")
  }

  /** The product-specific value shared by both versions, for every product
      but the supplementary withdrawal. */
  function ProposalValueOthers(tipoProduto: int, rows: ProposalRows): (r: Cell)
    ensures tipoProduto == PRODUTO_PORTABILIDADE ==>
      (rows.port.None? ==> r == Text("N/A"))
      && (rows.port.Some? ==> r == Amount(if rows.port.value.saldoDevedorAtualizado != 0
                                          then rows.port.value.saldoDevedorAtualizado
                                          else rows.port.value.saldoDevedor))
  {
    if tipoProduto == PRODUTO_PORTABILIDADE then
      if rows.port.None? then Text("N/A")
      else if rows.port.value.saldoDevedorAtualizado != 0 then Amount(rows.port.value.saldoDevedorAtualizado)
      else Amount(rows.port.value.saldoDevedor)
    else if tipoProduto == PRODUTO_PORTABILIDADE_REFINANCIAMENTO then
      if rows.refin.None? then Text("N/A")
      else if rows.refin.value.valorTotalRecalculado != 0 then Amount(rows.refin.value.valorTotalRecalculado)
      else Amount(rows.refin.value.valorTotal)
    else if tipoProduto == PRODUTO_MARGEM_LIVRE then
      if rows.freeMargin.None? then Text("N/A")
      else if rows.freeMargin.value.vrContrato != 0 then Amount(rows.freeMargin.value.vrContrato)
      else Text("")
    else if tipoProduto in CARD_TYPES then CardProposal(rows.card)
    else Text("")
  }

  /** `dehydrate_vlr_proposta` as written: the supplementary-withdrawal
      branch tests the row inside the walrus guard that already required
      it, so a missing row falls through to the empty text. */
  function VlrPropostaAsWritten(tipoProduto: int, rows: ProposalRows): (r: Cell)
    ensures tipoProduto != PRODUTO_SAQUE_COMPLEMENTAR ==> r == ProposalValueOthers(tipoProduto, rows)
    ensures tipoProduto == PRODUTO_SAQUE_COMPLEMENTAR ==>
      r == (if rows.withdrawal.Some? then Amount(rows.withdrawal.value) else Text(""))
  {
    if tipoProduto == PRODUTO_SAQUE_COMPLEMENTAR then
      if rows.withdrawal.Some? then Amount(rows.withdrawal.value) else Text("")
    else ProposalValueOthers(tipoProduto, rows)
  }

  lemma VlrPropostaAsWrittenHidesMissingRow()
    ensures VlrPropostaAsWritten(PRODUTO_SAQUE_COMPLEMENTAR, ProposalRows(None, None, None, None, None)) == Text("")
    ensures VlrProposta(PRODUTO_SAQUE_COMPLEMENTAR, ProposalRows(None, None, None, None, None)) == Text("N/A")
  {
  }

  /** The proposal value with the 'N/A' of a missing row for every product
      that has one: portability shows the updated balance when set, else
      the typed one; port+refin the recalculated total, else the total. */
  function VlrProposta(tipoProduto: int, rows: ProposalRows): (r: Cell)
    ensures tipoProduto in {PRODUTO_PORTABILIDADE, PRODUTO_PORTABILIDADE_REFINANCIAMENTO, PRODUTO_MARGEM_LIVRE,
                            PRODUTO_SAQUE_COMPLEMENTAR} + CARD_TYPES ==>
      (r == Text("N/A") <==>
         (tipoProduto == PRODUTO_PORTABILIDADE && rows.port.None?)
         || (tipoProduto == PRODUTO_PORTABILIDADE_REFINANCIAMENTO && rows.refin.None?)
         || (tipoProduto == PRODUTO_MARGEM_LIVRE && rows.freeMargin.None?)
         || (tipoProduto == PRODUTO_SAQUE_COMPLEMENTAR && rows.withdrawal.None?)
         || (tipoProduto in CARD_TYPES && rows.card.None?))
    ensures tipoProduto == PRODUTO_PORTABILIDADE && rows.port.Some? ==>
      r == Amount(if rows.port.value.saldoDevedorAtualizado != 0 then rows.port.value.saldoDevedorAtualizado
                  else rows.port.value.saldoDevedor)
  {
    if tipoProduto == PRODUTO_SAQUE_COMPLEMENTAR then
      if rows.withdrawal.Some? then Amount(rows.withdrawal.value) else Text("N/A")
    else ProposalValueOthers(tipoProduto, rows)
  }

  /** The two versions differ only on a supplementary withdrawal without
      its row. */
  lemma VlrPropostaVersionsAgree(tipoProduto: int, rows: ProposalRows)
    requires !(tipoProduto == PRODUTO_SAQUE_COMPLEMENTAR && rows.withdrawal.None?)
    ensures VlrPropostaAsWritten(tipoProduto, rows) == VlrProposta(tipoProduto, rows)
  {
  }

  // ---------------------------------------------------------------------
  // dehydrate_vlr_liberado_cliente

  /** The products with a released-amount rule. */
  const RELEASING_PRODUCTS: set<int> :=
    {PRODUTO_PORTABILIDADE, PRODUTO_PORTABILIDADE_REFINANCIAMENTO, PRODUTO_MARGEM_LIVRE} + CARD_TYPES

  /** The amount released to the client: '0' for a portability; the
      refinancing's change or the free margin's released amount, each the
      empty text when zero; a card's withdrawal when set; 'N/A' when the
      product row is missing and the empty text for other products. */
  function VlrLiberadoCliente(tipoProduto: int, rows: ProposalRows): (r: Cell)
    ensures tipoProduto == PRODUTO_PORTABILIDADE ==> r == Text("0")
    ensures tipoProduto == PRODUTO_PORTABILIDADE_REFINANCIAMENTO && rows.refin.Some? ==>
      r == (if rows.refin.value.troco != 0 then Amount(rows.refin.value.troco) else Text(""))
    ensures tipoProduto == PRODUTO_MARGEM_LIVRE && rows.freeMargin.Some? ==>
      r == (if rows.freeMargin.value.vrLiberadoCliente != 0 then Amount(rows.freeMargin.value.vrLiberadoCliente)
            else Text(""))
    ensures r.Amount? ==> r.value != 0
    ensures tipoProduto !in RELEASING_PRODUCTS ==> r == Text("")
  {
    if tipoProduto == PRODUTO_PORTABILIDADE then Text("0")
    else if tipoProduto == PRODUTO_PORTABILIDADE_REFINANCIAMENTO then
      if rows.refin.None? then Text("N/A")
      else if rows.refin.value.troco != 0 then Amount(rows.refin.value.troco)
      else Text("")
    else if tipoProduto == PRODUTO_MARGEM_LIVRE then
      if rows.freeMargin.None? then Text("N/A")
      else if rows.freeMargin.value.vrLiberadoCliente != 0 then Amount(rows.freeMargin.value.vrLiberadoCliente)
      else Text("")
    else if tipoProduto in CARD_TYPES then
      if rows.card.None? then Text("N/A")
      else if rows.card.value.valorSaque != 0 then Amount(rows.card.value.valorSaque)
      else Text("")
    else Text("")
  }

  /** The proposal and released columns mark the same missing rows 'N/A',
      except for a portability, whose released amount is always '0', and a
      supplementary withdrawal, which has no released column. */
  lemma MissingRowsAgree(tipoProduto: int, rows: ProposalRows)
    requires tipoProduto != PRODUTO_PORTABILIDADE && tipoProduto != PRODUTO_SAQUE_COMPLEMENTAR
    ensures VlrLiberadoCliente(tipoProduto, rows) == Text("N/A") <==> VlrProposta(tipoProduto, rows) == Text("N/A")
  {
  }

  /** A card with a withdrawal shows the same amount in both columns. */
  lemma CardWithdrawalInBothColumns(tipoProduto: int, rows: ProposalRows)
    requires tipoProduto in CARD_TYPES && rows.card.Some? && rows.card.value.valorSaque != 0
    ensures VlrProposta(tipoProduto, rows) == VlrLiberadoCliente(tipoProduto, rows) == Amount(rows.card.value.valorSaque)
  {
  }
}
