/** The portability API views (contract/products/portabilidade/api/views.py):
    the Corban desk actions (approve, pend, decline), the benefit check of
    a recalculated portability, the list of pending fields the back office
    writes when it pends a contract, and the two one-field product updates. */
module PortabilityApiViews {
  import opened Common
  import opened Codes
  import opened Contracts
  import BenefitRules

  const HTTP_OK: int := 200
  const HTTP_BAD_REQUEST: int := 400
  const HTTP_NOT_FOUND: int := 404

  // ---------------------------------------------------------------------
  // AcaoCorban

  /** The three Corban desk actions and anything else the request names. */
  datatype CorbanAction = Aprovar | Pendenciar | Recusar | Outra

  /** A contract as the desk sees it: its product, whether it is the main
      proposal of its envelope, its rows (`productStatus` is the product
      row's status), its refinancing row, whether its card convenio is an
      INSS one and the contract was typed by hand, and its pending flags. */
  datatype CorbanContract = CorbanContract(
    tipoProduto: int, isMainProposal: bool, state: ContractState, refinStatus: Option<int>,
    convenioInss: bool, digitacaoManual: bool, pendenteDocumento: bool, selfiePendente: bool)

  /** The card products of the desk (the complementary withdrawal is not one). */
  predicate IsDeskCard(tipoProduto: int) {
    tipoProduto in {PRODUTO_CARTAO_BENEFICIO, PRODUTO_CARTAO_BENEFICIO_REPRESENTANTE, PRODUTO_CARTAO_CONSIGNADO}
  }

  /** `get_product` finds a row: portability, free margin and desk cards. */
  predicate HasProductRow(tipoProduto: int) {
    IsPortabilityFamily(tipoProduto) || tipoProduto == PRODUTO_MARGEM_LIVRE || IsDeskCard(tipoProduto)
  }

  const ERR_NO_ROW: string := "AttributeError: 'NoneType' object has no attribute 'status'"
  const ERR_NO_REFIN: string := "Refinanciamento.DoesNotExist"

  /** Writes a status to the product row and, for a portability with
      refinancing, to the refinancing row too. A product without a row, or
      a missing refinancing row, raises. */
  function SetProductStatus(c: CorbanContract, status: int): (r: Result<CorbanContract>)
    ensures r.Ok? <==>
      HasProductRow(c.tipoProduto)
      && (c.tipoProduto == PRODUTO_PORTABILIDADE_REFINANCIAMENTO ==> c.refinStatus.Some?)
    ensures r.Ok? ==>
      r.value.state.productStatus == status
      && r.value.state.status == c.state.status && r.value.state.log == c.state.log
      && r.value.refinStatus == (if c.tipoProduto == PRODUTO_PORTABILIDADE_REFINANCIAMENTO then Some(status) else c.refinStatus)
      && r.value.tipoProduto == c.tipoProduto && r.value.isMainProposal == c.isMainProposal
  {
    if !HasProductRow(c.tipoProduto) then Err(ERR_NO_ROW)
    else if c.tipoProduto == PRODUTO_PORTABILIDADE_REFINANCIAMENTO then
      if c.refinStatus.None? then Err(ERR_NO_REFIN)
      else Ok(c.(state := c.state.(productStatus := status), refinStatus := Some(status)))
    else Ok(c.(state := c.state.(productStatus := status)))
  }

  /** Where an approved contract goes: a hand-typed card of an INSS
      convenio to the Dataprev check, everything else to the formalization
      desk. */
  function NextAfterApproval(c: CorbanContract): (s: int)
    ensures s == ANDAMENTO_CHECAGEM_DATAPREV <==> IsDeskCard(c.tipoProduto) && c.convenioInss && c.digitacaoManual
    ensures s != ANDAMENTO_CHECAGEM_DATAPREV ==> s == CHECAGEM_MESA_FORMALIZACAO
  {
    if IsDeskCard(c.tipoProduto) && c.convenioInss && c.digitacaoManual then ANDAMENTO_CHECAGEM_DATAPREV
    else CHECAGEM_MESA_FORMALIZACAO
  }

  /** `approve_contract`: two records, the Corban approval and the next
      status, which the product (and refinancing) rows take; the contract
      goes to the desk. */
  function ApproveContract(c: CorbanContract): (r: Result<CorbanContract>)
    ensures r.Ok? <==> SetProductStatus(c, NextAfterApproval(c)).Ok?
    ensures r.Ok? ==>
      r.value.state.status == CONTRATO_MESA
      && r.value.state.productStatus == NextAfterApproval(c)
      && r.value.state.log == c.state.log + [StatusRecord(APROVADA_MESA_CORBAN, ""), StatusRecord(NextAfterApproval(c), "")]
  {
    var next := NextAfterApproval(c);
    var withLog := c.(state := c.state.(log := c.state.log + [StatusRecord(APROVADA_MESA_CORBAN, ""), StatusRecord(next, "")]));
    var p :- SetProductStatus(withLog, next);
    Ok(p.(state := p.state.(status := CONTRATO_MESA)))
  }

  /** `decline_contract`: the contract is cancelled, the product (and
      refinancing) rows refused by the Corban desk, with the note. */
  function DeclineContract(c: CorbanContract, note: string): (r: Result<CorbanContract>)
    ensures r.Ok? <==> SetProductStatus(c, REPROVADA_MESA_CORBAN).Ok?
    ensures r.Ok? ==>
      r.value.state.status == CONTRATO_CANCELADO
      && r.value.state.productStatus == REPROVADA_MESA_CORBAN
      && r.value.state.log == c.state.log + [StatusRecord(REPROVADA_MESA_CORBAN, note)]
      && (c.tipoProduto == PRODUTO_PORTABILIDADE_REFINANCIAMENTO ==> r.value.refinStatus == Some(REPROVADA_MESA_CORBAN))
  {
    var p :- SetProductStatus(c.(state := c.state.(status := CONTRATO_CANCELADO)), REPROVADA_MESA_CORBAN);
    Ok(p.(state := AddRecord(p.state, REPROVADA_MESA_CORBAN, note)))
  }

  /** One contract of the envelope in `pend_contract`: the requested
      pending flags are raised, the contract goes to the desk, and the main
      proposal or a card is put on hold for documents with the note. */
  function PendOne(c: CorbanContract, pendDoc: bool, pendSelfie: bool, note: string): (r: Result<CorbanContract>)
    ensures !(c.isMainProposal || IsDeskCard(c.tipoProduto)) ==>
      (r.Ok? && r.value.state.log == c.state.log
       && r.value.state.productStatus == c.state.productStatus && r.value.refinStatus == c.refinStatus)
    ensures (c.isMainProposal || IsDeskCard(c.tipoProduto)) ==>
      (r.Ok? <==> SetProductStatus(c, PENDENTE_DOCUMENTACAO_MESA_CORBAN).Ok?)
      && (r.Ok? ==>
            r.value.state.productStatus == PENDENTE_DOCUMENTACAO_MESA_CORBAN
            && r.value.state.log == c.state.log + [StatusRecord(PENDENTE_DOCUMENTACAO_MESA_CORBAN, note)])
    ensures r.Ok? ==>
      r.value.state.status == CONTRATO_MESA
      && r.value.pendenteDocumento == (c.pendenteDocumento || pendDoc)
      && r.value.selfiePendente == (c.selfiePendente || pendSelfie)
      && r.value.tipoProduto == c.tipoProduto && r.value.isMainProposal == c.isMainProposal
  {
    var flagged := c.(pendenteDocumento := c.pendenteDocumento || pendDoc,
                      selfiePendente := c.selfiePendente || pendSelfie,
                      state := c.state.(status := CONTRATO_MESA));
    if c.isMainProposal || IsDeskCard(c.tipoProduto) then
      var p :- SetProductStatus(flagged, PENDENTE_DOCUMENTACAO_MESA_CORBAN);
      Ok(p.(state := AddRecord(p.state, PENDENTE_DOCUMENTACAO_MESA_CORBAN, note)))
    else Ok(flagged)
  }

  /** `pend_contract` over the whole envelope; one failure rolls all back. */
  function PendAll(cs: seq<CorbanContract>, pendDoc: bool, pendSelfie: bool, note: string): (r: Result<seq<CorbanContract>>)
    ensures r.Ok? <==> forall i :: 0 <= i < |cs| ==> PendOne(cs[i], pendDoc, pendSelfie, note).Ok?
    ensures r.Ok? ==>
      (|r.value| == |cs|
       && forall i :: 0 <= i < |cs| ==> r.value[i] == PendOne(cs[i], pendDoc, pendSelfie, note).value)
  {
    if |cs| == 0 then Ok([])
    else
      var head :- PendOne(cs[0], pendDoc, pendSelfie, note);
      var tail :- PendAll(cs[1..], pendDoc, pendSelfie, note);
      assert forall i :: 1 <= i < |cs| ==> cs[i] == cs[1..][i - 1];
      Ok([head] + tail)
  }

  /** The reply: the HTTP code and the rows the action wrote (the acted-on
      contract, or the whole envelope when pending). */
  datatype CorbanReply = CorbanReply(code: int, written: seq<CorbanContract>)

  /** `AcaoCorban.post`: a token and an action are required, the contract
      must exist (404 otherwise) and sit at the Corban desk check; then the
      action is dispatched, an unknown one refused. Any raise inside an
      action rolls back and answers 400. `envelope` holds the contracts
      sharing the contract's envelope. */
  function AcaoCorban(token: string, acao: Option<CorbanAction>, contrato: Option<CorbanContract>,
                      envelope: seq<CorbanContract>, pendDoc: bool, pendSelfie: bool, note: string): (r: CorbanReply)
    ensures (|token| == 0 || acao.None?) ==> r == CorbanReply(HTTP_BAD_REQUEST, [])
    ensures |token| > 0 && acao.Some? && contrato.None? ==> r == CorbanReply(HTTP_NOT_FOUND, [])
    ensures r.code == HTTP_OK ==>
      contrato.Some? && contrato.value.state.LastStatus() == Some(CHECAGEM_MESA_CORBAN)
      && acao.Some? && acao.value != Outra
    ensures r.code != HTTP_OK ==> r.written == []
    ensures r.code == HTTP_OK && acao == Some(Aprovar) ==> ApproveContract(contrato.value).Ok? && r.written == [ApproveContract(contrato.value).value]
    ensures r.code == HTTP_OK && acao == Some(Recusar) ==> DeclineContract(contrato.value, note).Ok? && r.written == [DeclineContract(contrato.value, note).value]
    ensures r.code == HTTP_OK && acao == Some(Pendenciar) ==> PendAll(envelope, pendDoc, pendSelfie, note).Ok? && r.written == PendAll(envelope, pendDoc, pendSelfie, note).value
    ensures r.code != HTTP_OK ==> r.code in {HTTP_BAD_REQUEST, HTTP_NOT_FOUND}
  {
    if |token| == 0 || acao.None? then CorbanReply(HTTP_BAD_REQUEST, [])
    else if contrato.None? then CorbanReply(HTTP_NOT_FOUND, [])
    else
      var c := contrato.value;
      if c.state.LastStatus() != Some(CHECAGEM_MESA_CORBAN) then CorbanReply(HTTP_BAD_REQUEST, [])
      else match acao.value
        case Aprovar =>
          (match ApproveContract(c)
           case Ok(a) => CorbanReply(HTTP_OK, [a])
           case Err(_) => CorbanReply(HTTP_BAD_REQUEST, []))
        case Recusar =>
          (match DeclineContract(c, note)
           case Ok(d) => CorbanReply(HTTP_OK, [d])
           case Err(_) => CorbanReply(HTTP_BAD_REQUEST, []))
        case Pendenciar =>
          (match PendAll(envelope, pendDoc, pendSelfie, note)
           case Ok(ps) => CorbanReply(HTTP_OK, ps)
           case Err(_) => CorbanReply(HTTP_BAD_REQUEST, []))
        case Outra => CorbanReply(HTTP_BAD_REQUEST, [])
  }

  /** A contract the desk approved or declined has left the Corban check:
      any further desk action on it is refused. */
  lemma {:induction false} CorbanActsOnce(token: string, acao: CorbanAction, c: CorbanContract, envelope: seq<CorbanContract>,
                                          pendDoc: bool, pendSelfie: bool, note: string, next: Option<CorbanAction>)
    requires acao in {Aprovar, Recusar}
    requires AcaoCorban(token, Some(acao), Some(c), envelope, pendDoc, pendSelfie, note).code == HTTP_OK
    ensures var after := AcaoCorban(token, Some(acao), Some(c), envelope, pendDoc, pendSelfie, note).written[0];
      AcaoCorban(token, next, Some(after), envelope, pendDoc, pendSelfie, note).code == HTTP_BAD_REQUEST
  {
    var after := AcaoCorban(token, Some(acao), Some(c), envelope, pendDoc, pendSelfie, note).written[0];
    if acao == Aprovar {
      assert after.state.LastStatus() == Some(NextAfterApproval(c));
    } else {
      assert after.state.LastStatus() == Some(REPROVADA_MESA_CORBAN);
    }
  }

  // ---------------------------------------------------------------------
  // deny_product / put_product_on_hold

  /** `deny_product`: the product row is refused by the formalization desk;
      nothing else changes. */
  function DenyProduct(c: ContractState): (r: ContractState)
    ensures r.productStatus == REPROVADA_MESA_DE_FORMALIZACAO
    ensures r.status == c.status && r.log == c.log
  {
    c.(productStatus := REPROVADA_MESA_DE_FORMALIZACAO)
  }

  /** `put_product_on_hold`: the product row waits for Corban documents;
      nothing else changes. */
  function PutProductOnHold(c: ContractState): (r: ContractState)
    ensures r.productStatus == PENDENTE_DOCUMENTACAO_MESA_CORBAN
    ensures r.status == c.status && r.log == c.log
  {
    c.(productStatus := PENDENTE_DOCUMENTACAO_MESA_CORBAN)
  }

  /** Each update decides the product status alone: applying it after any
      other product update, or twice, gives the same row. */
  lemma ProductUpdatesOverwrite(c: ContractState)
    ensures DenyProduct(PutProductOnHold(c)) == DenyProduct(c) == DenyProduct(DenyProduct(c))
    ensures PutProductOnHold(DenyProduct(c)) == PutProductOnHold(c) == PutProductOnHold(PutProductOnHold(c))
  {
  }

  // ---------------------------------------------------------------------
  // botao_pendenciar_contrato: the pending fields

  /** The fields the back office marks as pending. */
  datatype PendingFlags = PendingFlags(rg: bool, dtExpedicaoRg: bool, dtNascimento: bool, sexo: bool, nome: bool)

  const TOK_RG: string := "rg, "
  const TOK_DT_EXPEDICAO_RG: string := "dt_expedicao_rg, "
  const TOK_DT_NASCIMENTO: string := "dt_nascimento, "
  const TOK_SEXO: string := "sexo, "
  const TOK_NOME: string := "nome_cliente, "

  function Token(flag: bool, tok: string): (r: string)
    ensures r == (if flag then tok else "")
  {
    if flag then tok else ""
  }

  /** The `campos_pendentes` text: the names of the pending fields in a
      fixed order, each followed by ', '. */
  function PendingFields(f: PendingFlags): (r: string)
    ensures |r| == |Token(f.rg, TOK_RG)| + |Token(f.dtExpedicaoRg, TOK_DT_EXPEDICAO_RG)|
      + |Token(f.dtNascimento, TOK_DT_NASCIMENTO)| + |Token(f.sexo, TOK_SEXO)| + |Token(f.nome, TOK_NOME)|
    ensures |r| == 0 <==> f == PendingFlags(false, false, false, false, false)
  {
    var c1 := Token(f.rg, TOK_RG);
    var c2 := c1 + Token(f.dtExpedicaoRg, TOK_DT_EXPEDICAO_RG);
    var c3 := c2 + Token(f.dtNascimento, TOK_DT_NASCIMENTO);
    var c4 := c3 + Token(f.sexo, TOK_SEXO);
    c4 + Token(f.nome, TOK_NOME)
  }

  /** Reads one field name off the front of the text. */
  function Take(s: string, tok: string): (r: (bool, string))
    ensures r.0 <==> StartsWith(s, tok)
    ensures r.0 ==> s == tok + r.1
    ensures !r.0 ==> r.1 == s
  {
    if StartsWith(s, tok) then
      assert s == s[..|tok|] + s[|tok|..];
      (true, s[|tok|..])
    else (false, s)
  }

  /** Reads the pending flags back from the text, in the same order. */
  function ReadPendingFields(s: string): (f: PendingFlags)
    ensures s == "" ==> f == PendingFlags(false, false, false, false, false)
  {
    var (rg, s1) := Take(s, TOK_RG);
    var (dtExp, s2) := Take(s1, TOK_DT_EXPEDICAO_RG);
    var (dtNasc, s3) := Take(s2, TOK_DT_NASCIMENTO);
    var (sexo, s4) := Take(s3, TOK_SEXO);
    var (nome, _) := Take(s4, TOK_NOME);
    PendingFlags(rg, dtExp, dtNasc, sexo, nome)
  }

  /** A text that differs from `tok` at position `j` does not start with it. */
  lemma Mismatch(s: string, tok: string, j: nat)
    requires j < |tok| && (j >= |s| || s[j] != tok[j])
    ensures !StartsWith(s, tok)
  {
    if |tok| <= |s| {
      assert s[..|tok|][j] != tok[j];
    }
  }

  /** Taking a name off a text that begins with it leaves the rest; off a
      text that begins with a later name, or is empty, leaves the text. */
  lemma TakeHit(tok: string, rest: string)
    ensures Take(tok + rest, tok) == (true, rest)
  {
    assert (tok + rest)[..|tok|] == tok;
  }

  /** The text from the `k`-th field on. */
  function FieldsFrom(f: PendingFlags, k: nat): (r: string)
    decreases 5 - k
  {
    if k >= 5 then ""
    else Token(FlagAt(f, k), TokenAt(k)) + FieldsFrom(f, k + 1)
  }

  function FlagAt(f: PendingFlags, k: nat): bool {
    if k == 0 then f.rg else if k == 1 then f.dtExpedicaoRg else if k == 2 then f.dtNascimento
    else if k == 3 then f.sexo else f.nome
  }

  function TokenAt(k: nat): string {
    if k == 0 then TOK_RG else if k == 1 then TOK_DT_EXPEDICAO_RG else if k == 2 then TOK_DT_NASCIMENTO
    else if k == 3 then TOK_SEXO else TOK_NOME
  }

  /** The characters that tell the names apart. */
  lemma TokenChars()
    ensures forall k :: 0 <= k < 5 ==> |TokenAt(k)| >= 4
    ensures TokenAt(0)[0] == 'r' && TokenAt(1)[0] == 'd' && TokenAt(2)[0] == 'd'
    ensures TokenAt(3)[0] == 's' && TokenAt(4)[0] == 'n'
    ensures TokenAt(1)[3] == 'e' && TokenAt(2)[3] == 'n'
  {
  }

  /** The text from field `k` on never begins with the name of an earlier
      field: the names differ within their first four characters. */
  lemma {:induction false} LaterMisses(f: PendingFlags, k: nat, m: nat)
    requires m < k <= 5
    ensures !StartsWith(FieldsFrom(f, k), TokenAt(m))
    decreases 5 - k
  {
    TokenChars();
    var s := FieldsFrom(f, k);
    if k == 5 {
      Mismatch(s, TokenAt(m), 0);
    } else if !FlagAt(f, k) {
      assert s == FieldsFrom(f, k + 1);
      LaterMisses(f, k + 1, m);
    } else {
      var t := TokenAt(k);
      assert s == t + FieldsFrom(f, k + 1);
      var j: nat := if m == 1 && k == 2 then 3 else 0;
      assert s[j] == t[j];
      Mismatch(s, TokenAt(m), j);
    }
  }

  /** One step of the reading: field `k` is read exactly when it was
      written, and the rest of the text is left. */
  lemma TakeStep(f: PendingFlags, k: nat)
    requires k < 5
    ensures Take(FieldsFrom(f, k), TokenAt(k)) == (FlagAt(f, k), FieldsFrom(f, k + 1))
  {
    if FlagAt(f, k) {
      TakeHit(TokenAt(k), FieldsFrom(f, k + 1));
    } else {
      assert FieldsFrom(f, k) == FieldsFrom(f, k + 1);
      LaterMisses(f, k + 1, k);
    }
  }

  lemma Regroup(a: string, b: string, c: string, d: string, e: string)
    ensures (((a + b) + c) + d) + e == a + (b + (c + (d + (e + ""))))
  {
    assert e + "" == e;
  }

  /** The text built field by field is the text from field 0 on. */
  lemma PendingFieldsFromStart(f: PendingFlags)
    ensures PendingFields(f) == FieldsFrom(f, 0)
  {
    var t0, t1, t2, t3, t4 := Token(f.rg, TOK_RG), Token(f.dtExpedicaoRg, TOK_DT_EXPEDICAO_RG),
      Token(f.dtNascimento, TOK_DT_NASCIMENTO), Token(f.sexo, TOK_SEXO), Token(f.nome, TOK_NOME);
    Regroup(t0, t1, t2, t3, t4);
    assert PendingFields(f) == (((t0 + t1) + t2) + t3) + t4;
    assert FieldsFrom(f, 4) == t4 + FieldsFrom(f, 5);
    assert FieldsFrom(f, 3) == t3 + FieldsFrom(f, 4);
    assert FieldsFrom(f, 2) == t2 + FieldsFrom(f, 3);
    assert FieldsFrom(f, 1) == t1 + FieldsFrom(f, 2);
  }

  /** Reading the text back gives the flags it was written from, so the
      text says exactly which fields are pending. */
  lemma {:induction false} PendingFieldsRoundTrip(f: PendingFlags)
    ensures ReadPendingFields(PendingFields(f)) == f
  {
    PendingFieldsFromStart(f);
    TakeStep(f, 0);
    assert Take(FieldsFrom(f, 0), TOK_RG) == (f.rg, FieldsFrom(f, 1));
    TakeStep(f, 1);
    assert Take(FieldsFrom(f, 1), TOK_DT_EXPEDICAO_RG) == (f.dtExpedicaoRg, FieldsFrom(f, 2));
    TakeStep(f, 2);
    assert Take(FieldsFrom(f, 2), TOK_DT_NASCIMENTO) == (f.dtNascimento, FieldsFrom(f, 3));
    TakeStep(f, 3);
    assert Take(FieldsFrom(f, 3), TOK_SEXO) == (f.sexo, FieldsFrom(f, 4));
    TakeStep(f, 4);
    assert Take(FieldsFrom(f, 4), TOK_NOME).0 == f.nome;
  }

  // ---------------------------------------------------------------------
  // valida_beneficio_recalculo

  /** The IN100 answer of a recalculation: whether it was revalidated,
      whether its species is registered, the benefit's situation and its
      species code. */
  datatype In100Recalc = In100Recalc(revalidated: bool, speciesRegistered: bool, situacao: string, species: int)

  /** The answer and the rows after the check; `refused` says whether the
      refusal was sent to the financial institution. */
  datatype RecalcOutcome = RecalcOutcome(state: ContractState, approved: bool, motivo: Option<string>, refused: bool)

  const BLOCKED_SITUATIONS: set<string> := {"INELEGÍVEL", "BLOQUEADO", "BLOQUEADA"}
  const MOTIVO_IN100_PENDING: string := "IN100 não retornada no recalculo ainda"
  const MOTIVO_SPECIES_UNKNOWN: string := "Especie Não Encontrada"
  const MOTIVO_BLOCKED: string := "Beneficio bloqueado ou cessado"

  /** The refusal of a recalculated portability: the contract is cancelled,
      the portability refused, with the given note. */
  function RefuseRecalc(c: ContractState, note: string, motivo: string): (r: RecalcOutcome)
    ensures r.state.status == CONTRATO_CANCELADO && r.state.productStatus == REPROVADO
    ensures r.state.log == c.log + [StatusRecord(REPROVADO, note)]
    ensures !r.approved && r.refused && r.motivo == Some(motivo)
  {
    RecalcOutcome(AddRecord(c.(status := CONTRATO_CANCELADO, productStatus := REPROVADO), REPROVADO, note),
                  false, Some(motivo), true)
  }

  /** `valida_beneficio_recalculo`: an IN100 not yet revalidated rejects
      without touching the contract; an unregistered species or a blocked
      benefit refuses the portability; otherwise the species rule and then
      the death rule (`especie`, `morte`, as the benefit rules answer them)
      decide. A missing IN100 raises. */
  function ValidaBeneficioRecalculo(c: ContractState, in100: Option<In100Recalc>,
                                    especie: BenefitRules.RuleAnswer, morte: BenefitRules.RuleAnswer): (r: Result<RecalcOutcome>)
    ensures r.Err? <==> in100.None?
    ensures r.Ok? ==>
      (r.value.approved <==>
         in100.value.revalidated && in100.value.speciesRegistered && in100.value.situacao !in BLOCKED_SITUATIONS
         && especie.approved && morte.approved)
    ensures r.Ok? ==>
      (r.value.refused <==>
         in100.value.revalidated && (!in100.value.speciesRegistered || in100.value.situacao in BLOCKED_SITUATIONS))
    ensures r.Ok? && !r.value.refused ==> r.value.state == c
    ensures r.Ok? && r.value.refused ==>
      r.value.state.status == CONTRATO_CANCELADO && r.value.state.LastStatus() == Some(REPROVADO)
      && |r.value.state.log| == |c.log| + 1
    ensures r.Ok? && in100.value.revalidated && in100.value.speciesRegistered
            && in100.value.situacao !in BLOCKED_SITUATIONS && !especie.approved ==>
      r.value.motivo == especie.motivo
    ensures r.Ok? && !in100.value.revalidated ==> r.value.motivo == Some(MOTIVO_IN100_PENDING)
  {
    match in100
    case None => Err("AttributeError: 'NoneType' object has no attribute 'validacao_in100_recalculo'")
    case Some(d) =>
      if !d.revalidated then Ok(RecalcOutcome(c, false, Some(MOTIVO_IN100_PENDING), false))
      else if !d.speciesRegistered then
        Ok(RefuseRecalc(c, IntToString(d.species) + " - Especie não cadastrada", MOTIVO_SPECIES_UNKNOWN))
      else if d.situacao in BLOCKED_SITUATIONS then
        Ok(RefuseRecalc(c, MOTIVO_BLOCKED, MOTIVO_BLOCKED))
      else if !especie.approved then Ok(RecalcOutcome(c, false, especie.motivo, false))
      else if !morte.approved then Ok(RecalcOutcome(c, false, morte.motivo, false))
      else Ok(RecalcOutcome(c, true, None, false))
  }
}
