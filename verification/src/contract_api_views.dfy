/** The contract API views (contract/api/views/__init__.py): the Unico
    facial-score bands, the status changes a score error or a restrictive
    score causes, the withdrawal-return webhook, the listing filters, the
    product-type extraction of the export and the regularization of an
    endorsement pendency. Database rows are values; each view returns the
    rows it would have written. */
module ContractApiViews {
  import opened Common
  import opened Codes
  import opened Contracts
  import CoreUtils

  // ---------------------------------------------------------------------
  // Unico score

  /** The score bands of `handle_unico_response` for a finished (status 3)
      analysis. */
  datatype Band = Approved | Rejected | Restrictive | NoBand

  function ScoreBand(score: int): (b: Band)
    ensures b == Approved <==> 50 <= score <= 100
    ensures b == Rejected <==> -10 <= score <= 49
    ensures b == Restrictive <==> -90 <= score <= -40
  {
    if 50 <= score <= 100 then Approved
    else if -10 <= score <= 49 then Rejected
    else if -90 <= score <= -40 then Restrictive
    else NoBand
  }

  /** Scores between the restrictive and the rejected band, and scores
      outside -90..100, fall in no band. */
  lemma ScoreGap(score: int)
    ensures ScoreBand(score) == NoBand <==> (-39 <= score <= -11 || score < -90 || score > 100)
  {
  }

  /** What one contract's validation ends with: whether the
      'Regra Score UNICO' validation is written checked (`None` when it is
      not written), and the two flags handed to the status update. */
  datatype ScoreVerdict = ScoreVerdict(checked: Option<bool>, error: bool, restritivo: bool)

  /** The verdict for one contract. `error` starts true and `restritivo`
      false; a divergence (status 2) writes an unchecked validation; a
      finished analysis (status 3) starts from what the score validation
      returned (`rulesEmpty`, `executeError`, `executeRestritivo`) and the
      band then decides: approved clears the error, rejected sets it only
      when the validation returned no rules, restrictive sets the
      restrictive flag. */
  function UnicoScore(status: int, score: int, rulesEmpty: bool, executeError: bool, executeRestritivo: bool): (r: ScoreVerdict)
    ensures status == 2 ==> r == ScoreVerdict(Some(false), true, false)
    ensures status != 2 && status != 3 ==> r == ScoreVerdict(None, true, false)
    ensures status == 3 ==>
      (r.checked == Some(true) <==> 50 <= score <= 100)
      && (r.checked.None? <==> ScoreBand(score) == NoBand)
      && (r.error <==> if 50 <= score <= 100 then false
                       else if -10 <= score <= 49 && rulesEmpty then true
                       else executeError)
      && (r.restritivo <==> -90 <= score <= -40 || executeRestritivo)
  {
    if status == 2 then ScoreVerdict(Some(false), true, false)
    else if status == 3 then
      match ScoreBand(score)
      case Approved => ScoreVerdict(Some(true), false, executeRestritivo)
      case Rejected => ScoreVerdict(Some(false), if rulesEmpty then true else executeError, executeRestritivo)
      case Restrictive => ScoreVerdict(Some(false), executeError, true)
      case NoBand => ScoreVerdict(None, executeError, executeRestritivo)
    else ScoreVerdict(None, true, false)
  }

  /** An approved score never leaves the error flag set, whatever the score
      validation returned; a score in the gap keeps both of its flags. */
  lemma ApprovedClearsError(score: int, rulesEmpty: bool, e: bool, x: bool)
    ensures 50 <= score <= 100 ==> !UnicoScore(3, score, rulesEmpty, e, x).error
    ensures -39 <= score <= -11 ==>
      UnicoScore(3, score, rulesEmpty, e, x) == ScoreVerdict(None, e, x)
  {
  }

  // ---------------------------------------------------------------------
  // valida_status_score

  /** Who asks: the product, whether the corban works through its own desk
      outside production (`mesa_corban` and a non-production environment),
      and whether the contract is the main proposal. */
  datatype ScoreContext = ScoreContext(tipoProduto: int, corbanDesk: bool, isMainProposal: bool)

  /** The contract with its product row (`productStatus`) and the status of
      its first refinancing row (`None` when there is none). */
  datatype ScoreState = ScoreState(contract: ContractState, refinStatus: Option<int>)

  const ERR_NO_LAST_STATUS: string := "AttributeError: 'NoneType' object has no attribute 'nome'"
  const ERR_NO_REFIN: string := "AttributeError: 'NoneType' object has no attribute 'status'"
  const UNICO_BELOW: string := "SCORE da UNICO abaixo do aceito"
  const UNICO_BIOMETRY: string := "Recusada por politíca interna (SF) - Biometria facial"

  /** The desk a card contract with a score error is sent to. */
  function CardDesk(ctx: ScoreContext): (s: int)
    ensures s == CHECAGEM_MESA_CORBAN <==> ctx.corbanDesk
    ensures s in {CHECAGEM_MESA_CORBAN, CHECAGEM_MESA_FORMALIZACAO}
  {
    if ctx.corbanDesk then CHECAGEM_MESA_CORBAN else CHECAGEM_MESA_FORMALIZACAO
  }

  /** The statuses after which a portability score error changes nothing. */
  const PORT_ERROR_SETTLED: set<int> := {CHECAGEM_MESA_CORBAN, REPROVADA_POLITICA_INTERNA, REPROVADO}

  /** Writes a status to the refinancing row of a portability with
      refinancing; the missing row raises. Other products keep it. */
  function SetRefin(tipoProduto: int, refin: Option<int>, status: int): (r: Result<Option<int>>)
    ensures r.Err? <==> tipoProduto == PRODUTO_PORTABILIDADE_REFINANCIAMENTO && refin.None?
    ensures r.Ok? ==> r.value == if tipoProduto == PRODUTO_PORTABILIDADE_REFINANCIAMENTO then Some(status) else refin
  {
    if tipoProduto == PRODUTO_PORTABILIDADE_REFINANCIAMENTO then
      if refin.None? then Err(ERR_NO_REFIN) else Ok(Some(status))
    else Ok(refin)
  }

  /** The `error` half: a card goes to its desk unless it is already
      there; a portability not yet at the corban desk or refused goes to
      the desk, and only the main proposal records the corban desk. */
  function ScoreErrorStep(s: ScoreState, ctx: ScoreContext): (r: Result<ScoreState>)
    ensures |s.contract.log| == 0 ==> r.Err?
    ensures IsCardFamily(ctx.tipoProduto) && |s.contract.log| > 0 ==>
      r.Ok? && r.value.contract.LastStatus() == Some(CardDesk(ctx))
      && r.value.refinStatus == s.refinStatus
      && (if s.contract.LastStatus() == Some(CardDesk(ctx)) then r.value == s
          else r.value.contract.status == CONTRATO_MESA && r.value.contract.productStatus == CardDesk(ctx)
               && r.value.contract.log == s.contract.log + [StatusRecord(CardDesk(ctx), "")])
    ensures !IsCardFamily(ctx.tipoProduto) && !IsPortabilityFamily(ctx.tipoProduto) && |s.contract.log| > 0 ==>
      r == Ok(s)
    ensures IsPortabilityFamily(ctx.tipoProduto) && |s.contract.log| > 0 ==>
      var last := s.contract.log[|s.contract.log| - 1].nome;
      (last in PORT_ERROR_SETTLED ==> r == Ok(s))
      && (last !in PORT_ERROR_SETTLED && !ctx.isMainProposal ==>
            r == Ok(s.(contract := s.contract.(status := CONTRATO_MESA))))
      && (last !in PORT_ERROR_SETTLED && ctx.isMainProposal ==>
            (r.Err? <==> ctx.tipoProduto == PRODUTO_PORTABILIDADE_REFINANCIAMENTO && s.refinStatus.None?)
            && (r.Ok? ==>
                  r.value.contract.status == CONTRATO_MESA
                  && r.value.contract.productStatus == CHECAGEM_MESA_CORBAN
                  && r.value.contract.log == s.contract.log + [StatusRecord(CHECAGEM_MESA_CORBAN, UNICO_BELOW)]
                  && (ctx.tipoProduto == PRODUTO_PORTABILIDADE_REFINANCIAMENTO ==>
                        r.value.refinStatus == Some(CHECAGEM_MESA_CORBAN))))
  {
    if |s.contract.log| == 0 then Err(ERR_NO_LAST_STATUS)
    else
      var c := s.contract;
      var last := c.log[|c.log| - 1].nome;
      if IsCardFamily(ctx.tipoProduto) then
        var next := CardDesk(ctx);
        if last != next then
          Ok(s.(contract := AddRecord(c.(status := CONTRATO_MESA, productStatus := next), next, "")))
        else Ok(s)
      else if IsPortabilityFamily(ctx.tipoProduto) then
        if last !in PORT_ERROR_SETTLED then
          var c1 := c.(status := CONTRATO_MESA);
          if ctx.isMainProposal then
            var c2 := AddRecord(c1.(productStatus := CHECAGEM_MESA_CORBAN), CHECAGEM_MESA_CORBAN, UNICO_BELOW);
            var refin :- SetRefin(ctx.tipoProduto, s.refinStatus, CHECAGEM_MESA_CORBAN);
            Ok(ScoreState(c2, refin))
          else Ok(s.(contract := c1))
        else Ok(s)
      else Ok(s)
  }

  /** The `erro_restritivo` half: a card is refused for good, a portability
      refused by internal policy (and its refinancing row with it), each
      once. */
  function ScoreRestrictiveStep(s: ScoreState, ctx: ScoreContext): (r: Result<ScoreState>)
    ensures |s.contract.log| == 0 ==> r.Err?
    ensures IsCardFamily(ctx.tipoProduto) && |s.contract.log| > 0 ==>
      r.Ok? && r.value.contract.LastStatus() == Some(REPROVADA_FINALIZADA)
      && r.value.refinStatus == s.refinStatus
      && (if s.contract.LastStatus() == Some(REPROVADA_FINALIZADA) then r.value == s
          else r.value.contract.status == CONTRATO_CANCELADO
               && r.value.contract.productStatus == REPROVADA_FINALIZADA
               && r.value.contract.log == s.contract.log + [StatusRecord(REPROVADA_FINALIZADA, "")])
    ensures !IsCardFamily(ctx.tipoProduto) && !IsPortabilityFamily(ctx.tipoProduto) && |s.contract.log| > 0 ==>
      r == Ok(s)
    ensures IsPortabilityFamily(ctx.tipoProduto) && |s.contract.log| > 0 ==>
      (s.contract.LastStatus() == Some(REPROVADA_POLITICA_INTERNA) ==> r == Ok(s))
      && (s.contract.LastStatus() != Some(REPROVADA_POLITICA_INTERNA) ==>
            (r.Err? <==> ctx.tipoProduto == PRODUTO_PORTABILIDADE_REFINANCIAMENTO && s.refinStatus.None?)
            && (r.Ok? ==>
                  r.value.contract.status == CONTRATO_CANCELADO
                  && r.value.contract.productStatus == REPROVADA_POLITICA_INTERNA
                  && r.value.contract.log == s.contract.log + [StatusRecord(REPROVADA_POLITICA_INTERNA, UNICO_BIOMETRY)]
                  && (ctx.tipoProduto == PRODUTO_PORTABILIDADE_REFINANCIAMENTO ==>
                        r.value.refinStatus == Some(REPROVADA_POLITICA_INTERNA))))
  {
    if |s.contract.log| == 0 then Err(ERR_NO_LAST_STATUS)
    else
      var c := s.contract;
      var last := c.log[|c.log| - 1].nome;
      if IsCardFamily(ctx.tipoProduto) then
        if last != REPROVADA_FINALIZADA then
          Ok(s.(contract := AddRecord(c.(status := CONTRATO_CANCELADO, productStatus := REPROVADA_FINALIZADA),
                                      REPROVADA_FINALIZADA, "")))
        else Ok(s)
      else if IsPortabilityFamily(ctx.tipoProduto) then
        if last != REPROVADA_POLITICA_INTERNA then
          var c1 := AddRecord(c.(status := CONTRATO_CANCELADO, productStatus := REPROVADA_POLITICA_INTERNA),
                              REPROVADA_POLITICA_INTERNA, UNICO_BIOMETRY);
          var refin :- SetRefin(ctx.tipoProduto, s.refinStatus, REPROVADA_POLITICA_INTERNA);
          Ok(ScoreState(c1, refin))
        else Ok(s)
      else Ok(s)
  }

  /** The whole update: whether the BPO processor was handed the contract,
      and the rows afterwards. */
  datatype ScoreOutcome = ScoreOutcome(state: ScoreState, bpoExecuted: bool)

  /** `valida_status_score`: the error half, then the restrictive half on
      what the first left; a clean main proposal goes to its BPO when the
      product has one (`hasBpo`, which then takes over) and otherwise, for a
      portability, to the formalization desk. */
  function ValidaStatusScore(s: ScoreState, ctx: ScoreContext, hasBpo: bool, error: bool, restritivo: bool): (r: Result<ScoreOutcome>)
    ensures (error || restritivo) && |s.contract.log| == 0 ==> r.Err?
    ensures r.Ok? && r.value.bpoExecuted <==> ctx.isMainProposal && !error && !restritivo && hasBpo
    ensures !error && !restritivo && !(ctx.isMainProposal && !hasBpo && IsPortabilityFamily(ctx.tipoProduto)) ==>
      r.Ok? && r.value.state == s
    ensures r.Ok? && restritivo && IsCardFamily(ctx.tipoProduto) ==>
      r.value.state.contract.LastStatus() == Some(REPROVADA_FINALIZADA)
    ensures r.Ok? && restritivo && IsPortabilityFamily(ctx.tipoProduto) ==>
      r.value.state.contract.LastStatus() == Some(REPROVADA_POLITICA_INTERNA)
    ensures r.Ok? && error && !restritivo && IsCardFamily(ctx.tipoProduto) ==>
      r.value.state.contract.LastStatus() == Some(CardDesk(ctx))
    ensures r.Ok? ==> |s.contract.log| <= |r.value.state.contract.log| <= |s.contract.log| + 2
  {
    var s1 :- if error then ScoreErrorStep(s, ctx) else Ok(s);
    var s2 :- if restritivo then ScoreRestrictiveStep(s1, ctx) else Ok(s1);
    if ctx.isMainProposal && !error && !restritivo then
      if hasBpo then Ok(ScoreOutcome(s2, true))
      else if IsPortabilityFamily(ctx.tipoProduto) then
        var c := AddRecord(s2.contract.(productStatus := CHECAGEM_MESA_DE_FORMALIZACAO),
                           CHECAGEM_MESA_DE_FORMALIZACAO, "");
        var refin :- SetRefin(ctx.tipoProduto, s2.refinStatus, CHECAGEM_MESA_DE_FORMALIZACAO);
        Ok(ScoreOutcome(ScoreState(c, refin), false))
      else Ok(ScoreOutcome(s2, false))
    else Ok(ScoreOutcome(s2, false))
  }

  /** A second update with the same flags changes nothing, except for a
      card with both flags set: its error half then sends the refused
      contract back to the desk and its restrictive half refuses it again,
      two more records each time. */
  lemma {:induction false} ValidaStatusScoreRepeat(s: ScoreState, ctx: ScoreContext, hasBpo: bool, error: bool, restritivo: bool)
    requires error || restritivo
    requires ValidaStatusScore(s, ctx, hasBpo, error, restritivo).Ok?
    ensures var once := ValidaStatusScore(s, ctx, hasBpo, error, restritivo).value.state;
      var twice := ValidaStatusScore(once, ctx, hasBpo, error, restritivo);
      twice.Ok? &&
      if IsCardFamily(ctx.tipoProduto) && error && restritivo
      then |twice.value.state.contract.log| == |once.contract.log| + 2
      else twice.value.state == once
  {
    var once := ValidaStatusScore(s, ctx, hasBpo, error, restritivo).value.state;
    if IsCardFamily(ctx.tipoProduto) && error && restritivo {
      assert once.contract.LastStatus() == Some(REPROVADA_FINALIZADA);
      assert CardDesk(ctx) != REPROVADA_FINALIZADA;
    } else if IsPortabilityFamily(ctx.tipoProduto) && error && restritivo {
      assert once.contract.LastStatus() == Some(REPROVADA_POLITICA_INTERNA);
    }
  }

  /** A main card proposal with an approved score and a clean score
      validation is left as it was, or handed to its BPO. */
  lemma ApprovedCardUntouched(s: ScoreState, ctx: ScoreContext, hasBpo: bool, score: int, rulesEmpty: bool, e: bool)
    requires IsCardFamily(ctx.tipoProduto) && 50 <= score <= 100
    ensures var v := UnicoScore(3, score, rulesEmpty, e, false);
      var r := ValidaStatusScore(s, ctx, hasBpo, v.error, v.restritivo);
      r.Ok? && r.value.state == s
  {
  }

  // ---------------------------------------------------------------------
  // RetornoSaqueAPIView

  /** What the withdrawal return sets in motion besides the rows it
      writes: the launch of an instalment withdrawal on the invoice, the
      financial adjustments of a lump-sum withdrawal, the Banksoft
      commission. */
  datatype Effect = LaunchInstalments | FinancialAdjustments | Commission

  /** The contract a return refers to: its product, rows and whether the
      card withdrawal is paid in instalments. */
  datatype SaqueTarget = SaqueTarget(tipoProduto: int, state: ContractState, saqueParcelado: bool)

  /** The reply: the HTTP code, whether the return row was stored, the
      contract afterwards and the effects. */
  datatype RetornoReply = RetornoReply(code: int, stored: bool, state: Option<ContractState>, effects: seq<Effect>)

  const HTTP_OK: int := 200
  const HTTP_BAD_REQUEST: int := 400
  const HTTP_CONFLICT: int := 409
  const HTTP_SERVER_ERROR: int := 500

  /** The slug of the four statuses the view acts on is the status itself
      (`slugify` keeps lower-case letters). */
  predicate SlugOf(status: string, slug: string) {
    status in {"apr", "aprovado", "rep", "pen"} ==> slug == status
  }

  function Bad(): RetornoReply { RetornoReply(HTTP_BAD_REQUEST, false, None, []) }

  /** The pending-bank-data branch: the product row goes to
      PENDENTE_CORRECAO_DADOS_BANCARIOS with one record, the contract back
      to typing; from the third stored return whose raw status is 'pen'
      the withdrawal is refused for a payment problem. */
  function PendBankData(c: ContractState, tipoProduto: int, penReturns: nat): (r: ContractState)
    ensures r.status == CONTRATO_DIGITACAO
    ensures penReturns < 3 ==>
      r.productStatus == PENDENTE_CORRECAO_DADOS_BANCARIOS
      && r.log == c.log + [StatusRecord(PENDENTE_CORRECAO_DADOS_BANCARIOS, "")]
    ensures penReturns >= 3 ==>
      r.productStatus == SAQUE_RECUSADO_PROBLEMA_PAGAMENTO
      && r.log == c.log + [StatusRecord(PENDENTE_CORRECAO_DADOS_BANCARIOS, ""),
                           StatusRecord(SAQUE_RECUSADO_PROBLEMA_PAGAMENTO, "")]
  {
    var c1 := AddRecord(c.(productStatus := PENDENTE_CORRECAO_DADOS_BANCARIOS), PENDENTE_CORRECAO_DADOS_BANCARIOS, "");
    var ch := CoreUtils.AlterarStatus(c1, tipoProduto, CONTRATO_DIGITACAO, PENDENTE_CORRECAO_DADOS_BANCARIOS, "", None);
    assert ch.Ok? && ch.value.state.log == c1.log;
    var c2 := ch.value.state;
    if penReturns >= 3 then
      var ch2 := CoreUtils.AlterarStatus(c2, tipoProduto, CONTRATO_DIGITACAO, SAQUE_RECUSADO_PROBLEMA_PAGAMENTO, "", None);
      assert ch2.Ok?;
      ch2.value.state
    else c2
  }

  /** The number of stored 'pen' returns once this one is stored. */
  function PenCount(previousPen: nat, status: string): (n: nat)
    ensures n == previousPen || n == previousPen + 1
    ensures n == previousPen + 1 <==> status == "pen"
  {
    if status == "pen" then previousPen + 1 else previousPen
  }

  /** `RetornoSaqueAPIView.post` for the card and the withdrawal products:
      the contract number must be an integer of an existing contract; the
      return is stored; a withdrawal already released changes nothing
      more; 'apr'/'aprovado' approves it (a card launches the withdrawal,
      a complementary withdrawal is marked paid and released), 'rep'/'pen'
      asks for new bank data. `previousPen` is the count of stored 'pen'
      returns of the contract before this one; `enviarComissionamento` the
      product's back-office flag. Other products are answered 200 and
      nothing is stored. */
  function RetornoSaque(numeroContrato: string, status: string, slug: string, contratos: map<int, SaqueTarget>,
                        previousPen: nat, enviarComissionamento: bool): (r: RetornoReply)
    requires SlugOf(status, slug)
    ensures r.code == HTTP_BAD_REQUEST <==>
      ParseInt(numeroContrato).None? || ParseInt(numeroContrato).value !in contratos
      || (var t := contratos[ParseInt(numeroContrato).value];
          t.tipoProduto == PRODUTO_SAQUE_COMPLEMENTAR && t.state.productStatus != FINALIZADA_LIBERACAO_SAQUE
          && slug in {"apr", "aprovado"} && |t.state.log| == 0)
    ensures r.code != HTTP_BAD_REQUEST ==> r.code == HTTP_OK
    ensures r.code == HTTP_OK ==>
      var t := contratos[ParseInt(numeroContrato).value];
      (r.stored <==> t.tipoProduto in {PRODUTO_CARTAO_BENEFICIO, PRODUTO_CARTAO_CONSIGNADO, PRODUTO_SAQUE_COMPLEMENTAR})
      && (!r.stored || t.state.productStatus == FINALIZADA_LIBERACAO_SAQUE || slug !in {"apr", "aprovado", "rep", "pen"} ==>
            r.state == Some(t.state) && r.effects == [])
  {
    match ParseInt(numeroContrato)
    case None => Bad()
    case Some(pk) =>
      if pk !in contratos then Bad()
      else
        var t := contratos[pk];
        var c := t.state;
        if t.tipoProduto !in {PRODUTO_CARTAO_BENEFICIO, PRODUTO_CARTAO_CONSIGNADO, PRODUTO_SAQUE_COMPLEMENTAR} then
          RetornoReply(HTTP_OK, false, Some(c), [])
        else if c.productStatus == FINALIZADA_LIBERACAO_SAQUE then
          RetornoReply(HTTP_OK, true, Some(c), [])
        else if slug in {"apr", "aprovado"} then
          var commission := if enviarComissionamento then [Commission] else [];
          if t.tipoProduto == PRODUTO_SAQUE_COMPLEMENTAR then
            match CoreUtils.AlterarStatus(c, t.tipoProduto, CONTRATO_PAGO, FINALIZADA_LIBERACAO_SAQUE, "", None)
            case Err(_) => Bad()
            case Ok(ch) => RetornoReply(HTTP_OK, true, Some(ch.state), commission)
          else
            var launch := if t.saqueParcelado then LaunchInstalments else FinancialAdjustments;
            RetornoReply(HTTP_OK, true, Some(c), [launch] + commission)
        else if slug in {"rep", "pen"} then
          RetornoReply(HTTP_OK, true, Some(PendBankData(c, t.tipoProduto, PenCount(previousPen, status))), [])
        else RetornoReply(HTTP_OK, true, Some(c), [])
  }

  /** The third 'pen' return refuses the withdrawal; a 'rep' return never
      adds to the count, so two 'pen' returns followed by any number of
      'rep' returns keep asking for bank data. */
  lemma RetornoSaquePenThreshold(numeroContrato: string, status: string, contratos: map<int, SaqueTarget>,
                                 previousPen: nat, enviarComissionamento: bool)
    requires status in {"rep", "pen"}
    requires ParseInt(numeroContrato).Some? && ParseInt(numeroContrato).value in contratos
    requires var t := contratos[ParseInt(numeroContrato).value];
      IsCardFamily(t.tipoProduto) && t.tipoProduto != PRODUTO_CARTAO_BENEFICIO_REPRESENTANTE
      && t.state.productStatus != FINALIZADA_LIBERACAO_SAQUE
    ensures var r := RetornoSaque(numeroContrato, status, status, contratos, previousPen, enviarComissionamento);
      r.code == HTTP_OK && r.state.Some? && r.effects == []
      && r.state.value.status == CONTRATO_DIGITACAO
      && (r.state.value.productStatus == SAQUE_RECUSADO_PROBLEMA_PAGAMENTO
          <==> previousPen >= 3 || (previousPen == 2 && status == "pen"))
      && (r.state.value.productStatus != SAQUE_RECUSADO_PROBLEMA_PAGAMENTO ==>
            r.state.value.productStatus == PENDENTE_CORRECAO_DADOS_BANCARIOS)
  {
  }

  /** An approved card return launches the withdrawal the card was sold
      with and leaves the rows alone; an approved complementary withdrawal
      ends released and paid. */
  lemma RetornoSaqueApproves(numeroContrato: string, status: string, contratos: map<int, SaqueTarget>,
                             previousPen: nat, enviarComissionamento: bool)
    requires status in {"apr", "aprovado"}
    requires ParseInt(numeroContrato).Some? && ParseInt(numeroContrato).value in contratos
    requires var t := contratos[ParseInt(numeroContrato).value];
      t.tipoProduto in {PRODUTO_CARTAO_BENEFICIO, PRODUTO_CARTAO_CONSIGNADO, PRODUTO_SAQUE_COMPLEMENTAR}
      && t.state.productStatus != FINALIZADA_LIBERACAO_SAQUE && |t.state.log| > 0
    ensures var t := contratos[ParseInt(numeroContrato).value];
      var r := RetornoSaque(numeroContrato, status, status, contratos, previousPen, enviarComissionamento);
      (t.tipoProduto in {PRODUTO_CARTAO_BENEFICIO, PRODUTO_CARTAO_CONSIGNADO} ==>
         r.code == HTTP_OK && r.state == Some(t.state)
         && |r.effects| > 0
         && r.effects[0] == (if t.saqueParcelado then LaunchInstalments else FinancialAdjustments))
      && (t.tipoProduto == PRODUTO_SAQUE_COMPLEMENTAR ==>
            r.code == HTTP_OK && r.state.Some?
            && r.state.value.status == CONTRATO_PAGO
            && r.state.value.productStatus == FINALIZADA_LIBERACAO_SAQUE
            && r.state.value.LastStatus() == Some(FINALIZADA_LIBERACAO_SAQUE))
      && (Commission in r.effects <==> enviarComissionamento)
  {
  }

  // ---------------------------------------------------------------------
  // ListarContratos.get_contract_filters

  /** Python truthiness of an optional query parameter. */
  predicate Given(p: Option<string>) { p.Some? && |p.value| > 0 }

  /** The ORM filters of the contract listing: one per given parameter. */
  function GetContractFilters(contrato: Option<string>, cpf: Option<string>, cliente: Option<string>,
                              status: Option<string>): (r: map<string, string>)
    ensures "cliente__nu_cpf" in r <==> Given(cpf)
    ensures "id" in r <==> Given(contrato)
    ensures "cliente__nome_cliente__icontains" in r <==> Given(cliente)
    ensures "status" in r <==> Given(status)
    ensures Given(cpf) ==> r["cliente__nu_cpf"] == cpf.value
    ensures Given(contrato) ==> r["id"] == contrato.value
    ensures Given(cliente) ==> r["cliente__nome_cliente__icontains"] == cliente.value
    ensures Given(status) ==> r["status"] == status.value
    ensures r.Keys <= FILTER_KEYS
  {
    var m0: map<string, string> := map[];
    var m1 := if Given(cpf) then m0["cliente__nu_cpf" := cpf.value] else m0;
    var m2 := if Given(contrato) then m1["id" := contrato.value] else m1;
    var m3 := if Given(cliente) then m2["cliente__nome_cliente__icontains" := cliente.value] else m2;
    if Given(status) then m3["status" := status.value] else m3
  }

  const FILTER_KEYS: set<string> :=
    {"cliente__nu_cpf", "id", "cliente__nome_cliente__icontains", "status"}

  /** With no parameter given the listing is unfiltered, and giving a
      parameter as the empty text is the same as leaving it out. */
  lemma FiltersIgnoreEmpty(contrato: Option<string>, cpf: Option<string>, cliente: Option<string>)
    ensures GetContractFilters(None, None, None, None) == map[]
    ensures GetContractFilters(contrato, cpf, cliente, Some("")) == GetContractFilters(contrato, cpf, cliente, None)
  {
  }

  // ---------------------------------------------------------------------
  // ExportarContratos.extract_tipo_produto

  /** The product type of an export request: a missing or empty value is
      0; any other is read with `int()`, which raises on anything but an
      integer. */
  function ExtractTipoProduto(value: Option<string>): (r: Result<int>)
    ensures !Given(value) ==> r == Ok(0)
    ensures Given(value) ==> (r.Ok? <==> ParseInt(value.value).Some?)
    ensures Given(value) && r.Ok? ==> r.value == ParseInt(value.value).value
  {
    if !Given(value) then Ok(0)
    else match ParseInt(value.value)
      case None => Err("ValueError: invalid literal for int() with base 10")
      case Some(n) => Ok(n)
  }

  /** Every product code written out in decimal is read back. */
  lemma {:induction false} ExtractTipoProdutoRoundTrip(n: nat)
    ensures ExtractTipoProduto(Some(NatToString(n))) == Ok(n)
  {
    ParseNatToString(n);
    var s := NatToString(n);
    assert AllDigits(s) && |s| > 0;
  }

  // ---------------------------------------------------------------------
  // RegularizarPendenciaAverbacao

  /** A `RegularizacaoContrato` row. */
  datatype Regularizacao = Regularizacao(active: bool, arquivo: Option<string>, mensagem: Option<string>, regularizada: bool)

  /** The index of the last active row. */
  function LastActive(regs: seq<Regularizacao>): (r: Option<nat>)
    ensures r.Some? ==>
      (r.value < |regs| && regs[r.value].active
       && forall j :: r.value < j < |regs| ==> !regs[j].active)
    ensures r.None? ==> forall j :: 0 <= j < |regs| ==> !regs[j].active
  {
    if |regs| == 0 then None
    else if regs[|regs| - 1].active then Some(|regs| - 1)
    else LastActive(regs[..|regs| - 1])
  }

  /** The contract of a regularization request: its card row's status is
      the product status; `hasCard` is false when it has no card row. */
  datatype AverbacaoTarget = AverbacaoTarget(state: ContractState, hasCard: bool, regs: seq<Regularizacao>)

  datatype AverbacaoReply = AverbacaoReply(code: int, target: Option<AverbacaoTarget>)

  /** `RegularizarPendenciaAverbacao.post`: an invalid request or an unknown
      contract is refused (400); a card not pending endorsement is a
      conflict (409); without an active pendency 400 again; otherwise the
      last active pendency is closed with the given file and message (each
      kept when not given), the card row goes to REGULARIZADA_MESA_AVERBACAO
      and the history records it. A contract without a card row raises
      (500). */
  function RegularizarPendenciaAverbacao(valid: bool, contrato: Option<AverbacaoTarget>,
                                         arquivo: Option<string>, mensagem: Option<string>): (r: AverbacaoReply)
    ensures r.code == HTTP_OK <==>
      valid && contrato.Some? && contrato.value.hasCard
      && contrato.value.state.productStatus == PENDENCIAS_AVERBACAO_CORBAN
      && LastActive(contrato.value.regs).Some?
    ensures r.code == HTTP_CONFLICT <==>
      valid && contrato.Some? && contrato.value.hasCard
      && contrato.value.state.productStatus != PENDENCIAS_AVERBACAO_CORBAN
    ensures r.code == HTTP_SERVER_ERROR <==> valid && contrato.Some? && !contrato.value.hasCard
    ensures r.code != HTTP_OK ==> r.target == contrato || r.target.None?
    ensures r.code == HTTP_OK ==>
      var t := contrato.value;
      var i := LastActive(t.regs).value;
      r.target.Some?
      && r.target.value.state.status == t.state.status
      && r.target.value.state.productStatus == REGULARIZADA_MESA_AVERBACAO
      && r.target.value.state.log == t.state.log + [StatusRecord(REGULARIZADA_MESA_AVERBACAO, "")]
      && |r.target.value.regs| == |t.regs|
      && !r.target.value.regs[i].active && r.target.value.regs[i].regularizada
      && (Given(arquivo) ==> r.target.value.regs[i].arquivo == arquivo)
      && (Given(mensagem) ==> r.target.value.regs[i].mensagem == mensagem)
      && (forall j :: 0 <= j < |t.regs| && j != i ==> r.target.value.regs[j] == t.regs[j])
  {
    if !valid || contrato.None? then AverbacaoReply(HTTP_BAD_REQUEST, None)
    else
      var t := contrato.value;
      if !t.hasCard then AverbacaoReply(HTTP_SERVER_ERROR, contrato)
      else if t.state.productStatus != PENDENCIAS_AVERBACAO_CORBAN then AverbacaoReply(HTTP_CONFLICT, contrato)
      else match LastActive(t.regs)
        case None => AverbacaoReply(HTTP_BAD_REQUEST, contrato)
        case Some(i) =>
          var pending := t.regs[i];
          var closed := Regularizacao(false,
            if Given(arquivo) then arquivo else pending.arquivo,
            if Given(mensagem) then mensagem else pending.mensagem,
            true);
          var st := AddRecord(t.state.(productStatus := REGULARIZADA_MESA_AVERBACAO), REGULARIZADA_MESA_AVERBACAO, "");
          AverbacaoReply(HTTP_OK, Some(AverbacaoTarget(st, true, t.regs[i := closed])))
  }

  /** A regularized pendency cannot be regularized twice: the second
      request finds the card no longer pending and answers 409. */
  lemma RegularizarTwiceConflicts(contrato: AverbacaoTarget, arquivo: Option<string>, mensagem: Option<string>)
    requires RegularizarPendenciaAverbacao(true, Some(contrato), arquivo, mensagem).code == HTTP_OK
    ensures var once := RegularizarPendenciaAverbacao(true, Some(contrato), arquivo, mensagem).target;
      RegularizarPendenciaAverbacao(true, once, arquivo, mensagem).code == HTTP_CONFLICT
  {
  }
}
