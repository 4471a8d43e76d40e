/** The INSS payroll-loan views (contract/products/consignado_inss/api/views.py):
    the simulation call, whose instalment is capped by the margin the IN100
    query returned, and the resubmission of a free-margin payment, which is
    refused once more than ten days have passed since the endorsement.
    Stored rows are records; the simulation hub, the QiTech answers and the
    clock are inputs. */
module ConsignadoInssViews {
  import opened Common
  import opened Codes
  import opened Contracts
  import Calendar
  import FinancialPortability

  // ---------------------------------------------------------------------
  // RealizaSimulacao

  /** The request fields the view reads or rewrites; a missing key is `None`. */
  datatype SimRequest = SimRequest(numeroBeneficio: Option<string>, margemLivre: Option<int>, valorParcela: Option<int>)

  /** A stored IN100 answer (`DadosIn100`) of a benefit. */
  datatype In100Row = In100Row(numeroBeneficio: string, retornouIn100: bool, valorMargem: int)

  /** What `simulacao_hub_inss` does with a request: it raises, or it
      returns its `retornado` flag and the simulation. */
  datatype HubAnswer = HubRaised | HubAnswer(retornado: bool, simulacao: string)

  /** The view's answer and the request it handed to the hub, if any. */
  datatype SimReply = SimReply(code: int, body: string, sent: Option<SimRequest>)

  const MSG_SIM_FAILED: string := "Erro ao realizar a SIMULAÇÃO verifique com um administrador"
  const MSG_SIM_NOT_FOUND: string := "Não foi possível encontrar o contrato."

  /** The benefit's IN100 row: the first stored row with its number. */
  function In100Of(rows: seq<In100Row>, numero: string): (r: Option<In100Row>)
    ensures r.Some? ==> r.value in rows && r.value.numeroBeneficio == numero
    ensures r.None? <==> forall i :: 0 <= i < |rows| ==> rows[i].numeroBeneficio != numero
  {
    match FirstIndex(rows, (x: In100Row) => x.numeroBeneficio == numero)
    case None => None
    case Some(i) => Some(rows[i])
  }

  /** When IN100 answered, the free margin becomes the IN100 margin and the
      instalment is lowered to it; reading the instalment of a request
      without one raises. */
  function CapToMargin(req: SimRequest, in100: Option<In100Row>): (r: Result<SimRequest>)
    ensures !(in100.Some? && in100.value.retornouIn100) ==> r == Ok(req)
    ensures in100.Some? && in100.value.retornouIn100 ==>
      (r.Ok? <==> req.valorParcela.Some?)
      && (r.Ok? ==>
            var m := in100.value.valorMargem;
            var v := req.valorParcela.value;
            r.value.numeroBeneficio == req.numeroBeneficio
            && r.value.margemLivre == Some(m)
            && r.value.valorParcela.Some?
            && r.value.valorParcela.value <= m && r.value.valorParcela.value <= v
            && (r.value.valorParcela.value == m || r.value.valorParcela.value == v))
  {
    if in100.None? || !in100.value.retornouIn100 then Ok(req)
    else if req.valorParcela.None? then Err(FinancialPortability.ERR_KEY)
    else
      var m := in100.value.valorMargem;
      var v := req.valorParcela.value;
      Ok(req.(margemLivre := Some(m), valorParcela := Some(if m < v then m else v)))
  }

  /** `RealizaSimulacao.post`: every raise, including one in the hub,
      answers 400 with the contract-not-found message. */
  function RealizaSimulacao(req: SimRequest, rows: seq<In100Row>, hub: SimRequest -> HubAnswer): (r: SimReply)
    ensures r.code == 200 || r.code == 400
    ensures r.code == 200 <==> r.sent.Some? && hub(r.sent.value).HubAnswer? && hub(r.sent.value).retornado
    ensures r.code == 200 ==> r.body == hub(r.sent.value).simulacao
    ensures r.sent.None? ==> r.code == 400 && r.body == MSG_SIM_NOT_FOUND
    ensures req.numeroBeneficio.None? ==> r.sent.None?
    ensures r.sent.Some? ==>
      (req.numeroBeneficio.Some?
       && r.sent.value.numeroBeneficio == req.numeroBeneficio
       && var in100 := In100Of(rows, req.numeroBeneficio.value);
       (in100.Some? && in100.value.retornouIn100 ==>
          r.sent.value.margemLivre == Some(in100.value.valorMargem)
          && r.sent.value.valorParcela.Some?
          && r.sent.value.valorParcela.value <= in100.value.valorMargem))
    ensures r.sent.Some? && req.numeroBeneficio.Some? && In100Of(rows, req.numeroBeneficio.value).None? ==>
      r.sent == Some(req)
  {
    if req.numeroBeneficio.None? then SimReply(400, MSG_SIM_NOT_FOUND, None)
    else
      var capped := CapToMargin(req, In100Of(rows, req.numeroBeneficio.value));
      if capped.Err? then SimReply(400, MSG_SIM_NOT_FOUND, None)
      else
        var sent := capped.value;
        match hub(sent)
        case HubRaised => SimReply(400, MSG_SIM_NOT_FOUND, Some(sent))
        case HubAnswer(retornado, simulacao) =>
          if retornado then SimReply(200, simulacao, Some(sent))
          else SimReply(400, MSG_SIM_FAILED, Some(sent))
  }

  /** A request that already fits the IN100 margin reaches the hub
      unchanged apart from the margin. */
  lemma SimulationKeepsFittingInstalment(req: SimRequest, rows: seq<In100Row>, hub: SimRequest -> HubAnswer)
    requires req.numeroBeneficio.Some? && req.valorParcela.Some?
    requires var in100 := In100Of(rows, req.numeroBeneficio.value);
      in100.Some? && in100.value.retornouIn100 && req.valorParcela.value <= in100.value.valorMargem
    ensures var r := RealizaSimulacao(req, rows, hub);
      r.sent.Some? && r.sent.value.valorParcela == req.valorParcela
  {
  }

  // ---------------------------------------------------------------------
  // ReapresentacaoPagamentoMargemLivre

  /** The free-margin row (`MargemLivre`): product status, endorsement and
      disbursement dates, resubmission result, and the refusal fields the
      QiTech refusal handler writes. */
  datatype FreeMargin = FreeMargin(status: int, dtAverbacao: Option<Date>, dtDesembolso: Option<string>,
                                   sucessoReapresentacao: Option<bool>, motivoReapresentacao: string,
                                   refusal: FinancialPortability.FreeMarginRow)

  /** The client's bank data as the bank-data helper returns it. */
  datatype BankData = BankData(contaBanco: string, contaAgencia: string, contaNumero: string,
                               contaDigito: string, cpfTitular: string)

  /** A row of the Brazilian bank table (`BancosBrasileiros`). */
  datatype Bank = Bank(codigo: string, ispb: string)

  /** An INSS contract with its first free-margin row and its client's bank
      data (`None` where the lookup raises). */
  datatype InssContract = InssContract(token: string, nomeCliente: string, margin: Option<FreeMargin>,
                                       bank: Option<BankData>, state: ContractState)

  predicate WellFormed(c: InssContract) {
    c.margin.Some? && c.margin.value.dtAverbacao.Some? ==> ValidDate(c.margin.value.dtAverbacao.value)
  }

  /** The body of QiTech's change-disbursement-date request. */
  datatype Body = Body(disbursementDate: string, branchNumber: string, accountDigit: string,
                       accountNumber: string, documentNumber: string, bankCode: string,
                       ispbNumber: string, name: string)

  /** QiTech's answer: HTTP code and the body's `description`, if present. */
  datatype QiAnswer = QiAnswer(statusCode: int, description: Option<string>)

  /** A raise inside the view's `try`: a `ValueError` and its message, or
      any other exception. */
  datatype Failure = ValueError(msg: string) | OtherError

  /** Where the attempt stopped: the contract as stored afterwards, the
      QiTech return rows created, the body sent, and the raise, if any. */
  datatype Attempt = Attempt(contract: InssContract, retornos: seq<string>, sent: Option<Body>, failure: Option<Failure>)

  datatype Reply = Reply(code: int, msg: string, contract: InssContract, retornos: seq<string>, sent: Option<Body>)

  const MSG_NOT_ENDORSED: string :=
    "Não foi possivel realizar a reapresentação do pagamento pois ele ainda não foi averbado."
  const MSG_TOO_LATE: string :=
    "Não foi possivel realizar a reapresentação do pagamento pois ja se passaram os 10 dias de reapresentação."
  const MSG_TOO_LATE_AWAITING: string :=
    "Não foi possivel realizar a reapresentação do pagamento pois ja se passaram os 10 dias de reapresentação, aguardando desaverbação."
  const MSG_BANK_NOT_FOUND: string :=
    "Não foi possivel realizar a reapresentação do pagamento pois Banco do cliente não encontrado."
  const MSG_QITECH_FAILED: string :=
    "Não             foi possivel reaalizar a reapresentação do pagamento, Contacte o Suporte."
  const MSG_GENERIC: string :=
    "Não foi possivel realizar a reapresentação do pagamento, contacte o Suporte."
  const MSG_RESUBMITTED: string := "Reapresentação do pagamento realizada"
  const DESK_RESUBMITTED: string := "Reapresentado, AGUARDANDO DESEMBOLSO (MARGEM LIVRE)"
  const RETORNO_RESUBMISSION: string := "REAPRESENTAÇAO"

  /** The messages of the `ValueError`s the resubmission raises. */
  const RAISED_MESSAGES: set<string> :=
    {MSG_NOT_ENDORSED, MSG_TOO_LATE, MSG_TOO_LATE_AWAITING, MSG_BANK_NOT_FOUND, MSG_QITECH_FAILED}

  predicate Accepted2xx(statusCode: int) { statusCode in {200, 201, 202} }

  /** The ten-day window of `_validar_data_limite`: some whole year or
      month, or more than ten days, between endorsement and today. */
  function TooLate(dtAverbacao: Date, today: Date): (r: bool)
    requires ValidDate(dtAverbacao) && ValidDate(today)
    ensures r <==> Calendar.Ordinal(today) - Calendar.Ordinal(dtAverbacao) > 10
  {
    Calendar.TenDaysPassed(dtAverbacao, today);
    var d := Calendar.RelDelta(dtAverbacao, today);
    d.years > 0 || d.months > 0 || d.days > 10
  }

  /** The CPF with its dots and dashes removed. */
  function DocumentNumber(cpf: string): (r: string)
    ensures forall i :: 0 <= i < |r| ==> r[i] != '.' && r[i] != '-'
    ensures forall i :: 0 <= i < |cpf| && cpf[i] != '.' && cpf[i] != '-' ==> cpf[i] in r
  {
    RemoveChars(cpf, {'.', '-'})
  }

  /** `_validar_data_limite` past the window: the QiTech proposal is
      refused, and the message says whether the refusal went through. */
  function RefuseLate(c: InssContract, m: FreeMargin, refuseResp: FinancialPortability.QiResponse): (a: Attempt)
    requires c.margin == Some(m)
    ensures a.sent.None? && a.contract.state == c.state && a.contract.token == c.token
    ensures a.failure == Some(ValueError(MSG_TOO_LATE)) || a.failure == Some(ValueError(MSG_TOO_LATE_AWAITING))
            || a.failure == Some(OtherError)
    ensures a.failure == Some(ValueError(MSG_TOO_LATE)) ==>
      a.contract.margin.Some? && a.contract.margin.value.refusal.sucessoRecusa == Some(true)
  {
    match FinancialPortability.RefuseFreeMargin(Some(m.refusal), refuseResp)
    case Err(_) => Attempt(c, [], None, Some(OtherError))
    case Ok(o) =>
      var row := o.row.GetOr(m.refusal);
      Attempt(c.(margin := Some(m.(refusal := row))), o.retornos, None,
              Some(ValueError(if o.ok then MSG_TOO_LATE else MSG_TOO_LATE_AWAITING)))
  }

  /** `_processar_resposta_qitech`: a 2xx answer marks the free margin as
      awaiting disbursement and records it; any other answer stores
      QiTech's description and raises. */
  function ProcessAnswer(c: InssContract, m: FreeMargin, body: Body, answer: QiAnswer): (a: Attempt)
    ensures a.sent == Some(body) && a.contract.token == c.token
    ensures a.failure.None? <==> Accepted2xx(answer.statusCode)
    ensures a.failure.None? ==>
      a.contract.margin == Some(m.(sucessoReapresentacao := Some(true), status := AGUARDANDO_DESEMBOLSO))
      && a.contract.state.LastStatus() == Some(AGUARDANDO_DESEMBOLSO)
      && a.contract.state == AddRecord(c.state, AGUARDANDO_DESEMBOLSO, DESK_RESUBMITTED)
      && a.retornos == [RETORNO_RESUBMISSION]
    ensures a.failure.Some? ==>
      a.contract.state == c.state
      && (a.failure == Some(ValueError(MSG_QITECH_FAILED)) <==> answer.description.Some?)
      && (answer.description.Some? ==>
            a.contract.margin == Some(m.(sucessoReapresentacao := Some(false),
                                          motivoReapresentacao := answer.description.value)))
  {
    if Accepted2xx(answer.statusCode) then
      Attempt(c.(margin := Some(m.(sucessoReapresentacao := Some(true), status := AGUARDANDO_DESEMBOLSO)),
                 state := AddRecord(c.state, AGUARDANDO_DESEMBOLSO, DESK_RESUBMITTED)),
              [RETORNO_RESUBMISSION], Some(body), None)
    else if answer.description.None? then
      Attempt(c.(margin := Some(m)), [], Some(body), Some(OtherError))
    else
      Attempt(c.(margin := Some(m.(sucessoReapresentacao := Some(false), motivoReapresentacao := answer.description.value))),
              [RETORNO_RESUBMISSION], Some(body), Some(ValueError(MSG_QITECH_FAILED)))
  }

  /** `_preparar_corpo_requisicao` and the QiTech call: the disbursement date
      is written on the free margin and sent together with the bank data. */
  function SendToQitech(c: InssContract, m: FreeMargin, bank: BankData, ispb: string,
                        clock: Calendar.Clock, answer: QiAnswer): (a: Attempt)
    requires Calendar.ValidClock(clock)
    ensures a.contract.token == c.token
    ensures a.sent.Some? <==> clock.hour < 17 || Calendar.PyDate(Calendar.NextDay(clock.today))
    ensures a.failure.None? <==> a.sent.Some? && Accepted2xx(answer.statusCode)
    ensures a.failure.Some? ==> a.contract.state == c.state
    ensures a.sent.Some? ==>
      (Calendar.ParseIsoDate(a.sent.value.disbursementDate)
         == Some(if clock.hour < 17 then clock.today else Calendar.NextDay(clock.today))
       && a.sent.value.documentNumber == DocumentNumber(bank.cpfTitular)
       && a.sent.value.bankCode == bank.contaBanco && a.sent.value.ispbNumber == ispb
       && a.contract.margin.Some? && a.contract.margin.value.dtDesembolso == Some(a.sent.value.disbursementDate))
    ensures a.failure.None? ==>
      a.contract.margin.Some? && a.contract.margin.value.status == AGUARDANDO_DESEMBOLSO
      && a.contract.state == AddRecord(c.state, AGUARDANDO_DESEMBOLSO, DESK_RESUBMITTED)
      && a.retornos == [RETORNO_RESUBMISSION]
  {
    match Calendar.DisbursementDate(clock.today, clock.hour)
    case Err(_) => Attempt(c, [], None, Some(OtherError))
    case Ok(date) => ProcessAnswer(c, m.(dtDesembolso := Some(date)), RequestBody(c, bank, ispb, date), answer)
  }

  /** The request body: the disbursement date and the client's account. */
  function RequestBody(c: InssContract, bank: BankData, ispb: string, date: string): (b: Body)
    ensures b.disbursementDate == date && b.documentNumber == DocumentNumber(bank.cpfTitular)
    ensures b.bankCode == bank.contaBanco && b.ispbNumber == ispb
    ensures b.branchNumber == bank.contaAgencia && b.accountNumber == bank.contaNumero
    ensures b.accountDigit == bank.contaDigito && b.name == c.nomeCliente
  {
    Body(date, bank.contaAgencia, bank.contaDigito, bank.contaNumero,
         DocumentNumber(bank.cpfTitular), bank.contaBanco, ispb, c.nomeCliente)
  }

  /** The body of the view's `try`: free margin, ten-day window, bank data,
      bank table, QiTech. */
  function TryResubmit(c: InssContract, banks: seq<Bank>, clock: Calendar.Clock,
                   refuseResp: FinancialPortability.QiResponse, answer: QiAnswer): (a: Attempt)
    requires Calendar.ValidClock(clock) && WellFormed(c)
    ensures a.contract.token == c.token
    ensures a.failure.Some? ==> a.contract.state == c.state
    ensures c.margin.None? ==> a == Attempt(c, [], None, Some(OtherError))
    ensures c.margin.Some? && c.margin.value.dtAverbacao.None? ==>
      a.failure == Some(ValueError(MSG_NOT_ENDORSED)) && a.contract == c
    ensures a.sent.Some? ==>
      (c.margin.Some? && c.margin.value.dtAverbacao.Some?
       && !TooLate(c.margin.value.dtAverbacao.value, clock.today)
       && c.bank.Some? && (exists b :: b in banks && b.codigo == c.bank.value.contaBanco)
       && Calendar.ParseIsoDate(a.sent.value.disbursementDate)
            == Some(if clock.hour < 17 then clock.today else Calendar.NextDay(clock.today)))
    ensures a.failure.None? <==> a.sent.Some? && Accepted2xx(answer.statusCode)
    ensures a.failure.None? ==>
      a.contract.margin.Some? && a.contract.margin.value.status == AGUARDANDO_DESEMBOLSO
      && a.contract.state == AddRecord(c.state, AGUARDANDO_DESEMBOLSO, DESK_RESUBMITTED)
    ensures c.margin.Some? && c.margin.value.dtAverbacao.Some?
            && TooLate(c.margin.value.dtAverbacao.value, clock.today) ==>
      a.sent.None?
      && (a.failure == Some(ValueError(MSG_TOO_LATE)) || a.failure == Some(ValueError(MSG_TOO_LATE_AWAITING))
          || a.failure == Some(OtherError))
    ensures a.failure.Some? && a.failure.value.ValueError? ==> a.failure.value.msg in RAISED_MESSAGES
  {
    if c.margin.None? then Attempt(c, [], None, Some(OtherError))
    else
      var m := c.margin.value;
      if m.dtAverbacao.None? then Attempt(c, [], None, Some(ValueError(MSG_NOT_ENDORSED)))
      else if TooLate(m.dtAverbacao.value, clock.today) then RefuseLate(c, m, refuseResp)
      else SendWithBankData(c, m, banks, clock, answer)
  }

  /** Within the window: the client's bank data, the bank's ISPB from the
      bank table, then QiTech. */
  function SendWithBankData(c: InssContract, m: FreeMargin, banks: seq<Bank>, clock: Calendar.Clock,
                            answer: QiAnswer): (a: Attempt)
    requires Calendar.ValidClock(clock)
    ensures a.contract.token == c.token
    ensures a.failure.Some? ==> a.contract.state == c.state
    ensures a.sent.Some? ==>
      (c.bank.Some? && (exists b :: b in banks && b.codigo == c.bank.value.contaBanco)
       && Calendar.ParseIsoDate(a.sent.value.disbursementDate)
            == Some(if clock.hour < 17 then clock.today else Calendar.NextDay(clock.today)))
    ensures a.failure.None? <==> a.sent.Some? && Accepted2xx(answer.statusCode)
    ensures a.failure.None? ==>
      a.contract.margin.Some? && a.contract.margin.value.status == AGUARDANDO_DESEMBOLSO
      && a.contract.state == AddRecord(c.state, AGUARDANDO_DESEMBOLSO, DESK_RESUBMITTED)
    ensures a.failure.Some? && a.failure.value.ValueError? ==> a.failure.value.msg in RAISED_MESSAGES
  {
    if c.bank.None? then Attempt(c, [], None, Some(OtherError))
    else
      var bank := c.bank.value;
      match FirstIndex(banks, (b: Bank) => b.codigo == bank.contaBanco)
      case None => Attempt(c, [], None, Some(ValueError(MSG_BANK_NOT_FOUND)))
      case Some(k) =>
        assert banks[k] in banks;
        SendToQitech(c, m, bank, banks[k].ispb, clock, answer)
  }

  /** `_gerar_resposta_erro` and the success answer: a `ValueError`'s message
      goes back as it is; any other raise gets the generic message and one
      more QiTech return row. */
  function Respond(a: Attempt): (r: Reply)
    ensures r.contract == a.contract && r.sent == a.sent
    ensures r.code == 200 <==> a.failure.None?
    ensures r.code == 200 || r.code == 400
    ensures r.code == 200 ==> r.msg == MSG_RESUBMITTED && r.retornos == a.retornos
    ensures a.failure.Some? && a.failure.value.ValueError? ==> r.msg == a.failure.value.msg && r.retornos == a.retornos
    ensures a.failure == Some(OtherError) ==> r.msg == MSG_GENERIC && r.retornos == a.retornos + [RETORNO_RESUBMISSION]
  {
    match a.failure
    case None => Reply(200, MSG_RESUBMITTED, a.contract, a.retornos, a.sent)
    case Some(ValueError(msg)) => Reply(400, msg, a.contract, a.retornos, a.sent)
    case Some(OtherError) => Reply(400, MSG_GENERIC, a.contract, a.retornos + [RETORNO_RESUBMISSION], a.sent)
  }

  /** The stored contract with the token (`Contrato.objects.get`). */
  function ContractIndex(contracts: seq<InssContract>, token: string): (r: Option<nat>)
    ensures r.Some? ==> r.value < |contracts| && contracts[r.value].token == token
    ensures r.None? <==> forall i :: 0 <= i < |contracts| ==> contracts[i].token != token
  {
    FirstIndex(contracts, (c: InssContract) => c.token == token)
  }

  /** `ReapresentacaoPagamentoMargemLivre.post`. The token lookup runs before
      the `try`, so a missing key or an unknown token is an `Err` (a server
      error); everything after it answers 200 or 400. */
  function Resubmit(contracts: seq<InssContract>, token: Option<string>, banks: seq<Bank>, clock: Calendar.Clock,
                    refuseResp: FinancialPortability.QiResponse, answer: QiAnswer): (r: Result<Reply>)
    requires Calendar.ValidClock(clock)
    requires forall i :: 0 <= i < |contracts| ==> WellFormed(contracts[i])
    ensures r.Err? <==> token.None? || ContractIndex(contracts, token.value).None?
    ensures r.Ok? ==>
      (token.Some? && ContractIndex(contracts, token.value).Some?
       && var c := contracts[ContractIndex(contracts, token.value).value];
       r.value.contract.token == c.token
       && (r.value.code == 200 || r.value.code == 400)
       && (r.value.code == 200 <==> r.value.sent.Some? && Accepted2xx(answer.statusCode))
       && (r.value.code == 200 ==>
             c.margin.Some? && c.margin.value.dtAverbacao.Some?
             && Calendar.Ordinal(clock.today) - Calendar.Ordinal(c.margin.value.dtAverbacao.value) <= 10
             && r.value.contract.margin.Some? && r.value.contract.margin.value.status == AGUARDANDO_DESEMBOLSO
             && r.value.contract.state.LastStatus() == Some(AGUARDANDO_DESEMBOLSO))
       && (r.value.code == 400 ==> r.value.contract.state == c.state)
       && (c.margin.Some? && c.margin.value.dtAverbacao.Some?
           && Calendar.Ordinal(clock.today) - Calendar.Ordinal(c.margin.value.dtAverbacao.value) > 10 ==>
             r.value.code == 400 && r.value.sent.None?
             && r.value.msg in {MSG_TOO_LATE, MSG_TOO_LATE_AWAITING, MSG_GENERIC}))
  {
    if token.None? then Err(FinancialPortability.ERR_KEY)
    else match ContractIndex(contracts, token.value)
      case None => Err("DoesNotExist")
      case Some(i) => Ok(Respond(TryResubmit(contracts[i], banks, clock, refuseResp, answer)))
  }

  /** The answer tells the causes apart: two attempts answered with the
      same 400 message stopped on the same raise. */
  lemma ReplyTellsCause(a1: Attempt, a2: Attempt)
    requires a1.failure.Some? && a2.failure.Some?
    requires a1.failure.value.ValueError? ==> a1.failure.value.msg in RAISED_MESSAGES
    requires a2.failure.value.ValueError? ==> a2.failure.value.msg in RAISED_MESSAGES
    requires Respond(a1).msg == Respond(a2).msg
    ensures a1.failure == a2.failure
  {
    assert MSG_GENERIC !in RAISED_MESSAGES by {
      assert |MSG_GENERIC| !in {|MSG_NOT_ENDORSED|, |MSG_TOO_LATE|, |MSG_TOO_LATE_AWAITING|,
                                |MSG_BANK_NOT_FOUND|, |MSG_QITECH_FAILED|};
    }
  }
}
