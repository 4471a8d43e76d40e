/** The decision part of the INSS benefit-card handler
    (handlers/in100_cartao.py): the benefit list, the margin rows the
    margin query builds, the account check digit, the withdrawal flags,
    how a manually typed card contract reacts to the margin Dataprev
    returns, and when a reservation succeeds. Amounts are in cents; the
    hub's answers and the simulation's result are inputs. */
module In100Cartao {
  import opened Common
  import opened Codes

  // ---------------------------------------------------------------------
  // consulta_beneficio

  const ERRO_TECNICO: string := "Erro Tecnico"

  /** A decoded answer: a list of benefits, or an object. */
  datatype Answer = Benefits(items: seq<map<string, string>>) | Object(fields: map<string, string>)

  datatype BenefitsReply = TechnicalError | Returned(answer: Answer)

  /** `answer` is `None` when the request or its decoding raised. */
  function ConsultaBeneficio(answer: Option<Answer>): (r: BenefitsReply)
    ensures r == TechnicalError <==> answer.None? || answer.value == Benefits([])
    ensures r.Returned? ==> r.answer == answer.value
  {
    if answer.None? || answer.value == Benefits([]) then TechnicalError else Returned(answer.value)
  }

  // ---------------------------------------------------------------------
  // consulta_margem_inss: the margin rows

  const LABEL_BENEFICIO: string := "Cartão Benefício"
  const LABEL_CONSIGNADO: string := "Cartão Consignado"

  /** A margin row: its label and the amount available. */
  datatype MarginRow = MarginRow(tipoMargem: string, margemDisponivel: int)

  /** With a contract, the one row of its product: the RCC margin for a
      benefit card, the card margin for a payroll card, and an unbound
      margin (raising) for any other product. Without a contract, both
      rows. A missing amount makes the decimal conversion raise. */
  function MarginRows(produto: Option<int>, rcc: Option<int>, cartao: Option<int>): (r: Result<seq<MarginRow>>)
    ensures produto == Some(PRODUTO_CARTAO_BENEFICIO) && rcc.Some? ==> r == Ok([MarginRow(LABEL_BENEFICIO, rcc.value)])
    ensures produto == Some(PRODUTO_CARTAO_CONSIGNADO) && cartao.Some? ==>
      r == Ok([MarginRow(LABEL_CONSIGNADO, cartao.value)])
    ensures produto.Some? && produto.value !in {PRODUTO_CARTAO_BENEFICIO, PRODUTO_CARTAO_CONSIGNADO} ==> r.Err?
    ensures produto.None? ==>
      (r.Ok? <==> rcc.Some? && cartao.Some?)
      && (r.Ok? ==> r.value == [MarginRow(LABEL_BENEFICIO, rcc.value), MarginRow(LABEL_CONSIGNADO, cartao.value)])
  {
    if produto == Some(PRODUTO_CARTAO_BENEFICIO) then
      if rcc.Some? then Ok([MarginRow(LABEL_BENEFICIO, rcc.value)]) else Err("InvalidOperation")
    else if produto == Some(PRODUTO_CARTAO_CONSIGNADO) then
      if cartao.Some? then Ok([MarginRow(LABEL_CONSIGNADO, cartao.value)]) else Err("InvalidOperation")
    else if produto.Some? then Err("UnboundLocalError")
    else if rcc.Some? && cartao.Some? then
      Ok([MarginRow(LABEL_BENEFICIO, rcc.value), MarginRow(LABEL_CONSIGNADO, cartao.value)])
    else Err("InvalidOperation")
  }

  /** The benefit-card label goes with the RCC margin and the payroll-card
      label with the card margin, whatever the query asked. */
  lemma LabelFollowsMargin(produto: Option<int>, rcc: Option<int>, cartao: Option<int>)
    requires MarginRows(produto, rcc, cartao).Ok?
    ensures forall row :: row in MarginRows(produto, rcc, cartao).value ==>
      (row.tipoMargem == LABEL_BENEFICIO ==> row.margemDisponivel == rcc.value)
      && (row.tipoMargem == LABEL_CONSIGNADO ==> row.margemDisponivel == cartao.value)
  {
  }

  // ---------------------------------------------------------------------
  // The account check digit

  /** `conta[-1] or ''`: the last character of a non-empty account, else
      nothing. */
  function CheckDigit(conta: Option<string>): (r: string)
    ensures |r| <= 1
    ensures r != "" <==> conta.Some? && conta.value != ""
    ensures r != "" ==> EndsWith(conta.value, r)
  {
    if conta.Some? && conta.value != "" then [conta.value[|conta.value| - 1]] else ""
  }

  /** An account typed with its digit gives that digit back. */
  lemma CheckDigitOfAccount(number: string, digit: char)
    ensures CheckDigit(Some(number + [digit])) == [digit]
  {
  }

  /** The reservation sends the account and digit from the IN100 record,
      or from the customer's last bank account when the record has no
      digit. */
  function ReserveAccount(in100Conta: Option<string>, in100Digit: string, bankNumber: string, bankDigit: string)
    : (r: (string, string))
    ensures in100Digit == "" ==> r == (bankNumber, bankDigit)
    ensures in100Digit != "" ==> r.1 == in100Digit && r.0 == in100Conta.GetOr("None")
  {
    if in100Digit == "" then (bankNumber, bankDigit) else (in100Conta.GetOr("None"), in100Digit)
  }

  // ---------------------------------------------------------------------
  // The withdrawal flags

  /** (instalment withdrawal, any withdrawal) of the card contract. */
  function WithdrawalFlags(possuiSaque: bool, saqueParcelado: bool): (r: (bool, bool))
    ensures r.1 <==> possuiSaque || saqueParcelado
    ensures r.0 <==> saqueParcelado
    ensures r.0 ==> r.1
  {
    if possuiSaque then (saqueParcelado, true)
    else if saqueParcelado then (true, true)
    else (false, false)
  }

  // ---------------------------------------------------------------------
  // The margin comparison of a manually typed card contract

  /** The status the contract moves to when it continues: the Corban's
      desk outside production when the Corban has one, else the
      formalization desk. */
  function NextStatus(mesaCorban: bool, production: bool): (r: int)
    ensures r == CHECAGEM_MESA_CORBAN <==> mesaCorban && !production
    ensures r in {CHECAGEM_MESA_CORBAN, CHECAGEM_MESA_FORMALIZACAO}
  {
    if mesaCorban && !production then CHECAGEM_MESA_CORBAN else CHECAGEM_MESA_FORMALIZACAO
  }

  /** The instalment terms of a withdrawal paid in instalments: the
      instalment, the total payable, the amount financed and the monthly
      and yearly CET, as the Dock instalment simulation answers them. */
  datatype Instalments = Instalments(valorParcela: int, valorTotal: int, valorFinanciado: int,
                                     cetMes: int, cetAno: int)

  /** The card contract's state the comparison reads and writes. */
  datatype Card = Card(margemAtual: Option<int>, limite: int, disponivelSaque: int, valorSaque: int,
                       plan: Option<Instalments>, contractStatus: int, status: int)

  /** The simulator's answer for the new margin. */
  datatype Simulation = SimulationError | Simulated(limite: int, saqueMaximo: int)

  datatype Check = Updated(card: Card) | SimulationFailed | Raised(reason: string)

  /** `(current - margem) / current * 100 <= allowed`, with `allowed` in
      hundredths of a percent and `current` non-zero, compared exactly. */
  predicate WithinReduction(current: int, margem: int, allowed: int)
    requires current != 0
  {
    if current > 0 then (current - margem) * 10000 <= allowed * current
    else (current - margem) * 10000 >= allowed * current
  }

  /** An equal margin moves the contract on; a higher one re-simulates and
      moves it on; a lower one re-simulates, caps the withdrawal and moves
      it on when the drop is within the agreement's allowance, and is
      refused otherwise. A missing current margin, a zero current margin
      with a lower new one, or a missing allowance raises. An instalment
      withdrawal accepted after a drop takes the new instalment terms
      `terms`, which the Dock instalment simulation gives for the capped
      withdrawal. */
  function CompareMargin(card: Card, margem: int, allowed: Option<int>, mesaCorban: bool, production: bool,
                         sim: Simulation, parcelado: bool, terms: Instalments): (r: Check)
    ensures card.margemAtual == Some(margem) ==>
      r == Updated(card.(contractStatus := CONTRATO_MESA, status := NextStatus(mesaCorban, production)))
    ensures r.Raised? <==>
      (card.margemAtual.None? || (margem < card.margemAtual.value && (card.margemAtual.value == 0 || allowed.None?)))
    ensures r.SimulationFailed? <==>
      (sim.SimulationError? && card.margemAtual.Some? && card.margemAtual.value != margem
       && (margem > card.margemAtual.value
           || (card.margemAtual.value != 0 && allowed.Some? && WithinReduction(card.margemAtual.value, margem, allowed.value))))
    ensures r.Updated? && r.card.status == REPROVADO_CONSULTA_DATAPREV ==>
      margem < card.margemAtual.value && !WithinReduction(card.margemAtual.value, margem, allowed.value)
      && r.card == card.(contractStatus := CONTRATO_CANCELADO, status := REPROVADO_CONSULTA_DATAPREV)
    ensures r.Updated? && r.card.status != REPROVADO_CONSULTA_DATAPREV ==>
      r.card.margemAtual == Some(margem) && r.card.status == NextStatus(mesaCorban, production)
      && r.card.contractStatus == CONTRATO_MESA
    ensures r.Updated? ==> r.card.valorSaque <= card.valorSaque
    ensures r.Updated? && card.margemAtual.Some? && margem < card.margemAtual.value
            && r.card.status == NextStatus(mesaCorban, production) ==>
      r.card.valorSaque <= r.card.disponivelSaque
    ensures r.Updated? && card.margemAtual.Some? && margem < card.margemAtual.value
            && r.card.status == NextStatus(mesaCorban, production) ==>
      r.card.plan == (if parcelado then Some(terms) else card.plan)
    ensures r.Updated? && r.card.plan != card.plan ==>
      parcelado && r.card.plan == Some(terms) && margem < card.margemAtual.value
  {
    var next := NextStatus(mesaCorban, production);
    if card.margemAtual.None? then Raised("TypeError")
    else
      var current := card.margemAtual.value;
      if current == margem then Updated(card.(contractStatus := CONTRATO_MESA, status := next))
      else if margem > current then
        match sim
        case SimulationError => SimulationFailed
        case Simulated(limite, saqueMaximo) =>
          Updated(card.(margemAtual := Some(margem), limite := limite, disponivelSaque := saqueMaximo,
                        contractStatus := CONTRATO_MESA, status := next))
      else if current == 0 then Raised("DivisionByZero")
      else if allowed.None? then Raised("TypeError")
      else if WithinReduction(current, margem, allowed.value) then
        match sim
        case SimulationError => SimulationFailed
        case Simulated(limite, saqueMaximo) =>
          Updated(card.(margemAtual := Some(margem), limite := limite, disponivelSaque := saqueMaximo,
                        valorSaque := if card.valorSaque <= saqueMaximo then card.valorSaque else saqueMaximo,
                        plan := if parcelado then Some(terms) else card.plan,
                        contractStatus := CONTRATO_MESA, status := next))
      else Updated(card.(contractStatus := CONTRATO_CANCELADO, status := REPROVADO_CONSULTA_DATAPREV))
  }

  /** Once a contract moved on with the new margin, the same answer
      again just moves it on: the comparison settles. */
  lemma {:induction false} ComparisonSettles(card: Card, margem: int, allowed: Option<int>, mesaCorban: bool,
                                             production: bool, sim: Simulation, sim2: Simulation,
                                             parcelado: bool, terms: Instalments, terms2: Instalments)
    requires CompareMargin(card, margem, allowed, mesaCorban, production, sim, parcelado, terms).Updated?
    requires CompareMargin(card, margem, allowed, mesaCorban, production, sim, parcelado, terms).card.status
             == NextStatus(mesaCorban, production)
    ensures var c := CompareMargin(card, margem, allowed, mesaCorban, production, sim, parcelado, terms).card;
      CompareMargin(c, margem, allowed, mesaCorban, production, sim2, parcelado, terms2) == Updated(c)
  {
    var c := CompareMargin(card, margem, allowed, mesaCorban, production, sim, parcelado, terms).card;
    assert c.margemAtual == Some(margem);
    assert c.contractStatus == CONTRATO_MESA && c.status == NextStatus(mesaCorban, production);
  }

  /** A drop within the allowance is accepted and a larger one refused:
      with a current margin of 100.00 and 10% allowed, 90.00 passes and
      89.99 does not. */
  lemma ReductionThreshold(card: Card, mesaCorban: bool, production: bool, limite: int, saqueMaximo: int,
                           parcelado: bool, terms: Instalments)
    requires card.margemAtual == Some(10000)
    ensures CompareMargin(card, 9000, Some(1000), mesaCorban, production, Simulated(limite, saqueMaximo),
                          parcelado, terms).card.status
            == NextStatus(mesaCorban, production)
    ensures CompareMargin(card, 8999, Some(1000), mesaCorban, production, Simulated(limite, saqueMaximo),
                          parcelado, terms).card.status
            == REPROVADO_CONSULTA_DATAPREV
  {
    assert WithinReduction(10000, 9000, 1000);
    assert !WithinReduction(10000, 8999, 1000);
  }

  // ---------------------------------------------------------------------
  // reserva_margem_inss

  /** The reservation record: a reserve with its amount, or the service's
      message and code. */
  datatype ReserveRecord = Reserved(reserva: string, valor: string) | Refused(descricao: string, codigo: string)

  /** Success code 'BD' stores the operation hash as the reserve; any other
      code records the message; a missing key falls back on the first entry
      of 'erros', and without one the handler raises. */
  function ReservaMargem(answer: map<string, string>, erros: seq<(string, string)>): (r: Result<ReserveRecord>)
    ensures r.Ok? && r.value.Reserved? <==>
      "codigoSucesso" in answer && answer["codigoSucesso"] == "BD" && "hashOperacao" in answer && "valorReservado" in answer
    ensures r.Ok? && r.value.Reserved? ==> r.value.reserva == answer["hashOperacao"]
    ensures "codigoSucesso" in answer && answer["codigoSucesso"] != "BD" && "mensagem" in answer ==>
      r == Ok(Refused(answer["mensagem"], answer["codigoSucesso"]))
    ensures r.Err? ==> |erros| == 0
  {
    if "codigoSucesso" in answer && answer["codigoSucesso"] == "BD" && "hashOperacao" in answer
       && "valorReservado" in answer then
      Ok(Reserved(answer["hashOperacao"], answer["valorReservado"]))
    else if "codigoSucesso" in answer && answer["codigoSucesso"] != "BD" && "mensagem" in answer then
      Ok(Refused(answer["mensagem"], answer["codigoSucesso"]))
    else if |erros| > 0 then Ok(Refused(erros[0].0, erros[0].1))
    else Err("IndexError")
  }
}
