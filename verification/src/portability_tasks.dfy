/** Background rules for portabilities (contract/products/portabilidade/tasks.py):
    the recalculation branch choice and its fixed instalment and minimum
    rate, and the automatic reproval of stale portabilities. The external
    simulator that drives the recalculation loops is not modelled. Money is
    in cents and rates in hundredths of a percent. */
module PortabilityTasks {
  import opened Common
  import opened Codes
  import opened Contracts

  /** The ten statuses in which a stale portability is reproved. */
  const STALE_REPROVABLE: set<int> := {
    AGUARDANDO_RETORNO_IN100, AGUARDA_ENVIO_LINK, FORMALIZACAO_CLIENTE,
    PENDENTE_DADOS_DIVERGENTES, AGUARDA_RETORNO_SALDO, PENDENTE_DOCUMENTACAO_MESA_CORBAN,
    CHECAGEM_MESA_FORMALIZACAO, CHECAGEM_MESA_DE_FORMALIZACAO, CHECAGEM_MESA_CORBAN,
    INT_CONFIRMA_PAGAMENTO}

  const CIP_EXPIRED: string := "Periodo do retorno da CIP expirado"

  /** A contract and the statuses of its portability rows; the rows are the
      ones the reproval writes, the contract's own product status is left
      as it is. */
  datatype PortContract = PortContract(state: ContractState, portStatuses: seq<int>, refusalsSent: nat)

  /** `status_que_reprova` for one portability row: a row in one of the ten
      statuses is reproved, the contract cancelled, one record written and
      the refusal sent; any other row leaves everything alone. */
  function StatusQueReprova(c: ContractState, portStatus: int): (r: (ContractState, int, bool))
    ensures r.2 <==> portStatus in STALE_REPROVABLE
    ensures r.2 ==> (r.0.status == CONTRATO_CANCELADO && r.1 == REPROVADO
                     && r.0.log == c.log + [StatusRecord(REPROVADO, CIP_EXPIRED)])
    ensures !r.2 ==> r.0 == c && r.1 == portStatus
    ensures r.0.productStatus == c.productStatus
  {
    if portStatus in STALE_REPROVABLE then
      (c.(status := CONTRATO_CANCELADO, log := c.log + [StatusRecord(REPROVADO, CIP_EXPIRED)]),
       REPROVADO, true)
    else (c, portStatus, false)
  }

  /** Applying the stale rule to a row it already reproved does nothing:
      REPROVADO is not one of the ten statuses. */
  lemma StatusQueReprovaIdempotent(c: ContractState, portStatus: int)
    ensures var (c1, s1, _) := StatusQueReprova(c, portStatus);
      StatusQueReprova(c1, s1) == (c1, s1, false)
  {
  }

  /** The portability rows of one contract, processed in order. */
  function ReproveRows(c: ContractState, rows: seq<int>): (r: (ContractState, seq<int>, nat))
    ensures |r.1| == |rows|
    ensures forall i :: 0 <= i < |rows| ==>
      r.1[i] == if rows[i] in STALE_REPROVABLE then REPROVADO else rows[i]
    ensures r.2 == CountReprovable(rows)
    ensures |r.0.log| == |c.log| + r.2 && r.0.log[..|c.log|] == c.log
    ensures r.2 == 0 ==> r.0 == c
    ensures r.2 > 0 ==> r.0.status == CONTRATO_CANCELADO
    decreases |rows|
  {
    if |rows| == 0 then (c, [], 0)
    else
      var (c1, s1, refused) := StatusQueReprova(c, rows[0]);
      var (c2, rest, n) := ReproveRows(c1, rows[1..]);
      (c2, [s1] + rest, (if refused then 1 else 0) + n)
  }

  /** How many rows are in one of the ten statuses. */
  function CountReprovable(rows: seq<int>): nat {
    if |rows| == 0 then 0
    else (if rows[0] in STALE_REPROVABLE then 1 else 0) + CountReprovable(rows[1..])
  }

  const DAY: int := 86400

  /** The reproval window: last updated between 60 and 10 days ago,
      both ends included (times in seconds). */
  predicate InReprovalWindow(now: int, lastUpdate: int) {
    now - 60 * DAY <= lastUpdate <= now - 10 * DAY
  }

  /** `automacao_reprova_contratos_async`: only contracts inside the window
      are looked at. */
  function AutomacaoReprova(now: int, contracts: seq<(int, PortContract)>): (r: seq<PortContract>)
    ensures |r| == |contracts|
    ensures forall i :: 0 <= i < |contracts| && !InReprovalWindow(now, contracts[i].0) ==> r[i] == contracts[i].1
    ensures forall i :: 0 <= i < |contracts| && InReprovalWindow(now, contracts[i].0) ==>
      var pc := contracts[i].1;
      var (c, rows, n) := ReproveRows(pc.state, pc.portStatuses);
      r[i] == PortContract(c, rows, pc.refusalsSent + n)
  {
    if |contracts| == 0 then []
    else
      var (u, pc) := contracts[0];
      var here :=
        if InReprovalWindow(now, u) then
          var (c, rows, n) := ReproveRows(pc.state, pc.portStatuses);
          PortContract(c, rows, pc.refusalsSent + n)
        else pc;
      [here] + AutomacaoReprova(now, contracts[1..])
  }

  /** The window's edges: exactly 10 and exactly 60 days ago are inside,
      9 and 61 days ago outside. */
  lemma WindowEdges(now: int)
    ensures InReprovalWindow(now, now - 10 * DAY) && InReprovalWindow(now, now - 60 * DAY)
    ensures !InReprovalWindow(now, now - 9 * DAY) && !InReprovalWindow(now, now - 61 * DAY)
  {
  }

  /** No row is left in one of the ten statuses once processed. */
  lemma {:induction false} NoReprovableLeft(rows: seq<int>)
    requires forall i :: 0 <= i < |rows| ==> rows[i] !in STALE_REPROVABLE
    ensures CountReprovable(rows) == 0
    decreases |rows|
  {
    if |rows| > 0 {
      NoReprovableLeft(rows[1..]);
    }
  }

  /** A second run of the automation on the same day reproves nothing and
      sends no refusal: every row it could touch was reproved by the first. */
  lemma {:induction false} AutomacaoReprovaIdempotent(now: int, contracts: seq<(int, PortContract)>)
    ensures var once := AutomacaoReprova(now, contracts);
      AutomacaoReprova(now, seq(|contracts|, i requires 0 <= i < |contracts| => (contracts[i].0, once[i]))) == once
  {
    var once := AutomacaoReprova(now, contracts);
    var again := seq(|contracts|, i requires 0 <= i < |contracts| => (contracts[i].0, once[i]));
    var twice := AutomacaoReprova(now, again);
    forall i | 0 <= i < |contracts| && InReprovalWindow(now, contracts[i].0)
      ensures twice[i] == once[i]
    {
      var pc := once[i];
      NoReprovableLeft(pc.portStatuses);
      var (c, rows, n) := ReproveRows(pc.state, pc.portStatuses);
      assert rows == pc.portStatuses;
    }
  }

  // ---------------------------------------------------------------------
  // Recalculation setup

  datatype Branch = SmallerDebt | LargerDebt

  /** `verificar_enviar_proposta`: the `while True: ... break` runs exactly
      one branch, chosen by comparing the updated balance with the typed one. */
  function VerificarEnviarProposta(updatedBalance: int, typedBalance: int): (r: seq<Branch>)
    ensures |r| == 1
    ensures r[0] == SmallerDebt <==> updatedBalance < typedBalance
  {
    [if updatedBalance < typedBalance then SmallerDebt else LargerDebt]
  }

  /** The product parameters the recalculation reads. */
  datatype ProductParams = ProductParams(
    taxaMinima: int,
    taxaMinimaRecalculo: Option<int>,
    valorDeSegurancaProposta: int)

  /** The fixed instalment and the minimum rate both recalculation branches
      start from: the original instalment less the safety value, and the
      recalculation minimum rate when it is set (non-zero), else the plain
      minimum rate. */
  function RecalculationSetup(originalInstalment: int, p: ProductParams): (r: (int, int))
    ensures r.0 + p.valorDeSegurancaProposta == originalInstalment
    ensures p.valorDeSegurancaProposta > 0 ==> r.0 < originalInstalment
    ensures (p.taxaMinimaRecalculo.Some? && p.taxaMinimaRecalculo.value != 0) ==> r.1 == p.taxaMinimaRecalculo.value
    ensures (p.taxaMinimaRecalculo.None? || p.taxaMinimaRecalculo.value == 0) ==> r.1 == p.taxaMinima
  {
    var minRate :=
      if p.taxaMinimaRecalculo.Some? && p.taxaMinimaRecalculo.value != 0 then p.taxaMinimaRecalculo.value
      else p.taxaMinima;
    (originalInstalment - p.valorDeSegurancaProposta, minRate)
  }
}
