/** Portability status rules (contract/products/portabilidade/views.py):
    the reproval-status list, the species rule, the portability death rule,
    the status update that writes one history record, and the decision taken
    when the link is sent. Database reads (the last IN100 row, the species
    table, the product parameters) are inputs. */
module PortabilityViews {
  import opened Common
  import opened Codes
  import opened Contracts
  import BenefitRules

  type RuleAnswer = BenefitRules.RuleAnswer

  /** `get_status_reprovacao`. */
  function StatusReprovacao(): (r: seq<int>)
    ensures |r| == 6
    ensures forall i, j :: 0 <= i < j < |r| ==> r[i] != r[j]
    ensures REPROVADO in r && INT_FINALIZADO in r
    ensures FORMALIZACAO_CLIENTE !in r && AGUARDANDO_RETORNO_IN100 !in r
  {
    [INT_CONFIRMA_PAGAMENTO, INT_AGUARDA_AVERBACAO, INT_AVERBACAO_PENDENTE,
     INT_FINALIZADO, REPROVADO, REPROVADA_MESA_DE_FORMALIZACAO]
  }

  predicate IsReproval(status: int) {
    status in StatusReprovacao()
  }

  /** Species that go through the age/benefit-years rule (87 is handled on
      its own, against the product parameter). */
  const SPECIES_AGE_RULE: set<int> := {4, 5, 6, 32, 33, 34, 51, 83, 92}

  /** Species whose rule is checked when the link is sent. */
  const SPECIES_NEEDING_VALIDATION: set<int> := {4, 5, 6, 32, 33, 34, 51, 83, 87, 92}

  /** Benefit situations that block a proposal. */
  const BLOCKED_SITUATIONS: set<string> := {"INELEGÍVEL", "BLOQUEADA", "BLOQUEADO"}

  /** An age in whole years, months and days. */
  datatype Age = Age(years: int, months: int, days: int)

  /** Lexicographic order on ages. */
  predicate AgeLe(a: Age, b: Age) {
    a.years < b.years
    || (a.years == b.years && a.months < b.months)
    || (a.years == b.years && a.months == b.months && a.days <= b.days)
  }

  /** Younger than 59 years, 11 months and 29 days. */
  predicate BelowAgeOfRelief(a: Age) {
    a.years < 59 || (a.years == 59 && (a.months < 11 || (a.months == 11 && a.days < 29)))
  }

  const MOTIVO_SEM_CONCESSAO: string := "não possui data de concessão"

  /** `validar_regra_especie`. `benefitYears` is the benefit's age in whole
      years; `idadeEspecie87` the product parameter for species 87. */
  function ValidarRegraEspecie(species: int, age: Age, concession: Option<Date>,
                               benefitYears: int, idadeEspecie87: int): (r: RuleAnswer)
    ensures concession.None? ==> r == BenefitRules.RuleAnswer(false, Some(MOTIVO_SEM_CONCESSAO))
    ensures concession.Some? && species in SPECIES_AGE_RULE ==>
      (!r.approved <==> age.years < 55 || (BelowAgeOfRelief(age) && benefitYears < 15))
    ensures concession.Some? && species == 87 ==> (!r.approved <==> age.years >= idadeEspecie87)
    ensures concession.Some? && species !in SPECIES_AGE_RULE && species != 87 ==> r.approved
    ensures concession.Some? ==>
      r.motivo == (if r.approved then None else Some(BenefitRules.FORA_DA_POLITICA))
  {
    if concession.None? then BenefitRules.RuleAnswer(false, Some(MOTIVO_SEM_CONCESSAO))
    else
      var rejected :=
        if species in SPECIES_AGE_RULE then
          if age.years < 55 then true
          else if 55 <= age.years < 59 then benefitYears < 15
          else if age.years == 59 && (age.months < 11 || (age.months == 11 && age.days < 29)) then
            benefitYears < 15
          else false
        else species == 87 && age.years >= idadeEspecie87;
      if rejected then BenefitRules.RuleAnswer(false, Some(BenefitRules.FORA_DA_POLITICA))
      else BenefitRules.RuleAnswer(true, None)
  }

  /** Outside species 87, growing older (or having held the benefit longer)
      never turns an approval into a rejection; species 87 is the opposite:
      an age cap. */
  lemma {:induction false} ValidarRegraEspecieMonotone(species: int, a: Age, b: Age, concession: Option<Date>,
                                                        y1: int, y2: int, idade87: int)
    requires AgeLe(a, b) && y1 <= y2 && species != 87
    requires ValidarRegraEspecie(species, a, concession, y1, idade87).approved
    ensures ValidarRegraEspecie(species, b, concession, y2, idade87).approved
  {
    if concession.Some? && species in SPECIES_AGE_RULE {
      assert a.years >= 55;
      assert !BelowAgeOfRelief(a) || y1 >= 15;
      assert !BelowAgeOfRelief(a) ==> !BelowAgeOfRelief(b);
    }
  }

  /** `validacao_regra_morte`: the portability copy of the death rule. */
  function ValidacaoRegraMorte(concession: Option<Date>, species: int, ageAtConcession: int,
                               benefitMonths: int, instalments: int): (r: RuleAnswer)
    ensures concession.None? ==> r == BenefitRules.RuleAnswer(false, Some(MOTIVO_SEM_CONCESSAO))
    ensures concession.Some? && species !in BenefitRules.DEATH_RULE_SPECIES ==> r == BenefitRules.RuleAnswer(true, None)
    ensures concession.Some? && species in BenefitRules.DEATH_RULE_SPECIES ==>
      var (ages, durations) := BenefitRules.LimitesIdadeEDuracoes(concession.value, BenefitRules.DATA_LIMITE);
      (!r.approved <==> exists i :: BenefitRules.IsFirstAbove(ages, ageAtConcession, i)
                                   && durations[i] * 12 - benefitMonths < instalments)
    ensures !r.approved && concession.Some? ==> r.motivo == Some(BenefitRules.FORA_DA_POLITICA)
  {
    if concession.None? then BenefitRules.RuleAnswer(false, Some(MOTIVO_SEM_CONCESSAO))
    else if species !in BenefitRules.DEATH_RULE_SPECIES then BenefitRules.RuleAnswer(true, None)
    else
      var (ages, durations) := BenefitRules.LimitesIdadeEDuracoes(concession.value, BenefitRules.DATA_LIMITE);
      var first := FirstAbove(ages, ageAtConcession, 0);
      if first.None? then BenefitRules.RuleAnswer(true, Some("-"))
      else if durations[first.value] * 12 - benefitMonths < instalments then
        BenefitRules.RuleAnswer(false, Some(BenefitRules.FORA_DA_POLITICA))
      else BenefitRules.RuleAnswer(true, None)
  }

  /** The `for ... break` search for the first age limit above `age`. */
  function FirstAbove(ages: seq<int>, age: int, k: nat): (r: Option<nat>)
    requires k <= |ages|
    requires forall j :: 0 <= j < k ==> ages[j] <= age
    ensures r.Some? ==> BenefitRules.IsFirstAbove(ages, age, r.value)
    ensures r.None? ==> forall i :: !BenefitRules.IsFirstAbove(ages, age, i)
    decreases |ages| - k
  {
    if k == |ages| then None
    else if age < ages[k] then Some(k)
    else FirstAbove(ages, age, k + 1)
  }

  /** The portability death rule approves exactly when the contract-level
      death rule does; the two differ only in leaving out the '-' reason on
      a passed age limit. */
  lemma DeathRulesAgree(concession: Option<Date>, species: int, ageAtConcession: int,
                        benefitMonths: int, instalments: int)
    ensures ValidacaoRegraMorte(concession, species, ageAtConcession, benefitMonths, instalments).approved
        == BenefitRules.ValidarRegraMorte(concession, species, ageAtConcession, benefitMonths, instalments).approved
  {
    if concession.Some? && species in BenefitRules.DEATH_RULE_SPECIES {
      var (ages, durations) := BenefitRules.LimitesIdadeEDuracoes(concession.value, BenefitRules.DATA_LIMITE);
      assert forall i, j :: (BenefitRules.IsFirstAbove(ages, ageAtConcession, i)
        && BenefitRules.IsFirstAbove(ages, ageAtConcession, j)) ==> i == j;
    }
  }

  // ---------------------------------------------------------------------

  /** `atualizar_contrato_portabilidade`: sets both statuses and writes
      exactly one history record named after the portability status. */
  function AtualizarContratoPortabilidade(c: ContractState, contractStatus: int, portabilityStatus: int,
                                          description: string): (r: ContractState)
    ensures r.status == contractStatus && r.productStatus == portabilityStatus
    ensures r.log == c.log + [StatusRecord(portabilityStatus, description)]
  {
    AddRecord(c.(status := contractStatus, productStatus := portabilityStatus), portabilityStatus, description)
  }

  /** What is known about the last IN100 answer for the benefit. */
  datatype In100Facts = In100Facts(
    returned: bool,
    speciesRegistered: bool,
    situation: string,
    species: int,
    failedCallMessage: string)

  /** The outcome of the link-sending decision: the new contract state and
      whether the proposal refusal was sent to the financial institution. */
  datatype LinkOutcome = LinkOutcome(state: ContractState, refused: bool)

  const MSG_NOT_INSERTED: string := "proposta não INSERIDA valide com o Suporte"

  function Reprove(c: ContractState, description: string): LinkOutcome {
    LinkOutcome(AtualizarContratoPortabilidade(c, CONTRATO_CANCELADO, REPROVADO, description), true)
  }

  function ToFormalization(c: ContractState, insertionFailed: bool): LinkOutcome {
    var msg := if insertionFailed then MSG_NOT_INSERTED else "-";
    LinkOutcome(AtualizarContratoPortabilidade(c, CONTRATO_AGUARDANDO_FORMALIZACAO, FORMALIZACAO_CLIENTE, msg), false)
  }

  /** `status_envio_link_portabilidade`. `speciesApproved` is the species
      rule's answer for the benefit; `insertionFailed` whether the
      portability carries an insertion failure. */
  function StatusEnvioLink(c: ContractState, in100: In100Facts, speciesApproved: bool,
                           insertionFailed: bool): (r: LinkOutcome)
    requires c.LastStatus().Some?
    ensures r.state == c || |r.state.log| == |c.log| + 1
    ensures r.state.log[..|c.log|] == c.log
    ensures IsReproval(c.LastStatus().value) ==> r == LinkOutcome(c, false)
    ensures r.refused ==> r.state.status == CONTRATO_CANCELADO && r.state.productStatus == REPROVADO
    ensures !in100.returned && c.LastStatus().value !in StatusReprovacao() + [AGUARDANDO_RETORNO_IN100] ==>
      r.state.status == CONTRATO_DIGITACAO && r.state.productStatus == AGUARDANDO_RETORNO_IN100
      && !r.refused
    ensures !in100.returned ==> !r.refused
    ensures r.state.productStatus == FORMALIZACAO_CLIENTE && r.state != c ==> !c.HasStatus(FORMALIZACAO_CLIENTE)
  {
    var last := c.LastStatus().value;
    var reproved := IsReproval(last);
    if in100.returned then
      if !in100.speciesRegistered && !reproved then
        Reprove(c, IntToString(in100.species) + " - Especie não cadastrada")
      else if in100.situation in BLOCKED_SITUATIONS && !reproved then
        Reprove(c, "Beneficio bloqueado ou cessado")
      else if in100.species in SPECIES_NEEDING_VALIDATION then
        if speciesApproved then
          if !reproved && last != FORMALIZACAO_CLIENTE && !c.HasStatus(FORMALIZACAO_CLIENTE) then
            ToFormalization(c, insertionFailed)
          else LinkOutcome(c, false)
        else if !reproved then Reprove(c, BenefitRules.FORA_DA_POLITICA)
        else LinkOutcome(c, false)
      else if !reproved && last != FORMALIZACAO_CLIENTE && !c.HasStatus(FORMALIZACAO_CLIENTE) then
        ToFormalization(c, insertionFailed)
      else LinkOutcome(c, false)
    else if !reproved && last != AGUARDANDO_RETORNO_IN100 then
      var msg := if in100.failedCallMessage != "" then in100.failedCallMessage else "-";
      LinkOutcome(AtualizarContratoPortabilidade(c, CONTRATO_DIGITACAO, AGUARDANDO_RETORNO_IN100, msg), false)
    else LinkOutcome(c, false)
  }

  /** Sending the link twice changes nothing the second time unless the
      IN100 answer changed: the decision is idempotent. */
  lemma StatusEnvioLinkIdempotent(c: ContractState, in100: In100Facts, speciesApproved: bool, insertionFailed: bool)
    requires c.LastStatus().Some?
    ensures var once := StatusEnvioLink(c, in100, speciesApproved, insertionFailed).state;
      StatusEnvioLink(once, in100, speciesApproved, insertionFailed).state == once
  {
    var once := StatusEnvioLink(c, in100, speciesApproved, insertionFailed).state;
    if once != c {
      assert once.LastStatus().value in {REPROVADO, FORMALIZACAO_CLIENTE, AGUARDANDO_RETORNO_IN100};
      assert once.LastStatus().value == FORMALIZACAO_CLIENTE ==> once.HasStatus(FORMALIZACAO_CLIENTE);
    }
  }
}
