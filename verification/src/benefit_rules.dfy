/** Benefit-eligibility rules applied before a loan is accepted
    (handlers/validar_regras_beneficio_contrato.py): the "death rule" on the
    benefit's remaining duration for species 2, 21 and 93, the age-band
    check, the product-type guard of the validator classes, and the
    `validar` pipeline that strings them together.

    Age at concession and months of benefit are computed by helpers outside
    this model (contract/products/portabilidade/utils.py is not part of this
    model) and are inputs here. */
module BenefitRules {
  import opened Common
  import opened Codes

  /** Species subject to the death rule. */
  const DEATH_RULE_SPECIES: set<int> := {2, 21, 93}

  /** Concessions before this date are not bound by age limits. */
  const DATA_LIMITE: Date := Date(2015, 6, 17)

  const AGES_BEFORE_2021: seq<int> := [21, 27, 30, 41, 44]
  const AGES_FROM_2021: seq<int> := [22, 28, 31, 42, 45]
  const DURATIONS: seq<int> := [3, 6, 10, 15, 20]

  predicate StrictlyIncreasing(s: seq<int>) {
    forall i, j :: 0 <= i < j < |s| ==> s[i] < s[j]
  }

  /** `get_limites_idade_e_duracoes`: the age limits and the benefit
      durations (in years) that go with them. */
  function LimitesIdadeEDuracoes(concession: Date, limit: Date): (r: (seq<int>, seq<int>))
    ensures |r.0| == |r.1|
    ensures StrictlyIncreasing(r.0) && StrictlyIncreasing(r.1)
    ensures |r.0| == 0 <==> Before(concession, limit)
    ensures !Before(concession, limit) ==> r.1 == DURATIONS
    ensures !Before(concession, limit) && concession.year < 2021 ==> r.0 == AGES_BEFORE_2021
    ensures !Before(concession, limit) && concession.year >= 2021
      ==> forall i :: 0 <= i < |r.0| ==> r.0[i] == AGES_BEFORE_2021[i] + 1
  {
    if Before(concession, limit) then ([], [])
    else if concession.year < 2021 then (AGES_BEFORE_2021, DURATIONS)
    else (AGES_FROM_2021, DURATIONS)
  }

  /** Index `i` holds the first age limit strictly above `age`. */
  predicate IsFirstAbove(ages: seq<int>, age: int, i: int) {
    0 <= i < |ages| && age < ages[i] && forall j :: 0 <= j < i ==> ages[j] <= age
  }

  /** The loop of `valida_duracao_beneficio_dentro_faixa_limite` from index
      `k` on: the first limit above the age decides, and a list with no such
      limit accepts. */
  function WithinBandFrom(ages: seq<int>, durations: seq<int>, age: int, months: int,
                          instalments: int, k: nat): (r: bool)
    requires |ages| == |durations| && k <= |ages|
    requires forall j :: 0 <= j < k ==> ages[j] <= age
    ensures r <==> forall i :: IsFirstAbove(ages, age, i) ==> durations[i] * 12 - months >= instalments
    decreases |ages| - k
  {
    if k == |ages| then true
    else if age < ages[k] then
      assert IsFirstAbove(ages, age, k);
      !(durations[k] * 12 - months < instalments)
    else WithinBandFrom(ages, durations, age, months, instalments, k + 1)
  }

  /** `valida_duracao_beneficio_dentro_faixa_limite`. */
  function DuracaoDentroFaixaLimite(concession: Date, limit: Date, ageAtConcession: int,
                                    benefitMonths: int, instalments: int): (r: bool)
    ensures var (ages, durations) := LimitesIdadeEDuracoes(concession, limit);
      r <==> (forall i :: IsFirstAbove(ages, ageAtConcession, i)
                ==> durations[i] * 12 - benefitMonths >= instalments)
  {
    var (ages, durations) := LimitesIdadeEDuracoes(concession, limit);
    WithinBandFrom(ages, durations, ageAtConcession, benefitMonths, instalments, 0)
  }

  /** An age at or above every limit is never restricted, and concessions
      before the cut-off date are never restricted. */
  lemma DuracaoUnrestrictedCases(concession: Date, ageAtConcession: int, benefitMonths: int, instalments: int)
    requires Before(concession, DATA_LIMITE) || ageAtConcession >= 45
    ensures DuracaoDentroFaixaLimite(concession, DATA_LIMITE, ageAtConcession, benefitMonths, instalments)
  {
    var (ages, durations) := LimitesIdadeEDuracoes(concession, DATA_LIMITE);
    assert forall i :: 0 <= i < |ages| ==> ages[i] <= 45;
  }

  /** Only the first limit above the age decides: with a concession in 2021
      and age 25, the 6-year band (72 months) is the one that counts. */
  lemma DuracaoFirstLimitDecides(benefitMonths: int, instalments: int)
    ensures DuracaoDentroFaixaLimite(Date(2021, 1, 1), DATA_LIMITE, 25, benefitMonths, instalments)
      <==> 72 - benefitMonths >= instalments
  {
    var (ages, durations) := LimitesIdadeEDuracoes(Date(2021, 1, 1), DATA_LIMITE);
    assert IsFirstAbove(ages, 25, 1);
    assert forall i :: IsFirstAbove(ages, 25, i) ==> i == 1;
  }

  // ---------------------------------------------------------------------

  /** The answer dictionary of every rule: `regra_aprovada` and an
      optional `motivo`. */
  datatype RuleAnswer = RuleAnswer(approved: bool, motivo: Option<string>)

  const MOTIVO_SEM_CONCESSAO: string := "Não possui data de concessão"
  const FORA_DA_POLITICA: string := "Fora da Politica"

  /** `BaseValidadorRegrasBeneficio.validar_regra_morte`. */
  function ValidarRegraMorte(concession: Option<Date>, species: int, ageAtConcession: int,
                             benefitMonths: int, instalments: int): (r: RuleAnswer)
    ensures concession.None? ==> r == RuleAnswer(false, Some(MOTIVO_SEM_CONCESSAO))
    ensures concession.Some? && species !in DEATH_RULE_SPECIES ==> r == RuleAnswer(true, None)
    ensures concession.Some? && species in DEATH_RULE_SPECIES ==>
      r.motivo == Some(if r.approved then "-" else FORA_DA_POLITICA)
    ensures concession.Some? && species in DEATH_RULE_SPECIES ==>
      (r.approved <==> DuracaoDentroFaixaLimite(concession.value, DATA_LIMITE, ageAtConcession,
                                                  benefitMonths, instalments))
  {
    if concession.None? then RuleAnswer(false, Some(MOTIVO_SEM_CONCESSAO))
    else if species in DEATH_RULE_SPECIES then
      if DuracaoDentroFaixaLimite(concession.value, DATA_LIMITE, ageAtConcession, benefitMonths, instalments)
      then RuleAnswer(true, Some("-"))
      else RuleAnswer(false, Some(FORA_DA_POLITICA))
    else RuleAnswer(true, None)
  }

  // ---------------------------------------------------------------------
  // Age bands

  /** A `FaixaIdade` row. Ages are in hundredths of a year-point: the source
      compares the float `anos.mm` (years, then two-digit months), so
      60 years and 5 months is 6005. Values are in cents. */
  datatype AgeBand = AgeBand(minAge: int, maxAge: int, minTerm: int, maxTerm: int,
                             minValue: int, maxValue: int)

  /** The `anos.mm` rendering of an age as hundredths. */
  function AgeKey(years: nat, months: nat): int
    requires months < 12
  {
    years * 100 + months
  }

  predicate AgeInBand(b: AgeBand, age: int) {
    b.minAge <= age <= b.maxAge
  }

  /** The bands whose age range holds `age`, in table order. */
  function MatchingBands(bands: seq<AgeBand>, age: int): (r: seq<AgeBand>)
    ensures forall b :: b in r <==> b in bands && AgeInBand(b, age)
    ensures |r| <= |bands|
  {
    if |bands| == 0 then []
    else (if AgeInBand(bands[0], age) then [bands[0]] else []) + MatchingBands(bands[1..], age)
  }

  /** `validar_regra_faixa_idade`: exactly one band may hold the client's
      age; the instalments and the contract value must lie in that band's
      closed ranges. */
  function ValidarRegraFaixaIdade(bands: seq<AgeBand>, years: nat, months: nat,
                                  instalments: int, value: int): (r: RuleAnswer)
    requires months < 12
    ensures r.approved <==>
      (|MatchingBands(bands, AgeKey(years, months))| == 1
       && var b := MatchingBands(bands, AgeKey(years, months))[0];
          b.minTerm <= instalments <= b.maxTerm && b.minValue <= value <= b.maxValue)
    ensures (forall b :: b in bands ==> !AgeInBand(b, AgeKey(years, months))) ==> !r.approved
    ensures r.approved <==> r.motivo.None?
  {
    var matching := MatchingBands(bands, AgeKey(years, months));
    if |matching| == 0 then
      RuleAnswer(false, Some("Fora da Política. O cliente não se encaixa em nem uma das faixas de idade"))
    else if |matching| > 1 then
      RuleAnswer(false, Some("Fora da política. O cliente se encaixa em múltiplas faixas de idade."))
    else
      var b := matching[0];
      assert b in matching;
      if b.minTerm <= instalments <= b.maxTerm && b.minValue <= value <= b.maxValue then RuleAnswer(true, None)
      else RuleAnswer(false, Some(FORA_DA_POLITICA))
  }

  /** Two bands that both hold the client's age reject, whatever the terms. */
  lemma OverlappingBandsReject(b1: AgeBand, b2: AgeBand, years: nat, months: nat, instalments: int, value: int)
    requires months < 12
    requires AgeInBand(b1, AgeKey(years, months)) && AgeInBand(b2, AgeKey(years, months))
    ensures !ValidarRegraFaixaIdade([b1, b2], years, months, instalments, value).approved
  {
    var m := MatchingBands([b1, b2], AgeKey(years, months));
    assert MatchingBands([b1, b2][1..], AgeKey(years, months)) == [b2] + MatchingBands([], AgeKey(years, months));
    assert m == [b1, b2];
  }

  // ---------------------------------------------------------------------
  // Product-type guard

  /** How a validator class declares `_TIPO_PRODUTO`: unset, one code, a
      list of codes, or a tuple of codes. */
  datatype ProductDecl = Undeclared | Single(code: int) | ListDecl(codes: seq<int>) | TupleDecl(codes: seq<int>)

  /** Python truthiness of the declaration. */
  predicate Declared(d: ProductDecl) {
    match d
    case Undeclared => false
    case Single(c) => c != 0
    case ListDecl(cs) => |cs| > 0
    case TupleDecl(cs) => |cs| > 0
  }

  /** `validar_tipo_produto` as written: equality for an int, membership for
      a list, and nothing at all for a tuple, which is neither. */
  function ValidarTipoProdutoAsWritten(d: ProductDecl, tipoProduto: int): (r: Result<()>)
    ensures !Declared(d) ==> r.Err?
    ensures d.Single? && Declared(d) ==> (r.Ok? <==> tipoProduto == d.code)
    ensures d.ListDecl? && Declared(d) ==> (r.Ok? <==> tipoProduto in d.codes)
    ensures d.TupleDecl? && Declared(d) ==> r.Ok?
  {
    if !Declared(d) then Err("Você precisa definir a variável tipo_produto na classe herdada.")
    else if (d.ListDecl? && tipoProduto !in d.codes) || (d.Single? && tipoProduto != d.code) then
      Err("Este produto não pode ser utilizado nessa classe.")
    else Ok(())
  }

  /** The free-margin validator declares the tuple (MARGEM_LIVRE, INSS), so
      the guard as written lets a portability contract through it. */
  lemma TupleGuardLetsAnyProductThrough()
    ensures ValidarTipoProdutoAsWritten(TupleDecl([PRODUTO_MARGEM_LIVRE, PRODUTO_INSS]), PRODUTO_PORTABILIDADE).Ok?
    ensures ValidarTipoProduto(TupleDecl([PRODUTO_MARGEM_LIVRE, PRODUTO_INSS]), PRODUTO_PORTABILIDADE).Err?
  {
  }

  /** The evident intent: a tuple is a collection like a list. */
  function ValidarTipoProduto(d: ProductDecl, tipoProduto: int): (r: Result<()>)
    ensures r.Ok? <==> Declared(d) && match d
      case Single(c) => tipoProduto == c
      case ListDecl(cs) => tipoProduto in cs
      case TupleDecl(cs) => tipoProduto in cs
      case Undeclared => false
  {
    if !Declared(d) then Err("Você precisa definir a variável tipo_produto na classe herdada.")
    else if (d.ListDecl? && tipoProduto !in d.codes) || (d.TupleDecl? && tipoProduto !in d.codes)
         || (d.Single? && tipoProduto != d.code) then
      Err("Este produto não pode ser utilizado nessa classe.")
    else Ok(())
  }

  /** The two guards agree on every declaration except a tuple. */
  lemma GuardsAgreeOffTuples(d: ProductDecl, tipoProduto: int)
    requires !d.TupleDecl?
    ensures ValidarTipoProduto(d, tipoProduto) == ValidarTipoProdutoAsWritten(d, tipoProduto)
  {
  }

  // ---------------------------------------------------------------------
  // The validation pipeline

  /** Everything `ValidadorRegrasBeneficioContrato.validar` reads. */
  datatype ContractFacts = ContractFacts(
    decl: ProductDecl,
    tipoProduto: int,
    hasClient: bool,
    instalments: Option<int>,
    concession: Option<Date>,
    species: int,
    ageAtConcession: int,
    benefitMonths: int,
    bands: seq<AgeBand>,
    ageYears: nat,
    ageMonths: nat,
    value: int)

  /** Python truthiness of the instalment count. */
  predicate InstalmentsSet(i: Option<int>) {
    i.Some? && i.value != 0
  }

  /** Construction (product guard, client check) followed by `validar`:
      unset instalments raise, a failed death rule is returned as it is, and
      only otherwise does the age band decide. */
  function Validar(f: ContractFacts): (r: Result<RuleAnswer>)
    requires f.ageMonths < 12
    ensures ValidarTipoProduto(f.decl, f.tipoProduto).Err? ==> r.Err?
    ensures !InstalmentsSet(f.instalments) ==> r.Err?
    ensures r.Ok? ==> InstalmentsSet(f.instalments) && f.hasClient
    ensures r.Ok? ==>
      var death := ValidarRegraMorte(f.concession, f.species, f.ageAtConcession, f.benefitMonths,
                                     f.instalments.value);
      if !death.approved then r.value == death
      else r.value == ValidarRegraFaixaIdade(f.bands, f.ageYears, f.ageMonths, f.instalments.value, f.value)
  {
    var _ :- ValidarTipoProduto(f.decl, f.tipoProduto);
    if !f.hasClient then Err("Este contrato não possui cliente!")
    else if !InstalmentsSet(f.instalments) then Err("Você precisa definir a variável parcelas na classe herdada.")
    else
      var death := ValidarRegraMorte(f.concession, f.species, f.ageAtConcession, f.benefitMonths,
                                     f.instalments.value);
      if !death.approved then Ok(death)
      else Ok(ValidarRegraFaixaIdade(f.bands, f.ageYears, f.ageMonths, f.instalments.value, f.value))
  }

  /** A contract without a concession date is refused with that reason,
      whatever its age band would say. */
  lemma ValidarWithoutConcession(f: ContractFacts)
    requires f.ageMonths < 12 && f.concession.None? && f.hasClient && InstalmentsSet(f.instalments)
    requires ValidarTipoProduto(f.decl, f.tipoProduto).Ok?
    ensures Validar(f) == Ok(RuleAnswer(false, Some(MOTIVO_SEM_CONCESSAO)))
  {
  }
}
