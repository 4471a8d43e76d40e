/** The benefit-card simulation (contract/products/cartao_beneficio/Simulacao.py):
    the client's age, the age rule that applies, the margin and age checks,
    the pre-approved limit (margin times factor, capped and floored by the
    rule) and the withdrawal value, in the single-margin and the unified
    flavour. Money is in cents; factors and percentages carry their two
    decimal places as integers (hundredths). The rule and parameter rows
    are inputs. */
module CardSimulation {
  import opened Common
  import opened CoreUtils

  // ---------------------------------------------------------------------
  // Age

  /** The birth date arrives as a date or as `dd/mm/YYYY` text. */
  datatype BirthInput = AsDate(d: Date) | AsText(s: string)

  const ERR_BIRTH_FORMAT: string := "ValueError: does not match format '%d/%m/%Y'"

  /** A `%d` field: the day 1 to 31 in one or two digits, or a space and
      one digit. */
  function DayField(t: string): (r: Option<nat>)
    ensures r.Some? ==> 1 <= r.value <= 31
  {
    if |t| == 2 && t[0] == ' ' && '1' <= t[1] <= '9' then Some(DigitValue(t[1]))
    else if 1 <= |t| <= 2 && AllDigits(t) && 1 <= ParseNat(t) <= 31 then Some(ParseNat(t))
    else None
  }

  /** A `%m` field: the month 1 to 12 in one or two digits. */
  function MonthField(t: string): (r: Option<nat>)
    ensures r.Some? ==> 1 <= r.value <= 12
  {
    if 1 <= |t| <= 2 && AllDigits(t) && 1 <= ParseNat(t) <= 12 then Some(ParseNat(t)) else None
  }

  /** `strptime(s, '%d/%m/%Y')`: a day field, '/', a month field, '/',
      four year digits and nothing more, naming a real date of a year from
      1. Anything else raises. */
  function ParseBirth(s: string): (r: Result<Date>)
    ensures r.Ok? ==> ValidDate(r.value) && 1 <= r.value.year <= 9999
    ensures r.Ok? ==>
      8 <= |s| <= 10 && s[|s| - 5] == '/' && AllDigits(s[|s| - 4..]) && r.value.year == ParseNat(s[|s| - 4..])
  {
    match Find(s, "/")
    case None => Err(ERR_BIRTH_FORMAT)
    case Some(i) =>
      var rest := s[i + 1..];
      match Find(rest, "/")
      case None => Err(ERR_BIRTH_FORMAT)
      case Some(j) =>
        var day, month, yy := DayField(s[..i]), MonthField(rest[..j]), rest[j + 1..];
        if day.None? || month.None? || |yy| != 4 || !AllDigits(yy) then Err(ERR_BIRTH_FORMAT)
        else
          assert Pow10(4) == 10000;
          ParseNatBelow(yy);
          assert s[i + 1 + j] == '/' by { assert rest[j..j + 1] == "/"; }
          assert yy == s[|s| - 4..];
          var d := Date(ParseNat(yy), month.value, day.value);
          if d.year == 0 then Err("ValueError: year 0 is out of range")
          else if ValidDate(d) then Ok(d)
          else Err("ValueError: day is out of range for month")
  }

  /** `k` digits read as a number below `10^k`. */
  lemma {:induction false} ParseNatBelow(s: string)
    requires AllDigits(s)
    ensures ParseNat(s) < Pow10(|s|)
    decreases |s|
  {
    if |s| > 0 {
      ParseNatBelow(s[..|s| - 1]);
    }
  }

  /** The text a date is written as. */
  function FormatBirth(d: Date): (r: string)
    requires ValidDate(d) && 0 <= d.year <= 9999
    ensures |r| == 10
  {
    assert Pow10(2) == 100 && Pow10(4) == 10000;
    ZeroPad(d.day, 2) + "/" + ZeroPad(d.month, 2) + "/" + ZeroPad(d.year, 4)
  }

  /** A date written as `dd/mm/YYYY` is read back as itself. */
  lemma ParseBirthRoundTrip(d: Date)
    requires ValidDate(d) && 1 <= d.year <= 9999
    ensures ParseBirth(FormatBirth(d)) == Ok(d)
  {
    PaddedFields(d);
    ParseBirthOfFields(FormatBirth(d), ZeroPad(d.day, 2), ZeroPad(d.month, 2), ZeroPad(d.year, 4), d);
  }

  /** The zero-padded fields of a date are well-formed `%d`, `%m` and `%Y`
      fields naming its day, month and year. */
  lemma PaddedFields(d: Date)
    requires ValidDate(d) && 1 <= d.year <= 9999
    ensures var dd, mm, yy := ZeroPad(d.day, 2), ZeroPad(d.month, 2), ZeroPad(d.year, 4);
      FormatBirth(d) == dd + "/" + mm + "/" + yy
      && |dd| == 2 && |mm| == 2 && AllDigits(dd) && AllDigits(mm)
      && DayField(dd) == Some(d.day) && MonthField(mm) == Some(d.month)
      && |yy| == 4 && AllDigits(yy) && ParseNat(yy) == d.year
  {
    PaddedDay(d.day);
    PaddedMonth(d.month);
    assert Pow10(4) == 10000;
  }

  lemma PaddedDay(n: nat)
    requires 1 <= n <= 31
    ensures var t := ZeroPad(n, 2); |t| == 2 && AllDigits(t) && DayField(t) == Some(n)
  {
    assert Pow10(2) == 100;
    var t := ZeroPad(n, 2);
    assert |t| == 2 && AllDigits(t) && ParseNat(t) == n;
    assert IsDigit(t[0]);
    assert !(|t| == 2 && t[0] == ' ');
  }

  lemma PaddedMonth(n: nat)
    requires 1 <= n <= 12
    ensures var t := ZeroPad(n, 2); |t| == 2 && AllDigits(t) && MonthField(t) == Some(n)
  {
    assert Pow10(2) == 100;
  }

  /** A date written without zero padding of day and month, `d/m/YYYY`,
      is read as the same date too. */
  lemma ParseBirthUnpadded(d: Date)
    requires ValidDate(d) && 1 <= d.year <= 9999 && d.day < 10 && d.month < 10
    ensures ParseBirth(NatToString(d.day) + "/" + NatToString(d.month) + "/" + ZeroPad(d.year, 4)) == Ok(d)
  {
    assert Pow10(4) == 10000;
    var dd, mm, yy := NatToString(d.day), NatToString(d.month), ZeroPad(d.year, 4);
    ParseNatToString(d.day);
    ParseNatToString(d.month);
    NatToStringLength(d.day, 1);
    NatToStringLength(d.month, 1);
    ParseBirthOfFields(dd + "/" + mm + "/" + yy, dd, mm, yy, d);
  }

  /** Well-formed fields naming a real date are read as that date. */
  lemma ParseBirthOfFields(s: string, dd: string, mm: string, yy: string, d: Date)
    requires s == dd + "/" + mm + "/" + yy
    requires 1 <= |dd| <= 2 && 1 <= |mm| <= 2 && AllDigits(dd) && AllDigits(mm)
    requires DayField(dd) == Some(d.day) && MonthField(mm) == Some(d.month)
    requires |yy| == 4 && AllDigits(yy) && ParseNat(yy) == d.year
    requires ValidDate(d) && d.year >= 1
    ensures ParseBirth(s) == Ok(d)
  {
    BirthLayout(dd, mm, yy);
  }

  /** Splitting `dd/mm/yy` at its slashes gives back the three fields. */
  lemma BirthLayout(dd: string, mm: string, yy: string)
    requires 1 <= |dd| <= 2 && 1 <= |mm| <= 2 && AllDigits(dd) && AllDigits(mm)
    ensures var s := dd + "/" + mm + "/" + yy;
      Find(s, "/") == Some(|dd|) && s[..|dd|] == dd
      && Find(s[|dd| + 1..], "/") == Some(|mm|) && s[|dd| + 1..][..|mm|] == mm
      && s[|dd| + 1..][|mm| + 1..] == yy
  {
    var s := dd + "/" + mm + "/" + yy;
    NoSlashBefore(s, dd);
    NoSlashBefore(s[|dd| + 1..], mm);
  }

  /** In `t + "/" + …` with `t` all digits, the first '/' ends `t`. */
  lemma NoSlashBefore(s: string, t: string)
    requires AllDigits(t) && |t| < |s| && s[..|t|] == t && s[|t|] == '/'
    ensures Find(s, "/") == Some(|t|)
  {
    assert OccursAt(s, "/", |t|) by { assert s[|t|..|t| + 1] == "/"; }
    forall j | 0 <= j < |t| ensures !OccursAt(s, "/", j) {
      assert s[j] == t[j];
    }
  }

  /** `Simulacao.calcular_idade`: the age on `today` of the birth date,
      whichever way it came. */
  function SimulationAge(today: Date, nascimento: BirthInput): (r: Result<int>)
    ensures nascimento.AsDate? ==> r == Ok(CalcularIdade(today, Some(nascimento.d)))
    ensures nascimento.AsText? ==>
      (r.Ok? <==> ParseBirth(nascimento.s).Ok?)
      && (r.Ok? ==> r.value == CalcularIdade(today, Some(ParseBirth(nascimento.s).value)))
  {
    match nascimento
    case AsDate(d) => Ok(CalcularIdadeCliente(today, d))
    case AsText(s) =>
      match ParseBirth(s)
      case Err(m) => Err(m)
      case Ok(d) => Ok(CalcularIdadeCliente(today, d))
  }

  /** Both spellings of the same date give the same age. */
  lemma SimulationAgeSpellings(today: Date, d: Date)
    requires ValidDate(d) && 1 <= d.year <= 9999
    ensures SimulationAge(today, AsText(FormatBirth(d))) == SimulationAge(today, AsDate(d))
  {
    ParseBirthRoundTrip(d);
  }

  /** `validar_idade_cliente_maxima_minima`. */
  predicate InAgeRange(idade: int, idadeMinima: int, idadeMaxima: int) {
    idadeMinima <= idade <= idadeMaxima
  }

  // ---------------------------------------------------------------------
  // Age rules

  /** An active age rule of the card product. Factors are in hundredths. */
  datatype AgeRule = AgeRule(
    idadeMinima: int, idadeMaxima: int,
    fator: int, fatorCompra: int, fatorSaque: int,
    limiteMinimoCredito: int, limiteMaximoCredito: int,
    gruposParcelas: seq<int>)

  function CountMatching(rules: seq<AgeRule>, idade: int): (n: nat)
    ensures n <= |rules|
  {
    if |rules| == 0 then 0
    else (if InAgeRange(idade, rules[0].idadeMinima, rules[0].idadeMaxima) then 1 else 0)
         + CountMatching(rules[1..], idade)
  }

  /** The rule the loop leaves in `regra_idade`: the last one whose range
      holds the age. */
  function LastMatching(rules: seq<AgeRule>, idade: int): (r: Option<AgeRule>)
    ensures r.None? <==> CountMatching(rules, idade) == 0
    ensures r.Some? ==> r.value in rules && InAgeRange(idade, r.value.idadeMinima, r.value.idadeMaxima)
    decreases |rules|
  {
    if |rules| == 0 then None
    else
      var rest := LastMatching(rules[1..], idade);
      if rest.Some? then rest
      else if InAgeRange(idade, rules[0].idadeMinima, rules[0].idadeMaxima) then Some(rules[0])
      else None
  }

  const ERR_DUPLICATED_RULE: string := "Parâmetro de regra de idade duplicada"
  const ERR_AGE_REQUIREMENTS: string := "Cliente não atende os requisitos de idade para contratação"

  /** The rule selection both simulations start with: exactly one rule may
      hold the age. */
  function SelectAgeRule(rules: seq<AgeRule>, idade: int): (r: Result<AgeRule>)
    ensures r.Ok? <==> CountMatching(rules, idade) == 1
    ensures CountMatching(rules, idade) > 1 ==> r == Err(ERR_DUPLICATED_RULE)
    ensures CountMatching(rules, idade) == 0 ==> r == Err(ERR_AGE_REQUIREMENTS)
    ensures r.Ok? ==> r.value in rules && InAgeRange(idade, r.value.idadeMinima, r.value.idadeMaxima)
  {
    var n := CountMatching(rules, idade);
    if n > 1 then Err(ERR_DUPLICATED_RULE)
    else if n == 0 then Err(ERR_AGE_REQUIREMENTS)
    else Ok(LastMatching(rules, idade).value)
  }

  /** The instalment groups offered: the positive ones, ascending. */
  function ValidGroups(grupos: seq<int>): (r: seq<int>)
    ensures SortedInts(r)
    ensures forall k :: 0 <= k < |r| ==> r[k] > 0
    ensures multiset(r) == multiset(PositiveOnly(grupos))
  {
    PositiveOnlySpec(grupos);
    var r := SortInts(PositiveOnly(grupos));
    forall k | 0 <= k < |r| ensures r[k] > 0 {
      assert r[k] in multiset(r);
      assert r[k] in PositiveOnly(grupos);
    }
    r
  }

  function PositiveOnly(s: seq<int>): seq<int> {
    if |s| == 0 then [] else (if s[0] > 0 then [s[0]] else []) + PositiveOnly(s[1..])
  }

  /** The positive groups are the input's positive elements, nothing else. */
  lemma {:induction false} PositiveOnlySpec(s: seq<int>)
    ensures forall x :: x in PositiveOnly(s) <==> x in s && x > 0
    ensures multiset(PositiveOnly(s)) <= multiset(s)
    decreases |s|
  {
    if |s| > 0 {
      PositiveOnlySpec(s[1..]);
      assert s == [s[0]] + s[1..];
    }
  }

  // ---------------------------------------------------------------------
  // Single-margin simulation

  /** The card product's parameters at the convenio. */
  datatype ProductParams = ProductParams(
    margemMinima: int, margemMaxima: int,
    idadeMinima: int, idadeMaxima: int,
    percentualSaque: int)

  /** What the simulation reads about the convenio: whether it is SERPRO
      (and then the SIAPE link's age parameter), and whether it is INSS
      (and then the benefit species' age range, absent when the species
      is not offered). */
  datatype ConvenioFacts = ConvenioFacts(
    isSerpro: bool, siapeAgeParam: Option<(int, int)>,
    isInss: bool, especieAgeRange: Option<(int, int)>)

  datatype Simulated = Simulated(limitePreAprovado: int, valorSaque: int, grupos: seq<int>)

  // Messages that interpolate values are kept without the values.
  const ERR_MARGIN_RANGE: string := "A margem informada não está de acordo com os valores parametrizados no convênio."
  const ERR_NO_SIAPE_RULE: string := "Não existe regra de idade para o Tipo de Viculo informado."
  const ERR_NO_SPECIES: string := "Especie INSS não encontrada para os parâmetros fornecidos."
  const ERR_NO_AGE_PARAMS: string := "Não existem parâmetros de idade para o benefício selecionado."
  const ERR_RULE_AGE: string := "A idade informada do cliente não está de acordo com os requisitos de Tipo de Vinculo."

  /** `round(margin * factor, 2)`: cents times hundredths, back to cents. */
  function ApplyFactor(cents: int, fator: int): int {
    RoundHalfEven(cents * fator, 100)
  }

  /** `round(limit * percentual / 100, 2)`: the percentage carries two
      decimals, so the scale is ten thousand. */
  function ApplyPercent(cents: int, percentual: int): int {
    RoundHalfEven(cents * percentual, 10000)
  }

  /** The credit limit rule shared by both simulations: above the rule's
      maximum the maximum is used; below its minimum the client is refused. */
  function CapLimit(limite: int, rule: AgeRule): (r: Result<int>)
    ensures limite > rule.limiteMaximoCredito ==> r == Ok(rule.limiteMaximoCredito)
    ensures limite <= rule.limiteMaximoCredito ==>
      (r.Ok? <==> limite >= rule.limiteMinimoCredito) && (r.Ok? ==> r.value == limite)
    ensures r.Err? ==> r == Err(ERR_AGE_REQUIREMENTS)
  {
    if limite > rule.limiteMaximoCredito then Ok(rule.limiteMaximoCredito)
    else if limite < rule.limiteMinimoCredito then Err(ERR_AGE_REQUIREMENTS)
    else Ok(limite)
  }

  /** `realizar`, up to the values it stores: rule selection, the SERPRO
      age parameter, the margin range, the INSS species and its ages, the rule's own age range
      again, the capped limit, a positive limit, and the withdrawal value. */
  function Realizar(idade: int, rules: seq<AgeRule>, p: ProductParams, conv: ConvenioFacts, margem: int)
    : (r: Result<Simulated>)
    ensures r.Ok? ==> CountMatching(rules, idade) == 1
    ensures r.Ok? ==> p.margemMinima <= margem <= p.margemMaxima
    ensures r.Ok? && conv.isSerpro ==> conv.siapeAgeParam.Some?
    ensures r.Ok? && conv.isInss ==>
      conv.especieAgeRange.Some? && InAgeRange(idade, conv.especieAgeRange.value.0, conv.especieAgeRange.value.1)
    ensures r.Ok? ==>
      var rule := SelectAgeRule(rules, idade).value;
      var raw := ApplyFactor(margem, rule.fator);
      r.value.limitePreAprovado > 0
      && r.value.limitePreAprovado == (if raw > rule.limiteMaximoCredito then rule.limiteMaximoCredito else raw)
      && (raw <= rule.limiteMaximoCredito ==> raw >= rule.limiteMinimoCredito)
      && r.value.valorSaque == ApplyPercent(r.value.limitePreAprovado, p.percentualSaque)
      && r.value.grupos == ValidGroups(rule.gruposParcelas)
    ensures r != Err(ERR_RULE_AGE)
  {
    var rule :- SelectAgeRule(rules, idade);
    if conv.isSerpro && conv.siapeAgeParam.None? then Err(ERR_NO_SIAPE_RULE)
    else if !(p.margemMinima <= margem <= p.margemMaxima) then Err(ERR_MARGIN_RANGE)
    else if conv.isInss && conv.especieAgeRange.None? then Err(ERR_NO_SPECIES)
    else if conv.isInss && !InAgeRange(idade, conv.especieAgeRange.value.0, conv.especieAgeRange.value.1) then
      Err(ERR_NO_AGE_PARAMS)
    else if !InAgeRange(idade, rule.idadeMinima, rule.idadeMaxima) then Err(ERR_RULE_AGE)
    else
      var limite :- CapLimit(ApplyFactor(margem, rule.fator), rule);
      if limite <= 0 then Err(ERR_NO_AGE_PARAMS)
      else Ok(Simulated(limite, ApplyPercent(limite, p.percentualSaque), ValidGroups(rule.gruposParcelas)))
  }

  /** A larger margin never lowers the limit: the factor is not negative
      and the cap is the same. */
  lemma LimitMonotoneInMargin(m1: int, m2: int, rule: AgeRule)
    requires m1 <= m2 && rule.fator >= 0
    ensures ApplyFactor(m1, rule.fator) <= ApplyFactor(m2, rule.fator)
  {
    assert m1 * rule.fator <= m2 * rule.fator by {
      assert (m2 - m1) * rule.fator >= 0;
      assert m2 * rule.fator - m1 * rule.fator == (m2 - m1) * rule.fator;
    }
    RoundHalfEvenMonotone(m1 * rule.fator, m2 * rule.fator, 100);
  }

  /** With a non-negative percentage up to one hundred percent the
      withdrawal never exceeds the limit. */
  lemma WithdrawalWithinLimit(limite: int, percentual: int)
    requires limite >= 0 && 0 <= percentual <= 10000
    ensures 0 <= ApplyPercent(limite, percentual) <= limite
  {
    assert 0 <= limite * percentual <= limite * 10000 by {
      assert limite * 10000 - limite * percentual == limite * (10000 - percentual);
    }
    RoundHalfEvenMonotone(0, limite * percentual, 10000);
    RoundHalfEvenMonotone(limite * percentual, limite * 10000, 10000);
    assert RoundHalfEven(0, 10000) == 0;
    assert RoundHalfEven(limite * 10000, 10000) == limite;
  }

  // ---------------------------------------------------------------------
  // Unified-margin simulation

  datatype MarginCheck = MarginValidated | MarginError(msg: string)

  const ERR_MARGIN_AGE: string := "A idade informada do cliente não está de acordo com as idades parametrizados no convênio."

  /** `processar_margem_compra` and `processar_margem_saque`: the value
      must lie in the product's margin range, then the age in its age
      range. */
  function ProcessarMargem(idade: int, p: ProductParams, valor: int): (r: MarginCheck)
    ensures r == MarginValidated <==>
      (p.margemMinima <= valor <= p.margemMaxima && InAgeRange(idade, p.idadeMinima, p.idadeMaxima))
    ensures !(p.margemMinima <= valor <= p.margemMaxima) ==> r == MarginError(ERR_MARGIN_RANGE)
  {
    if !(p.margemMinima <= valor <= p.margemMaxima) then MarginError(ERR_MARGIN_RANGE)
    else if InAgeRange(idade, p.idadeMinima, p.idadeMaxima) then MarginValidated
    else MarginError(ERR_MARGIN_AGE)
  }

  datatype UnifiedSimulated = UnifiedSimulated(
    limiteCompra: int, limiteSaque: int, limitePreAprovado: int, valorSaque: int, grupos: seq<int>)

  /** `realizar_simulacao_margem_unificada`: the purchase and withdrawal
      margins are each multiplied by their factor and rounded, the sum is
      capped and floored by the rule, and the withdrawal value is taken on
      the withdrawal part alone. This path does not check the margin
      ranges, nor that the limit is positive. */
  function RealizarMargemUnificada(idade: int, rules: seq<AgeRule>, saque: ProductParams,
                                   valorCompra: int, valorSaque: int): (r: Result<UnifiedSimulated>)
    ensures r.Ok? <==>
      (SelectAgeRule(rules, idade).Ok?
       && CapLimit(ApplyFactor(valorCompra, SelectAgeRule(rules, idade).value.fatorCompra)
                   + ApplyFactor(valorSaque, SelectAgeRule(rules, idade).value.fatorSaque),
                   SelectAgeRule(rules, idade).value).Ok?)
    ensures r.Ok? ==>
      var rule := SelectAgeRule(rules, idade).value;
      r.value.limiteCompra == ApplyFactor(valorCompra, rule.fatorCompra)
      && r.value.limiteSaque == ApplyFactor(valorSaque, rule.fatorSaque)
      && r.value.limitePreAprovado <= rule.limiteMaximoCredito
      && (r.value.limitePreAprovado == rule.limiteMaximoCredito
          || r.value.limitePreAprovado == r.value.limiteCompra + r.value.limiteSaque)
      && r.value.valorSaque == ApplyPercent(r.value.limiteSaque, saque.percentualSaque)
  {
    var rule :- SelectAgeRule(rules, idade);
    var compra := ApplyFactor(valorCompra, rule.fatorCompra);
    var saqueLimite := ApplyFactor(valorSaque, rule.fatorSaque);
    var limite :- CapLimit(compra + saqueLimite, rule);
    Ok(UnifiedSimulated(compra, saqueLimite, limite, ApplyPercent(saqueLimite, saque.percentualSaque),
                        ValidGroups(rule.gruposParcelas)))
  }

  /** With a zero withdrawal margin the unified limit is the single-margin
      limit on the purchase margin with the purchase factor. */
  lemma UnifiedWithoutWithdrawal(idade: int, rules: seq<AgeRule>, saque: ProductParams, valorCompra: int)
    requires RealizarMargemUnificada(idade, rules, saque, valorCompra, 0).Ok?
    ensures var rule := SelectAgeRule(rules, idade).value;
      RealizarMargemUnificada(idade, rules, saque, valorCompra, 0).value.limitePreAprovado
        == CapLimit(ApplyFactor(valorCompra, rule.fatorCompra), rule).value
  {
    var rule := SelectAgeRule(rules, idade).value;
    assert ApplyFactor(0, rule.fatorSaque) == 0;
  }
}
