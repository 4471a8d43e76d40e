/** Shared helpers of the back office (core/utils.py): the CPF mask, the two
    money renderings, age in whole years, the removal of "check" rules from
    the credit-bureau answer, the status-change rule, and set intersection.
    Money is in integer cents. */
module CoreUtils {
  import opened Common
  import opened Codes
  import opened Contracts

  // ---------------------------------------------------------------------
  // CPF mask

  /** `str.zfill`: zeros go after a leading sign. */
  function ZFill(s: string, width: nat): (r: string)
    ensures |r| == if |s| >= width then |s| else width
    ensures AllDigits(s) ==> r == PadLeft(s, width, '0')
  {
    if |s| > 0 && (s[0] == '+' || s[0] == '-') then
      [s[0]] + PadLeft(s[1..], if width == 0 then 0 else width - 1, '0')
    else PadLeft(s, width, '0')
  }

  lemma {:induction false} RemoveCharsConcat(a: string, b: string, drop: set<char>)
    ensures RemoveChars(a + b, drop) == RemoveChars(a, drop) + RemoveChars(b, drop)
    decreases |a|
  {
    if |a| > 0 {
      assert (a + b)[1..] == a[1..] + b;
      RemoveCharsConcat(a[1..], b, drop);
    } else {
      assert a + b == b;
    }
  }

  lemma {:induction false} RemoveCharsNone(a: string, drop: set<char>)
    requires forall i :: 0 <= i < |a| ==> a[i] !in drop
    ensures RemoveChars(a, drop) == a
    decreases |a|
  {
    if |a| > 0 {
      RemoveCharsNone(a[1..], drop);
    }
  }

  /** The characters of a CPF mask that are not punctuation. */
  function MaskDigits(r: string): string
    requires |r| >= 12
  {
    r[..3] + r[4..7] + r[8..11] + r[12..]
  }

  /** `formatar_cpf`: zero-filled to eleven characters and shown as
      `ddd.ddd.ddd-dd`; a longer value keeps its extra characters in the
      last group. Dropping the three punctuation marks gives back the
      zero-filled value, and for a digit string of at most eleven digits
      its number. */
  function FormatarCpf(cpf: string): (r: string)
    ensures |r| == (if |cpf| < 11 then 11 else |cpf|) + 3
    ensures r[3] == '.' && r[7] == '.' && r[11] == '-'
    ensures MaskDigits(r) == ZFill(cpf, 11)
    ensures AllDigits(cpf) ==> AllDigits(MaskDigits(r)) && MaskDigits(r) == PadLeft(cpf, 11, '0')
    ensures AllDigits(cpf) && |cpf| <= 11 ==> ParseNat(MaskDigits(r)) == ParseNat(cpf)
  {
    var p := ZFill(cpf, 11);
    var r := p[..3] + "." + p[3..6] + "." + p[6..9] + "-" + p[9..];
    CpfLayout(p);
    if AllDigits(cpf) && |cpf| <= 11 then
      assert p == Repeat('0', 11 - |cpf|) + cpf;
      ParseNatLeadingZeros(cpf, 11 - |cpf|);
      r
    else r
  }

  lemma CpfLayout(p: string)
    requires |p| >= 11
    ensures var r := p[..3] + "." + p[3..6] + "." + p[6..9] + "-" + p[9..];
      |r| == |p| + 3 && r[3] == '.' && r[7] == '.' && r[11] == '-' && MaskDigits(r) == p
  {
    var r := p[..3] + "." + p[3..6] + "." + p[6..9] + "-" + p[9..];
    assert r[..3] == p[..3];
    assert r[4..7] == p[3..6];
    assert r[8..11] == p[6..9];
    assert r[12..] == p[9..];
    assert p[..3] + p[3..6] + p[6..9] + p[9..] == p;
  }

  // ---------------------------------------------------------------------
  // Money renderings

  /** Thousands grouping of a digit string: `sep` follows every digit that
      still has a positive multiple of three digits after it. */
  function Group(d: string, sep: char): (r: string)
    ensures |d| > 0 ==> |r| == |d| + (|d| - 1) / 3
    ensures |d| == 0 ==> r == ""
  {
    if |d| == 0 then ""
    else [d[0]] + (if |d| > 1 && (|d| - 1) % 3 == 0 then [sep] else []) + Group(d[1..], sep)
  }

  /** The grouping only inserts separators: taking them out gives the
      digits back. */
  lemma {:induction false} GroupUngroup(d: string, sep: char)
    requires AllDigits(d) && !IsDigit(sep)
    ensures RemoveChars(Group(d, sep), {sep}) == d
    decreases |d|
  {
    if |d| > 0 {
      var mid: string := if |d| > 1 && (|d| - 1) % 3 == 0 then [sep] else [];
      GroupUngroup(d[1..], sep);
      RemoveCharsConcat([d[0]] + mid, Group(d[1..], sep), {sep});
      RemoveCharsConcat([d[0]], mid, {sep});
      assert RemoveChars([d[0]], {sep}) == [d[0]];
      assert RemoveChars(mid, {sep}) == [];
      assert [d[0]] + d[1..] == d;
    }
  }

  /** A separator sits exactly at every fourth position counted from the
      right end (the groups of three). */
  lemma {:induction false} GroupSeparatorAt(d: string, sep: char, i: nat)
    requires AllDigits(d) && !IsDigit(sep) && |d| > 0
    requires i < |Group(d, sep)|
    ensures var r := Group(d, sep);
      r[i] == sep <==> (i > 0 && (|r| - i) % 4 == 0)
    decreases |d|
  {
    var r := Group(d, sep);
    assert IsDigit(d[0]);
    if |d| > 1 {
      var g := Group(d[1..], sep);
      var mid: string := if (|d| - 1) % 3 == 0 then [sep] else [];
      assert r == [d[0]] + mid + g;
      GroupLengthMod(|d| - 1);
      if i == 0 {
        assert r[0] == d[0];
      } else if i < 1 + |mid| {
        assert r[i] == sep;
      } else {
        var j := i - 1 - |mid|;
        assert r[i] == g[j];
        GroupSeparatorAt(d[1..], sep, j);
      }
    }
  }

  /** The length of a grouping of m digits, modulo 4. */
  lemma GroupLengthMod(m: nat)
    requires m >= 1
    ensures var len := m + (m - 1) / 3;
      (m % 3 == 0 <==> len % 4 == 3) && len % 4 != 0
  {
    var k := (m - 1) / 3;
    assert (m - 1) / 3 == k;
    if m == 3 * k + 1 {
      assert m % 3 == 1 && m + k == 4 * k + 1 && (4 * k + 1) % 4 == 1;
    } else if m == 3 * k + 2 {
      assert m % 3 == 2 && m + k == 4 * k + 2 && (4 * k + 2) % 4 == 2;
    } else {
      assert m == 3 * k + 3;
      assert m % 3 == 0 && m + k == 4 * k + 3 && (4 * k + 3) % 4 == 3;
    }
  }

  function Abs(c: int): nat {
    if c < 0 then -c else c
  }

  function SignOf(c: int): string {
    if c < 0 then "-" else ""
  }

  /** The whole part of an amount in cents, in decimal, without sign. */
  function WholeOf(c: int): (r: string)
    ensures |r| >= 1 && AllDigits(r)
  {
    NatToString(Abs(c) / 100)
  }

  /** The two decimals of an amount in cents. */
  function CentsOf(c: int): (r: string)
    ensures |r| == 2 && AllDigits(r)
  {
    assert Pow10(2) == 100;
    ZeroPad(Abs(c) % 100, 2)
  }

  /** `f'{v:.2f}'`-style rendering of cents: sign, the whole part (grouped
      with `tsep` when given), `dsep`, two decimals. */
  function TwoDecimals(cents: int, tsep: Option<char>, dsep: char): (r: string)
    ensures |r| > 3 && r[|r| - 3] == dsep && r[|r| - 2..] == CentsOf(cents)
  {
    var whole := WholeOf(cents);
    var x := if tsep.Some? then Group(whole, tsep.value) else whole;
    var z := CentsOf(cents);
    var r := SignOf(cents) + (x + ([dsep] + z));
    MarkAndCents(r, SignOf(cents), x, dsep, z);
    r
  }

  /** Where the mark and the two decimals sit in a rendering. */
  lemma MarkAndCents(r: string, sign: string, x: string, dsep: char, z: string)
    requires |x| >= 1 && |z| == 2 && r == sign + (x + ([dsep] + z))
    ensures |r| > 3 && r[|r| - 3] == dsep && r[|r| - 2..] == z
  {
  }

  /** What `real_br_money_mask` gives back: the number 0 for a missing
      value, otherwise text. */
  datatype MoneyMask = ZeroNumber | Text(text: string)

  function SwapChar(c: char): char {
    if c == ',' then '.' else if c == '.' then ',' else c
  }

  /** `real_br_money_mask`: US grouping `1,234.56` with ',' and '.'
      exchanged through a placeholder 'v' -- the Brazilian rendering
      `1.234,56`. */
  function RealBrMoneyMask(value: Option<int>): (r: MoneyMask)
    ensures value.None? <==> r == ZeroNumber
    ensures value.Some? ==> r == Text(TwoDecimals(value.value, Some('.'), ','))
  {
    match value
    case None => ZeroNumber
    case Some(v) =>
      var a := TwoDecimals(v, Some(','), '.');
      var r := ReplaceChar(ReplaceChar(ReplaceChar(a, ',', 'v'), '.', ','), 'v', '.');
      SwapRendering(v);
      Text(r)
  }

  /** The placeholder exchange turns the ','-grouped rendering into the
      '.'-grouped one with a decimal comma. */
  lemma SwapRendering(v: int)
    ensures ReplaceChar(ReplaceChar(ReplaceChar(TwoDecimals(v, Some(','), '.'), ',', 'v'), '.', ','), 'v', '.')
      == TwoDecimals(v, Some('.'), ',')
  {
    SwapPieces(v);
    ExchangeThroughPlaceholder(TwoDecimals(v, Some(','), '.'), TwoDecimals(v, Some('.'), ','), ',', '.', 'v');
  }

  /** Replacing `x` by a placeholder `p`, `y` by `x` and `p` by `y`
      exchanges `x` and `y` in a text without `p` (as ',' and '.' through
      'v'). */
  lemma ExchangeThroughPlaceholder(a: string, b: string, x: char, y: char, p: char)
    requires x != y && p != x && p != y
    requires |a| == |b|
    requires forall i :: 0 <= i < |a| ==> a[i] != p && b[i] == (if a[i] == x then y else if a[i] == y then x else a[i])
    ensures ReplaceChar(ReplaceChar(ReplaceChar(a, x, p), y, x), p, y) == b
  {
    var a1 := ReplaceChar(a, x, p);
    var a2 := ReplaceChar(a1, y, x);
    var r := ReplaceChar(a2, p, y);
    forall i | 0 <= i < |r| ensures r[i] == b[i] {
      assert a1[i] == (if a[i] == x then p else a[i]);
      assert a2[i] == (if a1[i] == y then x else a1[i]);
    }
  }

  lemma SwapPieces(v: int)
    ensures var a := TwoDecimals(v, Some(','), '.');
      var b := TwoDecimals(v, Some('.'), ',');
      |a| == |b| && forall i :: 0 <= i < |a| ==> a[i] != 'v' && b[i] == SwapChar(a[i])
  {
    var sign := SignOf(v);
    var z := CentsOf(v);
    var ga := Group(WholeOf(v), ',');
    var gb := Group(WholeOf(v), '.');
    GroupSwap(WholeOf(v));
    var a := sign + (ga + (['.'] + z));
    var b := sign + (gb + ([','] + z));
    forall i | 0 <= i < |a|
      ensures a[i] != 'v' && b[i] == SwapChar(a[i])
    {
      if i < |sign| {
      } else if i < |sign| + |ga| {
        assert a[i] == ga[i - |sign|] && b[i] == gb[i - |sign|];
      } else if i == |sign| + |ga| {
      } else {
        assert a[i] == z[i - |sign| - |ga| - 1] && b[i] == z[i - |sign| - |ga| - 1];
        assert IsDigit(z[i - |sign| - |ga| - 1]);
      }
    }
  }

  /** Grouping with ',' and with '.' differ only in the separator. */
  lemma {:induction false} GroupSwap(d: string)
    requires AllDigits(d)
    ensures var a := Group(d, ','); var b := Group(d, '.');
      |a| == |b| && forall i :: 0 <= i < |a| ==> a[i] != 'v' && b[i] == SwapChar(a[i])
    decreases |d|
  {
    if |d| > 0 {
      GroupSwap(d[1..]);
      var a := Group(d, ',');
      var b := Group(d, '.');
      var ga := Group(d[1..], ',');
      var gb := Group(d[1..], '.');
      var sep := |d| > 1 && (|d| - 1) % 3 == 0;
      var k := if sep then 2 else 1;
      assert IsDigit(d[0]);
      forall i | 0 <= i < |a|
        ensures a[i] != 'v' && b[i] == SwapChar(a[i])
      {
        if i >= k {
          assert a[i] == ga[i - k] && b[i] == gb[i - k];
        }
      }
    }
  }

  /** How many digits start `t`. */
  function DigitRun(t: string): (n: nat)
    ensures n <= |t|
  {
    if |t| == 0 || !IsDigit(t[0]) then 0 else 1 + DigitRun(t[1..])
  }

  /** `re.sub(r'(\d)(?=(\d{3})+(?!\d))', r'\1.', s)`: every digit followed
      by a run of digits whose length is a positive multiple of three (and
      then a non-digit or the end) gains a '.' after it. Each match consumes
      one digit and the look-ahead consumes nothing, so every position is
      examined. */
  function RegexThousands(s: string): (r: string)
    ensures |r| >= |s|
  {
    if |s| == 0 then ""
    else
      var run := DigitRun(s[1..]);
      [s[0]] + (if IsDigit(s[0]) && run > 0 && run % 3 == 0 then "." else "") + RegexThousands(s[1..])
  }

  lemma {:induction false} DigitRunPrefix(d: string, t: string)
    requires AllDigits(d) && (|t| == 0 || !IsDigit(t[0]))
    ensures DigitRun(d + t) == |d|
    decreases |d|
  {
    if |d| > 0 {
      assert (d + t)[1..] == d[1..] + t;
      DigitRunPrefix(d[1..], t);
    } else {
      assert d + t == t;
    }
  }

  /** On a digit run ended by a non-digit, the regular expression does what
      `Group` does. */
  lemma {:induction false} RegexThousandsDigits(d: string, t: string)
    requires AllDigits(d) && |t| > 0 && !IsDigit(t[0])
    ensures RegexThousands(d + t) == Group(d, '.') + RegexThousands(t)
    decreases |d|
  {
    if |d| > 0 {
      var mid: string := if |d| > 1 && (|d| - 1) % 3 == 0 then "." else "";
      assert (d + t)[0] == d[0] && (d + t)[1..] == d[1..] + t;
      assert IsDigit(d[0]);
      DigitRunPrefix(d[1..], t);
      assert RegexThousands(d + t) == [d[0]] + mid + RegexThousands(d[1..] + t);
      RegexThousandsDigits(d[1..], t);
      var g, rt := Group(d[1..], '.'), RegexThousands(t);
      assert Group(d, '.') == [d[0]] + mid + g;
      ConcatAssoc([d[0]] + mid, g, rt);
    } else {
      assert d + t == t;
    }
  }

  /** `formatar_valor_grande`: the two-decimal rendering with a '.' before
      every group of three whole digits -- the decimal point is also '.'. */
  function FormatarValorGrande(cents: int): (r: string)
    ensures r == TwoDecimals(cents, Some('.'), '.')
  {
    RegexOnTwoDecimals(cents);
    RegexThousands(TwoDecimals(cents, None, '.'))
  }

  lemma RegexOnTwoDecimals(cents: int)
    ensures RegexThousands(TwoDecimals(cents, None, '.')) == TwoDecimals(cents, Some('.'), '.')
  {
    var z := CentsOf(cents);
    var whole := WholeOf(cents);
    var x := whole + ("." + z);
    RegexThousandsCents(z);
    RegexThousandsDigits(whole, "." + z);
    RegexSign(cents, x);
    assert TwoDecimals(cents, None, '.') == SignOf(cents) + x;
    assert TwoDecimals(cents, Some('.'), '.') == SignOf(cents) + (Group(whole, '.') + ("." + z));
  }

  /** A leading minus sign is copied and the rest handled alone. */
  lemma RegexSign(cents: int, x: string)
    ensures RegexThousands(SignOf(cents) + x) == SignOf(cents) + RegexThousands(x)
  {
    if cents < 0 {
      assert ("-" + x)[1..] == x;
      assert ("-" + x)[0] == '-';
    } else {
      assert "" + x == x;
    }
  }

  /** The decimal point and two decimals are left alone. */
  lemma RegexThousandsCents(z: string)
    requires |z| == 2 && AllDigits(z)
    ensures RegexThousands("." + z) == "." + z
  {
    assert ("." + z)[1..] == z;
    assert IsDigit(z[0]) && IsDigit(z[1]);
    assert z[1..][1..] == [];
    assert DigitRun(z[1..]) == 1;
    assert RegexThousands(z[1..]) == z[1..];
    assert RegexThousands(z) == z;
  }

  /** `s` with its decimal separator, three characters from the end,
      replaced by `mark`. */
  function WithDecimalMark(s: string, mark: char): (r: string)
    requires |s| >= 3
    ensures |r| == |s| && r[|r| - 3] == mark
    ensures forall i :: 0 <= i < |s| && i != |s| - 3 ==> r[i] == s[i]
  {
    s[..|s| - 3] + [mark] + s[|s| - 2..]
  }

  /** The Brazilian mask is the large-value rendering with its decimal
      point turned into a comma. */
  lemma MoneyRenderingsAgree(cents: int)
    ensures RealBrMoneyMask(Some(cents)) == Text(WithDecimalMark(FormatarValorGrande(cents), ','))
  {
    ChangeDecimalMark(cents, Some('.'), '.', ',');
  }

  /** Changing the mark of a rendering renders with the other mark. */
  lemma ChangeDecimalMark(cents: int, tsep: Option<char>, d: char, e: char)
    ensures WithDecimalMark(TwoDecimals(cents, tsep, d), e) == TwoDecimals(cents, tsep, e)
  {
    var whole := WholeOf(cents);
    var x := if tsep.Some? then Group(whole, tsep.value) else whole;
    MarkSwap(SignOf(cents), x, CentsOf(cents), d, e);
  }

  /** Swapping the mark in front of two final characters. */
  lemma MarkSwap(sign: string, x: string, z: string, d: char, e: char)
    requires |z| == 2
    ensures WithDecimalMark(sign + (x + ([d] + z)), e) == sign + (x + ([e] + z))
  {
    var a := sign + (x + ([d] + z));
    assert a[..|a| - 3] == sign + x && a[|a| - 2..] == z;
  }

  // ---------------------------------------------------------------------
  // Age

  /** `(a.month, a.day) < (b.month, b.day)`. */
  predicate MonthDayBefore(a: Date, b: Date) {
    a.month < b.month || (a.month == b.month && a.day < b.day)
  }

  /** `calcular_idade`: whole years from `nascimento` to `today`; a missing
      birth date makes the attribute access fail and the function answer 0. */
  function CalcularIdade(today: Date, nascimento: Option<Date>): (r: int)
    ensures nascimento.None? ==> r == 0
    ensures nascimento.Some? ==>
      (r == today.year - nascimento.value.year <==> !MonthDayBefore(today, nascimento.value))
    ensures nascimento.Some? ==> today.year - nascimento.value.year - 1 <= r <= today.year - nascimento.value.year
  {
    match nascimento
    case None => 0
    case Some(b) => today.year - b.year - (if MonthDayBefore(today, b) then 1 else 0)
  }

  /** `calcular_idade_cliente`: the same count written with an explicit
      decrement; it agrees with `calcular_idade` on every birth date. */
  function CalcularIdadeCliente(today: Date, nascimento: Date): (r: int)
    ensures r == CalcularIdade(today, Some(nascimento))
  {
    var idade := today.year - nascimento.year;
    if today.month < nascimento.month || (today.month == nascimento.month && today.day < nascimento.day)
    then idade - 1 else idade
  }

  /** On the k-th birthday the age is k, and the day before it k - 1. */
  lemma AgeOnBirthday(b: Date, k: int)
    ensures CalcularIdade(Date(b.year + k, b.month, b.day), Some(b)) == k
    ensures b.day > 1 ==> CalcularIdade(Date(b.year + k, b.month, b.day - 1), Some(b)) == k - 1
  {
  }

  /** Age never decreases as time passes. */
  lemma AgeMonotone(t1: Date, t2: Date, b: Date)
    requires Before(t1, t2)
    ensures CalcularIdade(t1, Some(b)) <= CalcularIdade(t2, Some(b))
  {
  }

  // ---------------------------------------------------------------------
  // Credit-bureau rules

  /** One field comparison of a document check: approved, field name, value
      typed in the back office and value read from the document. */
  datatype FieldCheck = FieldCheck(aprovada: bool, campo: string, backoffice: string, most: string)

  /** `regra_aprovada` as the hub sends it: a boolean, or a dictionary that
      may hold an 'ocr' and an 'endereco' list of field checks next to
      `otherKeys` further keys. */
  datatype RuleOutcome =
    | Flag(b: bool)
    | Detail(ocr: Option<seq<FieldCheck>>, endereco: Option<seq<FieldCheck>>, otherKeys: nat)

  /** One rule element of the hub's answer. */
  datatype HubRule = HubRule(descricao: string, regraAprovada: RuleOutcome, restritiva: bool, msg: string)

  const CHECK_KEYWORDS: seq<string> := ["PEP", "OBITO", "NOME_MAE", "NASCIMENTO"]

  /** How many of `kws` occur in `desc`. */
  function KeywordCount(desc: string, kws: seq<string>): nat {
    if |kws| == 0 then 0
    else (if Contains(desc, kws[0]) then 1 else 0) + KeywordCount(desc, kws[1..])
  }

  /** A rule the back office checks itself: its description mentions PEP,
      OBITO, NOME_MAE or NASCIMENTO. */
  predicate IsCheckRule(desc: string) {
    Contains(desc, "PEP") || Contains(desc, "OBITO") || Contains(desc, "NOME_MAE") || Contains(desc, "NASCIMENTO")
  }

  lemma CheckRuleCount(desc: string)
    ensures IsCheckRule(desc) <==> KeywordCount(desc, CHECK_KEYWORDS) > 0
  {
    var k1: seq<string> := ["OBITO", "NOME_MAE", "NASCIMENTO"];
    var k2: seq<string> := ["NOME_MAE", "NASCIMENTO"];
    var k3: seq<string> := ["NASCIMENTO"];
    assert CHECK_KEYWORDS[1..] == k1 && k1[1..] == k2 && k2[1..] == k3 && k3[1..] == [];
    assert KeywordCount(desc, k3) == (if Contains(desc, "NASCIMENTO") then 1 else 0);
    assert KeywordCount(desc, k2) == (if Contains(desc, "NOME_MAE") then 1 else 0) + KeywordCount(desc, k3);
    assert KeywordCount(desc, k1) == (if Contains(desc, "OBITO") then 1 else 0) + KeywordCount(desc, k2);
  }

  /** `del xs[i]` with Python's negative indices; out of range raises. */
  function DeleteAt<T>(xs: seq<T>, i: int): (r: Result<seq<T>>)
    ensures r.Ok? <==> -|xs| <= i < |xs|
    ensures 0 <= i < |xs| ==> r == Ok(xs[..i] + xs[i + 1..])
    ensures r.Ok? ==> |r.value| == |xs| - 1
  {
    var j := if i < 0 then i + |xs| else i;
    if 0 <= j < |xs| then Ok(xs[..j] + xs[j + 1..]) else Err("IndexError: list assignment index out of range")
  }

  /** The inner loop of `exclude_all_check_rules` for the element at
      `index`: one deletion at `index - removed` per keyword found. */
  function ExcludeKeywords(desc: string, kws: seq<string>, index: int, filtered: seq<HubRule>, removed: nat)
    : (r: Result<(seq<HubRule>, nat)>)
    decreases |kws|
  {
    if |kws| == 0 then Ok((filtered, removed))
    else if Contains(desc, kws[0]) then
      match DeleteAt(filtered, index - removed)
      case Err(m) => Err(m)
      case Ok(f) => ExcludeKeywords(desc, kws[1..], index, f, removed + 1)
    else ExcludeKeywords(desc, kws[1..], index, filtered, removed)
  }

  /** The outer loop, over the rules from `index` on, looking for `kws`. */
  function ExcludeLoop(rules: seq<HubRule>, kws: seq<string>, index: nat, filtered: seq<HubRule>, removed: nat)
    : (r: Result<seq<HubRule>>)
    requires index <= |rules|
    decreases |rules| - index
  {
    if index == |rules| then Ok(filtered)
    else
      match ExcludeKeywords(rules[index].descricao, kws, index, filtered, removed)
      case Err(m) => Err(m)
      case Ok(p) => ExcludeLoop(rules, kws, index + 1, p.0, p.1)
  }

  /** `exclude_all_check_rules` as written: the inner loop deletes once per
      keyword found, so a description naming two keywords also deletes a
      neighbouring rule (or raises when there is none). */
  function ExcludeAllCheckRulesAsWritten(rules: seq<HubRule>): (r: Result<seq<HubRule>>)
    ensures (forall i :: 0 <= i < |rules| ==> KeywordCount(rules[i].descricao, CHECK_KEYWORDS) <= 1) ==>
      r == Ok(ExcludeAllCheckRules(rules))
  {
    ExcludeLoopWhenSingle(rules);
    ExcludeLoop(rules, CHECK_KEYWORDS, 0, rules, 0)
  }

  /** The agreement below, as a fact about the loop alone. */
  lemma ExcludeLoopWhenSingle(rules: seq<HubRule>)
    ensures (forall i :: 0 <= i < |rules| ==> KeywordCount(rules[i].descricao, CHECK_KEYWORDS) <= 1) ==>
      ExcludeLoop(rules, CHECK_KEYWORDS, 0, rules, 0) == Ok(ExcludeAllCheckRules(rules))
  {
    if forall i :: 0 <= i < |rules| ==> KeywordCount(rules[i].descricao, CHECK_KEYWORDS) <= 1 {
      CheckKeywordsNameCheckRules();
      ExcludeLoopFromStart(rules, CHECK_KEYWORDS);
    }
  }

  /** `exclude_all_check_rules` as intended: the rules that are not check
      rules, in their original order. */
  function ExcludeAllCheckRules(rules: seq<HubRule>): (r: seq<HubRule>)
    ensures |r| <= |rules|
  {
    if |rules| == 0 then []
    else (if IsCheckRule(rules[0].descricao) then [] else [rules[0]]) + ExcludeAllCheckRules(rules[1..])
  }

  /** What is left are exactly the rules that are not check rules: none
      of them is one, every other rule stays, nothing new appears, and a
      list without check rules is returned whole. */
  lemma ExcludeAllCheckRulesSpec(rules: seq<HubRule>)
    ensures var r := ExcludeAllCheckRules(rules);
      (forall i :: 0 <= i < |r| ==> !IsCheckRule(r[i].descricao))
      && (forall x :: x in rules && !IsCheckRule(x.descricao) ==> x in r)
      && (forall x :: x in r ==> x in rules)
      && ((forall i :: 0 <= i < |rules| ==> !IsCheckRule(rules[i].descricao)) ==> r == rules)
  {
    ExcludeKeepsNoCheckRule(rules);
    ExcludeKeepsOthers(rules);
    if forall i :: 0 <= i < |rules| ==> !IsCheckRule(rules[i].descricao) {
      ExcludeWithoutCheckRules(rules);
    }
  }

  lemma {:induction false} ExcludeKeepsNoCheckRule(rules: seq<HubRule>)
    ensures forall x :: x in ExcludeAllCheckRules(rules) ==> !IsCheckRule(x.descricao)
    decreases |rules|
  {
    if |rules| > 0 {
      ExcludeKeepsNoCheckRule(rules[1..]);
      var r := ExcludeAllCheckRules(rules);
      var t := ExcludeAllCheckRules(rules[1..]);
      assert r == (if IsCheckRule(rules[0].descricao) then [] else [rules[0]]) + t;
      forall x | x in r ensures !IsCheckRule(x.descricao) {
        if x != rules[0] || IsCheckRule(rules[0].descricao) {
          assert x in t;
        }
      }
    }
  }

  lemma {:induction false} ExcludeKeepsOthers(rules: seq<HubRule>)
    ensures var r := ExcludeAllCheckRules(rules);
      (forall x :: x in rules && !IsCheckRule(x.descricao) ==> x in r)
      && (forall x :: x in r ==> x in rules)
    decreases |rules|
  {
    if |rules| > 0 {
      ExcludeKeepsOthers(rules[1..]);
      var r := ExcludeAllCheckRules(rules);
      var t := ExcludeAllCheckRules(rules[1..]);
      assert r == (if IsCheckRule(rules[0].descricao) then [] else [rules[0]]) + t;
      forall x | x in rules && !IsCheckRule(x.descricao) ensures x in r {
        if x != rules[0] {
          assert x in rules[1..];
        }
      }
    }
  }

  lemma {:induction false} ExcludeWithoutCheckRules(rules: seq<HubRule>)
    requires forall i :: 0 <= i < |rules| ==> !IsCheckRule(rules[i].descricao)
    ensures ExcludeAllCheckRules(rules) == rules
    decreases |rules|
  {
    if |rules| > 0 {
      assert forall i :: 0 <= i < |rules[1..]| ==> !IsCheckRule(rules[1..][i].descricao);
      ExcludeWithoutCheckRules(rules[1..]);
      assert rules == [rules[0]] + rules[1..];
    }
  }

  lemma {:induction false} ExcludeAppend(a: seq<HubRule>, x: HubRule)
    ensures ExcludeAllCheckRules(a + [x]) == ExcludeAllCheckRules(a) + (if IsCheckRule(x.descricao) then [] else [x])
    decreases |a|
  {
    if |a| == 0 {
      assert a + [x] == [x];
    } else {
      var h := if IsCheckRule(a[0].descricao) then [] else [a[0]];
      var last := if IsCheckRule(x.descricao) then [] else [x];
      assert (a + [x])[0] == a[0] && (a + [x])[1..] == a[1..] + [x];
      ExcludeAppend(a[1..], x);
      assert ExcludeAllCheckRules(a + [x]) == h + (ExcludeAllCheckRules(a[1..]) + last);
      assert ExcludeAllCheckRules(a) == h + ExcludeAllCheckRules(a[1..]);
      ConcatAssoc(h, ExcludeAllCheckRules(a[1..]), last);
    }
  }

  /** The inner loop when the description names at most one keyword:
      nothing happens, or exactly the element at `index - removed` goes. */
  lemma {:induction false} ExcludeKeywordsAtMostOne(desc: string, kws: seq<string>, index: int,
                                                    filtered: seq<HubRule>, removed: nat)
    requires KeywordCount(desc, kws) <= 1
    requires 0 <= index - removed < |filtered|
    ensures KeywordCount(desc, kws) == 0 ==> ExcludeKeywords(desc, kws, index, filtered, removed) == Ok((filtered, removed))
    ensures KeywordCount(desc, kws) == 1 ==>
      (ExcludeKeywords(desc, kws, index, filtered, removed)
       == Ok((filtered[..index - removed] + filtered[index - removed + 1..], removed + 1)))
    decreases |kws|
  {
    if |kws| > 0 {
      if Contains(desc, kws[0]) {
        var f := filtered[..index - removed] + filtered[index - removed + 1..];
        ExcludeKeywordsNone(desc, kws[1..], index, f, removed + 1);
      } else {
        ExcludeKeywordsAtMostOne(desc, kws[1..], index, filtered, removed);
      }
    }
  }

  lemma {:induction false} ExcludeKeywordsNone(desc: string, kws: seq<string>, index: int,
                                               filtered: seq<HubRule>, removed: nat)
    requires KeywordCount(desc, kws) == 0
    ensures ExcludeKeywords(desc, kws, index, filtered, removed) == Ok((filtered, removed))
    decreases |kws|
  {
    if |kws| > 0 {
      ExcludeKeywordsNone(desc, kws[1..], index, filtered, removed);
    }
  }

  /** The keywords the check rules are recognised by. */
  ghost predicate NamesCheckRules(kws: seq<string>) {
    forall d :: IsCheckRule(d) <==> KeywordCount(d, kws) > 0
  }

  lemma {:induction false} ExcludeLoopAgrees(rules: seq<HubRule>, kws: seq<string>, index: nat,
                                             filtered: seq<HubRule>, removed: nat)
    requires index <= |rules| && NamesCheckRules(kws)
    requires forall i :: 0 <= i < |rules| ==> KeywordCount(rules[i].descricao, kws) <= 1
    requires filtered == ExcludeAllCheckRules(rules[..index]) + rules[index..]
    requires removed + |ExcludeAllCheckRules(rules[..index])| == index
    ensures ExcludeLoop(rules, kws, index, filtered, removed) == Ok(ExcludeAllCheckRules(rules))
    decreases |rules| - index
  {
    if index == |rules| {
      assert rules[..index] == rules && rules[index..] == [];
      assert filtered == ExcludeAllCheckRules(rules);
    } else {
      var next := ExcludeStep(rules, kws, index, filtered, removed);
      ExcludeLoopAgrees(rules, kws, index + 1, next.0, next.1);
    }
  }

  /** One turn of the outer loop keeps the loop's invariant. */
  lemma ExcludeStep(rules: seq<HubRule>, kws: seq<string>, index: nat, filtered: seq<HubRule>, removed: nat)
    returns (next: (seq<HubRule>, nat))
    requires index < |rules| && NamesCheckRules(kws)
    requires KeywordCount(rules[index].descricao, kws) <= 1
    requires filtered == ExcludeAllCheckRules(rules[..index]) + rules[index..]
    requires removed + |ExcludeAllCheckRules(rules[..index])| == index
    ensures ExcludeKeywords(rules[index].descricao, kws, index, filtered, removed) == Ok(next)
    ensures next.0 == ExcludeAllCheckRules(rules[..index + 1]) + rules[index + 1..]
    ensures next.1 + |ExcludeAllCheckRules(rules[..index + 1])| == index + 1
  {
    var kept := ExcludeAllCheckRules(rules[..index]);
    var x := rules[index];
    assert rules[..index + 1] == rules[..index] + [x];
    ExcludeAppend(rules[..index], x);
    assert rules[index..] == [x] + rules[index + 1..];
    assert filtered[|kept|] == x;
    ExcludeKeywordsAtMostOne(x.descricao, kws, index, filtered, removed);
    if IsCheckRule(x.descricao) {
      assert filtered[..|kept|] + filtered[|kept| + 1..] == kept + rules[index + 1..];
      next := (kept + rules[index + 1..], removed + 1);
    } else {
      assert filtered == (kept + [x]) + rules[index + 1..];
      next := (filtered, removed);
    }
  }

  /** When no description names two keywords, the code as written removes
      exactly the check rules. */
  lemma ExcludeAgreesOnSingleKeywords(rules: seq<HubRule>)
    requires forall i :: 0 <= i < |rules| ==> KeywordCount(rules[i].descricao, CHECK_KEYWORDS) <= 1
    ensures ExcludeAllCheckRulesAsWritten(rules) == Ok(ExcludeAllCheckRules(rules))
  {
    CheckKeywordsNameCheckRules();
    ExcludeLoopFromStart(rules, CHECK_KEYWORDS);
  }

  lemma CheckKeywordsNameCheckRules()
    ensures NamesCheckRules(CHECK_KEYWORDS)
  {
    forall d | true ensures IsCheckRule(d) <==> KeywordCount(d, CHECK_KEYWORDS) > 0 {
      CheckRuleCount(d);
    }
  }

  lemma ExcludeLoopFromStart(rules: seq<HubRule>, kws: seq<string>)
    requires NamesCheckRules(kws)
    requires forall i :: 0 <= i < |rules| ==> KeywordCount(rules[i].descricao, kws) <= 1
    ensures ExcludeLoop(rules, kws, 0, rules, 0) == Ok(ExcludeAllCheckRules(rules))
  {
    assert rules[..0] == [] && rules[0..] == rules;
    ExcludeLoopAgrees(rules, kws, 0, rules, 0);
  }

  /** A description naming both PEP and OBITO: after it, the rule before it
      is gone as well; alone, it makes the code raise. */
  lemma ExcludeAsWrittenDropsNeighbour()
    ensures var kept := HubRule("CPF", Flag(true), false, "");
      var both := HubRule("PEP OBITO", Flag(true), true, "");
      ExcludeAllCheckRulesAsWritten([kept, both]) == Ok([])
      && ExcludeAllCheckRules([kept, both]) == [kept]
      && ExcludeAllCheckRulesAsWritten([both]).Err?
  {
    var kept := HubRule("CPF", Flag(true), false, "");
    var both := HubRule("PEP OBITO", Flag(true), true, "");
    assert OccursAt("PEP OBITO", "PEP", 0);
    assert OccursAt("PEP OBITO", "OBITO", 4);
    assert !Contains("CPF", "PEP") by {
      assert "CPF"[0..3][0] != "PEP"[0];
    }
    assert !Contains("PEP OBITO", "NOME_MAE") by {
      assert "PEP OBITO"[0..8][0] != "NOME_MAE"[0];
      assert "PEP OBITO"[1..9][0] != "NOME_MAE"[0];
    }
    assert !Contains("PEP OBITO", "NASCIMENTO");
    assert CHECK_KEYWORDS[1..] == ["OBITO", "NOME_MAE", "NASCIMENTO"];
    assert CHECK_KEYWORDS[1..][1..] == ["NOME_MAE", "NASCIMENTO"];
    assert CHECK_KEYWORDS[1..][1..][1..] == ["NASCIMENTO"];
    assert ExcludeKeywords("CPF", CHECK_KEYWORDS, 0, [kept, both], 0) == Ok(([kept, both], 0));
    assert ExcludeKeywords("PEP OBITO", CHECK_KEYWORDS, 1, [kept, both], 0) == Ok(([], 2));
    assert ExcludeKeywords("PEP OBITO", CHECK_KEYWORDS, 0, [both], 0).Err?;
  }

  // ---------------------------------------------------------------------
  // Status changes

  /** The contract after `alterar_status`, with the status of the
      contract's first portability row (absent when there is none). */
  datatype StatusChange = StatusChange(state: ContractState, firstPortability: Option<int>)

  /** The branches of `alterar_status` that let ERRO_SOLICITACAO_SAQUE be
      recorded twice in a row. */
  predicate RepeatsWithdrawalError(tipoProduto: int) {
    tipoProduto in {PRODUTO_CARTAO_BENEFICIO, PRODUTO_CARTAO_CONSIGNADO, PRODUTO_SAQUE_COMPLEMENTAR}
  }

  /** `alterar_status`: both statuses are set; a record with the new
      product status is added unless it repeats the last one (the card and
      withdrawal branches always record ERRO_SOLICITACAO_SAQUE); in the
      portability branch REPROVADO is also written to the first
      portability row. Reading the last record of an empty history, or the
      missing portability row, raises. */
  function AlterarStatus(c: ContractState, tipoProduto: int, nextContract: int, nextProduct: int,
                         observacao: string, firstPortability: Option<int>): (r: Result<StatusChange>)
    ensures r.Ok? <==>
      (|c.log| > 0 && !(IsPortabilityFamily(tipoProduto) && nextProduct == REPROVADO && firstPortability.None?))
    ensures r.Ok? ==> r.value.state.status == nextContract && r.value.state.productStatus == nextProduct
    ensures r.Ok? ==> r.value.state.LastStatus() == Some(nextProduct)
    ensures r.Ok? ==>
      var appended := c.LastStatus() != Some(nextProduct)
        || (RepeatsWithdrawalError(tipoProduto) && nextProduct == ERRO_SOLICITACAO_SAQUE);
      r.value.state.log == c.log + (if appended then
        [StatusRecord(nextProduct, if tipoProduto == PRODUTO_SAQUE_COMPLEMENTAR then "" else observacao)] else [])
    ensures r.Ok? ==>
      r.value.firstPortability == (if IsPortabilityFamily(tipoProduto) && nextProduct == REPROVADO then Some(REPROVADO) else firstPortability)
  {
    if |c.log| == 0 then Err("AttributeError: 'NoneType' object has no attribute 'nome'")
    else
      var last := c.log[|c.log| - 1].nome;
      var upd := c.(status := nextContract, productStatus := nextProduct);
      if tipoProduto in {PRODUTO_CARTAO_BENEFICIO, PRODUTO_CARTAO_CONSIGNADO} then
        var s := if last != nextProduct || nextProduct == ERRO_SOLICITACAO_SAQUE
          then AddRecord(upd, nextProduct, observacao) else upd;
        Ok(StatusChange(s, firstPortability))
      else if tipoProduto == PRODUTO_SAQUE_COMPLEMENTAR then
        var s := if last != nextProduct || nextProduct == ERRO_SOLICITACAO_SAQUE
          then AddRecord(upd, nextProduct, "") else upd;
        Ok(StatusChange(s, firstPortability))
      else if IsPortabilityFamily(tipoProduto) then
        if nextProduct == REPROVADO && firstPortability.None? then
          Err("AttributeError: 'NoneType' object has no attribute 'status'")
        else
          var port := if nextProduct == REPROVADO then Some(REPROVADO) else firstPortability;
          var s := if last != nextProduct then AddRecord(upd, nextProduct, observacao) else upd;
          Ok(StatusChange(s, port))
      else
        var s := if last != nextProduct then AddRecord(upd, nextProduct, observacao) else upd;
        Ok(StatusChange(s, firstPortability))
  }

  /** Repeating a status change records nothing new, except the withdrawal
      error of the card branches, which is recorded again. */
  lemma AlterarStatusRepeat(c: ContractState, tipoProduto: int, nextContract: int, nextProduct: int,
                            observacao: string, firstPortability: Option<int>)
    requires AlterarStatus(c, tipoProduto, nextContract, nextProduct, observacao, firstPortability).Ok?
    ensures var once := AlterarStatus(c, tipoProduto, nextContract, nextProduct, observacao, firstPortability).value;
      var twice := AlterarStatus(once.state, tipoProduto, nextContract, nextProduct, observacao, once.firstPortability);
      twice.Ok? &&
      (if RepeatsWithdrawalError(tipoProduto) && nextProduct == ERRO_SOLICITACAO_SAQUE
       then |twice.value.state.log| == |once.state.log| + 1
       else twice.value == once)
  {
  }

  // ---------------------------------------------------------------------

  /** `get_intersection`. */
  function GetIntersection<T(!new)>(a: set<T>, b: set<T>): (r: set<T>)
    ensures forall x :: x in r <==> x in a && x in b
    ensures r <= a && r <= b
  {
    a * b
  }
}
