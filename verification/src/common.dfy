/** Shared vocabulary: optional values, error-carrying results, and the
    string, digit and date helpers the back office uses everywhere. */
module Common {

  /** Python's `None` next to a value. */
  datatype Option<+T> = None | Some(value: T) {
    function GetOr(default: T): T {
      match this
      case Some(v) => v
      case None => default
    }
  }

  /** A computation that either produces a value or raises with a message. */
  datatype Result<+T> = Ok(value: T) | Err(message: string) {
    predicate IsFailure() { Err? }
    function PropagateFailure<U>(): Result<U>
      requires Err?
    {
      Err(message)
    }
    function Extract(): T
      requires Ok?
    {
      value
    }
  }

  // ---------------------------------------------------------------------
  // Strings

  predicate StartsWith(s: string, prefix: string) {
    |prefix| <= |s| && s[..|prefix|] == prefix
  }

  predicate EndsWith(s: string, suffix: string) {
    |suffix| <= |s| && s[|s| - |suffix|..] == suffix
  }

  /** `sub in s` for Python strings. */
  predicate Contains(s: string, sub: string) {
    exists i | 0 <= i <= |s| - |sub| :: OccursAt(s, sub, i)
  }

  predicate OccursAt(s: string, sub: string, i: int) {
    0 <= i <= |s| - |sub| && s[i..i + |sub|] == sub
  }

  /** `s.find(sub)`: the least position where `sub` occurs. */
  function Find(s: string, sub: string): (r: Option<nat>)
    ensures r.Some? ==> OccursAt(s, sub, r.value)
    ensures r.Some? ==> forall j :: 0 <= j < r.value ==> !OccursAt(s, sub, j)
    ensures r.None? ==> forall j :: 0 <= j ==> !OccursAt(s, sub, j)
    ensures r.Some? <==> Contains(s, sub)
  {
    FindFrom(s, sub, 0)
  }

  function FindFrom(s: string, sub: string, k: nat): (r: Option<nat>)
    requires forall j :: 0 <= j < k ==> !OccursAt(s, sub, j)
    ensures r.Some? ==> OccursAt(s, sub, r.value)
    ensures r.Some? ==> forall j :: 0 <= j < r.value ==> !OccursAt(s, sub, j)
    ensures r.None? ==> forall j :: 0 <= j ==> !OccursAt(s, sub, j)
    decreases |s| - k + 1
  {
    if k + |sub| > |s| then None
    else if s[k..k + |sub|] == sub then Some(k)
    else FindFrom(s, sub, k + 1)
  }

  /** `s.split(sep)[k]` in Python: the `k`-th piece between occurrences of
      `sep`, or `None` where Python raises `IndexError`. */
  function SplitAt(s: string, sep: string, k: nat): (r: Option<string>)
    requires |sep| > 0
    ensures k == 0 ==> r.Some?
    ensures k == 0 && !Contains(s, sep) ==> r == Some(s)
    decreases k
  {
    match Find(s, sep)
    case None => if k == 0 then Some(s) else None
    case Some(i) => if k == 0 then Some(s[..i]) else SplitAt(s[i + |sep|..], sep, k - 1)
  }

  /** Concatenation regrouped to the left. */
  lemma ConcatAssoc<T>(a: seq<T>, b: seq<T>, c: seq<T>)
    ensures a + (b + c) == a + b + c
  {
  }

  /** When the first occurrence of `sep` in `a + sep + b` is the one after
      `a`, the first piece is `a` and the later pieces are those of `b`. */
  lemma SplitAfterFirst(a: string, sep: string, b: string, k: nat)
    requires |sep| > 0
    requires forall j :: 0 <= j < |a| ==> !OccursAt(a + sep + b, sep, j)
    ensures SplitAt(a + sep + b, sep, 0) == Some(a)
    ensures SplitAt(a + sep + b, sep, k + 1) == SplitAt(b, sep, k)
  {
    var s := a + sep + b;
    assert OccursAt(s, sep, |a|) by { assert s[|a|..|a| + |sep|] == sep; }
    assert Find(s, sep) == Some(|a|);
    assert s[..|a|] == a && s[|a| + |sep|..] == b;
  }

  /** A one-character separator occurs before `|a|` only where `a` holds it. */
  lemma CharSeparator(a: string, c: char, b: string)
    requires c !in a
    ensures forall j :: 0 <= j < |a| ==> !OccursAt(a + [c] + b, [c], j)
  {
    forall j | 0 <= j < |a|
      ensures !OccursAt(a + [c] + b, [c], j)
    {
      assert (a + [c] + b)[j] == a[j];
    }
  }

  /** A one-character separator the text does not hold leaves it whole. */
  lemma SplitWithoutChar(s: string, c: char)
    requires c !in s
    ensures SplitAt(s, [c], 0) == Some(s)
  {
    forall i | 0 <= i <= |s| - 1
      ensures !OccursAt(s, [c], i)
    {
      assert s[i..i + 1][0] == s[i];
    }
  }

  /** Right-justifies `s` in a field of `width` characters filled with `fill`
      (Python's `rjust`, and `zfill` when `fill` is '0'). */
  function PadLeft(s: string, width: nat, fill: char): (r: string)
    ensures |r| == if |s| >= width then |s| else width
    ensures EndsWith(r, s)
    ensures forall i :: 0 <= i < |r| - |s| ==> r[i] == fill
  {
    if |s| >= width then s else Repeat(fill, width - |s|) + s
  }

  /** Left-justifies `s` in a field of `width` characters (Python's `ljust`). */
  function PadRight(s: string, width: nat, fill: char): (r: string)
    ensures |r| == if |s| >= width then |s| else width
    ensures StartsWith(r, s)
    ensures forall i :: |s| <= i < |r| ==> r[i] == fill
  {
    if |s| >= width then s else s + Repeat(fill, width - |s|)
  }

  function Repeat<T>(x: T, n: nat): (r: seq<T>)
    ensures |r| == n
    ensures forall i :: 0 <= i < n ==> r[i] == x
  {
    if n == 0 then [] else [x] + Repeat(x, n - 1)
  }

  /** `s.replace(c, '')` for every character `c` of `drop`. */
  function RemoveChars(s: string, drop: set<char>): (r: string)
    ensures forall i :: 0 <= i < |r| ==> r[i] !in drop
    ensures forall i :: 0 <= i < |s| && s[i] !in drop ==> s[i] in r
    ensures |r| <= |s|
  {
    if |s| == 0 then []
    else if s[0] in drop then RemoveChars(s[1..], drop)
    else [s[0]] + RemoveChars(s[1..], drop)
  }

  /** Keeps only the characters of `s` that satisfy membership in `keep`. */
  function KeepChars(s: string, keep: set<char>): (r: string)
    ensures forall i :: 0 <= i < |r| ==> r[i] in keep
    ensures forall i :: 0 <= i < |s| && s[i] in keep ==> s[i] in r
    ensures |r| <= |s|
  {
    if |s| == 0 then []
    else if s[0] in keep then [s[0]] + KeepChars(s[1..], keep)
    else KeepChars(s[1..], keep)
  }

  /** Keeping characters that are all kept changes nothing. */
  lemma {:induction false} KeepCharsOfKept(s: string, keep: set<char>)
    requires forall i :: 0 <= i < |s| ==> s[i] in keep
    ensures KeepChars(s, keep) == s
  {
    if |s| > 0 {
      KeepCharsOfKept(s[1..], keep);
      assert s == [s[0]] + s[1..];
    }
  }

  /** Keeping the digits of a string of digits changes nothing. */
  lemma KeepDigitsOfDigits(s: string)
    requires AllDigits(s)
    ensures KeepChars(s, DIGITS) == s
  {
    assert forall i :: 0 <= i < |s| ==> s[i] in DIGITS by {
      forall i | 0 <= i < |s| ensures s[i] in DIGITS { assert IsDigit(s[i]); }
    }
    KeepCharsOfKept(s, DIGITS);
  }

  function ReplaceChar(s: string, from: char, to: char): (r: string)
    ensures |r| == |s|
    ensures forall i :: 0 <= i < |s| ==> r[i] == (if s[i] == from then to else s[i])
  {
    if |s| == 0 then [] else [if s[0] == from then to else s[0]] + ReplaceChar(s[1..], from, to)
  }

  /** The position of the first element satisfying `p`: a query's
      `filter(...).first()` over rows in their stored order. */
  function FirstIndex<T>(s: seq<T>, p: T -> bool): (r: Option<nat>)
    ensures r.Some? ==> r.value < |s| && p(s[r.value]) && forall j :: 0 <= j < r.value ==> !p(s[j])
    ensures r.None? ==> forall j :: 0 <= j < |s| ==> !p(s[j])
  {
    if |s| == 0 then None
    else if p(s[0]) then Some(0)
    else match FirstIndex(s[1..], p)
      case None => None
      case Some(i) => Some(i + 1)
  }

  /** Joins the pieces with `sep` between consecutive ones. */
  function Join(parts: seq<string>, sep: string): string {
    if |parts| == 0 then ""
    else if |parts| == 1 then parts[0]
    else parts[0] + sep + Join(parts[1..], sep)
  }

  /** A Python slice bound: negative values count from the end, and the
      result is clamped to `[0, n]`. */
  function SliceBound(i: int, n: nat): (r: nat)
    ensures r <= n
    ensures 0 <= i <= n ==> r == i
  {
    if i < 0 then (if i + n < 0 then 0 else i + n) else if i > n then n else i
  }

  /** `s[a:b]` in Python: never fails, empty when the bounds cross. */
  function Slice(s: string, a: int, b: int): (r: string)
    ensures |r| <= |s|
    ensures 0 <= a <= b <= |s| ==> r == s[a..b]
  {
    var lo := SliceBound(a, |s|);
    var hi := SliceBound(b, |s|);
    if lo >= hi then "" else s[lo..hi]
  }

  /** `s[:n]`. */
  function Prefix(s: string, n: nat): (r: string)
    ensures |r| == if |s| < n then |s| else n
    ensures StartsWith(s, r)
    ensures r == Slice(s, 0, n)
  {
    if |s| < n then s else s[..n]
  }

  /** `s[n:]`. */
  function Suffix(s: string, n: nat): (r: string)
    ensures |r| == if |s| < n then 0 else |s| - n
    ensures Prefix(s, n) + r == s
  {
    if |s| < n then "" else s[n..]
  }

  const WHITESPACE: set<char> := {' ', '\t', '\n', '\r', '\U{000B}', '\U{000C}'}

  /** `s.strip()` for ASCII whitespace. */
  function Strip(s: string): (r: string)
    ensures |r| <= |s|
    ensures |r| > 0 ==> r[0] !in WHITESPACE && r[|r| - 1] !in WHITESPACE
    ensures (|s| > 0 && s[0] !in WHITESPACE && s[|s| - 1] !in WHITESPACE) ==> r == s
  {
    if |s| == 0 then s
    else if s[0] in WHITESPACE then Strip(s[1..])
    else if s[|s| - 1] in WHITESPACE then Strip(s[..|s| - 1])
    else s
  }

  /** `int(s)` on a string: surrounding whitespace, an optional sign and
      at least one decimal digit; anything else raises (`None`). */
  function ParseInt(s: string): (r: Option<int>)
    ensures AllDigits(s) && |s| > 0 ==> r == Some(ParseNat(s))
  {
    var t := Strip(s);
    assert AllDigits(s) && |s| > 0 ==> t == s by {
      if AllDigits(s) && |s| > 0 { StripDigits(s); }
    }
    if |t| > 1 && (t[0] == '+' || t[0] == '-') && AllDigits(t[1..]) then
      var n: int := ParseNat(t[1..]);
      Some(if t[0] == '-' then -n else n)
    else if |t| > 0 && AllDigits(t) then Some(ParseNat(t))
    else None
  }

  lemma StripDigits(s: string)
    requires AllDigits(s) && |s| > 0
    ensures Strip(s) == s
  {
    assert IsDigit(s[0]) && IsDigit(s[|s| - 1]);
  }

  // ---------------------------------------------------------------------
  // Decimal digits

  const DIGITS: set<char> := {'0', '1', '2', '3', '4', '5', '6', '7', '8', '9'}

  predicate IsDigit(c: char) { '0' <= c <= '9' }

  predicate AllDigits(s: string) { forall i :: 0 <= i < |s| ==> IsDigit(s[i]) }

  function DigitChar(d: nat): (c: char)
    requires d < 10
    ensures IsDigit(c) && c as int - '0' as int == d
  {
    ('0' as int + d) as char
  }

  function DigitValue(c: char): (d: nat)
    requires IsDigit(c)
    ensures d < 10 && DigitChar(d) == c
  {
    (c as int - '0' as int) as nat
  }

  /** `str(n)` for a natural number: its shortest decimal rendering. */
  function NatToString(n: nat): (r: string)
    ensures |r| >= 1 && AllDigits(r)
    ensures n > 0 ==> r[0] != '0'
    decreases n
  {
    if n < 10 then [DigitChar(n)] else NatToString(n / 10) + [DigitChar(n % 10)]
  }

  /** `str(n)` for any integer. */
  function IntToString(n: int): (r: string)
    ensures |r| >= 1
    ensures n >= 0 ==> r == NatToString(n)
    ensures n < 0 ==> r == "-" + NatToString(-n)
  {
    if n >= 0 then NatToString(n) else "-" + NatToString(-n)
  }

  /** `int(s)` for a string of decimal digits. */
  function ParseNat(s: string): (n: nat)
    requires AllDigits(s)
  {
    if |s| == 0 then 0 else ParseNat(s[..|s| - 1]) * 10 + DigitValue(s[|s| - 1])
  }

  lemma {:induction false} ParseNatToString(n: nat)
    ensures ParseNat(NatToString(n)) == n
    decreases n
  {
    var s := NatToString(n);
    if n >= 10 {
      ParseNatToString(n / 10);
      assert s[..|s| - 1] == NatToString(n / 10);
      assert DigitValue(s[|s| - 1]) == n % 10;
    } else {
      assert s[..0] == [] && DigitValue(s[0]) == n;
    }
  }

  /** `f'{n:0w}'`: `n` in decimal, zero-filled on the left to `w` digits. */
  function ZeroPad(n: nat, width: nat): (r: string)
    ensures |r| >= width && AllDigits(r)
    ensures 1 <= width && n < Pow10(width) ==> |r| == width
    ensures ParseNat(r) == n
  {
    var s := NatToString(n);
    ParseNatToString(n);
    assert 1 <= width && n < Pow10(width) ==> |s| <= width by {
      if 1 <= width && n < Pow10(width) { NatToStringLength(n, width); }
    }
    ParseNatLeadingZeros(s, if |s| >= width then 0 else width - |s|);
    PadLeft(s, width, '0')
  }

  function Pow10(k: nat): (r: nat)
    ensures r >= 1
  {
    if k == 0 then 1 else 10 * Pow10(k - 1)
  }

  lemma {:induction false} NatToStringLength(n: nat, k: nat)
    requires n < Pow10(k) && k >= 1
    ensures |NatToString(n)| <= k
    decreases n
  {
    if n >= 10 {
      assert Pow10(1) == 10;
      NatToStringLength(n / 10, k - 1);
    }
  }

  lemma {:induction false} ParseNatLeadingZeros(s: string, k: nat)
    requires AllDigits(s)
    ensures AllDigits(Repeat('0', k) + s)
    ensures ParseNat(Repeat('0', k) + s) == ParseNat(s)
    decreases |s|
  {
    var t := Repeat('0', k) + s;
    if |s| == 0 {
      assert t == Repeat('0', k);
      ParseNatZeros(k);
    } else {
      ParseNatLeadingZeros(s[..|s| - 1], k);
      assert t[..|t| - 1] == Repeat('0', k) + s[..|s| - 1];
    }
  }

  lemma {:induction false} ParseNatZeros(k: nat)
    ensures ParseNat(Repeat('0', k)) == 0
  {
    if k > 0 {
      var z := Repeat('0', k);
      assert z[..|z| - 1] == Repeat('0', k - 1);
      ParseNatZeros(k - 1);
    }
  }

  // ---------------------------------------------------------------------
  // Calendar dates (no time zone, no time of day)

  datatype Date = Date(year: int, month: int, day: int)

  predicate ValidDate(d: Date) {
    1 <= d.month <= 12 && 1 <= d.day <= DaysInMonth(d.year, d.month)
  }

  predicate IsLeapYear(y: int) {
    (y % 4 == 0 && y % 100 != 0) || y % 400 == 0
  }

  function DaysInMonth(y: int, m: int): (n: int)
    ensures 28 <= n <= 31
  {
    if m == 2 then (if IsLeapYear(y) then 29 else 28)
    else if m == 4 || m == 6 || m == 9 || m == 11 then 30
    else 31
  }

  /** Python's `date < date`: lexicographic on (year, month, day). */
  predicate Before(a: Date, b: Date) {
    a.year < b.year
    || (a.year == b.year && a.month < b.month)
    || (a.year == b.year && a.month == b.month && a.day < b.day)
  }

  /** `relativedelta(months=n)`: month arithmetic that clamps the day to the
      length of the target month. */
  function AddMonths(d: Date, n: int): (r: Date)
    requires ValidDate(d)
    ensures ValidDate(r)
    ensures r.year * 12 + r.month == d.year * 12 + d.month + n
    ensures r.day <= d.day
    ensures d.day <= DaysInMonth(r.year, r.month) ==> r.day == d.day
  {
    var total := d.year * 12 + (d.month - 1) + n;
    var y := total / 12;
    var m := total % 12 + 1;
    var last := DaysInMonth(y, m);
    Date(y, m, if d.day <= last then d.day else last)
  }

  /** `ddmmyyyy` rendering of a date (`strftime('%d%m%Y')`). */
  function DdMmYyyy(d: Date): (r: string)
    requires ValidDate(d) && 0 <= d.year <= 9999
    ensures |r| == 8 && AllDigits(r)
  {
    var dd, mm, yyyy := ZeroPad(d.day, 2), ZeroPad(d.month, 2), ZeroPad(d.year, 4);
    DatePartsPadded(d);
    DigitsConcat(dd, mm);
    DigitsConcat(dd + mm, yyyy);
    dd + mm + yyyy
  }

  /** Day and month take two digits, a four-digit year four. */
  lemma DatePartsPadded(d: Date)
    requires ValidDate(d) && 0 <= d.year <= 9999
    ensures |ZeroPad(d.day, 2)| == 2 && |ZeroPad(d.month, 2)| == 2 && |ZeroPad(d.year, 4)| == 4
  {
    assert Pow10(2) == 100 && Pow10(4) == 10000;
  }

  lemma DigitsConcat(a: string, b: string)
    requires AllDigits(a) && AllDigits(b)
    ensures AllDigits(a + b)
  {
    forall i | 0 <= i < |a + b| ensures IsDigit((a + b)[i]) {
      if i >= |a| {
        assert (a + b)[i] == b[i - |a|];
      }
    }
  }

  // ---------------------------------------------------------------------
  // Decimal rounding

  /** `round(Decimal(n) / d, 0)` under the decimal context's default
      rounding: to the nearest integer, ties to the even one. Amounts are
      kept as integers in a fixed unit (cents), so `round(x, 2)` of a
      product becomes a division by the product's extra scale. */
  function RoundHalfEven(n: int, d: int): (r: int)
    requires d > 0
    ensures 2 * (r * d - n) <= d && 2 * (n - r * d) <= d
    ensures n % d == 0 ==> r * d == n
  {
    var q := n / d;
    var rem := n % d;
    if 2 * rem < d then q
    else if 2 * rem > d then q + 1
    else if q % 2 == 0 then q else q + 1
  }

  /** Two different multiples of `d` lie at least `d` apart. */
  lemma MultiplesApart(x: int, y: int, d: int)
    requires x > y && d > 0
    ensures x * d - y * d >= d
  {
    assert x * d - y * d == (x - y - 1) * d + d;
    assert (x - y - 1) * d >= 0;
  }

  /** Rounding never moves a larger quotient below a smaller one. */
  lemma RoundHalfEvenMonotone(a: int, b: int, d: int)
    requires d > 0 && a <= b
    ensures RoundHalfEven(a, d) <= RoundHalfEven(b, d)
  {
    var ra, rb := RoundHalfEven(a, d), RoundHalfEven(b, d);
    if a < b && ra > rb {
      MultiplesApart(ra, rb, d);
      assert false;
    }
  }

  // ---------------------------------------------------------------------
  // Sorting integers

  predicate SortedInts(s: seq<int>) {
    forall i, j :: 0 <= i < j < |s| ==> s[i] <= s[j]
  }

  /** One insertion step. */
  function InsertSorted(x: int, s: seq<int>): (r: seq<int>)
    requires SortedInts(s)
    ensures SortedInts(r) && multiset(r) == multiset(s) + multiset{x} && |r| == |s| + 1
    decreases |s|
  {
    if |s| == 0 then [x]
    else if x <= s[0] then [x] + s
    else
      var rest := InsertSorted(x, s[1..]);
      InsertBehindHead(x, s, rest);
      [s[0]] + rest
  }

  lemma InsertBehindHead(x: int, s: seq<int>, rest: seq<int>)
    requires SortedInts(s) && |s| > 0 && s[0] < x
    requires SortedInts(rest) && multiset(rest) == multiset(s[1..]) + multiset{x}
    ensures SortedInts([s[0]] + rest) && multiset([s[0]] + rest) == multiset(s) + multiset{x}
  {
    assert s == [s[0]] + s[1..];
    forall k | 0 <= k < |rest| ensures s[0] <= rest[k] {
      assert rest[k] in multiset(rest);
      if rest[k] != x {
        assert rest[k] in multiset(s[1..]);
        var j :| 0 <= j < |s[1..]| && s[1..][j] == rest[k];
        assert s[j + 1] == rest[k];
      }
    }
  }

  /** `sorted` on integers: ascending, with the same elements. */
  function SortInts(s: seq<int>): (r: seq<int>)
    ensures SortedInts(r) && multiset(r) == multiset(s)
    decreases |s|
  {
    if |s| == 0 then []
    else
      assert s == [s[0]] + s[1..];
      InsertSorted(s[0], SortInts(s[1..]))
  }
}
