/** Calendar arithmetic shared by the payment-resubmission views: Python's
    proleptic Gregorian day ordinal, the next day, the ISO `YYYY-MM-DD`
    rendering and parsing used by `_adicionar_dia_na_data`, and the
    years/months/days difference between two dates (dateutil's
    `relativedelta(final, inicial)`). */
module Calendar {
  import opened Common

  /** `_DAYS_BEFORE_MONTH` of Python's `datetime`, plus the leap day. */
  function DaysBeforeMonth(y: int, m: int): (n: int)
    requires 1 <= m <= 12
  {
    [0, 31, 59, 90, 120, 151, 181, 212, 243, 273, 304, 334][m - 1]
    + (if m > 2 && IsLeapYear(y) then 1 else 0)
  }

  /** `_days_before_year`: the days of the years before `y`. */
  function DaysBeforeYear(y: int): int {
    var p := y - 1;
    p * 365 + p / 4 - p / 100 + p / 400
  }

  function YearLength(y: int): int {
    if IsLeapYear(y) then 366 else 365
  }

  /** `date.toordinal()`: 0001-01-01 is day 1. */
  function Ordinal(d: Date): int {
    DaysBeforeYear(d.year) + DaysBeforeMonth(d.year, if 1 <= d.month <= 12 then d.month else 1) + d.day
  }

  lemma DaysBeforeNextYear(y: int)
    ensures DaysBeforeYear(y + 1) == DaysBeforeYear(y) + YearLength(y)
  {
    var p := y - 1;
    Div4Step(p);
    Div100Step(p);
    Div400Step(p);
  }

  lemma Div4Step(p: int)
    ensures (p + 1) / 4 == p / 4 + (if (p + 1) % 4 == 0 then 1 else 0)
  {
  }

  lemma Div100Step(p: int)
    ensures (p + 1) / 100 == p / 100 + (if (p + 1) % 100 == 0 then 1 else 0)
  {
  }

  lemma Div400Step(p: int)
    ensures (p + 1) / 400 == p / 400 + (if (p + 1) % 400 == 0 then 1 else 0)
  {
  }

  lemma MonthStep(y: int, m: int)
    requires 1 <= m < 12
    ensures DaysBeforeMonth(y, m + 1) == DaysBeforeMonth(y, m) + DaysInMonth(y, m)
  {
  }

  lemma LastMonth(y: int)
    ensures DaysBeforeMonth(y, 12) + DaysInMonth(y, 12) == YearLength(y)
  {
  }

  /** Every day of a month lies inside its year. */
  lemma {:induction false} DayWithinYear(y: int, m: int, d: int)
    requires 1 <= m <= 12 && d <= DaysInMonth(y, m)
    ensures DaysBeforeMonth(y, m) + d <= YearLength(y)
    decreases 12 - m
  {
    if m < 12 {
      MonthStep(y, m);
      DayWithinYear(y, m + 1, 1);
    } else {
      LastMonth(y);
    }
  }

  lemma {:induction false} MonthsAhead(y: int, m1: int, m2: int, d: int)
    requires 1 <= m1 < m2 <= 12 && d <= DaysInMonth(y, m1)
    ensures DaysBeforeMonth(y, m1) + d <= DaysBeforeMonth(y, m2)
    decreases m2 - m1
  {
    MonthStep(y, m1);
    if m1 + 1 < m2 {
      MonthsAhead(y, m1 + 1, m2, 1);
    }
  }

  lemma {:induction false} YearsAhead(y1: int, y2: int)
    requires y1 < y2
    ensures DaysBeforeYear(y1) + YearLength(y1) <= DaysBeforeYear(y2)
    decreases y2 - y1
  {
    DaysBeforeNextYear(y1);
    if y1 + 1 < y2 {
      YearsAhead(y1 + 1, y2);
      DaysBeforeNextYear(y1 + 1);
    }
  }

  /** The ordinal preserves the order of valid dates. */
  lemma OrdinalMonotone(a: Date, b: Date)
    requires ValidDate(a) && ValidDate(b) && Before(a, b)
    ensures Ordinal(a) < Ordinal(b)
  {
    if a.year < b.year {
      DayWithinYear(a.year, a.month, a.day);
      YearsAhead(a.year, b.year);
    } else if a.month < b.month {
      MonthsAhead(a.year, a.month, b.month, a.day);
    }
  }

  lemma OrdinalMonotoneEq(a: Date, b: Date)
    requires ValidDate(a) && ValidDate(b) && !Before(b, a)
    ensures Ordinal(a) <= Ordinal(b)
  {
    if Before(a, b) {
      OrdinalMonotone(a, b);
    }
  }

  /** `date + timedelta(days=1)`. */
  function NextDay(d: Date): (r: Date)
    requires ValidDate(d)
    ensures ValidDate(r) && Before(d, r)
    ensures Ordinal(r) == Ordinal(d) + 1
  {
    if d.day < DaysInMonth(d.year, d.month) then d.(day := d.day + 1)
    else if d.month < 12 then
      MonthStep(d.year, d.month);
      Date(d.year, d.month + 1, 1)
    else
      LastMonth(d.year);
      DaysBeforeNextYear(d.year);
      Date(d.year + 1, 1, 1)
  }

  /** No valid date falls strictly between a day and the next one. */
  lemma NothingBetween(d: Date, x: Date)
    requires ValidDate(d) && ValidDate(x) && Before(d, x)
    ensures !Before(x, NextDay(d))
  {
    if Before(x, NextDay(d)) {
      OrdinalMonotone(d, x);
      OrdinalMonotone(x, NextDay(d));
    }
  }

  // ---------------------------------------------------------------------
  // ISO rendering

  /** The years Python's `date` can hold. */
  predicate PyDate(d: Date) { ValidDate(d) && 1 <= d.year <= 9999 }

  /** The local date and hour of a request. */
  datatype Clock = Clock(today: Date, hour: int)

  predicate ValidClock(k: Clock) { PyDate(k.today) && 0 <= k.hour < 24 }

  /** `date.isoformat()` / `str(date)` and `strftime('%Y-%m-%d')` for a
      year of four digits. */
  function IsoDate(d: Date): (r: string)
    requires PyDate(d)
    ensures |r| == 10 && r[4] == '-' && r[7] == '-'
  {
    assert Pow10(2) == 100 && Pow10(4) == 10000;
    var y, m, dd := ZeroPad(d.year, 4), ZeroPad(d.month, 2), ZeroPad(d.day, 2);
    IsoLayout(y, m, dd);
    y + "-" + m + "-" + dd
  }

  /** `datetime.strptime(s, '%Y-%m-%d')` on the zero-padded form;
      `None` is the `ValueError`. */
  function ParseIsoDate(s: string): (r: Option<Date>)
    ensures r.Some? ==> PyDate(r.value)
  {
    if |s| == 10 && s[4] == '-' && s[7] == '-'
       && AllDigits(s[..4]) && AllDigits(s[5..7]) && AllDigits(s[8..]) then
      var d := Date(ParseNat(s[..4]), ParseNat(s[5..7]), ParseNat(s[8..]));
      if PyDate(d) then Some(d) else None
    else None
  }

  /** Reading back the ISO rendering of a date gives the date. */
  lemma IsoDateRoundTrip(d: Date)
    requires PyDate(d)
    ensures ParseIsoDate(IsoDate(d)) == Some(d)
  {
    assert Pow10(2) == 100 && Pow10(4) == 10000;
    var y, m, dd := ZeroPad(d.year, 4), ZeroPad(d.month, 2), ZeroPad(d.day, 2);
    IsoLayout(y, m, dd);
  }

  /** Where the three fields of a "YYYY-MM-DD" text sit. */
  lemma IsoLayout(y: string, m: string, dd: string)
    requires |y| == 4 && |m| == 2 && |dd| == 2
    ensures var s := y + "-" + m + "-" + dd;
      |s| == 10 && s[4] == '-' && s[7] == '-' && s[..4] == y && s[5..7] == m && s[8..] == dd
  {
    var s := y + "-" + m + "-" + dd;
    assert s[..4] == y;
    assert s[5..7] == m;
    assert s[8..] == dd;
  }

  /** `_adicionar_dia_na_data`: parse, add one day, render; a malformed
      string is a `ValueError` and a day past year 9999 an `OverflowError`. */
  function AddOneDay(s: string): (r: Result<string>)
    ensures r.Ok? <==> ParseIsoDate(s).Some? && PyDate(NextDay(ParseIsoDate(s).value))
    ensures r.Ok? ==>
      (ParseIsoDate(r.value).Some?
       && Ordinal(ParseIsoDate(r.value).value) == Ordinal(ParseIsoDate(s).value) + 1)
  {
    match ParseIsoDate(s)
    case None => Err("ValueError")
    case Some(d) =>
      var n := NextDay(d);
      if !PyDate(n) then Err("OverflowError")
      else
        IsoDateRoundTrip(n);
        Ok(IsoDate(n))
  }

  /** On a rendered date the helper gives the rendering of the next day. */
  lemma AddOneDayIso(d: Date)
    requires PyDate(d) && d.year < 9999
    ensures AddOneDay(IsoDate(d)) == Ok(IsoDate(NextDay(d)))
  {
    IsoDateRoundTrip(d);
  }

  /** The disbursement date of a payment resubmission: today before 17h
      local time, otherwise the following day, as an ISO string. */
  function DisbursementDate(today: Date, hour: int): (r: Result<string>)
    requires PyDate(today)
    ensures r.Ok? <==> hour < 17 || PyDate(NextDay(today))
    ensures today.year < 9999 ==> r.Ok?
    ensures r.Ok? ==>
      (ParseIsoDate(r.value).Some?
       && ParseIsoDate(r.value).value == (if hour < 17 then today else NextDay(today)))
  {
    if hour < 17 then
      IsoDateRoundTrip(today);
      Ok(IsoDate(today))
    else
      NextDayOfIso(today);
      AddOneDay(IsoDate(today))
  }

  /** The helper applied to a rendered date renders the next day, and
      fails exactly past year 9999. */
  lemma NextDayOfIso(d: Date)
    requires PyDate(d)
    ensures AddOneDay(IsoDate(d)).Ok? <==> PyDate(NextDay(d))
    ensures d.year < 9999 ==> PyDate(NextDay(d))
    ensures AddOneDay(IsoDate(d)).Ok? ==> ParseIsoDate(AddOneDay(IsoDate(d)).value) == Some(NextDay(d))
  {
    IsoDateRoundTrip(d);
    if PyDate(NextDay(d)) {
      IsoDateRoundTrip(NextDay(d));
    }
  }

  lemma OrdinalInjective(a: Date, b: Date)
    requires ValidDate(a) && ValidDate(b) && Ordinal(a) == Ordinal(b)
    ensures a == b
  {
    if Before(a, b) {
      OrdinalMonotone(a, b);
    } else if Before(b, a) {
      OrdinalMonotone(b, a);
    }
  }

  // ---------------------------------------------------------------------
  // relativedelta(final, inicial)

  function MonthIndex(d: Date): int { d.year * 12 + d.month - 1 }

  lemma MonthIndexOrder(a: Date, b: Date)
    requires 1 <= a.month <= 12 && 1 <= b.month <= 12 && MonthIndex(a) < MonthIndex(b)
    ensures Before(a, b)
  {
  }

  /** Adding more months never gives an earlier date. */
  lemma AddMonthsMonotone(s: Date, k1: int, k2: int)
    requires ValidDate(s) && k1 <= k2
    ensures !Before(AddMonths(s, k2), AddMonths(s, k1))
  {
    if k1 < k2 {
      MonthIndexOrder(AddMonths(s, k1), AddMonths(s, k2));
    }
  }

  /** A month later is at least 28 days later. */
  lemma MonthIsLong(s: Date)
    requires ValidDate(s)
    ensures Ordinal(AddMonths(s, 1)) >= Ordinal(s) + 28
  {
    var a := AddMonths(s, 1);
    if s.month < 12 {
      assert a.year == s.year && a.month == s.month + 1;
      MonthStep(s.year, s.month);
    } else {
      assert a.year == s.year + 1 && a.month == 1;
      LastMonth(s.year);
      DaysBeforeNextYear(s.year);
    }
  }

  /** The whole months relativedelta puts between the dates: the month
      distance, moved back (or forward, for a later start) once when the
      start shifted by it overshoots the end. */
  function DeltaMonths(start: Date, end: Date): (m: int)
    requires ValidDate(start) && ValidDate(end)
    ensures !Before(end, start) ==>
      m >= 0 && !Before(end, AddMonths(start, m)) && Before(end, AddMonths(start, m + 1))
    ensures Before(end, start) ==>
      m <= 0 && !Before(AddMonths(start, m), end) && Before(AddMonths(start, m - 1), end)
  {
    if !Before(end, start) then MonthsForward(start, end) else MonthsBackward(start, end)
  }

  /** For a later end, the month distance or one less. */
  function MonthsForward(start: Date, end: Date): (m: int)
    requires ValidDate(start) && ValidDate(end) && !Before(end, start)
    ensures m >= 0 && !Before(end, AddMonths(start, m)) && Before(end, AddMonths(start, m + 1))
  {
    var m0 := MonthIndex(end) - MonthIndex(start);
    MonthIndexOrder(end, AddMonths(start, m0 + 1));
    if Before(end, AddMonths(start, m0)) then
      assert m0 != 0;
      MonthIndexOrder(AddMonths(start, m0 - 1), end);
      m0 - 1
    else m0
  }

  /** For an earlier end, the month distance or one more. */
  function MonthsBackward(start: Date, end: Date): (m: int)
    requires ValidDate(start) && ValidDate(end) && Before(end, start)
    ensures m <= 0 && !Before(AddMonths(start, m), end) && Before(AddMonths(start, m - 1), end)
  {
    var m0 := MonthIndex(end) - MonthIndex(start);
    MonthIndexOrder(AddMonths(start, m0 - 1), end);
    if Before(AddMonths(start, m0), end) then
      assert m0 != 0;
      MonthIndexOrder(end, AddMonths(start, m0 + 1));
      m0 + 1
    else m0
  }


  datatype Delta = Delta(years: int, months: int, days: int)

  /** `relativedelta(end, start)` between two dates: whole months split
      into years and months with the sign of the difference, then the days
      left after shifting the start by those months. */
  function RelDelta(start: Date, end: Date): (r: Delta)
    requires ValidDate(start) && ValidDate(end)
    ensures !Before(end, start) ==>
      r.years >= 0 && 0 <= r.months < 12 && r.days >= 0
      && r.years * 12 + r.months == DeltaMonths(start, end)
    ensures Before(end, start) ==> r.years <= 0 && r.months <= 0 && r.days <= 0
  {
    var m := DeltaMonths(start, end);
    var shifted := AddMonths(start, m);
    if !Before(end, start) then
      OrdinalMonotoneEq(shifted, end);
      Delta(m / 12, m % 12, Ordinal(end) - Ordinal(shifted))
    else
      OrdinalMonotoneEq(end, shifted);
      Delta(-((-m) / 12), -((-m) % 12), Ordinal(end) - Ordinal(shifted))
  }

  /** At least a year has passed exactly when the start's first
      anniversary has been reached. */
  lemma YearReached(start: Date, end: Date)
    requires ValidDate(start) && ValidDate(end)
    ensures RelDelta(start, end).years >= 1 <==> !Before(end, AddMonths(start, 12))
  {
    var m := DeltaMonths(start, end);
    if !Before(end, start) {
      if m >= 12 {
        AddMonthsMonotone(start, 12, m);
      } else {
        AddMonthsMonotone(start, m + 1, 12);
      }
    } else {
      AddMonthsMonotone(start, 0, 12);
      assert Before(end, AddMonths(start, 12));
    }
  }

  /** More than ten days have passed (in any unit) exactly when the dates
      are more than ten days apart in that order. */
  lemma TenDaysPassed(start: Date, end: Date)
    requires ValidDate(start) && ValidDate(end)
    ensures var r := RelDelta(start, end);
      (r.years > 0 || r.months > 0 || r.days > 10) <==> Ordinal(end) - Ordinal(start) > 10
  {
    var m := DeltaMonths(start, end);
    if !Before(end, start) {
      if m >= 1 {
        AddMonthsMonotone(start, 1, m);
        OrdinalMonotoneEq(AddMonths(start, 1), AddMonths(start, m));
        OrdinalMonotoneEq(AddMonths(start, m), end);
        MonthIsLong(start);
      } else {
        assert AddMonths(start, 0) == start;
      }
    } else {
      OrdinalMonotone(end, start);
    }
  }
}
