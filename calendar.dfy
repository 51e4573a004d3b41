/**
  Calendar dates as the report engine sees them through JavaScript `Date`:
  a year, a month numbered 0..11 as `getMonth` returns it, and a day of the
  month. Every date has a day number (`Ordinal`), which plays the part of
  the `Date` time value in comparisons, and a weekday as `getDay` returns it
  (Sunday = 0). `Normalize` is the day overflow of `setDate`, and
  `ParseDisplayDate` is how a stored `DD/MM/YYYY` string becomes a date.
*/
module Calendar {
  import opened Wrappers
  import opened Strings

  datatype Date = Date(year: int, month: int, day: int)

  predicate IsLeapYear(y: int) {
    y % 4 == 0 && (y % 100 != 0 || y % 400 == 0)
  }

  function DaysInMonth(y: int, m: int): (n: int)
    requires 0 <= m < 12
    ensures 28 <= n <= 31
  {
    if m == 1 then (if IsLeapYear(y) then 29 else 28)
    else if m == 3 || m == 5 || m == 8 || m == 10 then 30
    else 31
  }

  predicate Valid(d: Date) {
    0 <= d.month < 12 && 1 <= d.day <= DaysInMonth(d.year, d.month)
  }

  function YearLength(y: int): int {
    if IsLeapYear(y) then 366 else 365
  }

  /** Days from 1 January of year 1 (proleptic Gregorian) to 1 January of year `y`. */
  function DaysBeforeYear(y: int): int {
    365 * (y - 1) + (y - 1) / 4 - (y - 1) / 100 + (y - 1) / 400
  }

  /** Days from 1 January of year `y` to the first day of month `m`. */
  function DaysBeforeMonth(y: int, m: int): int
    requires 0 <= m < 12
  {
    var common := [0, 31, 59, 90, 120, 151, 181, 212, 243, 273, 304, 334][m];
    if m >= 2 && IsLeapYear(y) then common + 1 else common
  }

  /** Day number of the first day of month `m` of year `y`. */
  function MonthStart(y: int, m: int): int
    requires 0 <= m < 12
  {
    DaysBeforeYear(y) + DaysBeforeMonth(y, m)
  }

  /** Day number of a date: 0 for 1 January of year 1. */
  function Ordinal(d: Date): int
    requires 0 <= d.month < 12
  {
    MonthStart(d.year, d.month) + d.day - 1
  }

  /** `getDay()`: 0 for Sunday up to 6 for Saturday (1 January of year 1 was a Monday). */
  function Weekday(d: Date): (w: int)
    requires 0 <= d.month < 12
    ensures 0 <= w < 7
  {
    (Ordinal(d) + 1) % 7
  }

  /** How many multiples of 4, 100 and 400 the year `y` adds to the leap-day count. */
  lemma DivStep(y: int)
    ensures y / 4 - (y - 1) / 4 == if y % 4 == 0 then 1 else 0
    ensures y / 100 - (y - 1) / 100 == if y % 100 == 0 then 1 else 0
    ensures y / 400 - (y - 1) / 400 == if y % 400 == 0 then 1 else 0
  {
  }

  /** Every multiple of 400 is one of 100, and every multiple of 100 one of 4. */
  lemma DivisorChain(y: int)
    ensures y % 400 == 0 ==> y % 100 == 0
    ensures y % 100 == 0 ==> y % 4 == 0
  {
    if y % 400 == 0 {
      MultipleOf(y / 400 * 4, 100);
    }
    if y % 100 == 0 {
      MultipleOf(y / 100 * 25, 4);
    }
  }

  lemma MultipleOf(q: int, d: int)
    requires d == 4 || d == 100
    ensures (d * q) % d == 0
  {
  }

  /** A year has as many days as the distance between its first day and the next year's. */
  lemma YearStep(y: int)
    ensures DaysBeforeYear(y + 1) == DaysBeforeYear(y) + YearLength(y)
  {
    DivStep(y);
    DivisorChain(y);
    var leapDays := (y / 4 - (y - 1) / 4) - (y / 100 - (y - 1) / 100) + (y / 400 - (y - 1) / 400);
    assert DaysBeforeYear(y + 1) == DaysBeforeYear(y) + 365 + leapDays;
    assert leapDays == if IsLeapYear(y) then 1 else 0;
  }

  /** The first day of the next month is `DaysInMonth` days after the first day of this one. */
  lemma MonthStep(y: int, m: int)
    requires 0 <= m < 12
    ensures m < 11 ==> MonthStart(y, m + 1) == MonthStart(y, m) + DaysInMonth(y, m)
    ensures m == 11 ==> MonthStart(y + 1, 0) == MonthStart(y, m) + DaysInMonth(y, m)
  {
    if m == 11 {
      YearStep(y);
    }
  }

  /**
    `setDate(d)` on a date in month `m` of year `y`: day `d` of that month,
    where a day below 1 rolls back into earlier months and a day past the
    end of the month rolls forward, across year boundaries too.
  */
  function Normalize(y: int, m: int, d: int): (r: Date)
    requires 0 <= m < 12
    ensures Valid(r)
    ensures Ordinal(r) == MonthStart(y, m) + d - 1
    decreases if d < 1 then 32 - d else d
  {
    if d < 1 then
      var py, pm := if m == 0 then y - 1 else y, if m == 0 then 11 else m - 1;
      RollBack(y, m, d);
      Normalize(py, pm, d + DaysInMonth(py, pm))
    else if d > DaysInMonth(y, m) then
      var ny, nm := if m == 11 then y + 1 else y, if m == 11 then 0 else m + 1;
      RollForward(y, m, d);
      Normalize(ny, nm, d - DaysInMonth(y, m))
    else
      Date(y, m, d)
  }

  /** Day `d` of a month is day `d` plus the previous month's length of the previous month. */
  lemma RollBack(y: int, m: int, d: int)
    requires 0 <= m < 12
    ensures var py, pm := if m == 0 then y - 1 else y, if m == 0 then 11 else m - 1;
      MonthStart(py, pm) + (d + DaysInMonth(py, pm)) - 1 == MonthStart(y, m) + d - 1
  {
    if m == 0 {
      MonthStep(y - 1, 11);
    } else {
      MonthStep(y, m - 1);
    }
  }

  /** Day `d` of a month is day `d` minus this month's length of the next month. */
  lemma RollForward(y: int, m: int, d: int)
    requires 0 <= m < 12
    ensures var ny, nm := if m == 11 then y + 1 else y, if m == 11 then 0 else m + 1;
      MonthStart(ny, nm) + (d - DaysInMonth(y, m)) - 1 == MonthStart(y, m) + d - 1
  {
    MonthStep(y, m);
  }

  /** Within one month the day numbers grow by one per day and stay in the month. */
  lemma OrdinalWithinMonth(d: Date)
    requires Valid(d)
    ensures MonthStart(d.year, d.month) <= Ordinal(d) < MonthStart(d.year, d.month) + DaysInMonth(d.year, d.month)
  {
  }

  /** Later months start later: month starts are increasing in (year, month). */
  lemma {:induction false} MonthStartMonotone(y: int, m: int, y': int, m': int)
    requires 0 <= m < 12 && 0 <= m' < 12
    requires y < y' || (y == y' && m < m')
    ensures MonthStart(y, m) + DaysInMonth(y, m) <= MonthStart(y', m')
    decreases y' - y, m' - m + 12
  {
    MonthStep(y, m);
    if m < 11 {
      if !(y == y' && m + 1 == m') {
        MonthStartMonotone(y, m + 1, y', m');
      }
    } else {
      if !(y + 1 == y' && m' == 0) {
        MonthStartMonotone(y + 1, 0, y', m');
      }
    }
  }

  /** Two valid dates with the same day number are the same date. */
  lemma OrdinalInjective(a: Date, b: Date)
    requires Valid(a) && Valid(b)
    requires Ordinal(a) == Ordinal(b)
    ensures a == b
  {
    if a.year < b.year || (a.year == b.year && a.month < b.month) {
      MonthStartMonotone(a.year, a.month, b.year, b.month);
      assert false;
    } else if b.year < a.year || (a.year == b.year && b.month < a.month) {
      MonthStartMonotone(b.year, b.month, a.year, a.month);
      assert false;
    }
  }

  /** A valid date is its own `setDate(getDate())`. */
  lemma NormalizeValid(d: Date)
    requires Valid(d)
    ensures Normalize(d.year, d.month, d.day) == d
  {
  }

  /** The date `n` days after `d` (negative `n`: before), by the rollover of `setDate`. */
  function AddDays(d: Date, n: int): (r: Date)
    requires 0 <= d.month < 12
    ensures Valid(r) && Ordinal(r) == Ordinal(d) + n
  {
    Normalize(d.year, d.month, d.day + n)
  }

  /** Weekday 0 is Sunday: 1 January 1970 was a Thursday and 29 December 2024 a Sunday. */
  lemma WeekdayAnchors()
    ensures Weekday(Date(1970, 0, 1)) == 4
    ensures Weekday(Date(2024, 11, 29)) == 0
  {
  }

  /** The next day is the next weekday, Saturday (6) wrapping round to Sunday (0). */
  lemma WeekdayStep(d: Date)
    requires Valid(d)
    ensures Weekday(AddDays(d, 1)) == (Weekday(d) + 1) % 7
  {
    WeekdayShift(Ordinal(d) + 1, 1);
  }

  /** Moving `j` days on moves the weekday `j` places round the week. */
  lemma WeekdayShift(k: int, j: int)
    requires 0 <= j < 7
    ensures (k + j) % 7 == (k % 7 + j) % 7
  {
    var q, r := k / 7, k % 7;
    assert k == 7 * q + r;
    if r + j < 7 {
      assert k + j == 7 * q + (r + j);
    } else {
      assert k + j == 7 * (q + 1) + (r + j - 7);
    }
  }

  // ---------------------------------------------------------------------
  // Parsing of the stored date strings
  // ---------------------------------------------------------------------

  /** Builds the date for an ISO year, 1-based month and day when they name a real day. */
  function MakeDate(y: int, month1: int, day: int): (r: Option<Date>)
    ensures r.Some? ==> Valid(r.value)
    ensures r.Some? <==> 1 <= month1 <= 12 && 1 <= day <= DaysInMonth(y, month1 - 1)
    ensures r.Some? ==> r.value == Date(y, month1 - 1, day)
  {
    if 1 <= month1 <= 12 && 1 <= day <= DaysInMonth(y, month1 - 1) then Some(Date(y, month1 - 1, day))
    else None
  }

  /**
    The date-only forms of the ECMAScript date time string format that
    `new Date(string)` accepts: `YYYY`, `YYYY-MM` and `YYYY-MM-DD`, a missing
    month or day being 1. Anything else gives an invalid date.
  */
  function ParseIsoDate(s: string): (r: Option<Date>)
    ensures r.Some? ==> Valid(r.value)
  {
    if |s| == 10 && s[4] == '-' && s[7] == '-' && AllDigits(s[..4]) && AllDigits(s[5..7]) && AllDigits(s[8..]) then
      MakeDate(DigitsValue(s[..4]), DigitsValue(s[5..7]), DigitsValue(s[8..]))
    else if |s| == 7 && s[4] == '-' && AllDigits(s[..4]) && AllDigits(s[5..]) then
      MakeDate(DigitsValue(s[..4]), DigitsValue(s[5..]), 1)
    else if |s| == 4 && AllDigits(s) then
      MakeDate(DigitsValue(s), 1, 1)
    else
      None
  }

  /** `new Date(date.split('/').reverse().join('-'))`: `None` is the invalid date. */
  function ParseDisplayDate(s: string): (r: Option<Date>)
    ensures r.Some? ==> Valid(r.value)
  {
    ParseIsoDate(Join(Reverse(Split(s, '/')), "-"))
  }

  /** `toLocaleDateString('fr-FR')`: the `DD/MM/YYYY` form in which sales and expenses are dated. */
  function DisplayDate(d: Date): (s: string)
    requires Valid(d) && 0 <= d.year < 10000
    ensures |s| == 10 && s[2] == '/' && s[5] == '/'
  {
    Padded(d.day, 2) + "/" + Padded(d.month + 1, 2) + "/" + Padded(d.year, 4)
  }

  lemma SplitDisplayDate(d: Date)
    requires Valid(d) && 0 <= d.year < 10000
    ensures Split(DisplayDate(d), '/') == [Padded(d.day, 2), Padded(d.month + 1, 2), Padded(d.year, 4)]
  {
    var dd, mm, yyyy := Padded(d.day, 2), Padded(d.month + 1, 2), Padded(d.year, 4);
    DigitsHaveNoSlash(dd);
    DigitsHaveNoSlash(mm);
    DigitsHaveNoSlash(yyyy);
    SplitThree(dd, mm, yyyy, '/');
  }

  lemma DigitsHaveNoSlash(s: string)
    requires AllDigits(s)
    ensures '/' !in s
  {
    assert forall i :: 0 <= i < |s| ==> s[i] != '/';
  }

  lemma JoinReversedFields(yyyy: string, mm: string, dd: string)
    ensures Join(Reverse([dd, mm, yyyy]), "-") == yyyy + "-" + mm + "-" + dd
  {
    assert Reverse([dd, mm, yyyy]) == [yyyy, mm, dd];
    assert [yyyy, mm, dd][1..] == [mm, dd] && [mm, dd][1..] == [dd];
    assert Join([dd], "-") == dd;
    assert Join([mm, dd], "-") == mm + "-" + dd;
    assert Join([yyyy, mm, dd], "-") == yyyy + "-" + (mm + "-" + dd);
  }

  lemma ParseIsoFields(yyyy: string, mm: string, dd: string)
    requires |yyyy| == 4 && |mm| == 2 && |dd| == 2
    requires AllDigits(yyyy) && AllDigits(mm) && AllDigits(dd)
    ensures ParseIsoDate(yyyy + "-" + mm + "-" + dd)
         == MakeDate(DigitsValue(yyyy), DigitsValue(mm), DigitsValue(dd))
  {
    var iso := yyyy + "-" + mm + "-" + dd;
    assert |iso| == 10 && iso[4] == '-' && iso[7] == '-';
    assert iso[..4] == yyyy && iso[5..7] == mm && iso[8..] == dd;
  }

  /** A date written as `DD/MM/YYYY` parses back to itself. */
  lemma DisplayDateRoundTrip(d: Date)
    requires Valid(d) && 0 <= d.year < 10000
    ensures ParseDisplayDate(DisplayDate(d)) == Some(d)
  {
    SplitDisplayDate(d);
    JoinReversedFields(Padded(d.year, 4), Padded(d.month + 1, 2), Padded(d.day, 2));
    ParseIsoFields(Padded(d.year, 4), Padded(d.month + 1, 2), Padded(d.day, 2));
    PaddedValue(d.day, 2);
    PaddedValue(d.month + 1, 2);
    PaddedValue(d.year, 4);
  }
}
