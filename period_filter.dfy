/**
  `filterDataByPeriod`: keeps the records dated in the same day, week
  (Sunday to Saturday), month or quarter as today. Any other period keeps
  every record. A record whose date does not parse is dropped by the four
  named periods.
*/
module PeriodFilter {
  import opened Wrappers
  import opened Calendar

  const DAY := "day"
  const WEEK := "week"
  const MONTH := "month"
  const QUARTER := "quarter"

  predicate IsNamedPeriod(period: string) {
    period == DAY || period == WEEK || period == MONTH || period == QUARTER
  }

  /** The Sunday that starts today's week: `weekStart.setDate(today.getDate() - today.getDay())`. */
  function WeekStart(today: Date): (start: Date)
    requires Valid(today)
    ensures Valid(start) && Weekday(start) == 0
    ensures Ordinal(today) - 6 <= Ordinal(start) <= Ordinal(today)
  {
    SundayArithmetic(Ordinal(today) + 1);
    AddDays(today, -Weekday(today))
  }

  /** The Saturday that ends it: `weekEnd.setDate(weekStart.getDate() + 6)`. */
  function WeekEnd(today: Date): (end: Date)
    requires Valid(today)
    ensures Valid(end) && Weekday(end) == 6
    ensures Ordinal(end) == Ordinal(WeekStart(today)) + 6
  {
    var start := WeekStart(today);
    var end := AddDays(start, 6);
    SaturdayAfterSunday(Ordinal(start), Ordinal(end));
    end
  }

  /** The first month of today's quarter: `Math.floor(today.getMonth() / 3) * 3`. */
  function QuarterStart(today: Date): (m: int)
    requires Valid(today)
    ensures 0 <= m <= today.month <= m + 2 && m % 3 == 0
  {
    (today.month / 3) * 3
  }

  /** The switch of `filterDataByPeriod` for a date that parsed. */
  predicate InPeriod(period: string, today: Date, d: Date)
    requires Valid(today) && Valid(d)
  {
    if period == DAY then d == today
    else if period == WEEK then Ordinal(WeekStart(today)) <= Ordinal(d) <= Ordinal(WeekEnd(today))
    else if period == MONTH then d.month == today.month && d.year == today.year
    else if period == QUARTER then
      d.year == today.year && QuarterStart(today) <= d.month <= QuarterStart(today) + 2
    else true
  }

  /** The filter's predicate on a record's date string; an unparseable date fails every named period. */
  predicate Keeps(period: string, today: Date, dateText: string)
    requires Valid(today)
  {
    match ParseDisplayDate(dateText)
    case None => !IsNamedPeriod(period)
    case Some(d) => InPeriod(period, today, d)
  }

  /** `a` is `b` with some elements left out, the rest in their original order. */
  ghost predicate IsSubsequence<T>(a: seq<T>, b: seq<T>)
    decreases |b|
  {
    if b == [] then a == []
    else (a != [] && a[0] == b[0] && IsSubsequence(a[1..], b[1..])) || IsSubsequence(a, b[1..])
  }

  /** `filterDataByPeriod(data, period)` with `today` and the record's date field passed in. */
  function FilterByPeriod<T>(data: seq<T>, dateOf: T -> string, period: string, today: Date): (r: seq<T>)
    requires Valid(today)
    ensures IsSubsequence(r, data)
    ensures forall x :: x in r ==> x in data && Keeps(period, today, dateOf(x))
    ensures forall x :: x in data && Keeps(period, today, dateOf(x)) ==> x in r
    ensures IsNamedPeriod(period) ==> forall x :: x in r ==> ParseDisplayDate(dateOf(x)).Some?
    decreases |data|
  {
    if data == [] then []
    else
      var rest := FilterByPeriod(data[1..], dateOf, period, today);
      if Keeps(period, today, dateOf(data[0])) then [data[0]] + rest else rest
  }

  /** Filtering a concatenation filters each part, keeping their order. */
  lemma {:induction false} FilterAppend<T>(a: seq<T>, b: seq<T>, dateOf: T -> string, period: string, today: Date)
    requires Valid(today)
    ensures FilterByPeriod(a + b, dateOf, period, today)
         == FilterByPeriod(a, dateOf, period, today) + FilterByPeriod(b, dateOf, period, today)
    decreases |a|
  {
    if a != [] {
      assert (a + b)[1..] == a[1..] + b;
      FilterAppend(a[1..], b, dateOf, period, today);
    } else {
      assert a + b == b;
    }
  }

  /** An unrecognised period is the identity filter, whatever the dates say. */
  lemma {:induction false} FilterUnrecognised<T>(data: seq<T>, dateOf: T -> string, period: string, today: Date)
    requires Valid(today) && !IsNamedPeriod(period)
    ensures FilterByPeriod(data, dateOf, period, today) == data
    decreases |data|
  {
    if data != [] {
      FilterUnrecognised(data[1..], dateOf, period, today);
      assert [data[0]] + data[1..] == data;
    }
  }

  /** `day` keeps exactly the records dated today. */
  lemma DayIsToday(today: Date, dateText: string)
    requires Valid(today)
    ensures Keeps(DAY, today, dateText) <==> ParseDisplayDate(dateText) == Some(today)
  {
  }

  lemma SaturdayAfterSunday(sunday: int, saturday: int)
    requires (sunday + 1) % 7 == 0 && saturday == sunday + 6
    ensures (saturday + 1) % 7 == 6
  {
    WeekdayShift(sunday + 1, 6);
  }

  lemma SundayArithmetic(k: int)
    ensures (k - k % 7) % 7 == 0
  {
    assert k - k % 7 == 7 * (k / 7);
  }

  /** Today's week starts on a Sunday, `Weekday(today)` days back, and ends six days later. */
  lemma WeekBounds(today: Date)
    requires Valid(today)
    ensures Ordinal(WeekStart(today)) == Ordinal(today) - Weekday(today)
    ensures Ordinal(WeekEnd(today)) == Ordinal(today) - Weekday(today) + 6
    ensures Weekday(WeekStart(today)) == 0
  {
    var start := WeekStart(today);
    SundayArithmetic(Ordinal(today) + 1);
    assert Ordinal(start) + 1 == (Ordinal(today) + 1) - (Ordinal(today) + 1) % 7;
  }

  /**
    `week` keeps exactly the dates from the Sunday on or before today to the
    Saturday six days later, crossing month and year ends where the week does.
  */
  lemma WeekWindow(today: Date, d: Date)
    requires Valid(today) && Valid(d)
    ensures InPeriod(WEEK, today, d)
        <==> Ordinal(today) - Weekday(today) <= Ordinal(d) <= Ordinal(today) - Weekday(today) + 6
  {
    WeekBounds(today);
  }

  /** `quarter` keeps the dates of today's year whose month lies in today's three-month block. */
  lemma QuarterWindow(today: Date, d: Date)
    requires Valid(today) && Valid(d)
    ensures InPeriod(QUARTER, today, d) <==> d.year == today.year && d.month / 3 == today.month / 3
  {
  }

  /** The record dated today is in today's week, month and quarter too. */
  lemma TodayInEveryPeriod(today: Date)
    requires Valid(today)
    ensures InPeriod(DAY, today, today) && InPeriod(WEEK, today, today)
    ensures InPeriod(MONTH, today, today) && InPeriod(QUARTER, today, today)
  {
  }

  /** A record stamped with today's date in `DD/MM/YYYY` form is kept by the `day` report. */
  lemma TodaysRecordKept<T>(data: seq<T>, dateOf: T -> string, today: Date, x: T)
    requires Valid(today) && 0 <= today.year < 10000
    requires x in data && dateOf(x) == DisplayDate(today)
    ensures x in FilterByPeriod(data, dateOf, DAY, today)
  {
    DisplayDateRoundTrip(today);
  }

  /** Refining a quarter report to the month gives the month report: the month's records lie within the quarter's. */
  lemma {:induction false} MonthWithinQuarter<T>(data: seq<T>, dateOf: T -> string, today: Date)
    requires Valid(today)
    ensures FilterByPeriod(FilterByPeriod(data, dateOf, QUARTER, today), dateOf, MONTH, today)
         == FilterByPeriod(data, dateOf, MONTH, today)
    decreases |data|
  {
    if data != [] {
      MonthWithinQuarter(data[1..], dateOf, today);
      var q := FilterByPeriod(data[1..], dateOf, QUARTER, today);
      if Keeps(QUARTER, today, dateOf(data[0])) {
        assert ([data[0]] + q)[1..] == q;
      }
    }
  }

  /** Refining a week report to the day gives the day report. */
  lemma {:induction false} DayWithinWeek<T>(data: seq<T>, dateOf: T -> string, today: Date)
    requires Valid(today)
    ensures FilterByPeriod(FilterByPeriod(data, dateOf, WEEK, today), dateOf, DAY, today)
         == FilterByPeriod(data, dateOf, DAY, today)
    decreases |data|
  {
    if data != [] {
      DayWithinWeek(data[1..], dateOf, today);
      var w := FilterByPeriod(data[1..], dateOf, WEEK, today);
      if Keeps(WEEK, today, dateOf(data[0])) {
        assert ([data[0]] + w)[1..] == w;
      }
    }
  }
}
