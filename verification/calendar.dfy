/** Calendar dates at day granularity.

    Every endpoint of a billing period is formatted as `YYYY-MM-DD`, so the
    time of day never reaches the billing service and a date is just a
    (year, month, day) triple of the proleptic Gregorian calendar. `DayNumber`
    counts days from 0000-01-01 and is the independent yardstick against which
    day and month arithmetic is stated.
 */
module Calendar {

  datatype Date = Date(year: int, month: int, day: int)

  predicate IsLeapYear(y: int) {
    y % 4 == 0 && (y % 100 != 0 || y % 400 == 0)
  }

  function DaysInYear(y: int): (n: int)
    ensures n == 365 || n == 366
  {
    if IsLeapYear(y) then 366 else 365
  }

  function DaysInMonth(y: int, m: int): (n: int)
    requires 1 <= m <= 12
    ensures 28 <= n <= 31
    ensures m == 2 ==> (n == 29 <==> IsLeapYear(y))
  {
    if m == 2 then (if IsLeapYear(y) then 29 else 28)
    else if m == 4 || m == 6 || m == 9 || m == 11 then 30
    else 31
  }

  /** A real calendar date: a month 1..12 and a day that exists in that month. */
  predicate Valid(d: Date) {
    1 <= d.month <= 12 && 1 <= d.day <= DaysInMonth(d.year, d.month)
  }

  /** Lexicographic order on (year, month, day). For years 0 through 9999 it is also
      the order of the dates' `YYYY-MM-DD` strings. */
  predicate Before(a: Date, b: Date) {
    a.year < b.year
    || (a.year == b.year && a.month < b.month)
    || (a.year == b.year && a.month == b.month && a.day < b.day)
  }

  // ---------------------------------------------------------------------------
  // Day numbers

  /** Days from 0000-01-01 to the first of January of year `y`. */
  function DaysBeforeYear(y: int): int {
    365 * y + (y + 3) / 4 - (y + 99) / 100 + (y + 399) / 400
  }

  /** Days from the first of January to the first day of month `m` of year `y`. */
  function DaysBeforeMonth(y: int, m: int): (n: int)
    requires 1 <= m <= 12
    ensures 0 <= n
  {
    var leap := if IsLeapYear(y) && m > 2 then 1 else 0;
    leap + (
      if m == 1 then 0 else if m == 2 then 31 else if m == 3 then 59
      else if m == 4 then 90 else if m == 5 then 120 else if m == 6 then 151
      else if m == 7 then 181 else if m == 8 then 212 else if m == 9 then 243
      else if m == 10 then 273 else if m == 11 then 304 else 334)
  }

  function DayNumber(d: Date): int
    requires Valid(d)
  {
    DaysBeforeYear(d.year) + DaysBeforeMonth(d.year, d.month) + d.day - 1
  }

  lemma DivStep4(y: int)
    ensures (y + 4) / 4 - (y + 3) / 4 == if y % 4 == 0 then 1 else 0
  {
    var q, r := y / 4, y % 4;
    assert y == 4 * q + r && 0 <= r < 4;
    assert (y + 4) / 4 == q + 1 + (r / 4);
    assert (y + 3) / 4 == q + (r + 3) / 4;
  }

  lemma DivStep100(y: int)
    ensures (y + 100) / 100 - (y + 99) / 100 == if y % 100 == 0 then 1 else 0
  {
    var q, r := y / 100, y % 100;
    assert y == 100 * q + r && 0 <= r < 100;
    assert (y + 100) / 100 == q + 1;
    assert (y + 99) / 100 == q + (r + 99) / 100;
  }

  lemma DivStep400(y: int)
    ensures (y + 400) / 400 - (y + 399) / 400 == if y % 400 == 0 then 1 else 0
  {
    var q, r := y / 400, y % 400;
    assert y == 400 * q + r && 0 <= r < 400;
    assert (y + 400) / 400 == q + 1;
    assert (y + 399) / 400 == q + (r + 399) / 400;
  }

  /** Leap days among the years before `y`, counted from year 0. */
  function LeapDaysBefore(y: int): int {
    (y + 3) / 4 - (y + 99) / 100 + (y + 399) / 400
  }

  /** Divisibility by 400 implies divisibility by 100, which implies divisibility by 4. */
  lemma DivisibilityChain(y: int)
    ensures y % 400 == 0 ==> y % 100 == 0
    ensures y % 100 == 0 ==> y % 4 == 0
  {
    if y % 400 == 0 {
      var k := y / 400;
      assert y == 100 * (4 * k);
    }
    if y % 100 == 0 {
      var k := y / 100;
      assert y == 4 * (25 * k);
    }
  }

  lemma LeapDaysStep(y: int)
    ensures LeapDaysBefore(y + 1) == LeapDaysBefore(y) + (if IsLeapYear(y) then 1 else 0)
  {
    var n := y + 1;
    assert n + 3 == y + 4 && n + 99 == y + 100 && n + 399 == y + 400;
    DivStep4(y);
    DivStep100(y);
    DivStep400(y);
    DivisibilityChain(y);
  }

  /** Consecutive new-year days are one year's length apart. */
  lemma DaysBeforeNextYear(y: int)
    ensures DaysBeforeYear(y + 1) == DaysBeforeYear(y) + DaysInYear(y)
  {
    LeapDaysStep(y);
    assert DaysBeforeYear(y) == 365 * y + LeapDaysBefore(y);
    assert DaysBeforeYear(y + 1) == 365 * (y + 1) + LeapDaysBefore(y + 1);
  }

  lemma {:induction false} DaysBeforeYearGrows(a: int, b: int)
    requires a <= b
    ensures DaysBeforeYear(a) + 365 * (b - a) <= DaysBeforeYear(b)
    decreases b - a
  {
    if a < b {
      DaysBeforeNextYear(a);
      DaysBeforeYearGrows(a + 1, b);
    }
  }

  /** A valid date's day number lies inside its own year. */
  lemma DayNumberInYear(d: Date)
    requires Valid(d)
    ensures DaysBeforeYear(d.year) <= DayNumber(d) < DaysBeforeYear(d.year + 1)
  {
    DaysBeforeNextYear(d.year);
  }

  /** The calendar order agrees with the day-number order, in both directions. */
  lemma BeforeIffDayNumber(a: Date, b: Date)
    requires Valid(a) && Valid(b)
    ensures Before(a, b) <==> DayNumber(a) < DayNumber(b)
  {
    DayNumberInYear(a);
    DayNumberInYear(b);
    if a.year < b.year {
      DaysBeforeYearGrows(a.year + 1, b.year);
    } else if b.year < a.year {
      DaysBeforeYearGrows(b.year + 1, a.year);
    }
  }

  /** Distinct valid dates have distinct day numbers. */
  lemma DayNumberInjective(a: Date, b: Date)
    requires Valid(a) && Valid(b) && DayNumber(a) == DayNumber(b)
    ensures a == b
  {
    BeforeIffDayNumber(a, b);
    BeforeIffDayNumber(b, a);
  }

  // ---------------------------------------------------------------------------
  // Day arithmetic

  /** The following calendar day. */
  function NextDay(d: Date): (r: Date)
    requires Valid(d)
    ensures Valid(r)
    ensures DayNumber(r) == DayNumber(d) + 1
  {
    if d.day < DaysInMonth(d.year, d.month) then Date(d.year, d.month, d.day + 1)
    else if d.month < 12 then Date(d.year, d.month + 1, 1)
    else
      DaysBeforeNextYear(d.year);
      Date(d.year + 1, 1, 1)
  }

  /** The preceding calendar day. */
  function PrevDay(d: Date): (r: Date)
    requires Valid(d)
    ensures Valid(r)
    ensures DayNumber(r) == DayNumber(d) - 1
  {
    if d.day > 1 then Date(d.year, d.month, d.day - 1)
    else if d.month > 1 then Date(d.year, d.month - 1, DaysInMonth(d.year, d.month - 1))
    else
      DaysBeforeNextYear(d.year - 1);
      Date(d.year - 1, 12, 31)
  }

  /** `d` moved by `n` days, forward for positive `n` and backward for negative `n`. */
  function AddDays(d: Date, n: int): (r: Date)
    requires Valid(d)
    ensures Valid(r)
    ensures DayNumber(r) == DayNumber(d) + n
    decreases if n < 0 then -n else n
  {
    if n == 0 then d
    else if n > 0 then AddDays(NextDay(d), n - 1)
    else AddDays(PrevDay(d), n + 1)
  }

  /** Moving forward and then back by the same number of days returns to the start. */
  lemma AddDaysRoundTrip(d: Date, n: int)
    requires Valid(d)
    ensures AddDays(AddDays(d, n), -n) == d
  {
    DayNumberInjective(AddDays(AddDays(d, n), -n), d);
  }

  /** Adding days in two steps is adding their sum. */
  lemma AddDaysCompose(d: Date, m: int, n: int)
    requires Valid(d)
    ensures AddDays(AddDays(d, m), n) == AddDays(d, m + n)
  {
    DayNumberInjective(AddDays(AddDays(d, m), n), AddDays(d, m + n));
  }

  /** Adding a positive number of days moves strictly later in the calendar. */
  lemma AddDaysLater(d: Date, n: int)
    requires Valid(d) && n > 0
    ensures Before(d, AddDays(d, n))
  {
    BeforeIffDayNumber(d, AddDays(d, n));
  }

  // ---------------------------------------------------------------------------
  // Month arithmetic

  /** Months since January of year 0; consecutive months have consecutive indices. */
  function MonthIndex(d: Date): int {
    12 * d.year + d.month - 1
  }

  function Min(a: int, b: int): int {
    if a <= b then a else b
  }

  /** `d` moved by `n` calendar months. The day of the month is kept when the
      target month has it and is clamped to that month's last day otherwise
      (January 31 plus one month is the last day of February). */
  function AddMonths(d: Date, n: int): (r: Date)
    requires Valid(d)
    ensures Valid(r)
    ensures MonthIndex(r) == MonthIndex(d) + n
    ensures d.day <= DaysInMonth(r.year, r.month) ==> r.day == d.day
    ensures d.day > DaysInMonth(r.year, r.month) ==> r.day == DaysInMonth(r.year, r.month)
  {
    var t := MonthIndex(d) + n;
    var y, m := t / 12, t % 12 + 1;
    Date(y, m, Min(d.day, DaysInMonth(y, m)))
  }

  /** `d` moved by `n` years, which is `12 * n` months: only February 29 moves, to February 28. */
  function AddYears(d: Date, n: int): (r: Date)
    requires Valid(d)
    ensures Valid(r)
    ensures r.year == d.year + n && r.month == d.month
    ensures r.day == d.day || (d.month == 2 && d.day == 29 && r.day == 28 && !IsLeapYear(r.year))
  {
    AddMonths(d, 12 * n)
  }

  /** The first day of the month of `d`. */
  function StartOfMonth(d: Date): (r: Date)
    requires Valid(d)
    ensures Valid(r) && r.day == 1
    ensures MonthIndex(r) == MonthIndex(d)
    ensures DayNumber(d) - DayNumber(r) == d.day - 1
  {
    Date(d.year, d.month, 1)
  }

  /** The first day of the year of `d`. */
  function StartOfYear(d: Date): (r: Date)
    requires Valid(d)
    ensures Valid(r) && r.year == d.year && r.month == 1 && r.day == 1
    ensures !Before(d, r)
  {
    Date(d.year, 1, 1)
  }

  /** An earlier month index means an earlier date, whatever the days. */
  lemma MonthIndexBefore(a: Date, b: Date)
    requires Valid(a) && Valid(b) && MonthIndex(a) < MonthIndex(b)
    ensures Before(a, b)
  {
  }

  /** The next day is in the same month or in the following one. */
  lemma NextDayMonth(d: Date)
    requires Valid(d)
    ensures MonthIndex(d) <= MonthIndex(NextDay(d)) <= MonthIndex(d) + 1
    ensures MonthIndex(NextDay(d)) == MonthIndex(d) + 1 ==> NextDay(d).day == 1
  {
  }

  /** Adding a positive number of months moves strictly later in the calendar. */
  lemma AddMonthsLater(d: Date, n: int)
    requires Valid(d) && n > 0
    ensures Before(d, AddMonths(d, n))
  {
    MonthIndexBefore(d, AddMonths(d, n));
  }

  /** The first day of the month after `d`'s month is exactly `DaysInMonth` days after
      the first day of `d`'s month. */
  lemma MonthLength(d: Date)
    requires Valid(d)
    ensures DayNumber(StartOfMonth(AddMonths(d, 1))) - DayNumber(StartOfMonth(d))
         == DaysInMonth(d.year, d.month)
  {
    var n := StartOfMonth(AddMonths(d, 1));
    if d.month == 12 {
      assert n == Date(d.year + 1, 1, 1);
      DaysBeforeNextYear(d.year);
    } else {
      assert n == Date(d.year, d.month + 1, 1);
    }
  }
}
