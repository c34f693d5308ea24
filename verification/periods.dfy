/** Resolution of a `period` keyword to the date range sent to the billing service.

    Both operations upper-case the keyword and pick a range anchored to the
    invocation day `today`; a keyword that is not recognised, including the
    empty string, falls through to the operation's default range instead of
    failing. Every endpoint is a calendar date.

    The ranges here are computed from a single reading of the clock. The
    LASTMONTH arm reads it once per endpoint, `End` first; the example
    `LastMonthAcrossMonthChange` shows the empty range that two readings on
    either side of a month change give.
 */
module Periods {
  import opened Calendar
  import opened Text

  /** A `TimePeriod`: `start` inclusive, `end` exclusive, as the billing service reads it. */
  datatype DateRange = DateRange(start: Date, end: Date)

  /** Both endpoints are real dates and the range is non-empty. */
  predicate ValidRange(r: DateRange) {
    Valid(r.start) && Valid(r.end) && Before(r.start, r.end)
  }

  /** `d` lies in the range. */
  predicate Contains(r: DateRange, d: Date) {
    !Before(d, r.start) && Before(d, r.end)
  }

  // ---------------------------------------------------------------------------
  // Cost periods

  datatype CostPeriod = MonthToDate | YearToDate | Yesterday | Today | LastMonth

  /** The keyword that selects each cost period. */
  function CostKeyword(k: CostPeriod): string {
    match k
    case MonthToDate => "MTD"
    case YearToDate => "YTD"
    case Yesterday => "YESTERDAY"
    case Today => "TODAY"
    case LastMonth => "LASTMONTH"
  }

  /** The keywords other than the default's own. */
  const CostKeywords: set<string> := {"MTD", "YTD", "YESTERDAY", "TODAY"}

  /** The cost `switch`: a recognised keyword in any letter case, else last month. */
  function CostPeriodOf(p: string): (k: CostPeriod)
    ensures UpperCase(p) == CostKeyword(k) || (k == LastMonth && UpperCase(p) !in CostKeywords)
  {
    var u := UpperCase(p);
    if u == "MTD" then MonthToDate
    else if u == "YTD" then YearToDate
    else if u == "YESTERDAY" then Yesterday
    else if u == "TODAY" then Today
    else LastMonth
  }

  /** The date range of a cost period. */
  function CostRange(k: CostPeriod, today: Date): (r: DateRange)
    requires Valid(today)
    ensures ValidRange(r)
    ensures k in {MonthToDate, YearToDate, Today} ==>
              Contains(r, today) && DayNumber(r.end) == DayNumber(today) + 1
    ensures k == MonthToDate ==> r.start.day == 1 && MonthIndex(r.start) == MonthIndex(today)
    ensures k == YearToDate ==> r.start == Date(today.year, 1, 1)
    ensures k == Today ==> r.start == today
    ensures k == Yesterday ==> r.end == today && DayNumber(r.start) == DayNumber(today) - 1
    ensures k == LastMonth ==>
              && r.end.day == 1 && MonthIndex(r.end) == MonthIndex(today)
              && r.start.day == 1 && MonthIndex(r.start) == MonthIndex(today) - 1
              && DayNumber(r.end) - DayNumber(r.start) == DaysInMonth(r.start.year, r.start.month)
  {
    match k
    case MonthToDate =>
      var r := DateRange(StartOfMonth(today), AddDays(today, 1));
      AddDaysLater(today, 1);
      r
    case YearToDate =>
      var r := DateRange(StartOfYear(today), AddDays(today, 1));
      AddDaysLater(today, 1);
      r
    case Yesterday =>
      var r := DateRange(AddDays(today, -1), today);
      BeforeIffDayNumber(r.start, r.end);
      r
    case Today =>
      var r := DateRange(today, AddDays(today, 1));
      AddDaysLater(today, 1);
      r
    case LastMonth =>
      var prev := AddMonths(today, -1);
      var r := DateRange(StartOfMonth(prev), StartOfMonth(today));
      LastMonthLength(today);
      r
  }

  /** Two first-of-month dates with the same month index are the same date. */
  lemma FirstOfMonthUnique(a: Date, b: Date)
    requires Valid(a) && Valid(b) && a.day == 1 && b.day == 1
    requires MonthIndex(a) == MonthIndex(b)
    ensures a == b
  {
  }

  /** The previous month, as a range, is exactly as long as that month. */
  lemma LastMonthLength(today: Date)
    requires Valid(today)
    ensures var prev := AddMonths(today, -1);
      DayNumber(StartOfMonth(today)) - DayNumber(StartOfMonth(prev)) == DaysInMonth(prev.year, prev.month)
  {
    var prev := AddMonths(today, -1);
    MonthLength(prev);
    FirstOfMonthUnique(StartOfMonth(AddMonths(prev, 1)), StartOfMonth(today));
  }

  /** The LASTMONTH arm with `End` read on January 31 and `Start` read on February 1:
      both endpoints are January 1, so the range is empty. */
  lemma LastMonthAcrossMonthChange()
    ensures var endRead, startRead := Date(2024, 1, 31), Date(2024, 2, 1);
      var r := DateRange(StartOfMonth(AddMonths(startRead, -1)), StartOfMonth(endRead));
      r.start == r.end && !ValidRange(r)
  {
  }

  /** Every cost keyword, in upper case, selects its own period. */
  lemma CostKeywordRoundTrip(k: CostPeriod)
    ensures CostPeriodOf(CostKeyword(k)) == k
  {
    var w := CostKeyword(k);
    assert AllAsciiUpper(w);
    UpperCaseOfUpper(w);
  }

  /** Cost keywords are matched without regard to ASCII letter case. */
  lemma CostPeriodIgnoresCase(p: string, q: string)
    requires SameUpToAsciiCase(p, q)
    ensures CostPeriodOf(p) == CostPeriodOf(q)
  {
    UpperCaseIgnoresCase(p, q);
  }

  /** An unrecognised or empty period resolves exactly like `LASTMONTH`. */
  lemma CostPeriodDefault(p: string, today: Date)
    requires Valid(today) && UpperCase(p) !in CostKeywords
    ensures CostRange(CostPeriodOf(p), today) == CostRange(CostPeriodOf("LASTMONTH"), today)
    ensures CostPeriodOf("") == LastMonth
  {
    CostKeywordRoundTrip(LastMonth);
  }

  // ---------------------------------------------------------------------------
  // Forecast periods

  datatype ForecastPeriod = Tomorrow | NextYear | NextMonth

  function ForecastKeyword(k: ForecastPeriod): string {
    match k
    case Tomorrow => "TOMORROW"
    case NextYear => "YEAR"
    case NextMonth => "MONTH"
  }

  const ForecastKeywords: set<string> := {"TOMORROW", "YEAR"}

  /** The forecast `switch`: a recognised keyword in any letter case, else next month. */
  function ForecastPeriodOf(p: string): (k: ForecastPeriod)
    ensures UpperCase(p) == ForecastKeyword(k) || (k == NextMonth && UpperCase(p) !in ForecastKeywords)
  {
    var u := UpperCase(p);
    if u == "TOMORROW" then Tomorrow
    else if u == "YEAR" then NextYear
    else NextMonth
  }

  /** The date range of a forecast period: it always starts tomorrow. */
  function ForecastRange(k: ForecastPeriod, today: Date): (r: DateRange)
    requires Valid(today)
    ensures ValidRange(r)
    ensures DayNumber(r.start) == DayNumber(today) + 1
    ensures k == Tomorrow ==> DayNumber(r.end) == DayNumber(today) + 2
    ensures k == NextYear ==> r.end.year == today.year + 1 && r.end.month == today.month
    ensures k == NextYear ==>
              r.end.day == today.day || (today.month == 2 && today.day == 29 && r.end.day == 28)
    ensures k == NextMonth ==> MonthIndex(r.end) == MonthIndex(today) + 1
    ensures k == NextMonth ==>
              r.end.day == today.day || (r.end.day < today.day && r.end.day == DaysInMonth(r.end.year, r.end.month))
  {
    var start := AddDays(today, 1);
    match k
    case Tomorrow =>
      var r := DateRange(start, AddDays(today, 2));
      BeforeIffDayNumber(r.start, r.end);
      r
    case NextYear =>
      var r := DateRange(start, AddYears(today, 1));
      TomorrowBeforeMonthLater(today, 12);
      r
    case NextMonth =>
      var r := DateRange(start, AddMonths(today, 1));
      TomorrowBeforeMonthLater(today, 1);
      r
  }

  /** Tomorrow comes strictly before the same day of any later month. */
  lemma TomorrowBeforeMonthLater(today: Date, n: int)
    requires Valid(today) && n >= 1
    ensures Before(AddDays(today, 1), AddMonths(today, n))
  {
    var t, e := AddDays(today, 1), AddMonths(today, n);
    DayNumberInjective(t, NextDay(today));
    NextDayMonth(today);
    if MonthIndex(t) < MonthIndex(e) {
      MonthIndexBefore(t, e);
    }
  }

  lemma ForecastKeywordRoundTrip(k: ForecastPeriod)
    ensures ForecastPeriodOf(ForecastKeyword(k)) == k
  {
    match k
    case Tomorrow => UpperCaseOfUpper("TOMORROW");
    case NextYear => UpperCaseOfUpper("YEAR");
    case NextMonth => UpperCaseOfUpper("MONTH");
  }

  /** Forecast keywords are matched without regard to ASCII letter case. */
  lemma ForecastPeriodIgnoresCase(p: string, q: string)
    requires SameUpToAsciiCase(p, q)
    ensures ForecastPeriodOf(p) == ForecastPeriodOf(q)
  {
    UpperCaseIgnoresCase(p, q);
  }

  /** An unrecognised or empty period resolves exactly like `MONTH`. */
  lemma ForecastPeriodDefault(p: string, today: Date)
    requires Valid(today) && UpperCase(p) !in ForecastKeywords
    ensures ForecastRange(ForecastPeriodOf(p), today) == ForecastRange(ForecastPeriodOf("MONTH"), today)
    ensures ForecastPeriodOf("") == NextMonth
  {
    ForecastKeywordRoundTrip(NextMonth);
  }
}
