# Cost Explorer report handler — verified model

This project models the AWS Lambda function `functions/cost_explorer/index.js`.
The function answers an invocation event `{ action, period }` with one of three things:

- the month-to-date (or other period's) blended cost, `{ Total, Unit }`;
- a cost forecast, `{ Mean, LowerBound, UpperBound, Unit }`;
- an error value, `{ errorCode, errorMessage }`.

The model covers the pure logic under the SDK calls:

- truncation of money to whole cents;
- the case-insensitive `period` switches of `getCost` and `getCostForecast`;
- the date ranges those switches pick, relative to the invocation day;
- the left-to-right reduces over the returned buckets;
- validation and dispatch in `handler`.

Modules, one per concern of the source file:

| module | file | concern |
|---|---|---|
| `Money` | money.dfy | `normalizeCostValue` on exact reals |
| `Text` | text.dfy | `toUpperCase` / `toLowerCase` as they affect keyword matching |
| `Calendar` | calendar.dfy | day-granularity dates and the `moment` arithmetic used |
| `Periods` | periods.dfy | the two `period` switches and their date ranges |
| `Aggregate` | aggregate.dfy | the cost and forecast reduces |
| `Handler` | handler.dfy | the JSON event, `getCost`, `getCostForecast`, `handler` |

Inputs the source takes from its environment are explicit parameters here:

- "Today" (`moment()`) is a `Calendar.Date` parameter.
- The billing service is a pair of function parameters, `CostService` and `ForecastService`. Each maps the query the handler builds (granularity, time period, metric, prediction level) to the list of buckets returned.

Amounts are exact `real`s.
`Calendar.DayNumber` counts days from 0000-01-01 in the proleptic Gregorian calendar.
It is the independent measure for the day arithmetic: `AddDays(d, n)` is the date whose day number is `n` more than `d`'s.
It also agrees with the (year, month, day) order of dates (`Calendar.BeforeIffDayNumber`). For years 0 through 9999 that is also the order of the `YYYY-MM-DD` strings sent to the billing service.

Assumption about `moment`, whose source is not part of this model: `add(n, 'months')` keeps the day of the month and clamps it to the last day of a shorter target month, and `add(n, 'years')` is `add(12 * n, 'months')`.
`Calendar.AddMonths` and `Calendar.AddYears` are written to that behaviour.

Behaviour of the code worth knowing:

- `Math.floor` truncates toward negative infinity, so −0.001 becomes −0.01 (`Money.NormalizeExamples`).
- A rejected SDK promise is not caught. `handler` returns `getCost(event)` and `getCostForecast(event)` from inside `try` without `await` (index.js lines 127-128). The only 500s are synchronous `TypeError`s inside `handler` itself: destructuring a null or undefined event, and calling `toLowerCase` on a truthy non-string `action` (`Handler.ServerErrorOnlyFromTypeErrors`).
- For one reading of the clock, every range sent to the billing service is non-empty: its start comes strictly before its end (`Periods.ValidRange`). The code reads the clock once per endpoint; see "## Left out" for what that allows.

## Model

| member | source | states |
|---|---|---|
| Money.Normalize | functions/cost_explorer/index.js:20-22 | the result is a whole number of cents, at most x and more than x − 0.01 |
| Money.NormalizeUnique | functions/cost_explorer/index.js:20-22 | any whole-cent amount in (x − 0.01, x] is the truncation of x |
| Money.NormalizeGreatest | functions/cost_explorer/index.js:20-22 | every whole-cent amount not above x is at most the truncation of x |
| Money.NormalizeIdempotent | functions/cost_explorer/index.js:20-22 | truncating twice is truncating once |
| Money.NormalizeMonotone | functions/cost_explorer/index.js:20-22 | x ≤ y implies truncation of x ≤ truncation of y |
| Money.NormalizeFixesWholeCents | functions/cost_explorer/index.js:111-113 | truncating a whole-cent amount leaves it unchanged |
| Money.NormalizeExamples | functions/cost_explorer/index.js:20-22 | 2.567 → 2.56, 2.0 → 2.0, −0.001 → −0.01 (floor, not toward zero), 0 → 0 |
| Money.WholeCentsAdd | functions/cost_explorer/index.js:65 | a sum of whole-cent amounts is a whole-cent amount |
| Text.UpperCase | functions/cost_explorer/index.js:35 | the upper-case form is between one and three times as long as the string |
| Text.LowerCase | functions/cost_explorer/index.js:127 | the lower-case form has the same length as the string |
| Text.UpperChar | functions/cost_explorer/index.js:35 | one character upper-cases to one to three characters; a–z become A–Z and A–Z are kept |
| Text.LowerChar | functions/cost_explorer/index.js:127-128 | A–Z become a–z (32 code points on); any other character except the Kelvin sign is kept |
| Text.LowerCaseAt | functions/cost_explorer/index.js:127-128 | each character of the lower-case form is the lower-case form of the character at the same position |
| Text.LowerCaseOfLower | functions/cost_explorer/index.js:127-128 | a string of lower-case ASCII letters is its own lower-case form |
| Text.LowerCaseOfAscii | functions/cost_explorer/index.js:127-128 | an ASCII string lower-cases to its all-lower-case ASCII counterpart |
| Text.UpperCaseIgnoresCase | functions/cost_explorer/index.js:35 | strings differing only in ASCII letter case have the same upper-case form |
| Text.LowerCaseIgnoresCase | functions/cost_explorer/index.js:127-128 | strings differing only in ASCII letter case have the same lower-case form |
| Text.UpperCaseOfUpper | functions/cost_explorer/index.js:80 | an all-upper-case ASCII string is its own upper-case form |
| Text.UpperCaseAppend | functions/cost_explorer/index.js:35 | the upper-case form of a concatenation is the concatenation of the upper-case forms |
| Text.UpperCaseOfAscii | functions/cost_explorer/index.js:35 | an ASCII string upper-cases to its all-upper-case ASCII counterpart |
| Text.UpperCaseAscii | functions/cost_explorer/index.js:35 | `mtd` upper-cases to `MTD` |
| Text.UpperCaseLongS | functions/cost_explorer/index.js:35 | a long s upper-cases to S, so `yeſterday` selects `YESTERDAY` |
| Text.UpperCaseLigature | functions/cost_explorer/index.js:35 | the st ligature expands to `ST` when upper-cased |
| Text.LowerCaseExample | functions/cost_explorer/index.js:128 | `FoReCaSt` lower-cases to `forecast` |
| Calendar.DaysInYear | functions/cost_explorer/index.js:82-83 | a year has 365 or 366 days |
| Calendar.DaysInMonth | functions/cost_explorer/index.js:92 | a month has 28 to 31 days; February has 29 exactly in leap years |
| Calendar.DaysBeforeNextYear | functions/cost_explorer/index.js:44-46 | consecutive first days of January are one year's length apart, so day arithmetic such as YESTERDAY on January 1 crosses the year correctly |
| Calendar.BeforeIffDayNumber | functions/cost_explorer/index.js:6-7 | the (year, month, day) order of valid dates agrees with day-number order, both ways; for years 0–9999 this is the order of their `YYYY-MM-DD` strings |
| Calendar.DayNumberInjective | functions/cost_explorer/index.js:6-7 | distinct valid dates have distinct day numbers |
| Calendar.NextDay | functions/cost_explorer/index.js:38 | the next day is a valid date whose day number is one more |
| Calendar.PrevDay | functions/cost_explorer/index.js:45 | the previous day is a valid date whose day number is one less |
| Calendar.AddDays | functions/cost_explorer/index.js:82-83 | adding n days gives a valid date exactly n day numbers later (earlier for negative n) |
| Calendar.AddDaysRoundTrip | functions/cost_explorer/index.js:45 | subtracting n days undoes adding n days |
| Calendar.AddDaysCompose | functions/cost_explorer/index.js:82-83 | adding m days then n days is adding m + n days |
| Calendar.AddDaysLater | functions/cost_explorer/index.js:38 | adding a positive number of days gives a strictly later date |
| Calendar.AddMonths | functions/cost_explorer/index.js:92 | the result is exactly n months later, keeps the day of the month if it exists, else the month's last day |
| Calendar.AddYears | functions/cost_explorer/index.js:87 | same month n years on, same day except that February 29 becomes February 28 |
| Calendar.AddMonthsLater | functions/cost_explorer/index.js:92 | adding a positive number of months gives a strictly later date |
| Calendar.StartOfMonth | functions/cost_explorer/index.js:37 | day 1 of the same month, d.day − 1 days before d |
| Calendar.StartOfYear | functions/cost_explorer/index.js:41 | January 1 of the same year, not after d |
| Calendar.MonthIndexBefore | functions/cost_explorer/index.js:54-55 | a date in an earlier month comes before any date in a later month |
| Calendar.NextDayMonth | functions/cost_explorer/index.js:91-92 | the next day is in the same month or on day 1 of the following month |
| Calendar.MonthLength | functions/cost_explorer/index.js:54-55 | the first of the next month is `DaysInMonth` days after the first of this month |
| Periods.CostPeriodOf | functions/cost_explorer/index.js:35-56 | the upper-cased period is the chosen period's keyword, or it is none of MTD/YTD/YESTERDAY/TODAY and last month is chosen |
| Periods.CostRange | functions/cost_explorer/index.js:35-57 | every range is non-empty; MTD/YTD/TODAY contain today and end tomorrow; YESTERDAY is [today − 1, today]; LASTMONTH is exactly the previous calendar month |
| Periods.LastMonthLength | functions/cost_explorer/index.js:54-55 | the LASTMONTH range is as long as the previous month |
| Periods.LastMonthAcrossMonthChange | functions/cost_explorer/index.js:54-55 | with `End` read on January 31 and `Start` read on February 1, the two endpoints are equal and the range is empty |
| Periods.FirstOfMonthUnique | functions/cost_explorer/index.js:54-55 | first days with the same month index are the same date |
| Periods.CostKeywordRoundTrip | functions/cost_explorer/index.js:35-52 | each cost keyword selects its own period |
| Periods.CostPeriodIgnoresCase | functions/cost_explorer/index.js:35 | periods differing only in ASCII letter case select the same cost period |
| Periods.CostPeriodDefault | functions/cost_explorer/index.js:52-56 | an unrecognised or empty period gives exactly the LASTMONTH range |
| Periods.ForecastPeriodOf | functions/cost_explorer/index.js:80-93 | the upper-cased period is the chosen period's keyword, or it is neither TOMORROW nor YEAR and next month is chosen |
| Periods.ForecastRange | functions/cost_explorer/index.js:80-94 | every range starts tomorrow and is non-empty; TOMORROW ends at today + 2; YEAR ends on today's date next year; MONTH ends on today's day next month, clamped |
| Periods.TomorrowBeforeMonthLater | functions/cost_explorer/index.js:86-92 | tomorrow comes before today's date moved on by one or more months |
| Periods.ForecastKeywordRoundTrip | functions/cost_explorer/index.js:80-89 | each forecast keyword selects its own period |
| Periods.ForecastPeriodIgnoresCase | functions/cost_explorer/index.js:80 | periods differing only in ASCII letter case select the same forecast period |
| Periods.ForecastPeriodDefault | functions/cost_explorer/index.js:89-93 | an unrecognised or empty period gives exactly the MONTH range |
| Aggregate.CostTotal | functions/cost_explorer/index.js:65 | the total is whole cents, at most the exact sum and less than one cent per bucket below it; no buckets give 0 |
| Aggregate.CostTotalAppend | functions/cost_explorer/index.js:65 | the total of a split bucket list is the sum of the parts' totals |
| Aggregate.CostTotalMonotone | functions/cost_explorer/index.js:65 | raising bucket amounts never lowers the total |
| Aggregate.CostTotalIsFinal | functions/cost_explorer/index.js:65-66 | the unre-truncated cost total already equals its own truncation |
| Aggregate.Accumulate | functions/cost_explorer/index.js:104-109 | each forecast accumulator equals the cost-style truncated total of that field's values |
| Aggregate.AccumulateOrdered | functions/cost_explorer/index.js:104-113 | if every bucket has lower ≤ mean ≤ upper, so do the accumulators, before and after truncation |
| Aggregate.ForecastSummary | functions/cost_explorer/index.js:110-115 | all three fields are whole cents; no buckets give zeros; ordered buckets give LowerBound ≤ Mean ≤ UpperBound |
| Aggregate.ForecastSummaryIsCostTotals | functions/cost_explorer/index.js:104-113 | in exact arithmetic the second truncation changes nothing |
| Aggregate.ForecastSummaryBounds | functions/cost_explorer/index.js:104-113 | each field is at most its exact sum and less than one cent per bucket below it |
| Handler.Get | functions/cost_explorer/index.js:125 | reading a property of anything but an object gives undefined |
| Handler.FalsyValues | functions/cost_explorer/index.js:126 | `!action` holds exactly for undefined, null, false, 0 and the empty string |
| Handler.TypeErrorMessage | functions/cost_explorer/index.js:125-132 | a destructuring error's message is the V8 "Cannot destructure property 'action' of 'event' as it is …" text, ending `null.` exactly for a null event; the `toLowerCase` error's message is not of that form |
| Handler.UnknownError | functions/cost_explorer/index.js:131-133 | a caught error becomes code 500 with a message starting `Unknown error: ` |
| Handler.UnknownErrorIdentifiesError | functions/cost_explorer/index.js:131-133 | distinct type errors give distinct 500 responses, so the response names its cause |
| Handler.PeriodText | functions/cost_explorer/index.js:30 | a missing period defaults to the empty string; a string period is used as is |
| Handler.CostQueryFor | functions/cost_explorer/index.js:59-63 | the cost request is MONTHLY, BLENDED_COST, over exactly the range the period's keyword selects, which is non-empty |
| Handler.GetCost | functions/cost_explorer/index.js:29-67 | a report exactly when the period is missing or a string, else `{400, Invalid period}`; a report carries USD and a whole-cent total of the buckets for its query |
| Handler.ForecastQueryFor | functions/cost_explorer/index.js:96-101 | the forecast request is MONTHLY, BLENDED_COST, level 80, over exactly the range the period's keyword selects, which is non-empty and starts tomorrow |
| Handler.GetCostForecast | functions/cost_explorer/index.js:74-116 | a report exactly when the period is missing or a string, else `{400, Invalid period}`; a report's Mean, LowerBound and UpperBound are the truncated sums of the buckets the service returns for its query, in whole cents and USD, ordered when the buckets are |
| Handler.Handle | functions/cost_explorer/index.js:123-134 | a null or undefined event is a 500; a falsy action is `{400, Missing action}`; a truthy non-string action is a 500; every failure code is 400 or 500 |
| Handler.HandleRoutesCost | functions/cost_explorer/index.js:127 | a string action lower-casing to `cost` gets exactly `getCost`'s response for the event's period |
| Handler.HandleRoutesForecast | functions/cost_explorer/index.js:128 | a string action lower-casing to `forecast` gets exactly `getCostForecast`'s response for the event's period |
| Handler.HandleRejectsOtherActions | functions/cost_explorer/index.js:127-129 | a non-empty string action gets `{400, Invalid action}` if and only if it lower-cases to neither `cost` nor `forecast` |
| Handler.UnmatchedActionIsInvalid | functions/cost_explorer/index.js:129 | a string action naming neither operation gets `{400, Invalid action}` |
| Handler.MatchedActionIsNotInvalid | functions/cost_explorer/index.js:127-128 | a string action naming an operation never gets `{400, Invalid action}` |
| Handler.HandleIgnoresActionCase | functions/cost_explorer/index.js:127-128 | actions differing only in ASCII letter case get the same response |
| Handler.ServerErrorOnlyFromTypeErrors | functions/cost_explorer/index.js:124-133 | a 500 comes exactly from a null or undefined event or a truthy non-string action |
| Handler.FailuresIgnoreService | functions/cost_explorer/index.js:123-134 | every failure response is the same whatever the billing service would return |
| Handler.NonStringPeriodRejected | functions/cost_explorer/index.js:30-32 | a present non-string period, null included, is `{400, Invalid period}` for both operations |
| Handler.MissingPeriodIsLastMonth | functions/cost_explorer/index.js:30-56 | a missing period gives the same cost report as `''` and as `LASTMONTH` |
| Handler.MissingPeriodIsMonth | functions/cost_explorer/index.js:75-93 | a missing period gives the same forecast as `''` and as `MONTH` |
| Handler.MissingActionExample | functions/cost_explorer/index.js:126 | an empty event gives `{400, Missing action}` |
| Handler.InvalidActionExample | functions/cost_explorer/index.js:129 | action `bogus` gives `{400, Invalid action}` |
| Handler.NonStringActionExample | functions/cost_explorer/index.js:125-133 | action `1` gives `{500, Unknown error: action.toLowerCase is not a function}` |
| Handler.CostWithoutPeriodExample | functions/cost_explorer/index.js:127 | action `COST` without a period reports the LASTMONTH total in USD |
| Handler.ForecastYearExample | functions/cost_explorer/index.js:85-87 | period `year` asks for tomorrow up to today's date next year |

## Left out

- SDK client construction, credentials and region from the environment (index.js lines 1-12). This is I/O setup.
- The `getCostAndUsage` and `getCostForecast` network calls and their promises. The service is a function parameter that always answers. A failing or rejecting call is not modelled. Because the operations are returned without `await`, such a rejection would escape `handler`'s `catch` and would not become a 500.
- IEEE-754 arithmetic: `Number()` parsing of amount strings, `* 100`, and floating-point addition. Amounts are exact reals. One consequence: in exact arithmetic a sum of whole cents is whole cents, so the cost total needs no final truncation and the forecast's second truncation is the identity (`Aggregate.CostTotalIsFinal`, `Aggregate.ForecastSummaryIsCostTotals`). In doubles the two can differ by a cent, and that difference is not modelled.
- Malformed amounts: `Number('abc')` does not throw but gives NaN, and NaN propagates into the returned totals. Amounts here are reals, so NaN cannot arise.
- A malformed service response (e.g. a missing `ResultsByTime`). Reading it throws inside the async operation, so the returned promise rejects rather than producing a 500.
- `moment` time zones, local-time handling and the time of day. The `YYYY-MM-DD` format drops the time, so dates are modelled at day granularity. `startOf('day')` is the identity at that granularity. The formatting of a date as a string is not modelled. `Calendar.Before` is the (year, month, day) order. It matches the order of the formatted strings only for years 0 through 9999: `YYYY` prints year 10000 as `10000` and year −2 as `-0002`.
- Clock readings: the code calls `moment()` once per endpoint, while the model reads the clock once per call (`today`). Across a day or month boundary the two endpoints can come from different days. In the LASTMONTH and default arm, `End` is read first (index.js line 54) and `Start` second (line 55). If `End` is read on January 31 and `Start` on February 1, both are January 1 and the range is empty (`Periods.LastMonthAcrossMonthChange`). `Periods.CostRange` and `Periods.ForecastRange` promise non-empty ranges only for a single reading.
- `moment`'s month-end clamping for month and year addition is an assumption stated above, because the library is not part of this model.
- Text.UpperCase: Unicode's full upper-case mapping is modelled only for characters whose upper-case form is ASCII (a–z, ı, ſ, ß, U+FB00–U+FB06). Other characters are kept unchanged. Their true upper-case form is not ASCII either, so no comparison with the ASCII keywords changes.
- Text.LowerCase: only A–Z and the Kelvin sign are lower-cased, for the same reason.
- Text.UpperChar: a character whose upper-case form is not ASCII (é, for example, which JavaScript upper-cases to É) is kept unchanged. The only non-ASCII characters whose upper-case form is all ASCII are ı, ſ, ß and U+FB00–U+FB06, and those are mapped. So no comparison with an ASCII keyword changes.
- Text.LowerChar: a character whose lower-case form is not ASCII (É, for example, which JavaScript lower-cases to é) is kept unchanged. The only non-ASCII character whose lower-case form is ASCII is the Kelvin sign, and it is mapped to k. So no comparison with an ASCII keyword changes.
- Handler.UnknownError: the message texts are the Node.js (V8) wording of the two `TypeError`s. Another engine may word them differently.
- Events are JSON values. Non-JSON values (functions, NaN, objects with inherited `action` or `period` properties) are not modelled.
- Idempotence of repeated invocations: the model is a pure function of the event, the day and the service answers, so it holds by construction and no lemma states it.
