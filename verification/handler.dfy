/** The Lambda entry point and its two reporting operations.

    The invocation event is a JSON value. `handler` reads `event.action`,
    rejects a falsy one, matches a string one against `cost` and `forecast`
    without regard to case and otherwise reports an invalid action. Each
    operation reads `event.period` (a missing one is the empty string), rejects
    a period that is not a string, resolves the date range, queries the billing
    service and aggregates the buckets it returns. The billing service is a
    pair of function parameters, so a query's result depends only on the query.

    Every error is a returned value. A 500 is produced only by the handler's own
    synchronous type errors (a null or undefined event, a truthy action that is
    not a string); failures of the billing service are not part of this model.
 */
module Handler {
  import opened Money
  import opened Calendar
  import opened Text
  import opened Periods
  import opened Aggregate

  /** A JSON value as the runtime hands it over; `Undefined` is a missing property. */
  datatype JsValue =
    | Undefined
    | Null
    | Bool(b: bool)
    | Num(n: real)
    | Str(s: string)
    | Arr(items: seq<JsValue>)
    | Obj(props: map<string, JsValue>)

  /** JavaScript truthiness (NaN does not arise from JSON). */
  predicate Truthy(v: JsValue) {
    match v
    case Undefined => false
    case Null => false
    case Bool(b) => b
    case Num(n) => n != 0.0
    case Str(s) => |s| > 0
    case Arr(_) => true
    case Obj(_) => true
  }

  /** Everything is truthy except the five falsy JSON values. */
  lemma FalsyValues(v: JsValue)
    ensures !Truthy(v) <==> v in {Undefined, Null, Bool(false), Num(0.0), Str("")}
  {
  }

  /** Property read `v[key]`: only objects carry named properties of their own. */
  function Get(v: JsValue, key: string): (r: JsValue)
    ensures !v.Obj? ==> r == Undefined
  {
    if v.Obj? && key in v.props then v.props[key] else Undefined
  }

  // ---------------------------------------------------------------------------
  // Requests to and responses from the billing service

  datatype CostQuery = CostQuery(granularity: string, timePeriod: DateRange, metrics: seq<string>)

  datatype ForecastQuery =
    ForecastQuery(granularity: string, timePeriod: DateRange, metric: string, predictionIntervalLevel: int)

  /** The billing service: the amount of each returned bucket, for a given query. */
  type CostService = CostQuery -> seq<real>

  /** The billing service: the forecast buckets returned for a given query. */
  type ForecastService = ForecastQuery -> seq<ForecastBucket>

  // ---------------------------------------------------------------------------
  // Handler results

  datatype Response =
    | CostReport(total: real, unit: string)
    | ForecastReport(mean: real, lowerBound: real, upperBound: real, unit: string)
    | Failure(errorCode: int, errorMessage: string)

  const Unit := "USD"
  const MissingAction := "Missing action"
  const InvalidAction := "Invalid action"
  const InvalidPeriod := "Invalid period"
  const UnknownErrorPrefix := "Unknown error: "

  /** The synchronous type errors `handler` can raise, with the Node.js runtime's messages. */
  datatype TypeError = EventNotDestructurable(isNull: bool) | ActionNotAString

  const DestructurePrefix := "Cannot destructure property 'action' of 'event' as it is "

  function TypeErrorMessage(e: TypeError): (m: string)
    ensures e.EventNotDestructurable? ==>
              DestructurePrefix <= m && (e.isNull <==> m[|DestructurePrefix|..] == "null.")
    ensures e == ActionNotAString ==> !(DestructurePrefix <= m)
  {
    match e
    case EventNotDestructurable(isNull) =>
      DestructurePrefix + (if isNull then "null." else "undefined.")
    case ActionNotAString => "action.toLowerCase is not a function"
  }

  /** The handler's `catch`: a caught error becomes a 500 carrying its message. */
  function UnknownError(e: TypeError): (r: Response)
    ensures r.Failure? && r.errorCode == 500
    ensures UnknownErrorPrefix <= r.errorMessage
  {
    Failure(500, UnknownErrorPrefix + TypeErrorMessage(e))
  }

  /** The 500 response names the error that caused it: distinct errors give distinct messages. */
  lemma UnknownErrorIdentifiesError(e1: TypeError, e2: TypeError)
    requires UnknownError(e1) == UnknownError(e2)
    ensures e1 == e2
  {
    var m1, m2 := TypeErrorMessage(e1), TypeErrorMessage(e2);
    assert UnknownError(e1).errorMessage[|UnknownErrorPrefix|..] == m1;
    assert UnknownError(e2).errorMessage[|UnknownErrorPrefix|..] == m2;
  }

  /** `const { period = '' } = event`: the default applies only to a missing property. */
  function PeriodText(period: JsValue): (p: string)
    requires period.Undefined? || period.Str?
    ensures period.Str? ==> p == period.s
    ensures period.Undefined? ==> p == ""
  {
    if period.Str? then period.s else ""
  }

  // ---------------------------------------------------------------------------
  // Cost

  /** The request `getCost` sends: monthly blended cost over the period's range. */
  function CostQueryFor(p: string, today: Date): (q: CostQuery)
    requires Valid(today)
    ensures ValidRange(q.timePeriod)
    ensures q.timePeriod == CostRange(CostPeriodOf(p), today)
    ensures q.granularity == "MONTHLY" && q.metrics == ["BLENDED_COST"]
  {
    CostQuery("MONTHLY", CostRange(CostPeriodOf(p), today), ["BLENDED_COST"])
  }

  /** `getCost`, given the event's `period` property. */
  function GetCost(period: JsValue, today: Date, service: CostService): (r: Response)
    requires Valid(today)
    ensures r.CostReport? <==> period.Undefined? || period.Str?
    ensures !r.CostReport? ==> r == Failure(400, InvalidPeriod)
    ensures r.CostReport? ==> r.unit == Unit && WholeCents(r.total)
    ensures r.CostReport? ==>
              r.total == CostTotal(service(CostQueryFor(PeriodText(period), today)))
  {
    if !(period.Undefined? || period.Str?) then Failure(400, InvalidPeriod)
    else
      var results := service(CostQueryFor(PeriodText(period), today));
      CostReport(CostTotal(results), Unit)
  }

  // ---------------------------------------------------------------------------
  // Forecast

  /** The request `getCostForecast` sends: monthly blended cost, 80% prediction interval. */
  function ForecastQueryFor(p: string, today: Date): (q: ForecastQuery)
    requires Valid(today)
    ensures ValidRange(q.timePeriod) && DayNumber(q.timePeriod.start) == DayNumber(today) + 1
    ensures q.timePeriod == ForecastRange(ForecastPeriodOf(p), today)
    ensures q.granularity == "MONTHLY" && q.metric == "BLENDED_COST" && q.predictionIntervalLevel == 80
  {
    ForecastQuery("MONTHLY", ForecastRange(ForecastPeriodOf(p), today), "BLENDED_COST", 80)
  }

  /** `getCostForecast`, given the event's `period` property. */
  function GetCostForecast(period: JsValue, today: Date, service: ForecastService): (r: Response)
    requires Valid(today)
    ensures r.ForecastReport? <==> period.Undefined? || period.Str?
    ensures !r.ForecastReport? ==> r == Failure(400, InvalidPeriod)
    ensures r.ForecastReport? ==>
              && r.unit == Unit
              && WholeCents(r.mean) && WholeCents(r.lowerBound) && WholeCents(r.upperBound)
    ensures r.ForecastReport? ==>
              ForecastTotals(r.mean, r.lowerBound, r.upperBound)
              == ForecastSummary(service(ForecastQueryFor(PeriodText(period), today)))
    ensures r.ForecastReport? && Ordered(service(ForecastQueryFor(PeriodText(period), today))) ==>
              r.lowerBound <= r.mean <= r.upperBound
  {
    if !(period.Undefined? || period.Str?) then Failure(400, InvalidPeriod)
    else
      var totals := ForecastSummary(service(ForecastQueryFor(PeriodText(period), today)));
      ForecastReport(totals.mean, totals.lowerBound, totals.upperBound, Unit)
  }

  // ---------------------------------------------------------------------------
  // Dispatch

  /** `handler`: validate the action and route to the matching operation. */
  function Handle(event: JsValue, today: Date, costs: CostService, forecasts: ForecastService): (r: Response)
    requires Valid(today)
    ensures event.Undefined? || event.Null? ==> r == UnknownError(EventNotDestructurable(event.Null?))
    ensures !event.Undefined? && !event.Null? && !Truthy(Get(event, "action")) ==>
              r == Failure(400, MissingAction)
    ensures Truthy(Get(event, "action")) && !Get(event, "action").Str? ==> r == UnknownError(ActionNotAString)
    ensures r.Failure? ==> r.errorCode == 400 || r.errorCode == 500
  {
    if event.Undefined? || event.Null? then UnknownError(EventNotDestructurable(event.Null?))
    else
      var action := Get(event, "action");
      if !Truthy(action) then Failure(400, MissingAction)
      else if !action.Str? then UnknownError(ActionNotAString)
      else if LowerCase(action.s) == "cost" then GetCost(Get(event, "period"), today, costs)
      else if LowerCase(action.s) == "forecast" then GetCostForecast(Get(event, "period"), today, forecasts)
      else Failure(400, InvalidAction)
  }

  // ---------------------------------------------------------------------------
  // Properties

  /** An event object whose `action` property is the string `a`. */
  function WithAction(props: map<string, JsValue>, a: string): JsValue {
    Obj(props["action" := Str(a)])
  }

  /** A string action that lower-cases to `cost` runs `getCost` on the event's period. */
  lemma HandleRoutesCost(event: JsValue, a: string, today: Date, costs: CostService, forecasts: ForecastService)
    requires Valid(today) && Get(event, "action") == Str(a) && |a| > 0 && LowerCase(a) == "cost"
    ensures Handle(event, today, costs, forecasts) == GetCost(Get(event, "period"), today, costs)
  {
  }

  /** A string action that lower-cases to `forecast` runs `getCostForecast` on the event's period. */
  lemma HandleRoutesForecast(event: JsValue, a: string, today: Date, costs: CostService, forecasts: ForecastService)
    requires Valid(today) && Get(event, "action") == Str(a) && |a| > 0 && LowerCase(a) == "forecast"
    ensures Handle(event, today, costs, forecasts) == GetCostForecast(Get(event, "period"), today, forecasts)
  {
  }

  /** A non-empty string action is reported invalid exactly when it lower-cases to neither name. */
  lemma HandleRejectsOtherActions(event: JsValue, a: string, today: Date, costs: CostService, forecasts: ForecastService)
    requires Valid(today) && Get(event, "action") == Str(a) && |a| > 0
    ensures Handle(event, today, costs, forecasts) == Failure(400, InvalidAction)
        <==> LowerCase(a) != "cost" && LowerCase(a) != "forecast"
  {
    if LowerCase(a) == "cost" || LowerCase(a) == "forecast" {
      MatchedActionIsNotInvalid(event, a, today, costs, forecasts);
    } else {
      UnmatchedActionIsInvalid(event, a, today, costs, forecasts);
    }
  }

  /** A string action that names neither operation is an invalid action. */
  lemma UnmatchedActionIsInvalid(event: JsValue, a: string, today: Date, costs: CostService, forecasts: ForecastService)
    requires Valid(today) && Get(event, "action") == Str(a) && |a| > 0
    requires LowerCase(a) != "cost" && LowerCase(a) != "forecast"
    ensures Handle(event, today, costs, forecasts) == Failure(400, InvalidAction)
  {
  }

  /** A string action that names an operation is never reported as an invalid action. */
  lemma MatchedActionIsNotInvalid(event: JsValue, a: string, today: Date, costs: CostService, forecasts: ForecastService)
    requires Valid(today) && Get(event, "action") == Str(a) && |a| > 0
    requires LowerCase(a) == "cost" || LowerCase(a) == "forecast"
    ensures Handle(event, today, costs, forecasts) != Failure(400, InvalidAction)
  {
    PeriodMessagesDiffer();
  }

  lemma PeriodMessagesDiffer()
    ensures InvalidPeriod != InvalidAction
  {
    assert InvalidPeriod[8] != InvalidAction[8];
  }

  /** Actions are matched without regard to ASCII letter case. */
  lemma HandleIgnoresActionCase(props: map<string, JsValue>, a: string, b: string,
                                today: Date, costs: CostService, forecasts: ForecastService)
    requires Valid(today) && SameUpToAsciiCase(a, b)
    ensures Handle(WithAction(props, a), today, costs, forecasts)
         == Handle(WithAction(props, b), today, costs, forecasts)
  {
    LowerCaseIgnoresCase(a, b);
    assert Get(WithAction(props, a), "action") == Str(a);
    assert Get(WithAction(props, b), "action") == Str(b);
    assert Get(WithAction(props, a), "period") == Get(WithAction(props, b), "period");
  }

  /** A 500 arises exactly from the handler's own type errors, never from billing data. */
  lemma ServerErrorOnlyFromTypeErrors(event: JsValue, today: Date, costs: CostService, forecasts: ForecastService)
    requires Valid(today)
    ensures var r := Handle(event, today, costs, forecasts);
      r.Failure? && r.errorCode == 500
      <==> event.Undefined? || event.Null? || (Truthy(Get(event, "action")) && !Get(event, "action").Str?)
  {
  }

  /** Every failure is decided before the billing service is consulted: it is the same
      whatever the service would answer. */
  lemma FailuresIgnoreService(event: JsValue, today: Date,
                              c1: CostService, f1: ForecastService, c2: CostService, f2: ForecastService)
    requires Valid(today) && Handle(event, today, c1, f1).Failure?
    ensures Handle(event, today, c2, f2) == Handle(event, today, c1, f1)
  {
  }

  /** A present but non-string period is rejected by either operation. */
  lemma NonStringPeriodRejected(period: JsValue, today: Date, costs: CostService, forecasts: ForecastService)
    requires Valid(today) && !period.Undefined? && !period.Str?
    ensures GetCost(period, today, costs) == Failure(400, InvalidPeriod)
    ensures GetCostForecast(period, today, forecasts) == Failure(400, InvalidPeriod)
  {
  }

  /** A missing period resolves like the empty string, and both like `LASTMONTH` for cost. */
  lemma MissingPeriodIsLastMonth(today: Date, costs: CostService)
    requires Valid(today)
    ensures GetCost(Undefined, today, costs) == GetCost(Str(""), today, costs)
    ensures GetCost(Undefined, today, costs) == GetCost(Str("LASTMONTH"), today, costs)
  {
    CostKeywordRoundTrip(LastMonth);
    assert CostPeriodOf("") == LastMonth;
  }

  /** A missing period resolves like the empty string, and both like `MONTH` for the forecast. */
  lemma MissingPeriodIsMonth(today: Date, forecasts: ForecastService)
    requires Valid(today)
    ensures GetCostForecast(Undefined, today, forecasts) == GetCostForecast(Str(""), today, forecasts)
    ensures GetCostForecast(Undefined, today, forecasts) == GetCostForecast(Str("MONTH"), today, forecasts)
  {
    ForecastKeywordRoundTrip(NextMonth);
    assert ForecastPeriodOf("") == NextMonth;
  }

  /** An event without an action is rejected as missing one. */
  lemma MissingActionExample(today: Date, costs: CostService, forecasts: ForecastService)
    requires Valid(today)
    ensures Handle(Obj(map[]), today, costs, forecasts) == Failure(400, "Missing action")
  {
  }

  /** An unknown string action is rejected as invalid. */
  lemma InvalidActionExample(today: Date, costs: CostService, forecasts: ForecastService)
    requires Valid(today)
    ensures Handle(WithAction(map[], "bogus"), today, costs, forecasts) == Failure(400, "Invalid action")
  {
    assert Get(WithAction(map[], "bogus"), "action") == Str("bogus");
    assert |LowerCase("bogus")| == 5;
  }

  /** A truthy action that is not a string makes `toLowerCase` throw; the `catch` turns that into a 500. */
  lemma NonStringActionExample(today: Date, costs: CostService, forecasts: ForecastService)
    requires Valid(today)
    ensures Handle(Obj(map["action" := Num(1.0)]), today, costs, forecasts)
         == Failure(500, "Unknown error: " + "action.toLowerCase is not a function")
  {
  }

  /** `COST` in upper case with no period reports last month's truncated total. */
  lemma CostWithoutPeriodExample(today: Date, costs: CostService, forecasts: ForecastService)
    requires Valid(today)
    ensures var r := Handle(WithAction(map[], "COST"), today, costs, forecasts);
      && r.CostReport? && r.unit == "USD"
      && r.total == CostTotal(costs(CostQuery("MONTHLY", CostRange(LastMonth, today), ["BLENDED_COST"])))
  {
    var e := WithAction(map[], "COST");
    assert Get(e, "period") == Undefined;
    LowerCaseOfAscii("COST", "cost");
    assert Get(e, "action") == Str("COST");
    HandleRoutesCost(e, "COST", today, costs, forecasts);
    assert UpperCase("") == "";
  }

  /** `forecast` for the `year` period asks for tomorrow up to the same day next year. */
  lemma ForecastYearExample(props: map<string, JsValue>, today: Date)
    requires Valid(today) && "period" in props && props["period"] == Str("year")
    ensures var q := ForecastQueryFor(Get(Obj(props), "period").s, today);
      q.timePeriod == DateRange(AddDays(today, 1), AddYears(today, 1))
  {
    assert UpperCase("year") == "YEAR" by {
      assert "year"[1..] == "ear";
      assert "ear"[1..] == "ar";
      assert "ar"[1..] == "r";
      assert "r"[1..] == "";
    }
  }
}
