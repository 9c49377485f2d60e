/**
 * The request guards of backend/controllers/optimizationController.js and the replies built
 * from what the services settle with. Each guard is a chain of early returns; the first failing
 * check decides the message.
 */
module OptimizationController {
  import opened Wrappers
  import opened JsValues
  import opened Helpers
  import opened Planner
  import opened OptimizationService
  import opened Persistence

  // ---------------------------------------------------------------------------
  // generateSchedule
  // ---------------------------------------------------------------------------

  /** `config.optimization.maxDailyDistance`, which is `parseInt(process.env.MAX_DAILY_DISTANCE) || 600`;
      `env` is the variable, `None` when it is not set. */
  function ConfigMaxDailyDistance(env: Option<string>): (v: JsValue)
    ensures Truthy(Num(ParseIntParam(env))) ==> v == Num(ParseIntParam(env))
    ensures !Truthy(Num(ParseIntParam(env))) ==> v == Int(600)
    ensures Truthy(v)
  {
    Or(Num(ParseIntParam(env)), Int(600))
  }

  /** `max_daily_distance = config.optimization.maxDailyDistance` in the destructuring: the
      default replaces only an undefined value. */
  function MaxDailyDistanceOf(body: map<string, JsValue>, env: Option<string>): (v: JsValue)
    ensures Get(body, "max_daily_distance").Undefined? ==> v == ConfigMaxDailyDistance(env)
    ensures !Get(body, "max_daily_distance").Undefined? ==> v == Get(body, "max_daily_distance")
  {
    var v := Get(body, "max_daily_distance");
    if v.Undefined? then ConfigMaxDailyDistance(env) else v
  }

  predicate WeekInRange(week: JsValue)
  {
    !Less(week, 1.0) && !Greater(week, 53.0)
  }

  predicate YearInRange(year: JsValue, currentYear: int)
  {
    !Less(year, (currentYear - 1) as real) && !Greater(year, (currentYear + 1) as real)
  }

  predicate DistanceInRange(max: JsValue)
  {
    !LessEq(max, 0.0) && !Greater(max, 2000.0)
  }

  /** The three checks of `generateSchedule`, in order: the week, then the year against the
      clock's `currentYear`, then the distance budget. `None` lets the request through. */
  function GenerateScheduleGuard(body: map<string, JsValue>, currentYear: int, env: Option<string>): (r: Option<string>)
    ensures r.None? <==>
      WeekInRange(Get(body, "week_number")) && YearInRange(Get(body, "year"), currentYear)
      && DistanceInRange(MaxDailyDistanceOf(body, env))
    ensures !WeekInRange(Get(body, "week_number")) ==> r == Some("Week number must be between 1 and 53")
    ensures WeekInRange(Get(body, "week_number")) && !YearInRange(Get(body, "year"), currentYear) ==>
      r == Some("Year must be within reasonable range")
    ensures (WeekInRange(Get(body, "week_number")) && YearInRange(Get(body, "year"), currentYear)
             && !DistanceInRange(MaxDailyDistanceOf(body, env))) ==>
      r == Some("Max daily distance must be between 1 and 2000 km")
  {
    var week := Get(body, "week_number");
    var year := Get(body, "year");
    var max := MaxDailyDistanceOf(body, env);
    if Less(week, 1.0) || Greater(week, 53.0) then Some("Week number must be between 1 and 53")
    else if Less(year, (currentYear - 1) as real) || Greater(year, (currentYear + 1) as real) then
      Some("Year must be within reasonable range")
    else if LessEq(max, 0.0) || Greater(max, 2000.0) then Some("Max daily distance must be between 1 and 2000 km")
    else None
  }

  /** On whole numbers the guard is the three integer ranges: a week in 1..53, a year within one
      of the current year, and a budget in 1..2000 km. */
  lemma GuardOnIntegers(body: map<string, JsValue>, currentYear: int, env: Option<string>, w: int, y: int, m: int)
    requires Get(body, "week_number") == Int(w) && Get(body, "year") == Int(y) && Get(body, "max_daily_distance") == Int(m)
    ensures GenerateScheduleGuard(body, currentYear, env).None? <==>
      1 <= w <= 53 && currentYear - 1 <= y <= currentYear + 1 && 1 <= m <= 2000
  {
  }

  /** Comparisons with NaN are false, so a missing week or year, or one that does not convert to
      a number, passes every check; the default budget passes when the configured one is in range. */
  lemma MissingParametersPass(body: map<string, JsValue>, currentYear: int, env: Option<string>)
    requires IsNaN(Get(body, "week_number")) && IsNaN(Get(body, "year"))
    requires Get(body, "max_daily_distance").Undefined? && DistanceInRange(ConfigMaxDailyDistance(env))
    ensures GenerateScheduleGuard(body, currentYear, env) == None
  {
  }

  /** With `MAX_DAILY_DISTANCE` unset the budget defaults to 600 km. */
  lemma DefaultBudget(body: map<string, JsValue>)
    requires Get(body, "max_daily_distance").Undefined?
    ensures MaxDailyDistanceOf(body, None) == Int(600)
    ensures DistanceInRange(MaxDailyDistanceOf(body, None))
  {
  }

  /** The data of a successful `generateSchedule` reply. */
  datatype GenerateData = GenerateData(optimizationRunId: Option<int>, schedule: seq<Entry>, summary: Summary)

  /** The reply of `generateSchedule`. The service is called only once the guard has passed;
      `service` is how it settles (module Persistence models it), and a rejection is answered
      with status 500 and the error's message. */
  function GenerateScheduleReply(body: map<string, JsValue>, currentYear: int, env: Option<string>,
                                 service: Generated): (r: Reply<GenerateData>)
    ensures GenerateScheduleGuard(body, currentYear, env).Some? ==>
      r == Fail(400, GenerateScheduleGuard(body, currentYear, env).value)
    ensures GenerateScheduleGuard(body, currentYear, env).None? && service.Rejected? ==> r == Fail(500, service.message)
    ensures r.Success? <==> GenerateScheduleGuard(body, currentYear, env).None? && service.Resolved?
    ensures r.Success? ==>
      && r.status == 200 && r.message == Some("Schedule generated successfully")
      && r.data == GenerateData(service.runId, service.result.schedule, service.result.summary)
  {
    match GenerateScheduleGuard(body, currentYear, env)
    case Some(error) => Fail(400, error)
    case None =>
      match service
      case Rejected(message) => Fail(500, message)
      case Resolved(result, runId) =>
        Success(200, GenerateData(runId, result.schedule, result.summary), Some("Schedule generated successfully"))
  }

  // ---------------------------------------------------------------------------
  // getOptimizationRuns
  // ---------------------------------------------------------------------------

  /** `parseInt(req.query.limit) || 50`. */
  function RunsLimit(limit: Option<string>): (v: JsValue)
    ensures Truthy(v)
    ensures Truthy(Num(ParseIntParam(limit))) ==> v == Num(ParseIntParam(limit))
    ensures !Truthy(Num(ParseIntParam(limit))) ==> v == Int(50)
  {
    Or(Num(ParseIntParam(limit)), Int(50))
  }

  /** The reply of `getOptimizationRuns`: a limit above 100 is refused before the query; `runs`
      is the query's result, `None` when it fails. */
  function GetOptimizationRunsReply<T>(limit: Option<string>, runs: Option<seq<T>>): (r: Reply<seq<T>>)
    ensures Greater(RunsLimit(limit), 100.0) ==> r == Fail(400, "Limit cannot exceed 100")
    ensures !Greater(RunsLimit(limit), 100.0) && runs.None? ==> r == Fail(500, "Failed to fetch optimization runs")
    ensures r.Success? <==> !Greater(RunsLimit(limit), 100.0) && runs.Some?
    ensures r.Success? ==> r == Success(200, runs.value, None)
  {
    if Greater(RunsLimit(limit), 100.0) then Fail(400, "Limit cannot exceed 100")
    else match runs
      case None => Fail(500, "Failed to fetch optimization runs")
      case Some(rows) => Success(200, rows, None)
  }

  /** An absent, empty, zero or non-numeric limit means 50, which is accepted; `"150"` is
      refused; `"0x20"` is read as hexadecimal 32. */
  lemma RunsLimitDefaults(limit: Option<string>)
    requires !Truthy(Num(ParseIntParam(limit)))
    ensures RunsLimit(limit) == Int(50) && !Greater(RunsLimit(limit), 100.0)
  {
  }

  // ---------------------------------------------------------------------------
  // getSchedules
  // ---------------------------------------------------------------------------

  /** The checks of `getSchedules` on the path parameters `week` and `year`, after `parseInt`. */
  function GetSchedulesGuard(week: string, year: string): (r: Option<string>)
    ensures r.None? <==> ParseInt(week).Finite? && 1.0 <= ParseInt(week).value <= 53.0 && ParseInt(year).Finite?
    ensures !(ParseInt(week).Finite? && 1.0 <= ParseInt(week).value <= 53.0) ==> r == Some("Invalid week number")
    ensures ParseInt(week).Finite? && 1.0 <= ParseInt(week).value <= 53.0 && !ParseInt(year).Finite? ==>
      r == Some("Invalid year")
  {
    var weekNumber := ParseInt(week);
    var yearNumber := ParseInt(year);
    if weekNumber == NaN || NumLess(weekNumber, 1.0) || NumGreater(weekNumber, 53.0) then Some("Invalid week number")
    else if yearNumber == NaN then Some("Invalid year")
    else None
  }

  /** `warehouse_id ? parseInt(warehouse_id) : null` on the query string's value. */
  function WarehouseIdParam(warehouseId: Option<string>): (v: JsValue)
    ensures warehouseId.None? || warehouseId == Some("") ==> v == Null
    ensures warehouseId.Some? && warehouseId.value != "" ==> v == Num(ParseInt(warehouseId.value))
  {
    if warehouseId.Some? && warehouseId.value != "" then Num(ParseInt(warehouseId.value)) else Null
  }

  /** The reply of `getSchedules`; `schedules` is the query's result, `None` when it fails. */
  function GetSchedulesReply<T>(week: string, year: string, schedules: Option<seq<T>>): (r: Reply<seq<T>>)
    ensures GetSchedulesGuard(week, year).Some? ==> r == Fail(400, GetSchedulesGuard(week, year).value)
    ensures GetSchedulesGuard(week, year).None? && schedules.None? ==> r == Fail(500, "Failed to fetch schedules")
    ensures r.Success? <==> GetSchedulesGuard(week, year).None? && schedules.Some?
    ensures r.Success? ==> r == Success(200, schedules.value, None)
  {
    match GetSchedulesGuard(week, year)
    case Some(error) => Fail(400, error)
    case None =>
      match schedules
      case None => Fail(500, "Failed to fetch schedules")
      case Some(rows) => Success(200, rows, None)
  }
}
