/**
 * The `POST /api/generate-schedule` handler of backend/index.js, the older copy of the planner:
 * the same two passes, but every entry carries the request's `warehouse_id`, the run row stores
 * the unrounded total, and database failures after the queries are only logged.
 */
module Legacy {
  import opened Wrappers
  import opened JsValues
  import Calendar
  import opened Planner
  import opened PlannerProperties
  import opened OptimizationService
  import opened Persistence

  /** The JSON the handler answers with: an error status, or `success: true` with the run. */
  datatype GenerateResponse =
    | Failure(status: int, error: string)
    | Success(runId: Option<int>, schedule: seq<Entry>, summary: Summary)

  /** `const { warehouse_id, week_number, year, max_daily_distance = 600 } = req.body`: the
      default applies only when the property is absent or undefined. */
  function MaxDailyDistance(body: map<string, JsValue>): (v: JsValue)
    ensures Get(body, "max_daily_distance").Undefined? ==> v == Int(600)
    ensures !Get(body, "max_daily_distance").Undefined? ==> v == body["max_daily_distance"]
  {
    var v := Get(body, "max_daily_distance");
    if v.Undefined? then Int(600) else v
  }

  /** The guard `!warehouse_id || !week_number || !year`. */
  predicate HasRequiredFields(body: map<string, JsValue>)
  {
    Truthy(Get(body, "warehouse_id")) && Truthy(Get(body, "week_number")) && Truthy(Get(body, "year"))
  }

  /** The week and year, when given, convert to whole numbers, so that the week's dates exist. */
  predicate WholeWeekAndYear(body: map<string, JsValue>)
  {
    && (Truthy(Get(body, "week_number")) ==> IntegerOf(Get(body, "week_number")).Some?)
    && (Truthy(Get(body, "year")) ==> IntegerOf(Get(body, "year")).Some?)
  }

  /** The summary of an empty legacy schedule, written out as constants. */
  function EmptySummary(storesServed: nat, executionTime: real): (s: Summary)
    ensures s.totalDeliveries == 0 && s.totalDistanceKm == 0.0 && s.comeauDeliveries == 0 && s.comdetDeliveries == 0
    ensures |s.dailyDistances| == 7 && forall d :: 0 <= d < 7 ==> s.dailyDistances[d] == 0.0
  {
    Summary(0, 0.0, [0.0, 0.0, 0.0, 0.0, 0.0, 0.0, 0.0], executionTime, storesServed, 0, 0)
  }

  /** The legacy run's context: the entries carry the request's `warehouse_id`. */
  function LegacyContext(body: map<string, JsValue>, stores: seq<StoreRow>, warehouse: Warehouse,
                         haversine: (Point, Point) -> real): (ctx: Context)
    requires HasRequiredFields(body) && WholeWeekAndYear(body)
    ensures Covers(ctx, stores)
  {
    PlanContext(stores, Origin(warehouse), Get(body, "warehouse_id"), IntegerOf(Get(body, "week_number")).value,
                IntegerOf(Get(body, "year")).value, ToNumber(MaxDailyDistance(body)), haversine)
  }

  /** `app.post("/api/generate-schedule", ...)`. `stores` and `warehouses` are the two queries'
      results (`None` when a query fails); `executionTime` is the clock difference. */
  method GenerateScheduleHandler(db: Database, body: map<string, JsValue>, stores: Option<seq<StoreRow>>,
                                 warehouses: Option<seq<Warehouse>>, haversine: (Point, Point) -> real,
                                 executionTime: real, round2: real -> real, faults: Faults)
    returns (response: GenerateResponse)
    requires WholeWeekAndYear(body)
    modifies db
    ensures !HasRequiredFields(body) ==>
      response == Failure(400, "Missing required fields: warehouse_id, week_number, year") && unchanged(db)
    ensures HasRequiredFields(body) && stores.None? ==> response == Failure(500, "Failed to fetch stores") && unchanged(db)
    ensures HasRequiredFields(body) && stores.Some? && (warehouses.None? || warehouses.value == []) ==>
      response == Failure(500, "Failed to fetch warehouse") && unchanged(db)
    ensures HasRequiredFields(body) && stores.Some? && warehouses.Some? && warehouses.value != [] ==>
      var ctx := LegacyContext(body, stores.value, warehouses.value[0], haversine);
      var plan := Plan(ctx, stores.value);
      var runId := if faults.runInsert then None else Some(old(db.nextRunId));
      && db.runs == old(db.runs) + (if faults.runInsert then [] else [LegacyRun(body, stores.value, plan, executionTime)])
      && db.schedules == SavedSchedules(old(db.schedules), plan.entries, ctx.weekNumber, ctx.year,
                                        Get(body, "warehouse_id"), faults)
      && response == Success(runId, plan.entries,
                             if plan.entries == [] then EmptySummary(|stores.value|, executionTime)
                             else SummaryOf(stores.value, plan, executionTime, round2))
  {
    if !HasRequiredFields(body) {
      return Failure(400, "Missing required fields: warehouse_id, week_number, year");
    }
    if stores.None? {
      return Failure(500, "Failed to fetch stores");
    }
    if warehouses.None? || |warehouses.value| == 0 {
      return Failure(500, "Failed to fetch warehouse");
    }
    var warehouseId := Get(body, "warehouse_id");
    var weekNumber := IntegerOf(Get(body, "week_number")).value;
    var year := IntegerOf(Get(body, "year")).value;
    var maxDailyDistance := MaxDailyDistance(body);
    var rows := stores.value;
    var schedule, dailyDistances := RunPlanner(rows, Origin(warehouses.value[0]), warehouseId, weekNumber, year,
                                               ToNumber(maxDailyDistance), haversine);
    ghost var ctx := LegacyContext(body, rows, warehouses.value[0], haversine);
    ghost var plan := Plan(ctx, rows);
    assert schedule == plan.entries && dailyDistances == plan.slots;
    var totalDistance := Sum(dailyDistances);
    var parameters := Parameters(warehouseId, maxDailyDistance, |rows|, |OfType(rows, "COMEAU")|, |OfType(rows, "COMDET")|);
    var runId := db.InsertRun(RunRecord(weekNumber, year, parameters, totalDistance, |rows|, executionTime, "completed", 1),
                              faults.runInsert);
    if |schedule| > 0 {
      db.ClearWeek(weekNumber, year, warehouseId, faults.clear);
      db.InsertSchedules(schedule, faults.insert);
      var summary := Summary(
        |schedule|,
        round2(totalDistance),
        MapReals(round2, dailyDistances),
        executionTime,
        |rows|,
        CountOfType(schedule, rows, "COMEAU"),
        CountOfType(schedule, rows, "COMDET"));
      assert summary == SummaryOf(rows, plan, executionTime, round2);
      response := Success(runId, schedule, summary);
    } else {
      response := Success(runId, schedule, EmptySummary(|rows|, executionTime));
    }
  }

  /** The legacy run row: week and year as requested, the request's `warehouse_id` and
      `max_daily_distance` in the parameters, and the unrounded sum of the daily distances. */
  function LegacyRun(body: map<string, JsValue>, stores: seq<StoreRow>, plan: PlanState, executionTime: real): RunRecord
    requires HasRequiredFields(body) && WholeWeekAndYear(body)
  {
    RunRecord(IntegerOf(Get(body, "week_number")).value, IntegerOf(Get(body, "year")).value,
              Parameters(Get(body, "warehouse_id"), MaxDailyDistance(body), |stores|,
                         |OfType(stores, "COMEAU")|, |OfType(stores, "COMDET")|),
              Sum(plan.slots), |stores|, executionTime, "completed", 1)
  }

  /** Every legacy entry carries the request's `warehouse_id`, not the fetched warehouse's id. */
  lemma LegacyEntriesCarryRequestWarehouse(body: map<string, JsValue>, stores: seq<StoreRow>, warehouse: Warehouse,
                                           haversine: (Point, Point) -> real)
    requires HasRequiredFields(body) && WholeWeekAndYear(body)
    ensures var es := Plan(LegacyContext(body, stores, warehouse, haversine), stores).entries;
      forall i :: 0 <= i < |es| ==> es[i].warehouseId == Get(body, "warehouse_id")
  {
    var ctx := LegacyContext(body, stores, warehouse, haversine);
    PlanStamped(ctx, stores);
  }

  /** The legacy run row stores the sum of the undelayed entries' distances, unrounded. */
  lemma LegacyRunTotal(body: map<string, JsValue>, stores: seq<StoreRow>, warehouse: Warehouse,
                       haversine: (Point, Point) -> real, executionTime: real)
    requires HasRequiredFields(body) && WholeWeekAndYear(body)
    ensures var plan := Plan(LegacyContext(body, stores, warehouse, haversine), stores);
      LegacyRun(body, stores, plan, executionTime).totalDistanceKm == Committed(plan.entries)
  {
    PlanTotalIsCommitted(LegacyContext(body, stores, warehouse, haversine), stores);
  }

  /** The constant summary of an empty schedule is what the computed summary would be, as long as
      rounding keeps 0 at 0. */
  lemma EmptySummaryAgrees(ctx: Context, stores: seq<StoreRow>, executionTime: real, round2: real -> real)
    requires Covers(ctx, stores) && Plan(ctx, stores).entries == [] && round2(0.0) == 0.0
    ensures SummaryOf(stores, Plan(ctx, stores), executionTime, round2) == EmptySummary(|stores|, executionTime)
  {
    var plan := Plan(ctx, stores);
    EmptyPlanHasZeroSlots(ctx, stores);
    var s := SummaryOf(stores, plan, executionTime, round2);
    assert s.dailyDistances == [0.0, 0.0, 0.0, 0.0, 0.0, 0.0, 0.0];
  }
}
