/**
 * The database side of a planning run: the `optimization_runs` and `delivery_schedules` tables
 * as fields of a `Database` object, the three statements a save issues (run insert, delete of the
 * week, bulk insert), and the control flow of `generateSchedule` and `_saveScheduleToDatabase`
 * in backend/services/optimizationService.js. Which statement fails is a parameter.
 */
module Persistence {
  import opened Wrappers
  import opened JsValues
  import opened Planner
  import opened OptimizationService

  /** A row of `optimization_runs`; `status` is always 'completed' and `created_by_user_id` 1. */
  datatype RunRecord = RunRecord(
    weekNumber: int,
    year: int,
    parameters: Parameters,
    totalDistanceKm: real,
    storesServed: nat,
    executionTimeSeconds: real,
    status: string,
    createdByUserId: int)

  /** Which of the save's statements fail. */
  datatype Faults = Faults(runInsert: bool, clear: bool, insert: bool)

  /** `WHERE column = ?` on a numeric column: MySQL compares numerically, and NULL matches nothing. */
  predicate SqlEquals(column: JsValue, param: JsValue)
  {
    && !column.Null? && !column.Undefined? && !param.Null? && !param.Undefined?
    && ToNumber(column).Finite? && ToNumber(column) == ToNumber(param)
  }

  /** `WHERE week_number = ? AND year = ? AND warehouse_id = ?`. */
  predicate InWeek(e: Entry, weekNumber: int, year: int, warehouseId: JsValue)
  {
    e.weekNumber == weekNumber && e.year == year && SqlEquals(e.warehouseId, warehouseId)
  }

  /** The rows a `DELETE ... WHERE week_number = ? AND year = ? AND warehouse_id = ?` keeps. */
  function Remove(rows: seq<Entry>, weekNumber: int, year: int, warehouseId: JsValue): (r: seq<Entry>)
    ensures |r| <= |rows|
    ensures forall i :: 0 <= i < |r| ==> r[i] in rows && !InWeek(r[i], weekNumber, year, warehouseId)
    ensures forall e :: e in rows && !InWeek(e, weekNumber, year, warehouseId) ==> e in r
  {
    if rows == [] then []
    else
      var last := rows[|rows| - 1];
      Remove(rows[..|rows| - 1], weekNumber, year, warehouseId)
        + (if InWeek(last, weekNumber, year, warehouseId) then [] else [last])
  }

  /** The rows of one week and warehouse, in table order. */
  function Select(rows: seq<Entry>, weekNumber: int, year: int, warehouseId: JsValue): (r: seq<Entry>)
    ensures |r| <= |rows|
    ensures forall i :: 0 <= i < |r| ==> r[i] in rows && InWeek(r[i], weekNumber, year, warehouseId)
    ensures forall e :: e in rows && InWeek(e, weekNumber, year, warehouseId) ==> e in r
  {
    if rows == [] then []
    else
      var last := rows[|rows| - 1];
      Select(rows[..|rows| - 1], weekNumber, year, warehouseId)
        + (if InWeek(last, weekNumber, year, warehouseId) then [last] else [])
  }

  class Database {
    var runs: seq<RunRecord>
    var schedules: seq<Entry>
    /** The next AUTO_INCREMENT id of `optimization_runs`. */
    var nextRunId: int

    constructor ()
      ensures runs == [] && schedules == [] && nextRunId == 1
    {
      runs := [];
      schedules := [];
      nextRunId := 1;
    }

    /** `INSERT INTO optimization_runs ...`: the callback's `optimizationResult` is absent on failure. */
    method InsertRun(r: RunRecord, fail: bool) returns (insertId: Option<int>)
      modifies this
      ensures fail ==> insertId == None && runs == old(runs) && nextRunId == old(nextRunId)
      ensures !fail ==> insertId == Some(old(nextRunId)) && runs == old(runs) + [r] && nextRunId == old(nextRunId) + 1
      ensures schedules == old(schedules)
    {
      if fail {
        insertId := None;
      } else {
        insertId := Some(nextRunId);
        runs := runs + [r];
        nextRunId := nextRunId + 1;
      }
    }

    /** `DELETE FROM delivery_schedules WHERE week_number = ? AND year = ? AND warehouse_id = ?`. */
    method ClearWeek(weekNumber: int, year: int, warehouseId: JsValue, fail: bool)
      modifies this
      ensures schedules == (if fail then old(schedules) else Remove(old(schedules), weekNumber, year, warehouseId))
      ensures runs == old(runs) && nextRunId == old(nextRunId)
    {
      if !fail {
        schedules := Remove(schedules, weekNumber, year, warehouseId);
      }
    }

    /** The bulk `INSERT INTO delivery_schedules ... VALUES ?`, one statement: all rows or none. */
    method InsertSchedules(es: seq<Entry>, fail: bool)
      modifies this
      ensures schedules == (if fail then old(schedules) else old(schedules) + es)
      ensures runs == old(runs) && nextRunId == old(nextRunId)
    {
      if !fail {
        schedules := schedules + es;
      }
    }
  }

  /** The `delivery_schedules` table after a save of `schedule`: nothing happens for an empty
      schedule; otherwise the delete and the insert each take effect unless they fail. */
  function SavedSchedules(rows: seq<Entry>, schedule: seq<Entry>, weekNumber: int, year: int, warehouseId: JsValue,
                          faults: Faults): seq<Entry>
  {
    if schedule == [] then rows
    else
      var cleared := if faults.clear then rows else Remove(rows, weekNumber, year, warehouseId);
      if faults.insert then cleared else cleared + schedule
  }

  /** The run row `_saveScheduleToDatabase` inserts: the rounded total from the summary. */
  function ServiceRun(result: OptimizationResult, weekNumber: int, year: int): RunRecord
  {
    RunRecord(weekNumber, year, result.parameters, result.summary.totalDistanceKm, result.summary.storesServed,
              result.summary.executionTimeSeconds, "completed", 1)
  }

  /** `_saveScheduleToDatabase(result, warehouseId, weekNumber, year)`. A failed run insert is only
      logged and leaves `optimization_run_id` null; an empty schedule resolves at once; a failed
      delete is only logged; only a failed insert rejects, with "Failed to save schedules". */
  method SaveSchedule(db: Database, result: OptimizationResult, warehouseId: JsValue, weekNumber: int, year: int,
                      faults: Faults)
    returns (runId: Option<int>, rejection: Option<string>)
    modifies db
    ensures runId == (if faults.runInsert then None else Some(old(db.nextRunId)))
    ensures db.runs == old(db.runs) + (if faults.runInsert then [] else [ServiceRun(result, weekNumber, year)])
    ensures db.schedules == SavedSchedules(old(db.schedules), result.schedule, weekNumber, year, warehouseId, faults)
    ensures rejection == (if result.schedule != [] && faults.insert then Some("Failed to save schedules") else None)
  {
    runId := db.InsertRun(ServiceRun(result, weekNumber, year), faults.runInsert);
    rejection := None;
    if |result.schedule| == 0 {
      return;
    }
    db.ClearWeek(weekNumber, year, warehouseId, faults.clear);
    db.InsertSchedules(result.schedule, faults.insert);
    if faults.insert {
      rejection := Some("Failed to save schedules");
    }
  }

  /** How `generateSchedule` settles: the result with its `optimization_run_id`, or a rejection. */
  datatype Generated = Resolved(result: OptimizationResult, runId: Option<int>) | Rejected(message: string)

  /** The parameter default `maxDailyDistance = 600`: it replaces only an absent (undefined)
      argument, so `null`, `0` or a string are passed on as they are. */
  function ServiceBudget(maxDailyDistance: JsValue): (b: JsValue)
    ensures maxDailyDistance.Undefined? ==> b == Int(600)
    ensures !maxDailyDistance.Undefined? ==> b == maxDailyDistance
  {
    if maxDailyDistance.Undefined? then Int(600) else maxDailyDistance
  }

  /** `generateSchedule(warehouseId, weekNumber, year, maxDailyDistance)`. `stores` and
      `warehouses` are the two queries' results, `None` when the query fails. */
  method GenerateSchedule(db: Database, stores: Option<seq<StoreRow>>, warehouses: Option<seq<Warehouse>>,
                          warehouseId: JsValue, weekNumber: int, year: int, maxDailyDistance: JsValue,
                          haversine: (Point, Point) -> real, executionTime: real, round2: real -> real, faults: Faults)
    returns (outcome: Generated)
    modifies db
    ensures stores.None? ==> outcome == Rejected("Failed to fetch stores") && unchanged(db)
    ensures stores.Some? && (warehouses.None? || warehouses.value == []) ==>
      outcome == Rejected("Failed to fetch warehouse") && unchanged(db)
    ensures stores.Some? && warehouses.Some? && warehouses.value != [] ==>
      var result := OptimizationOf(stores.value, warehouses.value[0], weekNumber, year, ServiceBudget(maxDailyDistance),
                                   haversine, executionTime, round2);
      && db.runs == old(db.runs) + (if faults.runInsert then [] else [ServiceRun(result, weekNumber, year)])
      && db.schedules == SavedSchedules(old(db.schedules), result.schedule, weekNumber, year, warehouseId, faults)
      && outcome == (if result.schedule != [] && faults.insert then Rejected("Failed to save schedules")
                     else Resolved(result, if faults.runInsert then None else Some(old(db.nextRunId))))
  {
    if stores.None? {
      return Rejected("Failed to fetch stores");
    }
    if warehouses.None? || |warehouses.value| == 0 {
      return Rejected("Failed to fetch warehouse");
    }
    var warehouse := warehouses.value[0];
    var budget := if maxDailyDistance.Undefined? then Int(600) else maxDailyDistance;
    var result := OptimizeSchedule(stores.value, warehouse, weekNumber, year, budget,
                                   haversine, executionTime, round2);
    var runId, rejection := SaveSchedule(db, result, warehouseId, weekNumber, year, faults);
    if rejection.Some? {
      outcome := Rejected(rejection.value);
    } else {
      outcome := Resolved(result, runId);
    }
  }

  // ---------------------------------------------------------------------------
  // What a save does to the schedules table
  // ---------------------------------------------------------------------------

  lemma {:induction false} RemoveAppend(a: seq<Entry>, b: seq<Entry>, w: int, y: int, k: JsValue)
    ensures Remove(a + b, w, y, k) == Remove(a, w, y, k) + Remove(b, w, y, k)
    decreases |b|
  {
    if b == [] {
      assert a + b == a;
    } else {
      var prefix, last := b[..|b| - 1], b[|b| - 1];
      assert b == prefix + [last];
      assert a + b == (a + prefix) + [last];
      RemoveSnoc(a + prefix, last, w, y, k);
      RemoveSnoc(prefix, last, w, y, k);
      RemoveAppend(a, prefix, w, y, k);
      var sa, sp := Remove(a, w, y, k), Remove(prefix, w, y, k);
      var x := if !InWeek(last, w, y, k) then [last] else [];
      assert (sa + sp) + x == sa + (sp + x);
    }
  }

  lemma RemoveSnoc(rows: seq<Entry>, e: Entry, w: int, y: int, k: JsValue)
    ensures Remove(rows + [e], w, y, k) == Remove(rows, w, y, k) + (if !InWeek(e, w, y, k) then [e] else [])
  {
    assert (rows + [e])[..|rows|] == rows;
  }

  lemma {:induction false} SelectAppend(a: seq<Entry>, b: seq<Entry>, w: int, y: int, k: JsValue)
    ensures Select(a + b, w, y, k) == Select(a, w, y, k) + Select(b, w, y, k)
    decreases |b|
  {
    if b == [] {
      assert a + b == a;
    } else {
      var prefix, last := b[..|b| - 1], b[|b| - 1];
      assert b == prefix + [last];
      assert a + b == (a + prefix) + [last];
      SelectSnoc(a + prefix, last, w, y, k);
      SelectSnoc(prefix, last, w, y, k);
      SelectAppend(a, prefix, w, y, k);
      var sa, sp := Select(a, w, y, k), Select(prefix, w, y, k);
      var x := if InWeek(last, w, y, k) then [last] else [];
      assert (sa + sp) + x == sa + (sp + x);
    }
  }

  lemma SelectSnoc(rows: seq<Entry>, e: Entry, w: int, y: int, k: JsValue)
    ensures Select(rows + [e], w, y, k) == Select(rows, w, y, k) + (if InWeek(e, w, y, k) then [e] else [])
  {
    assert (rows + [e])[..|rows|] == rows;
  }

  /** Rows of the week are either all selected or all removed. */
  lemma {:induction false} WeekRows(rows: seq<Entry>, w: int, y: int, k: JsValue)
    requires forall i :: 0 <= i < |rows| ==> InWeek(rows[i], w, y, k)
    ensures Select(rows, w, y, k) == rows && Remove(rows, w, y, k) == []
  {
    if rows != [] {
      var prefix := rows[..|rows| - 1];
      var last := rows[|rows| - 1];
      assert rows == prefix + [last];
      assert forall i :: 0 <= i < |prefix| ==> InWeek(prefix[i], w, y, k) by {
        forall i | 0 <= i < |prefix| ensures InWeek(prefix[i], w, y, k) {
          assert prefix[i] == rows[i];
        }
      }
      WeekRows(prefix, w, y, k);
      assert InWeek(last, w, y, k);
    }
  }

  /** After a delete, no row of the week remains, and the other rows are untouched. */
  lemma {:induction false} RemoveSelect(rows: seq<Entry>, w: int, y: int, k: JsValue)
    ensures Select(Remove(rows, w, y, k), w, y, k) == []
    ensures Remove(Remove(rows, w, y, k), w, y, k) == Remove(rows, w, y, k)
  {
    if rows != [] {
      var prefix := rows[..|rows| - 1];
      var last := rows[|rows| - 1];
      RemoveSelect(prefix, w, y, k);
      RemoveAppend(Remove(prefix, w, y, k), if InWeek(last, w, y, k) then [] else [last], w, y, k);
      SelectAppend(Remove(prefix, w, y, k), if InWeek(last, w, y, k) then [] else [last], w, y, k);
      if !InWeek(last, w, y, k) {
        assert [last][..0] == [];
      }
    }
  }

  /** A save never touches the rows of other weeks and warehouses, whatever fails, as long as the
      new entries belong to the saved week. */
  lemma SaveKeepsOtherWeeks(rows: seq<Entry>, schedule: seq<Entry>, w: int, y: int, k: JsValue, faults: Faults)
    requires forall i :: 0 <= i < |schedule| ==> InWeek(schedule[i], w, y, k)
    ensures Remove(SavedSchedules(rows, schedule, w, y, k, faults), w, y, k) == Remove(rows, w, y, k)
  {
    if schedule != [] {
      WeekRows(schedule, w, y, k);
      RemoveSelect(rows, w, y, k);
      var cleared := if faults.clear then rows else Remove(rows, w, y, k);
      RemoveAppend(cleared, schedule, w, y, k);
    }
  }

  /** What the week holds after a save of a non-empty schedule: exactly the new entries when both
      statements succeed; the old and the new entries together when only the delete fails; the
      old entries when only the insert fails; and nothing at all when the delete succeeds but the
      insert fails, although the call then rejects. */
  lemma SavedWeek(rows: seq<Entry>, schedule: seq<Entry>, w: int, y: int, k: JsValue, faults: Faults)
    requires schedule != [] && forall i :: 0 <= i < |schedule| ==> InWeek(schedule[i], w, y, k)
    ensures var week := Select(SavedSchedules(rows, schedule, w, y, k, faults), w, y, k);
      && (!faults.clear && !faults.insert ==> week == schedule)
      && (faults.clear && !faults.insert ==> week == Select(rows, w, y, k) + schedule)
      && (faults.clear && faults.insert ==> week == Select(rows, w, y, k))
      && (!faults.clear && faults.insert ==> week == [])
  {
    WeekRows(schedule, w, y, k);
    RemoveSelect(rows, w, y, k);
    var cleared := if faults.clear then rows else Remove(rows, w, y, k);
    SelectAppend(cleared, schedule, w, y, k);
  }

  /** The warehouse row was fetched with `WHERE id = ?` on the request's `warehouseId`. Then every
      entry of the run belongs to the week the save clears, so the save leaves other weeks and
      warehouses alone, and on success the week holds exactly the new schedule. */
  lemma ServiceSaveReplacesWeek(rows: seq<Entry>, stores: seq<StoreRow>, warehouse: Warehouse, warehouseId: JsValue,
                                weekNumber: int, year: int, maxDailyDistance: JsValue, haversine: (Point, Point) -> real,
                                executionTime: real, round2: real -> real, faults: Faults)
    requires SqlEquals(Int(warehouse.id), warehouseId)
    ensures var schedule := OptimizationOf(stores, warehouse, weekNumber, year, maxDailyDistance, haversine, executionTime, round2).schedule;
      var saved := SavedSchedules(rows, schedule, weekNumber, year, warehouseId, faults);
      && Remove(saved, weekNumber, year, warehouseId) == Remove(rows, weekNumber, year, warehouseId)
      && (schedule != [] && !faults.clear && !faults.insert ==> Select(saved, weekNumber, year, warehouseId) == schedule)
  {
    var schedule := OptimizationOf(stores, warehouse, weekNumber, year, maxDailyDistance, haversine, executionTime, round2).schedule;
    ServiceEntries(stores, warehouse, weekNumber, year, maxDailyDistance, haversine, executionTime, round2);
    assert forall i :: 0 <= i < |schedule| ==> InWeek(schedule[i], weekNumber, year, warehouseId);
    SaveKeepsOtherWeeks(rows, schedule, weekNumber, year, warehouseId, faults);
    if schedule != [] {
      SavedWeek(rows, schedule, weekNumber, year, warehouseId, faults);
    }
  }
}
