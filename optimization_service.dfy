/**
 * `_optimizeSchedule` of backend/services/optimizationService.js as an imperative method: the
 * distance table, the seven-slot `dailyDistances` array updated in place, the schedule pushed
 * entry by entry, and the summary. The method is proved to compute `Planner.Plan`.
 */
module OptimizationService {
  import opened Wrappers
  import opened JsValues
  import Calendar
  import opened Planner
  import opened PlannerProperties

  /** A row of the warehouse query. */
  datatype Warehouse = Warehouse(id: int, lat: JsValue, lng: JsValue)

  /** GPS coordinates as stored, before any conversion. */
  datatype Point = Point(lat: JsValue, lng: JsValue)

  /** The point distances are measured from: `warehouse.gps_lat || 48.8566` and
      `warehouse.gps_lng || 2.3522`, so a falsy coordinate (null, 0, "") falls back to Paris. */
  function Origin(w: Warehouse): Point
  {
    Point(Or(w.lat, Num(Finite(48.8566))), Or(w.lng, Num(Finite(2.3522))))
  }

  /** A falsy warehouse coordinate, 0 included, is replaced by the default; a truthy one is kept. */
  lemma OriginFallback(w: Warehouse)
    ensures Origin(w).lat == (if Truthy(w.lat) then w.lat else Num(Finite(48.8566)))
    ensures Origin(w).lng == (if Truthy(w.lng) then w.lng else Num(Finite(2.3522)))
    ensures w.lat == Int(0) ==> Origin(w).lat == Num(Finite(48.8566))
    ensures w.lng == Int(0) ==> Origin(w).lng == Num(Finite(2.3522))
  {
  }

  function Location(s: StoreRow): Point
  {
    Point(s.lat, s.lng)
  }

  /** `storeDistances`, filled by `stores.forEach`: each store id maps to the distance of the last
      row with that id. `haversine` stands for `calculateDistance`. */
  function StoreDistances(stores: seq<StoreRow>, origin: Point, haversine: (Point, Point) -> real): (m: map<int, real>)
    ensures forall i :: 0 <= i < |stores| ==> stores[i].id in m
    ensures forall id :: id in m ==> exists i :: 0 <= i < |stores| && stores[i].id == id
  {
    if stores == [] then map[]
    else
      var last := stores[|stores| - 1];
      var m := StoreDistances(stores[..|stores| - 1], origin, haversine);
      assert forall i :: 0 <= i < |stores| - 1 ==> stores[..|stores| - 1][i] == stores[i];
      m[last.id := haversine(origin, Location(last))]
  }

  /** The distance recorded for a store id is that of the last row with that id. */
  lemma {:induction false} StoreDistanceIsLastRows(stores: seq<StoreRow>, origin: Point, haversine: (Point, Point) -> real, i: nat)
    requires i < |stores| && forall j :: i < j < |stores| ==> stores[j].id != stores[i].id
    ensures StoreDistances(stores, origin, haversine)[stores[i].id] == haversine(origin, Location(stores[i]))
  {
    if i < |stores| - 1 {
      var prefix := stores[..|stores| - 1];
      assert prefix[i] == stores[i];
      StoreDistanceIsLastRows(prefix, origin, haversine, i);
    }
  }

  /** The fixed inputs of a planning run whose entries carry `entryWarehouseId`. */
  function PlanContext(stores: seq<StoreRow>, origin: Point, entryWarehouseId: JsValue, weekNumber: int,
                       year: int, maxDaily: Number, haversine: (Point, Point) -> real): (ctx: Context)
    ensures Covers(ctx, stores)
  {
    Context(entryWarehouseId, weekNumber, year, Calendar.WeekMonday(year, weekNumber), maxDaily,
            StoreDistances(stores, origin, haversine))
  }

  // ---------------------------------------------------------------------------
  // The planner loops
  // ---------------------------------------------------------------------------

  /** `weekDates` of the context's week. */
  predicate WeekDatesOf(ctx: Context, weekDates: seq<int>)
  {
    |weekDates| == 7 && forall i :: 0 <= i < 7 ==> weekDates[i] == ctx.monday + i
  }

  /** One iteration of the COMDET `forEach`: the first-fit `for` loop, then the delayed fallback. */
  method PlaceComdet(ctx: Context, weekDates: seq<int>, daily: array<real>, schedule: seq<Entry>, row: StoreRow)
    returns (out: seq<Entry>)
    requires daily.Length == 7 && WeekDatesOf(ctx, weekDates) && row.id in ctx.distances
    modifies daily
    ensures PlanState(daily[..], out) == ComdetStep(ctx, PlanState(old(daily[..]), schedule), row)
  {
    ghost var slots0 := daily[..];
    var distance := ctx.distances[row.id];
    var scheduled := false;
    out := schedule;
    var day := 0;
    while day < 7 && !scheduled
      invariant 0 <= day <= 7
      invariant !scheduled ==> daily[..] == slots0 && out == schedule
      invariant !scheduled ==> FirstFitFrom(slots0, distance, ctx.maxDaily, day) == FirstFitFrom(slots0, distance, ctx.maxDaily, 0)
      invariant scheduled ==> 0 < day && FirstFitFrom(slots0, distance, ctx.maxDaily, 0) == Some(day - 1)
      invariant scheduled ==> PlanState(daily[..], out) == Commit(ctx, PlanState(slots0, schedule), row, day - 1)
    {
      if Fits(daily[day], distance, ctx.maxDaily) {
        out := out + [Entry(row.id, row.contractId, ctx.warehouseId, weekDates[day], day, 0, distance, ctx.weekNumber, ctx.year)];
        daily[day] := daily[day] + distance;
        PlacedIsCommit(ctx, weekDates, PlanState(slots0, schedule), row, day, daily[..], out);
        scheduled := true;
      }
      day := day + 1;
    }
    if !scheduled {
      var minDay := LeastLoaded(daily[..]);
      out := out + [Entry(row.id, row.contractId, ctx.warehouseId, weekDates[minDay], minDay, 1, distance, ctx.weekNumber, ctx.year)];
    }
  }

  /** One iteration of the COMEAU `forEach`: the `targetDays.forEach`, then the fill loop. */
  method PlaceComeau(ctx: Context, weekDates: seq<int>, daily: array<real>, schedule: seq<Entry>, row: StoreRow)
    returns (out: seq<Entry>)
    requires daily.Length == 7 && WeekDatesOf(ctx, weekDates) && row.id in ctx.distances
    modifies daily
    ensures PlanState(daily[..], out) == ComeauStep(ctx, PlanState(old(daily[..]), schedule), row)
  {
    ghost var st0 := PlanState(daily[..], schedule);
    var distance := ctx.distances[row.id];
    var deliveriesScheduled := 0;
    var targetDays := [0, 2, 4];
    assert targetDays == TargetDays();
    out := schedule;
    var k := 0;
    while k < 3
      invariant 0 <= k <= 3
      invariant TargetsFrom(ctx, PlanState(daily[..], out), row, k, deliveriesScheduled) == TargetsFrom(ctx, st0, row, 0, 0)
    {
      var day := targetDays[k];
      ghost var before := PlanState(daily[..], out);
      TargetsFromStep(ctx, before, row, k, deliveriesScheduled);
      if deliveriesScheduled < 3 && Fits(daily[day], distance, ctx.maxDaily) {
        out := out + [Entry(row.id, row.contractId, ctx.warehouseId, weekDates[day], day, 0, distance, ctx.weekNumber, ctx.year)];
        daily[day] := daily[day] + distance;
        PlacedIsCommit(ctx, weekDates, before, row, day, daily[..], out);
        deliveriesScheduled := deliveriesScheduled + 1;
      }
      k := k + 1;
    }
    ghost var t := TargetsFrom(ctx, st0, row, 0, 0);
    var day := 0;
    while day < 7 && deliveriesScheduled < 3
      invariant 0 <= day <= 7
      invariant FillFrom(ctx, PlanState(daily[..], out), row, day, deliveriesScheduled) == FillFrom(ctx, t.0, row, 0, t.1)
    {
      ghost var before := PlanState(daily[..], out);
      FillFromStep(ctx, before, row, day, deliveriesScheduled);
      if day !in targetDays && Fits(daily[day], distance, ctx.maxDaily) {
        out := out + [Entry(row.id, row.contractId, ctx.warehouseId, weekDates[day], day, 0, distance, ctx.weekNumber, ctx.year)];
        daily[day] := daily[day] + distance;
        PlacedIsCommit(ctx, weekDates, before, row, day, daily[..], out);
        deliveriesScheduled := deliveriesScheduled + 1;
      }
      day := day + 1;
    }
  }

  lemma TargetsFromStep(ctx: Context, st: PlanState, row: StoreRow, k: nat, placed: nat)
    requires Valid(st) && row.id in ctx.distances && k < 3
    ensures var day := TargetDays()[k];
      TargetsFrom(ctx, st, row, k, placed)
        == if placed < 3 && Fits(st.slots[day], Distance(ctx, row), ctx.maxDaily)
           then TargetsFrom(ctx, Commit(ctx, st, row, day), row, k + 1, placed + 1)
           else TargetsFrom(ctx, st, row, k + 1, placed)
  {
  }

  lemma FillFromStep(ctx: Context, st: PlanState, row: StoreRow, day: nat, placed: nat)
    requires Valid(st) && row.id in ctx.distances && day < 7 && placed < 3
    ensures FillFrom(ctx, st, row, day, placed)
        == if day !in TargetDays() && Fits(st.slots[day], Distance(ctx, row), ctx.maxDaily)
           then FillFrom(ctx, Commit(ctx, st, row, day), row, day + 1, placed + 1)
           else FillFrom(ctx, st, row, day + 1, placed)
  {
  }

  /** Adding the distance to the day's slot and appending the undelayed entry is `Commit`. */
  lemma PlacedIsCommit(ctx: Context, weekDates: seq<int>, before: PlanState, row: StoreRow, day: DayIndex,
                       slots: seq<real>, out: seq<Entry>)
    requires Valid(before) && WeekDatesOf(ctx, weekDates) && row.id in ctx.distances
    requires slots == before.slots[day := before.slots[day] + ctx.distances[row.id]]
    requires out == before.entries + [Entry(row.id, row.contractId, ctx.warehouseId, weekDates[day], day, 0,
                                            ctx.distances[row.id], ctx.weekNumber, ctx.year)]
    ensures PlanState(slots, out) == Commit(ctx, before, row, day)
  {
  }

  /** The `stores.forEach` that fills `storeDistances`. */
  method ComputeDistances(stores: seq<StoreRow>, origin: Point, haversine: (Point, Point) -> real)
    returns (storeDistances: map<int, real>)
    ensures storeDistances == StoreDistances(stores, origin, haversine)
  {
    storeDistances := map[];
    var i := 0;
    while i < |stores|
      invariant 0 <= i <= |stores|
      invariant storeDistances == StoreDistances(stores[..i], origin, haversine)
    {
      StoreDistancesSnoc(stores, i, origin, haversine);
      storeDistances := storeDistances[stores[i].id := haversine(origin, Location(stores[i]))];
      i := i + 1;
    }
    assert stores[..|stores|] == stores;
  }

  lemma StoreDistancesSnoc(stores: seq<StoreRow>, i: nat, origin: Point, haversine: (Point, Point) -> real)
    requires i < |stores|
    ensures StoreDistances(stores[..i + 1], origin, haversine)
         == StoreDistances(stores[..i], origin, haversine)[stores[i].id := haversine(origin, Location(stores[i]))]
  {
    assert stores[..i + 1][..i] == stores[..i];
  }

  /** The COMDET `forEach` over `rows`. */
  method ComdetLoop(ctx: Context, weekDates: seq<int>, daily: array<real>, schedule: seq<Entry>, rows: seq<StoreRow>)
    returns (out: seq<Entry>)
    requires daily.Length == 7 && WeekDatesOf(ctx, weekDates) && Covers(ctx, rows)
    modifies daily
    ensures PlanState(daily[..], out) == ComdetPass(ctx, PlanState(old(daily[..]), schedule), rows)
  {
    ghost var st0 := PlanState(daily[..], schedule);
    out := schedule;
    var k := 0;
    while k < |rows|
      invariant 0 <= k <= |rows|
      invariant PlanState(daily[..], out) == ComdetPass(ctx, st0, rows[..k])
    {
      ComdetPassSnoc(ctx, st0, rows, k);
      out := PlaceComdet(ctx, weekDates, daily, out, rows[k]);
      k := k + 1;
    }
    assert rows[..|rows|] == rows;
  }

  /** The COMEAU `forEach` over `rows`. */
  method ComeauLoop(ctx: Context, weekDates: seq<int>, daily: array<real>, schedule: seq<Entry>, rows: seq<StoreRow>)
    returns (out: seq<Entry>)
    requires daily.Length == 7 && WeekDatesOf(ctx, weekDates) && Covers(ctx, rows)
    modifies daily
    ensures PlanState(daily[..], out) == ComeauPass(ctx, PlanState(old(daily[..]), schedule), rows)
  {
    ghost var st0 := PlanState(daily[..], schedule);
    out := schedule;
    var k := 0;
    while k < |rows|
      invariant 0 <= k <= |rows|
      invariant PlanState(daily[..], out) == ComeauPass(ctx, st0, rows[..k])
    {
      ComeauPassSnoc(ctx, st0, rows, k);
      out := PlaceComeau(ctx, weekDates, daily, out, rows[k]);
      k := k + 1;
    }
    assert rows[..|rows|] == rows;
  }

  lemma ComdetPassSnoc(ctx: Context, st: PlanState, rows: seq<StoreRow>, k: nat)
    requires Valid(st) && Covers(ctx, rows) && k < |rows|
    ensures Covers(ctx, rows[..k]) && Covers(ctx, rows[..k + 1])
    ensures ComdetPass(ctx, st, rows[..k + 1]) == ComdetStep(ctx, ComdetPass(ctx, st, rows[..k]), rows[k])
  {
    assert rows[..k + 1][..k] == rows[..k];
  }

  lemma ComeauPassSnoc(ctx: Context, st: PlanState, rows: seq<StoreRow>, k: nat)
    requires Valid(st) && Covers(ctx, rows) && k < |rows|
    ensures Covers(ctx, rows[..k]) && Covers(ctx, rows[..k + 1])
    ensures ComeauPass(ctx, st, rows[..k + 1]) == ComeauStep(ctx, ComeauPass(ctx, st, rows[..k]), rows[k])
  {
    assert rows[..k + 1][..k] == rows[..k];
  }

  /** The planner proper: distances, week dates, the COMDET pass and the COMEAU pass. Returns the
      schedule and the final `dailyDistances`. */
  method RunPlanner(stores: seq<StoreRow>, origin: Point, entryWarehouseId: JsValue, weekNumber: int, year: int,
                    maxDaily: Number, haversine: (Point, Point) -> real)
    returns (schedule: seq<Entry>, slots: seq<real>)
    ensures var ctx := PlanContext(stores, origin, entryWarehouseId, weekNumber, year, maxDaily, haversine);
      PlanState(slots, schedule) == Plan(ctx, stores)
  {
    var storeDistances := ComputeDistances(stores, origin, haversine);
    var weekDates := Calendar.GetWeekDates(year, weekNumber);
    var ctx := Context(entryWarehouseId, weekNumber, year, weekDates[0], maxDaily, storeDistances);
    assert ctx == PlanContext(stores, origin, entryWarehouseId, weekNumber, year, maxDaily, haversine);

    var dailyDistances := new real[7](_ => 0.0);
    assert dailyDistances[..] == Init().slots;

    var comeauStores := OfType(stores, "COMEAU");
    var comdetStores := OfType(stores, "COMDET");
    schedule := ComdetLoop(ctx, weekDates, dailyDistances, [], comdetStores);
    schedule := ComeauLoop(ctx, weekDates, dailyDistances, schedule, comeauStores);
    slots := dailyDistances[..];
  }

  // ---------------------------------------------------------------------------
  // The summary
  // ---------------------------------------------------------------------------

  datatype Summary = Summary(
    totalDeliveries: nat,
    totalDistanceKm: real,
    dailyDistances: seq<real>,
    executionTimeSeconds: real,
    storesServed: nat,
    comeauDeliveries: nat,
    comdetDeliveries: nat)

  /** The `parameters` object, as passed in (it is stored as JSON with the run). */
  datatype Parameters = Parameters(
    warehouseId: JsValue,
    maxDailyDistance: JsValue,
    totalStores: nat,
    comeauStores: nat,
    comdetStores: nat)

  datatype OptimizationResult = OptimizationResult(schedule: seq<Entry>, summary: Summary, parameters: Parameters)

  /** `stores.find(st => st.id === id)?.contract_type`: the contract type of the first row with
      that store id. */
  function FindType(stores: seq<StoreRow>, id: int): (r: Option<string>)
    ensures r.None? <==> forall i :: 0 <= i < |stores| ==> stores[i].id != id
    ensures r.Some? ==> exists i :: 0 <= i < |stores| && stores[i].id == id && stores[i].contractType == r.value
                                   && forall j :: 0 <= j < i ==> stores[j].id != id
  {
    if stores == [] then None
    else if stores[0].id == id then Some(stores[0].contractType)
    else
      var r := FindType(stores[1..], id);
      assert forall i :: 0 <= i < |stores| - 1 ==> stores[1..][i] == stores[i + 1];
      r
  }

  /** `schedule.filter(s => stores.find(st => st.id === s.store_id)?.contract_type === t).length`. */
  function CountOfType(schedule: seq<Entry>, stores: seq<StoreRow>, t: string): (n: nat)
    ensures n <= |schedule|
  {
    if schedule == [] then 0
    else CountOfType(schedule[..|schedule| - 1], stores, t)
         + (if FindType(stores, schedule[|schedule| - 1].storeId) == Some(t) then 1 else 0)
  }

  /** `xs.map(f)`. */
  function MapReals(f: real -> real, xs: seq<real>): (r: seq<real>)
    ensures |r| == |xs| && forall i :: 0 <= i < |xs| ==> r[i] == f(xs[i])
  {
    if xs == [] then [] else [f(xs[0])] + MapReals(f, xs[1..])
  }

  /** The `summary` object. `round2` stands for `roundToDecimals(x)` (two decimals). */
  function SummaryOf(stores: seq<StoreRow>, st: PlanState, executionTime: real, round2: real -> real): Summary
  {
    Summary(
      |st.entries|,
      round2(Sum(st.slots)),
      MapReals(round2, st.slots),
      executionTime,
      |stores|,
      CountOfType(st.entries, stores, "COMEAU"),
      CountOfType(st.entries, stores, "COMDET"))
  }

  /** What `_optimizeSchedule` returns for these inputs. The budget comparison
      `dailyDistances[day] + distance <= maxDailyDistance` converts `maxDailyDistance` to a number. */
  function OptimizationOf(stores: seq<StoreRow>, warehouse: Warehouse, weekNumber: int, year: int, maxDailyDistance: JsValue,
                          haversine: (Point, Point) -> real, executionTime: real, round2: real -> real): OptimizationResult
  {
    var ctx := PlanContext(stores, Origin(warehouse), Int(warehouse.id), weekNumber, year, ToNumber(maxDailyDistance), haversine);
    var plan := Plan(ctx, stores);
    OptimizationResult(
      plan.entries,
      SummaryOf(stores, plan, executionTime, round2),
      Parameters(Int(warehouse.id), maxDailyDistance, |stores|, |OfType(stores, "COMEAU")|, |OfType(stores, "COMDET")|))
  }

  /** `_optimizeSchedule(stores, warehouse, weekNumber, year, maxDailyDistance, startTime)`.
      The clock difference `(Date.now() - startTime) / 1000` is the parameter `executionTime`. */
  method OptimizeSchedule(stores: seq<StoreRow>, warehouse: Warehouse, weekNumber: int, year: int, maxDailyDistance: JsValue,
                          haversine: (Point, Point) -> real, executionTime: real, round2: real -> real)
    returns (result: OptimizationResult)
    ensures result == OptimizationOf(stores, warehouse, weekNumber, year, maxDailyDistance, haversine, executionTime, round2)
  {
    var schedule, dailyDistances := RunPlanner(stores, Origin(warehouse), Int(warehouse.id), weekNumber, year,
                                               ToNumber(maxDailyDistance), haversine);
    var totalDistance := Sum(dailyDistances);
    var summary := Summary(
      |schedule|,
      round2(totalDistance),
      MapReals(round2, dailyDistances),
      executionTime,
      |stores|,
      CountOfType(schedule, stores, "COMEAU"),
      CountOfType(schedule, stores, "COMDET"));
    var parameters := Parameters(Int(warehouse.id), maxDailyDistance, |stores|, |OfType(stores, "COMEAU")|, |OfType(stores, "COMDET")|);
    result := OptimizationResult(schedule, summary, parameters);
  }

  /** Every service entry names the fetched warehouse's id and the requested week and year, and
      its `delivery_date` lies in the requested week on the weekday its `day` names. */
  lemma ServiceEntries(stores: seq<StoreRow>, warehouse: Warehouse, weekNumber: int, year: int, maxDailyDistance: JsValue,
                       haversine: (Point, Point) -> real, executionTime: real, round2: real -> real)
    ensures var es := OptimizationOf(stores, warehouse, weekNumber, year, maxDailyDistance, haversine, executionTime, round2).schedule;
      forall i :: 0 <= i < |es| ==>
        && es[i].warehouseId == Int(warehouse.id) && es[i].weekNumber == weekNumber && es[i].year == year
        && es[i].deliveryDate == Calendar.WeekMonday(year, weekNumber) + es[i].day
        && Calendar.IsoWeekday(es[i].deliveryDate) == es[i].day + 1
  {
    var ctx := PlanContext(stores, Origin(warehouse), Int(warehouse.id), weekNumber, year, ToNumber(maxDailyDistance), haversine);
    PlanStamped(ctx, stores);
    var es := Plan(ctx, stores).entries;
    forall i | 0 <= i < |es|
      ensures Calendar.IsoWeekday(es[i].deliveryDate) == es[i].day + 1
    {
      StampedWeekday(ctx, es[i]);
    }
  }

  lemma StampedWeekday(ctx: Context, e: Entry)
    requires Stamped(ctx, e) && ctx.monday == Calendar.WeekMonday(ctx.year, ctx.weekNumber)
    ensures Calendar.IsoWeekday(e.deliveryDate) == e.day + 1
  {
    Calendar.WeekDayOfWeekDates(ctx.year, ctx.weekNumber, e.day);
  }

  // ---------------------------------------------------------------------------
  // What the summary reports
  // ---------------------------------------------------------------------------

  /** The summary's totals: one delivery per entry, the total distance is the rounded sum of the
      undelayed entries' distances, and each daily distance is the rounded load of that day. */
  lemma SummaryTotals(ctx: Context, stores: seq<StoreRow>, executionTime: real, round2: real -> real)
    requires Covers(ctx, stores)
    ensures var plan := Plan(ctx, stores);
      var s := SummaryOf(stores, plan, executionTime, round2);
      && s.totalDeliveries == |plan.entries|
      && s.storesServed == |stores|
      && s.executionTimeSeconds == executionTime
      && s.totalDistanceKm == round2(Committed(plan.entries))
      && |s.dailyDistances| == 7
      && forall d: DayIndex :: s.dailyDistances[d] == round2(Load(plan.entries, d))
  {
    PlanTotalIsCommitted(ctx, stores);
    PlanSlotsAreLoads(ctx, stores);
  }

  /** No two rows share a store id: every store has exactly one active contract. */
  predicate UniqueIds(stores: seq<StoreRow>)
  {
    forall i, j :: 0 <= i < j < |stores| ==> stores[i].id != stores[j].id
  }

  lemma FindTypeOfRow(stores: seq<StoreRow>, row: StoreRow)
    requires UniqueIds(stores) && row in stores
    ensures FindType(stores, row.id) == Some(row.contractType)
  {
    var k :| 0 <= k < |stores| && stores[k] == row;
    var r := FindType(stores, row.id);
    var i :| 0 <= i < |stores| && stores[i].id == row.id && stores[i].contractType == r.value;
    assert i == k;
  }

  lemma {:induction false} CountOfTypeAppend(a: seq<Entry>, b: seq<Entry>, stores: seq<StoreRow>, t: string)
    ensures CountOfType(a + b, stores, t) == CountOfType(a, stores, t) + CountOfType(b, stores, t)
    decreases |b|
  {
    if b == [] {
      assert a + b == a;
    } else {
      assert (a + b)[..|a + b| - 1] == a + b[..|b| - 1];
      CountOfTypeAppend(a, b[..|b| - 1], stores, t);
    }
  }

  /** Entries whose stores all have first-row type `t` all count under `t`. */
  lemma {:induction false} CountOfTypeAll(es: seq<Entry>, stores: seq<StoreRow>, t: string)
    requires forall i :: 0 <= i < |es| ==> FindType(stores, es[i].storeId) == Some(t)
    ensures CountOfType(es, stores, t) == |es|
  {
    if es != [] {
      var prefix := es[..|es| - 1];
      assert forall i :: 0 <= i < |prefix| ==> prefix[i] == es[i];
      CountOfTypeAll(prefix, stores, t);
    }
  }

  /** Entries none of whose stores has first-row type `t` count nothing under `t`. */
  lemma {:induction false} CountOfTypeNone(es: seq<Entry>, stores: seq<StoreRow>, t: string)
    requires forall i :: 0 <= i < |es| ==> FindType(stores, es[i].storeId) != Some(t)
    ensures CountOfType(es, stores, t) == 0
  {
    if es != [] {
      var prefix := es[..|es| - 1];
      assert forall i :: 0 <= i < |prefix| ==> prefix[i] == es[i];
      CountOfTypeNone(prefix, stores, t);
    }
  }

  lemma TypesDiffer()
    ensures "COMDET" != "COMEAU"
  {
    assert "COMDET"[3] != "COMEAU"[3];
  }

  lemma FlattenMember<T>(bs: seq<seq<T>>, k: nat)
    requires k < |Flatten(bs)|
    ensures exists b :: 0 <= b < |bs| && Flatten(bs)[k] in bs[b]
    decreases |bs|
  {
    var prefix := bs[..|bs| - 1];
    if k < |Flatten(prefix)| {
      FlattenMember(prefix, k);
      var b :| 0 <= b < |prefix| && Flatten(prefix)[k] in prefix[b];
      assert bs[b] == prefix[b];
    } else {
      assert Flatten(bs)[k] == bs[|bs| - 1][k - |Flatten(prefix)|];
    }
  }

  /** Each COMDET entry belongs to a COMDET row and each later entry to a COMEAU row. */
  lemma PlanEntryRows(ctx: Context, stores: seq<StoreRow>)
    requires Covers(ctx, stores)
    ensures var comdet := OfType(stores, "COMDET");
      var es := Plan(ctx, stores).entries;
      && |comdet| <= |es|
      && (forall i :: 0 <= i < |comdet| ==> es[i].storeId == comdet[i].id)
      && (forall i :: |comdet| <= i < |es| ==> exists r :: r in OfType(stores, "COMEAU") && r.id == es[i].storeId)
  {
    var comdet := OfType(stores, "COMDET");
    var comeau := OfType(stores, "COMEAU");
    PlanOrder(ctx, stores);
    var afterComdet := ComdetPass(ctx, Init(), comdet);
    EntryRowsOf(Plan(ctx, stores).entries, afterComdet.entries, ComeauBlocks(ctx, afterComdet, comeau), comdet, comeau);
  }

  /** The row facts of `PlanEntryRows` on plain sequences: `es` is one entry per COMDET row
      followed by the flattened visit blocks of the COMEAU rows. */
  lemma EntryRowsOf(es: seq<Entry>, head: seq<Entry>, bs: seq<seq<Entry>>, comdet: seq<StoreRow>, comeau: seq<StoreRow>)
    requires es == head + Flatten(bs) && |head| == |comdet| && |bs| == |comeau|
    requires forall i :: 0 <= i < |comdet| ==> EntryOf(es[i], comdet[i])
    requires forall b :: 0 <= b < |bs| ==> IsVisitBlock(bs[b], comeau[b])
    ensures |comdet| <= |es|
    ensures forall i :: 0 <= i < |comdet| ==> es[i].storeId == comdet[i].id
    ensures forall i :: |comdet| <= i < |es| ==> exists r :: r in comeau && r.id == es[i].storeId
  {
    forall i | |comdet| <= i < |es|
      ensures exists r :: r in comeau && r.id == es[i].storeId
    {
      var k := i - |comdet|;
      assert es[i] == Flatten(bs)[k];
      var b := BlockEntryFromRow(bs, comeau, k);
      assert comeau[b] in comeau && comeau[b].id == es[i].storeId;
    }
  }

  /** An entry of the flattened blocks belongs to the row of its block. */
  lemma BlockEntryFromRow(bs: seq<seq<Entry>>, rows: seq<StoreRow>, k: nat) returns (b: nat)
    requires |bs| == |rows| && k < |Flatten(bs)|
    requires forall b :: 0 <= b < |bs| ==> IsVisitBlock(bs[b], rows[b])
    ensures b < |rows| && rows[b].id == Flatten(bs)[k].storeId
  {
    FlattenMember(bs, k);
    b :| 0 <= b < |bs| && Flatten(bs)[k] in bs[b];
    assert IsVisitBlock(bs[b], rows[b]);
  }

  /** With one row per store, `comdet_deliveries` is the number of COMDET stores and
      `comeau_deliveries` the number of entries placed for COMEAU stores. */
  lemma PlanCountsWithUniqueIds(ctx: Context, stores: seq<StoreRow>)
    requires Covers(ctx, stores) && UniqueIds(stores)
    ensures var es := Plan(ctx, stores).entries;
      var comdet := OfType(stores, "COMDET");
      && CountOfType(es, stores, "COMDET") == |comdet|
      && CountOfType(es, stores, "COMEAU") == |es| - |comdet|
  {
    var es := Plan(ctx, stores).entries;
    var comdet := OfType(stores, "COMDET");
    PlanEntryRows(ctx, stores);
    var head := es[..|comdet|];
    var tail := es[|comdet|..];
    assert es == head + tail;
    forall i | 0 <= i < |head|
      ensures FindType(stores, head[i].storeId) == Some("COMDET")
    {
      FindTypeOfRow(stores, comdet[i]);
    }
    forall i | 0 <= i < |tail|
      ensures FindType(stores, tail[i].storeId) == Some("COMEAU")
    {
      assert tail[i] == es[|comdet| + i];
      var r :| r in OfType(stores, "COMEAU") && r.id == es[|comdet| + i].storeId;
      FindTypeOfRow(stores, r);
    }
    TypesDiffer();
    CountOfTypeAll(head, stores, "COMDET");
    CountOfTypeNone(head, stores, "COMEAU");
    CountOfTypeNone(tail, stores, "COMDET");
    CountOfTypeAll(tail, stores, "COMEAU");
    CountOfTypeAppend(head, tail, stores, "COMDET");
    CountOfTypeAppend(head, tail, stores, "COMEAU");
  }

  /** When one store holds both contract types, the counts follow its first row: with all rows
      of one store and a COMEAU row first, `comdet_deliveries` is 0 although the schedule holds
      one entry for each COMDET row. */
  lemma SharedStoreCountedUnderFirstRow(ctx: Context, stores: seq<StoreRow>)
    requires Covers(ctx, stores) && |stores| > 0 && stores[0].contractType == "COMEAU"
    requires forall i :: 0 <= i < |stores| ==> stores[i].id == stores[0].id
    ensures var es := Plan(ctx, stores).entries;
      && |OfType(stores, "COMDET")| <= |es|
      && CountOfType(es, stores, "COMDET") == 0
      && CountOfType(es, stores, "COMEAU") == |es|
  {
    var es := Plan(ctx, stores).entries;
    var comdet := OfType(stores, "COMDET");
    PlanEntryRows(ctx, stores);
    forall i | 0 <= i < |es|
      ensures es[i].storeId == stores[0].id
    {
      if i < |comdet| {
        assert comdet[i] in stores;
      } else {
        var r :| r in OfType(stores, "COMEAU") && r.id == es[i].storeId;
      }
    }
    assert FindType(stores, stores[0].id) == Some("COMEAU");
    TypesDiffer();
    CountOfTypeNone(es, stores, "COMDET");
    CountOfTypeAll(es, stores, "COMEAU");
  }
}
