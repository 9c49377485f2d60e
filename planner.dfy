/**
 * The greedy weekly delivery planner of the optimization service
 * (`_optimizeSchedule` in backend/services/optimizationService.js), as specification functions
 * over a plan state: the seven committed daily distances (Monday to Sunday) and the schedule
 * built so far. The imperative planner in module OptimizationService is proved to compute
 * exactly `Plan`; the lemmas here state what `Plan` guarantees.
 */
module Planner {
  import opened Wrappers
  import opened JsValues
  import Calendar

  /** A day of the planned week: 0 is Monday, ..., 6 is Sunday. */
  type DayIndex = d: int | 0 <= d < 7

  /** A row of the store query: an active store joined with one of its active contracts. A store
      with several contracts appears in several rows with the same `id`. */
  datatype StoreRow = StoreRow(id: int, contractId: int, contractType: string, lat: JsValue, lng: JsValue)

  /** One planned delivery. `day` is the index into the week's dates and day names:
      `deliveryDate` is the date of that day and `DayOfWeek` its name. */
  datatype Entry = Entry(
    storeId: int,
    contractId: int,
    warehouseId: JsValue,
    deliveryDate: int,
    day: DayIndex,
    delayDays: nat,
    distance: real,
    weekNumber: int,
    year: int)

  /** `delivery_day_of_week` of an entry. */
  function DayOfWeek(e: Entry): string
  {
    Calendar.DayNames()[e.day]
  }

  /** What stays fixed during one planning run: the warehouse id written into the entries, the
      requested week, the date of its Monday (`weekDates[0]`, so that `weekDates[day]` is
      `monday + day`), the per-day budget and the distance of each store id. */
  datatype Context = Context(
    warehouseId: JsValue,
    weekNumber: int,
    year: int,
    monday: int,
    maxDaily: Number,
    distances: map<int, real>)

  /** Every row has an entry in the distance table. */
  predicate Covers(ctx: Context, rows: seq<StoreRow>)
  {
    forall i :: 0 <= i < |rows| ==> rows[i].id in ctx.distances
  }

  function Distance(ctx: Context, row: StoreRow): real
    requires row.id in ctx.distances
  {
    ctx.distances[row.id]
  }

  /** The fit test `dailyDistances[day] + distance <= maxDailyDistance`, false when the budget is NaN. */
  predicate Fits(slot: real, distance: real, max: Number)
  {
    match max
    case Finite(m) => slot + distance <= m
    case PosInf => true
    case _ => false
  }

  /** The planner's state: the committed kilometres per day and the schedule so far. */
  datatype PlanState = PlanState(slots: seq<real>, entries: seq<Entry>)

  predicate Valid(st: PlanState)
  {
    |st.slots| == 7
  }

  /** `dailyDistances = [0, 0, 0, 0, 0, 0, 0]` and an empty schedule. */
  function Init(): (st: PlanState)
    ensures Valid(st) && st.entries == []
    ensures forall d: DayIndex :: st.slots[d] == 0.0
  {
    PlanState([0.0, 0.0, 0.0, 0.0, 0.0, 0.0, 0.0], [])
  }

  /** The schedule entry for `row` on `day` with the given delay. */
  function MakeEntry(ctx: Context, row: StoreRow, day: DayIndex, delay: nat): Entry
    requires row.id in ctx.distances
  {
    Entry(row.id, row.contractId, ctx.warehouseId, ctx.monday + day,
          day, delay, Distance(ctx, row), ctx.weekNumber, ctx.year)
  }

  /** Push an undelayed entry for `row` on `day` and add its distance to that day's slot. */
  function Commit(ctx: Context, st: PlanState, row: StoreRow, day: DayIndex): (r: PlanState)
    requires Valid(st) && row.id in ctx.distances
    ensures Valid(r)
  {
    PlanState(st.slots[day := st.slots[day] + Distance(ctx, row)], st.entries + [MakeEntry(ctx, row, day, 0)])
  }

  /** `stores.filter(s => s.contract_type === t)`. */
  function OfType(stores: seq<StoreRow>, t: string): (r: seq<StoreRow>)
    ensures |r| <= |stores|
    ensures forall i :: 0 <= i < |r| ==> r[i] in stores && r[i].contractType == t
    ensures forall s :: s in stores && s.contractType == t ==> s in r
  {
    if stores == [] then []
    else OfType(stores[..|stores| - 1], t) + (if stores[|stores| - 1].contractType == t then [stores[|stores| - 1]] else [])
  }

  // ---------------------------------------------------------------------------
  // COMDET: first fit, or a delayed entry on the least loaded day
  // ---------------------------------------------------------------------------

  /** The lowest day from `from` on whose slot still fits `distance`. */
  function FirstFitFrom(slots: seq<real>, distance: real, max: Number, from: nat): (r: Option<DayIndex>)
    requires |slots| == 7 && from <= 7
    ensures r.Some? ==> from <= r.value && Fits(slots[r.value], distance, max)
    ensures r.Some? ==> forall d: DayIndex :: from <= d < r.value ==> !Fits(slots[d], distance, max)
    ensures r.None? <==> forall d: DayIndex :: from <= d ==> !Fits(slots[d], distance, max)
    decreases 7 - from
  {
    if from == 7 then None
    else if Fits(slots[from], distance, max) then Some(from)
    else FirstFitFrom(slots, distance, max, from + 1)
  }

  /** `Math.min(...s)`. */
  function Min(s: seq<real>): (m: real)
    requires |s| > 0
    ensures m in s && forall i :: 0 <= i < |s| ==> m <= s[i]
  {
    if |s| == 1 then s[0]
    else
      var rest := Min(s[..|s| - 1]);
      if s[|s| - 1] < rest then s[|s| - 1] else rest
  }

  /** `s.indexOf(x)` for a value that occurs in `s`. */
  function IndexOf(s: seq<real>, x: real): (k: nat)
    requires x in s
    ensures k < |s| && s[k] == x && forall j :: 0 <= j < k ==> s[j] != x
  {
    if s[0] == x then 0 else 1 + IndexOf(s[1..], x)
  }

  /** `dailyDistances.indexOf(Math.min(...dailyDistances))`: the first least loaded day. */
  function LeastLoaded(slots: seq<real>): (d: DayIndex)
    requires |slots| == 7
    ensures forall j :: 0 <= j < 7 ==> slots[d] <= slots[j]
    ensures forall j :: 0 <= j < d ==> slots[j] > slots[d]
  {
    IndexOf(slots, Min(slots))
  }

  /** One iteration of the COMDET `forEach`. */
  function ComdetStep(ctx: Context, st: PlanState, row: StoreRow): (r: PlanState)
    requires Valid(st) && row.id in ctx.distances
    ensures Valid(r)
  {
    match FirstFitFrom(st.slots, Distance(ctx, row), ctx.maxDaily, 0)
    case Some(day) => Commit(ctx, st, row, day)
    case None => PlanState(st.slots, st.entries + [MakeEntry(ctx, row, LeastLoaded(st.slots), 1)])
  }

  /** The COMDET `forEach` over `rows`, in order. */
  function ComdetPass(ctx: Context, st: PlanState, rows: seq<StoreRow>): (r: PlanState)
    requires Valid(st) && Covers(ctx, rows)
    ensures Valid(r)
  {
    if rows == [] then st
    else ComdetStep(ctx, ComdetPass(ctx, st, rows[..|rows| - 1]), rows[|rows| - 1])
  }

  // ---------------------------------------------------------------------------
  // COMEAU: Monday, Wednesday, Friday first, then the other days, up to three visits
  // ---------------------------------------------------------------------------

  /** `targetDays = [0, 2, 4]`. */
  function TargetDays(): seq<DayIndex>
  {
    [0, 2, 4]
  }

  /** The `targetDays.forEach` from the `k`-th target on, with `placed` visits already made. */
  function TargetsFrom(ctx: Context, st: PlanState, row: StoreRow, k: nat, placed: nat): (r: (PlanState, nat))
    requires Valid(st) && row.id in ctx.distances && k <= 3
    ensures Valid(r.0)
    decreases 3 - k
  {
    if k == 3 then (st, placed)
    else
      var day := TargetDays()[k];
      if placed < 3 && Fits(st.slots[day], Distance(ctx, row), ctx.maxDaily)
      then TargetsFrom(ctx, Commit(ctx, st, row, day), row, k + 1, placed + 1)
      else TargetsFrom(ctx, st, row, k + 1, placed)
  }

  /** The fill loop `for (day; day < 7 && deliveriesScheduled < 3; day++)`, skipping target days. */
  function FillFrom(ctx: Context, st: PlanState, row: StoreRow, day: nat, placed: nat): (r: (PlanState, nat))
    requires Valid(st) && row.id in ctx.distances && day <= 7
    ensures Valid(r.0)
    decreases 7 - day
  {
    if day == 7 || placed >= 3 then (st, placed)
    else if day !in TargetDays() && Fits(st.slots[day], Distance(ctx, row), ctx.maxDaily)
    then FillFrom(ctx, Commit(ctx, st, row, day), row, day + 1, placed + 1)
    else FillFrom(ctx, st, row, day + 1, placed)
  }

  /** One iteration of the COMEAU `forEach`. */
  function ComeauStep(ctx: Context, st: PlanState, row: StoreRow): (r: PlanState)
    requires Valid(st) && row.id in ctx.distances
    ensures Valid(r)
  {
    var t := TargetsFrom(ctx, st, row, 0, 0);
    FillFrom(ctx, t.0, row, 0, t.1).0
  }

  /** The COMEAU `forEach` over `rows`, in order. */
  function ComeauPass(ctx: Context, st: PlanState, rows: seq<StoreRow>): (r: PlanState)
    requires Valid(st) && Covers(ctx, rows)
    ensures Valid(r)
  {
    if rows == [] then st
    else ComeauStep(ctx, ComeauPass(ctx, st, rows[..|rows| - 1]), rows[|rows| - 1])
  }

  /** The two passes of `_optimizeSchedule`: COMDET stores first, then COMEAU stores. */
  function Plan(ctx: Context, stores: seq<StoreRow>): (r: PlanState)
    requires Covers(ctx, stores)
    ensures Valid(r)
  {
    var comdet := OfType(stores, "COMDET");
    var comeau := OfType(stores, "COMEAU");
    ComeauPass(ctx, ComdetPass(ctx, Init(), comdet), comeau)
  }
}
