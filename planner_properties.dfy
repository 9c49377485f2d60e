/**
 * What the greedy planner guarantees: where each COMDET and COMEAU store is placed, the order
 * of the schedule, the daily budget, and the agreement between the committed slots and the
 * schedule that the summary relies on.
 */
module PlannerProperties {
  import opened Wrappers
  import opened JsValues
  import opened Planner

  // ---------------------------------------------------------------------------
  // Placing one COMDET store
  // ---------------------------------------------------------------------------

  /** A COMDET store gets exactly one entry. It goes on the lowest day whose slot still fits its
      distance, undelayed, and that slot grows by the distance; when no day fits, it goes delayed
      by one day on the first least loaded day, and no slot changes. */
  lemma ComdetStepPlacement(ctx: Context, st: PlanState, row: StoreRow)
    requires Valid(st) && row.id in ctx.distances
    ensures var r := ComdetStep(ctx, st, row);
      var d := Distance(ctx, row);
      var max := ctx.maxDaily;
      && |r.entries| == |st.entries| + 1
      && r.entries[..|st.entries|] == st.entries
      && var e := r.entries[|st.entries|];
      && e.storeId == row.id && e.contractId == row.contractId && e.distance == d
      && e.warehouseId == ctx.warehouseId && e.weekNumber == ctx.weekNumber && e.year == ctx.year
      && ((exists x: DayIndex :: Fits(st.slots[x], d, max)) ==>
            && e.delayDays == 0
            && Fits(st.slots[e.day], d, max)
            && (forall x: DayIndex :: x < e.day ==> !Fits(st.slots[x], d, max))
            && r.slots == st.slots[e.day := st.slots[e.day] + d])
      && ((forall x: DayIndex :: !Fits(st.slots[x], d, max)) ==>
            && e.delayDays == 1
            && (forall x: DayIndex :: st.slots[e.day] <= st.slots[x])
            && (forall x: DayIndex :: x < e.day ==> st.slots[x] > st.slots[e.day])
            && r.slots == st.slots)
  {
    var d := Distance(ctx, row);
    var ff := FirstFitFrom(st.slots, d, ctx.maxDaily, 0);
    if ff.Some? {
      assert (exists x: DayIndex :: Fits(st.slots[x], d, ctx.maxDaily));
    }
  }

  /** An entry of the store and contract of `row`, delayed by at most one day. */
  predicate EntryOf(e: Entry, row: StoreRow)
  {
    e.storeId == row.id && e.contractId == row.contractId && e.delayDays <= 1
  }

  lemma ComdetStepAppendsOne(ctx: Context, st: PlanState, row: StoreRow)
    requires Valid(st) && row.id in ctx.distances
    ensures exists e :: ComdetStep(ctx, st, row).entries == st.entries + [e] && EntryOf(e, row)
  {
    var r := ComdetStep(ctx, st, row);
    var e := r.entries[|r.entries| - 1];
    assert r.entries == st.entries + [e];
  }

  /** The COMDET pass appends exactly one entry per COMDET row, in the rows' order. */
  lemma {:induction false} ComdetPassOneEntryEach(ctx: Context, st: PlanState, rows: seq<StoreRow>)
    requires Valid(st) && Covers(ctx, rows)
    ensures var r := ComdetPass(ctx, st, rows);
      && |r.entries| == |st.entries| + |rows|
      && r.entries[..|st.entries|] == st.entries
      && forall i :: 0 <= i < |rows| ==> EntryOf(r.entries[|st.entries| + i], rows[i])
  {
    if rows != [] {
      var prefix := rows[..|rows| - 1];
      ComdetPassOneEntryEach(ctx, st, prefix);
      var before := ComdetPass(ctx, st, prefix);
      ComdetStepAppendsOne(ctx, before, rows[|rows| - 1]);
      var r := ComdetPass(ctx, st, rows);
      var e :| r.entries == before.entries + [e] && EntryOf(e, rows[|rows| - 1]);
      forall i | 0 <= i < |rows|
        ensures EntryOf(r.entries[|st.entries| + i], rows[i])
      {
        if i < |prefix| {
          assert r.entries[|st.entries| + i] == before.entries[|st.entries| + i];
          assert prefix[i] == rows[i];
        }
      }
    }
  }

  // ---------------------------------------------------------------------------
  // Placing one COMEAU store
  // ---------------------------------------------------------------------------

  /** The order in which a COMEAU store's days are tried: Monday, Wednesday, Friday, then
      Tuesday, Thursday, Saturday, Sunday. */
  function PreferenceOrder(): seq<DayIndex>
  {
    [0, 2, 4, 1, 3, 5, 6]
  }

  predicate Distinct(days: seq<DayIndex>)
  {
    forall i, j :: 0 <= i < j < |days| ==> days[i] != days[j]
  }

  /** Trying the days of `days` in order, placing a visit on each that fits while fewer than
      three visits are placed: the common shape of the target loop and the fill loop. */
  function TryDays(ctx: Context, st: PlanState, row: StoreRow, days: seq<DayIndex>, placed: nat): (r: (PlanState, nat))
    requires Valid(st) && row.id in ctx.distances
    ensures Valid(r.0)
    decreases days
  {
    if days == [] then (st, placed)
    else if placed < 3 && Fits(st.slots[days[0]], Distance(ctx, row), ctx.maxDaily)
    then TryDays(ctx, Commit(ctx, st, row, days[0]), row, days[1..], placed + 1)
    else TryDays(ctx, st, row, days[1..], placed)
  }

  /** The days of `days` whose slot fits `distance`, in order. */
  function FitDays(slots: seq<real>, distance: real, max: Number, days: seq<DayIndex>): (r: seq<DayIndex>)
    requires |slots| == 7
  {
    if days == [] then []
    else
      var rest := FitDays(slots, distance, max, days[1..]);
      if Fits(slots[days[0]], distance, max) then [days[0]] + rest else rest
  }

  /** `FitDays` keeps exactly the days that fit, and keeps distinct days distinct. */
  lemma {:induction false} FitDaysKeepsFitting(slots: seq<real>, distance: real, max: Number, days: seq<DayIndex>)
    requires |slots| == 7
    ensures forall x :: x in FitDays(slots, distance, max, days) <==> x in days && Fits(slots[x], distance, max)
    ensures Distinct(days) ==> Distinct(FitDays(slots, distance, max, days))
  {
    if days != [] {
      FitDaysKeepsFitting(slots, distance, max, days[1..]);
      assert days == [days[0]] + days[1..];
      if Distinct(days) {
        assert Distinct(days[1..]) && days[0] !in days[1..] by {
          assert forall j :: 0 <= j < |days| - 1 ==> days[1..][j] == days[j + 1];
        }
      }
    }
  }

  /** The first `n` elements of `s`, or all of it when it is shorter. */
  function Take<T>(s: seq<T>, n: nat): (r: seq<T>)
    ensures |r| <= n && |r| <= |s| && r == s[..|r|]
    ensures |s| <= n ==> r == s
  {
    if n >= |s| then s else s[..n]
  }

  /** `slots` with `distance` added on each of `days`. */
  function AddOn(slots: seq<real>, days: seq<DayIndex>, distance: real): (r: seq<real>)
    requires |slots| == 7
    ensures |r| == 7
    decreases days
  {
    if days == [] then slots
    else AddOn(slots[days[0] := slots[days[0]] + distance], days[1..], distance)
  }

  /** The undelayed entries of `row` on `days`, in order. */
  function EntriesOn(ctx: Context, row: StoreRow, days: seq<DayIndex>): (r: seq<Entry>)
    requires row.id in ctx.distances
    ensures |r| == |days|
  {
    if days == [] then [] else [MakeEntry(ctx, row, days[0], 0)] + EntriesOn(ctx, row, days[1..])
  }

  lemma EntriesOnAt(ctx: Context, row: StoreRow, days: seq<DayIndex>, i: nat)
    requires row.id in ctx.distances && i < |days|
    ensures EntriesOn(ctx, row, days)[i] == MakeEntry(ctx, row, days[i], 0)
  {
    if i > 0 {
      EntriesOnAt(ctx, row, days[1..], i - 1);
    }
  }

  /** Once three visits are placed, trying further days changes nothing. */
  lemma {:induction false} TryDaysSaturated(ctx: Context, st: PlanState, row: StoreRow, days: seq<DayIndex>, placed: nat)
    requires Valid(st) && row.id in ctx.distances && placed >= 3
    ensures TryDays(ctx, st, row, days, placed) == (st, placed)
  {
    if days != [] {
      TryDaysSaturated(ctx, st, row, days[1..], placed);
    }
  }

  /** Trying `a + b` is trying `a`, then `b` from where `a` left off. */
  lemma {:induction false} TryDaysAppend(ctx: Context, st: PlanState, row: StoreRow, a: seq<DayIndex>, b: seq<DayIndex>, placed: nat)
    requires Valid(st) && row.id in ctx.distances
    ensures var m := TryDays(ctx, st, row, a, placed);
      TryDays(ctx, st, row, a + b, placed) == TryDays(ctx, m.0, row, b, m.1)
    decreases a
  {
    if a != [] {
      assert (a + b)[0] == a[0] && (a + b)[1..] == a[1..] + b;
      if placed < 3 && Fits(st.slots[a[0]], Distance(ctx, row), ctx.maxDaily) {
        TryDaysAppend(ctx, Commit(ctx, st, row, a[0]), row, a[1..], b, placed + 1);
      } else {
        TryDaysAppend(ctx, st, row, a[1..], b, placed);
      }
    } else {
      assert a + b == b;
    }
  }

  /** The target loop from the `k`-th target on tries the remaining targets in order. */
  lemma {:induction false} TargetsAreTried(ctx: Context, st: PlanState, row: StoreRow, k: nat, placed: nat)
    requires Valid(st) && row.id in ctx.distances && k <= 3
    ensures TargetsFrom(ctx, st, row, k, placed) == TryDays(ctx, st, row, TargetDays()[k..], placed)
    decreases 3 - k
  {
    if k < 3 {
      var day := TargetDays()[k];
      assert TargetDays()[k..][0] == day && TargetDays()[k..][1..] == TargetDays()[k + 1..];
      if placed < 3 && Fits(st.slots[day], Distance(ctx, row), ctx.maxDaily) {
        TargetsAreTried(ctx, Commit(ctx, st, row, day), row, k + 1, placed + 1);
      } else {
        TargetsAreTried(ctx, st, row, k + 1, placed);
      }
    }
  }

  /** The days from `day` to Sunday that are not target days. */
  function OtherDaysFrom(day: nat): (r: seq<DayIndex>)
    requires day <= 7
    decreases 7 - day
  {
    if day == 7 then []
    else if day in TargetDays() then OtherDaysFrom(day + 1)
    else [day] + OtherDaysFrom(day + 1)
  }

  /** The fill loop tries Tuesday, Thursday, Saturday and Sunday. */
  lemma OtherDays()
    ensures OtherDaysFrom(0) == [1, 3, 5, 6]
  {
    assert OtherDaysFrom(6) == [6];
    assert OtherDaysFrom(5) == [5, 6];
    assert OtherDaysFrom(4) == [5, 6];
    assert OtherDaysFrom(3) == [3, 5, 6];
    assert OtherDaysFrom(2) == [3, 5, 6];
    assert OtherDaysFrom(1) == [1, 3, 5, 6];
  }

  /** The fill loop from `day` on tries the remaining non-target days in order. */
  lemma {:induction false} FillIsTried(ctx: Context, st: PlanState, row: StoreRow, day: nat, placed: nat)
    requires Valid(st) && row.id in ctx.distances && day <= 7
    ensures FillFrom(ctx, st, row, day, placed) == TryDays(ctx, st, row, OtherDaysFrom(day), placed)
    decreases 7 - day
  {
    if day < 7 {
      if placed >= 3 {
        TryDaysSaturated(ctx, st, row, OtherDaysFrom(day), placed);
      } else if day !in TargetDays() && Fits(st.slots[day], Distance(ctx, row), ctx.maxDaily) {
        FillIsTried(ctx, Commit(ctx, st, row, day), row, day + 1, placed + 1);
      } else {
        FillIsTried(ctx, st, row, day + 1, placed);
      }
    }
  }

  /** A COMEAU store's days are tried in preference order, Monday, Wednesday, Friday first. */
  lemma ComeauTriesInPreferenceOrder(ctx: Context, st: PlanState, row: StoreRow)
    requires Valid(st) && row.id in ctx.distances
    ensures ComeauStep(ctx, st, row) == TryDays(ctx, st, row, PreferenceOrder(), 0).0
  {
    TargetsAreTried(ctx, st, row, 0, 0);
    var t := TargetsFrom(ctx, st, row, 0, 0);
    FillIsTried(ctx, t.0, row, 0, t.1);
    OtherDays();
    assert TargetDays()[0..] + OtherDaysFrom(0) == PreferenceOrder();
    TryDaysAppend(ctx, st, row, TargetDays()[0..], OtherDaysFrom(0), 0);
  }

  /** Fit tests on days other than `day` do not see a change to `day`'s slot. */
  lemma {:induction false} FitDaysFrame(slots: seq<real>, day: DayIndex, v: real, distance: real, max: Number, days: seq<DayIndex>)
    requires |slots| == 7 && day !in days
    ensures FitDays(slots[day := v], distance, max, days) == FitDays(slots, distance, max, days)
  {
    if days != [] {
      FitDaysFrame(slots, day, v, distance, max, days[1..]);
    }
  }

  lemma TakeCons<T>(x: T, f: seq<T>, n: nat)
    ensures Take([x] + f, n + 1) == [x] + Take(f, n)
  {
  }

  lemma ConsDays(ctx: Context, row: StoreRow, slots: seq<real>, x: DayIndex, tail: seq<DayIndex>, d: real)
    requires row.id in ctx.distances && |slots| == 7
    ensures EntriesOn(ctx, row, [x] + tail) == [MakeEntry(ctx, row, x, 0)] + EntriesOn(ctx, row, tail)
    ensures AddOn(slots, [x] + tail, d) == AddOn(slots[x := slots[x] + d], tail, d)
  {
    assert ([x] + tail)[1..] == tail;
  }

  /** Trying `days` with `placed` visits made places exactly `chosen`. */
  predicate PlacesExactly(ctx: Context, st: PlanState, row: StoreRow, days: seq<DayIndex>, placed: nat, chosen: seq<DayIndex>)
    requires Valid(st) && row.id in ctx.distances
  {
    var r := TryDays(ctx, st, row, days, placed);
    && r.1 == placed + |chosen|
    && r.0.entries == st.entries + EntriesOn(ctx, row, chosen)
    && r.0.slots == AddOn(st.slots, chosen, Distance(ctx, row))
  }

  /** Trying a first day that fits commits it. */
  lemma TryDaysFirstFits(ctx: Context, st: PlanState, row: StoreRow, x: DayIndex, rest: seq<DayIndex>, placed: nat)
    requires Valid(st) && row.id in ctx.distances && placed < 3
    requires Fits(st.slots[x], Distance(ctx, row), ctx.maxDaily)
    ensures TryDays(ctx, st, row, [x] + rest, placed) == TryDays(ctx, Commit(ctx, st, row, x), row, rest, placed + 1)
  {
    assert ([x] + rest)[0] == x && ([x] + rest)[1..] == rest;
  }

  /** The step of `TryDaysPlaces` where the first day fits. */
  lemma TryDaysPlacesFirst(ctx: Context, st: PlanState, row: StoreRow, x: DayIndex, rest: seq<DayIndex>, placed: nat, tail: seq<DayIndex>)
    requires Valid(st) && row.id in ctx.distances && placed < 3
    requires Fits(st.slots[x], Distance(ctx, row), ctx.maxDaily)
    requires PlacesExactly(ctx, Commit(ctx, st, row, x), row, rest, placed + 1, tail)
    ensures PlacesExactly(ctx, st, row, [x] + rest, placed, [x] + tail)
  {
    var d := Distance(ctx, row);
    var st1 := Commit(ctx, st, row, x);
    TryDaysFirstFits(ctx, st, row, x, rest, placed);
    var r := TryDays(ctx, st1, row, rest, placed + 1);
    ConsDays(ctx, row, st.slots, x, tail, d);
    assert r.0.entries == st1.entries + EntriesOn(ctx, row, tail);
    assert st1.entries == st.entries + [MakeEntry(ctx, row, x, 0)];
    assert r.0.entries == st.entries + EntriesOn(ctx, row, [x] + tail);
  }

  lemma FitDaysCons(slots: seq<real>, distance: real, max: Number, x: DayIndex, rest: seq<DayIndex>)
    requires |slots| == 7
    ensures FitDays(slots, distance, max, [x] + rest)
         == if Fits(slots[x], distance, max) then [x] + FitDays(slots, distance, max, rest)
            else FitDays(slots, distance, max, rest)
  {
    assert ([x] + rest)[0] == x && ([x] + rest)[1..] == rest;
  }

  /** Trying a first day that does not fit, or with three visits placed, skips it. */
  lemma TryDaysFirstSkipped(ctx: Context, st: PlanState, row: StoreRow, x: DayIndex, rest: seq<DayIndex>, placed: nat)
    requires Valid(st) && row.id in ctx.distances
    requires !(placed < 3 && Fits(st.slots[x], Distance(ctx, row), ctx.maxDaily))
    ensures TryDays(ctx, st, row, [x] + rest, placed) == TryDays(ctx, st, row, rest, placed)
  {
    assert ([x] + rest)[0] == x && ([x] + rest)[1..] == rest;
  }

  /** The step of `TryDaysPlaces` for a first day that fits, from the result for the rest. */
  lemma TryDaysPlacesFitCase(ctx: Context, st: PlanState, row: StoreRow, x: DayIndex, rest: seq<DayIndex>, placed: nat)
    requires Valid(st) && row.id in ctx.distances && placed < 3 && x !in rest
    requires Fits(st.slots[x], Distance(ctx, row), ctx.maxDaily)
    requires var st1 := Commit(ctx, st, row, x);
      PlacesExactly(ctx, st1, row, rest, placed + 1,
                    Take(FitDays(st1.slots, Distance(ctx, row), ctx.maxDaily, rest), 3 - (placed + 1)))
    ensures PlacesExactly(ctx, st, row, [x] + rest, placed,
                          Take(FitDays(st.slots, Distance(ctx, row), ctx.maxDaily, [x] + rest), 3 - placed))
  {
    var d := Distance(ctx, row);
    var max := ctx.maxDaily;
    var st1 := Commit(ctx, st, row, x);
    FitDaysCons(st.slots, d, max, x, rest);
    FitDaysFrame(st.slots, x, st.slots[x] + d, d, max, rest);
    var f := FitDays(st.slots, d, max, rest);
    assert FitDays(st1.slots, d, max, rest) == f;
    TakeCons(x, f, 3 - (placed + 1));
    TryDaysPlacesFirst(ctx, st, row, x, rest, placed, Take(f, 3 - (placed + 1)));
  }

  /** The step of `TryDaysPlaces` for a first day that does not fit. */
  lemma TryDaysPlacesSkipCase(ctx: Context, st: PlanState, row: StoreRow, x: DayIndex, rest: seq<DayIndex>, placed: nat)
    requires Valid(st) && row.id in ctx.distances && placed < 3
    requires !Fits(st.slots[x], Distance(ctx, row), ctx.maxDaily)
    requires PlacesExactly(ctx, st, row, rest, placed,
                           Take(FitDays(st.slots, Distance(ctx, row), ctx.maxDaily, rest), 3 - placed))
    ensures PlacesExactly(ctx, st, row, [x] + rest, placed,
                          Take(FitDays(st.slots, Distance(ctx, row), ctx.maxDaily, [x] + rest), 3 - placed))
  {
    FitDaysCons(st.slots, Distance(ctx, row), ctx.maxDaily, x, rest);
    TryDaysFirstSkipped(ctx, st, row, x, rest, placed);
  }

  /** Trying distinct days places a visit on exactly the first `3 - placed` of them that fit
      against the slots as they were before: each day's slot is tested once, before it changes. */
  lemma {:induction false} TryDaysPlaces(ctx: Context, st: PlanState, row: StoreRow, days: seq<DayIndex>, placed: nat)
    requires Valid(st) && row.id in ctx.distances && placed <= 3 && Distinct(days)
    ensures PlacesExactly(ctx, st, row, days, placed,
                          Take(FitDays(st.slots, Distance(ctx, row), ctx.maxDaily, days), 3 - placed))
    decreases days
  {
    if days == [] {
    } else if placed == 3 {
      TryDaysSaturated(ctx, st, row, days, placed);
    } else {
      var x := days[0];
      var rest := days[1..];
      assert days == [x] + rest;
      assert Distinct(rest) && x !in rest by {
        assert forall j :: 0 <= j < |rest| ==> rest[j] == days[j + 1];
      }
      if Fits(st.slots[x], Distance(ctx, row), ctx.maxDaily) {
        TryDaysPlaces(ctx, Commit(ctx, st, row, x), row, rest, placed + 1);
        TryDaysPlacesFitCase(ctx, st, row, x, rest, placed);
      } else {
        TryDaysPlaces(ctx, st, row, rest, placed);
        TryDaysPlacesSkipCase(ctx, st, row, x, rest, placed);
      }
    }
  }

  /** A COMEAU store gets the first (at most three) days in preference order whose slot fits
      its distance before the store is placed: one undelayed entry each, on pairwise distinct
      days, and exactly those slots grow by the distance. A shortfall adds no delayed entry. */
  lemma ComeauStepPlacement(ctx: Context, st: PlanState, row: StoreRow)
    requires Valid(st) && row.id in ctx.distances
    ensures var d := Distance(ctx, row);
      var chosen := Take(FitDays(st.slots, d, ctx.maxDaily, PreferenceOrder()), 3);
      var r := ComeauStep(ctx, st, row);
      && |chosen| <= 3 && Distinct(chosen)
      && (forall x :: x in chosen ==> Fits(st.slots[x], d, ctx.maxDaily))
      && r.entries == st.entries + EntriesOn(ctx, row, chosen)
      && r.slots == AddOn(st.slots, chosen, d)
  {
    var d := Distance(ctx, row);
    ComeauTriesInPreferenceOrder(ctx, st, row);
    assert Distinct(PreferenceOrder());
    TryDaysPlaces(ctx, st, row, PreferenceOrder(), 0);
    FitDaysKeepsFitting(st.slots, d, ctx.maxDaily, PreferenceOrder());
    var f := FitDays(st.slots, d, ctx.maxDaily, PreferenceOrder());
    var chosen := Take(f, 3);
    assert forall i :: 0 <= i < |chosen| ==> chosen[i] == f[i];
    assert forall x :: x in chosen ==> x in f;
  }

  /** The entries a COMEAU store adds. */
  function ComeauBlock(ctx: Context, st: PlanState, row: StoreRow): (b: seq<Entry>)
    requires Valid(st) && row.id in ctx.distances
  {
    EntriesOn(ctx, row, Take(FitDays(st.slots, Distance(ctx, row), ctx.maxDaily, PreferenceOrder()), 3))
  }

  /** A block of at most three undelayed entries of `row` on pairwise distinct days. */
  predicate IsVisitBlock(b: seq<Entry>, row: StoreRow)
  {
    && |b| <= 3
    && (forall i :: 0 <= i < |b| ==> b[i].storeId == row.id && b[i].contractId == row.contractId && b[i].delayDays == 0)
    && (forall i, j :: 0 <= i < j < |b| ==> b[i].day != b[j].day)
  }

  lemma ComeauBlockShape(ctx: Context, st: PlanState, row: StoreRow)
    requires Valid(st) && row.id in ctx.distances
    ensures ComeauStep(ctx, st, row).entries == st.entries + ComeauBlock(ctx, st, row)
    ensures IsVisitBlock(ComeauBlock(ctx, st, row), row)
  {
    ComeauStepPlacement(ctx, st, row);
    var chosen := Take(FitDays(st.slots, Distance(ctx, row), ctx.maxDaily, PreferenceOrder()), 3);
    var b := ComeauBlock(ctx, st, row);
    forall i | 0 <= i < |b|
      ensures b[i] == MakeEntry(ctx, row, chosen[i], 0)
    {
      EntriesOnAt(ctx, row, chosen, i);
    }
  }

  /** The blocks of a COMEAU pass, one per row. */
  function ComeauBlocks(ctx: Context, st: PlanState, rows: seq<StoreRow>): (bs: seq<seq<Entry>>)
    requires Valid(st) && Covers(ctx, rows)
    ensures |bs| == |rows|
  {
    if rows == [] then []
    else ComeauBlocks(ctx, st, rows[..|rows| - 1]) + [ComeauBlock(ctx, ComeauPass(ctx, st, rows[..|rows| - 1]), rows[|rows| - 1])]
  }

  function Flatten<T>(bs: seq<seq<T>>): seq<T>
  {
    if bs == [] then [] else Flatten(bs[..|bs| - 1]) + bs[|bs| - 1]
  }

  /** The COMEAU pass appends, row by row in order, one block of at most three undelayed
      entries on distinct days per COMEAU row. */
  lemma {:induction false} ComeauPassBlocks(ctx: Context, st: PlanState, rows: seq<StoreRow>)
    requires Valid(st) && Covers(ctx, rows)
    ensures ComeauPass(ctx, st, rows).entries == st.entries + Flatten(ComeauBlocks(ctx, st, rows))
    ensures forall i :: 0 <= i < |rows| ==> IsVisitBlock(ComeauBlocks(ctx, st, rows)[i], rows[i])
  {
    if rows != [] {
      var prefix := rows[..|rows| - 1];
      ComeauPassBlocks(ctx, st, prefix);
      var before := ComeauPass(ctx, st, prefix);
      ComeauBlockShape(ctx, before, rows[|rows| - 1]);
      var bs := ComeauBlocks(ctx, st, rows);
      assert bs[..|bs| - 1] == ComeauBlocks(ctx, st, prefix);
      forall i | 0 <= i < |rows|
        ensures IsVisitBlock(bs[i], rows[i])
      {
        if i < |prefix| {
          assert bs[i] == ComeauBlocks(ctx, st, prefix)[i];
          assert rows[i] == prefix[i];
        }
      }
    }
  }

  // ---------------------------------------------------------------------------
  // The whole plan
  // ---------------------------------------------------------------------------

  /** The schedule lists the COMDET entries first, one per COMDET row in input order, followed
      by one block per COMEAU row in input order; rows of any other contract type add nothing. */
  lemma PlanOrder(ctx: Context, stores: seq<StoreRow>)
    requires Covers(ctx, stores)
    ensures var comdet := OfType(stores, "COMDET");
      var comeau := OfType(stores, "COMEAU");
      var afterComdet := ComdetPass(ctx, Init(), comdet);
      var es := Plan(ctx, stores).entries;
      && |afterComdet.entries| == |comdet|
      && es == afterComdet.entries + Flatten(ComeauBlocks(ctx, afterComdet, comeau))
      && (forall i :: 0 <= i < |comdet| ==> EntryOf(es[i], comdet[i]))
      && (forall i :: 0 <= i < |comeau| ==> IsVisitBlock(ComeauBlocks(ctx, afterComdet, comeau)[i], comeau[i]))
  {
    var comdet := OfType(stores, "COMDET");
    var comeau := OfType(stores, "COMEAU");
    assert Covers(ctx, comdet) && Covers(ctx, comeau);
    var start := Init();
    ComdetPassOneEntryEach(ctx, start, comdet);
    var afterComdet := ComdetPass(ctx, start, comdet);
    ComeauPassBlocks(ctx, afterComdet, comeau);
    var es := Plan(ctx, stores).entries;
    assert es == ComeauPass(ctx, afterComdet, comeau).entries;
    forall i | 0 <= i < |comdet|
      ensures EntryOf(es[i], comdet[i])
    {
      assert es[i] == afterComdet.entries[|start.entries| + i];
    }
  }

  // ---------------------------------------------------------------------------
  // Slots and schedule agree
  // ---------------------------------------------------------------------------

  /** The kilometres of the undelayed entries on day `d`. */
  function Load(es: seq<Entry>, d: DayIndex): real
  {
    if es == [] then 0.0
    else Load(es[..|es| - 1], d) + (if es[|es| - 1].day == d && es[|es| - 1].delayDays == 0 then es[|es| - 1].distance else 0.0)
  }

  /** Each slot holds exactly the distance of the undelayed entries on its day. */
  predicate SlotsMatchLoads(st: PlanState)
    requires Valid(st)
  {
    forall d: DayIndex :: st.slots[d] == Load(st.entries, d)
  }

  lemma CommitKeepsLoads(ctx: Context, st: PlanState, row: StoreRow, day: DayIndex)
    requires Valid(st) && row.id in ctx.distances && SlotsMatchLoads(st)
    ensures SlotsMatchLoads(Commit(ctx, st, row, day))
  {
    var r := Commit(ctx, st, row, day);
    assert r.entries[..|r.entries| - 1] == st.entries;
  }

  lemma ComdetStepKeepsLoads(ctx: Context, st: PlanState, row: StoreRow)
    requires Valid(st) && row.id in ctx.distances && SlotsMatchLoads(st)
    ensures SlotsMatchLoads(ComdetStep(ctx, st, row))
  {
    var r := ComdetStep(ctx, st, row);
    match FirstFitFrom(st.slots, Distance(ctx, row), ctx.maxDaily, 0)
    case Some(day) => CommitKeepsLoads(ctx, st, row, day);
    case None => assert r.entries[..|r.entries| - 1] == st.entries;
  }

  lemma {:induction false} TryDaysKeepsLoads(ctx: Context, st: PlanState, row: StoreRow, days: seq<DayIndex>, placed: nat)
    requires Valid(st) && row.id in ctx.distances && SlotsMatchLoads(st)
    ensures SlotsMatchLoads(TryDays(ctx, st, row, days, placed).0)
    decreases days
  {
    if days != [] {
      if placed < 3 && Fits(st.slots[days[0]], Distance(ctx, row), ctx.maxDaily) {
        CommitKeepsLoads(ctx, st, row, days[0]);
        TryDaysKeepsLoads(ctx, Commit(ctx, st, row, days[0]), row, days[1..], placed + 1);
      } else {
        TryDaysKeepsLoads(ctx, st, row, days[1..], placed);
      }
    }
  }

  lemma {:induction false} ComdetPassKeepsLoads(ctx: Context, st: PlanState, rows: seq<StoreRow>)
    requires Valid(st) && Covers(ctx, rows) && SlotsMatchLoads(st)
    ensures SlotsMatchLoads(ComdetPass(ctx, st, rows))
  {
    if rows != [] {
      ComdetPassKeepsLoads(ctx, st, rows[..|rows| - 1]);
      ComdetStepKeepsLoads(ctx, ComdetPass(ctx, st, rows[..|rows| - 1]), rows[|rows| - 1]);
    }
  }

  lemma {:induction false} ComeauPassKeepsLoads(ctx: Context, st: PlanState, rows: seq<StoreRow>)
    requires Valid(st) && Covers(ctx, rows) && SlotsMatchLoads(st)
    ensures SlotsMatchLoads(ComeauPass(ctx, st, rows))
  {
    if rows != [] {
      var before := ComeauPass(ctx, st, rows[..|rows| - 1]);
      ComeauPassKeepsLoads(ctx, st, rows[..|rows| - 1]);
      ComeauTriesInPreferenceOrder(ctx, before, rows[|rows| - 1]);
      TryDaysKeepsLoads(ctx, before, rows[|rows| - 1], PreferenceOrder(), 0);
    }
  }

  /** Every slot of the final plan is the sum of the distances of the undelayed entries on its
      day: delayed COMDET entries never count towards a day. */
  lemma PlanSlotsAreLoads(ctx: Context, stores: seq<StoreRow>)
    requires Covers(ctx, stores)
    ensures forall d: DayIndex :: Plan(ctx, stores).slots[d] == Load(Plan(ctx, stores).entries, d)
  {
    var comdet := OfType(stores, "COMDET");
    ComdetPassKeepsLoads(ctx, Init(), comdet);
    ComeauPassKeepsLoads(ctx, ComdetPass(ctx, Init(), comdet), OfType(stores, "COMEAU"));
  }

  /** `dailyDistances.reduce((sum, dist) => sum + dist, 0)`. */
  function Sum(s: seq<real>): real
  {
    if s == [] then 0.0 else Sum(s[..|s| - 1]) + s[|s| - 1]
  }

  /** The total distance of the undelayed entries. */
  function Committed(es: seq<Entry>): real
  {
    if es == [] then 0.0
    else Committed(es[..|es| - 1]) + (if es[|es| - 1].delayDays == 0 then es[|es| - 1].distance else 0.0)
  }

  lemma {:induction false} SumUpdate(s: seq<real>, i: nat, v: real)
    requires i < |s|
    ensures Sum(s[i := v]) == Sum(s) - s[i] + v
  {
    var t := s[i := v];
    if i < |s| - 1 {
      assert t[..|t| - 1] == s[..|s| - 1][i := v];
      SumUpdate(s[..|s| - 1], i, v);
    } else {
      assert t[..|t| - 1] == s[..|s| - 1];
    }
  }

  lemma {:induction false} SumOfZeros(s: seq<real>)
    requires forall i :: 0 <= i < |s| ==> s[i] == 0.0
    ensures Sum(s) == 0.0
  {
    if s != [] {
      SumOfZeros(s[..|s| - 1]);
    }
  }

  lemma {:induction false} SumOfLoads(slots: seq<real>, es: seq<Entry>)
    requires |slots| == 7 && forall d: DayIndex :: slots[d] == Load(es, d)
    ensures Sum(slots) == Committed(es)
    decreases |es|
  {
    if es == [] {
      SumOfZeros(slots);
    } else {
      var prefix := es[..|es| - 1];
      var e := es[|es| - 1];
      var delta := if e.delayDays == 0 then e.distance else 0.0;
      var before := slots[e.day := slots[e.day] - delta];
      forall d: DayIndex ensures before[d] == Load(prefix, d) {
      }
      SumOfLoads(before, prefix);
      SumUpdate(before, e.day, slots[e.day]);
      assert before[e.day := slots[e.day]] == slots;
    }
  }

  /** The summary's total distance is the sum of the undelayed entries' distances. */
  lemma PlanTotalIsCommitted(ctx: Context, stores: seq<StoreRow>)
    requires Covers(ctx, stores)
    ensures Sum(Plan(ctx, stores).slots) == Committed(Plan(ctx, stores).entries)
  {
    PlanSlotsAreLoads(ctx, stores);
    SumOfLoads(Plan(ctx, stores).slots, Plan(ctx, stores).entries);
  }

  /** A plan with no entries has committed nothing on any day. */
  lemma EmptyPlanHasZeroSlots(ctx: Context, stores: seq<StoreRow>)
    requires Covers(ctx, stores) && Plan(ctx, stores).entries == []
    ensures forall d: DayIndex :: Plan(ctx, stores).slots[d] == 0.0
    ensures Sum(Plan(ctx, stores).slots) == 0.0
  {
    PlanSlotsAreLoads(ctx, stores);
    PlanTotalIsCommitted(ctx, stores);
  }

  // ---------------------------------------------------------------------------
  // What every entry carries from the run
  // ---------------------------------------------------------------------------

  /** An entry of this run: its warehouse, week and year are the run's, and its delivery date is
      the date of its day in the requested week. */
  predicate Stamped(ctx: Context, e: Entry)
  {
    e.warehouseId == ctx.warehouseId && e.weekNumber == ctx.weekNumber && e.year == ctx.year
    && e.deliveryDate == ctx.monday + e.day
  }

  predicate AllStamped(ctx: Context, es: seq<Entry>)
  {
    forall i :: 0 <= i < |es| ==> Stamped(ctx, es[i])
  }

  lemma {:induction false} ComdetPassStamped(ctx: Context, st: PlanState, rows: seq<StoreRow>)
    requires Valid(st) && Covers(ctx, rows) && AllStamped(ctx, st.entries)
    ensures AllStamped(ctx, ComdetPass(ctx, st, rows).entries)
  {
    if rows != [] {
      var prefix := rows[..|rows| - 1];
      ComdetPassStamped(ctx, st, prefix);
      var before := ComdetPass(ctx, st, prefix);
      ComdetStepPlacement(ctx, before, rows[|rows| - 1]);
      var r := ComdetPass(ctx, st, rows);
      forall i | 0 <= i < |r.entries| ensures Stamped(ctx, r.entries[i]) {
        if i < |before.entries| {
          assert r.entries[i] == before.entries[i];
        }
      }
    }
  }

  lemma ComeauStepStamped(ctx: Context, st: PlanState, row: StoreRow)
    requires Valid(st) && row.id in ctx.distances && AllStamped(ctx, st.entries)
    ensures AllStamped(ctx, ComeauStep(ctx, st, row).entries)
  {
    ComeauStepPlacement(ctx, st, row);
    var chosen := Take(FitDays(st.slots, Distance(ctx, row), ctx.maxDaily, PreferenceOrder()), 3);
    var r := ComeauStep(ctx, st, row);
    var added := EntriesOn(ctx, row, chosen);
    forall i | 0 <= i < |r.entries| ensures Stamped(ctx, r.entries[i]) {
      if i < |st.entries| {
        assert r.entries[i] == st.entries[i];
      } else {
        assert r.entries[i] == added[i - |st.entries|];
        EntriesOnAt(ctx, row, chosen, i - |st.entries|);
      }
    }
  }

  lemma {:induction false} ComeauPassStamped(ctx: Context, st: PlanState, rows: seq<StoreRow>)
    requires Valid(st) && Covers(ctx, rows) && AllStamped(ctx, st.entries)
    ensures AllStamped(ctx, ComeauPass(ctx, st, rows).entries)
  {
    if rows != [] {
      ComeauPassStamped(ctx, st, rows[..|rows| - 1]);
      ComeauStepStamped(ctx, ComeauPass(ctx, st, rows[..|rows| - 1]), rows[|rows| - 1]);
    }
  }

  /** Every entry of a plan carries the run's warehouse id, week and year, and is dated on its
      day of the requested week. */
  lemma PlanStamped(ctx: Context, stores: seq<StoreRow>)
    requires Covers(ctx, stores)
    ensures AllStamped(ctx, Plan(ctx, stores).entries)
  {
    var comdet := OfType(stores, "COMDET");
    ComdetPassStamped(ctx, Init(), comdet);
    ComeauPassStamped(ctx, ComdetPass(ctx, Init(), comdet), OfType(stores, "COMEAU"));
  }

  // ---------------------------------------------------------------------------
  // The daily budget
  // ---------------------------------------------------------------------------

  /** Every slot is within the budget `maxDailyDistance`. */
  predicate WithinBudget(slots: seq<real>, max: Number)
    requires |slots| == 7
  {
    forall d: DayIndex :: Fits(slots[d], 0.0, max)
  }

  lemma {:induction false} TryDaysKeepsBudget(ctx: Context, st: PlanState, row: StoreRow, days: seq<DayIndex>, placed: nat)
    requires Valid(st) && row.id in ctx.distances && WithinBudget(st.slots, ctx.maxDaily)
    ensures WithinBudget(TryDays(ctx, st, row, days, placed).0.slots, ctx.maxDaily)
    decreases days
  {
    if days != [] {
      if placed < 3 && Fits(st.slots[days[0]], Distance(ctx, row), ctx.maxDaily) {
        TryDaysKeepsBudget(ctx, Commit(ctx, st, row, days[0]), row, days[1..], placed + 1);
      } else {
        TryDaysKeepsBudget(ctx, st, row, days[1..], placed);
      }
    }
  }

  /** Placing a COMDET store keeps every slot within budget: a distance is committed only after
      its fit test passes, and a delayed entry commits nothing. */
  lemma ComdetStepKeepsBudget(ctx: Context, st: PlanState, row: StoreRow)
    requires Valid(st) && row.id in ctx.distances && WithinBudget(st.slots, ctx.maxDaily)
    ensures WithinBudget(ComdetStep(ctx, st, row).slots, ctx.maxDaily)
  {
    ComdetStepPlacement(ctx, st, row);
  }

  /** Placing a COMEAU store keeps every slot within budget. */
  lemma ComeauStepKeepsBudget(ctx: Context, st: PlanState, row: StoreRow)
    requires Valid(st) && row.id in ctx.distances && WithinBudget(st.slots, ctx.maxDaily)
    ensures WithinBudget(ComeauStep(ctx, st, row).slots, ctx.maxDaily)
  {
    ComeauTriesInPreferenceOrder(ctx, st, row);
    TryDaysKeepsBudget(ctx, st, row, PreferenceOrder(), 0);
  }

  lemma {:induction false} ComdetPassKeepsBudget(ctx: Context, st: PlanState, rows: seq<StoreRow>)
    requires Valid(st) && Covers(ctx, rows) && WithinBudget(st.slots, ctx.maxDaily)
    ensures WithinBudget(ComdetPass(ctx, st, rows).slots, ctx.maxDaily)
  {
    if rows != [] {
      ComdetPassKeepsBudget(ctx, st, rows[..|rows| - 1]);
      ComdetStepKeepsBudget(ctx, ComdetPass(ctx, st, rows[..|rows| - 1]), rows[|rows| - 1]);
    }
  }

  lemma {:induction false} ComeauPassKeepsBudget(ctx: Context, st: PlanState, rows: seq<StoreRow>)
    requires Valid(st) && Covers(ctx, rows) && WithinBudget(st.slots, ctx.maxDaily)
    ensures WithinBudget(ComeauPass(ctx, st, rows).slots, ctx.maxDaily)
  {
    if rows != [] {
      ComeauPassKeepsBudget(ctx, st, rows[..|rows| - 1]);
      ComeauStepKeepsBudget(ctx, ComeauPass(ctx, st, rows[..|rows| - 1]), rows[|rows| - 1]);
    }
  }

  /** With a non-negative budget, no day of the plan exceeds it. */
  lemma PlanWithinBudget(ctx: Context, stores: seq<StoreRow>)
    requires Covers(ctx, stores) && Fits(0.0, 0.0, ctx.maxDaily)
    ensures WithinBudget(Plan(ctx, stores).slots, ctx.maxDaily)
  {
    var comdet := OfType(stores, "COMDET");
    ComdetPassKeepsBudget(ctx, Init(), comdet);
    ComeauPassKeepsBudget(ctx, ComdetPass(ctx, Init(), comdet), OfType(stores, "COMEAU"));
  }
}
