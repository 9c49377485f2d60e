/**
 * backend/services/dashboardService.js: the month before the current one, the merging of the
 * parallel query answers, and the defaults `_processDashboardData` fills in around them.
 */
module Dashboard {
  import opened Wrappers
  import opened JsValues
  import Export

  /** A row of a query answer, as the object the driver builds from its columns. */
  type Row = map<string, JsValue>

  type Rows = seq<Row>

  // ---------------------------------------------------------------------------
  // The previous month
  // ---------------------------------------------------------------------------

  /** A calendar month, numbered 1 to 12, in a year. */
  datatype MonthOfYear = MonthOfYear(month: int, year: int)

  /** Months counted from January of year 0, so consecutive months are consecutive numbers. */
  function MonthIndex(m: MonthOfYear): int
  {
    m.year * 12 + m.month - 1
  }

  /** `lastMonth` and `lastMonthYear` of `getDashboardStats`; `month` is `getMonth() + 1`, so it
      lies in 1..12. January rolls back to December of the year before. */
  function PreviousMonth(current: MonthOfYear): (p: MonthOfYear)
    requires 1 <= current.month <= 12
    ensures 1 <= p.month <= 12
    ensures MonthIndex(p) + 1 == MonthIndex(current)
    ensures current.month == 1 ==> p == MonthOfYear(12, current.year - 1)
    ensures current.month != 1 ==> p == MonthOfYear(current.month - 1, current.year)
  {
    if current.month == 1 then MonthOfYear(12, current.year - 1) else MonthOfYear(current.month - 1, current.year)
  }

  /** A month has exactly one predecessor: any month of 1..12 one step before `current` is the
      one `PreviousMonth` computes. */
  lemma PreviousMonthUnique(current: MonthOfYear, p: MonthOfYear)
    requires 1 <= current.month <= 12 && 1 <= p.month <= 12
    requires MonthIndex(p) + 1 == MonthIndex(current)
    ensures p == PreviousMonth(current)
  {
  }

  // ---------------------------------------------------------------------------
  // The queries and the merging of their answers
  // ---------------------------------------------------------------------------

  /** A named query with its `?` parameters. */
  datatype Query = Query(key: string, params: seq<int>)

  /** The seven queries of `getDashboardStats`, in the order of their keys. Only the two
      delivery counts take parameters: this month, and the month before. */
  function DashboardQueries(current: MonthOfYear): (qs: seq<Query>)
    requires 1 <= current.month <= 12
    ensures |qs| == 7 && Export.Distinct(Keys(qs))
    ensures qs[0] == Query("currentMonthDeliveries", [current.month, current.year])
    ensures qs[1] == Query("lastMonthDeliveries", [PreviousMonth(current).month, PreviousMonth(current).year])
    ensures forall i :: 2 <= i < 7 ==> qs[i].params == []
  {
    var last := PreviousMonth(current);
    [Query("currentMonthDeliveries", [current.month, current.year]),
     Query("lastMonthDeliveries", [last.month, last.year]),
     Query("totalStores", []), Query("totalContracts", []), Query("recentOptimizations", []),
     Query("contractTypes", []), Query("weeklyTrends", [])]
  }

  function Keys(qs: seq<Query>): (r: seq<string>)
    ensures |r| == |qs| && forall i :: 0 <= i < |qs| ==> r[i] == qs[i].key
  {
    if qs == [] then [] else Keys(qs[..|qs| - 1]) + [qs[|qs| - 1].key]
  }

  /** The object `_executeQueries` builds: for each answer in turn, in the order of the keys, a
      query that failed (`None`, resolved as `null`) adds nothing, and one that succeeded sets its
      key to its rows. */
  function Merged(keys: seq<string>, answers: seq<Option<Rows>>): (r: map<string, Rows>)
    requires |answers| == |keys|
    ensures forall k :: k in r <==> exists i :: 0 <= i < |keys| && keys[i] == k && answers[i].Some?
  {
    if keys == [] then map[]
    else
      var n := |keys| - 1;
      var before := Merged(keys[..n], answers[..n]);
      assert forall i :: 0 <= i < n ==> keys[..n][i] == keys[i] && answers[..n][i] == answers[i];
      if answers[n].Some? then before[keys[n] := answers[n].value] else before
  }

  /** With distinct keys every successful query's rows are found under its key, and a failed
      query's key is absent. */
  lemma {:induction false} MergedLookup(keys: seq<string>, answers: seq<Option<Rows>>, i: nat)
    requires |answers| == |keys| && Export.Distinct(keys) && i < |keys|
    ensures answers[i].Some? ==> keys[i] in Merged(keys, answers) && Merged(keys, answers)[keys[i]] == answers[i].value
    ensures answers[i].None? ==> keys[i] !in Merged(keys, answers)
  {
    var n := |keys| - 1;
    if i < n {
      assert Export.Distinct(keys[..n]);
      assert keys[..n][i] == keys[i] && answers[..n][i] == answers[i];
      MergedLookup(keys[..n], answers[..n], i);
      assert keys[n] != keys[i];
    } else if answers[i].None? {
      assert Merged(keys, answers) == Merged(keys[..n], answers[..n]);
      assert forall j :: 0 <= j < n ==> keys[..n][j] != keys[n];
    }
  }

  /** `_executeQueries`: the answers, which arrive in the order of the keys, are copied into
      `results` one by one. */
  method ExecuteQueries(keys: seq<string>, answers: seq<Option<Rows>>) returns (results: map<string, Rows>)
    requires |answers| == |keys|
    ensures results == Merged(keys, answers)
  {
    results := map[];
    assert keys[..0] == [];
    for i := 0 to |keys|
      invariant results == Merged(keys[..i], answers[..i])
    {
      assert keys[..i + 1][..i] == keys[..i] && answers[..i + 1][..i] == answers[..i];
      if answers[i].Some? {
        results := results[keys[i] := answers[i].value];
      }
    }
    assert keys[..|keys|] == keys && answers[..|answers|] == answers;
  }

  // ---------------------------------------------------------------------------
  // _processDashboardData
  // ---------------------------------------------------------------------------

  /** A count as the service reports it: the value read, or the default 0. */
  predicate CountLike(v: JsValue)
  {
    Truthy(v) || v == Int(0)
  }

  /** `results.<key>?.[0]?.count || 0`. */
  function FirstCount(results: map<string, Rows>, key: string): (v: JsValue)
    ensures CountLike(v)
    ensures key !in results || results[key] == [] ==> v == Int(0)
    ensures key in results && results[key] != [] ==> v == Or(Get(results[key][0], "count"), Int(0))
  {
    if key in results && results[key] != [] then Or(Get(results[key][0], "count"), Int(0)) else Int(0)
  }

  /** `deliveryGrowth`: 0 unless last month's count is positive, otherwise the percentage change
      from `last` to `current`, whose floating-point value is not modelled. */
  datatype Growth = NoGrowth | Change(current: JsValue, last: JsValue)

  function DeliveryGrowth(current: JsValue, last: JsValue): (g: Growth)
    ensures g.NoGrowth? <==> !Greater(last, 0.0)
    ensures g.Change? ==> g == Change(current, last)
  {
    if Greater(last, 0.0) then Change(current, last) else NoGrowth
  }

  /** The property key a row's `contract_type` is stored under. */
  function TypeKey(row: Row, fraction: real -> string): string
  {
    StringOf(Get(row, "contract_type"), fraction)
  }

  /** The object `contractTypeCounts` after the rows have been visited in order: each row sets
      its type's property to its count, so a later row of the same type overwrites. */
  function CountsOf(rows: Rows, fraction: real -> string): (r: map<string, JsValue>)
    ensures forall k :: k in r <==> exists i :: 0 <= i < |rows| && TypeKey(rows[i], fraction) == k
  {
    if rows == [] then map[]
    else
      var n := |rows| - 1;
      assert forall i :: 0 <= i < n ==> rows[..n][i] == rows[i];
      CountsOf(rows[..n], fraction)[TypeKey(rows[n], fraction) := Get(rows[n], "count")]
  }

  /** The count stored under a type is that of the last row of the type. */
  lemma {:induction false} LastRowWins(rows: Rows, fraction: real -> string, i: nat)
    requires i < |rows|
    requires forall j :: i < j < |rows| ==> TypeKey(rows[j], fraction) != TypeKey(rows[i], fraction)
    ensures CountsOf(rows, fraction)[TypeKey(rows[i], fraction)] == Get(rows[i], "count")
  {
    var n := |rows| - 1;
    if i < n {
      assert rows[..n][i] == rows[i];
      assert forall j :: i < j < n ==> rows[..n][j] == rows[j];
      LastRowWins(rows[..n], fraction, i);
    }
  }

  /** `contractTypeCounts` as the loop fills it; the rows of a failed query count as none. */
  function ContractRows(results: map<string, Rows>): Rows
  {
    if "contractTypes" in results then results["contractTypes"] else []
  }

  /** The object `_processDashboardData` returns, without the two `toFixed` averages. */
  datatype DashboardStats = DashboardStats(
    deliveries: JsValue, deliveryGrowth: Growth, stores: JsValue, contracts: JsValue,
    recentRuns: JsValue,
    comeau: JsValue, comdet: JsValue, total: JsValue,
    weekly: Rows)

  /** The dashboard computed from the merged results: every count falls back to 0, the contract
      total repeats the active-contract count, and an empty object gives the all-zero dashboard. */
  function Stats(results: map<string, Rows>, fraction: real -> string): (s: DashboardStats)
    ensures s.deliveries == FirstCount(results, "currentMonthDeliveries")
    ensures s.stores == FirstCount(results, "totalStores")
    ensures s.contracts == FirstCount(results, "totalContracts")
    ensures s.recentRuns == FirstCount(results, "recentOptimizations")
    ensures CountLike(s.comeau) && CountLike(s.comdet)
    ensures s.total == s.contracts
    ensures s.deliveryGrowth.NoGrowth? <==> !Greater(FirstCount(results, "lastMonthDeliveries"), 0.0)
    ensures "weeklyTrends" in results ==> s.weekly == results["weeklyTrends"]
    ensures "weeklyTrends" !in results ==> s.weekly == []
    ensures results == map[] ==>
      s == DashboardStats(Int(0), NoGrowth, Int(0), Int(0), Int(0), Int(0), Int(0), Int(0), [])
  {
    var counts := CountsOf(ContractRows(results), fraction);
    var current := FirstCount(results, "currentMonthDeliveries");
    DashboardStats(
      current, DeliveryGrowth(current, FirstCount(results, "lastMonthDeliveries")),
      FirstCount(results, "totalStores"), FirstCount(results, "totalContracts"),
      FirstCount(results, "recentOptimizations"),
      Or(Get(counts, "COMEAU"), Int(0)), Or(Get(counts, "COMDET"), Int(0)), FirstCount(results, "totalContracts"),
      if "weeklyTrends" in results then results["weeklyTrends"] else [])
  }

  /** The COMEAU count is the count of the last COMEAU row, when that is truthy. */
  lemma ComeauFromLastRow(results: map<string, Rows>, fraction: real -> string, i: nat)
    requires i < |ContractRows(results)| && TypeKey(ContractRows(results)[i], fraction) == "COMEAU"
    requires forall j :: i < j < |ContractRows(results)| ==> TypeKey(ContractRows(results)[j], fraction) != "COMEAU"
    requires Truthy(Get(ContractRows(results)[i], "count"))
    ensures Stats(results, fraction).comeau == Get(ContractRows(results)[i], "count")
  {
    LastRowWins(ContractRows(results), fraction, i);
  }

  /** Without a COMDET row, including when the query failed, the COMDET count is 0. */
  lemma ComdetDefaultsToZero(results: map<string, Rows>, fraction: real -> string)
    requires forall i :: 0 <= i < |ContractRows(results)| ==> TypeKey(ContractRows(results)[i], fraction) != "COMDET"
    ensures Stats(results, fraction).comdet == Int(0)
  {
    assert "COMDET" !in CountsOf(ContractRows(results), fraction);
  }

  /** `_processDashboardData`, with its loop over the contract-type rows. */
  method ProcessDashboardData(results: map<string, Rows>, fraction: real -> string) returns (stats: DashboardStats)
    ensures stats == Stats(results, fraction)
  {
    var currentDeliveries := FirstCount(results, "currentMonthDeliveries");
    var lastDeliveries := FirstCount(results, "lastMonthDeliveries");
    var growth := if Greater(lastDeliveries, 0.0) then Change(currentDeliveries, lastDeliveries) else NoGrowth;
    var contractTypeCounts: map<string, JsValue> := map[];
    if "contractTypes" in results {
      var rows := results["contractTypes"];
      assert rows[..0] == [];
      for i := 0 to |rows|
        invariant contractTypeCounts == CountsOf(rows[..i], fraction)
      {
        assert rows[..i + 1][..i] == rows[..i];
        contractTypeCounts := contractTypeCounts[TypeKey(rows[i], fraction) := Get(rows[i], "count")];
      }
      assert rows[..|rows|] == rows;
    }
    stats := DashboardStats(
      currentDeliveries, growth,
      FirstCount(results, "totalStores"), FirstCount(results, "totalContracts"),
      FirstCount(results, "recentOptimizations"),
      Or(Get(contractTypeCounts, "COMEAU"), Int(0)), Or(Get(contractTypeCounts, "COMDET"), Int(0)),
      FirstCount(results, "totalContracts"),
      if "weeklyTrends" in results then results["weeklyTrends"] else []);
  }

  /** `getDashboardStats`: the seven queries for the month of the clock, their answers merged,
      then processed. `answers` holds what each query returned, in the order of the queries. */
  method GetDashboardStats(current: MonthOfYear, answers: seq<Option<Rows>>, fraction: real -> string)
    returns (stats: DashboardStats)
    requires 1 <= current.month <= 12 && |answers| == 7
    ensures stats == Stats(Merged(Keys(DashboardQueries(current)), answers), fraction)
  {
    var queries := DashboardQueries(current);
    var results := ExecuteQueries(Keys(queries), answers);
    stats := ProcessDashboardData(results, fraction);
  }

  /** When every query fails the dashboard shows only zeros. */
  lemma AllQueriesFailed(current: MonthOfYear, answers: seq<Option<Rows>>, fraction: real -> string)
    requires 1 <= current.month <= 12 && |answers| == 7
    requires forall i :: 0 <= i < 7 ==> answers[i].None?
    ensures Stats(Merged(Keys(DashboardQueries(current)), answers), fraction)
         == DashboardStats(Int(0), NoGrowth, Int(0), Int(0), Int(0), Int(0), Int(0), Int(0), [])
  {
    var m := Merged(Keys(DashboardQueries(current)), answers);
    assert forall k :: k !in m;
    assert m == map[];
  }

  // ---------------------------------------------------------------------------
  // getWarehouseMetrics
  // ---------------------------------------------------------------------------

  /** How `getWarehouseMetrics` settles. */
  datatype MetricsOutcome = MetricsFailed(message: string) | Metrics(metrics: Row)

  /** The fixed object returned for a warehouse without deliveries in the last 30 days. */
  function UnknownWarehouse(): (m: Row)
    ensures Get(m, "warehouse_name") == Str("Unknown")
    ensures forall k :: k in m ==> k == "warehouse_name" || m[k] == Int(0)
    ensures m.Keys == {"warehouse_name", "total_deliveries", "avg_distance", "total_distance", "unique_stores"}
  {
    map["warehouse_name" := Str("Unknown"), "total_deliveries" := Int(0), "avg_distance" := Int(0),
        "total_distance" := Int(0), "unique_stores" := Int(0)]
  }

  /** `results` is the query's answer, `None` when it fails. */
  function WarehouseMetrics(results: Option<Rows>): (r: MetricsOutcome)
    ensures r.MetricsFailed? <==> results.None?
    ensures results.None? ==> r.message == "Failed to fetch warehouse metrics"
    ensures results == Some([]) ==> r == Metrics(UnknownWarehouse())
    ensures results.Some? && results.value != [] ==> r == Metrics(results.value[0])
  {
    match results
    case None => MetricsFailed("Failed to fetch warehouse metrics")
    case Some(rows) => if rows == [] then Metrics(UnknownWarehouse()) else Metrics(rows[0])
  }
}
