/**
 * The weekly export of backend/services/exportService.js: the rows of the export query are
 * pivoted into one record per store code (`_transformToWeeklyFormat`), listed in the order
 * `Object.values` gives, and serialised as CSV (`_convertToCSV`) or returned as JSON
 * (`exportSchedule`).
 */
module Export {
  import opened Wrappers
  import opened JsValues
  import Calendar
  import opened Csv

  /** One row of the export query: the store's code and name, the contract type, the day name
      and delay of the delivery, and the warehouse's location. */
  datatype ExportRow = ExportRow(code: string, store: string, contract: string, dayOfWeek: string,
                                 delayDays: int, warehouse: string)

  /** One pivot record; `days[d]` and `delays[d]` are the columns `<Day>` and `DELAY_<Day>` of
      day `d`, Monday first. */
  datatype WeeklyRecord = WeeklyRecord(code: string, store: string, contract: string, warehouse: string,
                                       frequency: nat, days: seq<int>, delays: seq<int>)

  predicate Shaped(rec: WeeklyRecord)
  {
    |rec.days| == 7 && |rec.delays| == 7
  }

  /** The day a `delivery_day_of_week` names, Monday = 0. */
  function DayIndexOf(name: string): (r: Option<nat>)
    ensures r.Some? ==> r.value < 7 && Calendar.DayNames()[r.value] == name
    ensures r.None? ==> name !in Calendar.DayNames()
  {
    DayIndexFrom(name, 0)
  }

  function DayIndexFrom(name: string, from: nat): (r: Option<nat>)
    requires from <= 7
    ensures r.Some? ==> from <= r.value < 7 && Calendar.DayNames()[r.value] == name
    ensures r.None? ==> forall k :: from <= k < 7 ==> Calendar.DayNames()[k] != name
    decreases 7 - from
  {
    if from == 7 then None
    else if Calendar.DayNames()[from] == name then Some(from)
    else DayIndexFrom(name, from + 1)
  }

  /** The record created for the first row of a code: its store, contract and warehouse, with
      every counter at 0. */
  function Fresh(row: ExportRow): WeeklyRecord
  {
    WeeklyRecord(row.code, row.store, row.contract, row.warehouse, 0, seq(7, _ => 0), seq(7, _ => 0))
  }

  /** The three updates a row makes to its record: the day flag, the day's delay, `Frequency++`. */
  function Apply(rec: WeeklyRecord, row: ExportRow): (r: WeeklyRecord)
    requires Shaped(rec)
    ensures Shaped(r)
  {
    var flagged := match DayIndexOf(row.dayOfWeek)
      case Some(d) => rec.(days := rec.days[d := 1], delays := rec.delays[d := row.delayDays])
      case None => rec;
    flagged.(frequency := flagged.frequency + 1)
  }

  // ---------------------------------------------------------------------------
  // The pivot as a function of the rows
  // ---------------------------------------------------------------------------

  /** The object `weeklySchedule`: its properties, and the order in which they were created. */
  datatype Pivot = Pivot(table: map<string, WeeklyRecord>, keys: seq<string>)

  predicate Distinct(s: seq<string>)
  {
    forall i, j :: 0 <= i < j < |s| ==> s[i] != s[j]
  }

  ghost predicate PivotValid(p: Pivot)
  {
    && (forall c :: c in p.table <==> c in p.keys)
    && Distinct(p.keys)
    && (forall c :: c in p.table ==> Shaped(p.table[c]) && p.table[c].code == c)
  }

  function PivotStep(p: Pivot, row: ExportRow): (r: Pivot)
    requires PivotValid(p)
    ensures PivotValid(r)
  {
    var known := row.code in p.table;
    var rec := if known then p.table[row.code] else Fresh(row);
    var r := Pivot(p.table[row.code := Apply(rec, row)], if known then p.keys else p.keys + [row.code]);
    assert forall c :: c in r.keys <==> c in p.keys || c == row.code;
    r
  }

  /** `weeklySchedule` after the `forEach` over `rows`. */
  function PivotOf(rows: seq<ExportRow>): (p: Pivot)
    ensures PivotValid(p)
  {
    if rows == [] then Pivot(map[], []) else PivotStep(PivotOf(rows[..|rows| - 1]), rows[|rows| - 1])
  }

  // ---------------------------------------------------------------------------
  // Object.values order
  // ---------------------------------------------------------------------------

  /** A canonical array index: the decimal form, without leading zeros, of a number below
      2^32 - 1. `Object.values` lists such keys first, in ascending numeric order. */
  predicate IsArrayIndex(k: string)
  {
    |k| >= 1 && AllDigitsIn(k, 10) && (k[0] != '0' || |k| == 1) && DigitsValue(k, 10) < 4294967295
  }

  function IndexValue(k: string): nat
  {
    DigitsValue(k, 10)
  }

  predicate AscendingIndices(s: seq<string>)
  {
    forall i, j :: 0 <= i < j < |s| ==> IndexValue(s[i]) <= IndexValue(s[j])
  }

  /** `k` placed before the first key of `sorted` whose value is not below its own. */
  function Insert(k: string, sorted: seq<string>): seq<string>
  {
    if sorted == [] then [k]
    else if IndexValue(k) <= IndexValue(sorted[0]) then [k] + sorted
    else [sorted[0]] + Insert(k, sorted[1..])
  }

  /** Insertion sort of array-index keys by their numeric value. */
  function SortIndices(keys: seq<string>): seq<string>
  {
    if keys == [] then [] else Insert(keys[|keys| - 1], SortIndices(keys[..|keys| - 1]))
  }

  /** The keys of `keys`, in order, that are (`want == true`) or are not array indices. */
  function FilterIndices(keys: seq<string>, want: bool): seq<string>
  {
    if keys == [] then []
    else FilterIndices(keys[..|keys| - 1], want) + (if IsArrayIndex(keys[|keys| - 1]) == want then [keys[|keys| - 1]] else [])
  }

  /** The order of `Object.keys`/`Object.values`: array indices ascending, then the other
      keys in creation order. */
  function PropertyOrder(keys: seq<string>): (r: seq<string>)
    ensures |r| == |keys|
    ensures forall k :: k in r <==> k in keys
  {
    PropertyOrderPermutes(keys);
    var r := SortIndices(FilterIndices(keys, true)) + FilterIndices(keys, false);
    assert |r| == |multiset(r)|;
    assert forall k :: k in r <==> k in multiset(r);
    r
  }

  /** `Object.values(weeklySchedule)`. */
  function ObjectValues(p: Pivot): (r: seq<WeeklyRecord>)
    requires PivotValid(p)
    ensures |r| == |p.keys|
    ensures forall i :: 0 <= i < |r| ==>
      PropertyOrder(p.keys)[i] in p.table && r[i] == p.table[PropertyOrder(p.keys)[i]] && Shaped(r[i])
  {
    var order := PropertyOrder(p.keys);
    seq(|order|, i requires 0 <= i < |order| => p.table[order[i]])
  }

  lemma {:induction false} InsertFacts(k: string, sorted: seq<string>)
    ensures multiset(Insert(k, sorted)) == multiset(sorted) + multiset{k}
    ensures AscendingIndices(sorted) ==> AscendingIndices(Insert(k, sorted))
  {
    if sorted != [] && IndexValue(k) > IndexValue(sorted[0]) {
      var rest := Insert(k, sorted[1..]);
      InsertFacts(k, sorted[1..]);
      assert sorted == [sorted[0]] + sorted[1..];
      if AscendingIndices(sorted) {
        AscendingTail(sorted);
        forall x | x in rest ensures IndexValue(sorted[0]) <= IndexValue(x) {
          assert x in multiset(rest);
          if x != k {
            assert x in multiset(sorted[1..]);
            AscendingHead(sorted, x);
          }
        }
        InsertHead(sorted[0], rest);
      }
    }
  }

  lemma AscendingTail(s: seq<string>)
    requires s != [] && AscendingIndices(s)
    ensures AscendingIndices(s[1..])
  {
    forall i, j | 0 <= i < j < |s[1..]| ensures IndexValue(s[1..][i]) <= IndexValue(s[1..][j]) {
      assert s[1..][i] == s[i + 1] && s[1..][j] == s[j + 1];
    }
  }

  lemma AscendingHead(s: seq<string>, x: string)
    requires s != [] && AscendingIndices(s) && x in s[1..]
    ensures IndexValue(s[0]) <= IndexValue(x)
  {
    var j :| 0 <= j < |s[1..]| && s[1..][j] == x;
    assert s[j + 1] == x;
  }

  lemma InsertHead(h: string, rest: seq<string>)
    requires AscendingIndices(rest) && forall x :: x in rest ==> IndexValue(h) <= IndexValue(x)
    ensures AscendingIndices([h] + rest)
  {
    var r := [h] + rest;
    forall i, j | 0 <= i < j < |r| ensures IndexValue(r[i]) <= IndexValue(r[j]) {
      assert r[j] == rest[j - 1];
      if i > 0 {
        assert r[i] == rest[i - 1];
      } else {
        assert rest[j - 1] in rest;
      }
    }
  }

  /** Insertion sort is a permutation into ascending order. */
  lemma {:induction false} SortFacts(keys: seq<string>)
    ensures multiset(SortIndices(keys)) == multiset(keys)
    ensures AscendingIndices(SortIndices(keys))
  {
    if keys != [] {
      var prefix := keys[..|keys| - 1];
      SortFacts(prefix);
      InsertFacts(keys[|keys| - 1], SortIndices(prefix));
      assert keys == prefix + [keys[|keys| - 1]];
    }
  }

  /** A filter keeps exactly the keys of its kind. */
  lemma {:induction false} FilterFacts(keys: seq<string>, want: bool)
    ensures forall k :: k in FilterIndices(keys, want) <==> k in keys && IsArrayIndex(k) == want
  {
    if keys != [] {
      var prefix := keys[..|keys| - 1];
      FilterFacts(prefix, want);
      assert keys == prefix + [keys[|keys| - 1]];
    }
  }

  /** The two filters split the keys between them. */
  lemma {:induction false} FilterSplits(keys: seq<string>)
    ensures multiset(FilterIndices(keys, true)) + multiset(FilterIndices(keys, false)) == multiset(keys)
  {
    if keys != [] {
      var prefix := keys[..|keys| - 1];
      var last := keys[|keys| - 1];
      FilterSplits(prefix);
      assert keys == prefix + [last];
      if IsArrayIndex(last) {
        assert FilterIndices(keys, true) == FilterIndices(prefix, true) + [last];
        assert FilterIndices(keys, false) == FilterIndices(prefix, false);
      } else {
        assert FilterIndices(keys, true) == FilterIndices(prefix, true);
        assert FilterIndices(keys, false) == FilterIndices(prefix, false) + [last];
      }
    }
  }

  /** The property order lists every key, each as often as it was created. */
  lemma PropertyOrderPermutes(keys: seq<string>)
    ensures multiset(SortIndices(FilterIndices(keys, true)) + FilterIndices(keys, false)) == multiset(keys)
  {
    FilterSplits(keys);
    SortFacts(FilterIndices(keys, true));
  }

  // ---------------------------------------------------------------------------
  // _transformToWeeklyFormat
  // ---------------------------------------------------------------------------

  /** The updates of one row to the record of its code: the day flag, the day's delay, then
      `Frequency++`. */
  method UpdateRecord(record: WeeklyRecord, row: ExportRow) returns (updated: WeeklyRecord)
    requires Shaped(record)
    ensures updated == Apply(record, row)
  {
    updated := record;
    var dayName := DayIndexOf(row.dayOfWeek);
    if dayName.Some? {
      updated := updated.(days := updated.days[dayName.value := 1]);
      updated := updated.(delays := updated.delays[dayName.value := row.delayDays]);
    }
    updated := updated.(frequency := updated.frequency + 1);
  }

  /** One iteration of the `forEach`: create the record of a new code, then update it. */
  method AddRow(weeklySchedule: map<string, WeeklyRecord>, keys: seq<string>, row: ExportRow)
    returns (schedule': map<string, WeeklyRecord>, keys': seq<string>)
    requires PivotValid(Pivot(weeklySchedule, keys))
    ensures Pivot(schedule', keys') == PivotStep(Pivot(weeklySchedule, keys), row)
  {
    schedule', keys' := weeklySchedule, keys;
    var storeCode := row.code;
    if storeCode !in schedule' {
      schedule' := schedule'[storeCode := Fresh(row)];
      keys' := keys' + [storeCode];
    }
    var record := UpdateRecord(schedule'[storeCode], row);
    schedule' := schedule'[storeCode := record];
  }

  lemma PivotOfSnoc(rows: seq<ExportRow>, i: nat)
    requires i < |rows|
    ensures PivotOf(rows[..i + 1]) == PivotStep(PivotOf(rows[..i]), rows[i])
  {
    assert rows[..i + 1][..i] == rows[..i];
  }

  /** `_transformToWeeklyFormat(results)`: the `forEach` that creates and updates the records,
      then `Object.values`. `keys` follows the creation order of the object's properties. */
  method TransformToWeeklyFormat(results: seq<ExportRow>) returns (exportData: seq<WeeklyRecord>)
    ensures exportData == ObjectValues(PivotOf(results))
  {
    var weeklySchedule: map<string, WeeklyRecord> := map[];
    var keys: seq<string> := [];
    assert results[..0] == [];
    for i := 0 to |results|
      invariant Pivot(weeklySchedule, keys) == PivotOf(results[..i])
    {
      PivotOfSnoc(results, i);
      weeklySchedule, keys := AddRow(weeklySchedule, keys, results[i]);
    }
    assert results[..|results|] == results;
    exportData := ObjectValues(Pivot(weeklySchedule, keys));
  }

  // ---------------------------------------------------------------------------
  // What the pivot holds
  // ---------------------------------------------------------------------------

  predicate Appears(rows: seq<ExportRow>, c: string)
  {
    exists i :: 0 <= i < |rows| && rows[i].code == c
  }

  /** A row of store `c` delivered on day `d`. */
  predicate OnDay(row: ExportRow, c: string, d: nat)
  {
    row.code == c && DayIndexOf(row.dayOfWeek) == Some(d)
  }

  predicate AnyOnDay(rows: seq<ExportRow>, c: string, d: nat)
  {
    exists i :: 0 <= i < |rows| && OnDay(rows[i], c, d)
  }

  /** The number of rows with code `c`. */
  function CountCode(rows: seq<ExportRow>, c: string): (n: nat)
    ensures n <= |rows|
    ensures n == 0 <==> !Appears(rows, c)
  {
    if rows == [] then 0
    else
      var prefix := rows[..|rows| - 1];
      assert Appears(rows, c) <==> Appears(prefix, c) || rows[|rows| - 1].code == c by {
        if Appears(prefix, c) {
          var i :| 0 <= i < |prefix| && prefix[i].code == c;
          assert rows[i] == prefix[i];
        }
        if Appears(rows, c) && rows[|rows| - 1].code != c {
          var i :| 0 <= i < |rows| && rows[i].code == c;
          assert prefix[i] == rows[i];
        }
      }
      CountCode(prefix, c) + (if rows[|rows| - 1].code == c then 1 else 0)
  }

  /** The position of the first row with code `c`. */
  function FirstIndex(rows: seq<ExportRow>, c: string): (k: nat)
    requires Appears(rows, c)
    ensures k < |rows| && rows[k].code == c
    ensures forall j :: 0 <= j < k ==> rows[j].code != c
  {
    var prefix := rows[..|rows| - 1];
    if Appears(prefix, c) then
      var k := FirstIndex(prefix, c);
      assert rows[k] == prefix[k];
      assert forall j :: 0 <= j < k ==> rows[j] == prefix[j];
      k
    else
      assert forall j :: 0 <= j < |prefix| ==> rows[j] == prefix[j];
      |rows| - 1
  }

  lemma AppearsSnoc(rows: seq<ExportRow>, c: string)
    requires rows != []
    ensures Appears(rows, c) <==> Appears(rows[..|rows| - 1], c) || rows[|rows| - 1].code == c
  {
    var prefix := rows[..|rows| - 1];
    if Appears(prefix, c) {
      var i :| 0 <= i < |prefix| && prefix[i].code == c;
      assert rows[i] == prefix[i];
    }
    if Appears(rows, c) && rows[|rows| - 1].code != c {
      var i :| 0 <= i < |rows| && rows[i].code == c;
      assert prefix[i] == rows[i];
    }
  }

  lemma FirstIndexSnoc(rows: seq<ExportRow>, c: string)
    requires rows != [] && Appears(rows[..|rows| - 1], c)
    ensures Appears(rows, c) && FirstIndex(rows, c) == FirstIndex(rows[..|rows| - 1], c)
  {
    AppearsSnoc(rows, c);
  }

  /** The pivot has a record for exactly the codes of the rows. */
  lemma {:induction false} PivotMembers(rows: seq<ExportRow>)
    ensures forall c :: c in PivotOf(rows).table <==> Appears(rows, c)
  {
    if rows != [] {
      PivotMembers(rows[..|rows| - 1]);
      forall c ensures c in PivotOf(rows).table <==> Appears(rows, c) {
        AppearsSnoc(rows, c);
      }
    }
  }

  /** Every key names a code of the rows, and the keys are ordered by the first rows of their codes. */
  predicate InFirstRowOrder(rows: seq<ExportRow>, keys: seq<string>)
  {
    forall a, b :: 0 <= a < b < |keys| ==>
      Appears(rows, keys[a]) && Appears(rows, keys[b]) && FirstIndex(rows, keys[a]) < FirstIndex(rows, keys[b])
  }

  /** The records are created in the order of the first rows of their codes. */
  lemma {:induction false} PivotKeys(rows: seq<ExportRow>)
    ensures InFirstRowOrder(rows, PivotOf(rows).keys)
  {
    PivotMembers(rows);
    if rows != [] {
      var prefix := rows[..|rows| - 1];
      var last := rows[|rows| - 1];
      PivotKeys(prefix);
      PivotMembers(prefix);
      var p := PivotOf(prefix);
      var keys := PivotOf(rows).keys;
      assert keys == p.keys || (keys == p.keys + [last.code] && last.code !in p.table);
      assert forall k :: 0 <= k < |p.keys| ==> p.keys[k] in p.table;
      forall a, b | 0 <= a < b < |keys|
        ensures Appears(rows, keys[a]) && Appears(rows, keys[b]) && FirstIndex(rows, keys[a]) < FirstIndex(rows, keys[b])
      {
        KeyPairSnoc(rows, p.keys, keys, a, b);
      }
    }
  }

  /** One pair of keys after a step: an old pair keeps its first rows, and a new key's first row
      is the last row. */
  lemma KeyPairSnoc(rows: seq<ExportRow>, before: seq<string>, keys: seq<string>, a: nat, b: nat)
    requires rows != [] && InFirstRowOrder(rows[..|rows| - 1], before)
    requires forall k :: 0 <= k < |before| ==> Appears(rows[..|rows| - 1], before[k])
    requires keys == before || (keys == before + [rows[|rows| - 1].code] && !Appears(rows[..|rows| - 1], rows[|rows| - 1].code))
    requires a < b < |keys|
    ensures Appears(rows, keys[a]) && Appears(rows, keys[b]) && FirstIndex(rows, keys[a]) < FirstIndex(rows, keys[b])
  {
    var prefix := rows[..|rows| - 1];
    assert keys[a] == before[a];
    FirstIndexSnoc(rows, keys[a]);
    if b < |before| {
      assert keys[b] == before[b];
      FirstIndexSnoc(rows, keys[b]);
    } else {
      FirstIndexNew(rows);
    }
  }

  lemma FirstIndexNew(rows: seq<ExportRow>)
    requires rows != [] && !Appears(rows[..|rows| - 1], rows[|rows| - 1].code)
    ensures Appears(rows, rows[|rows| - 1].code) && FirstIndex(rows, rows[|rows| - 1].code) == |rows| - 1
  {
    AppearsSnoc(rows, rows[|rows| - 1].code);
  }

  /** `Frequency` counts the rows of the store. */
  lemma {:induction false} PivotFrequency(rows: seq<ExportRow>, c: string)
    requires Appears(rows, c)
    ensures c in PivotOf(rows).table && PivotOf(rows).table[c].frequency == CountCode(rows, c)
  {
    PivotMembers(rows);
    var prefix := rows[..|rows| - 1];
    AppearsSnoc(rows, c);
    if Appears(prefix, c) {
      PivotFrequency(prefix, c);
    } else {
      PivotMembers(prefix);
      assert CountCode(prefix, c) == 0;
    }
  }

  /** `Code`, `Store`, `Contract` and `Warehouse` come from the first row of the store. */
  lemma {:induction false} PivotFirstRow(rows: seq<ExportRow>, c: string)
    requires Appears(rows, c)
    ensures c in PivotOf(rows).table
    ensures var rec := PivotOf(rows).table[c]; var first := rows[FirstIndex(rows, c)];
      rec.code == first.code && rec.store == first.store && rec.contract == first.contract
      && rec.warehouse == first.warehouse
  {
    PivotMembers(rows);
    var prefix := rows[..|rows| - 1];
    AppearsSnoc(rows, c);
    PivotMembers(prefix);
    if Appears(prefix, c) {
      PivotFirstRow(prefix, c);
      FirstIndexSnoc(rows, c);
    }
  }

  lemma AnyOnDaySnoc(rows: seq<ExportRow>, c: string, d: nat)
    requires rows != []
    ensures AnyOnDay(rows, c, d) <==> AnyOnDay(rows[..|rows| - 1], c, d) || OnDay(rows[|rows| - 1], c, d)
  {
    var prefix := rows[..|rows| - 1];
    if AnyOnDay(prefix, c, d) {
      var i :| 0 <= i < |prefix| && OnDay(prefix[i], c, d);
      assert rows[i] == prefix[i];
    }
    if AnyOnDay(rows, c, d) && !OnDay(rows[|rows| - 1], c, d) {
      var i :| 0 <= i < |rows| && OnDay(rows[i], c, d);
      assert prefix[i] == rows[i];
    }
  }

  /** The delay of the last row of store `c` on day `d`: `delay` is that row's and no later row
      names the same store and day. */
  predicate LastDelay(rows: seq<ExportRow>, c: string, d: nat, delay: int)
  {
    exists i :: 0 <= i < |rows| && OnDay(rows[i], c, d) && rows[i].delayDays == delay
                && forall j :: i < j < |rows| ==> !OnDay(rows[j], c, d)
  }

  /** What the day and delay columns of day `d` hold for the rows of store `c`. */
  predicate DayColumnsOf(rows: seq<ExportRow>, c: string, d: nat, rec: WeeklyRecord)
    requires Shaped(rec) && d < 7
  {
    && (rec.days[d] == 1 <==> AnyOnDay(rows, c, d))
    && (!AnyOnDay(rows, c, d) ==> rec.days[d] == 0 && rec.delays[d] == 0)
    && (AnyOnDay(rows, c, d) ==> LastDelay(rows, c, d, rec.delays[d]))
  }

  lemma AnyOnDayAppears(rows: seq<ExportRow>, c: string, d: nat)
    ensures AnyOnDay(rows, c, d) ==> Appears(rows, c)
  {
    if AnyOnDay(rows, c, d) {
      var i :| 0 <= i < |rows| && OnDay(rows[i], c, d);
      assert rows[i].code == c;
    }
  }

  /** A day column is 1 exactly when some row of the store names that day, and then its delay
      column holds the last such row's `delay_days`; otherwise both stay 0. */
  lemma {:induction false} PivotDays(rows: seq<ExportRow>, c: string, d: nat)
    requires Appears(rows, c) && d < 7
    ensures c in PivotOf(rows).table && DayColumnsOf(rows, c, d, PivotOf(rows).table[c])
  {
    PivotMembers(rows);
    var prefix := rows[..|rows| - 1];
    var last := rows[|rows| - 1];
    AppearsSnoc(rows, c);
    AnyOnDaySnoc(rows, c, d);
    PivotMembers(prefix);
    if OnDay(last, c, d) {
      DaysOfLast(rows, c, d);
    } else if Appears(prefix, c) {
      PivotDays(prefix, c, d);
      DaysOfEarlier(rows, c, d);
    } else {
      AnyOnDayAppears(prefix, c, d);
      DaysOfFresh(rows, c, d);
    }
  }

  lemma DaysOfLast(rows: seq<ExportRow>, c: string, d: nat)
    requires rows != [] && d < 7 && OnDay(rows[|rows| - 1], c, d)
    ensures c in PivotOf(rows).table && DayColumnsOf(rows, c, d, PivotOf(rows).table[c])
  {
    var rec := PivotOf(rows).table[c];
    assert rec.days[d] == 1 && rec.delays[d] == rows[|rows| - 1].delayDays;
    assert LastDelay(rows, c, d, rec.delays[d]);
  }

  lemma DaysOfEarlier(rows: seq<ExportRow>, c: string, d: nat)
    requires rows != [] && d < 7 && !OnDay(rows[|rows| - 1], c, d)
    requires var p := PivotOf(rows[..|rows| - 1]); c in p.table && DayColumnsOf(rows[..|rows| - 1], c, d, p.table[c])
    requires AnyOnDay(rows, c, d) <==> AnyOnDay(rows[..|rows| - 1], c, d)
    ensures c in PivotOf(rows).table && DayColumnsOf(rows, c, d, PivotOf(rows).table[c])
  {
    var prefix := rows[..|rows| - 1];
    var before := PivotOf(prefix).table[c];
    SameColumns(rows, c, d);
    if AnyOnDay(prefix, c, d) {
      LastDelaySnoc(rows, c, d, before.delays[d]);
    }
  }

  lemma SameColumns(rows: seq<ExportRow>, c: string, d: nat)
    requires rows != [] && d < 7 && !OnDay(rows[|rows| - 1], c, d) && c in PivotOf(rows[..|rows| - 1]).table
    ensures var before := PivotOf(rows[..|rows| - 1]).table[c]; var rec := PivotOf(rows).table[c];
      rec.days[d] == before.days[d] && rec.delays[d] == before.delays[d]
  {
    StepSameColumns(PivotOf(rows[..|rows| - 1]), rows[|rows| - 1], c, d);
  }

  /** A row of another store or another day leaves day `d` of store `c` as it was. */
  lemma StepSameColumns(p: Pivot, row: ExportRow, c: string, d: nat)
    requires PivotValid(p) && c in p.table && d < 7 && !OnDay(row, c, d)
    ensures var r := PivotStep(p, row);
      c in r.table && r.table[c].days[d] == p.table[c].days[d] && r.table[c].delays[d] == p.table[c].delays[d]
  {
    if row.code == c {
      ApplyColumns(p.table[c], row, d);
    }
  }

  lemma LastDelaySnoc(rows: seq<ExportRow>, c: string, d: nat, delay: int)
    requires rows != [] && !OnDay(rows[|rows| - 1], c, d) && LastDelay(rows[..|rows| - 1], c, d, delay)
    ensures LastDelay(rows, c, d, delay)
  {
    var prefix := rows[..|rows| - 1];
    var i :| 0 <= i < |prefix| && OnDay(prefix[i], c, d) && prefix[i].delayDays == delay
             && forall j :: i < j < |prefix| ==> !OnDay(prefix[j], c, d);
    assert rows[i] == prefix[i];
    assert forall j :: i < j < |rows| - 1 ==> rows[j] == prefix[j];
  }

  lemma DaysOfFresh(rows: seq<ExportRow>, c: string, d: nat)
    requires rows != [] && d < 7 && !OnDay(rows[|rows| - 1], c, d) && rows[|rows| - 1].code == c
    requires c !in PivotOf(rows[..|rows| - 1]).table
    requires AnyOnDay(rows, c, d) <==> AnyOnDay(rows[..|rows| - 1], c, d)
    requires !AnyOnDay(rows[..|rows| - 1], c, d)
    ensures c in PivotOf(rows).table && DayColumnsOf(rows, c, d, PivotOf(rows).table[c])
  {
    var last := rows[|rows| - 1];
    var rec := PivotOf(rows).table[c];
    assert rec == Apply(Fresh(last), last);
    ApplyColumns(Fresh(last), last, d);
    assert rec.days[d] == 0 && rec.delays[d] == 0;
    assert !AnyOnDay(rows, c, d);
  }

  /** The day and delay columns after a row: only the row's own day changes. */
  lemma ApplyColumns(rec: WeeklyRecord, row: ExportRow, d: nat)
    requires Shaped(rec) && d < 7
    ensures var r := Apply(rec, row);
      && r.days[d] == (if DayIndexOf(row.dayOfWeek) == Some(d) then 1 else rec.days[d])
      && r.delays[d] == (if DayIndexOf(row.dayOfWeek) == Some(d) then row.delayDays else rec.delays[d])
  {
  }

  /** `total_stores`, the length of `Object.values`, is the number of distinct codes: the
      records are listed once each, every code of the rows has one. */
  lemma ExportCoversCodes(rows: seq<ExportRow>)
    ensures |ObjectValues(PivotOf(rows))| == |PivotOf(rows).keys|
    ensures Distinct(PivotOf(rows).keys)
    ensures forall c :: c in PivotOf(rows).keys <==> Appears(rows, c)
    ensures forall i :: 0 <= i < |PivotOf(rows).keys| ==>
      ObjectValues(PivotOf(rows))[i].code == PropertyOrder(PivotOf(rows).keys)[i]
  {
    PivotMembers(rows);
  }

  /** The store codes the rows mention. */
  function Codes(rows: seq<ExportRow>): (r: set<string>)
    ensures forall c :: c in r <==> Appears(rows, c)
  {
    set i | 0 <= i < |rows| :: rows[i].code
  }

  /** The JSON `totalStores`, which is `exportData.length`, is the number of distinct store codes
      among the rows. */
  lemma TotalStores(rows: seq<ExportRow>)
    ensures |ObjectValues(PivotOf(rows))| == |Codes(rows)|
  {
    var keys := PivotOf(rows).keys;
    ExportCoversCodes(rows);
    DistinctCardinality(keys);
    assert (set x | x in keys) == Codes(rows);
  }

  lemma {:induction false} DistinctCardinality(s: seq<string>)
    requires Distinct(s)
    ensures |set x | x in s| == |s|
  {
    if s != [] {
      var prefix := s[..|s| - 1];
      var last := s[|s| - 1];
      assert Distinct(prefix);
      DistinctCardinality(prefix);
      assert (set x | x in s) == (set x | x in prefix) + {last} by {
        assert s == prefix + [last];
      }
      assert last !in (set x | x in prefix);
    }
  }

  // ---------------------------------------------------------------------------
  // The order of the records
  // ---------------------------------------------------------------------------

  lemma {:induction false} DigitsValueBound(s: string)
    requires |s| >= 1 && AllDigitsIn(s, 10) && s[0] != '0'
    ensures DigitsValue(s, 10) >= Pow10(|s| - 1)
  {
    if |s| > 1 {
      var prefix := s[..|s| - 1];
      assert prefix[0] == s[0];
      DigitsValueBound(prefix);
    } else {
      assert s[..0] == [];
    }
  }

  lemma {:induction false} CanonicalDigits(s: string)
    requires |s| >= 1 && AllDigitsIn(s, 10) && (s[0] != '0' || |s| == 1)
    ensures NatToString(DigitsValue(s, 10)) == s
  {
    var n := DigitsValue(s, 10);
    var prefix := s[..|s| - 1];
    var c := s[|s| - 1];
    assert IsDigitIn(c, 10);
    var d := CharDigit(c);
    assert DigitChar(d) == c;
    if |s| == 1 {
      assert prefix == [];
      assert DigitsValue(prefix, 10) == 0;
      assert n == d;
    } else {
      assert prefix[0] == s[0];
      assert AllDigitsIn(prefix, 10);
      DigitsValueBound(prefix);
      CanonicalDigits(prefix);
      assert n == DigitsValue(prefix, 10) * 10 + d;
      assert n >= 10;
      assert n / 10 == DigitsValue(prefix, 10) && n % 10 == d;
      assert s == prefix + [c];
    }
  }

  /** Two different array indices have different numeric values. */
  lemma IndexValueInjective(a: string, b: string)
    requires IsArrayIndex(a) && IsArrayIndex(b) && a != b
    ensures IndexValue(a) != IndexValue(b)
  {
    CanonicalDigits(a);
    CanonicalDigits(b);
  }

  /** `Object.values` lists the records of the array-index codes first, in strictly ascending
      numeric order, then the records of the other codes in the order of their first rows. */
  lemma PropertyOrderShape(keys: seq<string>)
    requires Distinct(keys)
    ensures var order := PropertyOrder(keys); var n := |FilterIndices(keys, true)|;
      && n <= |order|
      && (forall i :: 0 <= i < n ==> IsArrayIndex(order[i]))
      && (forall i, j :: 0 <= i < j < n ==> IndexValue(order[i]) < IndexValue(order[j]))
      && order[n..] == FilterIndices(keys, false)
      && (forall i :: n <= i < |order| ==> !IsArrayIndex(order[i]))
  {
    var sorted := SortIndices(FilterIndices(keys, true));
    var rest := FilterIndices(keys, false);
    SortedIndicesShape(keys);
    FilterFacts(keys, false);
    assert PropertyOrder(keys) == sorted + rest;
    forall i | 0 <= i < |rest| ensures !IsArrayIndex(rest[i]) {
      assert rest[i] in rest;
    }
    assert PropertyOrder(keys)[|sorted|..] == rest;
  }

  /** The sorted array-index keys are array indices in strictly ascending order. */
  lemma SortedIndicesShape(keys: seq<string>)
    requires Distinct(keys)
    ensures var sorted := SortIndices(FilterIndices(keys, true));
      && |sorted| == |FilterIndices(keys, true)|
      && (forall i :: 0 <= i < |sorted| ==> IsArrayIndex(sorted[i]))
      && (forall i, j :: 0 <= i < j < |sorted| ==> IndexValue(sorted[i]) < IndexValue(sorted[j]))
  {
    var indices := FilterIndices(keys, true);
    var sorted := SortIndices(indices);
    SortFacts(indices);
    FilterFacts(keys, true);
    assert |sorted| == |multiset(sorted)|;
    forall i | 0 <= i < |sorted| ensures IsArrayIndex(sorted[i]) {
      assert sorted[i] in multiset(sorted);
    }
    FilterIndicesMultiplicity(keys);
    forall i, j | 0 <= i < j < |sorted| ensures IndexValue(sorted[i]) < IndexValue(sorted[j]) {
      SortedDistinct(sorted, indices, i, j);
      IndexValueInjective(sorted[i], sorted[j]);
    }
  }

  /** The records of `Object.values` follow the property order of the pivot's keys: records of
      array-index codes first, by ascending value, then the others in the order of their first rows. */
  lemma ExportOrder(rows: seq<ExportRow>)
    ensures var p := PivotOf(rows); var order := PropertyOrder(p.keys); var n := |FilterIndices(p.keys, true)|;
      && n <= |order|
      && (forall i :: 0 <= i < n ==> IsArrayIndex(order[i]))
      && (forall i, j :: 0 <= i < j < n ==> IndexValue(order[i]) < IndexValue(order[j]))
      && order[n..] == FilterIndices(p.keys, false)
      && (forall i :: n <= i < |order| ==> !IsArrayIndex(order[i]))
      && InFirstRowOrder(rows, p.keys)
  {
    PropertyOrderShape(PivotOf(rows).keys);
    PivotKeys(rows);
  }

  /** The array-index keys of distinct keys are distinct, one copy each. */
  lemma {:induction false} FilterIndicesMultiplicity(keys: seq<string>)
    requires Distinct(keys)
    ensures forall k :: multiset(FilterIndices(keys, true))[k] <= 1
  {
    if keys != [] {
      var prefix := keys[..|keys| - 1];
      var last := keys[|keys| - 1];
      assert Distinct(prefix) by {
        forall i, j | 0 <= i < j < |prefix| ensures prefix[i] != prefix[j] {
          assert prefix[i] == keys[i] && prefix[j] == keys[j];
        }
      }
      FilterIndicesMultiplicity(prefix);
      assert forall i :: 0 <= i < |prefix| ==> prefix[i] == keys[i] && keys[i] != last;
      assert last !in prefix;
      FilterFacts(prefix, true);
      assert last !in FilterIndices(prefix, true);
      assert multiset(FilterIndices(prefix, true))[last] == 0;
    }
  }

  /** In an ascending sequence holding each key at most once, two positions hold different keys. */
  lemma SortedDistinct(sorted: seq<string>, indices: seq<string>, i: nat, j: nat)
    requires multiset(sorted) == multiset(indices) && forall k :: multiset(indices)[k] <= 1
    requires i < j < |sorted|
    ensures sorted[i] != sorted[j]
  {
    Copies(sorted, i, j);
  }

  lemma Copies(s: seq<string>, i: nat, j: nat)
    requires i < j < |s|
    ensures multiset(s)[s[i]] >= 1 + (if s[j] == s[i] then 1 else 0)
  {
    assert s == s[..j] + [s[j]] + s[j + 1..];
    assert s[..j][i] == s[i];
    assert s[i] in multiset(s[..j]);
  }

  // ---------------------------------------------------------------------------
  // _convertToCSV
  // ---------------------------------------------------------------------------

  /** The 19 header names. */
  function Headers(): (h: seq<string>)
    ensures |h| == 19 && h[0] == "Code" && h[18] == "Frequency"
  {
    ["Code", "Store", "Contract",
     "Mon", "DELAY_Mon", "Tue", "DELAY_Tue", "Wed", "DELAY_Wed", "Thu", "DELAY_Thu",
     "Fri", "DELAY_Fri", "Sat", "DELAY_Sat", "Sun", "DELAY_Sun",
     "Warehouse", "Frequency"]
  }

  /** The 14 day columns of a record: each day's flag, then its delay, Monday first. */
  function DayColumns(rec: WeeklyRecord): (cols: seq<string>)
    requires Shaped(rec)
    ensures |cols| == 14
  {
    seq(14, k requires 0 <= k < 14 =>
      if k % 2 == 0 then IntToString(rec.days[k / 2]) else IntToString(rec.delays[k / 2]))
  }

  /** The 19 fields of a record, as `${field}` prints them: the three names, each day's flag
      and delay, the warehouse and the frequency. */
  function Fields(rec: WeeklyRecord): (f: seq<string>)
    requires Shaped(rec)
    ensures |f| == 19
  {
    [rec.code, rec.store, rec.contract] + DayColumns(rec) + [rec.warehouse, NatToString(rec.frequency)]
  }

  /** Where each value of a record lands among its 19 fields. */
  lemma FieldsAt(rec: WeeklyRecord)
    requires Shaped(rec)
    ensures var f := Fields(rec);
      && f[0] == rec.code && f[1] == rec.store && f[2] == rec.contract && f[17] == rec.warehouse
      && f[18] == NatToString(rec.frequency)
      && forall d :: 0 <= d < 7 ==> f[3 + 2 * d] == IntToString(rec.days[d]) && f[4 + 2 * d] == IntToString(rec.delays[d])
  {
    var f := Fields(rec);
    var cols := DayColumns(rec);
    assert f == [rec.code, rec.store, rec.contract] + cols + [rec.warehouse, NatToString(rec.frequency)];
    forall d | 0 <= d < 7 ensures f[3 + 2 * d] == IntToString(rec.days[d]) && f[4 + 2 * d] == IntToString(rec.delays[d]) {
      DayColumnsAt(rec, d);
      assert f[3 + 2 * d] == cols[2 * d] && f[4 + 2 * d] == cols[2 * d + 1];
    }
  }

  lemma DayColumnsAt(rec: WeeklyRecord, d: int)
    requires Shaped(rec) && 0 <= d < 7
    ensures DayColumns(rec)[2 * d] == IntToString(rec.days[d])
    ensures DayColumns(rec)[2 * d + 1] == IntToString(rec.delays[d])
  {
    var k := 2 * d;
    assert k % 2 == 0 && k / 2 == d;
    assert (k + 1) % 2 == 1 && (k + 1) / 2 == d;
  }

  function FieldsOf(records: seq<WeeklyRecord>): (r: seq<seq<string>>)
    requires forall i :: 0 <= i < |records| ==> Shaped(records[i])
    ensures |r| == |records| && forall i :: 0 <= i < |records| ==> r[i] == Fields(records[i])
  {
    if records == [] then [] else FieldsOf(records[..|records| - 1]) + [Fields(records[|records| - 1])]
  }

  /** `_convertToCSV(exportData)`: the header line, then one line per record. */
  method ConvertToCsv(exportData: seq<WeeklyRecord>) returns (csv: string)
    requires forall i :: 0 <= i < |exportData| ==> Shaped(exportData[i])
    ensures csv == Document(Headers(), FieldsOf(exportData))
  {
    csv := Join(Headers()) + "\n";
    assert exportData[..0] == [];
    for i := 0 to |exportData|
      invariant csv == Document(Headers(), FieldsOf(exportData[..i]))
    {
      var csvRow := Join(QuoteAll(Fields(exportData[i])));
      DocumentOfSnoc(exportData, i);
      csv := csv + csvRow + "\n";
    }
    assert exportData[..|exportData|] == exportData;
  }

  lemma DocumentOfSnoc(records: seq<WeeklyRecord>, i: nat)
    requires i < |records| && forall k :: 0 <= k < |records| ==> Shaped(records[k])
    ensures Document(Headers(), FieldsOf(records[..i + 1]))
         == Document(Headers(), FieldsOf(records[..i])) + Join(QuoteAll(Fields(records[i]))) + "\n"
  {
    FieldsOfSnoc(records, i);
    Csv.DocumentSnoc(Headers(), FieldsOf(records[..i]), Fields(records[i]));
  }

  lemma FieldsOfSnoc(records: seq<WeeklyRecord>, i: nat)
    requires i < |records| && forall k :: 0 <= k < |records| ==> Shaped(records[k])
    ensures FieldsOf(records[..i + 1]) == FieldsOf(records[..i]) + [Fields(records[i])]
  {
    assert records[..i + 1][..i] == records[..i];
  }

  lemma NatToStringPlain(n: nat)
    ensures Free(NatToString(n), '"') && Free(NatToString(n), '\n')
  {
    var s := NatToString(n);
    forall i | 0 <= i < |s| ensures s[i] != '"' && s[i] != '\n' {
      assert IsDigitIn(s[i], 10);
    }
  }

  lemma IntToStringPlain(k: int)
    ensures Free(IntToString(k), '"') && Free(IntToString(k), '\n')
  {
    if k < 0 {
      NatToStringPlain(-k);
      var s := IntToString(k);
      forall i | 0 <= i < |s| ensures s[i] != '"' && s[i] != '\n' {
        if i > 0 {
          assert s[i] == NatToString(-k)[i - 1];
        }
      }
    } else {
      NatToStringPlain(k);
    }
  }

  /** No text field of the record holds the character `c`. */
  predicate TextFree(rec: WeeklyRecord, c: char)
  {
    Free(rec.code, c) && Free(rec.store, c) && Free(rec.contract, c) && Free(rec.warehouse, c)
  }

  lemma FieldsFree(rec: WeeklyRecord, c: char)
    requires Shaped(rec) && TextFree(rec, c) && (c == '"' || c == '\n')
    ensures AllFree(Fields(rec), c)
  {
    var f := Fields(rec);
    var cols := DayColumns(rec);
    forall i | 0 <= i < 19 ensures Free(f[i], c) {
      if 3 <= i < 17 {
        var d := (i - 3) / 2;
        assert f[i] == cols[i - 3];
        IntToStringPlain(rec.days[d]);
        IntToStringPlain(rec.delays[d]);
      } else if i == 18 {
        NatToStringPlain(rec.frequency);
      }
    }
  }

  /** The export CSV has a header line and one line per record; while no store code, name,
      contract type or warehouse location holds a newline or a double quote, each line reads
      back to that record's 19 fields. */
  lemma CsvReadsBack(exportData: seq<WeeklyRecord>)
    requires forall i :: 0 <= i < |exportData| ==> Shaped(exportData[i])
    requires forall i :: 0 <= i < |exportData| ==> TextFree(exportData[i], '\n') && TextFree(exportData[i], '"')
    ensures var lines := SplitLines(Document(Headers(), FieldsOf(exportData)));
      && |lines| == |exportData| + 1
      && lines[0] == Join(Headers())
      && forall i :: 0 <= i < |exportData| ==> ParseQuoted(lines[i + 1]) == Some(Fields(exportData[i]))
  {
    HeadersPlain();
    RecordsFree(exportData, '\n');
    RecordsFree(exportData, '"');
    DocumentParses(Headers(), FieldsOf(exportData));
  }

  lemma HeadersPlain()
    ensures AllFree(Headers(), '\n')
  {
    forall i | 0 <= i < 19 ensures Free(Headers()[i], '\n') {
      var h := Headers()[i];
      assert forall j :: 0 <= j < |h| ==> 'A' <= h[j] <= 'z';
    }
  }

  lemma RecordsFree(exportData: seq<WeeklyRecord>, c: char)
    requires forall i :: 0 <= i < |exportData| ==> Shaped(exportData[i]) && TextFree(exportData[i], c)
    requires c == '"' || c == '\n'
    ensures forall i :: 0 <= i < |exportData| ==> AllFree(FieldsOf(exportData)[i], c)
  {
    forall i | 0 <= i < |exportData| ensures AllFree(FieldsOf(exportData)[i], c) {
      FieldsFree(exportData[i], c);
    }
  }

  // ---------------------------------------------------------------------------
  // exportSchedule
  // ---------------------------------------------------------------------------

  /** What `exportSchedule` resolves with. */
  datatype ExportResult =
    | CsvExport(filename: string, data: string, contentType: string)
    | JsonExport(weekNumber: JsValue, year: JsValue, warehouseId: JsValue, totalStores: nat,
                 schedule: seq<WeeklyRecord>)

  /** The promise of `exportSchedule`: resolved with a result, or rejected with an error message. */
  datatype ExportOutcome = Exported(result: ExportResult) | Failed(message: string)

  /** `delivery_schedule_week_${weekNumber}_${year}.csv`. */
  function FileName(weekNumber: JsValue, year: JsValue, fraction: real -> string): (name: string)
    ensures |name| >= 28 && name[..23] == "delivery_schedule_week_" && name[|name| - 4..] == ".csv"
  {
    "delivery_schedule_week_" + StringOf(weekNumber, fraction) + "_" + StringOf(year, fraction) + ".csv"
  }

  /** A whole number below 10^21 prints as its decimal digits. */
  lemma StringOfWhole(n: nat, fraction: real -> string)
    requires n < 1000000000000000000000
    ensures StringOf(Int(n), fraction) == NatToString(n)
  {
    var x := n as real;
    assert x.Floor == n;
  }

  /** `name` is the prefix, the digits `ws`, one `_`, the digits `ys` and the suffix. */
  predicate NameHolds(name: string, ws: string, ys: string)
  {
    && |name| == 28 + |ws| + |ys|
    && name[23..23 + |ws|] == ws && name[23 + |ws|] == '_'
    && name[24 + |ws|..|name| - 4] == ys
  }

  /** The pieces of a name built from two strings. */
  lemma NameParts(ws: string, ys: string)
    ensures NameHolds("delivery_schedule_week_" + ws + "_" + ys + ".csv", ws, ys)
  {
  }

  /** For whole numbers below 10^21 the name holds the week's digits, one `_` and the year's
      digits between the prefix and the suffix. */
  lemma FileNameParts(w: nat, y: nat, fraction: real -> string)
    requires w < 1000000000000000000000 && y < 1000000000000000000000
    ensures NameHolds(FileName(Int(w), Int(y), fraction), NatToString(w), NatToString(y))
  {
    StringOfWhole(w, fraction);
    StringOfWhole(y, fraction);
    NameParts(NatToString(w), NatToString(y));
  }

  /** Two digit strings around one `_` split back apart. */
  lemma DigitsSplit(name: string, ws1: string, ys1: string, ws2: string, ys2: string)
    requires AllDigitsIn(ws1, 10) && AllDigitsIn(ws2, 10)
    requires NameHolds(name, ws1, ys1) && NameHolds(name, ws2, ys2)
    ensures ws1 == ws2 && ys1 == ys2
  {
    if |ws1| != |ws2| {
      assert false;
    }
  }

  /** Different weeks or years never share a file name: the first `_` after the prefix ends the
      week's digits. */
  lemma FileNameInjective(w1: nat, y1: nat, w2: nat, y2: nat, fraction: real -> string)
    requires w1 < 1000000000000000000000 && y1 < 1000000000000000000000
    requires w2 < 1000000000000000000000 && y2 < 1000000000000000000000
    requires FileName(Int(w1), Int(y1), fraction) == FileName(Int(w2), Int(y2), fraction)
    ensures w1 == w2 && y1 == y2
  {
    var name := FileName(Int(w1), Int(y1), fraction);
    FileNameParts(w1, y1, fraction);
    FileNameParts(w2, y2, fraction);
    DigitsSplit(name, NatToString(w1), NatToString(y1), NatToString(w2), NatToString(y2));
  }

  /** `attachment; filename="${filename}"`, the `Content-Disposition` header of a download. */
  function Attachment(filename: string): (d: string)
    ensures |d| == |filename| + 23
    ensures d[..22] == "attachment; filename=\"" && d[|d| - 1] == '"'
    ensures d[22..|d| - 1] == filename
  {
    "attachment; filename=\"" + filename + "\""
  }

  /** `exportSchedule(weekNumber, year, warehouseId = null, format = 'json')`. `results` is the
      export query's answer, `None` when it fails. */
  method ExportSchedule(weekNumber: JsValue, year: JsValue, warehouseId: JsValue, format: JsValue,
                        results: Option<seq<ExportRow>>, fraction: real -> string)
    returns (outcome: ExportOutcome)
    ensures results.None? ==> outcome == Failed("Failed to fetch export data")
    ensures results.Some? ==>
      var exportData := ObjectValues(PivotOf(results.value));
      outcome == Exported(
        if format == Str("csv") then CsvExport(FileName(weekNumber, year, fraction),
                                               Document(Headers(), FieldsOf(exportData)), "text/csv")
        else JsonExport(weekNumber, year, if warehouseId.Undefined? then Null else warehouseId,
                        |exportData|, exportData))
  {
    if results.None? {
      return Failed("Failed to fetch export data");
    }
    var wid := if warehouseId.Undefined? then Null else warehouseId;
    var exportData := TransformToWeeklyFormat(results.value);
    if format == Str("csv") {
      var csvData := ConvertToCsv(exportData);
      outcome := Exported(CsvExport(FileName(weekNumber, year, fraction), csvData, "text/csv"));
    } else {
      outcome := Exported(JsonExport(weekNumber, year, wid, |exportData|, exportData));
    }
  }
}
