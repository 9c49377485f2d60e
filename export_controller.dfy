/**
 * The request guards of backend/controllers/exportController.js, the replies it builds from the
 * export service, and its own CSV writer for the optimization-run history.
 */
module ExportController {
  import opened Wrappers
  import opened JsValues
  import opened Helpers
  import opened Csv
  import opened Export
  import OptimizationController

  /** What the controller sends: a JSON reply, or a CSV download with its two headers. */
  datatype Sent<T> = Json(reply: Reply<T>) | Download(contentType: string, disposition: string, data: string)

  // ---------------------------------------------------------------------------
  // exportSchedule
  // ---------------------------------------------------------------------------

  /** `format = 'json'` in the destructuring of `req.body`: the default replaces only undefined. */
  function BodyFormat(body: map<string, JsValue>): (f: JsValue)
    ensures Get(body, "format").Undefined? ==> f == Str("json")
    ensures !Get(body, "format").Undefined? ==> f == Get(body, "format")
  {
    var format := Get(body, "format");
    if format.Undefined? then Str("json") else format
  }

  predicate ValidWeek(week: JsValue)
  {
    Truthy(week) && !Less(week, 1.0) && !Greater(week, 53.0)
  }

  predicate ValidYear(year: JsValue)
  {
    Truthy(year) && !IsNaN(year)
  }

  /** The three checks of `exportSchedule`, in order: the week, the year, the format. */
  function ExportScheduleGuard(body: map<string, JsValue>): (r: Option<string>)
    ensures r.None? <==>
      ValidWeek(Get(body, "week_number")) && ValidYear(Get(body, "year")) && BodyFormat(body) in {Str("json"), Str("csv")}
    ensures !ValidWeek(Get(body, "week_number")) ==> r == Some("Invalid week number")
    ensures ValidWeek(Get(body, "week_number")) && !ValidYear(Get(body, "year")) ==> r == Some("Invalid year")
    ensures (ValidWeek(Get(body, "week_number")) && ValidYear(Get(body, "year"))
             && BodyFormat(body) !in {Str("json"), Str("csv")}) ==>
      r == Some("Format must be 'json' or 'csv'")
  {
    var week := Get(body, "week_number");
    var year := Get(body, "year");
    var format := BodyFormat(body);
    if !Truthy(week) || Less(week, 1.0) || Greater(week, 53.0) then Some("Invalid week number")
    else if !Truthy(year) || IsNaN(year) then Some("Invalid year")
    else if format != Str("json") && format != Str("csv") then Some("Format must be 'json' or 'csv'")
    else None
  }

  /** Week 0 is refused here, although the planner's controller lets a missing week through; and
      a year that does not convert to a number is refused. */
  lemma ExportGuardRefusesMissing(body: map<string, JsValue>)
    requires !Truthy(Get(body, "week_number")) || IsNaN(Get(body, "year"))
    ensures ExportScheduleGuard(body).Some?
  {
  }

  /** `ExportController.exportSchedule`: the guard, then the service (whose query answer is
      `results`), then a download for CSV or a JSON reply wrapping the service's result. A
      rejection of the service is answered with 500 and its message. */
  method ExportScheduleHandler(body: map<string, JsValue>, results: Option<seq<ExportRow>>, fraction: real -> string)
    returns (sent: Sent<ExportResult>)
    ensures ExportScheduleGuard(body).Some? ==> sent == Json(Fail(400, ExportScheduleGuard(body).value))
    ensures ExportScheduleGuard(body).None? && results.None? ==> sent == Json(Fail(500, "Failed to fetch export data"))
    ensures ExportScheduleGuard(body).None? && results.Some? ==>
      var week := Get(body, "week_number");
      var year := Get(body, "year");
      var exportData := ObjectValues(PivotOf(results.value));
      sent == (if BodyFormat(body) == Str("csv")
               then Download("text/csv", Attachment(FileName(week, year, fraction)), Document(Headers(), FieldsOf(exportData)))
               else Json(Success(200, JsonExport(week, year, if Get(body, "warehouse_id").Undefined? then Null else Get(body, "warehouse_id"),
                                            |exportData|, exportData), None)))
  {
    var weekNumber := Get(body, "week_number");
    var year := Get(body, "year");
    var warehouseId := Get(body, "warehouse_id");
    var format := BodyFormat(body);
    var refusal := ExportScheduleGuard(body);
    if refusal.Some? {
      return Json(Fail(400, refusal.value));
    }
    var outcome := ExportSchedule(weekNumber, year, warehouseId, format, results, fraction);
    match outcome
    case Failed(message) =>
      sent := Json(Fail(500, message));
    case Exported(result) =>
      if format == Str("csv") {
        sent := Download(result.contentType, Attachment(result.filename), result.data);
      } else {
        sent := Json(Success(200, result, None));
      }
  }

  // ---------------------------------------------------------------------------
  // exportOptimizationRuns
  // ---------------------------------------------------------------------------

  /** One row of `SELECT * FROM optimization_runs`, the columns the CSV writer reads. `runDate`
      carries the date as the string a template literal renders it to. */
  datatype RunRow = RunRow(id: JsValue, weekNumber: JsValue, year: JsValue, runDate: JsValue,
                           totalDistanceKm: JsValue, storesServed: JsValue, executionTimeSeconds: JsValue,
                           status: JsValue, createdByUserId: JsValue)

  /** `req.query.format || 'json'`. */
  function QueryFormat(format: Option<string>): (f: string)
    ensures format.None? || format == Some("") ==> f == "json"
    ensures format.Some? && format.value != "" ==> f == format.value
  {
    if format.Some? && format.value != "" then format.value else "json"
  }

  /** The two checks of `exportOptimizationRuns`: the limit, then the format. */
  function ExportRunsGuard(limit: Option<string>, format: Option<string>): (r: Option<string>)
    ensures r.None? <==> !Greater(OptimizationController.RunsLimit(limit), 100.0) && QueryFormat(format) in {"json", "csv"}
    ensures Greater(OptimizationController.RunsLimit(limit), 100.0) ==> r == Some("Limit cannot exceed 100")
    ensures !Greater(OptimizationController.RunsLimit(limit), 100.0) && QueryFormat(format) !in {"json", "csv"} ==>
      r == Some("Format must be 'json' or 'csv'")
  {
    if Greater(OptimizationController.RunsLimit(limit), 100.0) then Some("Limit cannot exceed 100")
    else if QueryFormat(format) != "json" && QueryFormat(format) != "csv" then Some("Format must be 'json' or 'csv'")
    else None
  }

  /** The data of the JSON reply: `{ total_runs, runs }`. */
  datatype RunsData = RunsData(totalRuns: nat, runs: seq<RunRow>)

  /** `exportOptimizationRuns` with the CSV converter reached through its class, the behaviour the
      handler evidently intends; `runs` is the query's result, `None` when it fails. */
  method ExportRunsHandler(limit: Option<string>, format: Option<string>, runs: Option<seq<RunRow>>, fraction: real -> string)
    returns (sent: Sent<RunsData>)
    ensures ExportRunsGuard(limit, format).Some? ==> sent == Json(Fail(400, ExportRunsGuard(limit, format).value))
    ensures ExportRunsGuard(limit, format).None? && runs.None? ==> sent == Json(Fail(500, "Failed to export optimization runs"))
    ensures ExportRunsGuard(limit, format).None? && runs.Some? ==>
      sent == (if QueryFormat(format) == "csv"
               then Download("text/csv", Attachment("optimization_runs.csv"), Document(RunHeaders(), RunFieldsOf(runs.value, fraction)))
               else Json(Success(200, RunsData(|runs.value|, runs.value), None)))
  {
    var refusal := ExportRunsGuard(limit, format);
    if refusal.Some? {
      return Json(Fail(400, refusal.value));
    }
    if runs.None? {
      return Json(Fail(500, "Failed to export optimization runs"));
    }
    if QueryFormat(format) == "csv" {
      var csvData := ConvertRunsToCsv(runs.value, fraction);
      sent := Download("text/csv", Attachment("optimization_runs.csv"), csvData);
    } else {
      sent := Json(Success(200, RunsData(|runs.value|, runs.value), None));
    }
  }

  /** `exportOptimizationRuns` as the route runs it. `asyncHandler` calls the static method as a
      plain function, so `this` is undefined in the class's strict-mode body: on the CSV path
      `this._convertOptimizationRunsToCSV(runs)` throws a TypeError before any header is set,
      and the `catch` answers 500. No download is ever sent. */
  method RoutedExportRuns(limit: Option<string>, format: Option<string>, runs: Option<seq<RunRow>>)
    returns (sent: Sent<RunsData>)
    ensures !sent.Download?
    ensures ExportRunsGuard(limit, format).Some? ==> sent == Json(Fail(400, ExportRunsGuard(limit, format).value))
    ensures ExportRunsGuard(limit, format).None? && runs.None? ==> sent == Json(Fail(500, "Failed to export optimization runs"))
    ensures ExportRunsGuard(limit, format).None? && runs.Some? ==>
      sent == (if QueryFormat(format) == "csv"
               then Json(Fail(500, "Failed to export optimization runs"))
               else Json(Success(200, RunsData(|runs.value|, runs.value), None)))
  {
    var refusal := ExportRunsGuard(limit, format);
    if refusal.Some? {
      return Json(Fail(400, refusal.value));
    }
    if runs.None? {
      return Json(Fail(500, "Failed to export optimization runs"));
    }
    if QueryFormat(format) == "csv" {
      // the unbound receiver throws; the catch replies
      sent := Json(Fail(500, "Failed to export optimization runs"));
    } else {
      sent := Json(Success(200, RunsData(|runs.value|, runs.value), None));
    }
  }

  /** `?format=csv` with no limit passes both checks, so a successful query reaches the converter
      call: there the routed handler answers 500 where the intended one sends the download. */
  lemma CsvRequestReachesConverter()
    ensures ExportRunsGuard(None, Some("csv")).None? && QueryFormat(Some("csv")) == "csv"
    ensures !Greater(OptimizationController.RunsLimit(None), 100.0)
  {
    OptimizationController.RunsLimitDefaults(None);
  }

  // ---------------------------------------------------------------------------
  // _convertOptimizationRunsToCSV
  // ---------------------------------------------------------------------------

  function RunHeaders(): (h: seq<string>)
    ensures |h| == 9
  {
    ["ID", "Week Number", "Year", "Run Date", "Total Distance (km)", "Stores Served", "Execution Time (s)",
     "Status", "Created By User ID"]
  }

  /** `${field || ''}`: a falsy value, 0 included, prints as the empty string. */
  function RunField(v: JsValue, fraction: real -> string): (s: string)
    ensures !Truthy(v) ==> s == ""
    ensures Truthy(v) ==> s == StringOf(v, fraction)
  {
    StringOf(Or(v, Str("")), fraction)
  }

  /** The nine fields of a run, in the order of the header. */
  function RunFields(run: RunRow, fraction: real -> string): (f: seq<string>)
    ensures |f| == 9
  {
    [RunField(run.id, fraction), RunField(run.weekNumber, fraction), RunField(run.year, fraction),
     RunField(run.runDate, fraction), RunField(run.totalDistanceKm, fraction), RunField(run.storesServed, fraction),
     RunField(run.executionTimeSeconds, fraction), RunField(run.status, fraction), RunField(run.createdByUserId, fraction)]
  }

  function RunFieldsOf(runs: seq<RunRow>, fraction: real -> string): (r: seq<seq<string>>)
    ensures |r| == |runs| && forall i :: 0 <= i < |runs| ==> r[i] == RunFields(runs[i], fraction)
  {
    if runs == [] then [] else RunFieldsOf(runs[..|runs| - 1], fraction) + [RunFields(runs[|runs| - 1], fraction)]
  }

  lemma RunFieldsOfSnoc(runs: seq<RunRow>, fraction: real -> string, i: nat)
    requires i < |runs|
    ensures RunFieldsOf(runs[..i + 1], fraction) == RunFieldsOf(runs[..i], fraction) + [RunFields(runs[i], fraction)]
  {
    assert runs[..i + 1][..i] == runs[..i];
  }

  /** `_convertOptimizationRunsToCSV(runs)`: the header line, then one quoted line per run. */
  method ConvertRunsToCsv(runs: seq<RunRow>, fraction: real -> string) returns (csv: string)
    ensures csv == Document(RunHeaders(), RunFieldsOf(runs, fraction))
  {
    csv := Join(RunHeaders()) + "\n";
    assert runs[..0] == [];
    for i := 0 to |runs|
      invariant csv == Document(RunHeaders(), RunFieldsOf(runs[..i], fraction))
    {
      var csvRow := Join(QuoteAll(RunFields(runs[i], fraction)));
      RunDocumentSnoc(runs, fraction, i);
      csv := csv + csvRow + "\n";
    }
    assert runs[..|runs|] == runs;
  }

  lemma RunDocumentSnoc(runs: seq<RunRow>, fraction: real -> string, i: nat)
    requires i < |runs|
    ensures Document(RunHeaders(), RunFieldsOf(runs[..i + 1], fraction))
         == Document(RunHeaders(), RunFieldsOf(runs[..i], fraction)) + Join(QuoteAll(RunFields(runs[i], fraction))) + "\n"
  {
    RunFieldsOfSnoc(runs, fraction, i);
    Csv.DocumentSnoc(RunHeaders(), RunFieldsOf(runs[..i], fraction), RunFields(runs[i], fraction));
  }

  /** A run whose distance is 0 or whose user id is null gets an empty field, the same as a
      missing one; only truthy values are printed. */
  lemma FalsyFieldsAreBlank(run: RunRow, fraction: real -> string)
    requires run.totalDistanceKm == Int(0) && run.createdByUserId == Null
    ensures RunFields(run, fraction)[4] == "" && RunFields(run, fraction)[8] == ""
  {
  }

  /** The header line holds no newline, so the run document splits into the header and one line
      per run; each line reads back to its nine fields when no printed field holds a double quote
      or a newline. */
  lemma RunsCsvReadsBack(runs: seq<RunRow>, fraction: real -> string)
    requires forall i :: 0 <= i < |runs| ==>
      AllFree(RunFields(runs[i], fraction), '\n') && AllFree(RunFields(runs[i], fraction), '"')
    ensures var lines := SplitLines(Document(RunHeaders(), RunFieldsOf(runs, fraction)));
      && |lines| == |runs| + 1
      && lines[0] == Join(RunHeaders())
      && forall i :: 0 <= i < |runs| ==> ParseQuoted(lines[i + 1]) == Some(RunFields(runs[i], fraction))
  {
    RunHeadersPlain();
    DocumentParses(RunHeaders(), RunFieldsOf(runs, fraction));
  }

  lemma RunHeadersPlain()
    ensures AllFree(RunHeaders(), '\n')
  {
    var hs := RunHeaders();
    assert Free(hs[0], '\n') && Free(hs[1], '\n') && Free(hs[2], '\n');
    assert Free(hs[3], '\n') && Free(hs[4], '\n') && Free(hs[5], '\n');
    assert Free(hs[6], '\n') && Free(hs[7], '\n') && Free(hs[8], '\n');
  }
}
