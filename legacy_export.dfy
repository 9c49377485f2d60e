/**
 * The route `POST /api/export-schedule` of backend/index.js: the same pivot and CSV text as
 * the export service, answered directly over HTTP, with its own guard on the request body.
 */
module LegacyExport {
  import opened Wrappers
  import opened JsValues
  import opened Csv
  import opened Export

  /** What the route sends: an error status with `{ error }`, the CSV text with its two headers,
      or the JSON object `{ week_number, year, warehouse_id, total_stores, schedule }`. */
  datatype LegacyReply =
    | ErrorReply(status: int, error: string)
    | CsvReply(contentType: string, disposition: string, data: string)
    | JsonReply(weekNumber: JsValue, year: JsValue, warehouseId: JsValue, totalStores: nat,
                schedule: seq<WeeklyRecord>)

  /** `format = 'json'` in the destructuring of `req.body`: the default replaces only an absent
      (undefined) value. The legacy route repeats the controller's default on its own, so this
      mirrors `ExportController.BodyFormat` for a separate site. */
  function FormatOf(body: map<string, JsValue>): (f: JsValue)
    ensures Get(body, "format").Undefined? ==> f == Str("json")
    ensures !Get(body, "format").Undefined? ==> f == Get(body, "format")
  {
    var format := Get(body, "format");
    if format.Undefined? then Str("json") else format
  }

  /** The handler. `results` is the answer of the export query, `None` when it fails; the query
      is only issued once the guard has passed. */
  method ExportScheduleRoute(body: map<string, JsValue>, results: Option<seq<ExportRow>>,
                            fraction: real -> string)
    returns (reply: LegacyReply)
    ensures var week := Get(body, "week_number"); var year := Get(body, "year");
      !Truthy(week) || !Truthy(year) ==> reply == ErrorReply(400, "Missing required fields: week_number, year")
    ensures var week := Get(body, "week_number"); var year := Get(body, "year");
      Truthy(week) && Truthy(year) && results.None? ==> reply == ErrorReply(500, "Failed to fetch export data")
    ensures var week := Get(body, "week_number"); var year := Get(body, "year");
      Truthy(week) && Truthy(year) && results.Some? ==>
        var exportData := ObjectValues(PivotOf(results.value));
        reply == (if FormatOf(body) == Str("csv")
                  then CsvReply("text/csv", Attachment(FileName(week, year, fraction)), Document(Headers(), FieldsOf(exportData)))
                  else JsonReply(week, year, Get(body, "warehouse_id"), |exportData|, exportData))
  {
    var weekNumber := Get(body, "week_number");
    var year := Get(body, "year");
    var warehouseId := Get(body, "warehouse_id");
    var format := FormatOf(body);
    if !Truthy(weekNumber) || !Truthy(year) {
      return ErrorReply(400, "Missing required fields: week_number, year");
    }
    if results.None? {
      return ErrorReply(500, "Failed to fetch export data");
    }
    var exportData := TransformToWeeklyFormat(results.value);
    if format == Str("csv") {
      var csv := ConvertToCsv(exportData);
      reply := CsvReply("text/csv", Attachment(FileName(weekNumber, year, fraction)), csv);
    } else {
      reply := JsonReply(weekNumber, year, warehouseId, |exportData|, exportData);
    }
  }

  /** Only the exact string `"csv"` selects CSV; an absent format, `"CSV"` and any other value
      give JSON. */
  lemma OnlyCsvSelectsCsv(body: map<string, JsValue>)
    ensures FormatOf(body) == Str("csv") <==> Get(body, "format") == Str("csv")
  {
  }
}
