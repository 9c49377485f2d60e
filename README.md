# Planify delivery planning backend, modelled in Dafny

Planify plans the weekly deliveries from a warehouse to its stores. Each store has a
contract:

- a COMDET contract is one visit a week;
- a COMEAU contract is three visits a week.

The Node.js backend holds the planner and the code around it. This project models that code and
proves what it guarantees.

- **The greedy planner.** `_optimizeSchedule` keeps seven daily distance slots, Monday to
  Sunday:
  - COMDET stores are placed first-fit, with a delayed fallback;
  - COMEAU stores try Monday, Wednesday and Friday, then fill from the other days;
  - a summary is built from the committed slots.

  The planner appears as an imperative method over an `array<real>` of length 7
  (`OptimizationService`). It is proved equal to a specification fold (`Planner.Plan`), and the
  placement, order, budget and summary properties are proved about that fold
  (`PlannerProperties`).
- **The legacy copy of the planner** in the `POST /api/generate-schedule` route of `index.js`
  (`Legacy`). It differs from the service in three ways:
  - its entries carry the request's `warehouse_id`;
  - its run row stores the unrounded total;
  - it only logs a failed delete or insert.
- **Replace-on-write persistence** (`Persistence`). The `optimization_runs` and
  `delivery_schedules` tables are `seq` fields of a `Database` class. The run insert, the delete
  of the week and the bulk insert are methods, and which of them fail is a parameter.
- **The calendar helpers** (`Calendar`), on integer day counts:
  - `getWeekDates`;
  - `getWeekNumber`, with its agreement with the ISO 8601 week number (section 4.1.4 of
    ISO 8601:2004);
  - `getDayNames`.
- **The weekly export.** This covers:
  - the pivot into one record per store code, listed in JavaScript `Object.values` order;
  - the CSV writer;
  - the service result (`Export`);
  - the older export route (`LegacyExport`);
  - the export controller with its run-history CSV (`ExportController`). As routed, the
    run-history CSV download is never sent (see "## Findings").

  The CSV shared by all of them is in `Csv`.
- **The request guards** of the optimization and contract controllers, the validation
  middleware, the API response builder and the global error handler (`OptimizationController`,
  `ContractController`, `Validation`, `Helpers`, `ErrorHandler`).
- **The dashboard service** (`Dashboard`): the previous month, the merging of the query
  answers, and the count defaults of `_processDashboardData`.

`JsValues` models the JavaScript values that reach these handlers and the conversions they rely
on:

- truthiness and `||`;
- `Number(...)`, `parseInt`, `parseFloat` and `isNaN`;
- comparisons against number literals;
- `String(...)`.

Several inputs become parameters of the model:

- database answers and faults;
- the clock (`executionTime`, `currentYear`, the current month);
- the Haversine distance (`haversine`);
- two-decimal rounding (`round2`);
- the engine's printing of non-integral numbers (`fraction`).

## Model

| member | source | states |
|---|---|---|
| Calendar.Weekday | backend/utils/helpers.js:50-51 | `getDay()` of a day count is in 0..6 |
| Calendar.IsoWeekday | backend/utils/helpers.js:37 | `getUTCDay() \|\| 7` is in 1..7 and agrees with `getDay()` modulo 7 |
| Calendar.YearLength | backend/utils/helpers.js:39 | a year has 366 days when it is a leap year and 365 otherwise |
| Calendar.YearOf | backend/utils/helpers.js:39 | `getUTCFullYear()`: the year whose January 1st is on or before the day and whose successor's is after |
| Calendar.YearOfIs | backend/utils/helpers.js:39 | exactly one year contains a given day |
| Calendar.Thursday | backend/utils/helpers.js:37-38 | `d + 4 - dayNum` is a Thursday within three days of the date |
| Calendar.WeekNumber | backend/utils/helpers.js:35-41 | `getWeekNumber` lies in 1..53 |
| Calendar.FirstThursday | backend/utils/helpers.js:35-41 | the first Thursday of a year lies in its first seven days |
| Calendar.WeekNumberIsIso | backend/utils/helpers.js:35-41 | the week number is one more than the whole weeks from the Monday of ISO week 1 of the date's ISO year, as in section 4.1.4 of ISO 8601:2004 |
| Calendar.SameWeekSameNumber | backend/utils/helpers.js:35-41 | the seven days of a Monday-to-Sunday week share one Thursday and one week number |
| Calendar.January4InWeek1 | backend/utils/helpers.js:35-41 | January 4th is always in week 1 of its own year |
| Calendar.WeekMondayIsMonday | backend/utils/helpers.js:49-52 | the first date of every requested week is a Monday |
| Calendar.GetWeekDates | backend/utils/helpers.js:49-61 | seven consecutive dates, the first on January 1st + (week-1)*7 - getDay(Jan 1) + 1 days and a Monday |
| Calendar.WeekDayOfWeekDates | backend/utils/helpers.js:49-61 | date `d` of a requested week is ISO weekday `d + 1` |
| Calendar.WeekDatesMatchWeekNumber | backend/utils/helpers.js:35-61 | for weeks 1..52 the dates of the requested week have that week number exactly when January 1st is not a Friday or a Saturday |
| Calendar.WeekDatesLagWhenYearStartsLate | backend/utils/helpers.js:35-61 | when January 1st is a Friday or Saturday the requested week's dates lie in the ISO week before it |
| Calendar.DayNames | backend/utils/helpers.js:100-102 | seven names, Monday first and Sunday last |
| Calendar.DayNamesDistinct | backend/utils/helpers.js:100-102 | the seven day names are pairwise distinct |
| Planner.Init | backend/services/optimizationService.js:144-145 | the plan starts with seven zero slots and no entries |
| Planner.Commit | backend/services/optimizationService.js:158-170 | pushing an entry and adding its distance keeps seven slots |
| Planner.OfType | backend/services/optimizationService.js:148-149 | the filter keeps exactly the rows of the contract type |
| Planner.FirstFitFrom | backend/services/optimizationService.js:156-157 | the lowest day from `from` on whose slot fits, or none exactly when no later day fits |
| Planner.Min | backend/services/optimizationService.js:176 | `Math.min(...s)` is an element below or equal to all |
| Planner.IndexOf | backend/services/optimizationService.js:176 | `indexOf` finds the first position of the value |
| Planner.LeastLoaded | backend/services/optimizationService.js:176 | the first day whose slot is the least of all |
| Planner.ComdetStep | backend/services/optimizationService.js:152-189 | placing a COMDET store keeps the plan state well formed |
| Planner.ComdetPass | backend/services/optimizationService.js:152-189 | the COMDET `forEach` keeps the plan state well formed |
| Planner.TargetsFrom | backend/services/optimizationService.js:195-213 | the target-day loop keeps the plan state well formed |
| Planner.FillFrom | backend/services/optimizationService.js:216-232 | the fill loop keeps the plan state well formed |
| Planner.ComeauStep | backend/services/optimizationService.js:192-233 | placing a COMEAU store keeps the plan state well formed |
| Planner.ComeauPass | backend/services/optimizationService.js:192-233 | the COMEAU `forEach` keeps the plan state well formed |
| Planner.Plan | backend/services/optimizationService.js:145-233 | the two passes produce a well-formed plan |
| PlannerProperties.ComdetStepPlacement | backend/services/optimizationService.js:152-189 | a COMDET store gets exactly one entry: on the lowest fitting day, undelayed, growing that slot by its distance; or, when no day fits, delayed by one day on the first least loaded day with no slot changed |
| PlannerProperties.ComdetStepAppendsOne | backend/services/optimizationService.js:152-189 | a COMDET step appends one entry of that store and contract |
| PlannerProperties.ComdetPassOneEntryEach | backend/services/optimizationService.js:152-189 | the COMDET pass appends exactly one entry per COMDET row, in order |
| PlannerProperties.TryDays | backend/services/optimizationService.js:195-232 | trying days in order keeps the plan state well formed |
| PlannerProperties.FitDaysKeepsFitting | backend/services/optimizationService.js:197-232 | the fitting days of a list are exactly its days that pass the fit test |
| PlannerProperties.TargetsAreTried | backend/services/optimizationService.js:195-213 | the target-day loop tries Monday, Wednesday and Friday in that order |
| PlannerProperties.OtherDays | backend/services/optimizationService.js:216-217 | the fill loop's non-target days are Tuesday, Thursday, Saturday and Sunday |
| PlannerProperties.FillIsTried | backend/services/optimizationService.js:216-232 | the fill loop tries the remaining non-target days in order |
| PlannerProperties.ComeauTriesInPreferenceOrder | backend/services/optimizationService.js:192-233 | a COMEAU store's days are tried in the order 0, 2, 4, 1, 3, 5, 6 |
| PlannerProperties.TryDaysPlaces | backend/services/optimizationService.js:195-232 | trying distinct days places visits on exactly the first `3 - placed` of them that fit against the slots before the store |
| PlannerProperties.ComeauStepPlacement | backend/services/optimizationService.js:192-233 | a COMEAU store gets at most three undelayed entries on distinct fitting days, the first in preference order, with exactly those slots grown; a shortfall adds no delayed entry |
| PlannerProperties.ComeauBlockShape | backend/services/optimizationService.js:192-233 | a COMEAU step appends a block of at most three undelayed entries of that store on distinct days |
| PlannerProperties.ComeauPassBlocks | backend/services/optimizationService.js:192-233 | the COMEAU pass appends one such block per COMEAU row, in order |
| PlannerProperties.PlanOrder | backend/services/optimizationService.js:148-233 | the schedule is the COMDET entries in row order, then the COMEAU blocks in row order; rows of other types add nothing |
| PlannerProperties.PlanSlotsAreLoads | backend/services/optimizationService.js:145-236 | each final slot is the sum of the distances of the undelayed entries on its day |
| PlannerProperties.PlanTotalIsCommitted | backend/services/optimizationService.js:236 | the summed slots are the total distance of the undelayed entries, so delayed entries are excluded |
| PlannerProperties.EmptyPlanHasZeroSlots | backend/services/optimizationService.js:236-243 | a plan without entries has all slots and their sum at zero |
| PlannerProperties.PlanStamped | backend/services/optimizationService.js:158-166 | every entry carries the run's warehouse, week and year, and is dated on its day of the requested week |
| PlannerProperties.ComdetStepKeepsBudget | backend/services/optimizationService.js:156-188 | a COMDET step keeps every slot within the budget |
| PlannerProperties.ComeauStepKeepsBudget | backend/services/optimizationService.js:197-232 | a COMEAU step keeps every slot within the budget |
| PlannerProperties.PlanWithinBudget | backend/services/optimizationService.js:145-236 | with a non-negative budget no slot of the plan exceeds it |
| OptimizationService.OriginFallback | backend/services/optimizationService.js:132-133 | a falsy warehouse coordinate, 0 included, falls back to 48.8566 / 2.3522 |
| OptimizationService.StoreDistances | backend/services/optimizationService.js:129-138 | the distance table has an entry for exactly the store ids of the rows |
| OptimizationService.StoreDistanceIsLastRows | backend/services/optimizationService.js:137 | a store id's distance is that of its last row |
| OptimizationService.PlanContext | backend/services/optimizationService.js:129-145 | the run's context covers every store row |
| OptimizationService.PlaceComdet | backend/services/optimizationService.js:152-189 | the first-fit loop and the fallback, updating the slot array in place, compute `Planner.ComdetStep` |
| OptimizationService.PlaceComeau | backend/services/optimizationService.js:192-233 | the target loop and the fill loop, updating the slot array in place, compute `Planner.ComeauStep` |
| OptimizationService.ComputeDistances | backend/services/optimizationService.js:129-138 | the `forEach` fills the distance table of `StoreDistances` |
| OptimizationService.ComdetLoop | backend/services/optimizationService.js:152 | the COMDET `forEach` computes `Planner.ComdetPass` |
| OptimizationService.ComeauLoop | backend/services/optimizationService.js:192 | the COMEAU `forEach` computes `Planner.ComeauPass` |
| OptimizationService.RunPlanner | backend/services/optimizationService.js:127-233 | the schedule and final slots are `Planner.Plan` of the run's context |
| OptimizationService.OptimizeSchedule | backend/services/optimizationService.js:127-257 | `_optimizeSchedule` returns the plan's schedule, its summary and parameters |
| OptimizationService.FindType | backend/services/optimizationService.js:246-247 | `stores.find(...)?.contract_type` is the type of the first row of that id, absent exactly when no row has it |
| OptimizationService.CountOfType | backend/services/optimizationService.js:246-247 | a filter count is at most the schedule length |
| OptimizationService.MapReals | backend/services/optimizationService.js:243 | `map` applies the function to each slot |
| OptimizationService.ServiceEntries | backend/services/optimizationService.js:158-166 | every service entry names the fetched warehouse's id and the requested week and year, and is dated on the weekday its day names |
| OptimizationService.SummaryTotals | backend/services/optimizationService.js:240-245 | `total_deliveries` is the schedule length, the total is the rounded committed distance, each daily distance is the rounded load of its day, `execution_time_seconds` is the clock difference and `stores_served` the number of input rows |
| OptimizationService.FindTypeOfRow | backend/services/optimizationService.js:246-247 | with one row per store, `find` returns the row's own type |
| OptimizationService.CountOfTypeAll | backend/services/optimizationService.js:246-247 | entries whose stores all have that type as first-row contract type all count under it |
| OptimizationService.CountOfTypeNone | backend/services/optimizationService.js:246-247 | entries none of whose stores has that first-row type count nothing under it |
| OptimizationService.PlanEntryRows | backend/services/optimizationService.js:148-233 | COMDET entries name COMDET rows in order; later entries name COMEAU rows |
| OptimizationService.PlanCountsWithUniqueIds | backend/services/optimizationService.js:246-247 | with one row per store, `comdet_deliveries` is the COMDET store count and `comeau_deliveries` the rest of the schedule |
| OptimizationService.SharedStoreCountedUnderFirstRow | backend/services/optimizationService.js:246-247 | a store holding both types is counted under its first row's type only |
| Persistence.Remove | backend/services/optimizationService.js:293-295 | the delete keeps exactly the rows outside the week and warehouse |
| Persistence.Select | backend/services/optimizationService.js:293 | the rows of one week and warehouse, in table order |
| Persistence.Database.constructor | backend/services/optimizationService.js:263-330 | empty tables with the first run id 1 |
| Persistence.Database.InsertRun | backend/services/optimizationService.js:268-285 | on success the run row is appended and its id returned; on failure nothing changes and the id is null |
| Persistence.Database.ClearWeek | backend/services/optimizationService.js:293-298 | the delete removes the week's rows unless it fails |
| Persistence.Database.InsertSchedules | backend/services/optimizationService.js:301-317 | the bulk insert appends all rows or none |
| Persistence.SaveSchedule | backend/services/optimizationService.js:263-330 | a failed run insert gives a null run id and continues; an empty schedule skips delete and insert; a failed delete is logged and the insert still runs; only a failed insert rejects |
| Persistence.ServiceBudget | backend/services/optimizationService.js:71 | the default 600 replaces only an undefined budget; any other value is kept |
| Persistence.GenerateSchedule | backend/services/optimizationService.js:71-121 | a failed store query or a missing warehouse rejects with nothing written; otherwise the plan for the defaulted budget is saved and resolved unless the insert fails |
| Persistence.WeekRows | backend/services/optimizationService.js:293 | rows all of the week are all selected and none kept by the delete |
| Persistence.RemoveSelect | backend/services/optimizationService.js:293-295 | after a delete no row of the week remains, and a second delete changes nothing |
| Persistence.SaveKeepsOtherWeeks | backend/services/optimizationService.js:287-317 | a save never touches rows of other weeks or warehouses, whatever fails |
| Persistence.SavedWeek | backend/services/optimizationService.js:287-317 | the week afterwards holds the new schedule, the old and new rows, the old rows, or nothing, by which of delete and insert fail |
| Persistence.ServiceSaveReplacesWeek | backend/services/optimizationService.js:92-117 | the service's entries belong to the week the save clears, so other weeks are kept, and on success the week is exactly the new schedule |
| Legacy.MaxDailyDistance | backend/index.js:747 | `max_daily_distance` defaults to 600 only when it is undefined |
| Legacy.EmptySummary | backend/index.js:953-966 | the empty schedule's summary is all zeros with seven zero daily distances |
| Legacy.LegacyContext | backend/index.js:782-798 | the legacy run's context covers every store row |
| Legacy.GenerateScheduleHandler | backend/index.js:746-971 | missing fields give 400 before any query; failed queries give 500; otherwise the plan is saved with delete and insert failures only logged and `success: true` |
| Legacy.LegacyEntriesCarryRequestWarehouse | backend/index.js:805-886 | every legacy entry carries the request's `warehouse_id` |
| Legacy.LegacyRunTotal | backend/index.js:889-905 | the legacy run row stores the unrounded committed distance |
| Legacy.EmptySummaryAgrees | backend/index.js:952-966 | the constant empty summary agrees with the computed one |
| Export.DayIndexOf | backend/services/exportService.js:105-107 | the day a name denotes, or none exactly when it is not one of the seven |
| Export.Apply | backend/services/exportService.js:105-108 | a row's updates keep the record's seven day and delay columns |
| Export.PivotStep | backend/services/exportService.js:86-109 | one `forEach` iteration keeps the pivot well formed |
| Export.PivotOf | backend/services/exportService.js:84-109 | the pivot after all rows is well formed |
| Export.PropertyOrder | backend/services/exportService.js:111 | the property order lists each key once |
| Export.ObjectValues | backend/services/exportService.js:111 | `Object.values` lists the records in property order |
| Export.PropertyOrderPermutes | backend/services/exportService.js:111 | the property order is a permutation of the keys |
| Export.UpdateRecord | backend/services/exportService.js:105-108 | the three updates compute `Apply` |
| Export.AddRow | backend/services/exportService.js:86-109 | creating then updating the record computes `PivotStep` |
| Export.TransformToWeeklyFormat | backend/services/exportService.js:83-112 | the loop and `Object.values` compute the records of `PivotOf` in property order |
| Export.CountCode | backend/services/exportService.js:108 | a code's row count is zero exactly when no row names it |
| Export.FirstIndex | backend/services/exportService.js:88-103 | the first row of a code |
| Export.PivotMembers | backend/services/exportService.js:86-103 | the pivot has a record for exactly the codes of the rows |
| Export.PivotKeys | backend/services/exportService.js:84-111 | records are created in the order of their codes' first rows |
| Export.PivotFrequency | backend/services/exportService.js:108 | `Frequency` is the number of rows of the code |
| Export.PivotFirstRow | backend/services/exportService.js:88-103 | `Code`, `Store`, `Contract` and `Warehouse` come from the code's first row |
| Export.PivotDays | backend/services/exportService.js:95-107 | a day column is 1 iff some row of the code names that day, and then its delay is the last such row's; otherwise both stay 0 |
| Export.ExportCoversCodes | backend/services/exportService.js:111 | `Object.values` lists one record per distinct code, each under its own code |
| Export.Codes | backend/services/exportService.js:86-111 | the set of codes the rows mention |
| Export.TotalStores | backend/services/exportService.js:65 | `total_stores` is the number of distinct codes |
| Export.PropertyOrderShape | backend/services/exportService.js:111 | integer-like keys come first in ascending value, then the others in creation order |
| Export.ExportOrder | backend/services/exportService.js:84-111 | records of integer-like codes come first in ascending order, then the other codes in first-appearance order |
| Export.Headers | backend/services/exportService.js:121-131 | 19 header names from `Code` to `Frequency` |
| Export.DayColumns | backend/services/exportService.js:138-144 | fourteen day and delay columns |
| Export.Fields | backend/services/exportService.js:136-146 | nineteen fields per record |
| Export.FieldsAt | backend/services/exportService.js:136-146 | where each value of the record lands among the nineteen fields |
| Export.FieldsOf | backend/services/exportService.js:135-148 | one field list per record |
| Export.ConvertToCsv | backend/services/exportService.js:120-151 | the header line, then one quoted line per record, each ended by a newline |
| Export.FieldsFree | backend/services/exportService.js:136-146 | numeric fields never contain a quote or newline |
| Export.CsvReadsBack | backend/services/exportService.js:120-151 | with plain text fields the CSV splits into the header and one line per record, each reading back to its fields |
| Export.FileName | backend/services/exportService.js:55 | the `delivery_schedule_week_` prefix and the `.csv` suffix |
| Export.StringOfWhole | backend/services/exportService.js:55 | a whole week or year interpolates as its decimal digits |
| Export.FileNameParts | backend/services/exportService.js:55 | between prefix and suffix stand the week's digits, one `_`, and the year's digits |
| Export.FileNameInjective | backend/services/exportService.js:55 | two whole (week, year) pairs give the same file name only when they are equal |
| Export.Attachment | backend/controllers/exportController.js:42 | `attachment; filename="<name>"` wraps the name |
| Export.ExportSchedule | backend/services/exportService.js:13-75 | a failed query rejects with "Failed to fetch export data"; csv gives the file name, the CSV and `text/csv`; anything else gives week, year, warehouse (null by default), store count and records |
| LegacyExport.FormatOf | backend/index.js:1163 | `format` defaults to 'json' only when undefined |
| LegacyExport.ExportScheduleRoute | backend/index.js:1162-1265 | missing week or year gives 400 before the query; a failed query 500; then the same pivot as CSV or JSON |
| LegacyExport.OnlyCsvSelectsCsv | backend/index.js:1232 | only the exact string 'csv' selects CSV |
| Csv.Quote | backend/services/exportService.js:146 | a field wrapped in double quotes, nothing escaped |
| Csv.QuoteAll | backend/services/exportService.js:146 | each field is quoted |
| Csv.DocumentSnoc | backend/services/exportService.js:147 | appending a record appends its line |
| Csv.ParseQuotedJoin | backend/services/exportService.js:146 | a quoted line reads back to its fields when none holds a double quote |
| Csv.JoinFree | backend/services/exportService.js:146 | joining fields free of a character other than the comma stays free of it |
| Csv.SplitLinesOfLines | backend/services/exportService.js:147 | newline-free records split back into their lines |
| Csv.DocumentReadsBack | backend/services/exportService.js:133-150 | a document splits into the header line and one line per record |
| Csv.DocumentParses | backend/services/exportService.js:133-150 | each data line parses back to its record |
| Csv.QuoteInFieldBreaks | backend/services/exportService.js:146 | a field holding a double quote does not read back, since nothing is escaped |
| Helpers.Missing | backend/utils/helpers.js:79 | the filter keeps at most the required fields |
| Helpers.ValidateRequiredFields | backend/utils/helpers.js:78-84 | `isValid` iff nothing is missing; a field is missing iff required and falsy |
| Helpers.MissingMembers | backend/utils/helpers.js:79 | a field is missing exactly when required and falsy |
| Helpers.MissingKeepsOrder | backend/utils/helpers.js:79 | the missing fields are the ordered subsequence: the filter distributes over concatenation |
| Helpers.MissingOfOne | backend/utils/helpers.js:79 | a single field is missing exactly when its value is falsy |
| Helpers.CreateApiResponse | backend/utils/helpers.js:112-120 | `success` always set; `data` iff not null; `message` and `error` iff truthy |
| Helpers.ErrorResponse | backend/utils/helpers.js:112-120 | `createApiResponse(false, null, null, message)` has only `success` and `error` |
| Helpers.Fail | backend/controllers/optimizationController.js:52 | an error reply has the status and only the error message |
| Validation.ValidateFields | backend/middleware/validation.js:9-29 | passes iff every required field is truthy; otherwise 400 "Missing required fields" with exactly the falsy ones |
| Validation.ValidateFieldsReportsMissing | backend/middleware/validation.js:12-26 | the rejection lists `validateRequiredFields`'s missing fields, in order |
| Validation.ValidateEmail | backend/middleware/validation.js:46-60 | only a truthy email is checked; it passes iff it matches `^[^\s@]+@[^\s@]+\.[^\s@]+$` |
| Validation.EmailPatternShape | backend/middleware/validation.js:50 | an accepted address has no white space and exactly one `@`, not at either end |
| Validation.EmailPatternOfParts | backend/middleware/validation.js:50 | every `local@domain.tld` of plain non-empty parts is accepted |
| Validation.ValidatePassword | backend/middleware/validation.js:68-82 | rejects iff `newPassword \|\| password` is a truthy string whose UTF-16 `length` is below 6 |
| Validation.PasswordChecked | backend/middleware/validation.js:70-79 | a truthy `newPassword` is the one checked, by its UTF-16 `length`; with neither set the request passes |
| Validation.PasswordCountsCodeUnits | backend/middleware/validation.js:73 | three characters above U+FFFF are six code units and pass; "abc" is refused |
| Validation.ValidateGps | backend/middleware/validation.js:90-120 | runs when either coordinate is defined; passes iff both parse and lie in [-90,90] and [-180,180] |
| Validation.GpsCheckOrder | backend/middleware/validation.js:93-109 | one coordinate alone is a format error; the format check comes before the range checks |
| Validation.InvalidFields | backend/middleware/validation.js:131-136 | exactly the fields that are defined and NaN or negative |
| Validation.ValidateNumeric | backend/middleware/validation.js:127-147 | the loop collects the bad fields in order and rejects iff there is one |
| Validation.NumericCoercion | backend/middleware/validation.js:133 | null, "" and false pass; a non-numeric string fails; undefined is skipped |
| ErrorHandler.Classify | backend/middleware/errorHandler.js:24-48 | the first matching case decides the status; 500 'Internal server error' exactly when none matches; only a ValidationError carries details |
| ErrorHandler.ConfigEnv | backend/config/app.js:32 | `NODE_ENV \|\| "development"` |
| ErrorHandler.HandleError | backend/middleware/errorHandler.js:11-66 | status and message from the classification, `success` false, `details` iff in development, `validation` iff ValidationError details exist |
| ErrorHandler.NameBeforeCode | backend/middleware/errorHandler.js:29-48 | ValidationError gives (400, 'Validation error', its details), UnauthorizedError (401, 'Unauthorized'), ForbiddenError (403, 'Forbidden') and NotFoundError (404, 'Resource not found') whatever the code; the two database codes give 409 'Duplicate entry' and 400 'Invalid reference' only when no name matches |
| ErrorHandler.Lookup | backend/middleware/errorHandler.js:29-48 | the status and message of the first case whose value matches, and none exactly when no case matches |
| ErrorHandler.ClassifyIsTable | backend/middleware/errorHandler.js:29-48 | the `if`/`else if` chain equals the lookup in the name table, then in the code table, then 500 |
| ErrorHandler.NotFound | backend/middleware/errorHandler.js:73-85 | always 404 with `Cannot <METHOD> <URL>` |
| OptimizationController.ConfigMaxDailyDistance | backend/config/app.js:19 | the configured budget is `parseInt(MAX_DAILY_DISTANCE)` when truthy, else 600 |
| OptimizationController.MaxDailyDistanceOf | backend/controllers/optimizationController.js:47 | the body's budget, or the configured one when undefined |
| OptimizationController.GenerateScheduleGuard | backend/controllers/optimizationController.js:51-64 | week, then year, then distance, each with its message; the request passes iff all three hold |
| OptimizationController.GuardOnIntegers | backend/controllers/optimizationController.js:51-64 | on whole numbers: week 1..53, year within one of now, budget 1..2000 |
| OptimizationController.MissingParametersPass | backend/controllers/optimizationController.js:51-64 | a missing or non-numeric week and year pass, since NaN comparisons are false |
| OptimizationController.DefaultBudget | backend/controllers/optimizationController.js:47 | with the variable unset the budget is 600 and accepted |
| OptimizationController.GenerateScheduleReply | backend/controllers/optimizationController.js:41-92 | guard failures give 400, a service rejection 500 with its message, success 200 with run id, schedule and summary |
| OptimizationController.RunsLimit | backend/controllers/optimizationController.js:101 | `parseInt(limit) \|\| 50` |
| OptimizationController.GetOptimizationRunsReply | backend/controllers/optimizationController.js:99-113 | a limit above 100 gives 400 before the query; a failed query 500 |
| OptimizationController.RunsLimitDefaults | backend/controllers/optimizationController.js:101-105 | a falsy parsed limit means 50, which is accepted |
| OptimizationController.GetSchedulesGuard | backend/controllers/optimizationController.js:125-134 | NaN or out-of-range week, then NaN year, are refused |
| OptimizationController.WarehouseIdParam | backend/controllers/optimizationController.js:136 | a missing or empty `warehouse_id` becomes null |
| OptimizationController.GetSchedulesReply | backend/controllers/optimizationController.js:120-145 | guard failures give 400, a failed query 500 "Failed to fetch schedules" |
| ContractController.ContractGuard | backend/controllers/contractController.js:84-95 | passes iff COMEAU with 3 or COMDET with 1 (strict equality); otherwise the type message, then the frequency message |
| ContractController.ActiveStatus | backend/controllers/contractController.js:158 | `active_status` defaults to true only when undefined |
| ContractController.CreateContractRequest | backend/controllers/contractController.js:84-102 | the guard refuses with 400 before the insert, whose five parameters are the body's store_id, contract_type, frequency_per_week, start_date and end_date in that order |
| ContractController.UpdateContractRequest | backend/controllers/contractController.js:139-160 | the same guard; the update's seven parameters are the same five body values, then the active status and the path's id |
| ContractController.CreateContractReply | backend/controllers/contractController.js:79-126 | 400 on the guard, 500 on a failed insert, else 201 with the new id |
| ContractController.UpdateContractReply | backend/controllers/contractController.js:133-186 | 400 on the guard, 500 on a failed update, 404 when no row matched, else 200 |
| ContractController.SameGuard | backend/controllers/contractController.js:84-95 | create and update refuse the same bodies with the same message |
| ContractController.AcceptedPairs | backend/controllers/contractController.js:84-95 | the accepted type and frequency pairs are exactly (COMEAU, 3) and (COMDET, 1) |
| ExportController.BodyFormat | backend/controllers/exportController.js:13 | `format` defaults to 'json' only when undefined |
| ExportController.ExportScheduleGuard | backend/controllers/exportController.js:16-28 | week (falsy or outside 1..53), then year (falsy or NaN), then format; passes iff all hold |
| ExportController.ExportGuardRefusesMissing | backend/controllers/exportController.js:16-23 | a falsy week or a NaN year is refused |
| ExportController.ExportScheduleHandler | backend/controllers/exportController.js:11-51 | 400 on the guard, 500 on a rejected service, else a CSV download or the JSON result |
| ExportController.QueryFormat | backend/controllers/exportController.js:61 | `format \|\| 'json'` |
| ExportController.ExportRunsGuard | backend/controllers/exportController.js:60-69 | limit above 100, then a format other than json or csv, are refused |
| ExportController.ExportRunsHandler | backend/controllers/exportController.js:58-95 | the intended handler, with the converter reached through its class: 400 on the guard, 500 on a failed query, else the runs CSV download or `{ total_runs, runs }` |
| ExportController.RoutedExportRuns | backend/controllers/exportController.js:58-95 | the handler as routed, with `this` undefined: the same 400 and 500 replies and the JSON result, but csv answers 500 "Failed to export optimization runs" and no download is ever sent |
| ExportController.CsvRequestReachesConverter | backend/controllers/exportController.js:60-81 | `?format=csv` without a limit passes both checks and reaches the converter call |
| ExportController.RunHeaders | backend/controllers/exportController.js:130-133 | nine header names |
| ExportController.RunField | backend/controllers/exportController.js:148 | a falsy value, 0 included, prints as the empty string |
| ExportController.RunFields | backend/controllers/exportController.js:138-148 | nine fields per run |
| ExportController.RunFieldsOf | backend/controllers/exportController.js:137-150 | one field list per run |
| ExportController.ConvertRunsToCsv | backend/controllers/exportController.js:129-153 | the header line, then one quoted line per run |
| ExportController.FalsyFieldsAreBlank | backend/controllers/exportController.js:148 | a zero distance or null user id gives an empty field |
| ExportController.RunsCsvReadsBack | backend/controllers/exportController.js:129-153 | the runs CSV splits into the header and one line per run that reads back to its fields |
| Dashboard.PreviousMonth | backend/services/dashboardService.js:10-13 | January gives December of the year before, otherwise the month before; always the predecessor month |
| Dashboard.PreviousMonthUnique | backend/index.js:996-997 | the rollover yields the unique month immediately before the current one |
| Dashboard.DashboardQueries | backend/services/dashboardService.js:15-94 | seven queries with distinct keys; only the delivery counts take this month's and last month's parameters |
| Dashboard.Keys | backend/services/dashboardService.js:115 | the keys of the queries, in order |
| Dashboard.Merged | backend/services/dashboardService.js:131-135 | a key is present iff its query succeeded |
| Dashboard.MergedLookup | backend/services/dashboardService.js:116-135 | a successful query's rows are under its key; a failed query's key is absent |
| Dashboard.ExecuteQueries | backend/services/dashboardService.js:111-138 | the loop computes `Merged` |
| Dashboard.FirstCount | backend/services/dashboardService.js:147-148 | `results.key?.[0]?.count \|\| 0`: 0 when the key is missing or empty |
| Dashboard.DeliveryGrowth | backend/services/dashboardService.js:149-151 | growth is 0 exactly when last month's count is not positive |
| Dashboard.CountsOf | backend/services/dashboardService.js:153-158 | the counts object has a property for exactly the contract types of the rows |
| Dashboard.LastRowWins | backend/services/dashboardService.js:155-157 | later rows of a type overwrite earlier ones |
| Dashboard.Stats | backend/services/dashboardService.js:146-181 | `deliveries`, `stores`, `contracts` and `recentRuns` each read the first row of their own query (`currentMonthDeliveries`, `totalStores`, `totalContracts`, `recentOptimizations`), defaulting to 0 when that query is missing, empty or falsy; `total` repeats the contract count, growth as above, weekly trends are the `weeklyTrends` rows when that query succeeded (even when empty) and [] otherwise, an empty result gives the zero dashboard |
| Dashboard.ComeauFromLastRow | backend/services/dashboardService.js:153-173 | the COMEAU count is that of the last COMEAU row |
| Dashboard.ComdetDefaultsToZero | backend/services/dashboardService.js:153-174 | without a COMDET row the COMDET count is 0 |
| Dashboard.ProcessDashboardData | backend/services/dashboardService.js:146-181 | the loop computes `Stats` |
| Dashboard.GetDashboardStats | backend/services/dashboardService.js:9-103 | the stats of the merged answers to this month's queries |
| Dashboard.AllQueriesFailed | backend/services/dashboardService.js:116-181 | when every query fails the dashboard shows only zeros |
| Dashboard.UnknownWarehouse | backend/services/dashboardService.js:211-217 | exactly the keys warehouse_name, total_deliveries, avg_distance, total_distance and unique_stores: the name 'Unknown' and zeros |
| Dashboard.WarehouseMetrics | backend/services/dashboardService.js:203-220 | a failed query rejects; no rows give 'Unknown'; otherwise the first row |
| JsValues.Or | backend/utils/helpers.js:37 | `a \|\| b` is `a` when truthy, else `b` |
| JsValues.ParseInt | backend/controllers/optimizationController.js:125-126 | `parseInt` gives NaN or a whole number |
| JsValues.IntegerOf | backend/controllers/optimizationController.js:51-57 | a value's whole-number conversion, when there is one |
| JsValues.NatToString | backend/services/exportService.js:146 | decimal digits without leading zeros whose value is the number |
| JsValues.Utf16Length | backend/middleware/validation.js:73 | a string's `length` in UTF-16 code units, between its character count and twice that, equal to it iff no character is above U+FFFF |
| JsValues.Utf16LengthAppend | backend/middleware/validation.js:73 | the `length` of a concatenation is the sum of the lengths |
| JsValues.ParseIntOfIntToString | backend/controllers/optimizationController.js:125 | `parseInt(String(i))` gives back `i` |
| JsValues.StringToNumberOfIntToString | backend/middleware/validation.js:133 | `Number(String(i))` gives back `i` |

## Left out

- SQL texts, the MySQL driver, connection pooling and callbacks are not modelled. Query answers and statement failures are parameters, and `Promise.all` in `_executeQueries` is taken to deliver its answers in key order.
- Clocks are parameters: `Date.now()` (`executionTime`), `new Date().getFullYear()` (`currentYear`) and the current month.
- `calculateDistance` (Haversine) and `roundToDecimals` / `Math.round(x * 100) / 100` are the parameters `haversine` and `round2` and are not verified.
- Finite numbers are exact reals, and IEEE-754 rounding is not modelled. The growth percentage and the `toFixed` averages of the dashboard, which are floating-point formatting, are left out, and the growth is kept as its two operands.
- `String(...)` of a non-integral number is the parameter `fraction`, standing for the engine's formatting.
- Dates are day counts. `toISOString().split('T')[0]`, local time zones, daylight saving and the two-digit-year quirk of `new Date(year, ...)` are not modelled, and `delivery_date` is the day count itself.
- The store and warehouse rows keep only the columns the code reads. The run-history `run_date` is the string its template renders.
- `calculateDistances` (backend/services/optimizationService.js:12-61), `getSchedules` and `exportOptimizationRuns` of the export service, `getExportFormats`, and the other dashboard queries are SQL pass-through or constant replies and are not part of this model.
- The `catch` branches "Failed to transform export data", "Failed to get dashboard statistics" and the validation middleware's own 500 are reached only by an exception thrown in code that cannot throw on the modelled inputs, and are left out.
- Persistence.GenerateSchedule: takes the week and year as integers, while the controller passes the raw body values (backend/controllers/optimizationController.js:66-71). A missing or non-numeric week or year passes the controller's guard. `getWeekDates` then builds an Invalid Date, `toISOString()` on the first placed entry throws a RangeError, and the `catch` rejects with "Schedule optimization failed" (a 500 reply). The model does not reach that branch, and it does not model the week and year stored with a fractional value either.
- Legacy.GenerateScheduleHandler: requires that the week and year convert to whole numbers (`WholeWeekAndYear`), because the model's week and year are integers. A fractional week or year, such as 1.5, is valid in the source: `new Date(year, 0, days + 1)` truncates it, and the route plans, stores and answers with the fractional value, which the model excludes. A non-numeric week or year gives an Invalid Date, whose `toISOString()` throws, and this too is excluded.
- Strings are sequences of Unicode scalar values, and `length` counts a character above U+FFFF as two code units. A lone surrogate, which a JavaScript string may hold, cannot be represented.
- `parseInt` of a string giving negative zero is modelled as 0.
- JavaScript objects are maps of their own properties. Inherited `Object.prototype` keys such as `constructor` are not modelled.
- Arrays, including array-valued JSON fields and repeated query parameters, are `Obj`, whose elements are not modelled. Where the source reads such a value the model differs: `password.length < 6` rejects a short array in backend/middleware/validation.js:73 while the model accepts it, `Number([5])` is 5 where the model gives NaN, and the e-mail regex tests the array's string form.
- Export.Apply: a `delivery_day_of_week` outside the seven names (the planner writes only those) would add or overwrite a property of the record in the source; the model only counts the row in `Frequency`.
- ExportController.ExportRunsHandler: calls the run-history converter as if `this` were bound to the class. The routed handler answers `?format=csv` with 500, and `ExportController.RoutedExportRuns` models that (see "## Findings").
- Export.ExportSchedule: the `format` property of the result is represented by its variant (`CsvExport` or `JsonExport`).
- The `ORDER BY` and `WHERE warehouse_id` clauses of the export query only shape the answer, which is a parameter.
- `Number("...")`, `parseInt` and `parseFloat` handle decimal, hexadecimal, octal and binary literals and `Infinity`, but JavaScript's numeric separators and exotic white space beyond the listed characters are not modelled.
- Authentication, routing, Express wiring, logging, the CRUD controllers and the frontend are outside the planner's core and are not modelled.

## Findings

| source | as written | input that shows it | evidently intended | confidence | as-written member | corrected member |
|---|---|---|---|---|---|---|
| backend/controllers/exportController.js:81 | `this._convertOptimizationRunsToCSV(runs)` inside a static method that backend/routes/export.js:30 passes to `asyncHandler`, which calls it unbound (backend/middleware/errorHandler.js:94); `this` is undefined, the call throws a TypeError, and the catch at lines 91-94 answers 500 | `GET /api/export/optimization-runs?format=csv` with a succeeding query | the `optimization_runs.csv` download of the converted runs | high; not executed | ExportController.RoutedExportRuns | ExportController.ExportRunsHandler |
