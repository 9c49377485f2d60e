/**
 * The global Express error handler and the 404 handler of backend/middleware/errorHandler.js.
 */
module ErrorHandler {
  import opened Wrappers
  import opened JsValues

  /** The properties of a thrown error the handler reads. */
  datatype AppError = AppError(name: JsValue, code: JsValue, message: JsValue, stack: JsValue, details: JsValue)

  /** `details` of a development-mode response; `validation` is absent unless spread in. */
  datatype Details = Details(message: JsValue, stack: JsValue, validation: Option<JsValue>)

  /** The JSON body `{ success: false, error, details? }`. */
  datatype ErrorBody = ErrorBody(success: bool, error: string, details: Option<Details>)

  /** The status and message of the first matching case of the `if`/`else if` chain, and the
      validation details, which only a `ValidationError` carries. */
  function Classify(err: AppError): (r: (int, string, JsValue))
    ensures r.0 in {400, 401, 403, 404, 409, 500}
    ensures r.0 == 500 <==>
      err.name !in {Str("ValidationError"), Str("UnauthorizedError"), Str("ForbiddenError"), Str("NotFoundError")}
      && err.code !in {Str("ER_DUP_ENTRY"), Str("ER_NO_REFERENCED_ROW_2")}
    ensures r.0 == 500 ==> r.1 == "Internal server error"
    ensures !r.2.Null? ==> err.name == Str("ValidationError") && r.2 == err.details
  {
    if err.name == Str("ValidationError") then (400, "Validation error", err.details)
    else if err.name == Str("UnauthorizedError") then (401, "Unauthorized", Null)
    else if err.name == Str("ForbiddenError") then (403, "Forbidden", Null)
    else if err.name == Str("NotFoundError") then (404, "Resource not found", Null)
    else if err.code == Str("ER_DUP_ENTRY") then (409, "Duplicate entry", Null)
    else if err.code == Str("ER_NO_REFERENCED_ROW_2") then (400, "Invalid reference", Null)
    else (500, "Internal server error", Null)
  }

  /** `config.env`, that is `process.env.NODE_ENV || "development"`. */
  function ConfigEnv(nodeEnv: JsValue): (env: JsValue)
    ensures !Truthy(nodeEnv) ==> env == Str("development")
    ensures Truthy(nodeEnv) ==> env == nodeEnv
  {
    Or(nodeEnv, Str("development"))
  }

  /** `errorHandler(err, req, res, next)`: the status it sets and the body it sends. The locals
      `statusCode`, `message` and `errorDetails` start at 500, 'Internal server error' and null
      and are reassigned by the first matching case. */
  method HandleError(err: AppError, nodeEnv: JsValue) returns (status: int, body: ErrorBody)
    ensures (status, body.error) == (Classify(err).0, Classify(err).1)
    ensures !body.success
    ensures body.details.Some? <==> ConfigEnv(nodeEnv) == Str("development")
    ensures body.details.Some? ==>
      && body.details.value.message == err.message && body.details.value.stack == err.stack
      && (body.details.value.validation.Some? <==> err.name == Str("ValidationError") && Truthy(err.details))
      && (body.details.value.validation.Some? ==> body.details.value.validation.value == err.details)
  {
    var statusCode := 500;
    var message := "Internal server error";
    var errorDetails := Null;
    if err.name == Str("ValidationError") {
      statusCode := 400;
      message := "Validation error";
      errorDetails := err.details;
    } else if err.name == Str("UnauthorizedError") {
      statusCode := 401;
      message := "Unauthorized";
    } else if err.name == Str("ForbiddenError") {
      statusCode := 403;
      message := "Forbidden";
    } else if err.name == Str("NotFoundError") {
      statusCode := 404;
      message := "Resource not found";
    } else if err.code == Str("ER_DUP_ENTRY") {
      statusCode := 409;
      message := "Duplicate entry";
    } else if err.code == Str("ER_NO_REFERENCED_ROW_2") {
      statusCode := 400;
      message := "Invalid reference";
    }
    var details: Option<Details> := None;
    if ConfigEnv(nodeEnv) == Str("development") {
      // `...(errorDetails && { validation: errorDetails })` spreads nothing for a falsy value
      details := Some(Details(err.message, err.stack, if Truthy(errorDetails) then Some(errorDetails) else None));
    }
    status := statusCode;
    body := ErrorBody(false, message, details);
  }

  /** Each error name gives its own status and message whatever its code, so a `NotFoundError`
      that also carries `ER_DUP_ENTRY` is a 404; a database error is classified by its code only
      when its name matches none of the four. */
  lemma NameBeforeCode(err: AppError)
    ensures err.name == Str("ValidationError") ==> Classify(err) == (400, "Validation error", err.details)
    ensures err.name == Str("UnauthorizedError") ==> Classify(err) == (401, "Unauthorized", Null)
    ensures err.name == Str("ForbiddenError") ==> Classify(err) == (403, "Forbidden", Null)
    ensures err.name == Str("NotFoundError") ==> Classify(err) == (404, "Resource not found", Null)
    ensures err.name !in {Str("ValidationError"), Str("UnauthorizedError"), Str("ForbiddenError"), Str("NotFoundError")} ==>
      (err.code == Str("ER_DUP_ENTRY") ==> Classify(err) == (409, "Duplicate entry", Null))
      && (err.code == Str("ER_NO_REFERENCED_ROW_2") ==> Classify(err) == (400, "Invalid reference", Null))
  {
  }

  /** The four name cases, then the two code cases, as (value, status, message), in the order
      the handler tests them. */
  function NameCases(): seq<(string, int, string)>
  {
    [("ValidationError", 400, "Validation error"), ("UnauthorizedError", 401, "Unauthorized"),
     ("ForbiddenError", 403, "Forbidden"), ("NotFoundError", 404, "Resource not found")]
  }

  function CodeCases(): seq<(string, int, string)>
  {
    [("ER_DUP_ENTRY", 409, "Duplicate entry"), ("ER_NO_REFERENCED_ROW_2", 400, "Invalid reference")]
  }

  /** The status and message of the first case whose value is `v`, if any. */
  function Lookup(cases: seq<(string, int, string)>, v: JsValue): (r: Option<(int, string)>)
    ensures r.None? <==> forall i :: 0 <= i < |cases| ==> Str(cases[i].0) != v
    ensures r.Some? ==> exists i :: 0 <= i < |cases| && Str(cases[i].0) == v && r.value == (cases[i].1, cases[i].2)
                                 && forall j :: 0 <= j < i ==> Str(cases[j].0) != v
  {
    if cases == [] then None
    else if Str(cases[0].0) == v then Some((cases[0].1, cases[0].2))
    else
      var r := Lookup(cases[1..], v);
      assert forall i :: 1 <= i < |cases| ==> cases[i] == cases[1..][i - 1];
      r
  }

  /** The handler read as a table: the first name case that matches, else the first code case,
      else 500; only a `ValidationError` passes its `details` on. */
  function ByTable(err: AppError): (int, string, JsValue)
  {
    match Lookup(NameCases(), err.name)
    case Some(p) => (p.0, p.1, if err.name == Str("ValidationError") then err.details else Null)
    case None =>
      match Lookup(CodeCases(), err.code)
      case Some(p) => (p.0, p.1, Null)
      case None => (500, "Internal server error", Null)
  }

  /** The `if`/`else if` chain is the table lookup. */
  lemma ClassifyIsTable(err: AppError)
    ensures Classify(err) == ByTable(err)
  {
  }

  /** The body of `notFoundHandler`. */
  datatype NotFoundBody = NotFoundBody(success: bool, error: string, message: string)

  /** `notFoundHandler(req, res)`: always 404 with the message `Cannot <METHOD> <URL>`. */
  function NotFound(httpMethod: string, url: string): (r: (int, NotFoundBody))
    ensures r.0 == 404 && !r.1.success && r.1.error == "Route not found"
    ensures r.1.message == "Cannot " + httpMethod + " " + url
  {
    (404, NotFoundBody(false, "Route not found", "Cannot " + httpMethod + " " + url))
  }
}
