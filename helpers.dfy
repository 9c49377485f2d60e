/**
 * The pure helpers of backend/utils/helpers.js that the controllers and middleware use:
 * `validateRequiredFields` and `createApiResponse`. (`getWeekNumber`, `getWeekDates` and
 * `getDayNames` are in module Calendar.)
 */
module Helpers {
  import opened Wrappers
  import opened JsValues

  /** The object `{ isValid, missingFields }`. */
  datatype RequiredCheck = RequiredCheck(isValid: bool, missingFields: seq<string>)

  /** `requiredFields.filter(field => !body[field])`. */
  function Missing(body: map<string, JsValue>, fields: seq<string>): (r: seq<string>)
    ensures |r| <= |fields|
  {
    if fields == [] then []
    else Missing(body, fields[..|fields| - 1]) + (if Truthy(Get(body, fields[|fields| - 1])) then [] else [fields[|fields| - 1]])
  }

  /** `validateRequiredFields(body, requiredFields)`. */
  function ValidateRequiredFields(body: map<string, JsValue>, fields: seq<string>): (r: RequiredCheck)
    ensures r.isValid <==> r.missingFields == []
    ensures forall f :: f in r.missingFields <==> f in fields && !Truthy(Get(body, f))
  {
    MissingMembers(body, fields);
    var missing := Missing(body, fields);
    RequiredCheck(|missing| == 0, missing)
  }

  /** A field is reported missing exactly when it is required and its value is falsy, so an
      absent field, `null`, `""`, `0` and `false` all count as missing. */
  lemma {:induction false} MissingMembers(body: map<string, JsValue>, fields: seq<string>)
    ensures forall f :: f in Missing(body, fields) <==> f in fields && !Truthy(Get(body, f))
  {
    if fields != [] {
      var prefix := fields[..|fields| - 1];
      MissingMembers(body, prefix);
      assert fields == prefix + [fields[|fields| - 1]];
    }
  }

  /** The missing fields keep the order of `requiredFields`: the filter distributes over
      concatenation, and a single field is missing exactly when its value is falsy. */
  lemma {:induction false} MissingKeepsOrder(body: map<string, JsValue>, a: seq<string>, b: seq<string>)
    ensures Missing(body, a + b) == Missing(body, a) + Missing(body, b)
    decreases |b|
  {
    if b == [] {
      assert a + b == a;
    } else {
      assert (a + b)[..|a + b| - 1] == a + b[..|b| - 1];
      MissingKeepsOrder(body, a, b[..|b| - 1]);
    }
  }

  lemma MissingOfOne(body: map<string, JsValue>, f: string)
    ensures Missing(body, [f]) == (if Truthy(Get(body, f)) then [] else [f])
  {
    assert [f][..0] == [];
  }

  /** The response object; an absent property is `None`. */
  datatype ApiResponse = ApiResponse(success: bool, data: Option<JsValue>, message: Option<JsValue>, error: Option<JsValue>)

  /** `createApiResponse(success, data = null, message = null, error = null)`. An argument left
      out is `undefined`, which the default turns into `null`. */
  function CreateApiResponse(success: bool, data: JsValue, message: JsValue, error: JsValue): (r: ApiResponse)
    ensures r.success == success
    ensures r.data.Some? <==> !data.Null? && !data.Undefined?
    ensures r.data.Some? ==> r.data.value == data
    ensures r.message.Some? <==> Truthy(message)
    ensures r.message.Some? ==> r.message.value == message
    ensures r.error.Some? <==> Truthy(error)
    ensures r.error.Some? ==> r.error.value == error
  {
    var d := if data.Undefined? then Null else data;
    var m := if message.Undefined? then Null else message;
    var e := if error.Undefined? then Null else error;
    ApiResponse(
      success,
      if d != Null then Some(d) else None,
      if Truthy(m) then Some(m) else None,
      if Truthy(e) then Some(e) else None)
  }

  /** `createApiResponse(false, null, null, message)`, the error reply of the controllers. */
  function ErrorResponse(message: string): (r: ApiResponse)
    ensures message != "" ==> r == ApiResponse(false, None, None, Some(Str(message)))
  {
    CreateApiResponse(false, Null, Null, Str(message))
  }

  /** What a controller sends: `res.status(status).json(createApiResponse(false, null, null, error))`,
      or a success with its data and message (`res.json` answers 200). */
  datatype Reply<T> = Failure(status: int, body: ApiResponse) | Success(status: int, data: T, message: Option<string>)

  /** The 400/500 replies of the controllers. */
  function Fail<T>(status: int, error: string): (r: Reply<T>)
    ensures r.Failure? && r.status == status && !r.body.success && r.body.data.None? && r.body.message.None?
    ensures error != "" ==> r.body.error == Some(Str(error))
  {
    Failure(status, ErrorResponse(error))
  }
}
