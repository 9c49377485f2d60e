/**
 * The request-body validators of backend/middleware/validation.js. Each middleware either
 * passes the request on (`next()`) or answers 400 with `success: false` and an error message.
 */
module Validation {
  import opened Wrappers
  import opened JsValues
  import opened Helpers

  /** What a middleware does with a request: call `next()`, or reply with a status, an error
      message and, for two of them, the offending field names. */
  datatype Verdict = Next | Reject(status: int, error: string, fields: seq<string>)

  /** `validateFields(requiredFields)` applied to a body. */
  function ValidateFields(body: map<string, JsValue>, required: seq<string>): (v: Verdict)
    ensures v.Next? <==> forall f :: f in required ==> Truthy(Get(body, f))
    ensures v.Reject? ==> v.status == 400 && v.error == "Missing required fields"
    ensures v.Reject? ==> forall f :: f in v.fields <==> f in required && !Truthy(Get(body, f))
  {
    var check := ValidateRequiredFields(body, required);
    assert !check.isValid ==> check.missingFields[0] in check.missingFields;
    if !check.isValid then Reject(400, "Missing required fields", check.missingFields) else Next
  }

  /** The rejection lists exactly `validateRequiredFields`'s missing fields, in order. */
  lemma ValidateFieldsReportsMissing(body: map<string, JsValue>, required: seq<string>)
    ensures ValidateFields(body, required).Reject? ==>
      ValidateFields(body, required).fields == Missing(body, required) && Missing(body, required) != []
  {
  }

  // ---------------------------------------------------------------------------
  // Email
  // ---------------------------------------------------------------------------

  /** Characters of `[^\s@]`. */
  predicate Plain(s: string)
  {
    forall i :: 0 <= i < |s| ==> !IsWhitespace(s[i]) && s[i] != '@'
  }

  /** `/^[^\s@]+@[^\s@]+\.[^\s@]+$/.test(s)`: a non-empty plain part, `@`, a non-empty plain
      part, a dot, and a non-empty plain part (the middle part may itself contain dots). */
  predicate EmailPattern(s: string)
  {
    exists i, k :: 0 < i && i + 1 < k && k + 1 < |s| && s[i] == '@' && s[k] == '.'
                   && Plain(s[..i]) && Plain(s[i + 1..k]) && Plain(s[k + 1..])
  }

  /** `validateEmail`: only a truthy `email` is checked. The string form of a number, a boolean or
      an object has no `@`, so only a string can pass the check. */
  function ValidateEmail(body: map<string, JsValue>): (v: Verdict)
    ensures v.Next? <==> !Truthy(Get(body, "email")) || (Get(body, "email").Str? && EmailPattern(Get(body, "email").s))
    ensures v.Reject? ==> v == Reject(400, "Invalid email format", [])
  {
    var email := Get(body, "email");
    if Truthy(email) && !(email.Str? && EmailPattern(email.s)) then Reject(400, "Invalid email format", [])
    else Next
  }

  /** An accepted address has no white space and exactly one `@`, not at either end. */
  lemma EmailPatternShape(s: string)
    requires EmailPattern(s)
    ensures forall j :: 0 <= j < |s| ==> !IsWhitespace(s[j])
    ensures exists i :: 0 < i < |s| - 1 && s[i] == '@' && forall j :: 0 <= j < |s| && j != i ==> s[j] != '@'
  {
    var i, k :| 0 < i && i + 1 < k && k + 1 < |s| && s[i] == '@' && s[k] == '.'
                && Plain(s[..i]) && Plain(s[i + 1..k]) && Plain(s[k + 1..]);
    forall j | 0 <= j < |s| && j != i
      ensures !IsWhitespace(s[j]) && s[j] != '@'
    {
      if j < i {
        assert s[j] == s[..i][j];
      } else if j < k {
        assert s[j] == s[i + 1..k][j - i - 1];
      } else if j > k {
        assert s[j] == s[k + 1..][j - k - 1];
      }
    }
  }

  /** Every address of the form `local@domain.tld` with three non-empty plain parts is accepted. */
  lemma EmailPatternOfParts(local: string, domain: string, tld: string)
    requires |local| > 0 && |domain| > 0 && |tld| > 0 && Plain(local) && Plain(domain) && Plain(tld)
    ensures EmailPattern(local + "@" + domain + "." + tld)
  {
    var s := local + "@" + domain + "." + tld;
    var i := |local|;
    var k := |local| + 1 + |domain|;
    assert s[..i] == local;
    assert s[i + 1..k] == domain;
    assert s[k + 1..] == tld;
    assert s[i] == '@' && s[k] == '.';
  }

  // ---------------------------------------------------------------------------
  // Password
  // ---------------------------------------------------------------------------

  /** `validatePassword`: the value checked is `newPassword || password`; only a truthy value is
      checked, and only a string has a `length` below 6 (for other values `length` is undefined
      and the comparison is false). The `length` counts UTF-16 code units. */
  function ValidatePassword(body: map<string, JsValue>): (v: Verdict)
    ensures var p := Or(Get(body, "newPassword"), Get(body, "password"));
      v.Reject? <==> Truthy(p) && p.Str? && Utf16Length(p.s) < 6
    ensures v.Reject? ==> v == Reject(400, "Password must be at least 6 characters long", [])
  {
    var p := Or(Get(body, "newPassword"), Get(body, "password"));
    if Truthy(p) && p.Str? && Utf16Length(p.s) < 6 then Reject(400, "Password must be at least 6 characters long", [])
    else Next
  }

  /** A truthy `newPassword` is the one checked, whatever `password` holds; with neither set,
      the request passes. */
  lemma PasswordChecked(body: map<string, JsValue>)
    ensures Truthy(Get(body, "newPassword")) ==>
      (ValidatePassword(body).Reject? <==> Get(body, "newPassword").Str? && Utf16Length(Get(body, "newPassword").s) < 6)
    ensures !Truthy(Get(body, "newPassword")) && !Truthy(Get(body, "password")) ==> ValidatePassword(body) == Next
  {
  }

  /** Three characters outside the Basic Multilingual Plane are six code units, so they pass;
      three plain letters are refused. */
  lemma PasswordCountsCodeUnits()
    ensures ValidatePassword(map["password" := Str("\U{1F600}\U{1F600}\U{1F600}")]) == Next
    ensures ValidatePassword(map["password" := Str("abc")]).Reject?
  {
    var wide := "\U{1F600}\U{1F600}\U{1F600}";
    assert Utf16Length(wide) == 6 by {
      assert wide[1..][1..][1..] == [];
    }
  }

  // ---------------------------------------------------------------------------
  // GPS coordinates
  // ---------------------------------------------------------------------------

  /** `validateGPS`: runs when either coordinate is defined; rejects an unparseable coordinate
      first, then a latitude outside [-90, 90], then a longitude outside [-180, 180]. */
  function ValidateGps(body: map<string, JsValue>): (v: Verdict)
    ensures v.Next? <==>
      (Get(body, "gps_lat").Undefined? && Get(body, "gps_lng").Undefined?) ||
      (var lat := ParseFloatValue(Get(body, "gps_lat"));
       var lng := ParseFloatValue(Get(body, "gps_lng"));
       lat != NaN && lng != NaN && !NumLess(lat, -90.0) && !NumGreater(lat, 90.0)
       && !NumLess(lng, -180.0) && !NumGreater(lng, 180.0))
    ensures v.Reject? ==> v.status == 400 && v.fields == []
  {
    var rawLat := Get(body, "gps_lat");
    var rawLng := Get(body, "gps_lng");
    if rawLat.Undefined? && rawLng.Undefined? then Next
    else
      var lat := ParseFloatValue(rawLat);
      var lng := ParseFloatValue(rawLng);
      if lat == NaN || lng == NaN then Reject(400, "Invalid GPS coordinates format", [])
      else if NumLess(lat, -90.0) || NumGreater(lat, 90.0) then Reject(400, "Latitude must be between -90 and 90", [])
      else if NumLess(lng, -180.0) || NumGreater(lng, 180.0) then Reject(400, "Longitude must be between -180 and 180", [])
      else Next
  }

  /** Giving one coordinate without the other is rejected as a format error, since the other
      one parses to NaN; and each check wins over the later ones. */
  lemma GpsCheckOrder(body: map<string, JsValue>)
    ensures Get(body, "gps_lat").Undefined? != Get(body, "gps_lng").Undefined? ==>
      ValidateGps(body) == Reject(400, "Invalid GPS coordinates format", [])
    ensures ParseFloatValue(Get(body, "gps_lat")) == PosInf && ParseFloatValue(Get(body, "gps_lng")) == NaN ==>
      ValidateGps(body) == Reject(400, "Invalid GPS coordinates format", [])
    ensures var lat := ParseFloatValue(Get(body, "gps_lat"));
      var lng := ParseFloatValue(Get(body, "gps_lng"));
      lat != NaN && lng != NaN && NumGreater(lat, 90.0) ==>
        ValidateGps(body) == Reject(400, "Latitude must be between -90 and 90", [])
  {
  }

  // ---------------------------------------------------------------------------
  // Numeric fields
  // ---------------------------------------------------------------------------

  /** A field value `validateNumeric` rejects: defined and either NaN or negative. */
  predicate BadNumber(v: JsValue)
  {
    !v.Undefined? && (IsNaN(v) || Less(v, 0.0))
  }

  /** The fields of `fields`, in order, whose value is a bad number. */
  function InvalidFields(body: map<string, JsValue>, fields: seq<string>): (r: seq<string>)
    ensures |r| <= |fields|
    ensures forall f :: f in r <==> f in fields && BadNumber(Get(body, f))
  {
    if fields == [] then []
    else
      var rest := InvalidFields(body, fields[..|fields| - 1]);
      assert forall f :: f in fields <==> f in fields[..|fields| - 1] || f == fields[|fields| - 1] by {
        assert fields == fields[..|fields| - 1] + [fields[|fields| - 1]];
      }
      rest + (if BadNumber(Get(body, fields[|fields| - 1])) then [fields[|fields| - 1]] else [])
  }

  /** `validateNumeric(numericFields)`: the `forEach` collecting `invalidFields`, then the reply. */
  method ValidateNumeric(body: map<string, JsValue>, fields: seq<string>) returns (v: Verdict)
    ensures var bad := InvalidFields(body, fields);
      v == (if bad == [] then Next else Reject(400, "Invalid numeric values", bad))
  {
    var invalidFields: seq<string> := [];
    var i := 0;
    while i < |fields|
      invariant 0 <= i <= |fields|
      invariant invalidFields == InvalidFields(body, fields[..i])
    {
      assert fields[..i + 1][..i] == fields[..i];
      var value := Get(body, fields[i]);
      if !value.Undefined? && (IsNaN(value) || Less(value, 0.0)) {
        invalidFields := invalidFields + [fields[i]];
      }
      i := i + 1;
    }
    assert fields[..|fields|] == fields;
    if |invalidFields| > 0 {
      v := Reject(400, "Invalid numeric values", invalidFields);
    } else {
      v := Next;
    }
  }

  /** `null`, `""` and `false` convert to 0 and so pass; a string that is not a number is
      rejected; only an undefined field is skipped. */
  lemma NumericCoercion(s: string)
    ensures !BadNumber(Null) && !BadNumber(Bool(false)) && !BadNumber(Str(""))
    ensures !BadNumber(Undefined)
    ensures StringToNumber(s) == NaN ==> BadNumber(Str(s))
  {
  }
}
