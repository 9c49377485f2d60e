/**
 * The JavaScript values that reach the backend's request handlers, and the parts of the
 * language's conversion rules the handlers rely on: truthiness, `Number(...)`, `parseInt`,
 * `parseFloat`, `isNaN`, the relational operators against a number literal, and `String(...)`.
 *
 * Finite numbers are exact reals; rounding to IEEE-754 doubles is not modelled.
 */
module JsValues {
  import opened Wrappers

  /** A JavaScript number. */
  datatype Number = Finite(value: real) | PosInf | NegInf | NaN

  /** A JavaScript value as it arrives in a parsed JSON body, a query string or a database row.
      `Obj` stands for any object or array, whose properties and elements are not modelled. */
  datatype JsValue =
    | Undefined
    | Null
    | Bool(b: bool)
    | Num(n: Number)
    | Str(s: string)
    | Obj

  /** The JavaScript number holding the integer `i`. */
  function Int(i: int): JsValue
  {
    Num(Finite(i as real))
  }

  /** `!!v`: false, 0, NaN, "", null and undefined are falsy, everything else is truthy. */
  predicate Truthy(v: JsValue)
  {
    match v
    case Undefined => false
    case Null => false
    case Bool(b) => b
    case Num(n) => n != NaN && n != Finite(0.0)
    case Str(s) => s != ""
    case Obj => true
  }

  /** `a || b`: the first operand when it is truthy, otherwise the second. */
  function Or(a: JsValue, b: JsValue): (r: JsValue)
    ensures Truthy(a) ==> r == a
    ensures !Truthy(a) ==> r == b
  {
    if Truthy(a) then a else b
  }

  /** Property lookup `obj[key]` on an object given by its own properties. */
  function Get(obj: map<string, JsValue>, key: string): JsValue
  {
    if key in obj then obj[key] else Undefined
  }

  // ---------------------------------------------------------------------------
  // Characters
  // ---------------------------------------------------------------------------

  /** The characters JavaScript treats as white space: those matched by `\s` in a regular
      expression and trimmed by `Number(...)`, `parseInt` and `parseFloat`. */
  predicate IsWhitespace(c: char)
  {
    || c == '\t' || c == '\n' || c == '\U{B}' || c == '\U{C}' || c == '\r' || c == ' '
    || c == '\U{A0}' || c == '\U{1680}' || ('\U{2000}' <= c <= '\U{200A}')
    || c == '\U{2028}' || c == '\U{2029}' || c == '\U{202F}' || c == '\U{205F}'
    || c == '\U{3000}' || c == '\U{FEFF}'
  }

  /** The digit value of an ASCII letter or digit (0-9, then a/A = 10 up to z/Z = 35);
      36 for every other character. */
  function CharDigit(c: char): (d: nat)
    ensures d <= 36
  {
    if '0' <= c <= '9' then (c as int) - ('0' as int)
    else if 'a' <= c <= 'z' then (c as int) - ('a' as int) + 10
    else if 'A' <= c <= 'Z' then (c as int) - ('A' as int) + 10
    else 36
  }

  predicate IsDigitIn(c: char, radix: nat)
  {
    CharDigit(c) < radix
  }

  predicate AllDigitsIn(s: string, radix: nat)
  {
    forall i :: 0 <= i < |s| ==> IsDigitIn(s[i], radix)
  }

  /** The decimal digit character for `d`. */
  function DigitChar(d: nat): (c: char)
    requires d < 10
    ensures IsDigitIn(c, 10) && CharDigit(c) == d
  {
    ('0' as int + d) as char
  }

  // ---------------------------------------------------------------------------
  // Trimming and digit runs
  // ---------------------------------------------------------------------------

  /** `s` without its leading white space. */
  function TrimStart(s: string): (t: string)
    ensures |t| <= |s| && t == s[|s| - |t|..]
    ensures t != [] ==> !IsWhitespace(t[0])
    ensures forall i :: 0 <= i < |s| - |t| ==> IsWhitespace(s[i])
  {
    if s != [] && IsWhitespace(s[0]) then TrimStart(s[1..]) else s
  }

  /** `s` without its trailing white space. */
  function TrimEnd(s: string): (t: string)
    ensures |t| <= |s| && t == s[..|t|]
    ensures t != [] ==> !IsWhitespace(t[|t| - 1])
    ensures forall i :: |t| <= i < |s| ==> IsWhitespace(s[i])
  {
    if s != [] && IsWhitespace(s[|s| - 1]) then TrimEnd(s[..|s| - 1]) else s
  }

  /** `s.trim()`. */
  function Trim(s: string): string
  {
    TrimEnd(TrimStart(s))
  }

  /** The number of consecutive digits of the given radix in `s` from position `i` on. */
  function DigitRun(s: string, i: nat, radix: nat): (k: nat)
    requires i <= |s|
    ensures i + k <= |s|
    ensures forall j :: i <= j < i + k ==> IsDigitIn(s[j], radix)
    ensures i + k < |s| ==> !IsDigitIn(s[i + k], radix)
    decreases |s| - i
  {
    if i < |s| && IsDigitIn(s[i], radix) then 1 + DigitRun(s, i + 1, radix) else 0
  }

  /** The value of a string of digits in the given radix, most significant digit first. */
  function DigitsValue(s: string, radix: nat): nat
  {
    if s == [] then 0 else DigitsValue(s[..|s| - 1], radix) * radix + CharDigit(s[|s| - 1])
  }

  function Pow10(k: nat): (r: nat)
    ensures r >= 1
  {
    if k == 0 then 1 else 10 * Pow10(k - 1)
  }

  // ---------------------------------------------------------------------------
  // Decimal literals, Number(...), parseInt and parseFloat
  // ---------------------------------------------------------------------------

  /** An exponent part `e`/`E`, optional sign, digits at position `p` of `s`, as its length and signed value. */
  function ScanExponent(s: string, p: nat): (r: Option<(nat, int)>)
    requires p <= |s|
    ensures r.Some? ==> p + r.value.0 <= |s|
  {
    if p < |s| && (s[p] == 'e' || s[p] == 'E') then
      var signLen := if p + 1 < |s| && (s[p + 1] == '+' || s[p + 1] == '-') then 1 else 0;
      var k := DigitRun(s, p + 1 + signLen, 10);
      if k == 0 then None
      else
        var e: int := DigitsValue(s[p + 1 + signLen..p + 1 + signLen + k], 10);
        Some((1 + signLen + k, if signLen == 1 && s[p + 1] == '-' then -e else e))
    else None
  }

  /** The longest unsigned decimal literal (digits, an optional fraction, an optional exponent)
      that starts at position `i` of `s`, as its length and value; None when there is none. */
  function ScanUnsignedDecimal(s: string, i: nat): (r: Option<(nat, real)>)
    requires i <= |s|
    ensures r.Some? ==> 0 < r.value.0 && i + r.value.0 <= |s|
  {
    var k1 := DigitRun(s, i, 10);
    var hasDot := i + k1 < |s| && s[i + k1] == '.';
    var k2 := if hasDot then DigitRun(s, i + k1 + 1, 10) else 0;
    if k1 == 0 && k2 == 0 then None
    else
      var intPart := DigitsValue(s[i..i + k1], 10) as real;
      var fraction :=
        if hasDot then (DigitsValue(s[i + k1 + 1..i + k1 + 1 + k2], 10) as real) / (Pow10(k2) as real)
        else 0.0;
      var mantissaLen := if hasDot then k1 + 1 + k2 else k1;
      var mantissa := intPart + fraction;
      match ScanExponent(s, i + mantissaLen)
      case None => Some((mantissaLen, mantissa))
      case Some((len, e)) =>
        Some((mantissaLen + len,
              if e >= 0 then mantissa * (Pow10(e) as real) else mantissa / (Pow10(-e) as real)))
  }

  /** The radix of a `0x`, `0o` or `0b` prefix at the start of `t`, or 0 when there is none. */
  function RadixPrefix(t: string): nat
  {
    if |t| >= 2 && t[0] == '0' then
      if t[1] == 'x' || t[1] == 'X' then 16
      else if t[1] == 'o' || t[1] == 'O' then 8
      else if t[1] == 'b' || t[1] == 'B' then 2
      else 0
    else 0
  }

  /** `Number(s)`: the whole trimmed string must be a numeric literal; the empty string is 0. */
  function StringToNumber(s: string): Number
  {
    var t := Trim(s);
    if t == "" then Finite(0.0)
    else if RadixPrefix(t) != 0 then RadixLiteral(t, RadixPrefix(t))
    else SignedDecimal(t)
  }

  /** `0x`/`0o`/`0b` followed by nothing but digits of that radix. */
  function RadixLiteral(t: string, radix: nat): Number
  {
    if |t| > 2 && DigitRun(t, 2, radix) == |t| - 2 then Finite(DigitsValue(t[2..], radix) as real)
    else NaN
  }

  /** An optional sign, then `Infinity` or one decimal literal filling the rest of `t`. */
  function SignedDecimal(t: string): Number
    requires t != ""
  {
    var negative := t[0] == '-';
    var start := if t[0] == '-' || t[0] == '+' then 1 else 0;
    if t[start..] == "Infinity" then (if negative then NegInf else PosInf)
    else
      match ScanUnsignedDecimal(t, start)
      case Some((len, x)) => if start + len == |t| then Finite(if negative then -x else x) else NaN
      case None => NaN
  }

  /** `parseFloat(s)`: the longest decimal literal after leading white space and an optional sign. */
  function ParseFloat(s: string): Number
  {
    var t := TrimStart(s);
    var negative := |t| > 0 && t[0] == '-';
    var start := if |t| > 0 && (t[0] == '-' || t[0] == '+') then 1 else 0;
    if |t| >= start + 8 && t[start..start + 8] == "Infinity" then (if negative then NegInf else PosInf)
    else
      match ScanUnsignedDecimal(t, start)
      case Some((_, x)) => Finite(if negative then -x else x)
      case None => NaN
  }

  /** `parseInt(s)` without a radix argument: leading white space, an optional sign, an optional
      `0x`/`0X` prefix selecting base 16, then the longest run of digits; NaN when there is none. */
  function ParseInt(s: string): (r: Number)
    ensures r == NaN || (r.Finite? && r.value == r.value.Floor as real)
  {
    var t := TrimStart(s);
    var negative := |t| > 0 && t[0] == '-';
    var start := if |t| > 0 && (t[0] == '-' || t[0] == '+') then 1 else 0;
    var hex := start + 2 <= |t| && t[start] == '0' && (t[start + 1] == 'x' || t[start + 1] == 'X');
    var radix := if hex then 16 else 10;
    var from := if hex then start + 2 else start;
    var k := DigitRun(t, from, radix);
    if k == 0 then NaN
    else
      var n: int := DigitsValue(t[from..from + k], radix);
      var i := if negative then -n else n;
      assert (i as real).Floor == i;
      Finite(i as real)
  }

  /** `parseInt(q)` for a query-string parameter, which is a string or absent (`undefined`,
      whose string form "undefined" has no digits). */
  function ParseIntParam(q: Option<string>): Number
  {
    match q
    case None => NaN
    case Some(s) => ParseInt(s)
  }

  /** `Number(v)`, the conversion behind arithmetic, `isNaN` and comparisons with a number. */
  function ToNumber(v: JsValue): Number
  {
    match v
    case Undefined => NaN
    case Null => Finite(0.0)
    case Bool(b) => Finite(if b then 1.0 else 0.0)
    case Num(n) => n
    case Str(s) => StringToNumber(s)
    case Obj => NaN   // a plain object prints as "[object Object]"; arrays are not modelled
  }

  /** `parseFloat(v)`, which first converts `v` to a string. A number's string form parses back
      to the same number; "undefined", "null", "true", "false" and "[object Object]" do not parse. */
  function ParseFloatValue(v: JsValue): Number
  {
    match v
    case Num(n) => n
    case Str(s) => ParseFloat(s)
    case _ => NaN
  }

  /** The integer a value converts to, when it converts to a whole finite number. */
  function IntegerOf(v: JsValue): (r: Option<int>)
    ensures r.Some? <==> ToNumber(v).Finite? && ToNumber(v).value == ToNumber(v).value.Floor as real
    ensures r.Some? ==> ToNumber(v) == Finite(r.value as real)
  {
    match ToNumber(v)
    case Finite(x) => if x == x.Floor as real then Some(x.Floor) else None
    case _ => None
  }

  /** The global `isNaN(v)`. */
  predicate IsNaN(v: JsValue)
  {
    ToNumber(v) == NaN
  }

  /** `n < k` for a number literal `k`; false when `n` is NaN. */
  predicate NumLess(n: Number, k: real)
  {
    match n
    case Finite(x) => x < k
    case NegInf => true
    case _ => false
  }

  /** `n > k` for a number literal `k`; false when `n` is NaN. */
  predicate NumGreater(n: Number, k: real)
  {
    match n
    case Finite(x) => x > k
    case PosInf => true
    case _ => false
  }

  /** `v < k` for a number literal `k`. */
  predicate Less(v: JsValue, k: real)
  {
    NumLess(ToNumber(v), k)
  }

  /** `v > k` for a number literal `k`. */
  predicate Greater(v: JsValue, k: real)
  {
    NumGreater(ToNumber(v), k)
  }

  /** `v <= k` for a number literal `k`; false when `v` converts to NaN. */
  predicate LessEq(v: JsValue, k: real)
  {
    ToNumber(v) != NaN && !NumGreater(ToNumber(v), k)
  }

  // ---------------------------------------------------------------------------
  // String conversion
  // ---------------------------------------------------------------------------

  /** The decimal digits of `n`, without leading zeros. */
  function NatToString(n: nat): (s: string)
    ensures |s| >= 1 && AllDigitsIn(s, 10)
    ensures DigitsValue(s, 10) == n
    ensures s[0] == '0' ==> n == 0 && |s| == 1
  {
    if n < 10 then [DigitChar(n)]
    else
      var prefix := NatToString(n / 10);
      var s := prefix + [DigitChar(n % 10)];
      assert s[..|s| - 1] == prefix;
      s
  }

  /** `String(i)` for an integer number. */
  function IntToString(i: int): string
  {
    if i < 0 then "-" + NatToString(-i) else NatToString(i)
  }

  /** A string's `length`: JavaScript counts UTF-16 code units, so a character above U+FFFF
      (written as a surrogate pair) counts twice. */
  function Utf16Length(s: string): (n: nat)
    ensures |s| <= n <= 2 * |s|
    ensures n == |s| <==> forall i :: 0 <= i < |s| ==> s[i] as int <= 0xFFFF
  {
    if s == [] then 0
    else
      var rest := Utf16Length(s[1..]);
      assert forall i :: 1 <= i < |s| ==> s[i] == s[1..][i - 1];
      (if s[0] as int > 0xFFFF then 2 else 1) + rest
  }

  /** The length of a concatenation is the sum of the lengths. */
  lemma {:induction false} Utf16LengthAppend(a: string, b: string)
    ensures Utf16Length(a + b) == Utf16Length(a) + Utf16Length(b)
  {
    if a != [] {
      assert (a + b)[1..] == a[1..] + b;
      Utf16LengthAppend(a[1..], b);
    } else {
      assert a + b == b;
    }
  }

  /** `String(n)`. Integers below 10^21 in magnitude print as plain decimals; every other finite
      number is printed by `fraction`, which stands for the engine's shortest round-trip formatting. */
  function NumberToString(n: Number, fraction: real -> string): string
  {
    match n
    case Finite(x) =>
      if x.Floor as real == x && -1000000000000000000000.0 < x < 1000000000000000000000.0
      then IntToString(x.Floor) else fraction(x)
    case PosInf => "Infinity"
    case NegInf => "-Infinity"
    case NaN => "NaN"
  }

  /** `String(v)`, as a template literal `${v}` renders it. */
  function StringOf(v: JsValue, fraction: real -> string): string
  {
    match v
    case Undefined => "undefined"
    case Null => "null"
    case Bool(b) => if b then "true" else "false"
    case Num(n) => NumberToString(n, fraction)
    case Str(s) => s
    case Obj => "[object Object]"
  }

  // ---------------------------------------------------------------------------
  // Round trips between printing and parsing integers
  // ---------------------------------------------------------------------------

  lemma DigitRunAll(s: string, i: nat, radix: nat)
    requires i <= |s| && forall j :: i <= j < |s| ==> IsDigitIn(s[j], radix)
    ensures DigitRun(s, i, radix) == |s| - i
    decreases |s| - i
  {
    if i < |s| {
      DigitRunAll(s, i + 1, radix);
    }
  }

  lemma TrimStartOfNonSpace(s: string)
    requires s != [] && !IsWhitespace(s[0])
    ensures TrimStart(s) == s
  {
  }

  lemma TrimEndOfNonSpace(s: string)
    requires s != [] && !IsWhitespace(s[|s| - 1])
    ensures TrimEnd(s) == s
  {
  }

  /** `parseInt(String(i))` gives back `i` for every integer. */
  lemma {:induction false} ParseIntOfIntToString(i: int)
    ensures ParseInt(IntToString(i)) == Finite(i as real)
  {
    var s := IntToString(i);
    var digits := NatToString(if i < 0 then -i else i);
    var start := if i < 0 then 1 else 0;
    assert s[start..] == digits;
    TrimStartOfNonSpace(s);
    DigitRunAll(s, start, 10);
    assert s[start..start + |digits|] == digits;
    assert s[start] == digits[0];
  }

  /** A string of decimal digits from `start` to its end scans as one unsigned decimal literal. */
  lemma ScanAllDigits(t: string, start: nat)
    requires start < |t| && forall j :: start <= j < |t| ==> IsDigitIn(t[j], 10)
    ensures ScanUnsignedDecimal(t, start) == Some((|t| - start, DigitsValue(t[start..], 10) as real))
  {
    DigitRunAll(t, start, 10);
    assert t[start..start + (|t| - start)] == t[start..];
    assert ScanExponent(t, |t|) == None;
  }

  /** `Number(String(i))` gives back `i` for every integer. */
  lemma {:induction false} StringToNumberOfIntToString(i: int)
    ensures StringToNumber(IntToString(i)) == Finite(i as real)
  {
    var s := IntToString(i);
    var n := if i < 0 then -i else i;
    var digits := NatToString(n);
    var start := if i < 0 then 1 else 0;
    assert s[start..] == digits;
    assert s[start] == digits[0];
    TrimStartOfNonSpace(s);
    TrimEndOfNonSpace(s);
    assert Trim(s) == s;
    assert RadixPrefix(s) == 0;
    assert s[start..] != "Infinity" by {
      assert IsDigitIn(digits[0], 10);
    }
    ScanAllDigits(s, start);
    DecimalLiteral(s, start, n as real);
  }

  /** A sign followed by one decimal literal. */
  lemma DecimalLiteral(t: string, start: nat, x: real)
    requires t != []
    requires start == (if t[0] == '-' || t[0] == '+' then 1 else 0) && start <= |t|
    requires t[start..] != "Infinity" && ScanUnsignedDecimal(t, start) == Some((|t| - start, x))
    ensures SignedDecimal(t) == Finite(if t[0] == '-' then -x else x)
  {
  }
}
