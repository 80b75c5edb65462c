/** Decoded JSON values and the Python built-in conversions the client applies to them. */
module Json {
  import opened Wrappers
  import opened Text

  /** A decoded JSON document. Integers and non-integral numbers stay apart, as Python decodes them. */
  datatype JsonValue =
    | JNull
    | JBool(b: bool)
    | JInt(i: int)
    | JFloat(f: real)
    | JString(s: string)
    | JArray(items: seq<JsonValue>)
    | JObject(fields: map<string, JsonValue>)

  /** A JSON object, the `dict[str, Any]` every client request returns. */
  type Object = map<string, JsonValue>

  /** Python's `d.get(key, default)`: the stored value when the key is present, even a null. */
  function Get(o: Object, key: string, default: JsonValue): JsonValue {
    if key in o then o[key] else default
  }

  /** The exception class raised by a failing `int(...)` or `float(...)`. */
  datatype ConversionError = TypeError | ValueError

  /**
   * Python's parsing of strings by `int(...)` and `float(...)`, and its `str(...)`
   * formatting of non-integral numbers, lists and dicts. These are taken as given:
   * the model states nothing about them beyond what a caller passes in.
   */
  datatype Parsers = Parsers(
    intOfString: string -> Option<int>,
    floatOfString: string -> Option<real>,
    repr: JsonValue -> string)

  /** Python's `int(x)` on a number: truncation toward zero. */
  function TruncateTowardZero(x: real): (n: int)
    ensures 0.0 <= x ==> n as real <= x < n as real + 1.0
    ensures x < 0.0 ==> n as real - 1.0 < x <= n as real
  {
    if x >= 0.0 then x.Floor else -((-x).Floor)
  }

  /** Python's `int(v)` on a decoded JSON value. */
  function PyInt(p: Parsers, v: JsonValue): (r: Result<int, ConversionError>)
    ensures r == Failure(TypeError) <==> v.JNull? || v.JArray? || v.JObject?
    ensures r == Failure(ValueError) <==> v.JString? && p.intOfString(v.s).None?
    ensures v.JInt? ==> r == Success(v.i)
    ensures v.JBool? ==> r == Success(if v.b then 1 else 0)
    ensures v.JFloat? ==> r == Success(TruncateTowardZero(v.f))
    ensures v.JString? && p.intOfString(v.s).Some? ==> r == Success(p.intOfString(v.s).value)
  {
    match v
    case JBool(b) => Success(if b then 1 else 0)
    case JInt(i) => Success(i)
    case JFloat(f) => Success(TruncateTowardZero(f))
    case JString(s) =>
      (match p.intOfString(s)
       case Some(n) => Success(n)
       case None => Failure(ValueError))
    case _ => Failure(TypeError)
  }

  /** Python's `float(v)` on a decoded JSON value (numbers taken as exact reals). */
  function PyFloat(p: Parsers, v: JsonValue): (r: Result<real, ConversionError>)
    ensures r.Failure? <==> v.JNull? || v.JArray? || v.JObject? || (v.JString? && p.floatOfString(v.s).None?)
    ensures r == Failure(TypeError) <==> v.JNull? || v.JArray? || v.JObject?
    ensures v.JInt? ==> r == Success(v.i as real)
    ensures v.JFloat? ==> r == Success(v.f)
    ensures v.JBool? ==> r == Success(if v.b then 1.0 else 0.0)
    ensures v.JString? && p.floatOfString(v.s).Some? ==> r == Success(p.floatOfString(v.s).value)
  {
    match v
    case JBool(b) => Success(if b then 1.0 else 0.0)
    case JInt(i) => Success(i as real)
    case JFloat(f) => Success(f)
    case JString(s) =>
      (match p.floatOfString(s)
       case Some(x) => Success(x)
       case None => Failure(ValueError))
    case _ => Failure(TypeError)
  }

  /** Python's `str(v)` on a decoded JSON value. */
  function PyStr(p: Parsers, v: JsonValue): (s: string)
    ensures v.JString? ==> s == v.s
    ensures v.JInt? ==> s == IntToString(v.i)
  {
    match v
    case JString(t) => t
    case JNull => "None"
    case JBool(b) => if b then "True" else "False"
    case JInt(i) => IntToString(i)
    case _ => p.repr(v)
  }
}
