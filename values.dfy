/**
 * Python values as the client sees them after `Response.json()`, the exceptions the
 * client raises or lets through, and the few Python operations the modelled code applies
 * to those values: truthiness, `d[k]`, `k in d`, `xs[i]`, `float(v)`, `str.startswith`
 * and `str.strip`.
 */
module Values {
  import opened Wrappers

  /** A decoded JSON document. Numbers are kept as reals (IEEE rounding is not modelled). */
  datatype Json =
    | JNull
    | JBool(b: bool)
    | JNum(n: real)
    | JStr(s: string)
    | JList(items: seq<Json>)
    | JObj(fields: map<string, Json>)

  /** The string "--" the portal uses for a missing measurement. */
  const Dashes: Json := JStr("--")

  datatype Error =
    /** FusionSolarException(msg) from src/fusion_solar_py/exceptions.py */
    | FusionSolarError(msg: string)
    /** AuthenticationException(msg), the FusionSolarException subclass for login failures */
    | AuthenticationError(msg: string)
    /** requests.exceptions.HTTPError raised by raise_for_status() */
    | HttpError(status: int)
    /** json.JSONDecodeError raised by Response.json() on a body that is not JSON */
    | JsonDecodeError
    /** requests.exceptions.ConnectionError: the server gave no response at all */
    | ConnectionError
    /** KeyError(key) from subscripting a dict with a key it lacks */
    | KeyError(key: Json)
    /** TypeError: subscripting, iterating, converting or hashing a value of the wrong type */
    | TypeError
    /** IndexError: a list or string index out of range */
    | IndexError
    /** ValueError(msg), raised by float() on a malformed string and by active_power_control */
    | ValueError(msg: string)

  /** The exceptions the `logged_in` decorator answers with a re-login and a retry. */
  predicate Retryable(e: Error) {
    e.JsonDecodeError? || e.HttpError?
  }

  /** Python's bool(v). */
  predicate Truthy(v: Json) {
    match v
    case JNull => false
    case JBool(b) => b
    case JNum(n) => n != 0.0
    case JStr(s) => s != ""
    case JList(items) => items != []
    case JObj(fields) => fields != map[]
  }

  /** Python's str.startswith. */
  predicate StartsWith(s: string, prefix: string) {
    |prefix| <= |s| && s[..|prefix|] == prefix
  }

  /** The characters Python's str.isspace() accepts, which str.strip() removes. */
  predicate IsSpace(c: char) {
    || c == ' ' || ('\t' <= c <= '\r') || ('\U{1c}' <= c <= '\U{1f}')
    || c == '\U{85}' || c == '\U{a0}' || c == '\U{1680}' || ('\U{2000}' <= c <= '\U{200a}')
    || c == '\U{2028}' || c == '\U{2029}' || c == '\U{202f}' || c == '\U{205f}' || c == '\U{3000}'
  }

  /** str.lstrip(): drops the leading whitespace. */
  function LStrip(s: string): (r: string)
    ensures |r| <= |s| && r == s[|s| - |r|..]
    ensures r == [] || !IsSpace(r[0])
    ensures forall i :: 0 <= i < |s| - |r| ==> IsSpace(s[i])
  {
    if s != [] && IsSpace(s[0]) then LStrip(s[1..]) else s
  }

  /** str.rstrip(): drops the trailing whitespace. */
  function RStrip(s: string): (r: string)
    ensures |r| <= |s| && r == s[..|r|]
    ensures r == [] || !IsSpace(r[|r| - 1])
    ensures forall i :: |r| <= i < |s| ==> IsSpace(s[i])
  {
    if s != [] && IsSpace(s[|s| - 1]) then RStrip(s[..|s| - 1]) else s
  }

  /** str.strip(). */
  function Strip(s: string): string {
    RStrip(LStrip(s))
  }

  /** `v[key]` for a string key. */
  function Lookup(v: Json, key: string): (r: Result<Json, Error>)
    ensures r.Ok? <==> v.JObj? && key in v.fields
    ensures r.Ok? ==> r.value == v.fields[key]
    ensures v.JObj? && key !in v.fields ==> r == Err(KeyError(JStr(key)))
  {
    match v
    case JObj(fields) => if key in fields then Ok(fields[key]) else Err(KeyError(JStr(key)))
    case _ => Err(TypeError)
  }

  /** `needle in haystack` for a string needle. */
  function Contains(haystack: Json, needle: string): Result<bool, Error> {
    match haystack
    case JObj(fields) => Ok(needle in fields)
    case JList(items) => Ok(JStr(needle) in items)
    case JStr(s) => Ok(IsSubstring(needle, s))
    case _ => Err(TypeError)
  }

  /** Python's `needle in s` for strings: some suffix of s starts with needle. */
  predicate IsSubstring(needle: string, s: string) {
    StartsWith(s, needle) || (s != [] && IsSubstring(needle, s[1..]))
  }

  /** `v[i]` for a non-negative integer index. */
  function At(v: Json, i: nat): (r: Result<Json, Error>)
    ensures v.JList? ==> (r.Ok? <==> i < |v.items|)
    ensures v.JList? && i < |v.items| ==> r == Ok(v.items[i])
  {
    match v
    case JList(items) => if i < |items| then Ok(items[i]) else Err(IndexError)
    case JStr(s) => if i < |s| then Ok(JStr([s[i]])) else Err(IndexError)
    case JObj(_) => Err(KeyError(JNum(i as real)))
    case _ => Err(TypeError)
  }

  /**
   * Python's float(v). Parsing a string is the parameter `parse`, a partial function the
   * model leaves opaque (None is the ValueError float() raises).
   */
  function ToFloat(v: Json, parse: string -> Option<real>): (r: Result<real, Error>)
    ensures v.JNum? ==> r == Ok(v.n)
    ensures v.JNull? || v.JList? || v.JObj? ==> r == Err(TypeError)
    ensures v.JBool? ==> r == Ok(if v.b then 1.0 else 0.0)
    ensures v.JStr? ==> (r.Ok? <==> parse(v.s).Some?)
    ensures v.JStr? && r.Ok? ==> r.value == parse(v.s).value
    ensures v.JStr? && r.Err? ==> r.error.ValueError?
  {
    match v
    case JNum(n) => Ok(n)
    case JBool(b) => Ok(if b then 1.0 else 0.0)
    case JStr(s) =>
      (match parse(s)
       case Some(x) => Ok(x)
       case None => Err(ValueError("could not convert string to float")))
    case _ => Err(TypeError)
  }

  /**
   * The items a `for` loop visits when every item is then subscripted with a string key.
   * A list yields its items; a dict or a string yields strings, and subscripting a string
   * with a string raises TypeError, so a non-empty dict or string fails and an empty one
   * yields nothing; any other value is not iterable.
   */
  function Records(v: Json): (r: Result<seq<Json>, Error>)
    ensures v.JList? ==> r == Ok(v.items)
    ensures r.Ok? ==> v.JList? || r.value == []
  {
    match v
    case JList(items) => Ok(items)
    case JObj(fields) => if fields == map[] then Ok([]) else Err(TypeError)
    case JStr(s) => if s == "" then Ok([]) else Err(TypeError)
    case _ => Err(TypeError)
  }

  /** Values a dict accepts as keys (lists and dicts are unhashable). */
  predicate Hashable(v: Json) {
    !v.JList? && !v.JObj?
  }
}
