/**
 * JSON values as the payment code sees them: webhook bodies, gateway
 * responses, the `metadata` and `flutterwave_response` JSON columns.
 * Python's truthiness, `key in value` and `value[key]` are written out
 * here, with `None` standing for the KeyError or TypeError Python raises.
 */
module Json {
  import opened Wrappers

  /** `JNaN` and `JInfinity` are the `NaN`, `Infinity` and `-Infinity`
      tokens Python's `json` module reads and writes for non-finite floats;
      every other number is finite and exact. */
  datatype Json =
    | JNull
    | JBool(b: bool)
    | JNum(n: real)
    | JNaN
    | JInfinity(negative: bool)
    | JStr(s: string)
    | JArr(items: seq<Json>)
    | JObj(fields: map<string, Json>)

  /** Python's `bool(value)` for a decoded JSON value. */
  predicate Truthy(j: Json)
  {
    match j
    case JNull => false
    case JBool(b) => b
    case JNum(n) => n != 0.0
    case JNaN => true
    case JInfinity(_) => true
    case JStr(s) => s != ""
    case JArr(a) => a != []
    case JObj(m) => m != map[]
  }

  /** None, a boolean or a number: the values `in` raises TypeError on. */
  predicate IsScalar(j: Json)
  {
    j.JNull? || j.JBool? || j.JNum? || j.JNaN? || j.JInfinity?
  }

  /** True when `sub` occurs contiguously in `s` (Python's `sub in s` on strings). */
  predicate IsSubstring(sub: string, s: string)
    ensures |sub| == 1 ==> (IsSubstring(sub, s) <==> sub[0] in s)
    decreases |s|
  {
    sub <= s || (|s| > 0 && IsSubstring(sub, s[1..]))
  }

  /** `key in container`: a key test on a dict, a substring test on a str,
      an element test on a list; any other value raises TypeError (None). */
  function Contains(container: Json, key: string): (r: Option<bool>)
    ensures container.JObj? ==> r == Some(key in container.fields)
    ensures r.None? <==> IsScalar(container)
  {
    match container
    case JObj(m) => Some(key in m)
    case JStr(s) => Some(IsSubstring(key, s))
    case JArr(a) => Some(JStr(key) in a)
    case _ => None
  }

  /** `container[key]`: None when the key is missing (KeyError) or the value
      is not a dict (TypeError). */
  function Index(container: Json, key: string): (r: Option<Json>)
    ensures r.Some? <==> container.JObj? && key in container.fields
    ensures r.Some? ==> r.value == container.fields[key]
  {
    if container.JObj? && key in container.fields then Some(container.fields[key]) else None
  }

  /** `d.get(key, default)` on a dict. */
  function GetOr(m: map<string, Json>, key: string, default: Json): (r: Json)
    ensures key in m ==> r == m[key]
    ensures key !in m ==> r == default
  {
    if key in m then m[key] else default
  }
}
