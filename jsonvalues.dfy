/**
 * A decoded JSON value as the server's Python code sees it, with the handful
 * of Python built-ins it applies to such values: truthiness, `len`,
 * `isinstance(v, int)`, `isinstance(v, (int, float))` and `str(v)`.
 */
module JsonValues {
  import opened Wrappers
  import opened PyText

  datatype Json =
    | JNull
    | JBool(b: bool)
    | JInt(i: int)
    | JFloat(f: real)
    | JStr(s: string)
    | JArray(items: seq<Json>)
    | JObject(fields: map<string, Json>)

  /** Python truthiness: `None`, `False`, zero and empty containers are false. */
  predicate Truthy(v: Json) {
    match v
    case JNull => false
    case JBool(b) => b
    case JInt(i) => i != 0
    case JFloat(f) => f != 0.0
    case JStr(s) => s != ""
    case JArray(items) => items != []
    case JObject(fields) => fields != map[]
  }

  /** `len(v)`; `None` where Python raises a TypeError (numbers, booleans, null). */
  function PyLen(v: Json): (n: Option<nat>)
    ensures n.Some? <==> v.JStr? || v.JArray? || v.JObject?
    ensures v.JStr? ==> n == Some(|v.s|)
    ensures v.JArray? ==> n == Some(|v.items|)
    ensures v.JObject? ==> n == Some(|v.fields|)
    ensures n.Some? ==> (n.value == 0 <==> !Truthy(v))
  {
    match v
    case JStr(s) => Some(|s|)
    case JArray(items) => Some(|items|)
    case JObject(fields) =>
      assert fields != map[] ==> exists k :: k in fields;
      Some(|fields|)
    case _ => None
  }

  /**
   * The integer `v` stands for when `isinstance(v, int)` holds. Python's
   * `bool` is a subclass of `int`, so `true` and `false` count as 1 and 0.
   */
  function IntValue(v: Json): (r: Option<int>)
    ensures r.Some? <==> v.JInt? || v.JBool?
    ensures v.JInt? ==> r == Some(v.i)
    ensures v == JBool(true) ==> r == Some(1)
    ensures v == JBool(false) ==> r == Some(0)
  {
    match v
    case JInt(i) => Some(i)
    case JBool(b) => Some(if b then 1 else 0)
    case _ => None
  }

  /** `isinstance(v, float) or isinstance(v, int)`. */
  predicate IsNumber(v: Json) {
    v.JInt? || v.JBool? || v.JFloat?
  }

  /** `str(v)` as an f-string renders it; floats and containers are not rendered. */
  function PyStr(v: Json): string {
    match v
    case JNull => "None"
    case JBool(b) => if b then "True" else "False"
    case JInt(i) => IntToDecimal(i)
    case JStr(s) => s
    case _ => "<value>"
  }
}
