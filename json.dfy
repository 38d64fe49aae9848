/**
 * A decoded JSON document as Python holds it after `resp.json()`, with the
 * Python operations the response parser applies to it: truthiness, the
 * `(x or {}).get(key)` lookup idiom and `float(x)`.
 */
module Json {
  import opened Optional

  datatype Json =
    | JNull
    | JBool(b: bool)
    | JNum(n: real)
    | JStr(s: string)
    | JArr(items: seq<Json>)
    | JObj(fields: map<string, Json>)

  /** Python truthiness of the decoded value (`None`, `False`, `0`, `""`, `[]`, `{}` are false). */
  predicate Truthy(j: Json)
  {
    match j
    case JNull => false
    case JBool(b) => b
    case JNum(n) => n != 0.0
    case JStr(s) => s != ""
    case JArr(items) => items != []
    case JObj(fields) => fields != map[]
  }

  /**
   * `(j or {}).get(key)`. A falsy value reads as an empty dict, a missing key
   * as `None`; `None` here means the lookup raised AttributeError, which
   * happens exactly when `j` is truthy and not an object.
   */
  function Get(j: Json, key: string): (r: Option<Json>)
    ensures r.None? <==> Truthy(j) && !j.JObj?
    ensures j.JObj? && key in j.fields ==> r == Some(j.fields[key])
    ensures j.JObj? && key !in j.fields ==> r == Some(JNull)
    ensures !Truthy(j) ==> r == Some(JNull)
  {
    if !Truthy(j) then Some(JNull)
    else match j
      case JObj(fields) => Some(if key in fields then fields[key] else JNull)
      case _ => None
  }

  /** A chain of `Get` lookups, one key after the other; `None` if one of them raises. */
  function Lookup(j: Json, path: seq<string>): Option<Json>
    decreases |path|
  {
    if path == [] then Some(j)
    else match Get(j, path[0])
      case None => None
      case Some(v) => Lookup(v, path[1..])
  }

  /**
   * Python's `float(j)`: a number is taken as it is, a boolean as 1 or 0, a
   * string goes through Python's decimal-literal parser (`parseText`, outside
   * this model); `None`, a list or a dict raise TypeError, shown as `None`.
   */
  function ToFloat(j: Json, parseText: string -> Option<real>): Option<real>
  {
    match j
    case JNum(n) => Some(n)
    case JBool(b) => Some(if b then 1.0 else 0.0)
    case JStr(s) => parseText(s)
    case _ => None
  }
}
