/** Values produced by `JSON.parse`, and the JavaScript rules the client applies to them. */
module Json {
  import opened Wrappers

  /** A parsed JSON value. Numbers are integers here: floating point is not part of this model. */
  datatype Json =
    | JNull
    | JBool(b: bool)
    | JNum(n: int)
    | JStr(s: string)
    | JArr(items: seq<Json>)
    | JObj(fields: map<string, Json>)

  /** A JavaScript value read out of parsed JSON: `None` is `undefined`. */
  type JsValue = Option<Json>

  /** JavaScript truthiness. */
  predicate Truthy(v: JsValue) {
    match v
    case None => false
    case Some(j) =>
      match j
      case JNull => false
      case JBool(b) => b
      case JNum(n) => n != 0
      case JStr(s) => s != ""
      case _ => true
  }

  /** `null` or `undefined`: reading a property of these throws. */
  predicate Nullish(v: JsValue) {
    v.None? || v.value.JNull?
  }

  /** `v?.key`: the property when `v` is an object that has it, `undefined` otherwise. */
  function Prop(v: JsValue, key: string): (r: JsValue)
    ensures r.Some? ==> v.Some? && v.value.JObj? && key in v.value.fields
  {
    if v.Some? && v.value.JObj? && key in v.value.fields then Some(v.value.fields[key]) else None
  }

  /** `v[0]` on a value that is not nullish. */
  function First(v: JsValue): JsValue
    requires !Nullish(v)
  {
    match v.value
    case JArr(items) => if items != [] then Some(items[0]) else None
    case JStr(s) => if s != "" then Some(JStr(s[..1])) else None
    case JObj(fields) => if "0" in fields then Some(fields["0"]) else None
    case _ => None
  }
}
