/**
 * JsValues: the JavaScript values the user interface code handles, as far as
 * the form helpers, the button decisions and the error toast tell them apart.
 * Numbers are whole; objects are trees of own properties.
 */
module JsValues {
  import opened Decimal

  /** A JavaScript value other than `undefined`. */
  datatype Json =
    | JStr(s: string)
    | JNum(n: int)
    | JBool(b: bool)
    | JNull
    | JObj(fields: map<string, Json>)

  /** JavaScript truthiness. */
  predicate Truthy(v: Json) {
    match v
    case JStr(s) => s != ""
    case JNum(n) => n != 0
    case JBool(b) => b
    case JNull => false
    case JObj(_) => true
  }

  /** `String(v)`: a plain object gives Object.prototype.toString's text. */
  function ToJsString(v: Json): string {
    match v
    case JStr(s) => s
    case JNum(n) => IntToString(n)
    case JBool(b) => if b then "true" else "false"
    case JNull => "null"
    case JObj(_) => "[object Object]"
  }
}
