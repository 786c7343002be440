/** The JavaScript values the handlers inspect, and JavaScript truthiness. */
module JsValues {

  /** A JavaScript value as far as the request handlers look at it.
      Numbers are reals; NaN is not modelled. `Object` stands for any
      non-null object (arrays included), which is always truthy. */
  datatype JsValue =
    | Undefined
    | Null
    | Bool(b: bool)
    | Num(n: real)
    | Str(s: string)
    | Date(millis: int)
    | Object(ref: nat)

  /** JavaScript's ToBoolean, which `!x` and `x && y` apply. */
  predicate Truthy(v: JsValue)
  {
    match v
    case Undefined => false
    case Null => false
    case Bool(b) => b
    case Num(n) => n != 0.0
    case Str(s) => s != ""
    case Date(_) => true
    case Object(_) => true
  }

  /** A plain object (a parsed JSON request body, a payment row): its own
      properties by name. */
  type Row = map<string, JsValue>

  /** Property read `row.key`: a missing property reads as `undefined`. */
  function Get(row: Row, key: string): JsValue
  {
    if key in row then row[key] else Undefined
  }

  /** `!!row.key` */
  predicate Present(row: Row, key: string)
  {
    Truthy(Get(row, key))
  }
}
