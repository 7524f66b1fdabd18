/**
 * The values an endpoint function receives as keyword arguments and stores in
 * its `params` dictionary, with Python's truthiness, and the request an
 * endpoint hands to the client's `_post`.
 */
module Params {

  /** A Python value of the kinds the endpoints pass through: None, bool, int, float, str. */
  datatype Value = NoneV | BoolV(b: bool) | IntV(i: int) | RealV(r: real) | StrV(s: string)

  /** Python truthiness: None, False, 0, 0.0 and "" are false, everything else is true. */
  predicate Truthy(v: Value) {
    match v
    case NoneV => false
    case BoolV(b) => b
    case IntV(i) => i != 0
    case RealV(r) => r != 0.0
    case StrV(s) => s != ""
  }

  /** `v in names` for a list of strings: only a str can equal one of them. */
  predicate IsOneOf(v: Value, names: seq<string>) {
    v.StrV? && v.s in names
  }

  /** The path an endpoint posts to and the parameters it posts with. */
  datatype Request = Request(path: string, params: map<string, Value>)
}
