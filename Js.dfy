/** The part of JavaScript's value domain the integration reads and writes:
    parsed JSON, GraphQL fields, `undefined`, and the two conversions the source
    relies on implicitly (truthiness and `String(v)`). */
module Js {

  datatype Option<+T> = None | Some(value: T) {
    /** `x ?? d`, or `x || d` when the value cannot be falsy. */
    function GetOr(default: T): T {
      match this
      case Some(v) => v
      case None => default
    }
  }

  /** A computation that either returns a value or throws an error message. */
  datatype Result<+T> = Ok(value: T) | Err(error: string)

  const TypeError := "TypeError"

  /** A JavaScript value. Numbers are kept as the text `String(n)` gives them,
      which is all the source ever does with them. Objects are keyed by their
      own enumerable property names. */
  datatype JsValue =
    | Undefined
    | Null
    | Bool(b: bool)
    | Num(repr: string)
    | Str(s: string)
    | Arr(elems: seq<JsValue>)
    | Obj(fields: map<string, JsValue>)

  predicate IsNullish(v: JsValue) {
    v.Undefined? || v.Null?
  }

  /** ECMAScript ToBoolean. `-0` prints as "0", so a number is falsy exactly
      when it prints as "0" or "NaN". */
  predicate Truthy(v: JsValue) {
    match v
    case Undefined => false
    case Null => false
    case Bool(b) => b
    case Num(r) => r != "0" && r != "NaN"
    case Str(s) => s != ""
    case Arr(_) => true
    case Obj(_) => true
  }

  /** `v.key` for a value that is not nullish: an own property of an object or
      `undefined` (arrays and primitives carry none of the names read here). */
  function Get(v: JsValue, key: string): JsValue
  {
    if v.Obj? && key in v.fields then v.fields[key] else Undefined
  }

  /** ECMAScript ToString: arrays join their elements with ",", writing null
      and undefined elements as the empty string. */
  function ToString(v: JsValue): string
  {
    match v
    case Undefined => "undefined"
    case Null => "null"
    case Bool(b) => if b then "true" else "false"
    case Num(r) => r
    case Str(s) => s
    case Arr(es) => JoinValues(es, ",")
    case Obj(_) => "[object Object]"
  }

  /** `Array.prototype.join(sep)` on the elements of an array. */
  function JoinValues(es: seq<JsValue>, sep: string): string
  {
    if es == [] then ""
    else
      var head := if IsNullish(es[0]) then "" else ToString(es[0]);
      if |es| == 1 then head else head + sep + JoinValues(es[1..], sep)
  }
}
