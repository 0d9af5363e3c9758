/**
 The slice of JavaScript value semantics the service relies on: the values a
 JSON request body field can hold, truthiness (`!x`), `Array.isArray`, and the
 conversion of a value into an object property key (`obj[x]`).
 */
module Js {

  datatype Option<+T> = None | Some(value: T)

  /** A request-body field. `Missing` is `undefined` (the field is absent);
      `Other` stands for numbers, booleans and objects, carrying their
      truthiness and their string conversion (`String(x)`). */
  datatype Value =
    | Missing
    | Null
    | Str(s: string)
    | Arr(items: seq<Value>)
    | Other(truthy: bool, text: string)

  /** JavaScript truthiness: `!v` is false exactly when this holds. */
  predicate Truthy(v: Value) {
    match v
    case Missing => false
    case Null => false
    case Str(s) => s != ""
    case Arr(_) => true
    case Other(t, _) => t
  }

  /** `Array.isArray(v)`. */
  predicate IsArray(v: Value) {
    v.Arr?
  }

  /** The property key `obj[v]` uses: a string is used as-is, an array is
      joined with commas, anything else by its string conversion. */
  function PropertyKey(v: Value): (k: string)
    ensures v.Str? ==> k == v.s
    decreases v, 1
  {
    match v
    case Missing => "undefined"
    case Null => "null"
    case Str(s) => s
    case Arr(items) => JoinFrom(v, 0)
    case Other(_, text) => text
  }

  /** `Array.prototype.join(",")` over the items of `a` from index `i` on;
      `null` and `undefined` items contribute the empty string. */
  function JoinFrom(a: Value, i: nat): string
    requires a.Arr? && i <= |a.items|
    decreases a, 0, |a.items| - i
  {
    if i == |a.items| then ""
    else
      var item := a.items[i];
      var text := if item.Missing? || item.Null? then "" else PropertyKey(item);
      if i + 1 == |a.items| then text else text + "," + JoinFrom(a, i + 1)
  }
}
