/**
 The few JavaScript value rules the runtime and the demo rely on: a number
 that may be `undefined`, the `<` comparison and the truthiness that `||`
 tests.  NaN is not modelled.
 */
module Js {

  datatype Value = Undefined | Number(value: real)

  /** `v < bound`: undefined converts to NaN, and NaN is not less than anything. */
  function LessThan(v: Value, bound: real): (r: bool)
    ensures r ==> v.Number?
  {
    match v
    case Undefined => false
    case Number(n) => n < bound
  }

  /** Undefined and 0 are falsy; every other number is truthy. */
  predicate Truthy(v: Value) {
    v.Number? && v.value != 0.0
  }
}
