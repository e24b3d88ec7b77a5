/** Option and Result values shared by every module of the model. */
module Wrappers {

  /** A value that may be missing (Python `None`, a JavaScript `null` or `undefined`). */
  datatype Option<+T> = None | Some(value: T)

  /** The value of an operation that either succeeds or raises an error. */
  datatype Result<+T, +E> = Ok(value: T) | Err(error: E)

  /** Python truthiness of an optional number: both `None` and zero are falsy. */
  predicate Truthy(x: Option<real>) {
    x.Some? && x.value != 0.0
  }

  /** Python truthiness of an optional integer. */
  predicate TruthyInt(x: Option<int>) {
    x.Some? && x.value != 0
  }

  /** Python truthiness of an optional string: `None` and `""` are falsy. */
  predicate TruthyStr(x: Option<string>) {
    x.Some? && x.value != ""
  }

  /** `float(x) if x else d`: the value when it is truthy, otherwise the default. */
  function RealOr(x: Option<real>, d: real): (r: real)
    ensures Truthy(x) ==> r == x.value
    ensures !Truthy(x) ==> r == d
  {
    if Truthy(x) then x.value else d
  }

  /** `x or d` on an integer field, read as a real number. */
  function IntOr(x: Option<int>, d: int): (r: real)
    ensures TruthyInt(x) ==> r == x.value as real
    ensures !TruthyInt(x) ==> r == d as real
  {
    if TruthyInt(x) then x.value as real else d as real
  }
}
