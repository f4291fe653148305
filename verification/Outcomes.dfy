/** Option, Result and two small helpers, shared by every model in this project. */
module Outcomes {

  datatype Option<+T> = None | Some(value: T)

  /** A value, or the stable code of the exception the source raises. */
  datatype Result<+T> = Ok(value: T) | Err(code: string)

  predicate Distinct<T(==)>(xs: seq<T>) {
    forall i, j | 0 <= i < j < |xs| :: xs[i] != xs[j]
  }

  /** One less, but never below zero. */
  function Back(n: nat): nat {
    if n == 0 then 0 else n - 1
  }
}
