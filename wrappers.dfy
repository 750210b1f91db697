/** Option and Result, the shapes used for JavaScript's null/undefined and thrown errors. */
module Wrappers {
  datatype Option<+T> = None | Some(value: T)

  datatype Result<+T, +E> = Ok(value: T) | Err(error: E)

  /** `x || fallback` for a number that may be missing: a missing value and 0 both fall back. */
  function NumberOr(x: Option<int>, fallback: int): int {
    if x.Some? && x.value != 0 then x.value else fallback
  }
}
