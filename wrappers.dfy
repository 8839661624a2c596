/** Optional values and the success-or-error result of a backend call. */
module Wrappers {

  /** A value that may be absent: an optional field or a nullable column. */
  datatype Option<+T> = None | Some(value: T)

  /** The outcome of an operation that either returns a value or throws. */
  datatype Result<+T, +E> = Success(value: T) | Failure(error: E)

  /** The outcome of an operation that returns nothing or throws. */
  datatype Outcome<+E> = Pass | Fail(error: E)

  /** JavaScript's `x || 0` on an optional number: absent reads as 0. */
  function OrZero(o: Option<int>): int {
    match o
    case None => 0
    case Some(v) => v
  }
}
