/** Failure-carrying datatypes used throughout the calculator model. */
module Wrappers {

  /** A value that may be absent; `None` stands for JavaScript's `NaN` or `null`. */
  datatype Option<+T> = None | Some(value: T)

  /** Either a computed value or the reason it could not be computed. */
  datatype Result<+R, +E> = Success(value: R) | Failure(error: E)
}
