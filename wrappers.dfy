/** Failure-compatible result type used for the handler's thrown errors. */
module Wrappers {

  /** Either a value or the error that was thrown instead of returning it. */
  datatype Result<+T, +E> = Success(value: T) | Failure(error: E)
}
