/** Option and Result values used across the model in place of `undefined` and thrown errors. */
module Wrappers {

  /** A value that may be absent, as a missing query-string parameter is. */
  datatype Option<+T> = None | Some(value: T)

  /** The outcome of a handler: a value, or the error it threw. */
  datatype Result<+T, +E> = Success(value: T) | Failure(error: E)
}
