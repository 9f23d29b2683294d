/** Option and Result, as used by the pricing engine and the catalog. */
module Wrappers {

  /** A value that may be absent: a blank form field or a configuration key that is not set. */
  datatype Option<+T> = None | Some(value: T)

  /** The outcome of a computation that can throw. */
  datatype Result<+T, +E> = Success(value: T) | Failure(error: E)
}
