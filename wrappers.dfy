/** Option and Result, the two failure-carrying values the model needs. */
module Wrappers {

  /** A value that may be absent: an argument the source leaves out of a call. */
  datatype Option<+T> = None | Some(value: T)

  /** The outcome of a computation that may throw: `Failure` carries the thrown error. */
  datatype Result<+R, +E> = Success(value: R) | Failure(error: E)
}
