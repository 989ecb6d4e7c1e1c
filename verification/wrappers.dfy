/** Failure-carrying return types shared by the builder modules. */
module Wrappers {

  /** A value that may be absent (a Swift optional). */
  datatype Option<+T> = None | Some(value: T)

  /** The outcome of an operation that can be rejected. */
  datatype Result<+R, +E> = Success(value: R) | Failure(error: E)
}
