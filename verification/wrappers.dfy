/** Failure-carrying datatypes shared by the other modules. */
module Wrappers {

  /** A value that may be absent, as Python's `T | None`. */
  datatype Option<+T> = None | Some(value: T)

  /** The outcome of an operation that either succeeds or raises. */
  datatype Result<+R, +E> = Success(value: R) | Failure(error: E)
}
