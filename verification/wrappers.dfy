/** Failure-carrying datatypes shared by the driver model. */
module Wrappers {

  /** A value that may be absent: a decoder that could not read its input answers None. */
  datatype Option<+T> = None | Some(value: T)

  /** The Go convention `(value, error)` where exactly one of the two is meaningful. */
  datatype Result<+R, +E> = Success(value: R) | Failure(error: E)
}
