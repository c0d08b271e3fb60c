/** Option and Result: absent values and failed operations. */
module Wrappers {

  /** A value that may be absent (PHP's `?string`). */
  datatype Option<+T> = None | Some(value: T)

  /** The outcome of an operation that may fail where the source throws or stops. */
  datatype Result<+R, +E> = Success(value: R) | Failure(error: E)
}
