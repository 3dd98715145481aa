/** Option and Result: absent values and operations that raise. */
module Wrappers {

  /** A value that may be absent (Python's `None`, a coerced-null cell, a missing key). */
  datatype Option<+T> = None | Some(value: T)

  /** The outcome of an operation that may raise; `error` is the text of the exception. */
  datatype Result<+T, +E> = Success(value: T) | Failure(error: E)
}
