/** Failure-carrying datatypes used where the Python code returns `None`
    or raises an exception. */
module Wrappers {

  /** A value that may be absent (Python's `Optional`). */
  datatype Option<+T> = None | Some(value: T)

  /** Either a computed value or the error a Python function would raise. */
  datatype Result<+R, +E> = Success(value: R) | Failure(error: E)
}
