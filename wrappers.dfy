/** Option and Result, used by the schema and the handlers. */
module Wrappers {

  /** A value that may be missing (Python's `Optional`, with `None`). */
  datatype Option<+T> = None | Some(value: T)

  /** The outcome of validating a request body. */
  datatype Result<+T, +E> = Success(value: T) | Failure(error: E)
}
