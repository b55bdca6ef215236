/** Option and Result values standing for Python's `None` and for raised exceptions. */
module Wrappers {

  datatype Option<+T> = None | Some(value: T)

  /** A computation that either returns a value or raises; the error is the exception's message. */
  datatype Result<+T> = Success(value: T) | Failure(error: string)
}
