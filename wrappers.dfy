/** Option and Result, the shapes Python's `None` and raised exceptions take in this model. */
module Wrappers {

  /** `None` or a value, as Python's `Optional[T]`. */
  datatype Option<+T> = None | Some(value: T)

  /** A returned value or the exception that was raised instead. */
  datatype Result<+T, +E> = Success(value: T) | Failure(error: E)
}
