/** Optional values and success/failure outcomes used across the model. */
module Wrappers {

  /** A value that may be absent (Python `None`). */
  datatype Option<+T> = None | Some(value: T)

  /** The result of an operation that yields a value or fails with an error. */
  datatype Result<+T, +E> = Ok(value: T) | Err(error: E)

  /** The result of an operation that yields no value but may fail. */
  datatype Outcome<+E> = Pass | Fail(error: E)
}
