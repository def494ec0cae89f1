/** Small failure-compatible wrappers used across the model. */
module Wrappers {

  /** A value that may be absent: Java's nullable references. */
  datatype Option<+T> = None | Some(value: T)

  /** The outcome of an operation that may throw. */
  datatype Result<+T, +E> = Ok(value: T) | Err(error: E)
}
