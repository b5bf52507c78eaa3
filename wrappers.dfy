/** Failure-compatible wrappers used across the model: Rust's `Option`,
    `Result<T, E>` and `Result<(), E>`. */
module Wrappers {

  datatype Option<+T> = None | Some(value: T)

  datatype Result<+T, +E> = Ok(value: T) | Err(error: E)

  /** A `Result<(), E>`: either the operation completed or it failed with `error`. */
  datatype Outcome<+E> = Pass | Fail(error: E)
}
