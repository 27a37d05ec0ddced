/** Failure-carrying datatypes shared by the model. */
module Wrappers {

  /** An optional value (Rust's `Option`). */
  datatype Option<+T> = None | Some(value: T)

  /** A value or an error (Rust's `Result`). */
  datatype Result<+T, +E> = Ok(value: T) | Err(error: E)

  /** How a Rust call that may `unwrap` a missing value ends: it returns a
      value, or the thread panics. */
  datatype Completion<+T> = Returned(value: T) | Panicked
}
