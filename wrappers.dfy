/** Option and Result, the two Rust standard types the bank's core uses. */
module Wrappers {

  /** `Option<T>`: a value that may be absent. */
  datatype Option<+T> = None | Some(value: T)

  /** `Result<T, E>`: the outcome of an operation that may fail. */
  datatype Result<+T, +E> = Ok(value: T) | Err(error: E)
}
