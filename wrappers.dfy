/** Failure-carrying wrappers shared by every module of the model. */
module Wrappers {

  datatype Option<+T> = None | Some(value: T)

  datatype Result<+T, +E> = Ok(value: T) | Err(error: E)

  /**
   * How a Rust call ends: it returns a value, or it aborts the thread
   * (`panic!`, `unreachable!`, or an `unwrap` on a missing value).
   */
  datatype Outcome<+T> = Returned(value: T) | Panicked(message: string)
}
