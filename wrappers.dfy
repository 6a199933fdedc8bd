/** Failure-carrying return values shared by the models of the three programs. */
module Wrappers {

  /** A value that may be absent. */
  datatype Option<+T> = None | Some(value: T)

  /** The value of a computation, or the error (a Go panic, a Python exception) that ends it. */
  datatype Result<+T, +E> = Ok(value: T) | Err(error: E)

  /** A check that either passes or fails with an error value. */
  datatype Outcome<+E> = Pass | Fail(error: E)
}
