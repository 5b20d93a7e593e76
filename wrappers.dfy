/** Option, Result and Outcome: the shapes of Rust's `Option<T>`, `Result<T, E>` and
    `Result<(), E>` as the server's functions return them. */
module Wrappers {

  datatype Option<+T> = None | Some(value: T)

  datatype Result<+R, +E> = Success(value: R) | Failure(error: E) {
    predicate IsFailure() { Failure? }

    function PropagateFailure<U>(): Result<U, E>
      requires Failure?
    {
      Failure(error)
    }

    function Extract(): R
      requires Success?
    {
      value
    }
  }

  /** A result that carries no value on success (a builder setter's `Ok(self)`). */
  datatype Outcome<+E> = Pass | Fail(error: E)
}
