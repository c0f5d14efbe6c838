/** Option, Result and Outcome: the model's stand-ins for JavaScript's
    `undefined`-or-value, for a call that may throw, and for a promise that
    may reject. */
module Wrappers {

  datatype Option<+T> = None | Some(value: T) {
    function GetOr(default: T): T {
      match this
      case Some(v) => v
      case None => default
    }
  }

  datatype Result<+T, +E> = Success(value: T) | Failure(error: E) {
    predicate IsFailure() {
      Failure?
    }

    function PropagateFailure<U>(): Result<U, E>
      requires Failure?
    {
      Failure(error)
    }

    function Extract(): T
      requires Success?
    {
      value
    }
  }

  /** The settled state of a promise that resolves to nothing. */
  datatype Outcome<+E> = Pass | Fail(error: E)
}
