/** Failure-compatible result types shared by every module. */
module Prelude {

  datatype Option<+T> = None | Some(value: T) {

    function GetOr(default: T): T {
      if Some? then value else default
    }
  }

  /** A returned value or the error that the source raises instead. */
  datatype Result<+T, +E> = Success(value: T) | Failure(error: E) {

    predicate IsFailure() {
      Failure?
    }

    function PropagateFailure<U>(): Result<U, E>
      requires Failure?
    {
      Failure(error)
    }

    function Extract(): T
      requires Success?
    {
      value
    }
  }
}
