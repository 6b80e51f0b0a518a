/** Option and Result, the failure-carrying datatypes every stage of the
    request chain returns instead of invoking an error callback. */
module Wrappers {

  /** A value that may be absent: JavaScript `undefined`/`null` slots. */
  datatype Option<+T> = None | Some(value: T) {

    /** The value, or `default` when absent. */
    function GetOr(default: T): T {
      match this
      case Some(v) => v
      case None => default
    }
  }

  /** The outcome of a fallible stage: a value, or the error handed to the
      next callback in place of it. */
  datatype Result<+R, +E> = Success(value: R) | Failure(error: E) {

    predicate IsFailure() {
      Failure?
    }

    function PropagateFailure<U>(): Result<U, E>
      requires Failure?
    {
      Failure(error)
    }

    function Extract(): R
      requires Success?
    {
      value
    }
  }
}
