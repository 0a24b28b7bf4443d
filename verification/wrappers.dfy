/** Failure-compatible wrappers used throughout the model: Option for values that
    may be absent (a nil pointer or an unset callback in the middleware), Result for
    computations that either produce a value or stop with an error. */
module Wrappers {

  datatype Option<+T> = None | Some(value: T) {

    /** The value, or the given default when absent. */
    function GetOr(default: T): T {
      match this
      case Some(v) => v
      case None => default
    }
  }

  datatype Result<+R, +E> = Success(value: R) | Failure(error: E) {

    predicate IsFailure() {
      Failure?
    }

    function PropagateFailure<U>(): Result<U, E>
      requires Failure?
    {
      Failure(error)
    }

    function Extract(): R
      requires Success?
    {
      value
    }

    /** The same outcome with the error converted. */
    function MapFailure<NewE>(convert: E -> NewE): Result<R, NewE> {
      match this
      case Success(v) => Success(v)
      case Failure(e) => Failure(convert(e))
    }
  }
}
