/** Failure-compatible result type shared by the pipeline stages. */
module Wrappers {

  datatype Result<+T, +E> = Success(value: T) | Failure(error: E) {
    predicate IsFailure() {
      Failure?
    }

    function PropagateFailure<U>(): Result<U, E>
      requires Failure?
    {
      Failure(error)
    }

    function Extract(): T
      requires Success?
    {
      value
    }
  }

  /** An aggregation that pandas can leave undefined (NaN) is None here. */
  datatype Option<+T> = None | Some(value: T) {
    /** pandas `fillna(default)` */
    function GetOr(default: T): T {
      match this
      case Some(v) => v
      case None => default
    }
  }
}
