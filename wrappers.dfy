/** Optional values, the model's stand-in for JavaScript's `null`/`undefined`
    and Python's `None`, and results that are a value or an error. */
module Wrappers {

  datatype Option<+T> = None | Some(value: T) {

    /** The value, or `default` when there is none (JavaScript's `x || d`
        and Python's `x if x else d` on an absent value). */
    function GetOr(default: T): T {
      match this
      case Some(v) => v
      case None => default
    }
  }

  /** A value, or the error an endpoint raises instead of returning. */
  datatype Result<+T, +E> = Success(value: T) | Failure(error: E)
}
