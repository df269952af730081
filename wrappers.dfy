/** Optional values and results with an error, used across the model. */
module Wrappers {

  /** A value that may be absent: a JavaScript `undefined`/`null`, a NaN, a missed lookup. */
  datatype Option<+T> = None | Some(value: T) {
    function GetOr(default: T): T {
      match this
      case Some(v) => v
      case None => default
    }
  }

  /** The outcome of a step that either produces a value or stops with an error. */
  datatype Result<+R, +E> = Success(value: R) | Failure(error: E)
}
