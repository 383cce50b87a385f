/**
 * Option, the stand-in for JavaScript's `undefined`/`null`, and Result, the
 * stand-in for an operation that either succeeds or throws.
 */
module Wrappers {

  datatype Option<+T> = None | Some(value: T) {

    /** Returns the value in Some, or `default` if there is none. */
    function GetOr(default: T): T {
      match this
      case Some(v) => v
      case None => default
    }
  }

  datatype Result<+R, +E> = Success(value: R) | Failure(error: E)
}
