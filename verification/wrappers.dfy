/** Failure-carrying wrappers shared by both route models. */
module Wrappers {

  /** A value that may be missing: JavaScript's `null`/`undefined` stand-in. */
  datatype Option<+T> = None | Some(value: T) {

    /** The wrapped value, or `default` when there is none. */
    function GetOr(default: T): T {
      match this
      case Some(v) => v
      case None => default
    }
  }

  /** The outcome of a step that may throw: `Failure` carries the error message. */
  datatype Result<+R, +E> = Success(value: R) | Failure(error: E)
}
