/** Failure-carrying result types shared by the launcher model. */
module Wrappers {

  /** A value that may be absent: a null pointer, an unset variable, a missing lookup. */
  datatype Option<+T> = None | Some(value: T) {
    function GetOr(default: T): T {
      match this
      case Some(v) => v
      case None => default
    }
  }

  /** The outcome of a builder that can fail with a message. */
  datatype Result<+R, +E> = Success(value: R) | Failure(error: E)
}
