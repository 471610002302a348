/** Failure-compatible wrappers shared by the whole model. */
module Wrappers {

  /** An optional value; `None` plays the role of Go's "not found" or "failed". */
  datatype Option<+T> = None | Some(value: T) {
    /** The wrapped value, or `default` when there is none. */
    function GetOr(default: T): T {
      match this
      case Some(v) => v
      case None => default
    }
  }

  /** A value or the error that prevented it, like Go's `(T, error)` pair. */
  datatype Result<+T, +E> = Ok(value: T) | Err(error: E)
}
