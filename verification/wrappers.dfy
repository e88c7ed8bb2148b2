/** Failure-compatible wrappers shared by the model: Go values that may be nil become
    `Option`, and `(value, err)` returns become `Result`. */
module Wrappers {

  /** A value that may be absent: the model of a Go reference that may be nil. */
  datatype Option<+T> = None | Some(value: T) {

    /** The value, or `default` when absent. */
    function GetOr(default: T): T {
      match this
      case Some(v) => v
      case None => default
    }
  }

  /** The outcome of a call that returns a value or an error. */
  datatype Result<+R, +E> = Success(value: R) | Failure(error: E)
}
