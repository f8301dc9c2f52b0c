/** Failure-carrying wrappers shared by every module of the model. */
module Wrappers {

  /** A value that may be absent (Python's `None` result). */
  datatype Option<+T> = None | Some(value: T) {
    function GetOr(default: T): T {
      match this
      case Some(v) => v
      case None => default
    }
  }

  /** A value or the error that replaced it. */
  datatype Result<+R, +E> = Ok(value: R) | Err(error: E)
}
