/** Failure-carrying values shared by every module of the tracker model. */
module Wrappers {

  /** A value that may be absent: Python's None, a missing dictionary key, a NULL column. */
  datatype Option<+T> = None | Some(value: T) {
    function GetOr(default: T): T {
      match this
      case Some(v) => v
      case None => default
    }
  }

  /** The outcome of a validator or a request handler: a value, or the error it raises. */
  datatype Result<+R, +E> = Ok(value: R) | Err(error: E)
}
