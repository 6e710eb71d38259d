/** Failure-compatible wrappers used throughout the model: Option for values that may be
    absent (`undefined` in the source), Result for computations that may raise, and
    Outcome for effects that either complete or raise. */
module Wrappers {

  datatype Option<+T> = None | Some(value: T) {
    function GetOr(default: T): T {
      match this
      case Some(v) => v
      case None => default
    }
  }

  datatype Result<+T, +E> = Ok(value: T) | Err(error: E)

  datatype Outcome<+E> = Pass | Fail(error: E)
}
