/** Optional values and outcomes shared by every module of the model. */
module Wrappers {

  /** A value that may be absent: `undefined`/`null` in the dashboard's records. */
  datatype Option<+T> = None | Some(value: T) {
    function GetOr(default: T): T {
      match this
      case Some(v) => v
      case None => default
    }
  }

  /** The result of a step that may throw: the value it returned or the error it threw. */
  datatype Result<+T, +E> = Ok(value: T) | Err(error: E)
}
