/** Optional values and fallible results, shared by every module of the model. */
module Wrappers {

  /** A value that may be absent (Python's `None`). */
  datatype Option<+T> = None | Some(value: T) {
    function GetOr(default: T): T {
      match this
      case Some(v) => v
      case None => default
    }
  }

  /** The outcome of a step that may raise: its value, or the text of the raised error. */
  datatype Result<+T> = Success(value: T) | Failure(error: string)
}
