/** Option and Result types shared by the modules of the model. */
module Wrappers {

  /** A value that may be absent (`null`/`undefined` on the JavaScript side, `None` in Python). */
  datatype Option<+T> = None | Some(value: T) {

    /** The wrapped value, or `default` when absent. */
    function GetOr(default: T): T {
      match this
      case Some(v) => v
      case None => default
    }
  }

  /** The outcome of a call that may raise: a value, or the text of the raised error. */
  datatype Result<+R, +E> = Success(value: R) | Failure(error: E)
}
