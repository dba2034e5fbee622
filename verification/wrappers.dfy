/** Failure-carrying datatypes shared by every module of the model. */
module Wrappers {

  /** A value that may be absent: `undefined`/`null` in the editor, `None` in the backend. */
  datatype Option<+T> = None | Some(value: T) {

    /** The wrapped value, or `default` when absent. */
    function GetOr(default: T): T {
      match this
      case Some(v) => v
      case None => default
    }
  }

  /** The outcome of an operation that can be refused. */
  datatype Result<+R, +E> = Success(value: R) | Failure(error: E)
}
