/** Option and Result, the two failure-carrying shapes the model uses. */
module Wrappers {

  /** A property that may be absent: Python's `None` or a present value. */
  datatype Option<+T> = None | Some(value: T) {

    /** The value, or `default` when absent (Python's `d.get(key, default)`). */
    function GetOr(default: T): T {
      match this
      case Some(v) => v
      case None => default
    }
  }

  /** The outcome of a step that may raise: its value, or the message `str(e)` of the exception. */
  datatype Result<+R> = Success(value: R) | Failure(error: string)
}
