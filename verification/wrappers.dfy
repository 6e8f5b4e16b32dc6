/** Option and Result, the two failure-carrying shapes the model uses for
    Python's `None` and for a handler that either answers or raises. */
module Wrappers {

  datatype Option<+T> = None | Some(value: T) {
    /** `value if present else default`, as `dict.get(key, default)` reads */
    function GetOr(default: T): T {
      match this
      case Some(v) => v
      case None => default
    }
  }

  /** A handler's outcome: the response it returns, or the error it raises. */
  datatype Result<+R, +E> = Success(value: R) | Failure(error: E)
}
