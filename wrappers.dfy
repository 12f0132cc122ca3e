/** Failure-compatible wrappers used for Python's `None` returns and raised errors. */
module Wrappers {

  /** A value that may be absent (Python's `Optional[T]`). */
  datatype Option<+T> = None | Some(value: T) {
    function GetOr(default: T): T {
      match this
      case Some(v) => v
      case None => default
    }
  }

  /** The outcome of an operation that returns nothing or raises `error`. */
  datatype Outcome<+E> = Pass | Fail(error: E)
}
