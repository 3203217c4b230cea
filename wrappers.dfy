/** Option and Result: a key that may be absent, a step that may fail. */
module Wrappers {

  /** A dictionary value that may be missing (Python's None for `.get`). */
  datatype Option<+T> = None | Some(value: T) {

    /** The value, or `default` when absent: Python's `d.get(key, default)`. */
    function GetOr(default: T): T {
      match this
      case Some(v) => v
      case None => default
    }
  }

  /** The outcome of a step that raises on failure; `error` stands for the exception. */
  datatype Result<+T, +E> = Success(value: T) | Failure(error: E)
}
