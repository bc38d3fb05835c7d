/** Option and Result: absent JSON keys and Python exceptions made explicit. */
module Wrappers {

  /** A value that may be absent, such as a key missing from a JSON object. */
  datatype Option<+T> = None | Some(value: T) {

    /** The value, or `default` when absent (Python's `dict.get(key, default)`). */
    function GetOr(default: T): T {
      match this
      case Some(v) => v
      case None => default
    }
  }

  /** The outcome of a computation that may raise: `Err` carries what the exception says. */
  datatype Result<+T, +E> = Ok(value: T) | Err(error: E)
}
