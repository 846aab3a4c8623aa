/** Failure-compatible wrappers used throughout the model: an optional value
    (Python's `None`-or-value, `dict.get`) and a result that carries either a
    value or the message of the exception the source would raise. */
module Wrappers {

  datatype Option<+T> = None | Some(value: T) {
    /** `x or default` / `d.get(k, default)` */
    function GetOr(default: T): T {
      match this
      case Some(v) => v
      case None => default
    }
  }

  datatype Result<+T, +E> = Ok(value: T) | Err(error: E)
}
