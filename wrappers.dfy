/** Optional values: JavaScript's `null`/`undefined` next to a present value. */
module Wrappers {

  datatype Option<+T> = None | Some(value: T) {

    /** The value, or `default` when absent (the `x ?? default` idiom). */
    function GetOr(default: T): T {
      match this
      case Some(v) => v
      case None => default
    }
  }

  /** A value or the error a call threw. */
  datatype Result<+T, +E> = Ok(value: T) | Err(error: E)
}
