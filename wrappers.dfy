/** Optional values and results, the stand-ins for PHP's null and for
    thrown exceptions at the boundaries of the model. */
module Wrappers {

  datatype Option<+T> = None | Some(value: T) {
    function GetOr(default: T): T {
      match this
      case Some(v) => v
      case None => default
    }
  }

  /** An operation that either succeeds with a value or fails with a message
      (the message an `\Exception` would carry). */
  datatype Result<+T, +E> = Ok(value: T) | Err(error: E)
}
