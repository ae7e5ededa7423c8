/** Optional values and handler replies shared by every module. */
module Wrappers {

  /** A value that may be absent (JavaScript `undefined` / `null`). */
  datatype Option<+T> = None | Some(value: T) {
    function GetOr(default: T): T {
      match this
      case Some(v) => v
      case None => default
    }
  }

  /** The reply of an HTTP handler: a success status with its payload, or an error status. */
  datatype Response<+T> = Ok(status: int, value: T) | Err(status: int)
}
