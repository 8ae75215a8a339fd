/** Option and Result, used wherever the Swift code returns an optional or
    throws, and the byte of `Data`. */
module Wrappers {

  datatype Option<+T> = None | Some(value: T) {
    function GetOr(default: T): T {
      match this
      case Some(v) => v
      case None => default
    }
  }

  datatype Result<+R, +E> = Success(value: R) | Failure(error: E)

  /** `UInt8`, the element of `Data`. */
  newtype byte = x: int | 0 <= x < 256
}
