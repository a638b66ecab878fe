/** Bytes, optional values and results shared by the other modules. */
module Wrappers {

  /** A Go `byte`. */
  type byte = x: int | 0 <= x < 256

  /** A value that may be absent: a Go pointer that may be nil, an optional field. */
  datatype Option<+T> = None | Some(value: T) {
    function GetOr(default: T): T {
      match this
      case Some(v) => v
      case None => default
    }
  }

  /** The result of a Go call that returns a value and an error. */
  datatype Result<+T, +E> = Success(value: T) | Failure(error: E)
}
