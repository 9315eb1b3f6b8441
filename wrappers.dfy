/** Optional values and fallible results, shared by every module of the model. */
module Wrappers {

  /** A value that may be absent: `null`/`undefined` in TypeScript, `Option` in Rust. */
  datatype Option<+T> = None | Some(value: T) {
    function GetOr(default: T): T {
      match this
      case Some(v) => v
      case None => default
    }
  }

  /** Rust's `Result`: a value or an error. */
  datatype Result<+R, +E> = Success(value: R) | Failure(error: E)
}
