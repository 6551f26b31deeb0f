/** Option, Result and Outcome: the shapes of Rust's `Option<T>`, `Result<T, E>`
    and `Result<(), E>` as they appear in the browser's state and fetches. */
module Wrappers {

  datatype Option<+T> = None | Some(value: T) {
    /** `unwrap_or(default)` */
    function GetOr(default: T): T {
      match this
      case Some(v) => v
      case None => default
    }
  }

  datatype Result<+T, +E> = Success(value: T) | Failure(error: E)

  /** `Result<(), E>`: success carries nothing. */
  datatype Outcome<+E> = Pass | Fail(error: E)
}
