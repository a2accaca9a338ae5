/** Optional values, results and pass/fail outcomes shared by the other modules. */
module Wrappers {

  /** A value that may be absent (TypeScript `T | undefined`, Rust `Option<T>`). */
  datatype Option<+T> = None | Some(value: T) {
    /** Rust's `unwrap_or`. */
    function GetOr(default: T): T {
      if Some? then value else default
    }
  }

  /** The result of an operation that either returns a value or fails. */
  datatype Result<+T, +E> = Success(value: T) | Failure(error: E)

  /** The result of an operation that returns nothing or fails. */
  datatype Outcome<+E> = Pass | Fail(error: E)
}
