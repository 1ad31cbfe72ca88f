/** Optional values and results with a failure, as the model's other modules use them. */
module Wrappers {

  /** A value that may be absent: Kotlin's nullable `T?`. */
  datatype Option<+T> = None | Some(value: T) {

    /** The value, or `default` when absent: Kotlin's `?:` with a constant. */
    function GetOr(default: T): T {
      match this
      case Some(v) => v
      case None => default
    }
  }

  /** The outcome of an operation that either yields a value or fails. */
  datatype Result<+T, +E> = Ok(value: T) | Err(error: E)
}
