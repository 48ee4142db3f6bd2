/** Optional values and success/failure results, standing in for TypeScript's
    `T | undefined` fields and for the `throw`/`toast.error` early returns of the
    application. */
module Wrappers {

  /** An optional value: `None` plays the role of `undefined`. */
  datatype Option<+T> = None | Some(value: T) {

    /** The value, or `default` when absent (the `x ?? d` idiom). */
    function GetOr(default: T): T {
      match this
      case Some(v) => v
      case None => default
    }
  }

  /** The outcome of an operation that can be rejected with an error value. */
  datatype Result<+T, +E> = Ok(value: T) | Err(error: E)
}
