/** Option and Result values used for absent fields and for operations that can fail. */
module Wrappers {

  /** A value that may be absent: a JavaScript `undefined`/`null` field, or a missing form entry. */
  datatype Option<+T> = None | Some(value: T) {

    /** The value when present, otherwise `default`. */
    function GetOr(default: T): T {
      match this
      case Some(v) => v
      case None => default
    }
  }

  /** The outcome of an operation that either succeeds with a value or fails with an error. */
  datatype Result<+R, +E> = Success(value: R) | Failure(error: E)
}
