/** Option and Result: the absent values and error returns of the journal's code. */
module Wrappers {

  /** A value that may be missing: an absent JSON field, a null, an empty lookup. */
  datatype Option<+T> = None | Some(value: T) {
    function GetOr(default: T): T {
      match this
      case Some(v) => v
      case None => default
    }
  }

  /** The outcome of an operation that either produces a value or fails with an error. */
  datatype Result<+T, +E> = Ok(value: T) | Err(error: E)
}
