/**
 * Optional values, the Dafny counterpart of the source's `T | null` and
 * `T | undefined`, and results, its counterpart of a thrown `Error(message)`.
 */
module Wrappers {

  datatype Option<+T> = None | Some(value: T) {

    /** The value, or `default` when absent (JavaScript's `x ?? default`). */
    function GetOr(default: T): T {
      match this
      case Some(v) => v
      case None => default
    }
  }

  datatype Result<+T, +E> = Ok(value: T) | Err(error: E)
}
