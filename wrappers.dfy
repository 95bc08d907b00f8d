/** Optional values (JavaScript's `undefined`/`null` fields) and results with an error side. */
module Wrappers {

  datatype Option<+T> = None | Some(value: T) {

    /** The value, or `default` when there is none (JavaScript's `x ?? default`). */
    function GetOr(default: T): T {
      match this
      case Some(v) => v
      case None => default
    }
  }

  /** A value, or the error that took its place. */
  datatype Result<+T, +E> = Ok(value: T) | Err(error: E)
}
