/** Option and Result, the two shapes the repository's functions return
    (`Option<T>` for a lookup that may miss, `anyhow::Result<T>` for a call that may fail). */
module Wrappers {

  datatype Option<+T> = None | Some(value: T) {

    /** The value, or `default` when there is none (`unwrap_or`). */
    function GetOr(default: T): T {
      match this
      case Some(v) => v
      case None => default
    }
  }

  datatype Result<+T, +E> = Success(value: T) | Failure(error: E)
}
