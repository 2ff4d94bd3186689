/** Optional values and results with an error, as Rust's `Option` and `Result`. */
module Wrappers {

  datatype Option<T> = None | Some(value: T) {
    /** `Option::unwrap_or`. */
    function UnwrapOr(default: T): T {
      match this
      case Some(v) => v
      case None => default
    }
  }

  datatype Result<T, E> = Ok(value: T) | Err(error: E)
}
