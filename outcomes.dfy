/** Option and Result, the two failure-carrying shapes the Rust code returns. */
module Outcomes {

  datatype Option<+T> = None | Some(value: T) {

    /** The value inside `Some`, or `default` for `None` (Rust's `unwrap_or`). */
    function GetOr(default: T): T {
      match this
      case Some(v) => v
      case None => default
    }
  }

  datatype Result<+T, +E> = Ok(value: T) | Err(error: E) {

    /** The error of an `Err`, or `None` for an `Ok`. */
    function ErrorOf(): Option<E> {
      match this
      case Ok(_) => None
      case Err(e) => Some(e)
    }
  }
}
