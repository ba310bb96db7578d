/** Optional values and success-or-error values. `Option` stands for a
    Python value that may be `None` or a dictionary key that may be absent;
    `Result` stands for a call that either returns or raises, the error
    carrying the text of the exception (`str(e)`). */
module Outcomes {

  datatype Option<+T> = None | Some(value: T) {

    /** The value, or `default` when there is none (Python's `d.get(k, default)`). */
    function GetOr(default: T): T {
      match this
      case Some(v) => v
      case None => default
    }
  }

  datatype Result<+T, +E> = Ok(value: T) | Err(error: E)
}
