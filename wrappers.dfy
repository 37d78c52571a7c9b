// Small shared value wrappers used by every module of the model.
module Wrappers {
  /** A Python value that may be `None`. */
  datatype Option<T> = None | Some(value: T)
  {
    function GetOr(default: T): T
    {
      if Some? then value else default
    }
  }

  /** A computation that either returns a value or raises the exception `error`. */
  datatype Result<T, E> = Ok(value: T) | Err(error: E)
}
