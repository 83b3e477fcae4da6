/** Option and Result values shared by the modules of the model. */
module Wrappers {

  /** A value that may be absent: Python's None, or an exception that was caught and dropped. */
  datatype Option<T> = None | Some(value: T) {

    /** The value, or the default when absent (Python's `dict.get(key, default)`). */
    function GetOr(default: T): T {
      if Some? then value else default
    }
  }

  /** Either a value or the reason the operation gave up. */
  datatype Result<T, E> = Success(value: T) | Failure(error: E)
}
