// Optional values and error-carrying results shared by every module.
module Wrappers {
  datatype Option<T> = None | Some(value: T)
  {
    /** Python's `x if x is not None else default`. */
    function GetOr(default: T): T
    {
      if Some? then value else default
    }
  }

  datatype Result<T, E> = Success(value: T) | Failure(error: E)
}
