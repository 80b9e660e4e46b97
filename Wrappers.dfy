/**
 * Optional values and results with an error, shared by every module:
 * `null`/`undefined` in the application become `None`, a thrown error or
 * an error response becomes `Failure`.
 */
module Wrappers {

  datatype Option<T> = None | Some(value: T)
  {
    function GetOr(default: T): (r: T)
      ensures Some? ==> r == value
      ensures None? ==> r == default
    {
      match this
      case None => default
      case Some(v) => v
    }
  }

  datatype Result<T, E> = Success(value: T) | Failure(error: E)
}
