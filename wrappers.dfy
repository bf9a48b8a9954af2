/** Optional values and results, used where the source has nullable values or throws. */
module Wrappers {

  datatype Option<+T> = None | Some(value: T)
  {
    /** The value held, or `default` when there is none. */
    function GetOr(default: T): T
    {
      match this
      case Some(v) => v
      case None => default
    }
  }

  datatype Result<+T, +E> = Success(value: T) | Failure(error: E)
}
