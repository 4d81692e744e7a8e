/** Optional values and error-or-value results shared by every module. */
module Wrappers {

  datatype Option<T> = None | Some(value: T) {
    predicate IsSome() { Some? }

    function GetOr(default: T): (r: T)
      ensures Some? ==> r == value
      ensures None? ==> r == default
    {
      match this
      case Some(v) => v
      case None => default
    }
  }

  /** A Python call that either returns a value or raises; `error` names the raised exception. */
  datatype Result<T, E> = Ok(value: T) | Err(error: E)
}
