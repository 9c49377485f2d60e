/** Optional values, used wherever the source has `null` or `undefined` as a possible result. */
module Wrappers {

  datatype Option<+T> = None | Some(value: T)

  /** The value of an `Option`, or `default` when there is none. */
  function GetOr<T>(o: Option<T>, default: T): T
  {
    match o
    case Some(v) => v
    case None => default
  }
}
