/** Optional values, standing in for JavaScript's missing fields and `null` results. */
module Wrappers {

  datatype Option<+T> = None | Some(value: T)

  /** The value, or `fallback` when absent (JavaScript's `x || fallback` for a field that is either present or missing). */
  function GetOr<T>(o: Option<T>, fallback: T): T
  {
    match o
    case Some(v) => v
    case None => fallback
  }
}
