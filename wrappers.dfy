/** Kotlin's nullable types (`T?`) as an Option datatype. */
module Wrappers {

  datatype Option<+T> = None | Some(value: T)

  /** Kotlin's elvis operator `x ?: default`. */
  function OrElse<T>(o: Option<T>, default: T): T
  {
    match o
    case Some(v) => v
    case None => default
  }
}
