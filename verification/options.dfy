/** Optional values, standing in for Swift's `T?`. */
module Options {

  datatype Option<T> = None | Some(value: T) {

    /** The wrapped value, or `fallback` when there is none (Swift's `??`). */
    function GetOr(fallback: T): (r: T)
      ensures Some? ==> r == value
      ensures None? ==> r == fallback
    {
      match this
      case Some(v) => v
      case None => fallback
    }
  }
}
