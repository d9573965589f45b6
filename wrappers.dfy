/** Optional values, used for parse results and for Go's `error` (None stands for nil). */
module Wrappers {

  datatype Option<+T> = None | Some(value: T) {

    /** Applies `f` to the value if there is one. */
    function Map<U>(f: T -> U): Option<U>
    {
      match this
      case None => None
      case Some(v) => Some(f(v))
    }
  }
}
