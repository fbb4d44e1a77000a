/** Optional values: the model's stand-in for JavaScript's `null`/`undefined`, and for
    a number that is not finite (NaN or Infinity) where arithmetic can produce one. */
module Wrappers {

  datatype Option<+T> = None | Some(value: T) {

    /** The value, or `default` when there is none (JavaScript's `x || default` on objects). */
    function GetOr(default: T): T {
      match this
      case Some(v) => v
      case None => default
    }
  }
}
