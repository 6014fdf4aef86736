/** Optional values: JavaScript's `undefined`/`null` for a field or a lookup. */
module Wrappers {

  /** An optional value; `None` stands for an absent field or a `null` result. */
  datatype Option<+T> = None | Some(value: T) {

    /** Returns the encapsulated value, or `default` when absent. */
    function GetOr(default: T): T {
      match this
      case Some(v) => v
      case None => default
    }
  }
}
