/** Optional values, and the truthiness the Python source applies to them. */
module Wrappers {

  /** A value that may be absent (Python's `None`). */
  datatype Option<+T> = None | Some(value: T) {

    /** The value if present, `default` otherwise. */
    function GetOr(default: T): T
    {
      match this
      case Some(v) => v
      case None => default
    }
  }

  /** `if x:` on an optional text or byte string: present and non-empty. */
  predicate NonEmpty<T>(o: Option<seq<T>>)
  {
    o.Some? && |o.value| > 0
  }

  /** `if x:` on an optional integer: present and non-zero. */
  predicate NonZero(o: Option<int>)
  {
    o.Some? && o.value != 0
  }
}
