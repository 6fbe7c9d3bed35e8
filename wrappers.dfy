/** Java references that may be null are modelled as Option values. */
module Wrappers {

  datatype Option<+T> = None | Some(value: T) {

    /** The value, or the given default when absent. */
    function GetOr(default: T): T {
      match this
      case Some(v) => v
      case None => default
    }
  }

  /** `s != null && !s.isEmpty()`, the guard the client repeats for every optional string. */
  predicate NonEmpty(s: Option<string>) {
    s.Some? && s.value != ""
  }
}
