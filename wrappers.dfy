/** A value that may be absent: JavaScript's `null`/`undefined` made explicit. */
module Wrappers {

  datatype Option<+T> = None | Some(value: T) {

    /** The value, or `default` when absent (JavaScript's `x || default` on objects). */
    function GetOr(default: T): T {
      match this
      case Some(v) => v
      case None => default
    }
  }

  /**
   * A message read with JavaScript truthiness, as in `msg || fallback`: an
   * empty string counts as no message at all.
   */
  function Truthy(m: Option<string>): (r: Option<string>)
    ensures r.Some? <==> m.Some? && m.value != ""
    ensures r.Some? ==> r.value == m.value
  {
    if m.Some? && m.value != "" then m else None
  }
}
