/** Values that may be absent: Python's `None`. */
module Wrappers {
  datatype Option<+T> = None | Some(value: T)
  {
    /** The value, or `default` when there is none. */
    function GetOr(default: T): T {
      if Some? then value else default
    }
  }

  /** Python's `a or b` on optional texts: an empty text counts as missing. */
  function FirstText(a: Option<string>, b: string): string {
    if a.Some? && a.value != "" then a.value else b
  }
}
