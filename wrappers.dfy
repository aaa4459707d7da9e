/** Optional values. `None` stands for JavaScript's `undefined`: a prop the
    caller did not pass, or a style key that is not set. */
module Wrappers {

  datatype Option<+T> = None | Some(value: T) {

    /** JavaScript `x ?? d`: the value when defined, else the default. */
    function GetOr(default: T): T {
      match this
      case Some(v) => v
      case None => default
    }

    /** JavaScript `a ?? b` where both sides may be undefined. */
    function OrElse(other: Option<T>): Option<T> {
      if Some? then this else other
    }
  }

  /** Truthiness of an optional string: undefined and `''` are falsy. */
  predicate TruthyString(s: Option<string>) {
    s.Some? && s.value != ""
  }

  /** `if (s) style.key = s`: the string when it is truthy, else no key. */
  function IfTruthy(s: Option<string>): (r: Option<string>)
    ensures r.Some? <==> TruthyString(s)
    ensures r.Some? ==> r == s
  {
    if TruthyString(s) then s else None
  }

  /** Truthiness of an optional number: undefined and 0 are falsy (NaN is not modelled). */
  predicate TruthyNumber(n: Option<real>) {
    n.Some? && n.value != 0.0
  }

  /** JavaScript `n || d` on an optional number. */
  function NumberOr(n: Option<real>, d: real): real {
    if TruthyNumber(n) then n.value else d
  }
}
