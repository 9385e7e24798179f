/** Small failure-compatible wrappers shared by every module. */
module Wrappers {

  datatype Option<+T> = None | Some(value: T) {
    function GetOr(default: T): T {
      match this
      case Some(v) => v
      case None => default
    }
  }

  datatype Result<+R, +E> = Success(value: R) | Failure(error: E)

  /** The way an awaited promise settles: with a value, or by rejecting. */
  datatype Settled<+T> = Resolved(value: T) | Rejected

  /** JavaScript `s || d` for an optional string: a missing value and the
      empty string are both falsy and give the default. */
  function OrDefault(s: Option<string>, d: string): (r: string)
    ensures s.Some? && s.value != "" ==> r == s.value
    ensures s.None? || s.value == "" ==> r == d
  {
    if s.Some? && s.value != "" then s.value else d
  }

  /** JavaScript `n || 0` for an optional count. */
  function OrZero(n: Option<nat>): (r: nat)
    ensures n.Some? ==> r == n.value
    ensures n.None? ==> r == 0
  {
    if n.Some? then n.value else 0
  }
}
