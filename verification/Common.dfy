/** Small vocabulary shared by every part of the model. */
module Common {

  datatype Option<+T> = None | Some(value: T) {
    function GetOr(default: T): T {
      if Some? then value else default
    }
  }

  type Bytes = seq<bv8>

  function Max(a: int, b: int): int { if a < b then b else a }

  function Min(a: int, b: int): int { if a < b then a else b }

  function Clamp(x: real, low: real, high: real): real {
    if x < low then low else if high < x then high else x
  }

  /** The time between two readings of the clock, never negative. */
  function SaturatingSince(now: real, earlier: real): real {
    if now > earlier then now - earlier else 0.0
  }

  /** How thread `t` may change who holds a lock: not at all, by taking it, or by giving it up. */
  predicate Passes(before: Option<nat>, after: Option<nat>, t: nat, held: bool, holds: bool) {
    || (after == before && holds == held)
    || (before.None? && after == Some(t) && holds)
    || (after.None? && held && !holds)
  }

  lemma SomeMember<T>(a: set<T>)
    requires a != {}
    ensures exists x :: x in a
  {
  }

  lemma SubsetSize<T>(a: set<T>, b: set<T>)
    requires a <= b
    ensures |a| <= |b|
  {
    if a != {} {
      SomeMember(a);
      var x :| x in a;
      SubsetSize(a - {x}, b - {x});
    }
  }
}
