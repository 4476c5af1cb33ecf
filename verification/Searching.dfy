/** Looking a sequence through for the first element a test accepts. */
module Searching {
  function First<T>(xs: seq<T>, accepts: T -> bool): (k: nat)
    ensures k <= |xs| && forall j :: 0 <= j < k ==> !accepts(xs[j])
    ensures k < |xs| ==> accepts(xs[k])
  {
    if xs == [] || accepts(xs[0]) then 0 else 1 + First(xs[1..], accepts)
  }

  /** The places of the elements a test accepts. */
  function Where<T>(xs: seq<T>, accepts: T -> bool): set<nat> {
    set k: nat | k < |xs| && accepts(xs[k])
  }

  /** Appending adds its own place only. */
  lemma WhereAppended<T>(xs: seq<T>, x: T, accepts: T -> bool)
    ensures |Where(xs + [x], accepts)| == |Where(xs, accepts)| + if accepts(x) then 1 else 0
  {
    var first: set<nat> := if accepts(x) then {|xs|} else {};
    assert Where(xs + [x], accepts) == Where(xs, accepts) + first;
  }
}
