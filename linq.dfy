/** `Enumerable.FirstOrDefault(predicate)`, as an index into the searched sequence. */
module Linq {
  import opened Wrappers

  /** The index of the first element satisfying `holds`, or None when none does. */
  function FirstMatch<X>(xs: seq<X>, holds: X -> bool): (r: Option<nat>)
    ensures r.Some? ==> r.value < |xs| && holds(xs[r.value])
    ensures r.Some? ==> forall j | 0 <= j < r.value :: !holds(xs[j])
    ensures r.None? <==> forall j | 0 <= j < |xs| :: !holds(xs[j])
    decreases |xs|
  {
    if |xs| == 0 then None
    else if holds(xs[0]) then Some(0)
    else match FirstMatch(xs[1..], holds)
      case None => None
      case Some(k) => Some(k + 1)
  }

  /** The first element satisfying `holds`, or None (`FirstOrDefault` on reference elements). */
  function First<X>(xs: seq<X>, holds: X -> bool): (r: Option<X>)
    ensures r.Some? <==> exists j | 0 <= j < |xs| :: holds(xs[j])
    ensures r.Some? ==> holds(r.value)
    ensures r.Some? ==> exists j | 0 <= j < |xs| :: xs[j] == r.value && holds(xs[j]) && forall i | 0 <= i < j :: !holds(xs[i])
    ensures r.Some? ==> FirstMatch(xs, holds).Some? && r.value == xs[FirstMatch(xs, holds).value]
  {
    match FirstMatch(xs, holds)
    case None => None
    case Some(k) => Some(xs[k])
  }

  /** Applying a later-appended element never changes an earlier first match. */
  lemma {:induction false} FirstMatchAppend<X>(xs: seq<X>, x: X, holds: X -> bool)
    ensures FirstMatch(xs + [x], holds) ==
      if FirstMatch(xs, holds).Some? then FirstMatch(xs, holds)
      else if holds(x) then Some(|xs|) else None
    decreases |xs|
  {
    if |xs| > 0 {
      assert (xs + [x])[1..] == xs[1..] + [x];
      FirstMatchAppend(xs[1..], x, holds);
    }
  }
}
