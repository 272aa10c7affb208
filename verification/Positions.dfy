/** The positions below a bound that satisfy a condition, in order: what a filtering loop keeps. */
module Positions {
  ghost predicate Increasing(pos: seq<nat>) { forall k, k' :: 0 <= k < k' < |pos| ==> pos[k] < pos[k'] }

  ghost function Chosen(p: nat -> bool, n: nat): seq<nat> {
    if n == 0 then [] else Chosen(p, n - 1) + if p(n - 1) then [n - 1] else []
  }

  lemma {:induction false} ChosenIsExact(p: nat -> bool, n: nat)
    ensures forall i: nat :: i in Chosen(p, n) <==> i < n && p(i)
    ensures Increasing(Chosen(p, n))
  {
    if n > 0 {
      ChosenIsExact(p, n - 1);
      var before := Chosen(p, n - 1);
      assert forall k :: 0 <= k < |before| ==> before[k] in before;
    }
  }
}
