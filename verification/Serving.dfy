/**
 * Serving histories: shorts are served one after the other, each takes free contracts of eligible longs only,
 * and none is left short while an eligible long is still free.  Any such history that serves every series from
 * its most constrained short upwards is optimal; the order in which one short's longs are used does not matter.
 */
module Serving {
  import opened PositionLegs
  import opened Flow

  ghost predicate Served(short: PositionLeg, longs: seq<PositionLeg>, before: seq<nat>, after: seq<nat>, left: nat) {
    && |before| == |after| == |longs|
    && left <= short.contracts
    && (forall j :: 0 <= j < |longs| ==> after[j] <= before[j])
    && (forall j :: 0 <= j < |longs| && after[j] < before[j] ==> IsProtectiveLongFor(short, longs[j]))
    && short.contracts - left == Part(before, longs, Anything(), |longs|) - Part(after, longs, Anything(), |longs|)
    && (left > 0 ==> forall j :: 0 <= j < |longs| && IsProtectiveLongFor(short, longs[j]) ==> after[j] == 0)
  }

  ghost predicate IsServing(shorts: seq<PositionLeg>, longs: seq<PositionLeg>, free: seq<seq<nat>>, left: seq<nat>) {
    && |free| == |shorts| + 1 && |left| == |shorts|
    && free[0] == Counts(longs)
    && forall i :: 0 <= i < |shorts| ==> Served(shorts[i], longs, free[i], free[i + 1], left[i])
  }

  ghost predicate MostConstrainedFirst(shorts: seq<PositionLeg>) {
    forall i, k :: 0 <= i < k < |shorts| ==> ConstraintRank(shorts[i]) <= ConstraintRank(shorts[k])
  }

  /* ---- the plan a history carries out ---- */

  /** Contracts short `i` took, long by long. */
  ghost function RowOf(shorts: seq<PositionLeg>, longs: seq<PositionLeg>, free: seq<seq<nat>>, left: seq<nat>,
                       i: nat): (r: seq<nat>)
    requires IsServing(shorts, longs, free, left) && i < |shorts|
    ensures |r| == |longs| == |free[i]| == |free[i + 1]|
    ensures forall j :: 0 <= j < |longs| ==> r[j] + free[i + 1][j] == free[i][j]
  {
    assert Served(shorts[i], longs, free[i], free[i + 1], left[i]);
    seq(|longs|, j requires 0 <= j < |longs| => free[i][j] - free[i + 1][j])
  }

  ghost function PlanOf(shorts: seq<PositionLeg>, longs: seq<PositionLeg>, free: seq<seq<nat>>,
                        left: seq<nat>): (plan: Plan)
    requires IsServing(shorts, longs, free, left)
    ensures IsMatrix(plan, |shorts|, |longs|)
    ensures forall i :: 0 <= i < |shorts| ==> plan[i] == RowOf(shorts, longs, free, left, i)
  {
    seq(|shorts|, i requires 0 <= i < |shorts| => RowOf(shorts, longs, free, left, i))
  }

  lemma {:induction false} RowSum(row: seq<nat>, before: seq<nat>, after: seq<nat>, tags: seq<PositionLeg>, n: nat)
    requires n <= |row| && n <= |before| && n <= |after| && n <= |tags|
    requires forall j :: 0 <= j < n ==> row[j] + after[j] == before[j]
    ensures Part(row, tags, Anything(), n) == Part(before, tags, Anything(), n) - Part(after, tags, Anything(), n)
  {
    if n > 0 { RowSum(row, before, after, tags, n - 1); }
  }

  /** Column `j` of the plan records how the free contracts of long `j` went down, short by short. */
  lemma {:induction false} TakenTelescopes(plan: Plan, shorts: seq<PositionLeg>, free: seq<seq<nat>>, j: nat, i: nat)
    requires i <= |plan| && i <= |shorts| && i < |free| && forall a :: 0 <= a <= i ==> j < |free[a]|
    requires forall a :: 0 <= a < i ==> j < |plan[a]| && plan[a][j] + free[a + 1][j] == free[a][j]
    ensures Taken(plan, shorts, Anything(), j, i) + free[i][j] == free[0][j]
  {
    if i > 0 { TakenTelescopes(plan, shorts, free, j, i - 1); }
  }

  /** What has been taken from a long and what is still free always add up to its contracts. */
  lemma TakenPlusFree(shorts: seq<PositionLeg>, longs: seq<PositionLeg>, free: seq<seq<nat>>, left: seq<nat>, j: nat,
                      i: nat)
    requires IsServing(shorts, longs, free, left) && j < |longs| && i <= |shorts|
    ensures |free[i]| == |longs|
    ensures Taken(PlanOf(shorts, longs, free, left), shorts, Anything(), j, i) + free[i][j] == longs[j].contracts
  {
    var plan := PlanOf(shorts, longs, free, left);
    forall a | 0 <= a <= i ensures |free[a]| == |longs| {
      if a > 0 { assert Served(shorts[a - 1], longs, free[a - 1], free[a], left[a - 1]); }
    }
    forall a | 0 <= a < i ensures |plan[a]| == |longs| && plan[a][j] + free[a + 1][j] == free[a][j] {
      assert plan[a] == RowOf(shorts, longs, free, left, a);
    }
    TakenTelescopes(plan, shorts, free, j, i);
  }

  lemma PlanOfIsPlan(shorts: seq<PositionLeg>, longs: seq<PositionLeg>, free: seq<seq<nat>>, left: seq<nat>)
    requires IsServing(shorts, longs, free, left)
    ensures IsPlan(shorts, longs, PlanOf(shorts, longs, free, left))
    ensures forall i :: 0 <= i < |shorts| ==>
              Given(PlanOf(shorts, longs, free, left), longs, i) == shorts[i].contracts - left[i]
  {
    var plan := PlanOf(shorts, longs, free, left);
    forall i | 0 <= i < |shorts| ensures Given(plan, longs, i) == shorts[i].contracts - left[i] {
      assert Served(shorts[i], longs, free[i], free[i + 1], left[i]);
      RowSum(plan[i], free[i], free[i + 1], longs, |longs|);
    }
    forall j | 0 <= j < |longs| ensures Taken(plan, shorts, Anything(), j, |shorts|) <= longs[j].contracts {
      TakenPlusFree(shorts, longs, free, left, j, |shorts|);
    }
    forall i, j | 0 <= i < |shorts| && 0 <= j < |longs| && plan[i][j] > 0
      ensures IsProtectiveLongFor(shorts[i], longs[j])
    {
      assert Served(shorts[i], longs, free[i], free[i + 1], left[i]);
    }
  }

  lemma {:induction false} FreeOnlyShrinks(shorts: seq<PositionLeg>, longs: seq<PositionLeg>, free: seq<seq<nat>>,
                                           left: seq<nat>, j: nat, a: nat, b: nat)
    requires IsServing(shorts, longs, free, left) && a <= b <= |shorts| && j < |longs|
    ensures |free[a]| == |free[b]| == |longs| && free[b][j] <= free[a][j]
    decreases b
  {
    if a < b {
      FreeOnlyShrinks(shorts, longs, free, left, j, a, b - 1);
      assert Served(shorts[b - 1], longs, free[b - 1], free[b], left[b - 1]);
    } else if a > 0 {
      assert Served(shorts[a - 1], longs, free[a - 1], free[a], left[a - 1]);
    }
  }

  /** A short left with a deficit has emptied all its eligible longs, so nobody served later gets any of them. */
  lemma DeficitEmptiesEligible(shorts: seq<PositionLeg>, longs: seq<PositionLeg>, free: seq<seq<nat>>,
                               left: seq<nat>, k: nat, j: nat)
    requires IsServing(shorts, longs, free, left)
    requires k < |shorts| && j < |longs| && left[k] > 0 && IsProtectiveLongFor(shorts[k], longs[j])
    ensures Taken(PlanOf(shorts, longs, free, left), shorts, Anything(), j, |shorts|) == longs[j].contracts
    ensures forall i :: k < i < |shorts| ==> PlanOf(shorts, longs, free, left)[i][j] == 0
  {
    assert Served(shorts[k], longs, free[k], free[k + 1], left[k]);
    FreeOnlyShrinks(shorts, longs, free, left, j, k + 1, |shorts|);
    TakenPlusFree(shorts, longs, free, left, j, |shorts|);
    forall i | k < i < |shorts| ensures PlanOf(shorts, longs, free, left)[i][j] == 0 {
      FreeOnlyShrinks(shorts, longs, free, left, j, k + 1, i);
      FreeOnlyShrinks(shorts, longs, free, left, j, i, i + 1);
    }
  }

  /* ---- the cut that certifies optimality ---- */

  /** The short is at most as hard to serve, in its own series, as some short left with a deficit. */
  ghost predicate InDeficit(shorts: seq<PositionLeg>, left: seq<nat>, s: PositionLeg)
    requires |left| == |shorts|
  {
    exists k :: 0 <= k < |shorts| && left[k] > 0 && SameSeries(s, shorts[k])
        && ConstraintRank(s) <= ConstraintRank(shorts[k])
  }

  /** The long is eligible for some short left with a deficit. */
  ghost predicate NearDeficit(shorts: seq<PositionLeg>, left: seq<nat>, l: PositionLeg)
    requires |left| == |shorts|
  {
    exists k :: 0 <= k < |shorts| && left[k] > 0 && IsProtectiveLongFor(shorts[k], l)
  }

  /** Whoever took a contract that a short in deficit could have used is itself in that short's cut. */
  lemma TakersAreInDeficit(shorts: seq<PositionLeg>, longs: seq<PositionLeg>, free: seq<seq<nat>>, left: seq<nat>,
                           k: nat, i: nat, j: nat)
    requires IsServing(shorts, longs, free, left) && MostConstrainedFirst(shorts)
    requires k < |shorts| && j < |longs| && left[k] > 0 && IsProtectiveLongFor(shorts[k], longs[j])
    requires i < |shorts| && PlanOf(shorts, longs, free, left)[i][j] > 0
    ensures SameSeries(shorts[i], shorts[k]) && ConstraintRank(shorts[i]) <= ConstraintRank(shorts[k])
  {
    DeficitEmptiesEligible(shorts, longs, free, left, k, j);
    assert Served(shorts[i], longs, free[i], free[i + 1], left[i]);
    assert IsProtectiveLongFor(shorts[i], longs[j]);
    assert i <= k;
  }

  lemma DeficitIsTight(shorts: seq<PositionLeg>, longs: seq<PositionLeg>, free: seq<seq<nat>>, left: seq<nat>,
                       rows: PositionLeg -> bool, cols: PositionLeg -> bool)
    requires IsServing(shorts, longs, free, left) && MostConstrainedFirst(shorts)
    requires forall s :: rows(s) <==> InDeficit(shorts, left, s)
    requires forall l :: cols(l) <==> NearDeficit(shorts, left, l)
    ensures IsTight(PlanOf(shorts, longs, free, left), shorts, longs, rows, cols)
  {
    var plan := PlanOf(shorts, longs, free, left);
    forall j | 0 <= j < |longs| && cols(longs[j])
      ensures Taken(plan, shorts, Anything(), j, |shorts|) == longs[j].contracts
    {
      var k :| 0 <= k < |shorts| && left[k] > 0 && IsProtectiveLongFor(shorts[k], longs[j]);
      DeficitEmptiesEligible(shorts, longs, free, left, k, j);
    }
    forall i, j | 0 <= i < |shorts| && 0 <= j < |longs| && cols(longs[j]) && plan[i][j] > 0 ensures rows(shorts[i]) {
      var k :| 0 <= k < |shorts| && left[k] > 0 && IsProtectiveLongFor(shorts[k], longs[j]);
      TakersAreInDeficit(shorts, longs, free, left, k, i, j);
    }
  }

  /**
   * Min cut: the contracts a most-constrained-first history leaves uncovered are exactly the demand of the
   * shorts in deficit minus the supply of the longs eligible for them.
   */
  lemma DeficitIsTheCut(shorts: seq<PositionLeg>, longs: seq<PositionLeg>, free: seq<seq<nat>>, left: seq<nat>,
                        rows: PositionLeg -> bool, cols: PositionLeg -> bool)
    requires IsServing(shorts, longs, free, left) && MostConstrainedFirst(shorts)
    requires forall s :: rows(s) <==> InDeficit(shorts, left, s)
    requires forall l :: cols(l) <==> NearDeficit(shorts, left, l)
    ensures Uncovered(shorts, longs, PlanOf(shorts, longs, free, left))
        == Contracts(shorts, rows) - Contracts(longs, cols)
  {
    var plan := PlanOf(shorts, longs, free, left);
    PlanOfIsPlan(shorts, longs, free, left);
    DeficitCutIsCut(shorts, longs, left, rows, cols);
    DeficitIsTight(shorts, longs, free, left, rows, cols);
    CutBound(plan, shorts, longs, rows, cols);
    forall i | 0 <= i < |shorts| && GivenAll(plan, longs)[i] < Counts(shorts)[i] ensures rows(shorts[i]) {
      assert InDeficit(shorts, left, shorts[i]);
    }
    DeficitSplits(Counts(shorts), GivenAll(plan, longs), shorts, rows, |shorts|);
  }

  lemma DeficitCutIsCut(shorts: seq<PositionLeg>, longs: seq<PositionLeg>, left: seq<nat>,
                        rows: PositionLeg -> bool, cols: PositionLeg -> bool)
    requires |left| == |shorts|
    requires forall s :: rows(s) <==> InDeficit(shorts, left, s)
    requires forall l :: cols(l) <==> NearDeficit(shorts, left, l)
    ensures forall s, l :: rows(s) && IsProtectiveLongFor(s, l) ==> cols(l)
  {
    forall s, l | rows(s) && IsProtectiveLongFor(s, l) ensures cols(l) {
      var k :| 0 <= k < |shorts| && left[k] > 0 && SameSeries(s, shorts[k])
          && ConstraintRank(s) <= ConstraintRank(shorts[k]);
      EligibilityIsNested(s, shorts[k], l);
      assert NearDeficit(shorts, left, l);
    }
  }

  /** Any plan whatsoever leaves at least the demand of a cut minus its supply uncovered. */
  lemma EveryPlanPaysTheCut(shorts: seq<PositionLeg>, longs: seq<PositionLeg>, plan: Plan,
                            rows: PositionLeg -> bool, cols: PositionLeg -> bool)
    requires IsPlan(shorts, longs, plan) && IsCut(shorts, longs, rows, cols)
    ensures Uncovered(shorts, longs, plan) >= Contracts(shorts, rows) - Contracts(longs, cols)
  {
    CutBound(plan, shorts, longs, rows, cols);
    DeficitSplits(Counts(shorts), GivenAll(plan, longs), shorts, rows, |shorts|);
  }
}
