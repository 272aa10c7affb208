/**
 * Allocation plans between a list of shorts and a list of longs, and the max-flow/min-cut bound
 * that relates any plan to any cut.  `plan[i][j]` is the number of contracts of long `j` given to short `i`.
 */
module Flow {
  import opened PositionLegs

  type Plan = seq<seq<nat>>

  /** Sum of `v[i]` over the first `n` positions whose leg `tags[i]` is kept. */
  ghost function Part(v: seq<nat>, tags: seq<PositionLeg>, keep: PositionLeg -> bool, n: nat): nat
    requires n <= |v| && n <= |tags|
  {
    if n == 0 then 0
    else Part(v, tags, keep, n - 1) + if keep(tags[n - 1]) then v[n - 1] else 0
  }

  ghost function Anything(): PositionLeg -> bool { (l: PositionLeg) => true }

  /** The contract count of every leg. */
  function Counts(legs: seq<PositionLeg>): (r: seq<nat>)
    ensures |r| == |legs| && forall i :: 0 <= i < |legs| ==> r[i] == legs[i].contracts
  {
    seq(|legs|, i requires 0 <= i < |legs| => legs[i].contracts)
  }

  /** Total contracts of the kept legs. */
  ghost function Contracts(legs: seq<PositionLeg>, keep: PositionLeg -> bool): nat {
    Part(Counts(legs), legs, keep, |legs|)
  }

  ghost predicate IsMatrix(plan: Plan, n: nat, m: nat) {
    |plan| == n && forall i :: 0 <= i < n ==> |plan[i]| == m
  }

  /** Contracts taken from long `j` by the first `n` shorts that are kept. */
  ghost function Taken(plan: Plan, shorts: seq<PositionLeg>, keep: PositionLeg -> bool, j: nat, n: nat): nat
    requires n <= |plan| && n <= |shorts|
    requires forall i :: 0 <= i < n ==> j < |plan[i]|
  {
    if n == 0 then 0
    else Taken(plan, shorts, keep, j, n - 1) + if keep(shorts[n - 1]) then plan[n - 1][j] else 0
  }

  ghost function Given(plan: Plan, longs: seq<PositionLeg>, i: nat): nat
    requires i < |plan| && |plan[i]| == |longs|
  {
    Part(plan[i], longs, Anything(), |longs|)
  }

  /** A plan hands each long contract to at most one eligible short contract and never over-covers a short. */
  ghost predicate IsPlan(shorts: seq<PositionLeg>, longs: seq<PositionLeg>, plan: Plan) {
    && IsMatrix(plan, |shorts|, |longs|)
    && (forall i, j :: 0 <= i < |shorts| && 0 <= j < |longs| && plan[i][j] > 0 ==>
          IsProtectiveLongFor(shorts[i], longs[j]))
    && (forall i :: 0 <= i < |shorts| ==> Given(plan, longs, i) <= shorts[i].contracts)
    && WithinSupply(shorts, longs, plan)
  }

  ghost predicate WithinSupply(shorts: seq<PositionLeg>, longs: seq<PositionLeg>, plan: Plan)
    requires IsMatrix(plan, |shorts|, |longs|)
  {
    forall j :: 0 <= j < |longs| ==> Taken(plan, shorts, Anything(), j, |shorts|) <= longs[j].contracts
  }

  /** Contracts the plan gives to the first `n` shorts that are kept, counting only kept longs. */
  ghost function Moved(plan: Plan, shorts: seq<PositionLeg>, longs: seq<PositionLeg>,
                       rows: PositionLeg -> bool, cols: PositionLeg -> bool, n: nat): nat
    requires IsMatrix(plan, |shorts|, |longs|) && n <= |shorts|
  {
    if n == 0 then 0
    else Moved(plan, shorts, longs, rows, cols, n - 1)
         + if rows(shorts[n - 1]) then Part(plan[n - 1], longs, cols, |longs|) else 0
  }

  /** The same total, column by column: long `j` contributes what the kept shorts take from it. */
  ghost function MovedByLong(plan: Plan, shorts: seq<PositionLeg>, longs: seq<PositionLeg>,
                             rows: PositionLeg -> bool, cols: PositionLeg -> bool, n: nat, m: nat): nat
    requires IsMatrix(plan, |shorts|, |longs|) && n <= |shorts| && m <= |longs|
  {
    if m == 0 then 0
    else MovedByLong(plan, shorts, longs, rows, cols, n, m - 1)
         + if cols(longs[m - 1]) then Taken(plan, shorts, rows, m - 1, n) else 0
  }

  lemma {:induction false} MovedByLongGrows(plan: Plan, shorts: seq<PositionLeg>, longs: seq<PositionLeg>,
                                            rows: PositionLeg -> bool, cols: PositionLeg -> bool, n: nat, m: nat)
    requires IsMatrix(plan, |shorts|, |longs|) && 0 < n <= |shorts| && m <= |longs|
    ensures MovedByLong(plan, shorts, longs, rows, cols, n, m)
         == MovedByLong(plan, shorts, longs, rows, cols, n - 1, m)
            + if rows(shorts[n - 1]) then Part(plan[n - 1], longs, cols, m) else 0
  {
    if m > 0 { MovedByLongGrows(plan, shorts, longs, rows, cols, n, m - 1); }
  }

  /** The double sum may be taken in either order. */
  lemma {:induction false} SumsCommute(plan: Plan, shorts: seq<PositionLeg>, longs: seq<PositionLeg>,
                                       rows: PositionLeg -> bool, cols: PositionLeg -> bool, n: nat)
    requires IsMatrix(plan, |shorts|, |longs|) && n <= |shorts|
    ensures Moved(plan, shorts, longs, rows, cols, n) == MovedByLong(plan, shorts, longs, rows, cols, n, |longs|)
  {
    if n == 0 {
      NothingMoved(plan, shorts, longs, rows, cols, |longs|);
    } else {
      SumsCommute(plan, shorts, longs, rows, cols, n - 1);
      MovedByLongGrows(plan, shorts, longs, rows, cols, n, |longs|);
    }
  }

  lemma {:induction false} NothingMoved(plan: Plan, shorts: seq<PositionLeg>, longs: seq<PositionLeg>,
                                        rows: PositionLeg -> bool, cols: PositionLeg -> bool, m: nat)
    requires IsMatrix(plan, |shorts|, |longs|) && m <= |longs|
    ensures MovedByLong(plan, shorts, longs, rows, cols, 0, m) == 0
  {
    if m > 0 { NothingMoved(plan, shorts, longs, rows, cols, m - 1); }
  }

  /** Two sums that agree term by term are equal. */
  lemma {:induction false} PartAgrees(v: seq<nat>, w: seq<nat>, tags: seq<PositionLeg>,
                                      keep: PositionLeg -> bool, keep': PositionLeg -> bool, n: nat)
    requires n <= |v| && n <= |w| && n <= |tags|
    requires forall i :: 0 <= i < n ==>
               (if keep(tags[i]) then v[i] else 0) == (if keep'(tags[i]) then w[i] else 0)
    ensures Part(v, tags, keep, n) == Part(w, tags, keep', n)
  {
    if n > 0 { PartAgrees(v, w, tags, keep, keep', n - 1); }
  }

  lemma {:induction false} TakenAtMostAll(plan: Plan, shorts: seq<PositionLeg>, rows: PositionLeg -> bool, j: nat,
                                          n: nat)
    requires n <= |plan| && n <= |shorts|
    requires forall i :: 0 <= i < n ==> j < |plan[i]|
    ensures Taken(plan, shorts, rows, j, n) <= Taken(plan, shorts, Anything(), j, n)
    ensures (forall i :: 0 <= i < n && plan[i][j] > 0 ==> rows(shorts[i]))
            ==> Taken(plan, shorts, rows, j, n) == Taken(plan, shorts, Anything(), j, n)
  {
    if n > 0 { TakenAtMostAll(plan, shorts, rows, j, n - 1); }
  }

  /** A cut keeps every long that is eligible for a short it keeps. */
  ghost predicate IsCut(shorts: seq<PositionLeg>, longs: seq<PositionLeg>,
                        rows: PositionLeg -> bool, cols: PositionLeg -> bool)
  {
    forall i, j :: 0 <= i < |shorts| && 0 <= j < |longs| && rows(shorts[i]) && IsProtectiveLongFor(shorts[i], longs[j])
      ==> cols(longs[j])
  }

  /** The plan uses up every long of the cut, and only for shorts of the cut. */
  ghost predicate IsTight(plan: Plan, shorts: seq<PositionLeg>, longs: seq<PositionLeg>,
                          rows: PositionLeg -> bool, cols: PositionLeg -> bool)
    requires IsMatrix(plan, |shorts|, |longs|)
  {
    && (forall j :: 0 <= j < |longs| && cols(longs[j])
          ==> Taken(plan, shorts, Anything(), j, |shorts|) == longs[j].contracts)
    && (forall i, j :: 0 <= i < |shorts| && 0 <= j < |longs| && cols(longs[j]) && plan[i][j] > 0 ==> rows(shorts[i]))
  }

  /** What the kept shorts take from the kept longs is bounded by the kept longs' contracts. */
  lemma {:induction false} MovedWithinSupply(plan: Plan, shorts: seq<PositionLeg>, longs: seq<PositionLeg>,
                                             rows: PositionLeg -> bool, cols: PositionLeg -> bool, m: nat)
    requires IsMatrix(plan, |shorts|, |longs|) && m <= |longs| && WithinSupply(shorts, longs, plan)
    ensures MovedByLong(plan, shorts, longs, rows, cols, |shorts|, m) <= Part(Counts(longs), longs, cols, m)
  {
    if m > 0 {
      MovedWithinSupply(plan, shorts, longs, rows, cols, m - 1);
      TakenAtMostAll(plan, shorts, rows, m - 1, |shorts|);
    }
  }

  lemma {:induction false} TightMovesSupply(plan: Plan, shorts: seq<PositionLeg>, longs: seq<PositionLeg>,
                                            rows: PositionLeg -> bool, cols: PositionLeg -> bool, m: nat)
    requires IsMatrix(plan, |shorts|, |longs|) && m <= |longs| && IsTight(plan, shorts, longs, rows, cols)
    ensures MovedByLong(plan, shorts, longs, rows, cols, |shorts|, m) == Part(Counts(longs), longs, cols, m)
  {
    if m > 0 {
      TightMovesSupply(plan, shorts, longs, rows, cols, m - 1);
      if cols(longs[m - 1]) { TakenAtMostAll(plan, shorts, rows, m - 1, |shorts|); }
    }
  }

  ghost function GivenAll(plan: Plan, longs: seq<PositionLeg>): (r: seq<nat>)
    requires forall i :: 0 <= i < |plan| ==> |plan[i]| == |longs|
    ensures |r| == |plan| && forall i :: 0 <= i < |plan| ==> r[i] == Given(plan, longs, i)
  {
    seq(|plan|, i requires 0 <= i < |plan| => Given(plan, longs, i))
  }

  lemma {:induction false} MovedIsGiven(plan: Plan, shorts: seq<PositionLeg>, longs: seq<PositionLeg>,
                                        rows: PositionLeg -> bool, cols: PositionLeg -> bool, n: nat)
    requires IsMatrix(plan, |shorts|, |longs|) && n <= |shorts|
    requires forall i :: 0 <= i < |shorts| && rows(shorts[i]) ==>
               Part(plan[i], longs, cols, |longs|) == Given(plan, longs, i)
    ensures Moved(plan, shorts, longs, rows, cols, n) == Part(GivenAll(plan, longs), shorts, rows, n)
  {
    if n > 0 { MovedIsGiven(plan, shorts, longs, rows, cols, n - 1); }
  }

  /** If every long eligible for a kept short is kept, the kept shorts take from kept longs only. */
  lemma KeptShortsUseKeptLongs(plan: Plan, shorts: seq<PositionLeg>, longs: seq<PositionLeg>,
                               rows: PositionLeg -> bool, cols: PositionLeg -> bool, n: nat)
    requires IsPlan(shorts, longs, plan) && n <= |shorts|
    requires IsCut(shorts, longs, rows, cols)
    ensures Moved(plan, shorts, longs, rows, cols, n) == Part(GivenAll(plan, longs), shorts, rows, n)
  {
    forall i | 0 <= i < |shorts| && rows(shorts[i])
      ensures Part(plan[i], longs, cols, |longs|) == Given(plan, longs, i)
    {
      KeptShortUsesKeptLongs(plan, shorts, longs, rows, cols, i);
    }
    MovedIsGiven(plan, shorts, longs, rows, cols, n);
  }

  lemma KeptShortUsesKeptLongs(plan: Plan, shorts: seq<PositionLeg>, longs: seq<PositionLeg>,
                               rows: PositionLeg -> bool, cols: PositionLeg -> bool, i: nat)
    requires IsPlan(shorts, longs, plan) && i < |shorts| && IsCut(shorts, longs, rows, cols) && rows(shorts[i])
    ensures Part(plan[i], longs, cols, |longs|) == Part(plan[i], longs, Anything(), |longs|)
  {
    PartAgrees(plan[i], plan[i], longs, cols, Anything(), |longs|);
  }

  /**
   * Cut bound: for any plan and any cut, the contracts given to the cut's shorts are at most the contracts
   * of the cut's longs, with equality when those longs are used up entirely by the cut's shorts.
   */
  lemma CutBound(plan: Plan, shorts: seq<PositionLeg>, longs: seq<PositionLeg>,
                 rows: PositionLeg -> bool, cols: PositionLeg -> bool)
    requires IsPlan(shorts, longs, plan)
    requires IsCut(shorts, longs, rows, cols)
    ensures Part(GivenAll(plan, longs), shorts, rows, |shorts|) <= Contracts(longs, cols)
    ensures IsTight(plan, shorts, longs, rows, cols)
            ==> Part(GivenAll(plan, longs), shorts, rows, |shorts|) == Contracts(longs, cols)
  {
    KeptShortsUseKeptLongs(plan, shorts, longs, rows, cols, |shorts|);
    SumsCommute(plan, shorts, longs, rows, cols, |shorts|);
    MovedWithinSupply(plan, shorts, longs, rows, cols, |longs|);
    if IsTight(plan, shorts, longs, rows, cols) { TightMovesSupply(plan, shorts, longs, rows, cols, |longs|); }
  }

  /** Contracts of the shorts that the plan leaves without a long. */
  ghost function Uncovered(shorts: seq<PositionLeg>, longs: seq<PositionLeg>, plan: Plan): int
    requires IsMatrix(plan, |shorts|, |longs|)
  {
    Contracts(shorts, Anything()) - Part(GivenAll(plan, longs), shorts, Anything(), |shorts|)
  }

  /** Splitting a difference of sums by a cut: what lies outside the cut is never negative. */
  lemma {:induction false} DeficitSplits(demand: seq<nat>, given: seq<nat>, tags: seq<PositionLeg>,
                                         rows: PositionLeg -> bool, n: nat)
    requires n <= |demand| && n <= |given| && n <= |tags|
    requires forall i :: 0 <= i < n ==> given[i] <= demand[i]
    ensures Part(demand, tags, Anything(), n) - Part(given, tags, Anything(), n)
         >= Part(demand, tags, rows, n) - Part(given, tags, rows, n) >= 0
    ensures (forall i :: 0 <= i < n && given[i] < demand[i] ==> rows(tags[i]))
            ==> (Part(demand, tags, Anything(), n) - Part(given, tags, Anything(), n)
                 == Part(demand, tags, rows, n) - Part(given, tags, rows, n))
    ensures (exists i :: 0 <= i < n && rows(tags[i]) && given[i] < demand[i])
            ==> Part(demand, tags, rows, n) - Part(given, tags, rows, n) > 0
  {
    if n > 0 { DeficitSplits(demand, given, tags, rows, n - 1); }
  }
}
