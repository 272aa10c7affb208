/**
 * Which shorts the allocator reports (schemas/position_state.py), defined without a capacity table: a short falls short
 * by whatever its own contracts exceed the eligible supply that the shorts served before it in its series left over.
 */
module Shortfall {
  import opened PositionLegs
  import opened Flow
  import opened Serving
  import opened Allocation
  import opened Protection
  import opened Positions

  ghost function EligibleFor(t: PositionLeg): PositionLeg -> bool { (l: PositionLeg) => IsProtectiveLongFor(t, l) }

  /** Long contracts that the first `n` shorts obtained out of the series of `t`. */
  ghost function Obtained(shorts: seq<PositionLeg>, longs: seq<PositionLeg>, t: PositionLeg, n: nat): int
    requires n <= |shorts|
    decreases n, 0
  {
    if n == 0 then 0
    else
      var s := shorts[n - 1];
      Obtained(shorts, longs, t, n - 1) + if SameSeries(s, t) then s.contracts - Missing(shorts, longs, n - 1) else 0
  }

  /** Contracts short `i` misses: its own, minus the eligible contracts nobody before it in its series has obtained. */
  ghost function Missing(shorts: seq<PositionLeg>, longs: seq<PositionLeg>, i: nat): nat
    requires i < |shorts|
    decreases i, 1
  {
    var s := shorts[i];
    var available := Contracts(longs, EligibleFor(s)) - Obtained(shorts, longs, s, i);
    if s.contracts <= available then 0 else if available < 0 then s.contracts else s.contracts - available
  }

  /* ---- every serving history misses exactly that ---- */

  lemma {:induction false} ChangesInside(v: seq<nat>, w: seq<nat>, tags: seq<PositionLeg>, keep: PositionLeg -> bool,
                                         n: nat)
    requires n <= |v| && n <= |w| && n <= |tags|
    requires forall j :: 0 <= j < n && !keep(tags[j]) ==> v[j] == w[j]
    ensures Part(v, tags, keep, n) - Part(w, tags, keep, n)
         == Part(v, tags, Anything(), n) - Part(w, tags, Anything(), n)
  {
    if n > 0 { ChangesInside(v, w, tags, keep, n - 1); }
  }

  lemma {:induction false} NothingInside(v: seq<nat>, tags: seq<PositionLeg>, keep: PositionLeg -> bool, n: nat)
    requires n <= |v| && n <= |tags| && forall j :: 0 <= j < n && keep(tags[j]) ==> v[j] == 0
    ensures Part(v, tags, keep, n) == 0
  {
    if n > 0 { NothingInside(v, tags, keep, n - 1); }
  }

  /**
   * Serving `s` takes its contracts out of what is eligible for a later short of its series, and nothing of another's.
   */
  lemma ServingTakesFrom(s: PositionLeg, t: PositionLeg, longs: seq<PositionLeg>, before: seq<nat>, after: seq<nat>,
                         left: nat)
    requires Served(s, longs, before, after, left) && ConstraintRank(s) <= ConstraintRank(t)
    ensures Part(before, longs, EligibleFor(t), |longs|) - Part(after, longs, EligibleFor(t), |longs|)
         == if SameSeries(s, t) then s.contracts - left else 0
  {
    var keep := EligibleFor(t);
    if SameSeries(s, t) {
      forall j | 0 <= j < |longs| && !keep(longs[j]) ensures before[j] == after[j] {
        if after[j] < before[j] { EligibilityIsNested(s, t, longs[j]); }
      }
      ChangesInside(before, after, longs, keep, |longs|);
    } else {
      PartAgrees(before, after, longs, keep, keep, |longs|);
    }
  }

  /** What a served short misses follows from the free eligible contracts it found. */
  lemma LeftFollowsSupply(s: PositionLeg, longs: seq<PositionLeg>, before: seq<nat>, after: seq<nat>, left: nat)
    requires Served(s, longs, before, after, left)
    ensures var supply := Part(before, longs, EligibleFor(s), |longs|);
      left == if s.contracts <= supply then 0 else s.contracts - supply
  {
    ServingTakesFrom(s, s, longs, before, after, left);
    if left > 0 { NothingInside(after, longs, EligibleFor(s), |longs|); }
  }

  lemma ObtainedNext(shorts: seq<PositionLeg>, longs: seq<PositionLeg>, t: PositionLeg, n: nat)
    requires n < |shorts|
    ensures Obtained(shorts, longs, t, n + 1) == Obtained(shorts, longs, t, n)
              + if SameSeries(shorts[n], t) then shorts[n].contracts - Missing(shorts, longs, n) else 0
  {}

  lemma SupplyNext(shorts: seq<PositionLeg>, longs: seq<PositionLeg>, free: seq<seq<nat>>, left: seq<nat>,
                   t: PositionLeg, n: nat)
    requires IsServing(shorts, longs, free, left) && n < |shorts|
    requires ConstraintRank(shorts[n]) <= ConstraintRank(t)
    ensures |free[n]| == |longs| && |free[n + 1]| == |longs|
    ensures Part(free[n], longs, EligibleFor(t), |longs|) - Part(free[n + 1], longs, EligibleFor(t), |longs|)
         == if SameSeries(shorts[n], t) then shorts[n].contracts - left[n] else 0
  {
    assert Served(shorts[n], longs, free[n], free[n + 1], left[n]);
    ServingTakesFrom(shorts[n], t, longs, free[n], free[n + 1], left[n]);
  }

  lemma {:induction false} SupplyFound(shorts: seq<PositionLeg>, longs: seq<PositionLeg>, free: seq<seq<nat>>,
                                       left: seq<nat>, t: PositionLeg, n: nat)
    requires IsServing(shorts, longs, free, left) && MostConstrainedFirst(shorts) && n <= |shorts|
    requires forall k :: 0 <= k < n ==> ConstraintRank(shorts[k]) <= ConstraintRank(t)
    ensures |free[n]| == |longs|
    ensures Part(free[n], longs, EligibleFor(t), |longs|)
         == Contracts(longs, EligibleFor(t)) - Obtained(shorts, longs, t, n)
    decreases n, 0
  {
    if n > 0 {
      SupplyFound(shorts, longs, free, left, t, n - 1);
      SupplyNext(shorts, longs, free, left, t, n - 1);
      HistoryMisses(shorts, longs, free, left, n - 1);
      ObtainedNext(shorts, longs, t, n - 1);
    }
  }

  /** In every serving history, whatever longs each short picks, short `i` misses the same number of contracts. */
  lemma {:induction false} HistoryMisses(shorts: seq<PositionLeg>, longs: seq<PositionLeg>, free: seq<seq<nat>>,
                                         left: seq<nat>, i: nat)
    requires IsServing(shorts, longs, free, left) && MostConstrainedFirst(shorts) && i < |shorts|
    ensures left[i] == Missing(shorts, longs, i)
    decreases i, 1
  {
    assert Served(shorts[i], longs, free[i], free[i + 1], left[i]);
    SupplyFound(shorts, longs, free, left, shorts[i], i);
    LeftFollowsSupply(shorts[i], longs, free[i], free[i + 1], left[i]);
  }

  /* ---- the report ---- */

  /** `r` lists the legs of `legs` at exactly the chosen positions, each once and in order. */
  ghost predicate ListsAt(r: seq<PositionLeg>, legs: seq<PositionLeg>, pos: seq<nat>, chosen: nat -> bool) {
    && |pos| == |r|
    && (forall m :: 0 <= m < |r| ==> pos[m] < |legs| && r[m] == legs[pos[m]])
    && Increasing(pos) && (forall i: nat :: i in pos <==> i < |legs| && chosen(i))
  }

  ghost function LeftWithout(left: seq<nat>): nat -> bool { (i: nat) => i < |left| && left[i] > 0 }

  lemma {:induction false} ReportedPositions(shorts: seq<PositionLeg>, left: seq<nat>, n: nat)
    requires n <= |shorts| && n <= |left|
    ensures var r, pos := Reported(shorts, left, n), Chosen(LeftWithout(left), n);
      |r| == |pos| && forall m :: 0 <= m < |r| ==> pos[m] < n && r[m] == shorts[pos[m]]
  {
    if n > 0 { ReportedPositions(shorts, left, n - 1); }
  }

  ghost function MissesSome(shorts: seq<PositionLeg>, longs: seq<PositionLeg>): nat -> bool {
    (i: nat) => i < |shorts| && Missing(shorts, longs, i) > 0
  }

  lemma LeftOverIsMissing(legs: seq<PositionLeg>)
    ensures var shorts, longs := ServingOrder(legs), Longs(legs);
      forall i :: 0 <= i < |shorts| ==> LeftOver(shorts, longs)[i] == Missing(shorts, longs, i)
  {
    var shorts, longs := ServingOrder(legs), Longs(legs);
    AllocatorServes(shorts, longs);
    forall i | 0 <= i < |shorts| ensures LeftOver(shorts, longs)[i] == Missing(shorts, longs, i) {
      HistoryMisses(shorts, longs, FreeTable(shorts, longs), LeftOver(shorts, longs), i);
    }
  }

  /** The report lists, in serving order and each once, exactly the shorts that miss contracts. */
  lemma ReportIsExact(legs: seq<PositionLeg>) returns (pos: seq<nat>)
    ensures ListsAt(UnprotectedShortLegs(legs), ServingOrder(legs), pos, MissesSome(ServingOrder(legs), Longs(legs)))
  {
    var shorts, longs := ServingOrder(legs), Longs(legs);
    LeftOverIsMissing(legs);
    ReportedPositions(shorts, LeftOver(shorts, longs), |shorts|);
    ChosenIsExact(LeftWithout(LeftOver(shorts, longs)), |shorts|);
    pos := Chosen(LeftWithout(LeftOver(shorts, longs)), |shorts|);
  }

  /** What a short misses is what the allocator's own cover, an optimal one, leaves it without. */
  lemma MissingIsUncovered(legs: seq<PositionLeg>, i: nat)
    requires i < |ServingOrder(legs)|
    ensures var c := AllocatorsCover(legs);
      && IsCoverOf(c, legs) && c.shorts == ServingOrder(legs)
      && c.shorts[i].contracts - Given(c.plan, c.longs, i) == Missing(c.shorts, Longs(legs), i)
  {
    var shorts, longs := ServingOrder(legs), Longs(legs);
    AllocatorAchieves(legs);
    AllocatorServes(shorts, longs);
    PlanOfIsPlan(shorts, longs, FreeTable(shorts, longs), LeftOver(shorts, longs));
    LeftOverIsMissing(legs);
  }
}
