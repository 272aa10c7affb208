/**
 * The protective-leg allocator of schemas/position_state.py: the most constrained short is served first
 * and takes the least flexible eligible longs.
 */
module Allocation {
  import opened Vocabulary
  import opened PositionLegs
  import opened StableSort
  import opened Flow
  import opened Serving

  function Select(legs: seq<PositionLeg>, keep: PositionLeg -> bool): (r: seq<PositionLeg>)
    ensures forall l :: l in r <==> l in legs && keep(l)
  {
    if legs == [] then []
    else
      assert legs == [legs[0]] + legs[1..];
      (if keep(legs[0]) then [legs[0]] else []) + Select(legs[1..], keep)
  }

  function Shorts(legs: seq<PositionLeg>): seq<PositionLeg> { Select(legs, IsShort) }

  function Longs(legs: seq<PositionLeg>): seq<PositionLeg> { Select(legs, IsLong) }

  function ShortsMostConstrainedFirst(shorts: seq<PositionLeg>): seq<PositionLeg> {
    SortBy(shorts, ConstraintRank)
  }

  /** Positions of the longs that protect `short`, in list order, starting at position `from`. */
  function EligibleFrom(short: PositionLeg, longs: seq<PositionLeg>, from: nat): (r: seq<nat>)
    requires from <= |longs|
    ensures forall j :: j in r <==> from <= j < |longs| && IsProtectiveLongFor(short, longs[j])
    decreases |longs| - from
  {
    if from == |longs| then []
    else
      var rest := EligibleFrom(short, longs, from + 1);
      if IsProtectiveLongFor(short, longs[from]) then [from] + rest else rest
  }

  /** Closest strike first: the highest strike for puts, the lowest for calls. */
  function FlexibilityRank(short: PositionLeg, longs: seq<PositionLeg>, j: nat): real {
    if j >= |longs| then 0.0
    else if short.optionType == PUT then -longs[j].strike.value
    else longs[j].strike.value
  }

  function EligibleLongsLeastFlexibleFirst(short: PositionLeg, longs: seq<PositionLeg>): (r: seq<nat>)
    ensures forall j :: j in r <==> 0 <= j < |longs| && IsProtectiveLongFor(short, longs[j])
    ensures AreIndices(r, |longs|)
  {
    var r := SortBy(EligibleFrom(short, longs, 0), (j: nat) => FlexibilityRank(short, longs, j));
    assert forall k :: 0 <= k < |r| ==> r[k] in r;
    r
  }

  function Min(a: nat, b: nat): nat { if a <= b then a else b }

  datatype Drained = Drained(needed: nat, remaining: seq<nat>)

  predicate AreIndices(order: seq<nat>, n: nat) {
    forall k :: 0 <= k < |order| ==> order[k] < n
  }

  /** One short's inner loop: walk the eligible longs and take what is still free. */
  function Drain(order: seq<nat>, needed: nat, remaining: seq<nat>): (r: Drained)
    requires AreIndices(order, |remaining|)
    ensures |r.remaining| == |remaining|
  {
    if order == [] || needed == 0 then Drained(needed, remaining)
    else
      var take := Min(needed, remaining[order[0]]);
      Drain(order[1..], needed - take, remaining[order[0] := remaining[order[0]] - take])
  }

  predicate AreOrders(orders: seq<seq<nat>>, n: nat, m: nat) {
    |orders| == n && forall i :: 0 <= i < n ==> AreIndices(orders[i], m)
  }

  /**
   * Free long contracts after the first `i` shorts, with contract counts `needs`, took from the longs in their orders.
   */
  function Remaining(capacities: seq<nat>, needs: seq<nat>, orders: seq<seq<nat>>, i: nat): (r: seq<nat>)
    requires i <= |needs| && AreOrders(orders, |needs|, |capacities|)
    ensures |r| == |capacities|
  {
    if i == 0 then capacities
    else Drain(orders[i - 1], needs[i - 1], Remaining(capacities, needs, orders, i - 1)).remaining
  }

  /** Contracts of the `i`-th short that stay without protection. */
  function Left(capacities: seq<nat>, needs: seq<nat>, orders: seq<seq<nat>>, i: nat): nat
    requires i < |needs| && AreOrders(orders, |needs|, |capacities|)
  {
    Drain(orders[i], needs[i], Remaining(capacities, needs, orders, i)).needed
  }

  function LeftTable(capacities: seq<nat>, needs: seq<nat>, orders: seq<seq<nat>>): (r: seq<nat>)
    requires AreOrders(orders, |needs|, |capacities|)
    ensures |r| == |needs| && forall i :: 0 <= i < |needs| ==> r[i] == Left(capacities, needs, orders, i)
  {
    seq(|needs|, i requires 0 <= i < |needs| => Left(capacities, needs, orders, i))
  }

  /** Those of the first `n` shorts that have contracts left over. */
  function Reported(shorts: seq<PositionLeg>, left: seq<nat>, n: nat): seq<PositionLeg>
    requires n <= |shorts| && n <= |left|
  {
    if n == 0 then [] else Reported(shorts, left, n - 1) + if left[n - 1] > 0 then [shorts[n - 1]] else []
  }

  function Orders(shorts: seq<PositionLeg>, longs: seq<PositionLeg>): (r: seq<seq<nat>>)
    ensures AreOrders(r, |shorts|, |longs|)
    ensures forall i :: 0 <= i < |shorts| ==> r[i] == EligibleLongsLeastFlexibleFirst(shorts[i], longs)
  {
    seq(|shorts|, i requires 0 <= i < |shorts| => EligibleLongsLeastFlexibleFirst(shorts[i], longs))
  }

  /** Contracts left over per short when `shorts` are served in the given order. */
  function LeftOver(shorts: seq<PositionLeg>, longs: seq<PositionLeg>): (r: seq<nat>)
    ensures |r| == |shorts|
  {
    LeftTable(Counts(longs), Counts(shorts), Orders(shorts, longs))
  }

  /** The short legs reported with at least one contract left unprotected. */
  function UnprotectedShortLegs(legs: seq<PositionLeg>): seq<PositionLeg> {
    var shorts := ShortsMostConstrainedFirst(Shorts(legs));
    Reported(shorts, LeftOver(shorts, Longs(legs)), |shorts|)
  }

  predicate FullyProtected(legs: seq<PositionLeg>) { UnprotectedShortLegs(legs) == [] }

  /** The inner loop: consume the listed longs' free contracts until the short is covered. */
  method Consume(order: seq<nat>, contracts: nat, free: seq<nat>) returns (needed: nat, remaining: seq<nat>)
    requires AreIndices(order, |free|)
    ensures Drained(needed, remaining) == Drain(order, contracts, free)
  {
    remaining := free;
    needed := contracts;
    var k := 0;
    assert order[0..] == order;
    while k < |order|
      invariant 0 <= k <= |order| && |remaining| == |free|
      invariant Drain(order[k..], needed, remaining) == Drain(order, contracts, free)
    {
      if needed <= 0 { break; }
      assert order[k..][1..] == order[k + 1..];
      var take := Min(needed, remaining[order[k]]);
      needed := needed - take;
      remaining := remaining[order[k] := remaining[order[k]] - take];
      k := k + 1;
    }
  }

  lemma {:induction false} ReportIgnoresLater(shorts: seq<PositionLeg>, left: seq<nat>, x: nat, n: nat)
    requires n <= |shorts| && n <= |left|
    ensures Reported(shorts, left + [x], n) == Reported(shorts, left, n)
  {
    if n > 0 { ReportIgnoresLater(shorts, left, x, n - 1); }
  }

  /** The outer loop over the shorts and the mutable remaining-capacity table. */
  method Allocate(shorts: seq<PositionLeg>, capacities: seq<nat>, needs: seq<nat>, orders: seq<seq<nat>>)
    returns (unprotected: seq<PositionLeg>)
    requires |needs| == |shorts| && AreOrders(orders, |shorts|, |capacities|)
    ensures unprotected == Reported(shorts, LeftTable(capacities, needs, orders), |shorts|)
  {
    var remaining := capacities;
    ghost var left := [];
    unprotected := [];
    for i := 0 to |shorts|
      invariant |left| == i && forall k :: 0 <= k < i ==> left[k] == Left(capacities, needs, orders, k)
      invariant remaining == Remaining(capacities, needs, orders, i)
      invariant unprotected == Reported(shorts, left, i)
    {
      var needed;
      needed, remaining := Consume(orders[i], needs[i], remaining);
      if needed > 0 { unprotected := unprotected + [shorts[i]]; }
      ReportIgnoresLater(shorts, left, needed, i);
      left := left + [needed];
    }
    assert left == LeftTable(capacities, needs, orders);
  }

  method FindUnprotectedShortLegs(legs: seq<PositionLeg>) returns (unprotected: seq<PositionLeg>)
    ensures unprotected == UnprotectedShortLegs(legs)
  {
    var shorts := ShortsMostConstrainedFirst(Shorts(legs));
    var longs := Longs(legs);
    unprotected := Allocate(shorts, Counts(longs), Counts(shorts), Orders(shorts, longs));
  }

  /* ---- what one short's inner loop guarantees ---- */

  lemma {:induction false} DrainShrinks(order: seq<nat>, needed: nat, remaining: seq<nat>)
    requires AreIndices(order, |remaining|)
    ensures var r := Drain(order, needed, remaining);
      && r.needed <= needed
      && (forall j :: 0 <= j < |remaining| ==> r.remaining[j] <= remaining[j])
      && (forall j :: 0 <= j < |remaining| && j !in order ==> r.remaining[j] == remaining[j])
  {
    if order != [] && needed != 0 {
      var take := Min(needed, remaining[order[0]]);
      DrainShrinks(order[1..], needed - take, remaining[order[0] := remaining[order[0]] - take]);
    }
  }

  lemma {:induction false} DrainEmpties(order: seq<nat>, needed: nat, remaining: seq<nat>)
    requires AreIndices(order, |remaining|)
    requires Drain(order, needed, remaining).needed > 0
    ensures forall k :: 0 <= k < |order| ==> Drain(order, needed, remaining).remaining[order[k]] == 0
  {
    if order != [] && needed != 0 {
      var take := Min(needed, remaining[order[0]]);
      var mid := remaining[order[0] := remaining[order[0]] - take];
      DrainEmpties(order[1..], needed - take, mid);
      DrainShrinks(order[1..], needed - take, mid);
      forall k | 0 <= k < |order| ensures Drain(order, needed, remaining).remaining[order[k]] == 0 {
        if k > 0 { assert order[k] == order[1..][k - 1]; }
      }
    }
  }

  lemma {:induction false} UpdateSum(v: seq<nat>, tags: seq<PositionLeg>, k: nat, x: nat, n: nat)
    requires n <= |v| && n <= |tags| && k < |v|
    ensures Part(v[k := x], tags, Anything(), n) == Part(v, tags, Anything(), n) + if k < n then x - v[k] else 0
  {
    if n > 0 { UpdateSum(v, tags, k, x, n - 1); }
  }

  /** The inner loop gives the short exactly what it takes from the longs. */
  lemma {:induction false} DrainConserves(order: seq<nat>, needed: nat, remaining: seq<nat>, longs: seq<PositionLeg>)
    requires AreIndices(order, |remaining|) && |remaining| == |longs|
    ensures var r := Drain(order, needed, remaining);
      needed - r.needed == Part(remaining, longs, Anything(), |longs|) - Part(r.remaining, longs, Anything(), |longs|)
  {
    if order != [] && needed != 0 {
      var take := Min(needed, remaining[order[0]]);
      UpdateSum(remaining, longs, order[0], remaining[order[0]] - take, |longs|);
      DrainConserves(order[1..], needed - take, remaining[order[0] := remaining[order[0]] - take], longs);
    }
  }

  /** Serving one short through its eligible longs meets the conditions of a serving history. */
  lemma DrainServes(short: PositionLeg, longs: seq<PositionLeg>, free: seq<nat>, order: seq<nat>)
    requires |free| == |longs| && AreIndices(order, |longs|)
    requires forall j :: j in order <==> 0 <= j < |longs| && IsProtectiveLongFor(short, longs[j])
    ensures var r := Drain(order, short.contracts, free); Served(short, longs, free, r.remaining, r.needed)
  {
    DrainShrinks(order, short.contracts, free);
    DrainConserves(order, short.contracts, free, longs);
    var r := Drain(order, short.contracts, free);
    if r.needed > 0 {
      DrainEmpties(order, short.contracts, free);
      forall j | 0 <= j < |longs| && IsProtectiveLongFor(short, longs[j]) ensures r.remaining[j] == 0 {
        assert j in order;
      }
    }
  }

  ghost function FreeTable(shorts: seq<PositionLeg>, longs: seq<PositionLeg>): (r: seq<seq<nat>>)
    ensures |r| == |shorts| + 1
    ensures forall i :: 0 <= i <= |shorts| ==>
        r[i] == Remaining(Counts(longs), Counts(shorts), Orders(shorts, longs), i)
  {
    var orders := Orders(shorts, longs);
    seq(|shorts| + 1, i requires 0 <= i <= |shorts| => Remaining(Counts(longs), Counts(shorts), orders, i))
  }

  /** The allocator's run is a serving history. */
  lemma AllocatorServes(shorts: seq<PositionLeg>, longs: seq<PositionLeg>)
    ensures IsServing(shorts, longs, FreeTable(shorts, longs), LeftOver(shorts, longs))
  {
    var free, left, orders := FreeTable(shorts, longs), LeftOver(shorts, longs), Orders(shorts, longs);
    forall i | 0 <= i < |shorts| ensures Served(shorts[i], longs, free[i], free[i + 1], left[i]) {
      assert orders[i] == EligibleLongsLeastFlexibleFirst(shorts[i], longs);
      DrainServes(shorts[i], longs, free[i], orders[i]);
    }
  }
}
