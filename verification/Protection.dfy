/** The main results about the protective-leg allocator: it is optimal, exact, and stable. */
module Protection {
  import opened PositionLegs
  import opened Flow
  import opened Serving
  import opened Allocation
  import opened Exposure

  /** A way to assign a book's long contracts to its short contracts, with the legs listed in any order. */
  datatype Cover = Cover(shorts: seq<PositionLeg>, longs: seq<PositionLeg>, plan: Plan)

  ghost predicate IsCoverOf(c: Cover, legs: seq<PositionLeg>) {
    && multiset(c.shorts) == multiset(Shorts(legs))
    && multiset(c.longs) == multiset(Longs(legs))
    && IsPlan(c.shorts, c.longs, c.plan)
  }

  ghost function UncoveredBy(c: Cover): int
    requires IsPlan(c.shorts, c.longs, c.plan)
  {
    Uncovered(c.shorts, c.longs, c.plan)
  }

  ghost function ServingOrder(legs: seq<PositionLeg>): seq<PositionLeg> { ShortsMostConstrainedFirst(Shorts(legs)) }

  /** Short contracts that the allocator leaves without a long. */
  ghost function ContractsLeftUnprotected(legs: seq<PositionLeg>): nat {
    var shorts := ServingOrder(legs);
    Part(LeftOver(shorts, Longs(legs)), shorts, Anything(), |shorts|)
  }

  ghost function AllocatorsCover(legs: seq<PositionLeg>): Cover {
    var shorts, longs := ServingOrder(legs), Longs(legs);
    AllocatorServes(shorts, longs);
    Cover(shorts, longs, PlanOf(shorts, longs, FreeTable(shorts, longs), LeftOver(shorts, longs)))
  }

  /** The allocator's own assignment is a legal cover and leaves exactly the reported contracts unprotected. */
  lemma AllocatorAchieves(legs: seq<PositionLeg>)
    ensures IsCoverOf(AllocatorsCover(legs), legs)
    ensures UncoveredBy(AllocatorsCover(legs)) == ContractsLeftUnprotected(legs)
  {
    var shorts, longs := ServingOrder(legs), Longs(legs);
    var free, left := FreeTable(shorts, longs), LeftOver(shorts, longs);
    AllocatorServes(shorts, longs);
    PlanOfIsPlan(shorts, longs, free, left);
    var plan := PlanOf(shorts, longs, free, left);
    forall i | 0 <= i < |shorts| ensures left[i] + GivenAll(plan, longs)[i] == Counts(shorts)[i] {
      assert Served(shorts[i], longs, free[i], free[i + 1], left[i]);
    }
    RowSum(left, Counts(shorts), GivenAll(plan, longs), shorts, |shorts|);
  }

  /**
   * Optimality: no cover of the same book, in whatever order its legs are listed, leaves fewer contracts unprotected.
   */
  lemma AllocatorIsOptimal(legs: seq<PositionLeg>, c: Cover)
    requires IsCoverOf(c, legs)
    ensures ContractsLeftUnprotected(legs) <= UncoveredBy(c)
  {
    var shorts, longs := ServingOrder(legs), Longs(legs);
    var free, left := FreeTable(shorts, longs), LeftOver(shorts, longs);
    var rows := (s: PositionLeg) => InDeficit(shorts, left, s);
    var cols := (l: PositionLeg) => NearDeficit(shorts, left, l);
    AllocatorAchieves(legs);
    AllocatorServes(shorts, longs);
    DeficitIsTheCut(shorts, longs, free, left, rows, cols);
    DeficitCutIsCut(shorts, longs, left, rows, cols);
    EveryPlanPaysTheCut(c.shorts, c.longs, c.plan, rows, cols);
    ContractsPermute(c.shorts, shorts, rows);
    ContractsPermute(c.longs, longs, cols);
  }

  /* ---- exactness ---- */

  ghost function AsConstrainedAs(s: PositionLeg): PositionLeg -> bool {
    (t: PositionLeg) => IsShort(t) && SameSeries(t, s) && ConstraintRank(t) <= ConstraintRank(s)
  }

  ghost function ProtectorsOf(s: PositionLeg): PositionLeg -> bool {
    (l: PositionLeg) => IsLong(l) && IsProtectiveLongFor(s, l)
  }

  /** At every short strike of every series, the equally or more constrained shorts fit into the eligible longs. */
  ghost predicate EnoughLongs(legs: seq<PositionLeg>) {
    forall s :: s in legs && IsShort(s) ==> Contracts(legs, AsConstrainedAs(s)) <= Contracts(legs, ProtectorsOf(s))
  }

  lemma DemandOfBook(legs: seq<PositionLeg>, shorts: seq<PositionLeg>, longs: seq<PositionLeg>, s: PositionLeg)
    requires multiset(shorts) == multiset(Shorts(legs)) && multiset(longs) == multiset(Longs(legs))
    ensures Contracts(shorts, AsConstrainedAs(s)) == Contracts(legs, AsConstrainedAs(s))
    ensures Contracts(longs, ProtectorsOf(s)) == Contracts(legs, ProtectorsOf(s))
  {
    ContractsPermute(shorts, Shorts(legs), AsConstrainedAs(s));
    ContractsPermute(longs, Longs(legs), ProtectorsOf(s));
    ContractsOfSelection(legs, IsShort, AsConstrainedAs(s), AsConstrainedAs(s));
    ContractsOfSelection(legs, IsLong, ProtectorsOf(s), ProtectorsOf(s));
  }

  lemma LongsAreLong(legs: seq<PositionLeg>, longs: seq<PositionLeg>, j: nat)
    requires multiset(longs) == multiset(Longs(legs)) && j < |longs|
    ensures IsLong(longs[j])
  {
    assert longs[j] in multiset(longs);
    assert longs[j] in Longs(legs);
  }

  lemma ConstrainedCutIsCut(legs: seq<PositionLeg>, shorts: seq<PositionLeg>, longs: seq<PositionLeg>, s: PositionLeg)
    requires multiset(longs) == multiset(Longs(legs))
    ensures IsCut(shorts, longs, AsConstrainedAs(s), ProtectorsOf(s))
  {
    var rows, cols := AsConstrainedAs(s), ProtectorsOf(s);
    forall i, j | 0 <= i < |shorts| && 0 <= j < |longs| && rows(shorts[i]) && IsProtectiveLongFor(shorts[i], longs[j])
      ensures cols(longs[j])
    {
      EligibilityIsNested(shorts[i], s, longs[j]);
      LongsAreLong(legs, longs, j);
    }
  }

  /** A full cover needs enough longs at every short strike. */
  lemma FullCoverNeedsEnoughLongs(legs: seq<PositionLeg>, c: Cover)
    requires IsCoverOf(c, legs) && UncoveredBy(c) <= 0
    ensures EnoughLongs(legs)
  {
    forall s | s in legs && IsShort(s) ensures Contracts(legs, AsConstrainedAs(s)) <= Contracts(legs, ProtectorsOf(s)) {
      ConstrainedCutIsCut(legs, c.shorts, c.longs, s);
      EveryPlanPaysTheCut(c.shorts, c.longs, c.plan, AsConstrainedAs(s), ProtectorsOf(s));
      DemandOfBook(legs, c.shorts, c.longs, s);
    }
  }

  /** A short left with a deficit witnesses a strike with too few longs. */
  lemma DeficitMeansTooFewLongs(legs: seq<PositionLeg>, k: nat)
    requires k < |ServingOrder(legs)| && LeftOver(ServingOrder(legs), Longs(legs))[k] > 0
    ensures !EnoughLongs(legs)
  {
    var shorts, longs := ServingOrder(legs), Longs(legs);
    var free, left := FreeTable(shorts, longs), LeftOver(shorts, longs);
    AllocatorServes(shorts, longs);
    DeficitBreaksTheCut(legs, shorts, longs, free, left, k);
    DemandOfBook(legs, shorts, longs, shorts[k]);
    assert shorts[k] in shorts;
    assert shorts[k] in legs && IsShort(shorts[k]);
  }

  lemma DeficitTightensTheCut(legs: seq<PositionLeg>, shorts: seq<PositionLeg>, longs: seq<PositionLeg>,
                              free: seq<seq<nat>>, left: seq<nat>, k: nat)
    requires IsServing(shorts, longs, free, left) && MostConstrainedFirst(shorts)
    requires multiset(shorts) == multiset(Shorts(legs)) && k < |shorts| && left[k] > 0
    ensures IsTight(PlanOf(shorts, longs, free, left), shorts, longs, AsConstrainedAs(shorts[k]),
                    ProtectorsOf(shorts[k]))
  {
    var plan := PlanOf(shorts, longs, free, left);
    var rows, cols := AsConstrainedAs(shorts[k]), ProtectorsOf(shorts[k]);
    forall j | 0 <= j < |longs| && cols(longs[j])
      ensures Taken(plan, shorts, Anything(), j, |shorts|) == longs[j].contracts
    {
      DeficitEmptiesEligible(shorts, longs, free, left, k, j);
    }
    forall i, j | 0 <= i < |shorts| && 0 <= j < |longs| && cols(longs[j]) && plan[i][j] > 0 ensures rows(shorts[i]) {
      TakersAreInDeficit(shorts, longs, free, left, k, i, j);
      ShortsAreShort(legs, shorts, i);
    }
  }

  lemma DeficitBreaksTheCut(legs: seq<PositionLeg>, shorts: seq<PositionLeg>, longs: seq<PositionLeg>,
                            free: seq<seq<nat>>, left: seq<nat>, k: nat)
    requires IsServing(shorts, longs, free, left) && MostConstrainedFirst(shorts)
    requires multiset(shorts) == multiset(Shorts(legs)) && multiset(longs) == multiset(Longs(legs))
    requires k < |shorts| && left[k] > 0
    ensures Contracts(shorts, AsConstrainedAs(shorts[k])) > Contracts(longs, ProtectorsOf(shorts[k]))
  {
    var plan := PlanOf(shorts, longs, free, left);
    var rows, cols := AsConstrainedAs(shorts[k]), ProtectorsOf(shorts[k]);
    PlanOfIsPlan(shorts, longs, free, left);
    ConstrainedCutIsCut(legs, shorts, longs, shorts[k]);
    DeficitTightensTheCut(legs, shorts, longs, free, left, k);
    CutBound(plan, shorts, longs, rows, cols);
    ShortsAreShort(legs, shorts, k);
    assert rows(shorts[k]) && GivenAll(plan, longs)[k] < Counts(shorts)[k];
    DeficitSplits(Counts(shorts), GivenAll(plan, longs), shorts, rows, |shorts|);
  }

  lemma ShortsAreShort(legs: seq<PositionLeg>, shorts: seq<PositionLeg>, i: nat)
    requires multiset(shorts) == multiset(Shorts(legs)) && i < |shorts|
    ensures IsShort(shorts[i])
  {
    assert shorts[i] in multiset(shorts);
    assert shorts[i] in Shorts(legs);
  }

  lemma {:induction false} SumIsZero(v: seq<nat>, tags: seq<PositionLeg>, n: nat)
    requires n <= |v| && n <= |tags|
    ensures Part(v, tags, Anything(), n) == 0 <==> forall i :: 0 <= i < n ==> v[i] == 0
  {
    if n > 0 { SumIsZero(v, tags, n - 1); }
  }

  lemma {:induction false} ReportEmptyMeansNoneLeft(shorts: seq<PositionLeg>, left: seq<nat>, n: nat)
    requires n <= |shorts| == |left|
    ensures Reported(shorts, left, n) == [] <==> forall i :: 0 <= i < n ==> left[i] == 0
  {
    if n > 0 { ReportEmptyMeansNoneLeft(shorts, left, n - 1); }
  }

  lemma NothingReportedNothingLeft(legs: seq<PositionLeg>)
    ensures FullyProtected(legs) <==> ContractsLeftUnprotected(legs) == 0
    ensures !FullyProtected(legs) ==>
        exists k :: 0 <= k < |ServingOrder(legs)| && LeftOver(ServingOrder(legs), Longs(legs))[k] > 0
  {
    var shorts, longs := ServingOrder(legs), Longs(legs);
    ReportEmptyMeansNoneLeft(shorts, LeftOver(shorts, longs), |shorts|);
    SumIsZero(LeftOver(shorts, longs), shorts, |shorts|);
  }

  lemma ProtectedIffEnoughLongs(legs: seq<PositionLeg>)
    ensures FullyProtected(legs) <==> EnoughLongs(legs)
  {
    NothingReportedNothingLeft(legs);
    if FullyProtected(legs) {
      AllocatorAchieves(legs);
      FullCoverNeedsEnoughLongs(legs, AllocatorsCover(legs));
    } else {
      var k :| 0 <= k < |ServingOrder(legs)| && LeftOver(ServingOrder(legs), Longs(legs))[k] > 0;
      DeficitMeansTooFewLongs(legs, k);
    }
  }

  lemma ProtectedIffCoverable(legs: seq<PositionLeg>)
    ensures FullyProtected(legs) <==> exists c :: IsCoverOf(c, legs) && UncoveredBy(c) == 0
  {
    NothingReportedNothingLeft(legs);
    AllocatorAchieves(legs);
    if c :| IsCoverOf(c, legs) && UncoveredBy(c) == 0 { AllocatorIsOptimal(legs, c); }
  }

  /** Exactness: nothing is reported iff a full cover exists iff every short strike has enough longs. */
  lemma VerdictIsExact(legs: seq<PositionLeg>)
    ensures FullyProtected(legs) <==> exists c :: IsCoverOf(c, legs) && UncoveredBy(c) == 0
    ensures FullyProtected(legs) <==> EnoughLongs(legs)
    ensures FullyProtected(legs) <==> ContractsLeftUnprotected(legs) == 0
  {
    ProtectedIffCoverable(legs);
    ProtectedIffEnoughLongs(legs);
    NothingReportedNothingLeft(legs);
  }

  /* ---- stability ---- */

  lemma SameExposureSameDemand(a: seq<PositionLeg>, b: seq<PositionLeg>, s: PositionLeg)
    requires SameExposure(a, b)
    ensures Contracts(a, AsConstrainedAs(s)) == Contracts(b, AsConstrainedAs(s))
    ensures Contracts(a, ProtectorsOf(s)) == Contracts(b, ProtectorsOf(s))
  {
    ExposureDecides(a, b, AsConstrainedAs(s));
    ExposureDecides(a, b, ProtectorsOf(s));
  }

  lemma EnoughLongsFollowsExposure(a: seq<PositionLeg>, b: seq<PositionLeg>)
    requires SameExposure(a, b) && EnoughLongs(a)
    ensures EnoughLongs(b)
  {
    forall s | s in b && IsShort(s) ensures Contracts(b, AsConstrainedAs(s)) <= Contracts(b, ProtectorsOf(s)) {
      PresentMeansExposed(b, s);
      ExposedMeansPresent(a, ProfileOf(s));
      var t :| t in a && ProfileOf(t) == ProfileOf(s);
      SameExposureSameDemand(a, b, t);
      PartAgrees(Counts(b), Counts(b), b, AsConstrainedAs(s), AsConstrainedAs(t), |b|);
      PartAgrees(Counts(b), Counts(b), b, ProtectorsOf(s), ProtectorsOf(t), |b|);
    }
  }

  /** Stability: the verdict depends on the exposure only, so not on leg order, on splits, on symbols or on prices. */
  lemma VerdictDependsOnExposureOnly(a: seq<PositionLeg>, b: seq<PositionLeg>)
    requires SameExposure(a, b)
    ensures FullyProtected(a) <==> FullyProtected(b)
  {
    VerdictIsExact(a);
    VerdictIsExact(b);
    if EnoughLongs(a) { EnoughLongsFollowsExposure(a, b); }
    if EnoughLongs(b) { EnoughLongsFollowsExposure(b, a); }
  }

  lemma VerdictIgnoresOrder(a: seq<PositionLeg>, b: seq<PositionLeg>)
    requires multiset(a) == multiset(b)
    ensures FullyProtected(a) <==> FullyProtected(b)
  {
    PermutedBooksHaveSameExposure(a, b);
    VerdictDependsOnExposureOnly(a, b);
  }

  lemma VerdictIgnoresSplits(pre: seq<PositionLeg>, leg: PositionLeg, x: PositionLeg, y: PositionLeg,
                             post: seq<PositionLeg>)
    requires ProfileOf(x) == ProfileOf(y) == ProfileOf(leg) && x.contracts + y.contracts == leg.contracts
    ensures FullyProtected(pre + [leg] + post) <==> FullyProtected(pre + [x, y] + post)
  {
    SplitBooksHaveSameExposure(pre, leg, x, y, post);
    VerdictDependsOnExposureOnly(pre + [leg] + post, pre + [x, y] + post);
  }

  /** Monotonicity: more longs never turn a protected book into an unprotected one. */
  lemma LongsNeverHurt(legs: seq<PositionLeg>, extra: seq<PositionLeg>)
    requires FullyProtected(legs) && forall l :: l in extra ==> IsLong(l)
    ensures FullyProtected(legs + extra)
  {
    VerdictIsExact(legs);
    VerdictIsExact(legs + extra);
    forall s | s in legs + extra && IsShort(s)
      ensures Contracts(legs + extra, AsConstrainedAs(s)) <= Contracts(legs + extra, ProtectorsOf(s))
    {
      ContractsAppend(legs, extra, AsConstrainedAs(s));
      ContractsAppend(legs, extra, ProtectorsOf(s));
      NoShortDemand(extra, s);
    }
  }

  lemma {:induction false} NoShortDemand(longs: seq<PositionLeg>, s: PositionLeg)
    requires forall l :: l in longs ==> IsLong(l)
    ensures Contracts(longs, AsConstrainedAs(s)) == 0
  {
    if longs != [] {
      NoShortDemand(longs[1..], s);
      assert longs[0] in longs;
      assert longs == [longs[0]] + longs[1..];
      ContractsCons(longs[0], longs[1..], AsConstrainedAs(s));
    }
  }
}
