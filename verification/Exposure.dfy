/** Contract totals of a book: they do not depend on leg order, on how legs are split, or on symbols and prices. */
module Exposure {
  import opened Vocabulary
  import opened PositionLegs
  import opened Flow
  import opened Allocation
  import opened StableSort

  lemma {:induction false} PartOfPrefix(v: seq<nat>, tags: seq<PositionLeg>, w: seq<nat>, wtags: seq<PositionLeg>,
                                        keep: PositionLeg -> bool, n: nat)
    requires n <= |v| <= |w| && n <= |tags| <= |wtags|
    requires forall i :: 0 <= i < n ==> w[i] == v[i] && wtags[i] == tags[i]
    ensures Part(w, wtags, keep, n) == Part(v, tags, keep, n)
  {
    if n > 0 { PartOfPrefix(v, tags, w, wtags, keep, n - 1); }
  }

  function Own(x: PositionLeg, keep: PositionLeg -> bool): nat { if keep(x) then x.contracts else 0 }

  lemma ContractsSnoc(legs: seq<PositionLeg>, x: PositionLeg, keep: PositionLeg -> bool)
    ensures Contracts(legs + [x], keep) == Contracts(legs, keep) + Own(x, keep)
  {
    PartOfPrefix(Counts(legs), legs, Counts(legs + [x]), legs + [x], keep, |legs|);
  }

  lemma {:induction false} ContractsAppend(a: seq<PositionLeg>, b: seq<PositionLeg>, keep: PositionLeg -> bool)
    ensures Contracts(a + b, keep) == Contracts(a, keep) + Contracts(b, keep)
  {
    if b == [] {
      assert a + b == a;
    } else {
      var rest, x := b[..|b| - 1], b[|b| - 1];
      assert b == rest + [x] && a + b == (a + rest) + [x];
      ContractsSnoc(rest, x, keep);
      ContractsSnoc(a + rest, x, keep);
      ContractsAppend(a, rest, keep);
    }
  }

  lemma ContractsCons(x: PositionLeg, legs: seq<PositionLeg>, keep: PositionLeg -> bool)
    ensures Contracts([x] + legs, keep) == Own(x, keep) + Contracts(legs, keep)
  {
    ContractsAppend([x], legs, keep);
    ContractsSnoc([], x, keep);
    assert [] + [x] == [x];
  }

  lemma ContractsRemove(b: seq<PositionLeg>, p: nat, keep: PositionLeg -> bool)
    requires p < |b|
    ensures Contracts(b, keep) == Own(b[p], keep) + Contracts(b[..p] + b[p + 1..], keep)
  {
    var pre, post := b[..p], b[p + 1..];
    assert b == pre + ([b[p]] + post);
    ContractsAppend(pre, post, keep);
    ContractsAppend(pre, [b[p]] + post, keep);
    ContractsCons(b[p], post, keep);
  }

  lemma ContractsSplitOff(a: seq<PositionLeg>, b: seq<PositionLeg>, i: nat, keep: PositionLeg -> bool)
    requires a != [] && i < |b| && keep(a[0]) == keep(b[i]) && a[0].contracts == b[i].contracts
    requires Contracts(a[1..], keep) == Contracts(b[..i] + b[i + 1..], keep)
    ensures Contracts(a, keep) == Contracts(b, keep)
  {
    ContractsRemove(b, i, keep);
    assert Contracts(a, keep) == Own(a[0], keep) + Contracts(a[1..], keep) by {
      assert a == [a[0]] + a[1..];
      ContractsCons(a[0], a[1..], keep);
    }
  }

  /** Totals do not depend on the order of the legs. */
  lemma {:induction false} ContractsPermute(a: seq<PositionLeg>, b: seq<PositionLeg>, keep: PositionLeg -> bool)
    requires multiset(a) == multiset(b)
    ensures Contracts(a, keep) == Contracts(b, keep)
  {
    if a == [] {
      assert |multiset(b)| == 0;
    } else {
      assert a[0] in multiset(a);
      var p :| 0 <= p < |b| && b[p] == a[0];
      RemoveFromMultiset(a, b, p);
      ContractsPermute(a[1..], b[..p] + b[p + 1..], keep);
      ContractsSplitOff(a, b, p, keep);
    }
  }

  /** Totals over a selection are totals over the whole book with a narrower condition. */
  lemma {:induction false} ContractsOfSelection(legs: seq<PositionLeg>, f: PositionLeg -> bool,
                                                keep: PositionLeg -> bool, both: PositionLeg -> bool)
    requires forall l :: both(l) <==> f(l) && keep(l)
    ensures Contracts(Select(legs, f), keep) == Contracts(legs, both)
  {
    if legs != [] {
      ContractsOfSelection(legs[1..], f, keep, both);
      assert legs == [legs[0]] + legs[1..];
      ContractsCons(legs[0], legs[1..], both);
      if f(legs[0]) {
        ContractsCons(legs[0], Select(legs[1..], f), keep);
      } else {
        assert [] + Select(legs[1..], f) == Select(legs[1..], f);
      }
    }
  }

  lemma {:induction false} PartGrows(v: seq<nat>, tags: seq<PositionLeg>, keep: PositionLeg -> bool, i: nat, n: nat)
    requires n <= |v| && n <= |tags| && i < n && keep(tags[i])
    ensures Part(v, tags, keep, n) >= v[i]
  {
    if i < n - 1 { PartGrows(v, tags, keep, i, n - 1); }
  }

  /* ---- exposure profiles ---- */

  /** Everything about a leg that matters for protection, apart from how many contracts it has. */
  datatype Profile = Profile(underlying: Underlying, expiration: string, optionType: OptionType, strike: real,
                             side: LegSide)

  function ProfileOf(l: PositionLeg): Profile {
    Profile(l.underlying, l.expiration, l.optionType, l.strike.value, l.side)
  }

  ghost function HasProfile(p: Profile): PositionLeg -> bool { (l: PositionLeg) => ProfileOf(l) == p }

  ghost function OtherProfile(p: Profile): PositionLeg -> bool { (l: PositionLeg) => ProfileOf(l) != p }

  /** Net contracts held in one line of the book. */
  ghost function ExposureTo(legs: seq<PositionLeg>, p: Profile): nat { Contracts(legs, HasProfile(p)) }

  ghost predicate SameExposure(a: seq<PositionLeg>, b: seq<PositionLeg>) {
    forall p :: ExposureTo(a, p) == ExposureTo(b, p)
  }

  ghost predicate ByProfile(keep: PositionLeg -> bool) {
    forall x, y :: ProfileOf(x) == ProfileOf(y) ==> keep(x) == keep(y)
  }

  ghost function Without(legs: seq<PositionLeg>, p: Profile): seq<PositionLeg> { Select(legs, OtherProfile(p)) }

  lemma {:induction false} WithoutIsShorter(legs: seq<PositionLeg>, p: Profile)
    ensures |Without(legs, p)| <= |legs|
    ensures (exists l :: l in legs && ProfileOf(l) == p) ==> |Without(legs, p)| < |legs|
  {
    if legs != [] { WithoutIsShorter(legs[1..], p); }
  }

  lemma {:induction false} ProfileSplitsOff(legs: seq<PositionLeg>, x: PositionLeg, keep: PositionLeg -> bool)
    requires ByProfile(keep)
    ensures Contracts(legs, keep)
         == Contracts(Without(legs, ProfileOf(x)), keep) + if keep(x) then ExposureTo(legs, ProfileOf(x)) else 0
  {
    if legs != [] {
      var p, rest := ProfileOf(x), legs[1..];
      ProfileSplitsOff(rest, x, keep);
      assert legs == [legs[0]] + rest;
      ContractsCons(legs[0], rest, keep);
      ContractsCons(legs[0], rest, HasProfile(p));
      if ProfileOf(legs[0]) != p {
        ContractsCons(legs[0], Without(rest, p), keep);
      } else {
        assert [] + Without(rest, p) == Without(rest, p);
      }
    }
  }

  lemma WithoutKeepsOtherExposure(legs: seq<PositionLeg>, p: Profile, q: Profile)
    ensures ExposureTo(Without(legs, p), q) == if q == p then 0 else ExposureTo(legs, q)
  {
    var both := (l: PositionLeg) => ProfileOf(l) == q && q != p;
    ContractsOfSelection(legs, OtherProfile(p), HasProfile(q), both);
    if q == p {
      PartAgrees(Counts(legs), seq(|legs|, i => 0), legs, both, both, |legs|);
      AllZero(legs, both);
    } else {
      PartAgrees(Counts(legs), Counts(legs), legs, both, HasProfile(q), |legs|);
    }
  }

  lemma {:induction false} AllZero(legs: seq<PositionLeg>, keep: PositionLeg -> bool)
    requires forall l :: !keep(l)
    ensures Contracts(legs, keep) == 0
  {
    if legs != [] {
      AllZero(legs[1..], keep);
      assert legs == [legs[0]] + legs[1..];
      ContractsCons(legs[0], legs[1..], keep);
    }
  }

  lemma PresentMeansExposed(legs: seq<PositionLeg>, l: PositionLeg)
    requires l in legs
    ensures ExposureTo(legs, ProfileOf(l)) > 0
  {
    var i :| 0 <= i < |legs| && legs[i] == l;
    PartGrows(Counts(legs), legs, HasProfile(ProfileOf(l)), i, |legs|);
  }

  lemma {:induction false} ExposedMeansPresent(legs: seq<PositionLeg>, p: Profile)
    requires ExposureTo(legs, p) > 0
    ensures exists l :: l in legs && ProfileOf(l) == p
  {
    if legs != [] {
      assert legs == [legs[0]] + legs[1..];
      ContractsCons(legs[0], legs[1..], HasProfile(p));
      if ProfileOf(legs[0]) != p { ExposedMeansPresent(legs[1..], p); }
    }
  }

  /** Books with the same exposure have the same total for every condition on profiles. */
  lemma {:induction false} ExposureDecides(a: seq<PositionLeg>, b: seq<PositionLeg>, keep: PositionLeg -> bool)
    requires SameExposure(a, b) && ByProfile(keep)
    ensures Contracts(a, keep) == Contracts(b, keep)
    decreases |a|
  {
    if a == [] {
      if b != [] {
        assert ExposureTo(a, ProfileOf(b[0])) == 0;
        PresentMeansExposed(b, b[0]);
      }
    } else {
      var p := ProfileOf(a[0]);
      WithoutIsShorter(a, p);
      forall q ensures ExposureTo(Without(a, p), q) == ExposureTo(Without(b, p), q) {
        WithoutKeepsOtherExposure(a, p, q);
        WithoutKeepsOtherExposure(b, p, q);
      }
      ExposureDecides(Without(a, p), Without(b, p), keep);
      ProfileSplitsOff(a, a[0], keep);
      ProfileSplitsOff(b, a[0], keep);
    }
  }

  /** Reordering keeps exposure. */
  lemma PermutedBooksHaveSameExposure(a: seq<PositionLeg>, b: seq<PositionLeg>)
    requires multiset(a) == multiset(b)
    ensures SameExposure(a, b)
  {
    forall p ensures ExposureTo(a, p) == ExposureTo(b, p) { ContractsPermute(a, b, HasProfile(p)); }
  }

  /** Splitting one leg into two with the same profile and the same total keeps exposure. */
  lemma SplitBooksHaveSameExposure(pre: seq<PositionLeg>, leg: PositionLeg, x: PositionLeg, y: PositionLeg,
                                   post: seq<PositionLeg>)
    requires ProfileOf(x) == ProfileOf(y) == ProfileOf(leg) && x.contracts + y.contracts == leg.contracts
    ensures SameExposure(pre + [leg] + post, pre + [x, y] + post)
  {
    forall p ensures ExposureTo(pre + [leg] + post, p) == ExposureTo(pre + [x, y] + post, p) {
      var keep := HasProfile(p);
      ContractsAppend(pre + [leg], post, keep);
      ContractsAppend(pre, [leg], keep);
      ContractsAppend(pre + [x, y], post, keep);
      ContractsAppend(pre, [x, y], keep);
      assert [x, y] == [x] + [y] && [leg] == [leg] + [] && [y] == [y] + [];
      ContractsCons(x, [y], keep);
      ContractsCons(y, [], keep);
      ContractsCons(leg, [], keep);
    }
  }
}
