/** Cumulative profit and drawdown of a replay run (replay/runner.py, replay/results.py). */
module Drawdown {
  import opened Wrappers

  datatype Pnl = Pnl(supported: bool, realized: Option<real>) {
    function Contribution(): real { if supported && realized.Some? then realized.value else 0.0 }
  }

  /** Cumulative realized profit of the first `n` results; unsupported results contribute nothing. */
  function Equity(results: seq<Pnl>, n: nat): real
    requires n <= |results|
  {
    if n == 0 then 0.0 else Equity(results, n - 1) + results[n - 1].Contribution()
  }

  /** `peak` is the largest equity so far, reached after `top` results. */
  ghost predicate IsPeak(results: seq<Pnl>, n: nat, top: nat, peak: real)
    requires n <= |results|
  {
    top <= n && peak == Equity(results, top) && forall a :: 0 <= a <= n ==> Equity(results, a) <= peak
  }

  /**
   * `d` is the decline from the equity after `i` results to the equity after `j`, and no decline up to `n` is larger.
   */
  ghost predicate IsLargestDecline(results: seq<Pnl>, n: nat, i: nat, j: nat, d: real)
    requires n <= |results|
  {
    && i <= j <= n && d == Equity(results, i) - Equity(results, j)
    && forall a, b :: 0 <= a <= b <= n ==> Equity(results, a) - Equity(results, b) <= d
  }

  lemma PeakExtends(results: seq<Pnl>, n: nat, top: nat, peak: real)
    requires n < |results| && IsPeak(results, n, top, peak)
    ensures var e := Equity(results, n + 1);
      if e > peak then IsPeak(results, n + 1, n + 1, e) else IsPeak(results, n + 1, top, peak)
  {
  }

  lemma DeclineExtends(results: seq<Pnl>, n: nat, top: nat, peak: real, i: nat, j: nat, d: real)
    requires n < |results| && IsPeak(results, n + 1, top, peak) && IsLargestDecline(results, n, i, j, d)
    ensures var fall := peak - Equity(results, n + 1);
      if fall > d then IsLargestDecline(results, n + 1, top, n + 1, fall) else IsLargestDecline(results, n + 1, i, j, d)
  {
    var fall := peak - Equity(results, n + 1);
    forall a, b | 0 <= a <= b <= n + 1 ensures Equity(results, a) - Equity(results, b) <= if fall > d then fall else d {
      if b == n + 1 { assert Equity(results, a) <= peak; }
    }
  }

  /** A result without a contribution moves neither the peak nor the decline. */
  lemma NothingMoves(results: seq<Pnl>, n: nat, top: nat, peak: real, i: nat, j: nat, d: real)
    requires n < |results| && results[n].Contribution() == 0.0
    requires IsPeak(results, n, top, peak) && IsLargestDecline(results, n, i, j, d)
    ensures Equity(results, n + 1) == Equity(results, n)
    ensures IsPeak(results, n + 1, top, peak) && IsLargestDecline(results, n + 1, i, j, d)
  {
    PeakExtends(results, n, top, peak);
    DeclineExtends(results, n, top, peak, i, j, d);
    assert Equity(results, top) - Equity(results, n) <= d;
  }

  /**
   * One pass computes the final equity and the largest peak-to-trough decline, counting the start as a possible peak.
   */
  method MaxDrawdown(results: seq<Pnl>) returns (cumulative: real, maxDrawdown: real)
    ensures cumulative == Equity(results, |results|)
    ensures exists i, j :: IsLargestDecline(results, |results|, i, j, maxDrawdown)
  {
    cumulative, maxDrawdown := 0.0, 0.0;
    var peak := 0.0;
    ghost var top, i, j: nat := 0, 0, 0;
    for n := 0 to |results|
      invariant cumulative == Equity(results, n)
      invariant IsPeak(results, n, top, peak)
      invariant IsLargestDecline(results, n, i, j, maxDrawdown)
    {
      if results[n].supported && results[n].realized.Some? {
        cumulative := cumulative + results[n].realized.value;
        PeakExtends(results, n, top, peak);
        if cumulative > peak { peak, top := cumulative, n + 1; }
        DeclineExtends(results, n, top, peak, i, j, maxDrawdown);
        if peak - cumulative > maxDrawdown { maxDrawdown, i, j := peak - cumulative, top, n + 1; }
      } else {
        NothingMoves(results, n, top, peak, i, j, maxDrawdown);
      }
    }
  }
}
