/**
 * The deterministic pre-trade gateway: every gate runs, every code is collected (gateway/gateway.py, gateway/gates.py).
 */
module Gateway {
  import opened Wrappers
  import opened Vocabulary
  import opened SafetyState
  import opened Trade

  /* ---- the gates ---- */

  function Codes(o: Option<ReasonCode>): seq<ReasonCode> { if o.Some? then [o.value] else [] }

  function CodeIf(violated: bool, code: ReasonCode): seq<ReasonCode> { if violated then [code] else [] }

  function GateAccountMode(a: AccountState): seq<ReasonCode> {
    CodeIf(!a.TypePermitted(), ACCOUNT_TYPE_NOT_PERMITTED) + CodeIf(a.BelowMinimumEquity(), MINIMUM_EQUITY_BREACH)
  }

  function GateInstrument(r: GatewayRequest): seq<ReasonCode> {
    CodeIf(r.instrument != r.candidate.underlying || !r.underlyingPolicy.Permits(r.candidate.underlying, r.asOf),
           INSTRUMENT_NOT_PERMITTED)
  }

  predicate ContractsMatchCandidate(m: SpreadContractMetadata, c: CandidateTradeIntent) {
    && m.shortContract.underlying == c.underlying && m.longContract.underlying == c.underlying
    && m.shortContract.optionType == c.shortLeg.optionType && m.longContract.optionType == c.longLeg.optionType
    && m.shortContract.strike == c.shortLeg.strike && m.longContract.strike == c.longLeg.strike
    && m.shortContract.multiplier == c.multiplier && m.longContract.multiplier == c.multiplier
  }

  function GateContractMetadata(r: GatewayRequest): seq<ReasonCode> {
    var s, l := r.spreadContract.shortContract, r.spreadContract.longContract;
    var mandate := CodeIf(!s.MandateCompliant() || !l.MandateCompliant(), CONTRACT_METADATA_INVALID);
    var tradable := s.TradableAt(r.asOf) && l.TradableAt(r.asOf);
    mandate
    + CodeIf(!tradable && CONTRACT_METADATA_INVALID !in mandate, CONTRACT_METADATA_INVALID)
    + CodeIf(!ContractsMatchCandidate(r.spreadContract, r.candidate), CONTRACT_SPREAD_MISMATCH)
  }

  function DerivedDte(env: Env, r: GatewayRequest): int {
    env.dayOf(r.spreadContract.shortContract.expirationTime) - env.dayOf(r.asOf)
  }

  function GateDrawdown(d: DrawdownHaltState): seq<ReasonCode> {
    if d.activeTier == NO_TIER then []
    else [DRAWDOWN_HALT_ACTIVE] + CodeIf(d.RequiresHumanRearm() && !d.humanRearmGranted, HUMAN_REARM_REQUIRED)
  }

  function GateEntryWindow(ctMinute: int): seq<ReasonCode> {
    CodeIf(!(9 * 60 + 45 <= ctMinute < 13 * 60), ENTRY_WINDOW_CLOSED)
  }

  predicate BlackoutActive(calendar: seq<EventBlackout>, asOf: Time) {
    exists i :: 0 <= i < |calendar| && calendar[i].ActiveAt(asOf)
  }

  predicate ZeroDteLate(env: Env, r: GatewayRequest) {
    DerivedDte(env, r) == 0 && env.ctMinuteOf(r.asOf) >= 14 * 60
  }

  /** What each gate reports, in the order in which the gateway runs them. */
  function GateOutputs(env: Env, r: GatewayRequest): seq<seq<ReasonCode>> {
    [ GateAccountMode(r.account),
      GateInstrument(r),
      GateContractMetadata(r),
      CodeIf(r.candidate.dte != DerivedDte(env, r), DTE_MISMATCH),
      CodeIf(!r.candidate.ShortDeltaWithinCap(), DELTA_BAND_VIOLATION),
      CodeIf(r.strategyStage != LIVE_STAGE, STRATEGY_NOT_LIVE_APPROVED),
      Codes(HeatReason(r.heat)),
      CodeIf(!r.concentration.Passes(), CONCENTRATION_LIMIT_EXCEEDED),
      CodeIf(!r.liquidity.Passes(), LIQUIDITY_GATE_FAILED),
      CodeIf(r.executionQuality.Suspended(), EXECUTION_QUALITY_SUSPENDED),
      GateDrawdown(r.drawdown),
      CodeIf(r.protection.Violated(), PROTECTION_HIERARCHY_VIOLATION),
      CodeIf(r.multiLeg.Violated(), PROTECTION_HIERARCHY_VIOLATION),
      GateEntryWindow(env.ctMinuteOf(r.asOf)),
      CodeIf(BlackoutActive(r.eventCalendar, r.asOf), EVENT_BLACKOUT_ACTIVE),
      Codes(r.dataSnapshot.FreshnessReason(r.asOf, ZeroDteLate(env, r))),
      CodeIf(!r.priceCheck.WithinTolerance(), SECONDARY_FEED_MISMATCH),
      CodeIf(!r.feedCertification.ValidForLive(r.asOf, r.candidate.underlying == SPX), SECONDARY_FEED_NOT_CERTIFIED) ]
  }

  /* ---- collecting codes ---- */

  function Flatten(lists: seq<seq<ReasonCode>>): seq<ReasonCode> {
    if lists == [] then [] else Flatten(lists[..|lists| - 1]) + lists[|lists| - 1]
  }

  /** Position of the first occurrence of `c`. */
  ghost function FirstIndex(s: seq<ReasonCode>, c: ReasonCode): (i: nat)
    requires c in s
    ensures i < |s| && s[i] == c && c !in s[..i]
  {
    if s[0] == c then 0 else 1 + FirstIndex(s[1..], c)
  }

  /** Keeps each code where it occurs first. */
  function FirstOccurrences(s: seq<ReasonCode>): (r: seq<ReasonCode>)
    ensures forall c :: c in r <==> c in s
    ensures forall i, j :: 0 <= i < j < |r| ==> r[i] != r[j]
  {
    if s == [] then []
    else
      var before, last := s[..|s| - 1], s[|s| - 1];
      assert s == before + [last];
      var r := FirstOccurrences(before);
      if last in r then r else r + [last]
  }

  lemma {:induction false} FirstIndexInPrefix(s: seq<ReasonCode>, t: seq<ReasonCode>, c: ReasonCode)
    requires c in s
    ensures c in s + t && FirstIndex(s + t, c) == FirstIndex(s, c)
  {
    if s[0] != c {
      FirstIndexInPrefix(s[1..], t, c);
      assert (s + t)[1..] == s[1..] + t;
    }
  }

  /** The order of the collected codes is the order of their first occurrences. */
  lemma {:induction false} OrderedByFirstOccurrence(s: seq<ReasonCode>, i: nat, j: nat)
    requires i < j < |FirstOccurrences(s)|
    ensures FirstIndex(s, FirstOccurrences(s)[i]) < FirstIndex(s, FirstOccurrences(s)[j])
  {
    var before, last := s[..|s| - 1], s[|s| - 1];
    assert s == before + [last];
    var r := FirstOccurrences(before);
    FirstIndexInPrefix(before, [last], r[i]);
    if j < |r| {
      FirstIndexInPrefix(before, [last], r[j]);
      OrderedByFirstOccurrence(before, i, j);
    }
  }

  lemma {:induction false} NothingToDrop(s: seq<ReasonCode>)
    requires forall i, j :: 0 <= i < j < |s| ==> s[i] != s[j]
    ensures FirstOccurrences(s) == s
  {
    if s != [] {
      NothingToDrop(s[..|s| - 1]);
      assert s == s[..|s| - 1] + [s[|s| - 1]];
    }
  }

  /* ---- the decision ---- */

  /** Exactly one of a validated intent and a rejection artifact. */
  datatype GatewayDecision = Approved(validated: ValidatedTradeIntent) | Refused(artifact: AuditArtifact) {
    function ReasonCodes(): seq<ReasonCode> { if Approved? then [] else artifact.reasonCodes }
  }

  function DirectionText(d: SpreadDirection): string { if d == PUT_CREDIT then "PUT_CREDIT" else "CALL_CREDIT" }

  function Prefix(s: string, n: nat): string { if |s| <= n then s else s[..n] }

  function Reject(env: Env, r: GatewayRequest, codes: seq<ReasonCode>): GatewayDecision {
    var deduped := FirstOccurrences(codes);
    var id := "gw-reject-" + UnderlyingText(r.candidate.underlying) + "-" + DirectionText(r.candidate.direction)
              + "-" + Prefix(env.decisionDigest(r, deduped), 16);
    Refused(AuditArtifact(id, r.asOf, "REJECT", deduped))
  }

  /** Mint the three tokens and assemble the validated intent; any failure here is a contradiction. */
  function Approve(env: Env, r: GatewayRequest): GatewayDecision {
    var heat := ApproveHeat(r.heat);
    var feed := MintFeedToken(r.feedCertification, r.asOf, r.candidate.underlying == SPX);
    var live := MintStrategyToken(r.strategyStage);
    if heat.Ok? && feed.Ok? && live.Ok? then
      var validated := ValidatedTradeIntent(r.candidate, heat.value, feed.value, live.value);
      if validated.Coherent() then Approved(validated)
      else Reject(env, r, [INTERNAL_CONTRADICTION])
    else Reject(env, r, [INTERNAL_CONTRADICTION])
  }

  function Decide(env: Env, r: GatewayRequest): GatewayDecision {
    var codes := FirstOccurrences(Flatten(GateOutputs(env, r)));
    if codes != [] then Reject(env, r, codes) else Approve(env, r)
  }

  /** Adds the codes of one gate to the running list, skipping the ones already there. */
  method AddAll(codes: seq<ReasonCode>, many: seq<ReasonCode>, ghost seen: seq<ReasonCode>) returns (r: seq<ReasonCode>)
    requires codes == FirstOccurrences(seen)
    ensures r == FirstOccurrences(seen + many)
  {
    r := codes;
    assert seen + many[..0] == seen;
    for i := 0 to |many|
      invariant r == FirstOccurrences(seen + many[..i])
    {
      assert (seen + many[..i + 1])[..|seen| + i] == seen + many[..i];
      if many[i] !in r { r := r + [many[i]]; }
    }
    assert many[..|many|] == many;
  }

  /** Collect-all validation over a mutable list of codes. */
  method Validate(env: Env, request: GatewayRequest) returns (d: GatewayDecision)
    ensures d == Decide(env, request)
  {
    var outputs := GateOutputs(env, request);
    var codes: seq<ReasonCode> := [];
    for i := 0 to |outputs|
      invariant codes == FirstOccurrences(Flatten(outputs[..i]))
    {
      assert outputs[..i + 1][..i] == outputs[..i];
      codes := AddAll(codes, outputs[i], Flatten(outputs[..i]));
    }
    assert outputs[..|outputs|] == outputs;
    if codes != [] { d := Reject(env, request, codes); } else { d := Approve(env, request); }
  }

  /* ---- the rules, stated without the gates ---- */

  /** Account, instrument, contract and proposal rules (Constitution sections 1A to 3). */
  ghost predicate ProposalRules(env: Env, r: GatewayRequest) {
    var c, m := r.candidate, r.spreadContract;
    && r.account.accountType == MARGIN && r.account.netLiquidatingValue >= 20000.0
    && r.instrument == c.underlying && r.underlyingPolicy.Permits(c.underlying, r.asOf)
    && m.shortContract.TradableAt(r.asOf) && m.longContract.TradableAt(r.asOf) && ContractsMatchCandidate(m, c)
    && c.dte == DerivedDte(env, r)
    && -0.10 <= c.shortLeg.delta <= 0.10
    && r.strategyStage == LIVE_STAGE
  }

  /** Heat, concentration, liquidity, fill quality, drawdown and protection rules (sections 4 to 8). */
  ghost predicate RiskRules(r: GatewayRequest) {
    && r.heat.RiskHeatPct() <= 6.0 && r.heat.BuyingPowerHeatPct() <= 35.0
    && r.concentration.Passes() && r.liquidity.Passes() && !r.executionQuality.Suspended()
    && r.drawdown.activeTier == NO_TIER
    && !r.protection.Violated() && !r.multiLeg.Violated()
  }

  /**
   * Entry window, blackout, freshness and feed rules (sections 9 to 11).  The late-day freshness tightening does not
   * appear: it starts at 14:00, an hour after the entry window has closed.
   */
  ghost predicate MarketRules(env: Env, r: GatewayRequest) {
    && 585 <= env.ctMinuteOf(r.asOf) < 780
    && (forall b :: b in r.eventCalendar ==> !b.ActiveAt(r.asOf))
    && r.dataSnapshot.FreshnessReason(r.asOf, false).None?
    && r.priceCheck.WithinTolerance()
    && r.feedCertification.ValidForLive(r.asOf, r.candidate.underlying == SPX)
  }

  /** A request that may trade: every written rule holds at once. */
  ghost predicate Eligible(env: Env, r: GatewayRequest) {
    ProposalRules(env, r) && RiskRules(r) && MarketRules(env, r)
  }

  ghost predicate Silent(g: seq<seq<ReasonCode>>, from: nat, to: nat) {
    forall i :: from <= i < to && i < |g| ==> g[i] == []
  }

  lemma SilentProposalGates(env: Env, r: GatewayRequest)
    ensures Silent(GateOutputs(env, r), 0, 6) <==> ProposalRules(env, r)
  {
    var g := GateOutputs(env, r);
    assert Silent(g, 0, 6) <==> (g[0] == [] && g[1] == [] && g[2] == [] && g[3] == [] && g[4] == [] && g[5] == []);
  }

  lemma SilentRiskGates(env: Env, r: GatewayRequest)
    ensures Silent(GateOutputs(env, r), 6, 13) <==> RiskRules(r)
  {
    var g := GateOutputs(env, r);
    assert Silent(g, 6, 13)
      <==> (g[6] == [] && g[7] == [] && g[8] == [] && g[9] == [] && g[10] == [] && g[11] == [] && g[12] == []);
  }

  lemma SilentMarketGates(env: Env, r: GatewayRequest)
    ensures Silent(GateOutputs(env, r), 13, 18) <==> MarketRules(env, r)
  {
    var g := GateOutputs(env, r);
    assert Silent(g, 13, 18) <==> (g[13] == [] && g[14] == [] && g[15] == [] && g[16] == [] && g[17] == []);
    assert BlackoutActive(r.eventCalendar, r.asOf) <==> !(forall b :: b in r.eventCalendar ==> !b.ActiveAt(r.asOf));
  }

  lemma {:induction false} FlattenEmpty(lists: seq<seq<ReasonCode>>)
    ensures Flatten(lists) == [] <==> Silent(lists, 0, |lists|)
  {
    if lists != [] {
      var n := |lists| - 1;
      FlattenEmpty(lists[..n]);
      assert forall i :: 0 <= i < n ==> lists[..n][i] == lists[i];
    }
  }

  lemma {:induction false} FlattenHas(lists: seq<seq<ReasonCode>>, c: ReasonCode)
    requires forall i :: 0 <= i < |lists| ==> c !in lists[i]
    ensures c !in Flatten(lists)
  {
    if lists != [] { FlattenHas(lists[..|lists| - 1], c); }
  }

  ghost predicate NoContradiction(g: seq<seq<ReasonCode>>, from: nat, to: nat) {
    forall i :: from <= i < to && i < |g| ==> INTERNAL_CONTRADICTION !in g[i]
  }

  lemma FirstGatesNeverContradict(env: Env, r: GatewayRequest)
    ensures NoContradiction(GateOutputs(env, r), 0, 3)
  {
    var g := GateOutputs(env, r);
    assert INTERNAL_CONTRADICTION !in g[0] && INTERNAL_CONTRADICTION !in g[1] && INTERNAL_CONTRADICTION !in g[2];
  }

  lemma MiddleGatesNeverContradict(env: Env, r: GatewayRequest)
    ensures NoContradiction(GateOutputs(env, r), 3, 9)
  {
    var g := GateOutputs(env, r);
    assert INTERNAL_CONTRADICTION !in g[3] && INTERNAL_CONTRADICTION !in g[4] && INTERNAL_CONTRADICTION !in g[5];
    assert INTERNAL_CONTRADICTION !in g[6] && INTERNAL_CONTRADICTION !in g[7] && INTERNAL_CONTRADICTION !in g[8];
  }

  lemma LateGatesNeverContradict(env: Env, r: GatewayRequest)
    ensures NoContradiction(GateOutputs(env, r), 9, 18)
  {
    var g := GateOutputs(env, r);
    assert INTERNAL_CONTRADICTION !in g[9] && INTERNAL_CONTRADICTION !in g[10] && INTERNAL_CONTRADICTION !in g[11];
    assert INTERNAL_CONTRADICTION !in g[12] && INTERNAL_CONTRADICTION !in g[13] && INTERNAL_CONTRADICTION !in g[14];
    assert INTERNAL_CONTRADICTION !in g[15] && INTERNAL_CONTRADICTION !in g[16] && INTERNAL_CONTRADICTION !in g[17];
  }

  /** No gate reports a contradiction. */
  lemma GatesNeverContradict(env: Env, r: GatewayRequest)
    ensures INTERNAL_CONTRADICTION !in Flatten(GateOutputs(env, r))
  {
    FirstGatesNeverContradict(env, r);
    MiddleGatesNeverContradict(env, r);
    LateGatesNeverContradict(env, r);
    FlattenHas(GateOutputs(env, r), INTERNAL_CONTRADICTION);
  }

  lemma CollectedCodesAreEmptyIffEligible(env: Env, r: GatewayRequest)
    ensures FirstOccurrences(Flatten(GateOutputs(env, r))) == [] <==> Eligible(env, r)
  {
    var g := GateOutputs(env, r);
    FlattenEmpty(g);
    assert Silent(g, 0, 18) <==> Silent(g, 0, 6) && Silent(g, 6, 13) && Silent(g, 13, 18);
    SilentProposalGates(env, r);
    SilentRiskGates(env, r);
    SilentMarketGates(env, r);
    DroppingDuplicatesKeepsEmptiness(Flatten(g));
  }

  lemma DroppingDuplicatesKeepsEmptiness(s: seq<ReasonCode>)
    ensures FirstOccurrences(s) == [] <==> s == []
  {
    if s != [] { assert s[0] in FirstOccurrences(s); }
  }

  /** What any decision promises to its reader. */
  ghost predicate SoundDecision(r: GatewayRequest, d: GatewayDecision) {
    match d
    case Approved(v) =>
      v.candidate == r.candidate && v.Coherent() && v.approvedHeat.WithinCaps() && v.liveStrategy.stage == LIVE_STAGE
    case Refused(a) => a.Coherent() && a.decision == "REJECT" && a.reasonCodes != [] && a.createdAt == r.asOf
  }

  /**
   * The gateway approves exactly the eligible requests, reports each violated gate's codes once and in order of first
   * occurrence, never reports a contradiction, and hands the candidate on unchanged with tokens within their caps.
   */
  lemma GatewayIsExact(env: Env, r: GatewayRequest)
    ensures SoundDecision(r, Decide(env, r))
    ensures Decide(env, r).Approved? <==> Eligible(env, r)
    ensures Decide(env, r).ReasonCodes() == FirstOccurrences(Flatten(GateOutputs(env, r)))
    ensures INTERNAL_CONTRADICTION !in Decide(env, r).ReasonCodes()
  {
    var codes := FirstOccurrences(Flatten(GateOutputs(env, r)));
    CollectedCodesAreEmptyIffEligible(env, r);
    GatesNeverContradict(env, r);
    if codes == [] {
      ApproveNeverContradicts(env, r);
    } else {
      NothingToDrop(codes);
      assert Decide(env, r) == Reject(env, r, codes);
    }
  }

  /** Passing gates imply that every token mint and the assembly of the validated intent succeed. */
  lemma ApproveNeverContradicts(env: Env, r: GatewayRequest)
    requires Eligible(env, r)
    ensures SoundDecision(r, Approve(env, r)) && Approve(env, r).Approved?
  {
    QuotientIsNonNegative(r.heat.sumDefinedMaxLoss, r.heat.netLiquidatingValue);
    QuotientIsNonNegative(r.heat.brokerMarginRequirement, r.heat.netLiquidatingValue);
  }

  lemma QuotientIsNonNegative(x: real, y: real)
    requires x >= 0.0 && y > 0.0
    ensures x / y >= 0.0
  {
  }
}
