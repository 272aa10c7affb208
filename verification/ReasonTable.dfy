/**
 * Which reason codes the gateway reports, and in which order, read off the request's own fields (gateway/gates.py and
 * the schemas it reads): every threshold is written here as a number, independently of the gates.
 */
module ReasonTable {
  import opened Wrappers
  import opened Vocabulary
  import opened SafetyState
  import opened Trade
  import opened Gateway

  const MS: Time := 1000

  /** The codes a decision can carry, in the order in which it lists them. */
  const ReportingOrder: seq<ReasonCode> := [
    ACCOUNT_TYPE_NOT_PERMITTED, MINIMUM_EQUITY_BREACH, INSTRUMENT_NOT_PERMITTED, CONTRACT_METADATA_INVALID,
    CONTRACT_SPREAD_MISMATCH, DTE_MISMATCH, DELTA_BAND_VIOLATION, STRATEGY_NOT_LIVE_APPROVED, HEAT_LIMIT_EXCEEDED,
    BUYING_POWER_LIMIT_EXCEEDED, CONCENTRATION_LIMIT_EXCEEDED, LIQUIDITY_GATE_FAILED, EXECUTION_QUALITY_SUSPENDED,
    DRAWDOWN_HALT_ACTIVE, HUMAN_REARM_REQUIRED, PROTECTION_HIERARCHY_VIOLATION, ENTRY_WINDOW_CLOSED,
    EVENT_BLACKOUT_ACTIVE, DATA_TIMESTAMP_INVALID, PRICE_STALE, IVR_STALE, SECONDARY_FEED_MISMATCH,
    SECONDARY_FEED_NOT_CERTIFIED]

  /* ---- the rules behind the codes ---- */

  ghost predicate UnderlyingAllowed(r: GatewayRequest) {
    var p := r.underlyingPolicy;
    && p.effectiveAt <= r.asOf && (p.expiresAt.Some? ==> r.asOf <= p.expiresAt.value)
    && (r.candidate.underlying == XSP ==> p.xspEnabled) && (r.candidate.underlying == SPX ==> p.spxPhase2Enabled)
  }

  ghost predicate ContractUsable(m: ContractMetadata, asOf: Time) {
    m.exercise == EUROPEAN && m.settlement == CASH && asOf <= m.lastTradingTime
  }

  ghost predicate ContractIs(m: ContractMetadata, c: CandidateTradeIntent, leg: SpreadLeg) {
    m.underlying == c.underlying && m.optionType == leg.optionType && m.strike == leg.strike
        && m.multiplier == c.multiplier
  }

  ghost predicate Concentrated(s: ConcentrationSnapshot) {
    || s.concurrentSpreads > 4 || s.sameExpiry > 2 || s.sameDirection > 2
    || s.aggregateShortDelta > 0.30 || s.aggregateGammaPct > 2.0
    || (s.isZeroDte && (s.zeroDteConcurrent > 2 || s.zeroDteSameDirection > 1))
  }

  /** The width may not exceed ten cents or fifteen percent of the mid. */
  ghost predicate Illiquid(l: LiquidityGate) {
    || l.ask - l.bid > 0.10 || 100.0 * (l.ask - l.bid) > 15.0 * ((l.bid + l.ask) / 2.0)
    || l.bid < 0.05 || l.openInterest < 100 || l.topOfBookSize < 5
  }

  /** Minutes for which an event's window stays closed after its scheduled end. */
  function GraceMinutes(e: MacroEvent): int {
    if e == CPI_RELEASE || e == NFP_RELEASE then 30 else if e == FED_CHAIR_SPEECH then 15 else 0
  }

  ghost predicate InBlackout(r: GatewayRequest) {
    exists b :: b in r.eventCalendar
      && b.windowStart <= r.asOf <= b.windowEnd + GraceMinutes(b.event) * 60 * 1000 * MS
  }

  ghost predicate FromTheFuture(r: GatewayRequest) {
    var d := r.dataSnapshot;
    d.optionQuoteAt > r.asOf || d.underlyingPriceAt > r.asOf || d.vixAt > r.asOf || d.ivRankAt > r.asOf
  }

  /** Older than the limit by a whole millisecond at least. */
  ghost predicate OlderThan(t: Time, asOf: Time, limitMs: int) { asOf - t >= (limitMs + 1) * MS }

  ghost predicate PriceTooOld(env: Env, r: GatewayRequest) {
    var d := r.dataSnapshot;
    var lateZeroDte := DaysToExpiry(env, r) == 0 && env.ctMinuteOf(r.asOf) >= 840;
    || OlderThan(d.optionQuoteAt, r.asOf, if lateZeroDte then 500 else 1000)
    || OlderThan(d.underlyingPriceAt, r.asOf, 500)
  }

  ghost predicate VolatilityTooOld(r: GatewayRequest) {
    var d := r.dataSnapshot;
    OlderThan(d.vixAt, r.asOf, 5000) || OlderThan(d.ivRankAt, r.asOf, 10000) || !d.ivRankInputsFresh
  }

  function DaysToExpiry(env: Env, r: GatewayRequest): int {
    env.dayOf(r.spreadContract.shortContract.expirationTime) - env.dayOf(r.asOf)
  }

  ghost predicate Apart(x: real, y: real, d: real) { x - y > d || y - x > d }

  ghost predicate FeedsDisagree(p: PriceReconciliationCheck) {
    || Apart(100.0 * p.brokerOptionMid, 100.0 * p.secondaryOptionMid, 2.0 * p.brokerOptionMid)
    || Apart(p.brokerOptionMid, p.secondaryOptionMid, 0.03)
    || Apart(100.0 * p.brokerUnderlying, 100.0 * p.secondaryUnderlying, 0.25 * p.brokerUnderlying)
  }

  ghost predicate FeedCertified(r: GatewayRequest) {
    var f := r.feedCertification;
    && f.status == CERTIFIED && r.asOf <= f.certifiedAt + 30 * 24 * 60 * 60 * 1000 * MS && f.pendingTriggers == []
    && f.latencyWithinThresholds && f.mappingConsistent && f.coversXsp
       && (r.candidate.underlying == SPX ==> f.coversSpx)
  }

  /** Whether the request breaks the rule that the code stands for. */
  ghost predicate Violates(env: Env, r: GatewayRequest, code: ReasonCode) {
    var c, m, d := r.candidate, r.spreadContract, r.drawdown;
    match code
    case ACCOUNT_TYPE_NOT_PERMITTED => r.account.accountType != MARGIN
    case MINIMUM_EQUITY_BREACH => r.account.netLiquidatingValue < 20000.0
    case INSTRUMENT_NOT_PERMITTED => r.instrument != c.underlying || !UnderlyingAllowed(r)
    case CONTRACT_METADATA_INVALID => !ContractUsable(m.shortContract, r.asOf)
        || !ContractUsable(m.longContract, r.asOf)
    case CONTRACT_SPREAD_MISMATCH => !ContractIs(m.shortContract, c, c.shortLeg)
        || !ContractIs(m.longContract, c, c.longLeg)
    case DTE_MISMATCH => c.dte != DaysToExpiry(env, r)
    case DELTA_BAND_VIOLATION => Apart(c.shortLeg.delta, 0.0, 0.10)
    case STRATEGY_NOT_LIVE_APPROVED => r.strategyStage != LIVE_STAGE
    case HEAT_LIMIT_EXCEEDED => 100.0 * r.heat.sumDefinedMaxLoss > 6.0 * r.heat.netLiquidatingValue
    case BUYING_POWER_LIMIT_EXCEEDED =>
      && 100.0 * r.heat.sumDefinedMaxLoss <= 6.0 * r.heat.netLiquidatingValue
      && 100.0 * r.heat.brokerMarginRequirement > 35.0 * r.heat.netLiquidatingValue
    case CONCENTRATION_LIMIT_EXCEEDED => Concentrated(r.concentration)
    case LIQUIDITY_GATE_FAILED => Illiquid(r.liquidity)
    case EXECUTION_QUALITY_SUSPENDED =>
      var q := r.executionQuality;
      !q.rearmTokenPresent && (q.rollingAvgSlippage > 0.05 || q.failedFillAttempts > 3)
    case DRAWDOWN_HALT_ACTIVE => d.activeTier != NO_TIER
    case HUMAN_REARM_REQUIRED => (d.activeTier == WEEKLY || d.activeTier == TRAILING) && !d.humanRearmGranted
    case PROTECTION_HIERARCHY_VIOLATION =>
      var p, l := r.protection, r.multiLeg;
      || (!p.isEmergencyClose && (!p.longLegConfirmed || p.agentManagedStopOnly))
      || (l.legging && !l.atomicCombo && !l.longLegFirst)
    case ENTRY_WINDOW_CLOSED => env.ctMinuteOf(r.asOf) < 585 || env.ctMinuteOf(r.asOf) >= 780
    case EVENT_BLACKOUT_ACTIVE => InBlackout(r)
    case DATA_TIMESTAMP_INVALID => FromTheFuture(r)
    case PRICE_STALE => !FromTheFuture(r) && PriceTooOld(env, r)
    case IVR_STALE => !FromTheFuture(r) && !PriceTooOld(env, r) && VolatilityTooOld(r)
    case SECONDARY_FEED_MISMATCH => FeedsDisagree(r.priceCheck)
    case SECONDARY_FEED_NOT_CERTIFIED => !FeedCertified(r)
    case _ => false
  }

  ghost function Breaks(env: Env, r: GatewayRequest): ReasonCode -> bool { (c: ReasonCode) => Violates(env, r, c) }

  /** The kept codes at positions `lo` to `hi`, in order. */
  ghost function Kept(order: seq<ReasonCode>, keep: ReasonCode -> bool, lo: nat, hi: nat): seq<ReasonCode>
    requires lo <= hi <= |order|
  {
    if hi == lo then [] else Kept(order, keep, lo, hi - 1) + if keep(order[hi - 1]) then [order[hi - 1]] else []
  }

  /** The codes of all rules the request breaks, in reporting order. */
  ghost function BrokenRules(env: Env, r: GatewayRequest): seq<ReasonCode> {
    Kept(ReportingOrder, Breaks(env, r), 0, |ReportingOrder|)
  }

  /* ---- collecting, gate by gate ---- */

  lemma {:induction false} FlattenAppend(a: seq<seq<ReasonCode>>, b: seq<seq<ReasonCode>>)
    ensures Flatten(a + b) == Flatten(a) + Flatten(b)
  {
    if b == [] {
      assert a + b == a;
    } else {
      var n := |b| - 1;
      FlattenAppend(a, b[..n]);
      assert (a + b)[..|a + b| - 1] == a + b[..n];
    }
  }

  /** Codes that are new stay as they are behind the codes collected so far. */
  lemma {:induction false} NewCodesFollow(s: seq<ReasonCode>, t: seq<ReasonCode>)
    requires forall c :: c in t ==> c !in s
    ensures FirstOccurrences(s + t) == FirstOccurrences(s) + FirstOccurrences(t)
  {
    if t == [] {
      assert s + t == s;
    } else {
      var before, last := t[..|t| - 1], t[|t| - 1];
      assert t == before + [last] && (s + t)[..|s + t| - 1] == s + before;
      NewCodesFollow(s, before);
      assert last in FirstOccurrences(s + before) <==> last in FirstOccurrences(before);
    }
  }

  /** The two protection gates share one code, so their outputs count as one. */
  function Outputs(env: Env, r: GatewayRequest): seq<seq<ReasonCode>> {
    var g := GateOutputs(env, r);
    g[..11] + [g[11] + g[12]] + g[13..]
  }

  lemma OutputsFlatten(env: Env, r: GatewayRequest)
    ensures Flatten(Outputs(env, r)) == Flatten(GateOutputs(env, r))
  {
    var g := GateOutputs(env, r);
    var pair := [g[11], g[12]];
    FlattenAppend(g[..11], pair);
    FlattenAppend(g[..11] + pair, g[13..]);
    FlattenAppend(g[..11], [g[11] + g[12]]);
    FlattenAppend(g[..11] + [g[11] + g[12]], g[13..]);
    assert g == g[..11] + pair + g[13..];
    assert pair[..1] == [g[11]] && Flatten([g[11]]) == Flatten([]) + g[11];
    assert Flatten(pair) == g[11] + g[12] == Flatten([g[11] + g[12]]);
  }

  /** How many codes of the reporting order the first outputs can contribute. */
  const Reach: seq<nat> := [0, 2, 3, 5, 6, 7, 8, 10, 11, 12, 13, 15, 16, 17, 18, 21, 22, 23]

  lemma {:induction false} KeptJoins(order: seq<ReasonCode>, keep: ReasonCode -> bool, lo: nat, mid: nat, hi: nat)
    requires lo <= mid <= hi <= |order|
    ensures Kept(order, keep, lo, hi) == Kept(order, keep, lo, mid) + Kept(order, keep, mid, hi)
  {
    if mid < hi { KeptJoins(order, keep, lo, mid, hi - 1); }
  }

  lemma {:induction false} KeptCodes(order: seq<ReasonCode>, keep: ReasonCode -> bool, lo: nat, hi: nat, c: ReasonCode)
    requires lo <= hi <= |order|
    ensures c in Kept(order, keep, lo, hi) <==> keep(c) && exists i :: lo <= i < hi && order[i] == c
  {
    if lo < hi { KeptCodes(order, keep, lo, hi - 1, c); }
  }

  ghost predicate Distinct(order: seq<ReasonCode>) {
    forall i, j :: 0 <= i < j < |order| ==> order[i] != order[j]
  }

  lemma CollectOne(s: seq<ReasonCode>, out: seq<ReasonCode>, order: seq<ReasonCode>, keep: ReasonCode -> bool,
                   lo: nat, hi: nat)
    requires Distinct(order) && lo <= hi <= |order|
    requires FirstOccurrences(s) == Kept(order, keep, 0, lo) && FirstOccurrences(out) == Kept(order, keep, lo, hi)
    ensures FirstOccurrences(s + out) == Kept(order, keep, 0, hi)
  {
    forall c | c in out ensures c !in s {
      KeptCodes(order, keep, lo, hi, c);
      KeptCodes(order, keep, 0, lo, c);
      assert c in FirstOccurrences(out);
      assert c in s <==> c in FirstOccurrences(s);
    }
    NewCodesFollow(s, out);
    KeptJoins(order, keep, 0, lo, hi);
  }

  /** Output `k` keeps what the order keeps between two marks. */
  ghost predicate Contributes(out: seq<ReasonCode>, order: seq<ReasonCode>, keep: ReasonCode -> bool, lo: nat,
                              hi: nat)
  {
    lo <= hi <= |order| && FirstOccurrences(out) == Kept(order, keep, lo, hi)
  }

  ghost predicate AllContribute(outputs: seq<seq<ReasonCode>>, order: seq<ReasonCode>, keep: ReasonCode -> bool,
                                marks: seq<nat>) {
    && |marks| == |outputs| + 1 && marks[0] == 0
    && forall k :: 0 <= k < |outputs| ==> Contributes(outputs[k], order, keep, marks[k], marks[k + 1])
  }

  /** Outputs that keep what the order keeps, mark by mark, collect to what the whole order keeps. */
  lemma {:induction false} CollectedIsKept(outputs: seq<seq<ReasonCode>>, order: seq<ReasonCode>,
                                           keep: ReasonCode -> bool, marks: seq<nat>, n: nat)
    requires Distinct(order) && n <= |outputs| && AllContribute(outputs, order, keep, marks)
    ensures marks[n] <= |order| && FirstOccurrences(Flatten(outputs[..n])) == Kept(order, keep, 0, marks[n])
  {
    if n > 0 {
      CollectedIsKept(outputs, order, keep, marks, n - 1);
      assert Contributes(outputs[n - 1], order, keep, marks[n - 1], marks[n]);
      assert outputs[..n][..n - 1] == outputs[..n - 1];
      CollectOne(Flatten(outputs[..n - 1]), outputs[n - 1], order, keep, marks[n - 1], marks[n]);
    }
  }

  lemma AllIsKept(outputs: seq<seq<ReasonCode>>, order: seq<ReasonCode>, keep: ReasonCode -> bool, marks: seq<nat>)
    requires Distinct(order) && AllContribute(outputs, order, keep, marks) && marks[|outputs|] == |order|
    ensures FirstOccurrences(Flatten(outputs)) == Kept(order, keep, 0, |order|)
  {
    CollectedIsKept(outputs, order, keep, marks, |outputs|);
    assert outputs[..|outputs|] == outputs;
  }

  /* ---- each gate against its rules ---- */

  /** Position of a code in the reporting order; codes that no decision carries come after. */
  function Rank(c: ReasonCode): nat {
    match c
    case ACCOUNT_TYPE_NOT_PERMITTED => 0
    case MINIMUM_EQUITY_BREACH => 1
    case INSTRUMENT_NOT_PERMITTED => 2
    case CONTRACT_METADATA_INVALID => 3
    case CONTRACT_SPREAD_MISMATCH => 4
    case DTE_MISMATCH => 5
    case DELTA_BAND_VIOLATION => 6
    case STRATEGY_NOT_LIVE_APPROVED => 7
    case HEAT_LIMIT_EXCEEDED => 8
    case BUYING_POWER_LIMIT_EXCEEDED => 9
    case CONCENTRATION_LIMIT_EXCEEDED => 10
    case LIQUIDITY_GATE_FAILED => 11
    case EXECUTION_QUALITY_SUSPENDED => 12
    case DRAWDOWN_HALT_ACTIVE => 13
    case HUMAN_REARM_REQUIRED => 14
    case PROTECTION_HIERARCHY_VIOLATION => 15
    case ENTRY_WINDOW_CLOSED => 16
    case EVENT_BLACKOUT_ACTIVE => 17
    case DATA_TIMESTAMP_INVALID => 18
    case PRICE_STALE => 19
    case IVR_STALE => 20
    case SECONDARY_FEED_MISMATCH => 21
    case SECONDARY_FEED_NOT_CERTIFIED => 22
    case _ => 23
  }

  lemma RankIsPosition(i: nat)
    requires i < |ReportingOrder|
    ensures Rank(ReportingOrder[i]) == i
  {
  }

  lemma OrderIsDistinct()
    ensures Distinct(ReportingOrder)
  {
    forall i, j | 0 <= i < j < |ReportingOrder| ensures ReportingOrder[i] != ReportingOrder[j] {
      RankIsPosition(i);
      RankIsPosition(j);
    }
  }

  lemma PercentOf(x: real, y: real, p: real)
    requires y > 0.0
    ensures x / y * 100.0 > p <==> 100.0 * x > p * y
  {
    var q := x / y;
    assert q * y == x;
    if q * 100.0 > p { assert (q * 100.0) * y > p * y; } else { assert (q * 100.0) * y <= p * y; }
  }

  /** An output that reports one code iff its rule is broken. */
  lemma OneCode(env: Env, r: GatewayRequest, order: seq<ReasonCode>, out: seq<ReasonCode>, i: nat, c: ReasonCode)
    requires i < |order| && order[i] == c && out == CodeIf(Violates(env, r, c), c)
    ensures Contributes(out, order, Breaks(env, r), i, i + 1)
  {
    assert Kept(order, Breaks(env, r), i, i) == [];
    if out != [] { assert out[..0] == [] && FirstOccurrences([]) == []; }
  }

  lemma TwoCodes(env: Env, r: GatewayRequest, order: seq<ReasonCode>, out: seq<ReasonCode>, i: nat, c: ReasonCode,
                 d: ReasonCode)
    requires i + 1 < |order| && order[i] == c && order[i + 1] == d && c != d
    requires out == CodeIf(Violates(env, r, c), c) + CodeIf(Violates(env, r, d), d)
    ensures Contributes(out, order, Breaks(env, r), i, i + 2)
  {
    var keep := Breaks(env, r);
    assert Kept(order, keep, i, i) == [];
    assert Kept(order, keep, i, i + 1) == CodeIf(keep(c), c);
    NothingToDrop(out);
  }

  lemma AccountGate(env: Env, r: GatewayRequest, order: seq<ReasonCode>)
    requires |order| > 1 && order[0] == ACCOUNT_TYPE_NOT_PERMITTED && order[1] == MINIMUM_EQUITY_BREACH
    ensures Contributes(GateAccountMode(r.account), order, Breaks(env, r), 0, 2)
  {
    TwoCodes(env, r, order, GateAccountMode(r.account), 0, ACCOUNT_TYPE_NOT_PERMITTED, MINIMUM_EQUITY_BREACH);
  }

  lemma InstrumentGate(env: Env, r: GatewayRequest, order: seq<ReasonCode>)
    requires |order| > 2 && order[2] == INSTRUMENT_NOT_PERMITTED
    ensures Contributes(GateInstrument(r), order, Breaks(env, r), 2, 3)
  {
    OneCode(env, r, order, GateInstrument(r), 2, INSTRUMENT_NOT_PERMITTED);
  }

  lemma ContractGate(env: Env, r: GatewayRequest, order: seq<ReasonCode>)
    requires |order| > 4 && order[3] == CONTRACT_METADATA_INVALID && order[4] == CONTRACT_SPREAD_MISMATCH
    ensures Contributes(GateContractMetadata(r), order, Breaks(env, r), 3, 5)
  {
    TwoCodes(env, r, order, GateContractMetadata(r), 3, CONTRACT_METADATA_INVALID, CONTRACT_SPREAD_MISMATCH);
  }

  lemma DteGate(env: Env, r: GatewayRequest, order: seq<ReasonCode>)
    requires |order| > 5 && order[5] == DTE_MISMATCH
    ensures Contributes(CodeIf(r.candidate.dte != DerivedDte(env, r), DTE_MISMATCH), order, Breaks(env, r), 5, 6)
  {
    OneCode(env, r, order, CodeIf(r.candidate.dte != DerivedDte(env, r), DTE_MISMATCH), 5, DTE_MISMATCH);
  }

  lemma DeltaGate(env: Env, r: GatewayRequest, order: seq<ReasonCode>)
    requires |order| > 6 && order[6] == DELTA_BAND_VIOLATION
    ensures Contributes(CodeIf(!r.candidate.ShortDeltaWithinCap(), DELTA_BAND_VIOLATION), order,
                        Breaks(env, r), 6, 7)
  {
    OneCode(env, r, order, CodeIf(!r.candidate.ShortDeltaWithinCap(), DELTA_BAND_VIOLATION), 6, DELTA_BAND_VIOLATION);
  }

  lemma StageGate(env: Env, r: GatewayRequest, order: seq<ReasonCode>)
    requires |order| > 7 && order[7] == STRATEGY_NOT_LIVE_APPROVED
    ensures Contributes(CodeIf(r.strategyStage != LIVE_STAGE, STRATEGY_NOT_LIVE_APPROVED), order,
                        Breaks(env, r), 7, 8)
  {
    OneCode(env, r, order, CodeIf(r.strategyStage != LIVE_STAGE, STRATEGY_NOT_LIVE_APPROVED), 7,
            STRATEGY_NOT_LIVE_APPROVED);
  }

  lemma HeatGate(env: Env, r: GatewayRequest, order: seq<ReasonCode>)
    requires |order| > 9 && order[8] == HEAT_LIMIT_EXCEEDED && order[9] == BUYING_POWER_LIMIT_EXCEEDED
    ensures Contributes(Codes(HeatReason(r.heat)), order, Breaks(env, r), 8, 10)
  {
    PercentOf(r.heat.sumDefinedMaxLoss, r.heat.netLiquidatingValue, 6.0);
    PercentOf(r.heat.brokerMarginRequirement, r.heat.netLiquidatingValue, 35.0);
    TwoCodes(env, r, order, Codes(HeatReason(r.heat)), 8, HEAT_LIMIT_EXCEEDED, BUYING_POWER_LIMIT_EXCEEDED);
  }

  lemma ConcentrationGate(env: Env, r: GatewayRequest, order: seq<ReasonCode>)
    requires |order| > 10 && order[10] == CONCENTRATION_LIMIT_EXCEEDED
    ensures Contributes(CodeIf(!r.concentration.Passes(), CONCENTRATION_LIMIT_EXCEEDED), order, Breaks(env, r), 10, 11)
  {
    OneCode(env, r, order, CodeIf(!r.concentration.Passes(), CONCENTRATION_LIMIT_EXCEEDED), 10,
            CONCENTRATION_LIMIT_EXCEEDED);
  }

  lemma LiquidityGateCode(env: Env, r: GatewayRequest, order: seq<ReasonCode>)
    requires |order| > 11 && order[11] == LIQUIDITY_GATE_FAILED
    ensures Contributes(CodeIf(!r.liquidity.Passes(), LIQUIDITY_GATE_FAILED), order, Breaks(env, r), 11, 12)
  {
    PercentOf(r.liquidity.ask - r.liquidity.bid, r.liquidity.Mid(), 15.0);
    OneCode(env, r, order, CodeIf(!r.liquidity.Passes(), LIQUIDITY_GATE_FAILED), 11, LIQUIDITY_GATE_FAILED);
  }

  lemma QualityGate(env: Env, r: GatewayRequest, order: seq<ReasonCode>)
    requires |order| > 12 && order[12] == EXECUTION_QUALITY_SUSPENDED
    ensures Contributes(CodeIf(r.executionQuality.Suspended(), EXECUTION_QUALITY_SUSPENDED), order, Breaks(env, r), 12,
                        13)
  {
    OneCode(env, r, order, CodeIf(r.executionQuality.Suspended(), EXECUTION_QUALITY_SUSPENDED), 12,
            EXECUTION_QUALITY_SUSPENDED);
  }

  lemma DrawdownGate(env: Env, r: GatewayRequest, order: seq<ReasonCode>)
    requires |order| > 14 && order[13] == DRAWDOWN_HALT_ACTIVE && order[14] == HUMAN_REARM_REQUIRED
    ensures Contributes(GateDrawdown(r.drawdown), order, Breaks(env, r), 13, 15)
  {
    TwoCodes(env, r, order, GateDrawdown(r.drawdown), 13, DRAWDOWN_HALT_ACTIVE, HUMAN_REARM_REQUIRED);
  }

  lemma ProtectionGates(env: Env, r: GatewayRequest, order: seq<ReasonCode>)
    requires |order| > 15 && order[15] == PROTECTION_HIERARCHY_VIOLATION
    ensures Contributes(CodeIf(r.protection.Violated(), PROTECTION_HIERARCHY_VIOLATION)
                        + CodeIf(r.multiLeg.Violated(), PROTECTION_HIERARCHY_VIOLATION), order, Breaks(env, r), 15, 16)
  {
    var a := CodeIf(r.protection.Violated(), PROTECTION_HIERARCHY_VIOLATION);
    var b := CodeIf(r.multiLeg.Violated(), PROTECTION_HIERARCHY_VIOLATION);
    var one := if a != [] || b != [] then [PROTECTION_HIERARCHY_VIOLATION] else [];
    OneCode(env, r, order, one, 15, PROTECTION_HIERARCHY_VIOLATION);
    if a != [] && b != [] {
      assert (a + b)[..1] == a && FirstOccurrences(a + b) == FirstOccurrences(a);
    } else {
      assert a + b == one;
    }
  }

  lemma WindowGate(env: Env, r: GatewayRequest, order: seq<ReasonCode>)
    requires |order| > 16 && order[16] == ENTRY_WINDOW_CLOSED
    ensures Contributes(GateEntryWindow(env.ctMinuteOf(r.asOf)), order, Breaks(env, r), 16, 17)
  {
    OneCode(env, r, order, GateEntryWindow(env.ctMinuteOf(r.asOf)), 16, ENTRY_WINDOW_CLOSED);
  }

  lemma BlackoutGate(env: Env, r: GatewayRequest, order: seq<ReasonCode>)
    requires |order| > 17 && order[17] == EVENT_BLACKOUT_ACTIVE
    ensures Contributes(CodeIf(BlackoutActive(r.eventCalendar, r.asOf), EVENT_BLACKOUT_ACTIVE), order, Breaks(env, r),
                        17, 18)
  {
    assert BlackoutActive(r.eventCalendar, r.asOf) <==> InBlackout(r) by {
      if i :| 0 <= i < |r.eventCalendar| && r.eventCalendar[i].ActiveAt(r.asOf) {
        assert r.eventCalendar[i] in r.eventCalendar;
      }
    }
    OneCode(env, r, order, CodeIf(BlackoutActive(r.eventCalendar, r.asOf), EVENT_BLACKOUT_ACTIVE), 17,
            EVENT_BLACKOUT_ACTIVE);
  }

  lemma FeedGates(env: Env, r: GatewayRequest, order: seq<ReasonCode>)
    requires |order| > 22 && order[21] == SECONDARY_FEED_MISMATCH && order[22] == SECONDARY_FEED_NOT_CERTIFIED
    ensures Contributes(CodeIf(!r.priceCheck.WithinTolerance(), SECONDARY_FEED_MISMATCH), order, Breaks(env, r), 21, 22)
    ensures Contributes(CodeIf(!r.feedCertification.ValidForLive(r.asOf, r.candidate.underlying == SPX),
                               SECONDARY_FEED_NOT_CERTIFIED), order, Breaks(env, r), 22, 23)
  {
    var p := r.priceCheck;
    PercentOf(Abs(p.brokerOptionMid - p.secondaryOptionMid), p.brokerOptionMid, 2.0);
    PercentOf(Abs(p.brokerUnderlying - p.secondaryUnderlying), p.brokerUnderlying, 0.25);
    OneCode(env, r, order, CodeIf(!p.WithinTolerance(), SECONDARY_FEED_MISMATCH), 21, SECONDARY_FEED_MISMATCH);
    OneCode(env, r, order, CodeIf(!r.feedCertification.ValidForLive(r.asOf, r.candidate.underlying == SPX),
                                  SECONDARY_FEED_NOT_CERTIFIED), 22, SECONDARY_FEED_NOT_CERTIFIED);
  }

  lemma AgeIsWholeMilliseconds(d: BrokerDataSnapshot, t: Time, asOf: Time, limitMs: int)
    ensures d.AgeMs(t, asOf) > limitMs <==> OlderThan(t, asOf, limitMs)
  {
  }

  lemma FreshnessIsExact(env: Env, r: GatewayRequest)
    ensures r.dataSnapshot.FreshnessReason(r.asOf, ZeroDteLate(env, r))
         == if FromTheFuture(r) then Some(DATA_TIMESTAMP_INVALID)
            else if PriceTooOld(env, r) then Some(PRICE_STALE)
            else if VolatilityTooOld(r) then Some(IVR_STALE)
            else None
  {
    var d := r.dataSnapshot;
    AgeIsWholeMilliseconds(d, d.optionQuoteAt, r.asOf, if ZeroDteLate(env, r) then 500 else 1000);
    AgeIsWholeMilliseconds(d, d.underlyingPriceAt, r.asOf, 500);
    AgeIsWholeMilliseconds(d, d.vixAt, r.asOf, 5000);
    AgeIsWholeMilliseconds(d, d.ivRankAt, r.asOf, 10000);
  }

  /** An output that reports the first of three codes that cannot hold together. */
  lemma OneOfThree(env: Env, r: GatewayRequest, order: seq<ReasonCode>, out: seq<ReasonCode>, i: nat, c: ReasonCode,
                   d: ReasonCode, e: ReasonCode)
    requires i + 2 < |order|
    requires order[i] == c && order[i + 1] == d && order[i + 2] == e
    requires Violates(env, r, c) ==> !Violates(env, r, d) && !Violates(env, r, e)
    requires Violates(env, r, d) ==> !Violates(env, r, e)
    requires out == CodeIf(Violates(env, r, c), c) + CodeIf(Violates(env, r, d), d) + CodeIf(Violates(env, r, e), e)
    ensures Contributes(out, order, Breaks(env, r), i, i + 3)
  {
    var keep := Breaks(env, r);
    assert Kept(order, keep, i, i) == [];
    assert Kept(order, keep, i, i + 1) == CodeIf(keep(c), c);
    assert Kept(order, keep, i, i + 2) == CodeIf(keep(c), c) + CodeIf(keep(d), d);
    assert Kept(order, keep, i, i + 3) == out;
    NothingToDrop(out);
  }

  lemma FreshnessGate(env: Env, r: GatewayRequest, order: seq<ReasonCode>)
    requires |order| > 20 && order[18] == DATA_TIMESTAMP_INVALID && order[19] == PRICE_STALE && order[20] == IVR_STALE
    ensures Contributes(Codes(r.dataSnapshot.FreshnessReason(r.asOf, ZeroDteLate(env, r))), order,
                        Breaks(env, r), 18, 21)
  {
    FreshnessIsExact(env, r);
    OneOfThree(env, r, order, Codes(r.dataSnapshot.FreshnessReason(r.asOf, ZeroDteLate(env, r))), 18,
               DATA_TIMESTAMP_INVALID, PRICE_STALE, IVR_STALE);
  }

  ghost predicate GateMatches(env: Env, r: GatewayRequest, k: nat) {
    k < 17 && Contributes(Outputs(env, r)[k], ReportingOrder, Breaks(env, r), Reach[k], Reach[k + 1])
  }

  lemma EarlyOutputs(env: Env, r: GatewayRequest)
    ensures var o := Outputs(env, r);
      && |o| == 17 && o[0] == GateAccountMode(r.account) && o[1] == GateInstrument(r) && o[2] == GateContractMetadata(r)
      && o[3] == CodeIf(r.candidate.dte != DerivedDte(env, r), DTE_MISMATCH)
      && o[4] == CodeIf(!r.candidate.ShortDeltaWithinCap(), DELTA_BAND_VIOLATION)
      && o[5] == CodeIf(r.strategyStage != LIVE_STAGE, STRATEGY_NOT_LIVE_APPROVED)
  {
  }

  lemma EarlyGatesMatch(env: Env, r: GatewayRequest, k: nat)
    requires k < 3
    ensures GateMatches(env, r, k)
  {
    EarlyOutputs(env, r);
    match k
    case 0 => AccountGate(env, r, ReportingOrder);
    case 1 => InstrumentGate(env, r, ReportingOrder);
    case 2 => ContractGate(env, r, ReportingOrder);
  }

  lemma ProposalGatesMatch(env: Env, r: GatewayRequest, k: nat)
    requires 3 <= k < 6
    ensures GateMatches(env, r, k)
  {
    EarlyOutputs(env, r);
    match k
    case 3 => DteGate(env, r, ReportingOrder);
    case 4 => DeltaGate(env, r, ReportingOrder);
    case 5 => StageGate(env, r, ReportingOrder);
  }

  lemma RiskOutputs(env: Env, r: GatewayRequest)
    ensures var o := Outputs(env, r);
      && |o| == 17 && o[6] == Codes(HeatReason(r.heat))
      && o[7] == CodeIf(!r.concentration.Passes(), CONCENTRATION_LIMIT_EXCEEDED)
      && o[8] == CodeIf(!r.liquidity.Passes(), LIQUIDITY_GATE_FAILED)
      && o[9] == CodeIf(r.executionQuality.Suspended(), EXECUTION_QUALITY_SUSPENDED)
      && o[10] == GateDrawdown(r.drawdown)
  {
  }

  lemma RiskGatesMatch(env: Env, r: GatewayRequest, k: nat)
    requires 6 <= k < 8
    ensures GateMatches(env, r, k)
  {
    RiskOutputs(env, r);
    match k
    case 6 => HeatGate(env, r, ReportingOrder);
    case 7 => ConcentrationGate(env, r, ReportingOrder);
  }

  lemma ExecutionGatesMatch(env: Env, r: GatewayRequest, k: nat)
    requires 8 <= k < 11
    ensures GateMatches(env, r, k)
  {
    RiskOutputs(env, r);
    match k
    case 8 => LiquidityGateCode(env, r, ReportingOrder);
    case 9 => QualityGate(env, r, ReportingOrder);
    case 10 => DrawdownGate(env, r, ReportingOrder);
  }

  lemma LateOutputs(env: Env, r: GatewayRequest)
    ensures var o := Outputs(env, r);
      && |o| == 17
      && o[11] == CodeIf(r.protection.Violated(), PROTECTION_HIERARCHY_VIOLATION)
                  + CodeIf(r.multiLeg.Violated(), PROTECTION_HIERARCHY_VIOLATION)
      && o[12] == GateEntryWindow(env.ctMinuteOf(r.asOf))
      && o[13] == CodeIf(BlackoutActive(r.eventCalendar, r.asOf), EVENT_BLACKOUT_ACTIVE)
      && o[14] == Codes(r.dataSnapshot.FreshnessReason(r.asOf, ZeroDteLate(env, r)))
      && o[15] == CodeIf(!r.priceCheck.WithinTolerance(), SECONDARY_FEED_MISMATCH)
      && o[16] == CodeIf(!r.feedCertification.ValidForLive(r.asOf, r.candidate.underlying == SPX),
                         SECONDARY_FEED_NOT_CERTIFIED)
  {
  }

  lemma ProtectionGatesMatch(env: Env, r: GatewayRequest)
    ensures GateMatches(env, r, 11)
  {
    LateOutputs(env, r);
    ProtectionGates(env, r, ReportingOrder);
  }

  lemma WindowGatesMatch(env: Env, r: GatewayRequest)
    ensures GateMatches(env, r, 12) && GateMatches(env, r, 13)
  {
    LateOutputs(env, r);
    WindowGate(env, r, ReportingOrder);
    BlackoutGate(env, r, ReportingOrder);
  }

  lemma FreshnessGateMatches(env: Env, r: GatewayRequest)
    ensures GateMatches(env, r, 14)
  {
    LateOutputs(env, r);
    FreshnessGate(env, r, ReportingOrder);
  }

  lemma FeedGatesMatch(env: Env, r: GatewayRequest)
    ensures GateMatches(env, r, 15) && GateMatches(env, r, 16)
  {
    LateOutputs(env, r);
    FeedGates(env, r, ReportingOrder);
  }

  lemma GatesContribute(env: Env, r: GatewayRequest)
    ensures AllContribute(Outputs(env, r), ReportingOrder, Breaks(env, r), Reach)
  {
    assert |Outputs(env, r)| == 17;
    forall k | 0 <= k < 17 ensures GateMatches(env, r, k) {
      if k < 3 { EarlyGatesMatch(env, r, k); }
      else if k < 6 { ProposalGatesMatch(env, r, k); }
      else if k < 8 { RiskGatesMatch(env, r, k); }
      else if k < 11 { ExecutionGatesMatch(env, r, k); }
      else if k == 11 { ProtectionGatesMatch(env, r); }
      else if k < 14 { WindowGatesMatch(env, r); }
      else if k == 14 { FreshnessGateMatches(env, r); }
      else { FeedGatesMatch(env, r); }
    }
    forall k | 0 <= k < 17
      ensures Contributes(Outputs(env, r)[k], ReportingOrder, Breaks(env, r), Reach[k], Reach[k + 1])
    {
      assert GateMatches(env, r, k);
    }
  }

  lemma CollectedAreBrokenRules(env: Env, r: GatewayRequest)
    ensures FirstOccurrences(Flatten(GateOutputs(env, r))) == BrokenRules(env, r)
  {
    GatesContribute(env, r);
    assert |Reach| == 18 && Reach[17] == |ReportingOrder|;
    OrderIsDistinct();
    AllIsKept(Outputs(env, r), ReportingOrder, Breaks(env, r), Reach);
    OutputsFlatten(env, r);
  }

  /**
   * The reason codes are exact: a decision carries the codes of precisely the rules that the request breaks, each once
   * and in reporting order, and approves when it breaks none.
   */
  lemma ReasonCodesAreExact(env: Env, r: GatewayRequest)
    ensures Decide(env, r).ReasonCodes() == BrokenRules(env, r)
    ensures Decide(env, r).Approved? <==> BrokenRules(env, r) == []
  {
    CollectedAreBrokenRules(env, r);
    GatewayIsExact(env, r);
  }

  /** A code is carried iff its rule is broken. */
  lemma CodeMeansBrokenRule(env: Env, r: GatewayRequest, c: ReasonCode)
    ensures c in Decide(env, r).ReasonCodes() <==> Violates(env, r, c)
  {
    ReasonCodesAreExact(env, r);
    RankIsListed(c);
    UnlistedIsUnbroken(env, r, c);
    KeptCodes(ReportingOrder, Breaks(env, r), 0, |ReportingOrder|, c);
  }

  lemma RankIsListed(c: ReasonCode)
    ensures Rank(c) < |ReportingOrder| ==> ReportingOrder[Rank(c)] == c
  {
    var i := Rank(c);
    if i < |ReportingOrder| {
      RankIsPosition(i);
      RankIsInjective(c, ReportingOrder[i]);
    }
  }

  lemma RankIsInjective(c: ReasonCode, d: ReasonCode)
    requires Rank(c) == Rank(d) < |ReportingOrder|
    ensures c == d
  {
  }

  lemma UnlistedIsUnbroken(env: Env, r: GatewayRequest, c: ReasonCode)
    ensures Rank(c) >= |ReportingOrder| ==> !Violates(env, r, c)
  {
  }
}
