/**
 * The deterministic safety state that one pre-trade validation reads (the modules under schemas/); each object carries
 * its own verdict.
 */
module SafetyState {
  import opened Wrappers
  import opened Vocabulary

  datatype AccountState = AccountState(accountType: AccountType, netLiquidatingValue: real) {
    predicate TypePermitted() { accountType == MARGIN }
    predicate BelowMinimumEquity() { netLiquidatingValue < 20000.0 }
  }

  datatype HeatFields = PortfolioHeatCheck(sumDefinedMaxLoss: real, brokerMarginRequirement: real,
                                           netLiquidatingValue: real) {
    function RiskHeatPct(): real
      requires netLiquidatingValue != 0.0
    {
      sumDefinedMaxLoss / netLiquidatingValue * 100.0
    }

    function BuyingPowerHeatPct(): real
      requires netLiquidatingValue != 0.0
    {
      brokerMarginRequirement / netLiquidatingValue * 100.0
    }
  }

  /** Heat inputs are non-negative dollars over a positive account value. */
  type PortfolioHeatCheck = h: HeatFields
    | h.sumDefinedMaxLoss >= 0.0 && h.brokerMarginRequirement >= 0.0 && h.netLiquidatingValue > 0.0
    witness PortfolioHeatCheck(0.0, 0.0, 1.0)

  function HeatReason(h: PortfolioHeatCheck): Option<ReasonCode> {
    if h.RiskHeatPct() > 6.0 then Some(HEAT_LIMIT_EXCEEDED)
    else if h.BuyingPowerHeatPct() > 35.0 then Some(BUYING_POWER_LIMIT_EXCEEDED)
    else None
  }

  /** Proof that both heat caps hold; it cannot be built otherwise. */
  datatype ApprovedPortfolioHeat = ApprovedPortfolioHeat(riskHeatPct: real, buyingPowerHeatPct: real) {
    predicate WithinCaps() { 0.0 <= riskHeatPct <= 6.0 && 0.0 <= buyingPowerHeatPct <= 35.0 }
  }

  datatype MintError = MintRefused

  function ApproveHeat(h: PortfolioHeatCheck): Result<ApprovedPortfolioHeat, MintError> {
    if !(h.RiskHeatPct() <= 6.0 && h.BuyingPowerHeatPct() <= 35.0) then Err(MintRefused)
    else
      var token := ApprovedPortfolioHeat(h.RiskHeatPct(), h.BuyingPowerHeatPct());
      if token.WithinCaps() then Ok(token) else Err(MintRefused)
  }

  datatype DrawdownFields = DrawdownHaltState(activeTier: DrawdownTier, rearmMode: Option<ReArmMode>,
                                              humanRearmGranted: bool) {
    predicate RequiresHumanRearm() {
      rearmMode == Some(HUMAN_ONLY) || rearmMode == Some(HUMAN_ONLY_AFTER_REVIEW)
    }
  }

  function RequiredRearmMode(tier: DrawdownTier): Option<ReArmMode> {
    match tier
    case NO_TIER => None
    case DAILY => Some(AUTO_NEXT_SESSION)
    case WEEKLY => Some(HUMAN_ONLY)
    case TRAILING => Some(HUMAN_ONLY_AFTER_REVIEW)
  }

  type DrawdownHaltState = d: DrawdownFields
    | d.rearmMode == RequiredRearmMode(d.activeTier) && (d.humanRearmGranted ==> d.RequiresHumanRearm())
    witness DrawdownHaltState(NO_TIER, None, false)

  datatype LiquidityFields = LiquidityGate(bid: real, ask: real, openInterest: int, topOfBookSize: int) {
    function Mid(): real { (bid + ask) / 2.0 }

    predicate Passes() {
      && ask - bid <= 0.10
      && Mid() != 0.0 && (ask - bid) / Mid() * 100.0 <= 15.0
      && bid >= 0.05 && openInterest >= 100 && topOfBookSize >= 5
    }
  }

  type LiquidityGate = l: LiquidityFields | 0.0 <= l.bid <= l.ask && l.ask > 0.0
    witness LiquidityGate(0.0, 1.0, 0, 0)

  datatype ExecutionQualityState = ExecutionQualityState(
    rollingAvgSlippage: real, failedFillAttempts: int, rearmTokenPresent: bool)
  {
    predicate Suspended() { (rollingAvgSlippage > 0.05 || failedFillAttempts > 3) && !rearmTokenPresent }
  }

  datatype ConcentrationSnapshot = ConcentrationSnapshot(
    concurrentSpreads: int, sameExpiry: int, sameDirection: int, isZeroDte: bool,
    zeroDteConcurrent: int, zeroDteSameDirection: int, aggregateShortDelta: real, aggregateGammaPct: real)
  {
    predicate Passes() {
      && concurrentSpreads <= 4 && sameExpiry <= 2 && sameDirection <= 2
      && aggregateShortDelta <= 0.30 && aggregateGammaPct <= 2.0
      && (isZeroDte ==> zeroDteConcurrent <= 2 && zeroDteSameDirection <= 1)
    }
  }

  datatype ProtectionState = ProtectionState(longLegConfirmed: bool, agentManagedStopOnly: bool,
                                             isEmergencyClose: bool) {
    predicate Violated() { !isEmergencyClose && (!longLegConfirmed || agentManagedStopOnly) }
  }

  datatype MultiLegPlan = MultiLegPlan(atomicCombo: bool, legging: bool, longLegFirst: bool) {
    predicate Violated() { !atomicCombo && legging && !longLegFirst }
  }

  datatype EventBlackout = EventBlackout(event: MacroEvent, windowStart: Time, windowEnd: Time) {
    function EffectiveEnd(): Time {
      match event
      case CPI_RELEASE => windowEnd + 30 * 60 * 1000000
      case NFP_RELEASE => windowEnd + 30 * 60 * 1000000
      case FED_CHAIR_SPEECH => windowEnd + 15 * 60 * 1000000
      case _ => windowEnd
    }

    predicate ActiveAt(asOf: Time) { windowStart <= asOf <= EffectiveEnd() }
  }

  datatype BrokerDataSnapshot = BrokerDataSnapshot(
    optionQuoteAt: Time, underlyingPriceAt: Time, vixAt: Time, ivRankAt: Time, ivRankInputsFresh: bool)
  {
    /** Whole milliseconds between a reading and `asOf`; used only for readings that are not in the future. */
    function AgeMs(t: Time, asOf: Time): int { (asOf - t) / 1000 }

    function FreshnessReason(asOf: Time, zeroDteLate: bool): Option<ReasonCode> {
      if optionQuoteAt > asOf || underlyingPriceAt > asOf || vixAt > asOf
          || ivRankAt > asOf then Some(DATA_TIMESTAMP_INVALID)
      else if AgeMs(optionQuoteAt, asOf) > (if zeroDteLate then 500 else 1000) then Some(PRICE_STALE)
      else if AgeMs(underlyingPriceAt, asOf) > 500 then Some(PRICE_STALE)
      else if AgeMs(vixAt, asOf) > 5000 then Some(IVR_STALE)
      else if AgeMs(ivRankAt, asOf) > 10000 then Some(IVR_STALE)
      else if !ivRankInputsFresh then Some(IVR_STALE)
      else None
    }
  }

  datatype PriceFields = PriceReconciliationCheck(
    brokerOptionMid: real, secondaryOptionMid: real, brokerUnderlying: real, secondaryUnderlying: real)
  {
    predicate WithinTolerance()
      requires brokerOptionMid != 0.0 && brokerUnderlying != 0.0
    {
      var optionUsd := Abs(brokerOptionMid - secondaryOptionMid);
      && optionUsd / brokerOptionMid * 100.0 <= 2.0 && optionUsd <= 0.03
      && Abs(brokerUnderlying - secondaryUnderlying) / brokerUnderlying * 100.0 <= 0.25
    }
  }

  type PriceReconciliationCheck = p: PriceFields
    | p.brokerOptionMid > 0.0 && p.secondaryOptionMid > 0.0 && p.brokerUnderlying > 0.0 && p.secondaryUnderlying > 0.0
    witness PriceReconciliationCheck(1.0, 1.0, 1.0, 1.0)

  function Abs(x: real): real { if x < 0.0 then -x else x }

  datatype SecondaryFeedCertification = SecondaryFeedCertification(
    status: CertificationStatus, certifiedAt: Time, coversXsp: bool, coversSpx: bool, mappingConsistent: bool,
    latencyWithinThresholds: bool, pendingTriggers: seq<string>)
  {
    predicate ValidForLive(asOf: Time, requireSpx: bool) {
      && status == CERTIFIED
      && asOf <= certifiedAt + 30 * 24 * 3600 * 1000000
      && pendingTriggers == []
      && latencyWithinThresholds
      && coversXsp && mappingConsistent && (requireSpx ==> coversSpx)
    }
  }

  datatype CertifiedFeedToken = CertifiedFeedToken

  function MintFeedToken(f: SecondaryFeedCertification, asOf: Time, requireSpx: bool)
      : Result<CertifiedFeedToken, MintError>
  {
    if f.ValidForLive(asOf, requireSpx) then Ok(CertifiedFeedToken) else Err(MintRefused)
  }

  datatype LiveStrategyToken = LiveStrategyToken(stage: StrategyStage)

  function MintStrategyToken(stage: StrategyStage): Result<LiveStrategyToken, MintError> {
    if stage == LIVE_STAGE then Ok(LiveStrategyToken(stage)) else Err(MintRefused)
  }

  datatype ContractMetadata = ContractMetadata(
    underlying: Underlying, expirationTime: Time, lastTradingTime: Time, settlement: SettlementStyle,
    exercise: ExerciseStyle, multiplier: int, strike: real, optionType: OptionType)
  {
    predicate MandateCompliant() { exercise == EUROPEAN && settlement == CASH }

    predicate TradableAt(asOf: Time) { MandateCompliant() && asOf <= lastTradingTime }
  }

  datatype AllowedUnderlyingPolicy = AllowedUnderlyingPolicy(
    xspEnabled: bool, spxPhase2Enabled: bool, effectiveAt: Time, expiresAt: Option<Time>)
  {
    predicate ActiveAt(asOf: Time) { effectiveAt <= asOf && (expiresAt.Some? ==> asOf <= expiresAt.value) }

    predicate Permits(u: Underlying, asOf: Time) {
      ActiveAt(asOf) && if u == XSP then xspEnabled else spxPhase2Enabled
    }
  }
}
