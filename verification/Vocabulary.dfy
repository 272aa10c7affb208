/** The closed sets of schemas/enums.py that the model uses. */
module Vocabulary {
  /** Microseconds on one aware time line. */
  type Time = int

  datatype Underlying = XSP | SPX

  function UnderlyingText(u: Underlying): string { if u == XSP then "XSP" else "SPX" }

  datatype OptionType = PUT | CALL
  datatype LegSide = SHORT | LONG
  datatype SpreadDirection = PUT_CREDIT | CALL_CREDIT
  datatype ExerciseStyle = EUROPEAN | AMERICAN
  datatype SettlementStyle = CASH | PHYSICAL

  datatype StrategyStage = HYPOTHESIS | RESEARCH | SHADOW | PAPER_STAGE | LIVE_STAGE
  datatype DrawdownTier = NO_TIER | DAILY | WEEKLY | TRAILING
  datatype ReArmMode = AUTO_NEXT_SESSION | HUMAN_ONLY | HUMAN_ONLY_AFTER_REVIEW
  datatype AccountType = MARGIN | PORTFOLIO_MARGIN | MULTI_ACCOUNT
  datatype BrokerMode = PAPER_MODE | NO_BROKER | LIVE_READONLY
  datatype AppEnv = VM_PAPER | OTHER_ENV
  datatype MacroEvent = FOMC_RATE_DECISION | CPI_RELEASE | NFP_RELEASE | FED_CHAIR_SPEECH | UNSCHEDULED_MARKET_HALT
  datatype CertificationStatus = CERTIFIED | NOT_CERTIFIED | EXPIRED_CERTIFICATE

  datatype OrderType = LIMIT | MARKET
  datatype EmergencyState = NORMAL | BROKEN_SPREAD | EMERGENCY_RISK_REDUCTION | FORCED_LIQUIDATION
  datatype RouteMode = NORMAL_ROUTE | EMERGENCY_ROUTE | BROKEN_SPREAD_ROUTE | FORCED_LIQUIDATION_ROUTE
  datatype OrderLegRole = LONG_PROTECTIVE | SHORT_RISK
  datatype SubmitMode = LIVE | PAPER

  datatype OrderLifecycleState =
    PENDING_SUBMIT | SUBMITTED | WORKING | PARTIAL_FILL | FILLED | CANCELLED | REJECTED | EXPIRED

  /** The states in which an order is still open; storage and the fake brokers use the same set. */
  predicate IsOpen(s: OrderLifecycleState) {
    s == PENDING_SUBMIT || s == SUBMITTED || s == WORKING || s == PARTIAL_FILL
  }

  datatype ReasonCode =
    | PRICE_STALE
    | IVR_STALE
    | ACCOUNT_TYPE_NOT_PERMITTED
    | MINIMUM_EQUITY_BREACH
    | DRAWDOWN_HALT_ACTIVE
    | SECONDARY_FEED_MISMATCH
    | HEAT_LIMIT_EXCEEDED
    | BUYING_POWER_LIMIT_EXCEEDED
    | DELTA_BAND_VIOLATION
    | ENTRY_WINDOW_CLOSED
    | EVENT_BLACKOUT_ACTIVE
    | CONTRACT_METADATA_INVALID
    | LIQUIDITY_GATE_FAILED
    | BROKEN_SPREAD_STATE
    | HUMAN_REARM_REQUIRED
    | CONCENTRATION_LIMIT_EXCEEDED
    | PROTECTION_HIERARCHY_VIOLATION
    | SECONDARY_FEED_NOT_CERTIFIED
    | EXECUTION_QUALITY_SUSPENDED
    | STRATEGY_NOT_LIVE_APPROVED
    | INSTRUMENT_NOT_PERMITTED
    | INTERNAL_CONTRADICTION
    | DATA_TIMESTAMP_INVALID
    | DTE_MISMATCH
    | CONTRACT_SPREAD_MISMATCH
    | RECONCILIATION_MISMATCH
    | OPERATOR_HALT_COMMAND
    | OPERATOR_RESUME_COMMAND
    | OPERATOR_CANCEL_COMMAND
    | OPERATOR_FLATTEN_COMMAND
}
