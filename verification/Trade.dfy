/**
 * The trade objects, from the proposal to the execution report, with the validators that decide whether one can
 * exist (schemas/trade_intent.py, order_ticket.py, broker_submission.py, execution_report.py, kill_switch_state.py).
 */
module Trade {
  import opened Wrappers
  import opened Vocabulary
  import opened SafetyState

  datatype SpreadLegFields = SpreadLeg(side: LegSide, optionType: OptionType, strike: real, delta: real, contracts: int)

  type SpreadLeg = l: SpreadLegFields
    | l.strike > 0.0 && l.contracts > 0 && (if l.optionType == PUT then l.delta <= 0.0 else l.delta >= 0.0)
    witness SpreadLeg(LONG, PUT, 1.0, 0.0, 1)

  datatype CandidateFields = Candidate(
    underlying: Underlying,
    direction: SpreadDirection,
    shortLeg: SpreadLeg,
    longLeg: SpreadLeg,
    netCredit: real,
    multiplier: int,
    dte: int,
    rationaleId: string)
  {
    function SpreadWidth(): real { Abs(shortLeg.strike - longLeg.strike) }

    function MaxLoss(): real { (SpreadWidth() - netCredit) * (multiplier as real) * (shortLeg.contracts as real) }

    predicate ShortDeltaWithinCap() { Abs(shortLeg.delta) <= 0.10 }

    predicate DefinedRisk() {
      && netCredit > 0.0 && multiplier > 0 && dte >= 0
      && shortLeg.side == SHORT && longLeg.side == LONG
      && shortLeg.optionType == longLeg.optionType
      && shortLeg.contracts == longLeg.contracts
      && shortLeg.optionType == (if direction == PUT_CREDIT then PUT else CALL)
      && netCredit < SpreadWidth()
      && (if direction == PUT_CREDIT then longLeg.strike < shortLeg.strike else longLeg.strike > shortLeg.strike)
    }
  }

  /** A proposal that does not have defined risk cannot be built. */
  type CandidateTradeIntent = c: CandidateFields | c.DefinedRisk()
    witness Candidate(XSP, PUT_CREDIT, SpreadLeg(SHORT, PUT, 3.0, 0.0, 1), SpreadLeg(LONG, PUT, 1.0, 0.0, 1), 1.0, 1, 0,
                      "r")

  datatype SpreadContractMetadata = SpreadContractMetadata(shortContract: ContractMetadata,
                                                           longContract: ContractMetadata)

  datatype GatewayRequest = GatewayRequest(
    candidate: CandidateTradeIntent,
    asOf: Time,
    account: AccountState,
    heat: PortfolioHeatCheck,
    drawdown: DrawdownHaltState,
    instrument: Underlying,
    spreadContract: SpreadContractMetadata,
    underlyingPolicy: AllowedUnderlyingPolicy,
    dataSnapshot: BrokerDataSnapshot,
    priceCheck: PriceReconciliationCheck,
    liquidity: LiquidityGate,
    executionQuality: ExecutionQualityState,
    concentration: ConcentrationSnapshot,
    protection: ProtectionState,
    multiLeg: MultiLegPlan,
    strategyStage: StrategyStage,
    feedCertification: SecondaryFeedCertification,
    eventCalendar: seq<EventBlackout>
  )

  datatype ValidatedTradeIntent = ValidatedTradeIntent(
    candidate: CandidateTradeIntent,
    approvedHeat: ApprovedPortfolioHeat,
    certifiedFeed: CertifiedFeedToken,
    liveStrategy: LiveStrategyToken)
  {
    /** The delta cap and the validators of the nested tokens. */
    predicate Coherent() {
      candidate.ShortDeltaWithinCap() && approvedHeat.WithinCaps() && liveStrategy.stage == LIVE_STAGE
    }
  }

  datatype OrderLeg = OrderLeg(role: OrderLegRole, sourceLeg: SpreadLeg, sequence: int) {
    predicate Coherent() {
      sequence > 0 && (role == LONG_PROTECTIVE ==> sourceLeg.side == LONG)
          && (role == SHORT_RISK ==> sourceLeg.side == SHORT)
    }
  }

  datatype RouteDecision = RouteDecision(
    approved: bool, orderType: Option<OrderType>, routeMode: RouteMode,
    comboPreferred: bool, comboRequired: bool, reasonCodes: seq<ReasonCode>)
  {
    predicate Coherent() {
      && (comboRequired ==> comboPreferred)
      && (if approved then orderType.Some? && reasonCodes == [] else orderType.None? && reasonCodes != [])
    }
  }

  datatype OrderTicket = OrderTicket(
    validatedIntent: ValidatedTradeIntent,
    createdAt: Time,
    orderType: OrderType,
    policyState: EmergencyState,
    routeDecision: RouteDecision,
    legs: seq<OrderLeg>)
  {
    function Contracts(): int { validatedIntent.candidate.shortLeg.contracts }

    /** No short leg is routed before the protective long leg, and a MARKET ticket needs an emergency state. */
    predicate Coherent() {
      && validatedIntent.Coherent()
      && (orderType == MARKET ==> policyState != NORMAL)
      && routeDecision.Coherent() && routeDecision.approved && routeDecision.orderType == Some(orderType)
      && (forall i :: 0 <= i < |legs| ==> legs[i].Coherent())
      && RoleCount(legs, LONG_PROTECTIVE) == 1 && RoleCount(legs, SHORT_RISK) == 1
      && FirstRouted(legs) != Some(SHORT_RISK)
    }
  }

  function RoleCount(legs: seq<OrderLeg>, role: OrderLegRole): nat {
    if legs == [] then 0 else (if legs[0].role == role then 1 else 0) + RoleCount(legs[1..], role)
  }

  /** Position of the first leg with the smallest sequence number. */
  function FirstLeg(legs: seq<OrderLeg>): (k: nat)
    requires legs != []
    ensures k < |legs|
  {
    if |legs| == 1 then 0
    else
      var k := FirstLeg(legs[1..]);
      if legs[0].sequence <= legs[k + 1].sequence then 0 else k + 1
  }

  function FirstRouted(legs: seq<OrderLeg>): Option<OrderLegRole> {
    if legs == [] then None else Some(legs[FirstLeg(legs)].role)
  }

  datatype BrokerSubmitIntent = BrokerSubmitIntent(
    ticket: OrderTicket,
    orderTicketHash: string,
    idempotencyKey: string,
    attemptCounter: nat,
    submitMode: SubmitMode,
    submittedAt: Time,
    limitPrice: Option<real>
  )

  datatype ExecutionReport = ExecutionReport(
    orderTicketHash: string,
    idempotencyKey: string,
    brokerOrderId: string,
    lifecycle: OrderLifecycleState,
    orderType: OrderType,
    filledContracts: int,
    requestedContracts: int,
    avgFillPrice: Option<real>,
    fillTimestamp: Option<Time>,
    submittedAt: Time,
    completedAt: Option<Time>)
  {
    predicate Coherent() {
      && 0 <= filledContracts <= requestedContracts && requestedContracts > 0
      && (lifecycle == FILLED ==> filledContracts == requestedContracts && avgFillPrice.Some? && fillTimestamp.Some?)
      && (completedAt.Some? ==> submittedAt <= completedAt.value)
      && (fillTimestamp.Some? ==> submittedAt <= fillTimestamp.value)
    }

    /** The event time a report is stored under. */
    function EventTime(): Time {
      if completedAt.Some? then completedAt.value else if fillTimestamp.Some? then fillTimestamp.value else submittedAt
    }
  }

  datatype KillSwitchState = KillSwitchState(
    halted: bool, reasonCode: Option<ReasonCode>, rearmMode: Option<ReArmMode>, commandId: string, createdAt: Time,
        note: string)
  {
    predicate Coherent() {
      && commandId != ""
      && (if halted then reasonCode.Some? && rearmMode.Some? else reasonCode.None? && rearmMode.None?)
    }
  }

  datatype AuditArtifact = AuditArtifact(artifactId: string, createdAt: Time, decision: string,
                                         reasonCodes: seq<ReasonCode>) {
    predicate Coherent() { artifactId != "" && ((decision == "REJECT" || decision == "HALT") ==> reasonCodes != []) }
  }

  /** Everything the audit store persists in this model. */
  datatype Record =
    | RequestRecord(request: GatewayRequest)
    | ValidatedRecord(validated: ValidatedTradeIntent)
    | TicketRecord(ticket: OrderTicket)
    | SubmitRecord(intent: BrokerSubmitIntent)
    | ReportRecord(report: ExecutionReport)
    | KillSwitchRecord(state: KillSwitchState)
    | ArtifactRecord(artifact: AuditArtifact)

  /**
   * The parts of the environment the model treats as given functions: the SHA-256 digest of an object's JSON text,
   * the digest of a rejected request, calendar conversions and the printed forms of a time.
   */
  datatype Env = Env(
    sha: Record -> string,
    decisionDigest: (GatewayRequest, seq<ReasonCode>) -> string,
    ctMinuteOf: Time -> int,
    dayOf: Time -> int,
    isoText: Time -> string,
    stampText: Time -> string
  )

  const TICKET_MAX_AGE: Time := 300 * 1000000

  function TicketHash(env: Env, ticket: OrderTicket): string { env.sha(TicketRecord(ticket)) }

  function IntentDigest(env: Env, intent: BrokerSubmitIntent): string { env.sha(SubmitRecord(intent)) }

  function NatText(n: nat): string {
    if n < 10 then [DigitChar(n)] else NatText(n / 10) + [DigitChar(n % 10)]
  }

  function DigitChar(d: nat): char
    requires d < 10
  {
    "0123456789"[d]
  }

  function IdempotencyKey(hash: string, attempt: nat): string { hash + ":" + NatText(attempt) }

  /** The submit-intent validator, the nested ticket's included. */
  predicate IntentCoherent(env: Env, i: BrokerSubmitIntent) {
    && i.ticket.Coherent()
    && i.attemptCounter >= 1
    && i.orderTicketHash == TicketHash(env, i.ticket)
    && 0 <= i.submittedAt - i.ticket.createdAt <= TICKET_MAX_AGE
    && i.idempotencyKey == IdempotencyKey(i.orderTicketHash, i.attemptCounter)
    && i.ticket.legs != []
    && (i.ticket.orderType == LIMIT <==> i.limitPrice.Some?)
    && (i.ticket.orderType == MARKET ==> i.ticket.policyState != NORMAL)
  }

  /** Whether the record satisfies the validator of its own type; an object that does not cannot exist. */
  predicate Coherent(env: Env, r: Record) {
    match r
    case RequestRecord(_) => true
    case ValidatedRecord(v) => v.Coherent()
    case TicketRecord(t) => t.Coherent()
    case SubmitRecord(i) => IntentCoherent(env, i)
    case ReportRecord(e) => e.Coherent()
    case KillSwitchRecord(k) => k.Coherent()
    case ArtifactRecord(a) => a.Coherent()
  }
}
