/**
 * From a validated intent to a routed ticket, a submit intent and an execution report
 * (gateway/order_routing.py, gateway/broker_submission.py).
 */
module Orders {
  import opened Wrappers
  import opened Vocabulary
  import opened Trade

  datatype RoutingFields = OrderRoutingState(
    routeMode: RouteMode,
    policyState: EmergencyState,
    nativeComboAvailable: bool,
    marketOrderAllowed: bool,
    requestedOrderType: Option<OrderType>
  )

  function RouteModeForState(s: EmergencyState): RouteMode {
    match s
    case NORMAL => NORMAL_ROUTE
    case BROKEN_SPREAD => BROKEN_SPREAD_ROUTE
    case FORCED_LIQUIDATION => FORCED_LIQUIDATION_ROUTE
    case EMERGENCY_RISK_REDUCTION => EMERGENCY_ROUTE
  }

  type OrderRoutingState = s: RoutingFields
    | s.routeMode == RouteModeForState(s.policyState) && (s.routeMode == NORMAL_ROUTE ==> !s.marketOrderAllowed)
    witness OrderRoutingState(NORMAL_ROUTE, NORMAL, true, false, None)

  datatype OrderError =
    | RouteRejected
    | TicketRefused
    | FutureTicket
    | StaleTicket
    | BadAttemptCounter
    | MissingLimitPrice
    | UnexpectedLimitPrice
    | IntentRefused
    | ReportRefused

  function AllowedOrderTypes(s: EmergencyState): set<OrderType> {
    if s == NORMAL then {LIMIT} else {LIMIT, MARKET}
  }

  function ResolveOrderType(s: OrderRoutingState): OrderType {
    if s.routeMode != NORMAL_ROUTE && s.marketOrderAllowed && s.policyState != NORMAL then MARKET else LIMIT
  }

  function DecideOrderRoute(s: OrderRoutingState): RouteDecision {
    if s.requestedOrderType == Some(MARKET) || ResolveOrderType(s) !in AllowedOrderTypes(s.policyState) then
      RouteDecision(false, None, s.routeMode, s.nativeComboAvailable, false, [BROKEN_SPREAD_STATE])
    else
      RouteDecision(true, Some(ResolveOrderType(s)), s.routeMode, s.nativeComboAvailable, s.nativeComboAvailable, [])
  }

  function OrderedLegs(v: ValidatedTradeIntent): seq<OrderLeg> {
    [OrderLeg(LONG_PROTECTIVE, v.candidate.longLeg, 1), OrderLeg(SHORT_RISK, v.candidate.shortLeg, 2)]
  }

  function MintOrderTicket(v: ValidatedTradeIntent, s: OrderRoutingState, createdAt: Time)
      : Result<OrderTicket, OrderError>
  {
    var d := DecideOrderRoute(s);
    if !d.approved || d.orderType.None? then Err(RouteRejected)
    else
      var t := OrderTicket(v, createdAt, d.orderType.value, s.policyState, d, OrderedLegs(v));
      if t.Coherent() then Ok(t) else Err(TicketRefused)
  }

  function MintSubmitIntent(env: Env, t: OrderTicket, attempt: int, mode: SubmitMode, limitPrice: Option<real>,
                            asOf: Time)
    : Result<BrokerSubmitIntent, OrderError>
  {
    var age := asOf - t.createdAt;
    if age < 0 then Err(FutureTicket)
    else if age > TICKET_MAX_AGE then Err(StaleTicket)
    else if attempt < 1 then Err(BadAttemptCounter)
    else if t.orderType == LIMIT && limitPrice.None? then Err(MissingLimitPrice)
    else if t.orderType == MARKET && limitPrice.Some? then Err(UnexpectedLimitPrice)
    else
      var hash := TicketHash(env, t);
      var i := BrokerSubmitIntent(t, hash, IdempotencyKey(hash, attempt), attempt, mode, asOf, limitPrice);
      if IntentCoherent(env, i) then Ok(i) else Err(IntentRefused)
  }

  function MintExecutionReport(i: BrokerSubmitIntent, brokerOrderId: string, lifecycle: OrderLifecycleState,
                               filled: int,
                               price: Option<real>, fillAt: Option<Time>, completedAt: Option<Time>)
    : Result<ExecutionReport, OrderError>
  {
    var e := ExecutionReport(i.orderTicketHash, i.idempotencyKey, brokerOrderId, lifecycle, i.ticket.orderType, filled,
                             i.ticket.Contracts(), price, fillAt, i.submittedAt, completedAt);
    if e.Coherent() then Ok(e) else Err(ReportRefused)
  }

  /* ---- what the mints guarantee ---- */

  /**
   * For a valid intent a route is refused only when a MARKET order was asked for; every minted ticket passes its
   * validator.
   */
  lemma TicketMintIsExact(v: ValidatedTradeIntent, s: OrderRoutingState, createdAt: Time)
    ensures MintOrderTicket(v, s, createdAt).Ok? <==> s.requestedOrderType != Some(MARKET) && v.Coherent()
    ensures MintOrderTicket(v, s, createdAt).Ok? ==>
              var t := MintOrderTicket(v, s, createdAt).value;
              && t.Coherent() && t.routeDecision.Coherent() && t.validatedIntent == v && t.createdAt == createdAt
              && t.policyState == s.policyState
              && (t.orderType == MARKET <==> s.policyState != NORMAL && s.marketOrderAllowed)
              && LongLegRoutesFirst(t)
  {
    var legs := OrderedLegs(v);
    var rest := legs[1..];
    assert rest == [legs[1]] && rest[1..] == [];
    assert RoleCount([], LONG_PROTECTIVE) == 0 && RoleCount([], SHORT_RISK) == 0;
    assert RoleCount(rest, LONG_PROTECTIVE) == 0 && RoleCount(rest, SHORT_RISK) == 1;
    assert RoleCount(legs, LONG_PROTECTIVE) == 1 && RoleCount(legs, SHORT_RISK) == 1;
    assert FirstLeg(legs) == 0;
  }

  /** The protective long leg comes first, at a strictly smaller sequence number, and covers every short contract. */
  predicate LongLegRoutesFirst(t: OrderTicket) {
    && |t.legs| == 2
    && t.legs[0].role == LONG_PROTECTIVE && t.legs[0].sourceLeg == t.validatedIntent.candidate.longLeg
    && t.legs[1].role == SHORT_RISK && t.legs[1].sourceLeg == t.validatedIntent.candidate.shortLeg
    && t.legs[0].sequence < t.legs[1].sequence
    && t.legs[0].sourceLeg.contracts == t.legs[1].sourceLeg.contracts
  }

  /** The early guards of the submit-intent mint are exactly its validator. */
  lemma SubmitIntentMintIsExact(env: Env, t: OrderTicket, attempt: int, mode: SubmitMode, limitPrice: Option<real>,
                                asOf: Time)
    ensures MintSubmitIntent(env, t, attempt, mode, limitPrice, asOf).Ok?
       <==> && t.Coherent() && 0 <= asOf - t.createdAt <= TICKET_MAX_AGE && attempt >= 1
            && (t.orderType == LIMIT <==> limitPrice.Some?)
    ensures MintSubmitIntent(env, t, attempt, mode, limitPrice, asOf).Ok? ==>
              var i := MintSubmitIntent(env, t, attempt, mode, limitPrice, asOf).value;
              && IntentCoherent(env, i) && i.ticket == t && i.attemptCounter == attempt && i.submitMode == mode
              && i.submittedAt == asOf && i.limitPrice == limitPrice
  {
    assert RoleCount([], SHORT_RISK) == 0;
  }

  /** A report is minted iff its counts and times are possible, and says what the intent and the fill say. */
  lemma ReportMintIsExact(i: BrokerSubmitIntent, id: string, lifecycle: OrderLifecycleState, filled: int,
                          price: Option<real>, fillAt: Option<Time>, completedAt: Option<Time>)
    ensures MintExecutionReport(i, id, lifecycle, filled, price, fillAt, completedAt).Ok?
       <==> && 0 <= filled <= i.ticket.Contracts()
            && (lifecycle == FILLED ==> filled == i.ticket.Contracts() && price.Some? && fillAt.Some?)
            && (completedAt.Some? ==> i.submittedAt <= completedAt.value)
            && (fillAt.Some? ==> i.submittedAt <= fillAt.value)
    ensures MintExecutionReport(i, id, lifecycle, filled, price, fillAt, completedAt).Ok? ==>
              var e := MintExecutionReport(i, id, lifecycle, filled, price, fillAt, completedAt).value;
              && e.idempotencyKey == i.idempotencyKey && e.orderTicketHash == i.orderTicketHash
              && e.submittedAt == i.submittedAt && e.orderType == i.ticket.orderType
              && e.requestedContracts == i.ticket.Contracts() && e.brokerOrderId == id && e.lifecycle == lifecycle
              && e.filledContracts == filled && e.avgFillPrice == price && e.fillTimestamp == fillAt
              && e.completedAt == completedAt
  {
  }

  /* ---- idempotency keys ---- */

  lemma {:induction false} NatTextIsInjective(m: nat, n: nat)
    requires NatText(m) == NatText(n)
    ensures m == n
  {
    NatTextShape(m);
    NatTextShape(n);
    var s, t := NatText(m), NatText(n);
    assert s[|s| - 1] == t[|t| - 1];
    assert m % 10 == n % 10;
    if m >= 10 && n >= 10 {
      assert NatText(m / 10) == s[..|s| - 1] == t[..|t| - 1] == NatText(n / 10);
      NatTextIsInjective(m / 10, n / 10);
    }
  }

  lemma NatTextShape(n: nat)
    ensures |NatText(n)| >= 1 && NatText(n)[|NatText(n)| - 1] == DigitChar(n % 10)
    ensures |NatText(n)| == 1 <==> n < 10
  {
    if n >= 10 { NatTextNonEmpty(n / 10); }
  }

  lemma NatTextNonEmpty(n: nat)
    ensures |NatText(n)| >= 1
  {
  }

  /** Two submit decisions share a key only if they are the same attempt at the same ticket hash. */
  lemma KeysIdentifyAttempts(h: string, a: nat, h': string, a': nat)
    requires |h| == |h'| && IdempotencyKey(h, a) == IdempotencyKey(h', a')
    ensures h == h' && a == a'
  {
    var k, k' := IdempotencyKey(h, a), IdempotencyKey(h', a');
    assert k[..|h|] == h && k'[..|h|] == h';
    assert k[|h| + 1..] == NatText(a) && k'[|h| + 1..] == NatText(a');
    NatTextIsInjective(a, a');
  }
}
