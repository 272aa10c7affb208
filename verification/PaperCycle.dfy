/**
 * One paper-trading cycle: validate, route, persist the attempt, call the broker, persist the report
 * (services/paper_cycle.py).
 */
module PaperCycle {
  import opened Wrappers
  import opened Vocabulary
  import opened Trade
  import opened Gateway
  import opened Orders
  import opened AuditLog
  import opened Brokers

  datatype AppConfig = AppConfig(
    appEnv: AppEnv, brokerMode: BrokerMode, liveSubmitEnabled: bool, submissionEnabled: bool, paperSubmitEnabled: bool)

  /** The configuration and the broker must both be paper-armed and require human confirmation. */
  predicate PaperSafe(app: AppConfig, paper: PaperBrokerConfig) {
    && app.appEnv == VM_PAPER && app.brokerMode == PAPER_MODE && !app.liveSubmitEnabled
    && app.submissionEnabled && app.paperSubmitEnabled
    && paper.brokerMode == PAPER_MODE && !paper.liveSubmitEnabled && paper.Armed() && paper.requireHumanConfirm
  }

  datatype PaperSubmitRequest = PaperSubmitRequest(request: GatewayRequest, limitPrice: Option<real>)

  type Confirmer = BrokerSubmitIntent -> Option<PaperSubmitApproval>

  /** What stays fixed during one cycle; `clock` is the wall-clock reading at the n-th broker call. */
  datatype Setup = Setup(
    env: Env,
    decide: GatewayRequest -> GatewayDecision,
    paper: PaperBrokerConfig,
    behaviour: Behaviour,
    brokerName: string,
    routing: OrderRoutingState,
    confirmer: Option<Confirmer>,
    attempt: int,
    recordedAt: Time,
    clock: nat -> Time
  )

  datatype Outcome =
    | GatewayRejected
    | Deferred
    | DuplicateSkipped
    | SubmitFailed
    | Submitted
    | Raised(error: OrderError)

  /** `called` lists the keys the paper broker has been called with so far. */
  datatype ItemResult = ItemResult(rows: seq<Row>, book: Book, called: seq<string>, recordIds: seq<string>,
                                   outcome: Outcome)

  function ArtifactName(su: Setup, tag: string, ordinal: nat): string {
    "paper-" + tag + "-" + su.env.isoText(su.recordedAt) + "-" + NatText(ordinal)
  }

  function CycleArtifact(su: Setup, tag: string, ordinal: nat, decision: string, reason: ReasonCode): Record {
    ArtifactRecord(AuditArtifact(ArtifactName(su, tag, ordinal), su.recordedAt, decision, [reason]))
  }

  function Noted(su: Setup, s: ItemResult, r: Record, createdAt: Time): ItemResult {
    s.(rows := Logged(su.env, s.rows, r, createdAt, su.recordedAt), recordIds := s.recordIds + [RecordId(su.env, r)])
  }

  /** Persist the attempt, call the broker, persist what it answered. */
  function SubmitAndReport(su: Setup, s: ItemResult, ordinal: nat, i: BrokerSubmitIntent,
                           a: PaperSubmitApproval): ItemResult
  {
    if KeyTaken(s.rows, i.idempotencyKey) then
      Noted(su, s, CycleArtifact(su, "dupe", ordinal, "PAPER_SUBMIT_DUPLICATE_SKIPPED", INTERNAL_CONTRADICTION),
            su.recordedAt)
        .(outcome := DuplicateSkipped)
    else
      var persisted := s.(rows := s.rows + [SubmitRow(su.env, s.rows, i, su.recordedAt)],
                          recordIds := s.recordIds + [i.idempotencyKey]);
      var reply := PaperSubmit(su.env, su.paper, s.book, su.behaviour, su.brokerName, i, Some(a), su.clock(ordinal));
      AfterReply(su, persisted.(book := reply.book, called := s.called + [i.idempotencyKey]), ordinal, i, reply.result)
  }

  function AfterReply(su: Setup, s: ItemResult, ordinal: nat, i: BrokerSubmitIntent,
                      result: Result<BrokerFill, BrokerError>): ItemResult
  {
    match result
    case Err(e) =>
      Noted(su, s, CycleArtifact(su, "submitfail", ordinal, "REJECT", ReasonOf(e)),
            su.recordedAt).(outcome := SubmitFailed)
    case Ok(fill) =>
      var report := ReportOf(i, fill);
      if report.Err? then s.(outcome := Raised(report.error))
      else Noted(su, s, ReportRecord(report.value), report.value.EventTime()).(outcome := Submitted)
  }

  function ReportOf(i: BrokerSubmitIntent, fill: BrokerFill): Result<ExecutionReport, OrderError> {
    MintExecutionReport(i, fill.orderId.value, fill.lifecycle, fill.filled, fill.avgPrice, fill.fillAt,
                        fill.completedAt)
  }

  /** What happens to an item once its ticket has been minted. */
  function FromTicket(su: Setup, s: ItemResult, ordinal: nat, item: PaperSubmitRequest, t: OrderTicket): ItemResult {
    var noted := Noted(su, s, TicketRecord(t), t.createdAt);
    if t.orderType == LIMIT && item.limitPrice.None? then
      Noted(su, noted, CycleArtifact(su, "noprice", ordinal, "PAPER_SUBMIT_DEFERRED", PRICE_STALE),
            su.recordedAt).(outcome := Deferred)
    else
      var i := MintSubmitIntent(su.env, t, su.attempt, PAPER, if t.orderType == LIMIT then item.limitPrice else None,
                                item.request.asOf);
      if i.Err? then noted.(outcome := Raised(i.error)) else FromIntent(su, noted, ordinal, i.value)
  }

  /** What happens to an item once its submit intent has been minted: without an approval nothing is submitted. */
  function FromIntent(su: Setup, s: ItemResult, ordinal: nat, i: BrokerSubmitIntent): ItemResult {
    var a := if su.confirmer.Some? then su.confirmer.value(i) else None;
    if a.None? then
      Noted(su, s, CycleArtifact(su, "noconfirm", ordinal, "PAPER_SUBMIT_DEFERRED", HUMAN_REARM_REQUIRED),
            su.recordedAt).(outcome := Deferred)
    else SubmitAndReport(su, s, ordinal, i, a.value)
  }

  /** What happens to an item once the gateway has decided. */
  function FromDecision(su: Setup, s: ItemResult, ordinal: nat, item: PaperSubmitRequest,
                        d: GatewayDecision): ItemResult
  {
    match d
    case Refused(artifact) => Noted(su, s, ArtifactRecord(artifact), artifact.createdAt).(outcome := GatewayRejected)
    case Approved(validated) =>
      var noted := Noted(su, s, ValidatedRecord(validated), item.request.asOf);
      var t := MintOrderTicket(validated, su.routing, item.request.asOf);
      if t.Err? then noted.(outcome := Raised(t.error)) else FromTicket(su, noted, ordinal, item, t.value)
  }

  /** The effect of one work item on the log and the broker. */
  function RunItem(su: Setup, rows: seq<Row>, book: Book, called: seq<string>, ordinal: nat,
                   item: PaperSubmitRequest): ItemResult
  {
    var s := Noted(su, ItemResult(rows, book, called, [], Submitted), RequestRecord(item.request), item.request.asOf);
    FromDecision(su, s, ordinal, item, su.decide(item.request))
  }

  datatype Tally = Tally(rejected: nat, deferred: nat, submitted: nat, failed: nat, duplicates: nat)

  function Counted(t: Tally, o: Outcome): Tally {
    match o
    case GatewayRejected => t.(rejected := t.rejected + 1)
    case Deferred => t.(deferred := t.deferred + 1)
    case DuplicateSkipped => t.(duplicates := t.duplicates + 1)
    case SubmitFailed => t.(failed := t.failed + 1)
    case Submitted => t.(submitted := t.submitted + 1)
    case Raised(_) => t
  }

  datatype CycleState = CycleState(rows: seq<Row>, book: Book, called: seq<string>, recordIds: seq<string>,
                                   tally: Tally, error: Option<OrderError>)

  function StartArtifact(su: Setup): Record {
    ArtifactRecord(AuditArtifact("paper-startup-" + su.env.isoText(su.recordedAt), su.recordedAt, "PAPER_CYCLE_START",
                                 []))
  }

  function Started(su: Setup, rows: seq<Row>, book: Book, called: seq<string>): CycleState {
    CycleState(Logged(su.env, rows, StartArtifact(su), su.recordedAt, su.recordedAt), book, called,
               [RecordId(su.env, StartArtifact(su))], Tally(0, 0, 0, 0, 0), None)
  }

  /** The effect of the n-th work item as a function of the state it finds. */
  type Step = (seq<Row>, Book, seq<string>, nat) -> ItemResult

  function ItemStep(su: Setup, items: seq<PaperSubmitRequest>): Step {
    (rows, book, called, n: nat) =>
      if n < |items| then RunItem(su, rows, book, called, n, items[n]) else ItemResult(rows, book, called, [], Deferred)
  }

  function Advance(s: CycleState, r: ItemResult): CycleState {
    CycleState(r.rows, r.book, r.called, s.recordIds + r.recordIds, Counted(s.tally, r.outcome),
               if r.outcome.Raised? then Some(r.outcome.error) else None)
  }

  /** The state after the first `n` items, or after the first one that raised. */
  function Loop(step: Step, start: CycleState, n: nat): CycleState {
    if n == 0 then start
    else
      var s := Loop(step, start, n - 1);
      if s.error.Some? then s else Advance(s, step(s.rows, s.book, s.called, n - 1))
  }

  /** The whole cycle over the given log and broker. */
  function Cycle(su: Setup, rows: seq<Row>, book: Book, called: seq<string>,
                 items: seq<PaperSubmitRequest>): CycleState
  {
    Loop(ItemStep(su, items), Started(su, rows, book, called), |items|)
  }

  datatype CycleError = NotPaperSafe | RoutingStateMissing | OrderPathRaised(error: OrderError)

  datatype PaperCycleResult = PaperCycleResult(requestsEvaluated: nat, tally: Tally, auditRecordIds: seq<string>)

  /* ---- every record the cycle writes can exist ---- */

  lemma CycleArtifactIsCoherent(su: Setup, tag: string, ordinal: nat, decision: string, reason: ReasonCode)
    ensures Coherent(su.env, CycleArtifact(su, tag, ordinal, decision, reason))
    ensures Coherent(su.env, StartArtifact(su))
  {
    assert ArtifactName(su, tag, ordinal)[0] == 'p';
  }

  /* ---- the imperative cycle ---- */

  method Audit(store: AuditStore, r: Record, createdAt: Time, recordedAt: Time) returns (id: string)
    requires store.Valid() && Coherent(store.env, r)
    modifies store
    ensures store.Valid()
    ensures store.rows == Logged(store.env, old(store.rows), r, createdAt, recordedAt) && id == RecordId(store.env, r)
  {
    var result := store.Append(r, createdAt, recordedAt, None);
    id := result.value.recordId;
  }

  ghost predicate Wired(su: Setup, store: AuditStore, broker: LocalPaperBroker) {
    && su.env == store.env == broker.env && su.paper == broker.config
    && su.behaviour == broker.inner.behaviour && su.brokerName == broker.inner.name
    && UsesGateway(su)
  }

  /** The cycle decides with the deterministic gateway. */
  ghost predicate UsesGateway(su: Setup) {
    forall r {:trigger Decide(su.env, r)} :: su.decide(r) == Decide(su.env, r)
  }

  method Gate(su: Setup, request: GatewayRequest) returns (decision: GatewayDecision)
    requires UsesGateway(su)
    ensures decision == su.decide(request) && SoundDecision(request, decision)
  {
    decision := Validate(su.env, request);
    GatewayIsExact(su.env, request);
  }

  /** Persist before call, call, persist after call. */
  method SubmitPersisted(su: Setup, store: AuditStore, broker: LocalPaperBroker, ordinal: nat, i: BrokerSubmitIntent,
                         a: PaperSubmitApproval, ids: seq<string>) returns (outcome: Outcome, recordIds: seq<string>)
    requires store.Valid() && broker.inner.Valid() && Wired(su, store, broker) && IntentCoherent(su.env, i)
    modifies store, broker, broker.inner
    ensures store.Valid() && broker.inner.Valid()
    ensures ItemResult(store.rows, broker.inner.TheBook(), broker.calls, recordIds, outcome)
         == SubmitAndReport(su, ItemResult(old(store.rows), old(broker.inner.TheBook()), old(broker.calls), ids,
                                           Submitted), ordinal, i, a)
  {
    var event := store.RecordSubmitAttempt(i, su.recordedAt);
    if event.Err? {
      CycleArtifactIsCoherent(su, "dupe", ordinal, "PAPER_SUBMIT_DUPLICATE_SKIPPED", INTERNAL_CONTRADICTION);
      var id := Audit(store, CycleArtifact(su, "dupe", ordinal, "PAPER_SUBMIT_DUPLICATE_SKIPPED",
                                           INTERNAL_CONTRADICTION),
                      su.recordedAt, su.recordedAt);
      return DuplicateSkipped, ids + [id];
    }
    recordIds := ids + [event.value.recordId];
    var fill := broker.SubmitOrder(i, Some(a), su.clock(ordinal));
    outcome, recordIds := RecordReply(su, store, ordinal, i, fill, recordIds, broker.inner.TheBook(), broker.calls);
  }

  /** Persist what the broker answered. */
  method RecordReply(su: Setup, store: AuditStore, ordinal: nat, i: BrokerSubmitIntent,
                     fill: Result<BrokerFill, BrokerError>,
                     ids: seq<string>, ghost book: Book, ghost calls: seq<string>)
    returns (outcome: Outcome, recordIds: seq<string>)
    requires store.Valid() && su.env == store.env
    modifies store
    ensures store.Valid()
    ensures ItemResult(store.rows, book, calls, recordIds, outcome)
         == AfterReply(su, ItemResult(old(store.rows), book, calls, ids, Submitted), ordinal, i, fill)
  {
    if fill.Err? {
      CycleArtifactIsCoherent(su, "submitfail", ordinal, "REJECT", ReasonOf(fill.error));
      var id := Audit(store, CycleArtifact(su, "submitfail", ordinal, "REJECT", ReasonOf(fill.error)), su.recordedAt,
                      su.recordedAt);
      return SubmitFailed, ids + [id];
    }
    var report := ReportOf(i, fill.value);
    if report.Err? { return Raised(report.error), ids; }
    var id := Audit(store, ReportRecord(report.value), report.value.EventTime(), su.recordedAt);
    outcome, recordIds := Submitted, ids + [id];
  }

  /** One pass of the cycle's loop body. */
  method ProcessItem(su: Setup, store: AuditStore, broker: LocalPaperBroker, ordinal: nat, item: PaperSubmitRequest)
    returns (outcome: Outcome, recordIds: seq<string>)
    requires store.Valid() && broker.inner.Valid() && Wired(su, store, broker)
    modifies store, broker, broker.inner
    ensures store.Valid() && broker.inner.Valid()
    ensures ItemResult(store.rows, broker.inner.TheBook(), broker.calls, recordIds, outcome)
         == RunItem(su, old(store.rows), old(broker.inner.TheBook()), old(broker.calls), ordinal, item)
  {
    var id := Audit(store, RequestRecord(item.request), item.request.asOf, su.recordedAt);
    var decision := Gate(su, item.request);
    assert Noted(su, ItemResult(old(store.rows), old(broker.inner.TheBook()), old(broker.calls), [], Submitted),
                 RequestRecord(item.request), item.request.asOf)
        == ItemResult(store.rows, broker.inner.TheBook(), broker.calls, [id], Submitted);
    outcome, recordIds := ProcessDecision(su, store, broker, ordinal, item, decision, [id]);
  }

  method ProcessDecision(su: Setup, store: AuditStore, broker: LocalPaperBroker, ordinal: nat, item: PaperSubmitRequest,
                         decision: GatewayDecision, ids: seq<string>) returns (outcome: Outcome, recordIds: seq<string>)
    requires store.Valid() && broker.inner.Valid() && Wired(su, store, broker) && SoundDecision(item.request, decision)
    modifies store, broker, broker.inner
    ensures store.Valid() && broker.inner.Valid()
    ensures ItemResult(store.rows, broker.inner.TheBook(), broker.calls, recordIds, outcome)
         == FromDecision(su, ItemResult(old(store.rows), old(broker.inner.TheBook()), old(broker.calls), ids,
                                        Submitted), ordinal, item, decision)
  {
    if decision.Refused? {
      var id := Audit(store, ArtifactRecord(decision.artifact), decision.artifact.createdAt, su.recordedAt);
      return GatewayRejected, ids + [id];
    }
    var validated := decision.validated;
    var id := Audit(store, ValidatedRecord(validated), item.request.asOf, su.recordedAt);
    recordIds := ids + [id];
    var ticket := MintOrderTicket(validated, su.routing, item.request.asOf);
    if ticket.Err? { return Raised(ticket.error), recordIds; }
    outcome, recordIds := ProcessTicket(su, store, broker, ordinal, item, ticket.value, recordIds);
  }

  method ProcessTicket(su: Setup, store: AuditStore, broker: LocalPaperBroker, ordinal: nat, item: PaperSubmitRequest,
                       ticket: OrderTicket, ids: seq<string>) returns (outcome: Outcome, recordIds: seq<string>)
    requires store.Valid() && broker.inner.Valid() && Wired(su, store, broker) && ticket.Coherent()
    modifies store, broker, broker.inner
    ensures store.Valid() && broker.inner.Valid()
    ensures ItemResult(store.rows, broker.inner.TheBook(), broker.calls, recordIds, outcome)
         == FromTicket(su, ItemResult(old(store.rows), old(broker.inner.TheBook()), old(broker.calls), ids, Submitted),
                       ordinal, item, ticket)
  {
    var id := Audit(store, TicketRecord(ticket), ticket.createdAt, su.recordedAt);
    recordIds := ids + [id];
    if ticket.orderType == LIMIT && item.limitPrice.None? {
      CycleArtifactIsCoherent(su, "noprice", ordinal, "PAPER_SUBMIT_DEFERRED", PRICE_STALE);
      id := Audit(store, CycleArtifact(su, "noprice", ordinal, "PAPER_SUBMIT_DEFERRED", PRICE_STALE), su.recordedAt,
                  su.recordedAt);
      return Deferred, recordIds + [id];
    }
    var price := if ticket.orderType == LIMIT then item.limitPrice else None;
    var intent := MintSubmitIntent(su.env, ticket, su.attempt, PAPER, price, item.request.asOf);
    if intent.Err? { return Raised(intent.error), recordIds; }
    outcome, recordIds := ProcessIntent(su, store, broker, ordinal, intent.value, recordIds);
  }

  method ProcessIntent(su: Setup, store: AuditStore, broker: LocalPaperBroker, ordinal: nat, i: BrokerSubmitIntent,
                       ids: seq<string>) returns (outcome: Outcome, recordIds: seq<string>)
    requires store.Valid() && broker.inner.Valid() && Wired(su, store, broker) && IntentCoherent(su.env, i)
    modifies store, broker, broker.inner
    ensures store.Valid() && broker.inner.Valid()
    ensures ItemResult(store.rows, broker.inner.TheBook(), broker.calls, recordIds, outcome)
         == FromIntent(su, ItemResult(old(store.rows), old(broker.inner.TheBook()), old(broker.calls), ids, Submitted),
                       ordinal, i)
  {
    var approval := if su.confirmer.Some? then su.confirmer.value(i) else None;
    if approval.None? {
      CycleArtifactIsCoherent(su, "noconfirm", ordinal, "PAPER_SUBMIT_DEFERRED", HUMAN_REARM_REQUIRED);
      var id := Audit(store, CycleArtifact(su, "noconfirm", ordinal, "PAPER_SUBMIT_DEFERRED", HUMAN_REARM_REQUIRED),
                      su.recordedAt, su.recordedAt);
      return Deferred, ids + [id];
    }
    outcome, recordIds := SubmitPersisted(su, store, broker, ordinal, i, approval.value, ids);
  }

  /** The whole cycle: five counters and the record ids accumulate over the requests. */
  method RunPaperCycle(app: AppConfig, su: Setup, routingPresent: bool, store: AuditStore, broker: LocalPaperBroker,
                       requests: seq<PaperSubmitRequest>) returns (result: Result<PaperCycleResult, CycleError>)
    requires store.Valid() && broker.inner.Valid() && Wired(su, store, broker)
    modifies store, broker, broker.inner
    ensures store.Valid() && broker.inner.Valid()
    ensures !PaperSafe(app, su.paper) ==> result == Err(NotPaperSafe)
    ensures PaperSafe(app, su.paper) && requests != [] && !routingPresent ==> result == Err(RoutingStateMissing)
    ensures !PaperSafe(app, su.paper) || (requests != [] && !routingPresent) ==>
              store.rows == old(store.rows) && broker.inner.TheBook() == old(broker.inner.TheBook())
                  && broker.calls == old(broker.calls)
    ensures PaperSafe(app, su.paper) && (requests == [] || routingPresent) ==>
              var s := Cycle(su, old(store.rows), old(broker.inner.TheBook()), old(broker.calls), requests);
              && store.rows == s.rows && broker.inner.TheBook() == s.book && broker.calls == s.called
              && result == if s.error.Some? then Err(OrderPathRaised(s.error.value))
                           else Ok(PaperCycleResult(|requests|, s.tally, s.recordIds))
  {
    if !PaperSafe(app, su.paper) { return Err(NotPaperSafe); }
    if requests != [] && !routingPresent { return Err(RoutingStateMissing); }
    ItemStepImplements(su, requests);
    var tally, recordIds, error := CycleLoop(su, store, broker, requests, ItemStep(su, requests));
    if error.Some? { return Err(OrderPathRaised(error.value)); }
    result := Ok(PaperCycleResult(|requests|, tally, recordIds));
  }

  ghost predicate Implements(step: Step, su: Setup, items: seq<PaperSubmitRequest>) {
    forall rows, book, called, n {:trigger RunItem(su, rows, book, called, n, items[n])} ::
      0 <= n < |items| ==> step(rows, book, called, n) == RunItem(su, rows, book, called, n, items[n])
  }

  lemma ItemStepImplements(su: Setup, items: seq<PaperSubmitRequest>)
    ensures Implements(ItemStep(su, items), su, items)
  {
  }

  method TakeStep(su: Setup, store: AuditStore, broker: LocalPaperBroker, requests: seq<PaperSubmitRequest>, n: nat,
                  ghost step: Step)
    returns (outcome: Outcome, recordIds: seq<string>)
    requires store.Valid() && broker.inner.Valid() && Wired(su, store, broker) && n < |requests|
        && Implements(step, su, requests)
    modifies store, broker, broker.inner
    ensures store.Valid() && broker.inner.Valid()
    ensures ItemResult(store.rows, broker.inner.TheBook(), broker.calls, recordIds, outcome)
        == step(old(store.rows), old(broker.inner.TheBook()), old(broker.calls), n)
  {
    outcome, recordIds := ProcessItem(su, store, broker, n, requests[n]);
  }

  method CycleLoop(su: Setup, store: AuditStore, broker: LocalPaperBroker, requests: seq<PaperSubmitRequest>,
                   ghost step: Step)
    returns (tally: Tally, recordIds: seq<string>, error: Option<OrderError>)
    requires store.Valid() && broker.inner.Valid() && Wired(su, store, broker) && Implements(step, su, requests)
    modifies store, broker, broker.inner
    ensures store.Valid() && broker.inner.Valid()
    ensures CycleState(store.rows, broker.inner.TheBook(), broker.calls, recordIds, tally, error)
         == Loop(step, Started(su, old(store.rows), old(broker.inner.TheBook()), old(broker.calls)), |requests|)
  {
    ghost var start := Started(su, store.rows, broker.inner.TheBook(), broker.calls);
    CycleArtifactIsCoherent(su, "", 0, "", PRICE_STALE);
    var id := Audit(store, StartArtifact(su), su.recordedAt, su.recordedAt);
    tally, recordIds, error := Tally(0, 0, 0, 0, 0), [id], None;
    for n := 0 to |requests|
      invariant store.Valid() && broker.inner.Valid()
      invariant CycleState(store.rows, broker.inner.TheBook(), broker.calls, recordIds, tally, None)
          == Loop(step, start, n)
    {
      ghost var before := Loop(step, start, n);
      var outcome, ids := TakeStep(su, store, broker, requests, n, step);
      recordIds := recordIds + ids;
      tally := Counted(tally, outcome);
      assert Loop(step, start, n + 1) == Advance(before,
                                                 ItemResult(store.rows, broker.inner.TheBook(), broker.calls, ids,
                                                            outcome));
      if outcome.Raised? {
        RaisedStops(step, start, n + 1, |requests|);
        return tally, recordIds, Some(outcome.error);
      }
    }
    return tally, recordIds, None;
  }

  lemma {:induction false} RaisedStops(step: Step, start: CycleState, m: nat, n: nat)
    requires m <= n && Loop(step, start, m).error.Some?
    ensures Loop(step, start, n) == Loop(step, start, m)
  {
    if m < n { RaisedStops(step, start, m, n - 1); }
  }
}
