/**
 * The operator service as an object over a store, an optional broker and the registry of human authorizations
 * (ops/control_plane.py).
 */
module OperatorService {
  import opened Wrappers
  import opened Vocabulary
  import opened Trade
  import opened AuditLog
  import opened Brokers
  import opened ControlPlane
  import opened Cancellation

  /** An opaque capability: it has no field, so nothing on it can be changed. */
  class HumanAuthorization {
    constructor () {}
  }

  /** What a caller presents as authorization: anything at all, or a token. */
  datatype Presented = Forged | Token(token: HumanAuthorization)

  datatype ConfirmationError = PhraseDidNotMatch

  /** Command bindings by token identity; only confirmation writes them. */
  class AuthRegistry {
    var bindings: map<HumanAuthorization, Command>

    constructor ()
      ensures bindings == map[]
    {
      bindings := map[];
    }

    function AuthorizedCommand(auth: Presented): Option<Command>
      reads this
    {
      if auth.Token? && auth.token in bindings then Some(bindings[auth.token]) else None
    }

    /** Mints a fresh token bound to the command, and never re-points an existing one. */
    method ConfirmHuman(command: Command, typed: string, expected: string)
        returns (result: Result<HumanAuthorization, ConfirmationError>)
      modifies this
      ensures result.Ok? <==> typed == expected
      ensures result.Err? ==> bindings == old(bindings)
      ensures result.Ok? ==> fresh(result.value) && bindings == old(bindings)[result.value := command]
      ensures forall t :: t in old(bindings) ==> t in bindings && bindings[t] == old(bindings)[t]
    {
      if typed != expected { return Err(PhraseDidNotMatch); }
      var auth := new HumanAuthorization();
      bindings := bindings[auth := command];
      result := Ok(auth);
    }
  }

  datatype StatusReport = StatusReport(
    halted: bool,
    reasonCode: Option<ReasonCode>,
    rearmMode: Option<ReArmMode>,
    commandId: Option<string>,
    brokerMode: Option<BrokerMode>,
    totalEvents: nat,
    generatedAt: Time)

  function ReportOn(state: Option<KillSwitchState>, mode: Option<BrokerMode>, events: nat, now: Time): StatusReport {
    match state
    case None => StatusReport(false, None, None, None, mode, events, now)
    case Some(s) => StatusReport(s.halted, s.reasonCode, s.rearmMode, Some(s.commandId), mode, events, now)
  }

  /** After an authorized halt the switch is the one the operator asked for, and status says so. */
  lemma HaltIsReported(env: Env, rows: seq<Row>, rearm: ReArmMode, note: string, now: Time, mode: Option<BrokerMode>,
                       events: nat, later: Time)
    requires ValidLog(env, rows)
    ensures var after := AfterHalt(env, rows, Some(HALT), rearm, note, now);
      && |after| == |rows| + 2
      && after[|rows|].payload.ArtifactRecord? && after[|rows|].payload.artifact.decision == "HALT"
      && var id := after[|rows|].payload.artifact.artifactId;
      && CurrentKillSwitch(env, after)
         == Ok(Some(KillSwitchState(true, Some(OPERATOR_HALT_COMMAND), Some(rearm), id, now, note)))
      && ReportOn(CurrentKillSwitch(env, after).value, mode, events, later)
         == StatusReport(true, Some(OPERATOR_HALT_COMMAND), Some(rearm), Some(id), mode, events, later)
  {
    var state := HaltState(env, rows, rearm, note, now);
    assert |state.commandId| > 0;
    ArtifactMovesNothing(env, rows, HALT, "HALT", now);
    SwitchIsCurrent(env, Audited(env, rows, HALT, "HALT", now), state, now);
  }

  /** After an authorized resume no halt, reason or re-arm mode is left. */
  lemma ResumeIsReported(env: Env, rows: seq<Row>, note: string, now: Time, mode: Option<BrokerMode>, events: nat,
                         later: Time)
    requires ValidLog(env, rows)
    ensures var after := AfterResume(env, rows, Some(RESUME), note, now);
      && |after| == |rows| + 2
      && after[|rows|].payload.ArtifactRecord? && after[|rows|].payload.artifact.decision == "RESUME"
      && var id := after[|rows|].payload.artifact.artifactId;
      && CurrentKillSwitch(env, after) == Ok(Some(KillSwitchState(false, None, None, id, now, note)))
      && ReportOn(CurrentKillSwitch(env, after).value, mode, events, later)
         == StatusReport(false, None, None, Some(id), mode, events, later)
  {
    var state := ResumeState(env, rows, note, now);
    assert |state.commandId| > 0;
    ArtifactMovesNothing(env, rows, RESUME, "RESUME", now);
    SwitchIsCurrent(env, Audited(env, rows, RESUME, "RESUME", now), state, now);
  }

  lemma SwitchIsCurrent(env: Env, rows: seq<Row>, state: KillSwitchState, now: Time)
    requires ValidLog(env, rows) && state.Coherent()
    ensures CurrentKillSwitch(env, Logged(env, rows, KillSwitchRecord(state), now, now)) == Ok(Some(state))
  {
    LoggedKeepsValid(env, rows, KillSwitchRecord(state), now, now);
    var row := RowFor(env, |rows| + 1, KillSwitchRecord(state), now, now, None);
    LastAfterAppend(rows, row, KILL_SWITCH_STATE);
    KillSwitchIsReadable(env, Logged(env, rows, KillSwitchRecord(state), now, now));
  }

  class Service {
    const store: AuditStore
    const broker: FakeBroker?
    const mode: Option<BrokerMode>
    const registry: AuthRegistry

    constructor (store: AuditStore, broker: FakeBroker?, mode: Option<BrokerMode>, registry: AuthRegistry)
      ensures this.store == store && this.broker == broker && this.mode == mode && this.registry == registry
    {
      this.store, this.broker, this.mode, this.registry := store, broker, mode, registry;
    }

    ghost predicate Valid()
      reads this, store, broker
    {
      store.Valid() && (broker != null ==> broker.Valid())
    }

    function BookOf(): Book
      reads broker
    {
      if broker == null then EmptyBook else broker.TheBook()
    }

    /** Writes the one artifact of a command. */
    method Audit(c: Command, decision: string, now: Time)
      requires store.Valid()
      requires (decision == "REJECT" || decision == "HALT") ==> c == HALT || c == RESUME || c == CANCEL || c == FLATTEN
      modifies store
      ensures store.Valid() && store.rows == Audited(store.env, old(store.rows), c, decision, now)
    {
      ArtifactIsCoherent(store.env, store.rows, c, decision, now);
      var _ := store.Append(CommandArtifact(store.env, store.rows, c, decision, now), now, now, None);
    }

    /** A refused attempt is audited before the refusal is raised. */
    method RequireHuman(auth: Presented, c: Command, now: Time) returns (granted: bool)
      requires store.Valid() && (c == HALT || c == RESUME || c == CANCEL || c == FLATTEN)
      modifies store
      ensures store.Valid()
      ensures granted <==> registry.AuthorizedCommand(auth) == Some(c)
      ensures store.rows == if granted then old(store.rows) else Audited(store.env, old(store.rows), c, "REJECT", now)
    {
      granted := registry.AuthorizedCommand(auth) == Some(c);
      if !granted { Audit(c, "REJECT", now); }
    }

    method HaltNewEntries(auth: Presented, rearm: ReArmMode, note: string, now: Time) returns (granted: bool)
      requires store.Valid()
      modifies store
      ensures store.Valid()
      ensures granted <==> registry.AuthorizedCommand(auth) == Some(HALT)
      ensures store.rows == AfterHalt(store.env, old(store.rows), registry.AuthorizedCommand(auth), rearm, note, now)
    {
      granted := RequireHuman(auth, HALT, now);
      if !granted { return; }
      var state := HaltState(store.env, store.rows, rearm, note, now);
      assert |state.commandId| > 0;
      Audit(HALT, "HALT", now);
      var _ := store.Append(KillSwitchRecord(state), now, now, None);
    }

    method ResumeNewEntries(auth: Presented, note: string, now: Time) returns (granted: bool)
      requires store.Valid()
      modifies store
      ensures store.Valid()
      ensures granted <==> registry.AuthorizedCommand(auth) == Some(RESUME)
      ensures store.rows == AfterResume(store.env, old(store.rows), registry.AuthorizedCommand(auth), note, now)
    {
      granted := RequireHuman(auth, RESUME, now);
      if !granted { return; }
      var state := ResumeState(store.env, store.rows, note, now);
      assert |state.commandId| > 0;
      Audit(RESUME, "RESUME", now);
      var _ := store.Append(KillSwitchRecord(state), now, now, None);
    }

    /**
     * Reading the switch never fails on a valid log, writes nothing but the read's own artifact and reports the whole
     * state.
     */
    method Status(now: Time) returns (report: StatusReport)
      requires store.Valid()
      modifies store
      ensures store.Valid() && store.rows == Audited(store.env, old(store.rows), STATUS, "READ", now)
      ensures CurrentKillSwitch(store.env, old(store.rows)).Ok?
      ensures report == ReportOn(CurrentKillSwitch(store.env, old(store.rows)).value, mode, |old(store.rows)| + 1, now)
      ensures report.halted <==> !NewEntriesAllowed(store.env, old(store.rows))
    {
      KillSwitchIsReadable(store.env, store.rows);
      Audit(STATUS, "READ", now);
      KillSwitchIsReadable(store.env, store.rows);
      NewestSwitchStays(old(store.rows), store.rows);
      var state := CurrentKillSwitch(store.env, store.rows);
      report := ReportOn(state.value, mode, |store.rows|, now);
    }

    /** One order's identity: a set of keys and a dictionary of newest reports, filled in one pass over the reports. */
    method ResolveIdentity(fill: BrokerFill) returns (result: Result<BrokerSubmitIntent, CancelError>)
      requires store.Valid()
      ensures result == Resolve(store.env, store.rows, fill)
    {
      var id := fill.orderId.value;
      var keys, latest := CollectReports(store.rows, id);
      if keys == {} { return Err(NoPersistedReport); }
      if |keys| > 1 { return Err(AmbiguousIdentity); }
      LastReportFacts(store.rows, id);
      OnlyMember(keys, LastReportOf(store.rows, id).value.recordId);
      var key :| key in keys;
      result := CheckReport(store.env, store.rows, latest[key], fill);
    }

    /** Authentication of every open order; the broker is only asked for its list. */
    method ResolveOpenOrders(open: seq<BrokerFill>) returns (result: Result<seq<Identified>, CancelError>)
      requires store.Valid()
      ensures result == ResolveAll(ResolverFor(store.env, store.rows), open, |open|)
    {
      ghost var resolve := ResolverFor(store.env, store.rows);
      var queue: seq<Identified> := [];
      for n := 0 to |open|
        invariant Ok(queue) == ResolveAll(resolve, open, n)
      {
        var i := ResolveIdentity(open[n]);
        assert i == resolve(open[n]);
        if i.Err? {
          FailureEndsPhase(resolve, open, n + 1, |open|);
          return Err(i.error);
        }
        queue := queue + [Identified(open[n], i.value)];
      }
      result := Ok(queue);
    }

    /** Cancel one authenticated order, then persist its terminal report. */
    method CancelOne(q: Identified, reports: seq<ExecutionReport>, brokerNow: Time, now: Time)
      returns (later: seq<ExecutionReport>, error: Option<CancelError>)
      requires Valid() && broker != null
      modifies store, broker
      ensures Valid()
      ensures Batch(store.rows, broker.TheBook(), later, error)
           == BatchStep(store.env, Batch(old(store.rows), old(broker.TheBook()), reports, None), broker.acknowledge, q,
                        brokerNow, now)
    {
      var reply := broker.CancelOrder(q.fill.orderId.value, brokerNow);
      var report := TerminalReport(q, reply);
      if report.Err? { return reports, Some(report.error); }
      var _ := store.Append(ReportRecord(report.value), report.value.EventTime(), now, None);
      return reports + [report.value], None;
    }

    /** Phase two: one order after the other until one fails. */
    method CancelQueue(queue: seq<Identified>, clock: nat -> Time, now: Time, ghost step: BatchFn)
      returns (reports: seq<ExecutionReport>, error: Option<CancelError>)
      requires Valid() && broker != null && Performs(step, store.env, broker.acknowledge, queue, clock, now)
      modifies store, broker
      ensures Valid()
      ensures Batch(store.rows, broker.TheBook(), reports, error)
           == RunBatch(step, Batch(old(store.rows), old(broker.TheBook()), [], None), |queue|)
    {
      ghost var start := Batch(store.rows, broker.TheBook(), [], None);
      reports := [];
      for n := 0 to |queue|
        invariant Valid()
        invariant Batch(store.rows, broker.TheBook(), reports, None) == RunBatch(step, start, n)
      {
        ghost var s := RunBatch(step, start, n);
        assert step(s, n) == BatchStep(store.env, s, broker.acknowledge, queue[n], clock(n), now);
        reports, error := CancelOne(queue[n], reports, clock(n), now);
        if error.Some? {
          FailureEndsBatch(step, start, n + 1, |queue|);
          return;
        }
      }
      error := None;
    }

    /** Authenticate everything, cancel one by one, audit once. */
    method CancelOpenOrders(auth: Presented, clock: nat -> Time, now: Time) returns (result: Result<nat, CancelError>)
      requires Valid()
      modifies store, broker
      ensures Valid()
      ensures CancelOutcome(store.rows, BookOf(), result)
           == Cancellation.CancelOpenOrders(store.env, old(store.rows), old(BookOf()), AckOf(),
                                            registry.AuthorizedCommand(auth),
                                            broker != null, clock, now)
    {
      var granted := RequireHuman(auth, CANCEL, now);
      if !granted { return Err(NotAuthorized); }
      if broker == null {
        Audit(CANCEL, "REJECT", now);
        return Err(NoBroker);
      }
      result := CancelAtBroker(clock, now);
    }

    function AckOf(): Acknowledge { if broker == null then (f: BrokerFill) => Ok(f) else broker.acknowledge }

    method CancelAtBroker(clock: nat -> Time, now: Time) returns (result: Result<nat, CancelError>)
      requires Valid() && broker != null
      modifies store, broker
      ensures Valid()
      ensures CancelOutcome(store.rows, broker.TheBook(), result)
           == Conclude(store.env, Cancelled(store.env, old(store.rows), old(broker.TheBook()), broker.acknowledge,
                                            clock, now), now)
    {
      var open := broker.GetOpenOrders();
      var resolved := ResolveOpenOrders(open);
      if resolved.Err? {
        Audit(CANCEL, "REJECT", now);
        return Err(resolved.error);
      }
      ghost var step := BatchFor(store.env, broker.acknowledge, resolved.value, clock, now);
      BatchForPerforms(store.env, broker.acknowledge, resolved.value, clock, now);
      var reports, error := CancelQueue(resolved.value, clock, now, step);
      if error.Some? {
        Audit(CANCEL, "REJECT", now);
        return Err(error.value);
      }
      Audit(CANCEL, "CANCEL", now);
      result := Ok(|reports|);
    }

    /** Cancels working orders at the broker in PAPER mode only; the log gets one artifact and nothing else. */
    method FlattenPaperOnly(auth: Presented, clock: nat -> Time, now: Time) returns (result: Result<nat, CancelError>)
      requires Valid()
      modifies store, broker
      ensures Valid()
      ensures CancelOutcome(store.rows, BookOf(), result)
           == Cancellation.FlattenPaperOnly(store.env, old(store.rows), old(BookOf()), AckOf(),
                                            registry.AuthorizedCommand(auth),
                                            mode, broker != null, clock, now)
    {
      var granted := RequireHuman(auth, FLATTEN, now);
      if !granted { return Err(NotAuthorized); }
      if mode != Some(PAPER_MODE) {
        Audit(FLATTEN, "REJECT", now);
        return Err(WrongMode);
      }
      if broker == null {
        Audit(FLATTEN, "REJECT", now);
        return Err(NoBroker);
      }
      var open := broker.GetOpenOrders();
      var error := FlattenOrders(open, clock);
      if error.Some? {
        Audit(FLATTEN, "REJECT", now);
        return Err(BrokerFailed(error.value));
      }
      Audit(FLATTEN, "FLATTEN", now);
      result := Ok(|open|);
    }

    method FlattenOrders(open: seq<BrokerFill>, clock: nat -> Time) returns (error: Option<BrokerError>)
      requires broker != null && broker.Valid()
      modifies broker
      ensures broker.Valid()
      ensures Flattened(broker.TheBook(), error)
          == FlattenFirst(old(broker.TheBook()), broker.acknowledge, open, clock, |open|)
    {
      ghost var book := broker.TheBook();
      error := None;
      for n := 0 to |open|
        invariant broker.Valid()
        invariant Flattened(broker.TheBook(), None) == FlattenFirst(book, broker.acknowledge, open, clock, n)
      {
        ghost var s := FlattenFirst(book, broker.acknowledge, open, clock, n);
        error := FlattenOrder(open[n].orderId.value, clock(n));
        assert FlattenFirst(book, broker.acknowledge, open, clock, n + 1)
            == FlattenOne(s.book, broker.acknowledge, open[n].orderId.value, clock(n));
        if error.Some? {
          FailureEndsFlatten(book, broker.acknowledge, open, clock, n + 1, |open|);
          return;
        }
      }
      error := None;
    }

    method FlattenOrder(id: string, now: Time) returns (error: Option<BrokerError>)
      requires broker != null && broker.Valid()
      modifies broker
      ensures broker.Valid()
      ensures Flattened(broker.TheBook(), error) == FlattenOne(old(broker.TheBook()), broker.acknowledge, id, now)
    {
      var reply := broker.CancelOrder(id, now);
      error := if reply.Err? then Some(reply.error) else None;
    }
  }

  lemma {:induction false} FailureEndsFlatten(book: Book, ack: Acknowledge, open: seq<BrokerFill>, clock: nat -> Time,
                                              m: nat, n: nat)
    requires m <= n <= |open| && FlattenFirst(book, ack, open, clock, m).error.Some?
    ensures FlattenFirst(book, ack, open, clock, n) == FlattenFirst(book, ack, open, clock, m)
  {
    if m < n { FailureEndsFlatten(book, ack, open, clock, m, n - 1); }
  }

  ghost predicate Performs(step: BatchFn, env: Env, ack: Acknowledge, queue: seq<Identified>, clock: nat -> Time,
                           now: Time)
  {
    forall s, n {:trigger BatchStep(env, s, ack, queue[n], clock(n), now)} ::
      0 <= n < |queue| ==> step(s, n) == BatchStep(env, s, ack, queue[n], clock(n), now)
  }

  lemma BatchForPerforms(env: Env, ack: Acknowledge, queue: seq<Identified>, clock: nat -> Time, now: Time)
    ensures Performs(BatchFor(env, ack, queue, clock, now), env, ack, queue, clock, now)
  {
  }

  lemma {:induction false} FailureEndsBatch(step: BatchFn, start: Batch, m: nat, n: nat)
    requires m <= n && RunBatch(step, start, m).error.Some?
    ensures RunBatch(step, start, n) == RunBatch(step, start, m)
  {
    if m < n { FailureEndsBatch(step, start, m, n - 1); }
  }

  lemma {:induction false} FailureEndsPhase(resolve: Resolver, open: seq<BrokerFill>, m: nat, n: nat)
    requires m <= n <= |open| && ResolveAll(resolve, open, m).Err?
    ensures ResolveAll(resolve, open, n) == ResolveAll(resolve, open, m)
  {
    if m < n { FailureEndsPhase(resolve, open, m, n - 1); }
  }

  lemma OnlyMember(s: set<string>, x: string)
    requires x in s && |s| <= 1
    ensures forall y :: y in s ==> y == x
  {
    assert |s - {x}| == 0;
    assert s == (s - {x}) + {x};
  }

  method CollectReports(rows: seq<Row>, id: string) returns (keys: set<string>, latest: map<string, Row>)
    ensures keys == MatchingKeys(rows, id) == latest.Keys
    ensures keys == {} <==> LastReportOf(rows, id).None?
    ensures var last := LastReportOf(rows, id);
      last.Some? ==> last.value.recordId in latest && latest[last.value.recordId] == last.value
  {
    keys, latest := {}, map[];
    for i := 0 to |rows|
      invariant keys == MatchingKeys(rows[..i], id) == latest.Keys
      invariant keys == {} <==> LastReportOf(rows[..i], id).None?
      invariant var last := LastReportOf(rows[..i], id);
        last.Some? ==> last.value.recordId in latest && latest[last.value.recordId] == last.value
    {
      assert rows[..i + 1][..i] == rows[..i];
      if ReportsOrder(rows[i], id) {
        keys := keys + {rows[i].recordId};
        latest := latest[rows[i].recordId := rows[i]];
      }
    }
    assert rows[..|rows|] == rows;
  }
}
