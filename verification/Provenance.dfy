/**
 * Where reports come from, over every schedule: each report in the log was minted for a paper intent that the log
 * stores under the report's own key (services/paper_cycle.py, ops/control_plane.py).
 */
module Provenance {
  import opened Wrappers
  import opened Vocabulary
  import opened Trade
  import opened AuditLog
  import opened Brokers
  import opened PaperCycle
  import opened Cancellation
  import opened Authentication
  import opened Protocol

  ghost predicate Stored(rows: seq<Row>, i: BrokerSubmitIntent) {
    exists m: nat :: m < |rows| && rows[m].idempotencyKey == Some(i.idempotencyKey)
        && rows[m].payload == SubmitRecord(i)
  }

  ghost predicate Backed(rows: seq<Row>, e: ExecutionReport) { exists i :: Stored(rows, i) && Vouches(i, e) }

  ghost predicate BackedQueue(rows: seq<Row>, queue: seq<Identified>) {
    forall j :: 0 <= j < |queue| ==> Stored(rows, queue[j].intent) && queue[j].intent.submitMode == PAPER
  }

  /** What a process holds in memory is backed by the log. */
  ghost predicate BackedPhase(rows: seq<Row>, phase: Phase) {
    match phase
    case Idle => true
    case Attempted(i) => Stored(rows, i)
    case Answered(i, _) => Stored(rows, i) && i.submitMode == PAPER
    case Authenticating(_, done) => BackedQueue(rows, done)
    case Cancelling(queue) => BackedQueue(rows, queue)
    case Closing(report, rest) => Backed(rows, report) && BackedQueue(rows, rest)
  }

  ghost predicate BackedRows(rows: seq<Row>) {
    forall j :: 0 <= j < |rows| && rows[j].payload.ReportRecord? ==> Backed(rows, rows[j].payload.report)
  }

  ghost predicate Traceable(w: World) {
    BackedRows(w.rows) && forall p :: p in w.phases ==> BackedPhase(w.rows, w.phases[p])
  }

  /* ---- nothing is ever lost ---- */

  lemma StoredStays(rows: seq<Row>, later: seq<Row>, i: BrokerSubmitIntent)
    requires rows <= later && Stored(rows, i)
    ensures Stored(later, i)
  {
    var m: nat :| m < |rows| && rows[m].idempotencyKey == Some(i.idempotencyKey) && rows[m].payload == SubmitRecord(i);
    assert later[m] == rows[m];
  }

  lemma BackedStays(rows: seq<Row>, later: seq<Row>, e: ExecutionReport)
    requires rows <= later && Backed(rows, e)
    ensures Backed(later, e)
  {
    var i :| Stored(rows, i) && Vouches(i, e);
    StoredStays(rows, later, i);
  }

  lemma BackedQueueStays(rows: seq<Row>, later: seq<Row>, queue: seq<Identified>)
    requires rows <= later && BackedQueue(rows, queue)
    ensures BackedQueue(later, queue)
  {
    forall j | 0 <= j < |queue| ensures Stored(later, queue[j].intent) { StoredStays(rows, later, queue[j].intent); }
  }

  lemma BackedPhaseStays(rows: seq<Row>, later: seq<Row>, phase: Phase)
    requires rows <= later && BackedPhase(rows, phase)
    ensures BackedPhase(later, phase)
  {
    match phase
    case Idle =>
    case Attempted(i) => StoredStays(rows, later, i);
    case Answered(i, _) => StoredStays(rows, later, i);
    case Authenticating(_, done) => BackedQueueStays(rows, later, done);
    case Cancelling(queue) => BackedQueueStays(rows, later, queue);
    case Closing(report, rest) =>
      BackedStays(rows, later, report);
      BackedQueueStays(rows, later, rest);
  }

  /** One more row, backed if it is a report, and one process in a backed phase. */
  lemma AppendStaysTraceable(rows: seq<Row>, row: Row)
    requires BackedRows(rows) && (row.payload.ReportRecord? ==> Backed(rows, row.payload.report))
    ensures BackedRows(rows + [row])
  {
    var later := rows + [row];
    forall j | 0 <= j < |later| && later[j].payload.ReportRecord? ensures Backed(later, later[j].payload.report) {
      BackedStays(rows, later, later[j].payload.report);
    }
  }

  lemma MoveStaysTraceable(w: World, w': World, pid: nat, phase: Phase)
    requires Traceable(w) && w.rows <= w'.rows && BackedRows(w'.rows)
    requires w'.phases == w.phases[pid := phase] && BackedPhase(w'.rows, phase)
    ensures Traceable(w')
  {
    forall p | p in w'.phases ensures BackedPhase(w'.rows, w'.phases[p]) {
      if p != pid { BackedPhaseStays(w.rows, w'.rows, w.phases[p]); }
    }
  }

  lemma LogStaysTraceable(w: World, w': World)
    requires Traceable(w) && w.rows <= w'.rows && BackedRows(w'.rows) && w'.phases == w.phases
    ensures Traceable(w')
  {
    forall p | p in w'.phases ensures BackedPhase(w'.rows, w'.phases[p]) {
      BackedPhaseStays(w.rows, w'.rows, w.phases[p]);
    }
  }

  /* ---- the steps ---- */

  lemma MintedReportIsVouched(i: BrokerSubmitIntent, fill: BrokerFill)
    requires i.submitMode == PAPER && ReportOf(i, fill).Ok?
    ensures Vouches(i, ReportOf(i, fill).value)
  {
  }

  lemma PersistIsTraceable(env: Env, w: World, pid: nat, i: BrokerSubmitIntent, recordedAt: Time)
    requires Traceable(w) && Persisted(env, w, pid, i, recordedAt).Some?
    ensures Traceable(Persisted(env, w, pid, i, recordedAt).value)
  {
    var row := SubmitRow(env, w.rows, i, recordedAt);
    AppendStaysTraceable(w.rows, row);
    assert (w.rows + [row])[|w.rows|] == row;
    MoveStaysTraceable(w, Persisted(env, w, pid, i, recordedAt).value, pid, Attempted(i));
  }

  lemma CallIsTraceable(env: Env, w: World, pid: nat, paper: PaperBrokerConfig, behaviour: Behaviour, name: string,
                        approval: Option<PaperSubmitApproval>, now: Time)
    requires Traceable(w) && w.PhaseOf(pid).Attempted?
    ensures Traceable(Called(env, w, pid, paper, behaviour, name, approval, now).value)
  {
    var i := w.PhaseOf(pid).intent;
    var reply := PaperSubmit(env, paper, w.book, behaviour, name, i, approval, now);
    assert BackedPhase(w.rows, w.phases[pid]);
    assert reply.result.Ok? ==> i.submitMode == PAPER;
    var next := if reply.result.Ok? then Answered(i, reply.result.value) else Idle;
    MoveStaysTraceable(w, w.(book := reply.book, calls := w.calls + multiset{i.idempotencyKey}).Now(pid, next), pid,
                       next);
  }

  lemma WithReportIsTraceable(env: Env, w: World, pid: nat, report: ExecutionReport, recordedAt: Time, next: Phase)
    requires Traceable(w) && Backed(w.rows, report) && BackedPhase(w.rows, next)
    ensures Traceable(WithReport(env, w, pid, report, recordedAt, next))
  {
    var row := RowFor(env, |w.rows| + 1, ReportRecord(report), report.EventTime(), recordedAt, None);
    AppendStaysTraceable(w.rows, row);
    BackedPhaseStays(w.rows, w.rows + [row], next);
    MoveStaysTraceable(w, WithReport(env, w, pid, report, recordedAt, next), pid, next);
  }

  lemma ReportIsTraceable(env: Env, w: World, pid: nat, recordedAt: Time)
    requires Traceable(w) && w.PhaseOf(pid).Answered?
    ensures Traceable(Reported(env, w, pid, recordedAt).value)
  {
    var i, fill := w.PhaseOf(pid).answered, w.PhaseOf(pid).fill;
    assert BackedPhase(w.rows, w.phases[pid]);
    ReportSteps(env, w, pid, recordedAt);
    if ReportOf(i, fill).Ok? {
      MintedReportIsVouched(i, fill);
      WithReportIsTraceable(env, w, pid, ReportOf(i, fill).value, recordedAt, Idle);
    } else {
      MoveStaysTraceable(w, w.Now(pid, Idle), pid, Idle);
    }
  }

  lemma AuthenticateIsTraceable(env: Env, w: World, pid: nat)
    requires ValidLog(env, w.rows) && Traceable(w) && w.PhaseOf(pid).Authenticating?
    ensures Traceable(Authenticated(env, w, pid).value)
  {
    var phase := w.PhaseOf(pid);
    assert BackedPhase(w.rows, w.phases[pid]);
    if phase.todo == [] {
      MoveStaysTraceable(w, w.Now(pid, Cancelling(phase.done)), pid, Cancelling(phase.done));
    } else {
      var i := Resolve(env, w.rows, phase.todo[0]);
      var next := if i.Err? then Idle
                  else Authenticating(phase.todo[1..], phase.done + [Identified(phase.todo[0], i.value)]);
      if i.Ok? { AuthenticatedStaysBacked(env, w.rows, phase.todo[0], phase.done, i.value); }
      MoveStaysTraceable(w, w.Now(pid, next), pid, next);
    }
  }

  lemma AuthenticatedStaysBacked(env: Env, rows: seq<Row>, fill: BrokerFill, done: seq<Identified>,
                                 i: BrokerSubmitIntent)
    requires ValidLog(env, rows) && BackedQueue(rows, done) && Resolve(env, rows, fill) == Ok(i)
    ensures BackedQueue(rows, done + [Identified(fill, i)])
  {
    ResolvedIsStored(env, rows, fill, i);
  }

  lemma ResolvedIsStored(env: Env, rows: seq<Row>, fill: BrokerFill, i: BrokerSubmitIntent)
    requires ValidLog(env, rows) && Resolve(env, rows, fill) == Ok(i)
    ensures Stored(rows, i) && i.submitMode == PAPER
  {
    ResolveIsExact(env, rows, fill, i);
    var j: nat, m: nat :| Proves(rows, fill, i, j, m);
    assert ValidRow(env, rows[j], j);
  }

  lemma CancelNextIsTraceable(w: World, pid: nat, ack: Acknowledge, now: Time)
    requires Traceable(w) && w.PhaseOf(pid).Cancelling?
    ensures Traceable(CancelledNext(w, pid, ack, now).value)
  {
    var queue := w.PhaseOf(pid).queue;
    assert BackedPhase(w.rows, w.phases[pid]);
    if queue == [] {
      MoveStaysTraceable(w, w.Now(pid, Idle), pid, Idle);
    } else {
      var q := queue[0];
      var reply := CancelReply(w.book, ack, q.fill.orderId.value, now);
      var report := TerminalReport(q, reply.result);
      var next := if report.Err? then Idle else Closing(report.value, queue[1..]);
      if report.Ok? { assert Vouches(q.intent, report.value); }
      MoveStaysTraceable(w, w.(book := reply.book).Now(pid, next), pid, next);
    }
  }

  lemma CloseIsTraceable(env: Env, w: World, pid: nat, recordedAt: Time)
    requires Traceable(w) && w.PhaseOf(pid).Closing?
    ensures Traceable(Closed(env, w, pid, recordedAt).value)
  {
    var phase := w.PhaseOf(pid);
    assert BackedPhase(w.rows, w.phases[pid]);
    ReportSteps(env, w, pid, recordedAt);
    WithReportIsTraceable(env, w, pid, phase.report, recordedAt, Cancelling(phase.rest));
  }

  lemma SubmitSteps(env: Env, w: World, a: Action)
    requires Apply(env, w, a).Some?
    ensures a.Persist? ==> Apply(env, w, a) == Persisted(env, w, a.pid, a.intent, a.recordedAt)
    ensures a.Call? ==>
              w.PhaseOf(a.pid).Attempted?
              && Apply(env, w, a) == Called(env, w, a.pid, a.paper, a.behaviour, a.name, a.approval, a.now)
    ensures a.PersistReport? ==> w.PhaseOf(a.pid).Answered? && Apply(env, w, a) == Reported(env, w, a.pid, a.recordedAt)
    ensures a.Note? ==>
              !a.record.ReportRecord?
              && Apply(env, w, a) == Some(w.(rows := Logged(env, w.rows, a.record, a.createdAt, a.recordedAt)))
  {
  }

  lemma OtherStepIsTraceable(env: Env, w: World, a: Action)
    requires Traceable(w) && Apply(env, w, a).Some?
    requires a.Note? || a.FlattenOrder? || a.Crash? || a.BrokerRestart? || a.ListOpen?
    ensures Traceable(Apply(env, w, a).value)
  {
    var w' := Apply(env, w, a).value;
    match a
    case Note(r, createdAt, recordedAt) =>
      SubmitSteps(env, w, a);
      AppendStaysTraceable(w.rows, RowFor(env, |w.rows| + 1, r, createdAt, recordedAt, None));
      LogStaysTraceable(w, w');
    case FlattenOrder(id, now) => LogStaysTraceable(w, w');
    case BrokerRestart => LogStaysTraceable(w, w');
    case Crash(pid) => MoveStaysTraceable(w, w', pid, Idle);
    case ListOpen(pid) =>
      PhaselessSteps(env, w, pid, "", 0);
      MoveStaysTraceable(w, w', pid, Authenticating(OpenOrders(w.book), []));
  }

  lemma StepIsTraceable(env: Env, w: World, a: Action)
    requires ValidLog(env, w.rows) && Traceable(w) && Apply(env, w, a).Some?
    ensures Traceable(Apply(env, w, a).value)
  {
    SubmitSteps(env, w, a);
    CancelSteps(env, w, a);
    match a
    case Persist(pid, i, recordedAt) => PersistIsTraceable(env, w, pid, i, recordedAt);
    case Call(pid, paper, behaviour, name, approval, now) =>
      CallIsTraceable(env, w, pid, paper, behaviour, name, approval, now);
    case PersistReport(pid, recordedAt) => ReportIsTraceable(env, w, pid, recordedAt);
    case Authenticate(pid) => AuthenticateIsTraceable(env, w, pid);
    case CancelNext(pid, ack, now) => CancelNextIsTraceable(w, pid, ack, now);
    case PersistTerminal(pid, recordedAt) => CloseIsTraceable(env, w, pid, recordedAt);
    case _ => OtherStepIsTraceable(env, w, a);
  }

  lemma {:induction false} RunIsTraceable(env: Env, w: World, schedule: seq<Action>)
    requires Inv(env, w) && Traceable(w) && Run(env, w, schedule).Some?
    ensures Traceable(Run(env, w, schedule).value)
    decreases |schedule|
  {
    if schedule != [] {
      StepKeepsInv(env, w, schedule[0]);
      StepIsTraceable(env, w, schedule[0]);
      RunIsTraceable(env, Apply(env, w, schedule[0]).value, schedule[1..]);
    }
  }

  /** After every schedule each persisted report was minted for a paper intent that is stored under its key. */
  lemma EveryReportIsBacked(env: Env, schedule: seq<Action>, row: Row)
    requires Run(env, Genesis, schedule).Some?
    requires row in Run(env, Genesis, schedule).value.rows && row.payload.ReportRecord?
    ensures Backed(Run(env, Genesis, schedule).value.rows, row.payload.report)
  {
    RunIsTraceable(env, Genesis, schedule);
  }
}
