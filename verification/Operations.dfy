/**
 * Everything a process can be asked to do, as whole operations: each is a schedule of the protocol, so what holds after
 * every schedule holds after every sequence of paper cycles and operator commands.
 */
module Operations {
  import opened Wrappers
  import opened Vocabulary
  import opened Trade
  import opened AuditLog
  import opened Brokers
  import opened PaperCycle
  import opened CycleProperties
  import opened ControlPlane
  import opened Cancellation
  import opened Protocol
  import opened Refinement

  /* ---- the cancel command ---- */

  /** The process after authenticating `n` open orders: still going, or stopped by the first that fails. */
  function AuthenticationPhase(resolve: Resolver, open: seq<BrokerFill>, n: nat): Phase
    requires n <= |open|
  {
    var r := ResolveAll(resolve, open, n);
    if r.Ok? then Authenticating(open[n..], r.value) else Idle
  }

  lemma ListingReaches(env: Env, w: World, pid: nat)
    requires IsIdle(w, pid)
    ensures Reaches(env, w, w.Now(pid, AuthenticationPhase(ResolverFor(env, w.rows), OpenOrders(w.book), 0)))
  {
    assert OpenOrders(w.book)[0..] == OpenOrders(w.book);
    PhaselessSteps(env, w, pid, "", 0);
    StepReaches(env, w, ListOpen(pid));
  }

  lemma {:induction false} AuthenticationReaches(env: Env, w: World, pid: nat, open: seq<BrokerFill>, n: nat)
    requires IsIdle(w, pid) && open == OpenOrders(w.book) && n <= |open|
    ensures Reaches(env, w, w.Now(pid, AuthenticationPhase(ResolverFor(env, w.rows), open, n)))
  {
    var resolve := ResolverFor(env, w.rows);
    if n == 0 {
      ListingReaches(env, w, pid);
    } else {
      AuthenticationReaches(env, w, pid, open, n - 1);
      var before, after := AuthenticationPhase(resolve, open, n - 1), AuthenticationPhase(resolve, open, n);
      if ResolveAll(resolve, open, n - 1).Ok? {
        AuthenticateOne(env, w, pid, resolve, open, n);
        ReachesComposes(env, w, w.Now(pid, before), w.Now(pid, after));
      }
    }
  }

  function AuthenticatedPhase(i: Result<BrokerSubmitIntent, CancelError>, fill: BrokerFill, rest: seq<BrokerFill>,
                              done: seq<Identified>): Phase
  {
    if i.Err? then Idle else Authenticating(rest, done + [Identified(fill, i.value)])
  }

  lemma AuthenticateReaches(env: Env, w: World, pid: nat, fill: BrokerFill, rest: seq<BrokerFill>,
                            done: seq<Identified>)
    ensures Reaches(env, w.Now(pid, Authenticating([fill] + rest, done)),
                    w.Now(pid, AuthenticatedPhase(Resolve(env, w.rows, fill), fill, rest, done)))
  {
    var before := Authenticating([fill] + rest, done);
    var after := AuthenticatedPhase(Resolve(env, w.rows, fill), fill, rest, done);
    assert before.todo[0] == fill && before.todo[1..] == rest;
    LastPhaseCounts(w, pid, before, after);
    assert Authenticated(env, w.Now(pid, before), pid) == Some(w.Now(pid, after));
    StepReaches(env, w.Now(pid, before), Authenticate(pid));
  }

  lemma AuthenticateOne(env: Env, w: World, pid: nat, resolve: Resolver, open: seq<BrokerFill>, n: nat)
    requires 0 < n <= |open| && resolve(open[n - 1]) == Resolve(env, w.rows, open[n - 1])
        && ResolveAll(resolve, open, n - 1).Ok?
    ensures Reaches(env, w.Now(pid, AuthenticationPhase(resolve, open, n - 1)),
                    w.Now(pid, AuthenticationPhase(resolve, open, n)))
  {
    var done := ResolveAll(resolve, open, n - 1).value;
    assert open[n - 1..] == [open[n - 1]] + open[n..];
    AuthenticateReaches(env, w, pid, open[n - 1], open[n..], done);
    assert AuthenticationPhase(resolve, open, n)
        == AuthenticatedPhase(resolve(open[n - 1]), open[n - 1], open[n..], done);
  }

  /** Cancelling one order of the queue: one broker call, then one terminal report or the end. */
  lemma BatchStepReaches(env: Env, w: World, pid: nat, s: Batch, q: Identified, rest: seq<Identified>, ack: Acknowledge,
                         brokerNow: Time, now: Time)
    requires pid in w.phases && w.phases[pid] == Cancelling([q] + rest) && s.rows == w.rows && s.book == w.book
    ensures var t := BatchStep(env, s, ack, q, brokerNow, now);
      Reaches(env, w, World(t.rows, t.book, w.phases, w.calls).Now(pid,
                                                                   if t.error.Some? then Idle else Cancelling(rest)))
  {
    var reply := CancelReply(w.book, ack, q.fill.orderId.value, brokerNow);
    var report := TerminalReport(q, reply.result);
    assert ([q] + rest)[0] == q && ([q] + rest)[1..] == rest;
    var called := World(w.rows, reply.book, w.phases, w.calls);
    var next := if report.Err? then Idle else Closing(report.value, rest);
    assert CancelledNext(w, pid, ack, brokerNow) == Some(called.Now(pid, next));
    StepReaches(env, w, CancelNext(pid, ack, brokerNow));
    if report.Ok? { CloseReaches(env, w, pid, called, report.value, rest, now); }
  }

  lemma CloseReaches(env: Env, w: World, pid: nat, called: World, report: ExecutionReport, rest: seq<Identified>,
                     now: Time)
    requires Reaches(env, w, called.Now(pid, Closing(report, rest)))
    ensures Reaches(env, w, called.(rows := Logged(env, called.rows, ReportRecord(report), report.EventTime(),
                                                   now)).Now(pid, Cancelling(rest)))
  {
    var closing := called.Now(pid, Closing(report, rest));
    var end := called.(rows := Logged(env, called.rows, ReportRecord(report), report.EventTime(), now));
    LastPhaseCounts(end, pid, Closing(report, rest), Cancelling(rest));
    assert Closed(env, closing, pid, now) == Some(end.Now(pid, Cancelling(rest)));
    StepReaches(env, closing, PersistTerminal(pid, now));
    ReachesComposes(env, w, closing, end.Now(pid, Cancelling(rest)));
  }

  function BatchPhase(s: Batch, queue: seq<Identified>, n: nat): Phase
    requires n <= |queue|
  {
    if s.error.Some? then Idle else Cancelling(queue[n..])
  }

  function BatchWorld(w: World, pid: nat, s: Batch, queue: seq<Identified>, n: nat): World
    requires n <= |queue|
  {
    World(s.rows, s.book, w.phases, w.calls).Now(pid, BatchPhase(s, queue, n))
  }

  /** Every step of the batch, from any state of log and broker, is a schedule. */
  ghost predicate BatchStepsReach(env: Env, w: World, pid: nat, step: BatchFn, queue: seq<Identified>) {
    forall s: Batch, n: nat :: n < |queue| && s.error.None? ==>
      Reaches(env, BatchWorld(w, pid, s, queue, n), BatchWorld(w, pid, step(s, n), queue, n + 1))
  }

  lemma BatchForReaches(env: Env, w: World, pid: nat, ack: Acknowledge, queue: seq<Identified>, clock: nat -> Time,
                        now: Time)
    ensures BatchStepsReach(env, w, pid, BatchFor(env, ack, queue, clock, now), queue)
  {
    var step := BatchFor(env, ack, queue, clock, now);
    forall s: Batch, n: nat | n < |queue| && s.error.None?
      ensures Reaches(env, BatchWorld(w, pid, s, queue, n), BatchWorld(w, pid, step(s, n), queue, n + 1))
    {
      assert queue[n..] == [queue[n]] + queue[n + 1..];
      var before := BatchWorld(w, pid, s, queue, n);
      BatchStepReaches(env, before, pid, s, queue[n], queue[n + 1..], ack, clock(n), now);
      var t := step(s, n);
      LastPhaseCounts(World(t.rows, t.book, w.phases, w.calls), pid, BatchPhase(s, queue, n),
                      BatchPhase(t, queue, n + 1));
    }
  }

  lemma {:induction false} BatchReaches(env: Env, w: World, pid: nat, step: BatchFn, queue: seq<Identified>,
                                        start: Batch, n: nat)
    requires n <= |queue| && BatchStepsReach(env, w, pid, step, queue) && start.error.None?
    ensures Reaches(env, BatchWorld(w, pid, start, queue, 0), BatchWorld(w, pid, RunBatch(step, start, n), queue, n))
  {
    var first := BatchWorld(w, pid, start, queue, 0);
    if n == 0 {
      StayingReaches(env, first);
    } else {
      BatchReaches(env, w, pid, step, queue, start, n - 1);
      var s := RunBatch(step, start, n - 1);
      assert s.error.Some? ==> BatchPhase(s, queue, n) == BatchPhase(s, queue, n - 1);
      if s.error.None? {
        ReachesComposes(env, first, BatchWorld(w, pid, s, queue, n - 1), BatchWorld(w, pid, step(s, n - 1), queue, n));
      }
    }
  }

  /** Both phases of the cancel command, without its closing artifact. */
  lemma CancelledDoes(env: Env, w: World, pid: nat, ack: Acknowledge, clock: nat -> Time, now: Time)
    requires IsIdle(w, pid)
    ensures var s := Cancelled(env, w.rows, w.book, ack, clock, now); Does(env, w, s.rows, s.book, w.calls)
  {
    var open, resolve := OpenOrders(w.book), ResolverFor(env, w.rows);
    AuthenticationReaches(env, w, pid, open, |open|);
    match ResolveAll(resolve, open, |open|)
    case Err(_) => StayingDoes(env, w);
    case Ok(queue) =>
      assert AuthenticationPhase(resolve, open, |open|) == Authenticating([], queue);
      QueueDoes(env, w, pid, ack, queue, clock, now);
  }

  lemma QueueDoes(env: Env, w: World, pid: nat, ack: Acknowledge, queue: seq<Identified>, clock: nat -> Time, now: Time)
    requires IsIdle(w, pid) && Reaches(env, w, w.Now(pid, Authenticating([], queue)))
    ensures var s := RunBatch(BatchFor(env, ack, queue, clock, now), Batch(w.rows, w.book, [], None), |queue|);
      Does(env, w, s.rows, s.book, w.calls)
  {
    var step, start := BatchFor(env, ack, queue, clock, now), Batch(w.rows, w.book, [], None);
    var s := RunBatch(step, start, |queue|);
    QueueStarts(env, w, pid, queue, start);
    BatchForReaches(env, w, pid, ack, queue, clock, now);
    BatchReaches(env, w, pid, step, queue, start, |queue|);
    ReachesComposes(env, w, BatchWorld(w, pid, start, queue, 0), BatchWorld(w, pid, s, queue, |queue|));
    BatchEnds(env, w, pid, s, queue, ack, now);
  }

  lemma QueueStarts(env: Env, w: World, pid: nat, queue: seq<Identified>, start: Batch)
    requires Reaches(env, w, w.Now(pid, Authenticating([], queue))) && start == Batch(w.rows, w.book, [], None)
    ensures Reaches(env, w, BatchWorld(w, pid, start, queue, 0))
  {
    var authenticated, first := w.Now(pid, Authenticating([], queue)), w.Now(pid, Cancelling(queue));
    LastPhaseCounts(w, pid, Authenticating([], queue), Cancelling(queue));
    StepReaches(env, authenticated, Authenticate(pid));
    ReachesComposes(env, w, authenticated, first);
    assert queue[0..] == queue;
  }

  lemma BatchEnds(env: Env, w: World, pid: nat, s: Batch, queue: seq<Identified>, ack: Acknowledge, now: Time)
    requires IsIdle(w, pid) && Reaches(env, w, BatchWorld(w, pid, s, queue, |queue|))
    ensures Does(env, w, s.rows, s.book, w.calls)
  {
    var last, end := BatchWorld(w, pid, s, queue, |queue|), World(s.rows, s.book, w.phases, w.calls);
    BackToIdle(end, pid, BatchPhase(s, queue, |queue|));
    if s.error.Some? {
      assert end.phases[pid := Idle] == end.phases;
    } else {
      assert CancelledNext(last, pid, ack, now) == Some(end);
      StepReaches(env, last, CancelNext(pid, ack, now));
      ReachesComposes(env, w, last, end);
    }
  }

  lemma AuditDoes(env: Env, w: World, rows: seq<Row>, book: Book, c: Command, decision: string, now: Time)
    requires Does(env, w, rows, book, w.calls)
    requires c == HALT || c == RESUME || c == CANCEL || c == FLATTEN || (decision != "REJECT" && decision != "HALT")
    ensures Does(env, w, Audited(env, rows, c, decision, now), book, w.calls)
  {
    var mid := World(rows, book, w.phases, w.calls);
    ArtifactIsCoherent(env, rows, c, decision, now);
    NoteDoes(env, mid, CommandArtifact(env, rows, c, decision, now), now, now);
    DoesAfter(env, w, mid, Audited(env, rows, c, decision, now), book, w.calls);
  }

  lemma CancelDoes(env: Env, w: World, pid: nat, ack: Acknowledge, bound: Option<Command>, hasBroker: bool,
                   clock: nat -> Time, now: Time)
    requires IsIdle(w, pid)
    ensures var out := CancelOpenOrders(env, w.rows, w.book, ack, bound, hasBroker, clock, now);
      Does(env, w, out.rows, out.book, w.calls)
  {
    if bound != Some(CANCEL) || !hasBroker {
      StayingDoes(env, w);
      AuditDoes(env, w, w.rows, w.book, CANCEL, "REJECT", now);
    } else {
      var s := Cancelled(env, w.rows, w.book, ack, clock, now);
      CancelledDoes(env, w, pid, ack, clock, now);
      AuditDoes(env, w, s.rows, s.book, CANCEL, if s.error.Some? then "REJECT" else "CANCEL", now);
    }
  }

  /* ---- flatten and the kill switch ---- */

  lemma {:induction false} FlattenReaches(env: Env, w: World, ack: Acknowledge, open: seq<BrokerFill>,
                                          clock: nat -> Time, n: nat)
    requires n <= |open|
    ensures Reaches(env, w, w.(book := FlattenFirst(w.book, ack, open, clock, n).book))
  {
    if n == 0 {
      StayingReaches(env, w);
    } else {
      FlattenReaches(env, w, ack, open, clock, n - 1);
      var s := FlattenFirst(w.book, ack, open, clock, n - 1);
      if s.error.None? {
        var mid := w.(book := s.book);
        StepReaches(env, mid, FlattenOrder(open[n - 1].orderId.value, clock(n - 1)));
        ReachesComposes(env, w, mid, w.(book := FlattenOne(s.book, ack, open[n - 1].orderId.value, clock(n - 1)).book));
      }
    }
  }

  lemma FlattenDoes(env: Env, w: World, ack: Acknowledge, bound: Option<Command>, mode: Option<BrokerMode>,
                    hasBroker: bool,
                    clock: nat -> Time, now: Time)
    ensures var out := FlattenPaperOnly(env, w.rows, w.book, ack, bound, mode, hasBroker, clock, now);
      Does(env, w, out.rows, out.book, w.calls)
  {
    if bound != Some(FLATTEN) || mode != Some(PAPER_MODE) || !hasBroker {
      StayingDoes(env, w);
      AuditDoes(env, w, w.rows, w.book, FLATTEN, "REJECT", now);
    } else {
      var open := OpenOrders(w.book);
      var s := FlattenFirst(w.book, ack, open, clock, |open|);
      FlattenReaches(env, w, ack, open, clock, |open|);
      assert w.(book := s.book) == World(w.rows, s.book, w.phases, w.calls);
      AuditDoes(env, w, w.rows, s.book, FLATTEN, FlattenDecision(s), now);
    }
  }

  lemma SwitchDoes(env: Env, w: World, c: Command, decision: string, state: KillSwitchState, now: Time)
    requires (c == HALT || c == RESUME) && state.Coherent()
    ensures Does(env, w, Logged(env, Audited(env, w.rows, c, decision, now), KillSwitchRecord(state), now, now), w.book,
                 w.calls)
  {
    var rows := Audited(env, w.rows, c, decision, now);
    NoteDoes(env, w.(rows := rows), KillSwitchRecord(state), now, now);
    ArtifactIsCoherent(env, w.rows, c, decision, now);
    NoteThenDoes(env, w, CommandArtifact(env, w.rows, c, decision, now), now, now,
                 Logged(env, rows, KillSwitchRecord(state), now, now), w.book, w.calls);
  }

  /* ---- any sequence of operations ---- */

  datatype Job =
    | CycleJob(su: Setup, items: seq<PaperSubmitRequest>)
    | StatusJob(now: Time)
    | HaltJob(bound: Option<Command>, rearm: ReArmMode, note: string, now: Time)
    | ResumeJob(bound: Option<Command>, note: string, now: Time)
    | CancelJob(ack: Acknowledge, bound: Option<Command>, hasBroker: bool, clock: nat -> Time, now: Time)
    | RestartJob
    | FlattenJob(ack: Acknowledge, bound: Option<Command>, mode: Option<BrokerMode>, hasBroker: bool,
                 clock: nat -> Time, now: Time)

  /** The log, the broker, and the keys the paper broker has been called with. */
  datatype Site = Site(rows: seq<Row>, book: Book, called: seq<string>)

  function AfterJob(env: Env, d: Site, job: Job): Site {
    match job
    case CycleJob(su, items) =>
      var s := Cycle(su, d.rows, d.book, d.called, items);
      Site(s.rows, s.book, s.called)
    case RestartJob => d.(book := EmptyBook)
    case StatusJob(now) => d.(rows := Audited(env, d.rows, STATUS, "READ", now))
    case HaltJob(bound, rearm, note, now) => d.(rows := AfterHalt(env, d.rows, bound, rearm, note, now))
    case ResumeJob(bound, note, now) => d.(rows := AfterResume(env, d.rows, bound, note, now))
    case CancelJob(ack, bound, hasBroker, clock, now) =>
      var out := CancelOpenOrders(env, d.rows, d.book, ack, bound, hasBroker, clock, now);
      d.(rows := out.rows, book := out.book)
    case FlattenJob(ack, bound, mode, hasBroker, clock, now) =>
      var out := FlattenPaperOnly(env, d.rows, d.book, ack, bound, mode, hasBroker, clock, now);
      d.(rows := out.rows, book := out.book)
  }

  /** Everything but a paper cycle and a restart of the broker. */
  predicate IsCommand(job: Job) { !job.CycleJob? && !job.RestartJob? }

  ghost predicate Runnable(env: Env, job: Job) { job.CycleJob? ==> job.su.env == env && UsesGateway(job.su) }

  /** The effect of the n-th job as a function of the site it finds. */
  type JobFn = (Site, nat) -> Site

  function JobStep(env: Env, jobs: seq<Job>): JobFn {
    (d, n: nat) => if n < |jobs| then AfterJob(env, d, jobs[n]) else d
  }

  function Sites(step: JobFn, n: nat): Site {
    if n == 0 then Site([], EmptyBook, []) else step(Sites(step, n - 1), n - 1)
  }

  /** The log, the broker and the calls after the first `n` jobs. */
  function AfterJobs(env: Env, jobs: seq<Job>, n: nat): Site { Sites(JobStep(env, jobs), n) }

  lemma JobDoes(env: Env, w: World, pid: nat, called: seq<string>, job: Job)
    requires IsIdle(w, pid) && w.calls == multiset(called) && Runnable(env, job)
    ensures var d := AfterJob(env, Site(w.rows, w.book, called), job); Does(env, w, d.rows, d.book, multiset(d.called))
  {
    match job
    case CycleJob(su, items) =>
      CycleIsASchedule(su, w, pid, called, items);
    case RestartJob => RestartDoes(env, w);
    case StatusJob(now) => StatusDoes(env, w, now);
    case HaltJob(bound, rearm, note, now) => HaltDoes(env, w, bound, rearm, note, now);
    case ResumeJob(bound, note, now) => ResumeDoes(env, w, bound, note, now);
    case CancelJob(ack, bound, hasBroker, clock, now) => CancelDoes(env, w, pid, ack, bound, hasBroker, clock, now);
    case FlattenJob(ack, bound, mode, hasBroker, clock, now) =>
      FlattenDoes(env, w, ack, bound, mode, hasBroker, clock, now);
  }

  lemma RestartDoes(env: Env, w: World)
    ensures Does(env, w, w.rows, EmptyBook, w.calls)
  {
    StepReaches(env, w, BrokerRestart);
    assert w.(book := EmptyBook) == World(w.rows, EmptyBook, w.phases, w.calls);
  }

  lemma StatusDoes(env: Env, w: World, now: Time)
    ensures Does(env, w, Audited(env, w.rows, STATUS, "READ", now), w.book, w.calls)
  {
    StayingDoes(env, w);
    AuditDoes(env, w, w.rows, w.book, STATUS, "READ", now);
  }

  lemma HaltDoes(env: Env, w: World, bound: Option<Command>, rearm: ReArmMode, note: string, now: Time)
    ensures Does(env, w, AfterHalt(env, w.rows, bound, rearm, note, now), w.book, w.calls)
  {
    if bound == Some(HALT) {
      var state := HaltState(env, w.rows, rearm, note, now);
      assert |state.commandId| > 0;
      SwitchDoes(env, w, HALT, "HALT", state, now);
    } else {
      StayingDoes(env, w);
      AuditDoes(env, w, w.rows, w.book, HALT, "REJECT", now);
    }
  }

  lemma ResumeDoes(env: Env, w: World, bound: Option<Command>, note: string, now: Time)
    ensures Does(env, w, AfterResume(env, w.rows, bound, note, now), w.book, w.calls)
  {
    if bound == Some(RESUME) {
      var state := ResumeState(env, w.rows, note, now);
      assert |state.commandId| > 0;
      SwitchDoes(env, w, RESUME, "RESUME", state, now);
    } else {
      StayingDoes(env, w);
      AuditDoes(env, w, w.rows, w.book, RESUME, "REJECT", now);
    }
  }

  /** A world with one idle process and the site's log, broker and calls. */
  ghost function AtRest(d: Site): World { World(d.rows, d.book, map[0 := Idle], multiset(d.called)) }

  ghost predicate StepsReach(env: Env, step: JobFn, count: nat) {
    forall d: Site, n: nat :: n < count ==> Reaches(env, AtRest(d), AtRest(step(d, n)))
  }

  lemma JobStepReaches(env: Env, jobs: seq<Job>, n: nat)
    requires n <= |jobs| && forall j :: 0 <= j < n ==> Runnable(env, jobs[j])
    ensures StepsReach(env, JobStep(env, jobs), n)
  {
    forall d: Site, m: nat | m < n ensures Reaches(env, AtRest(d), AtRest(JobStep(env, jobs)(d, m))) {
      JobDoes(env, AtRest(d), 0, d.called, jobs[m]);
    }
  }

  lemma {:induction false} SitesReach(env: Env, step: JobFn, n: nat)
    requires StepsReach(env, step, n)
    ensures Reaches(env, Genesis, AtRest(Sites(step, n)))
  {
    if n == 0 {
      StepReaches(env, Genesis, Crash(0));
      assert Genesis.Now(0, Idle) == AtRest(Site([], EmptyBook, []));
    } else {
      SitesReach(env, step, n - 1);
      ReachesComposes(env, Genesis, AtRest(Sites(step, n - 1)), AtRest(Sites(step, n)));
    }
  }

  /**
   * Any number of paper cycles, status reads, halts, resumes, cancels, flattens and broker restarts over one store
   * leave every broker order with a persisted submit attempt, every open one listed by recovery, and no key called
   * twice.
   */
  lemma EveryJobSequenceIsSafe(env: Env, jobs: seq<Job>, n: nat, k: string)
    requires n <= |jobs| && forall j :: 0 <= j < n ==> Runnable(env, jobs[j])
    ensures var d := AfterJobs(env, jobs, n);
      && ValidLog(env, d.rows) && ValidBook(d.book)
      && multiset(d.called)[k] <= 1
      && (k in d.book.fills ==> HasSubmit(d.rows, k))
      && (OpenAtBroker(d.book, k) ==> Unresolved(d.rows, k))
  {
    JobStepReaches(env, jobs, n);
    SitesReach(env, JobStep(env, jobs), n);
    var w := AtRest(AfterJobs(env, jobs, n));
    var schedule :| Run(env, Genesis, schedule) == Some(w);
    EveryRunIsCrashSafe(env, schedule, k);
    RecoveryIsExact(w.rows, k);
  }

  /* ---- what each command writes ---- */

  /** `later` extends `rows` by execution reports only. */
  ghost predicate OnlyReports(rows: seq<Row>, later: seq<Row>) {
    rows <= later && forall j :: |rows| <= j < |later| ==> later[j].recordType == EXECUTION_REPORT
  }

  ghost predicate StepsReport(step: BatchFn, count: nat) {
    forall s: Batch, n: nat :: n < count ==> OnlyReports(s.rows, step(s, n).rows)
  }

  lemma BatchForReports(env: Env, ack: Acknowledge, queue: seq<Identified>, clock: nat -> Time, now: Time)
    ensures StepsReport(BatchFor(env, ack, queue, clock, now), |queue|)
  {
    forall s: Batch, n: nat | n < |queue|
      ensures OnlyReports(s.rows, BatchFor(env, ack, queue, clock, now)(s, n).rows)
    {
      var report := TerminalReport(queue[n], CancelReply(s.book, ack, queue[n].fill.orderId.value, clock(n)).result);
      if report.Ok? {
        assert BatchStep(env, s, ack, queue[n], clock(n), now).rows
            == Logged(env, s.rows, ReportRecord(report.value), report.value.EventTime(), now);
      }
    }
  }

  lemma {:induction false} BatchReports(step: BatchFn, start: Batch, n: nat)
    requires StepsReport(step, n)
    ensures OnlyReports(start.rows, RunBatch(step, start, n).rows)
  {
    if n > 0 {
      BatchReports(step, start, n - 1);
      var s := RunBatch(step, start, n - 1);
      if s.error.None? { ReportsCompose(start.rows, s.rows, step(s, n - 1).rows); }
    }
  }

  lemma ReportsCompose(rows: seq<Row>, mid: seq<Row>, later: seq<Row>)
    requires OnlyReports(rows, mid) && OnlyReports(mid, later)
    ensures OnlyReports(rows, later)
  {
    forall j | |rows| <= j < |later| ensures later[j].recordType == EXECUTION_REPORT {
      if j < |mid| { assert later[j] == mid[j]; }
    }
  }

  /** Both phases of a cancel write nothing but execution reports. */
  lemma CancelledReports(env: Env, rows: seq<Row>, book: Book, ack: Acknowledge, clock: nat -> Time, now: Time)
    ensures OnlyReports(rows, Cancelled(env, rows, book, ack, clock, now).rows)
  {
    match Resolved(env, rows, book)
    case Err(_) =>
    case Ok(queue) =>
      BatchForReports(env, ack, queue, clock, now);
      BatchReports(BatchFor(env, ack, queue, clock, now), Batch(rows, book, [], None), |queue|);
  }

  /** The log before a command's artifact: the old one, for a cancel followed by its reports. */
  function BeforeArtifact(env: Env, d: Site, job: Job): seq<Row> {
    if job.CancelJob? && job.bound == Some(CANCEL) && job.hasBroker
    then Cancelled(env, d.rows, d.book, job.ack, job.clock, job.now).rows else d.rows
  }

  ghost predicate Artifact(env: Env, rows: seq<Row>, later: seq<Row>) {
    exists c, decision, now :: later == Audited(env, rows, c, decision, now)
  }

  /** One artifact and then one switch state. */
  ghost predicate EndsWithSwitch(env: Env, rows: seq<Row>, later: seq<Row>) {
    exists mid: seq<Row>, row: Row :: later == mid + [row] && row.recordType == KILL_SWITCH_STATE
        && Artifact(env, rows, mid)
  }

  lemma CommandShape(env: Env, d: Site, job: Job)
    requires IsCommand(job)
    ensures OnlyReports(d.rows, BeforeArtifact(env, d, job))
    ensures var later := AfterJob(env, d, job).rows;
      if IsEffective(job) then
        EndsWithSwitch(env, d.rows, later)
      else Artifact(env, BeforeArtifact(env, d, job), later)
  {
    match job
    case StatusJob(now) => assert Artifact(env, d.rows, Audited(env, d.rows, STATUS, "READ", now));
    case HaltJob(bound, rearm, note, now) => SwitchShape(env, d.rows, HALT, "HALT",
                                                         HaltState(env, d.rows, rearm, note, now), now);
    case ResumeJob(bound, note, now) => SwitchShape(env, d.rows, RESUME, "RESUME", ResumeState(env, d.rows, note, now),
                                                    now);
    case CancelJob(ack, bound, hasBroker, clock, now) => CancelShape(env, d, ack, bound, hasBroker, clock, now);
    case FlattenJob(ack, bound, mode, hasBroker, clock, now) =>
      FlattenShape(env, d, ack, bound, mode, hasBroker, clock, now);
  }

  lemma SwitchShape(env: Env, rows: seq<Row>, c: Command, decision: string, state: KillSwitchState, now: Time)
    ensures Artifact(env, rows, Audited(env, rows, c, "REJECT", now))
    ensures EndsWithSwitch(env, rows, Logged(env, Audited(env, rows, c, decision, now), KillSwitchRecord(state), now,
                                             now))
  {
    var mid := Audited(env, rows, c, decision, now);
    var row := RowFor(env, |mid| + 1, KillSwitchRecord(state), now, now, None);
    assert Artifact(env, rows, mid);
    assert Logged(env, mid, KillSwitchRecord(state), now, now) == mid + [row];
  }

  lemma CancelShape(env: Env, d: Site, ack: Acknowledge, bound: Option<Command>, hasBroker: bool, clock: nat -> Time,
                    now: Time)
    ensures var job := CancelJob(ack, bound, hasBroker, clock, now);
      && OnlyReports(d.rows, BeforeArtifact(env, d, job))
      && Artifact(env, BeforeArtifact(env, d, job),
                  CancelOpenOrders(env, d.rows, d.book, ack, bound, hasBroker, clock, now).rows)
  {
    var mid := BeforeArtifact(env, d, CancelJob(ack, bound, hasBroker, clock, now));
    CancelledReports(env, d.rows, d.book, ack, clock, now);
    assert Artifact(env, mid, Audited(env, mid, CANCEL, "REJECT", now))
        && Artifact(env, mid, Audited(env, mid, CANCEL, "CANCEL", now));
  }

  lemma FlattenShape(env: Env, d: Site, ack: Acknowledge, bound: Option<Command>, mode: Option<BrokerMode>,
                     hasBroker: bool,
                     clock: nat -> Time, now: Time)
    ensures Artifact(env, d.rows, FlattenPaperOnly(env, d.rows, d.book, ack, bound, mode, hasBroker, clock, now).rows)
  {
    assert Artifact(env, d.rows, Audited(env, d.rows, FLATTEN, "REJECT", now))
        && Artifact(env, d.rows, Audited(env, d.rows, FLATTEN, "FLATTEN", now));
  }

  /* ---- one artifact per command, with an id of its own ---- */

  lemma {:induction false} CountAcrossReports(rows: seq<Row>, later: seq<Row>)
    requires OnlyReports(rows, later)
    ensures CountOf(later, AUDIT_ARTIFACT) == CountOf(rows, AUDIT_ARTIFACT)
    decreases |later|
  {
    if |later| == |rows| { assert later == rows; } else { CountAcrossReports(rows, later[..|later| - 1]); }
  }

  /** `later` extends `rows`, holds exactly one more audit artifact, and that one's id embeds its own position. */
  ghost predicate OneMoreArtifact(env: Env, rows: seq<Row>, later: seq<Row>) {
    && rows <= later && CountOf(later, AUDIT_ARTIFACT) == CountOf(rows, AUDIT_ARTIFACT) + 1
    && exists i :: OnlyArtifactAt(env, rows, later, i)
  }

  ghost predicate OnlyArtifactAt(env: Env, rows: seq<Row>, later: seq<Row>, i: nat) {
    && |rows| <= i < |later| && IsCommandRow(env, later, i)
    && forall j :: |rows| <= j < |later| && j != i ==> later[j].recordType != AUDIT_ARTIFACT
  }

  lemma ArtifactAddsOne(env: Env, rows: seq<Row>, mid: seq<Row>, later: seq<Row>)
    requires OnlyReports(rows, mid) && Artifact(env, mid, later)
    ensures OneMoreArtifact(env, rows, later) && |later| == |mid| + 1 && OnlyArtifactAt(env, rows, later, |mid|)
  {
    var c, decision, now :| later == Audited(env, mid, c, decision, now);
    CountAcrossReports(rows, mid);
    CountAfterAppend(mid, RowFor(env, |mid| + 1, CommandArtifact(env, mid, c, decision, now), now, now, None),
                     AUDIT_ARTIFACT);
    AuditedWritesCommandRow(env, mid, c, decision, now);
    assert OnlyArtifactAt(env, rows, later, |mid|);
  }

  lemma SwitchRowAddsNone(env: Env, rows: seq<Row>, mid: seq<Row>, row: Row, i: nat)
    requires OneMoreArtifact(env, rows, mid) && OnlyArtifactAt(env, rows, mid, i) && row.recordType == KILL_SWITCH_STATE
    ensures OneMoreArtifact(env, rows, mid + [row])
  {
    CountAfterAppend(mid, row, AUDIT_ARTIFACT);
    var c, now :| mid[i].recordType == AUDIT_ARTIFACT && mid[i].recordId == ArtifactId(env, c, i, now);
    assert (mid + [row])[i] == mid[i];
    assert IsCommandRow(env, mid + [row], i);
    assert OnlyArtifactAt(env, rows, mid + [row], i);
  }

  /** Every command, granted or refused, failed or not, adds exactly one audit artifact and alters no earlier row. */
  lemma OneArtifactPerCommand(env: Env, d: Site, job: Job)
    requires IsCommand(job)
    ensures OneMoreArtifact(env, d.rows, AfterJob(env, d, job).rows)
  {
    CommandShape(env, d, job);
    var later := AfterJob(env, d, job).rows;
    if IsEffective(job) {
      var mid, row :| later == mid + [row] && row.recordType == KILL_SWITCH_STATE && Artifact(env, d.rows, mid);
      ArtifactAddsOne(env, d.rows, d.rows, mid);
      SwitchRowAddsNone(env, d.rows, mid, row, |d.rows|);
    } else {
      ArtifactAddsOne(env, d.rows, BeforeArtifact(env, d, job), later);
    }
  }

  predicate Says(row: Row, decision: string, reasons: seq<ReasonCode>, now: Time) {
    && row.payload.ArtifactRecord? && row.createdAt == now
    && (row.payload.artifact.decision, row.payload.artifact.reasonCodes, row.payload.artifact.createdAt)
       == (decision, reasons, now)
  }

  /** The artifact of a command, which only an effective halt or resume follows up with a row, says what came of it. */
  lemma ArtifactSaysOutcome(env: Env, d: Site, job: Job)
    requires IsCommand(job)
    ensures var later := AfterJob(env, d, job).rows;
      var at := |later| - (if IsEffective(job) then 2 else 1);
      && 0 <= at
      && match job
         case StatusJob(now) => Says(later[at], "READ", [], now)
         case HaltJob(bound, _, _, now) =>
           Says(later[at], if bound == Some(HALT) then "HALT" else "REJECT", [OPERATOR_HALT_COMMAND], now)
         case ResumeJob(bound, _, now) =>
           Says(later[at], if bound == Some(RESUME) then "RESUME" else "REJECT", [OPERATOR_RESUME_COMMAND], now)
         case CancelJob(ack, bound, hasBroker, clock, now) =>
           var out := CancelOpenOrders(env, d.rows, d.book, ack, bound, hasBroker, clock, now);
           Says(later[at], if out.result.Ok? then "CANCEL" else "REJECT", [OPERATOR_CANCEL_COMMAND], now)
         case FlattenJob(ack, bound, mode, hasBroker, clock, now) =>
           var out := FlattenPaperOnly(env, d.rows, d.book, ack, bound, mode, hasBroker, clock, now);
           Says(later[at], if out.result.Ok? then "FLATTEN" else "REJECT", [OPERATOR_FLATTEN_COMMAND], now)
  {
  }

  lemma JobOnlyAppends(env: Env, d: Site, job: Job)
    ensures d.rows <= AfterJob(env, d, job).rows
  {
    if job.CycleJob? { CycleLeavesSwitch(job.su, d.rows, d.book, d.called, job.items); }
    if IsCommand(job) { OneArtifactPerCommand(env, d, job); }
  }

  ghost predicate StepsAppend(step: JobFn) { forall d: Site, n: nat :: d.rows <= step(d, n).rows }

  lemma {:induction false} SitesAppend(step: JobFn, m: nat, n: nat)
    requires m <= n && StepsAppend(step)
    ensures Sites(step, m).rows <= Sites(step, n).rows
  {
    if m < n { SitesAppend(step, m, n - 1); }
  }

  /** No row is ever altered or removed, over any jobs. */
  lemma JobsOnlyAppend(env: Env, jobs: seq<Job>, m: nat, n: nat)
    requires m <= n
    ensures AfterJobs(env, jobs, m).rows <= AfterJobs(env, jobs, n).rows
  {
    forall d: Site, k: nat ensures d.rows <= JobStep(env, jobs)(d, k).rows {
      if k < |jobs| { JobOnlyAppends(env, d, jobs[k]); }
    }
    SitesAppend(JobStep(env, jobs), m, n);
  }

  /** Row `i` of the final log is an audit artifact that command `a` wrote. */
  ghost predicate WrittenBy(env: Env, jobs: seq<Job>, a: nat, i: nat) {
    && a < |jobs| && IsCommand(jobs[a])
    && |AfterJobs(env, jobs, a).rows| <= i < |AfterJobs(env, jobs, a + 1).rows|
    && AfterJobs(env, jobs, a + 1).rows[i].recordType == AUDIT_ARTIFACT
  }

  lemma NewArtifactIsCommandRow(env: Env, rows: seq<Row>, later: seq<Row>, i: nat)
    requires OneMoreArtifact(env, rows, later) && |rows| <= i < |later| && later[i].recordType == AUDIT_ARTIFACT
    ensures IsCommandRow(env, later, i)
  {
    var k :| OnlyArtifactAt(env, rows, later, k);
    assert k == i;
  }

  lemma CommandRowStays(env: Env, rows: seq<Row>, later: seq<Row>, i: nat)
    requires rows <= later && i < |rows| && IsCommandRow(env, rows, i)
    ensures IsCommandRow(env, later, i)
  {
    assert later[i] == rows[i];
  }

  lemma WrittenIsCommandRow(env: Env, jobs: seq<Job>, a: nat, i: nat)
    requires WrittenBy(env, jobs, a, i)
    ensures var rows := AfterJobs(env, jobs, |jobs|).rows; i < |rows| && IsCommandRow(env, rows, i)
  {
    var d, mid := AfterJobs(env, jobs, a), AfterJobs(env, jobs, a + 1).rows;
    assert OneMoreArtifact(env, d.rows, mid) by {
      NextSite(env, jobs, a);
      OneArtifactPerCommand(env, d, jobs[a]);
    }
    NewArtifactIsCommandRow(env, d.rows, mid, i);
    JobsOnlyAppend(env, jobs, a + 1, |jobs|);
    CommandRowStays(env, mid, AfterJobs(env, jobs, |jobs|).rows, i);
  }

  lemma NextSite(env: Env, jobs: seq<Job>, a: nat)
    requires a < |jobs|
    ensures AfterJobs(env, jobs, a + 1) == AfterJob(env, AfterJobs(env, jobs, a), jobs[a])
  {
  }

  /**
   * Over every run, the artifacts written by operator commands have pairwise distinct ids, even under a frozen clock.
   */
  lemma CommandArtifactsAreDistinct(env: Env, jobs: seq<Job>, a: nat, i: nat, b: nat, j: nat)
    requires WrittenBy(env, jobs, a, i) && WrittenBy(env, jobs, b, j) && a != b
    ensures var rows := AfterJobs(env, jobs, |jobs|).rows;
      i < |rows| && j < |rows| && rows[i].recordId != rows[j].recordId
  {
    WrittenIsCommandRow(env, jobs, a, i);
    WrittenIsCommandRow(env, jobs, b, j);
    JobsOnlyAppend(env, jobs, if a < b then a + 1 else b + 1, if a < b then b else a);
    CommandIdsAreDistinct(env, AfterJobs(env, jobs, |jobs|).rows, if i < j then i else j, if i < j then j else i);
  }

  /* ---- the kill switch over every run ---- */

  /** A halt or resume issued with a token bound to it. */
  predicate IsEffective(job: Job) {
    (job.HaltJob? && job.bound == Some(HALT)) || (job.ResumeJob? && job.bound == Some(RESUME))
  }

  /** The decision of the last effective halt or resume among the first `n` jobs; entries are allowed initially. */
  function LastDecision(jobs: seq<Job>, n: nat): bool
    requires n <= |jobs|
  {
    if n == 0 then true else if IsEffective(jobs[n - 1]) then jobs[n - 1].ResumeJob? else LastDecision(jobs, n - 1)
  }

  /** Cycles, reads, cancels, flattens and refused switch commands leave the switch alone. */
  lemma OtherJobsLeaveSwitch(env: Env, d: Site, job: Job)
    requires !IsEffective(job)
    ensures LeavesSwitch(d.rows, AfterJob(env, d, job).rows)
  {
    if job.CycleJob? {
      CycleLeavesSwitch(job.su, d.rows, d.book, d.called, job.items);
    } else if IsCommand(job) {
      CommandShape(env, d, job);
      ArtifactLeavesSwitch(env, d.rows, BeforeArtifact(env, d, job), AfterJob(env, d, job).rows);
    }
  }

  lemma ArtifactLeavesSwitch(env: Env, rows: seq<Row>, mid: seq<Row>, later: seq<Row>)
    requires OnlyReports(rows, mid) && Artifact(env, mid, later)
    ensures LeavesSwitch(rows, later)
  {
    var c, decision, now :| later == Audited(env, mid, c, decision, now);
    AppendLeavesSwitch(rows, mid, RowFor(env, |mid| + 1, CommandArtifact(env, mid, c, decision, now), now, now, None));
  }

  lemma EffectiveJobDecides(env: Env, d: Site, job: Job)
    requires ValidLog(env, d.rows) && IsEffective(job)
    ensures NewEntriesAllowed(env, AfterJob(env, d, job).rows) == job.ResumeJob?
  {
    if job.HaltJob? {
      OperationMovesSwitch(env, d.rows, Halt(job.bound, job.rearm, job.note, job.now));
    } else {
      OperationMovesSwitch(env, d.rows, Resume(job.bound, job.note, job.now));
    }
  }

  /** Each of the first `count` jobs moves permission as its own effect says. */
  ghost predicate StepsDecide(env: Env, step: JobFn, jobs: seq<Job>, count: nat)
    requires count <= |jobs|
  {
    forall d: Site, n: nat :: n < count && ValidLog(env, d.rows) && ValidLog(env, step(d, n).rows) ==>
      NewEntriesAllowed(env, step(d, n).rows) == if IsEffective(jobs[n]) then jobs[n].ResumeJob?
          else NewEntriesAllowed(env, d.rows)
  }

  lemma JobStepDecides(env: Env, jobs: seq<Job>, count: nat)
    requires count <= |jobs|
    ensures StepsDecide(env, JobStep(env, jobs), jobs, count)
  {
    var step := JobStep(env, jobs);
    forall d: Site, n: nat | n < count && ValidLog(env, d.rows) && ValidLog(env, step(d, n).rows)
      ensures NewEntriesAllowed(env, step(d, n).rows) == if IsEffective(jobs[n]) then jobs[n].ResumeJob?
          else NewEntriesAllowed(env, d.rows)
    {
      if IsEffective(jobs[n]) {
        EffectiveJobDecides(env, d, jobs[n]);
      } else {
        OtherJobsLeaveSwitch(env, d, jobs[n]);
        PermissionStays(env, d.rows, step(d, n).rows);
      }
    }
  }

  lemma {:induction false} SitesDecide(env: Env, step: JobFn, jobs: seq<Job>, n: nat)
    requires n <= |jobs| && StepsDecide(env, step, jobs, n) && forall m :: 0 <= m <= n ==>
        ValidLog(env, Sites(step, m).rows)
    ensures NewEntriesAllowed(env, Sites(step, n).rows) == LastDecision(jobs, n)
  {
    if n > 0 {
      SitesDecide(env, step, jobs, n - 1);
      assert ValidLog(env, Sites(step, n - 1).rows) && ValidLog(env, Sites(step, n).rows);
    }
  }

  /**
   * The kill switch over every run: after any jobs, permission for new entries is decided by the last halt or resume
   * issued with a token bound to it; paper cycles, reads, cancels, flattens, restarts and unauthorized attempts never
   * alter it.
   */
  lemma KillSwitchFollowsLastCommand(env: Env, jobs: seq<Job>, n: nat)
    requires n <= |jobs| && forall j :: 0 <= j < n ==> Runnable(env, jobs[j])
    ensures NewEntriesAllowed(env, AfterJobs(env, jobs, n).rows) == LastDecision(jobs, n)
  {
    var step := JobStep(env, jobs);
    forall m | 0 <= m <= n ensures ValidLog(env, Sites(step, m).rows) { EveryJobSequenceIsSafe(env, jobs, m, ""); }
    JobStepDecides(env, jobs, n);
    SitesDecide(env, step, jobs, n);
  }
}
