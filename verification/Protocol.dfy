/**
 * Paper cycles, operator cancels and flattens as steps of concurrent processes over one store and one broker. A process
 * may crash between any two steps and the broker may restart empty; what holds in every reachable state is proved over
 * every schedule (services/paper_cycle.py, ops/control_plane.py, storage/base.py, brokers/fake.py).
 */
module Protocol {
  import opened Wrappers
  import opened Vocabulary
  import opened Trade
  import opened AuditLog
  import opened Brokers
  import opened PaperCycle
  import opened Cancellation

  /** What a process holds in memory between two of its steps; a crash loses it. */
  datatype Phase =
    | Idle
    | Attempted(intent: BrokerSubmitIntent)
    | Answered(answered: BrokerSubmitIntent, fill: BrokerFill)
    | Authenticating(todo: seq<BrokerFill>, done: seq<Identified>)
    | Cancelling(queue: seq<Identified>)
    | Closing(report: ExecutionReport, rest: seq<Identified>)

  /** The persisted log, the broker, every process's memory, and which keys the broker has been called with. */
  datatype World = World(rows: seq<Row>, book: Book, phases: map<nat, Phase>, calls: multiset<string>) {
    function PhaseOf(pid: nat): Phase { if pid in phases then phases[pid] else Idle }

    function Now(pid: nat, phase: Phase): World { this.(phases := phases[pid := phase]) }
  }

  const Genesis := World([], EmptyBook, map[], multiset{})

  datatype Action =
    | Note(record: Record, createdAt: Time, recordedAt: Time)
    | Persist(pid: nat, intent: BrokerSubmitIntent, recordedAt: Time)
    | Call(pid: nat, paper: PaperBrokerConfig, behaviour: Behaviour, name: string,
           approval: Option<PaperSubmitApproval>, now: Time)
    | PersistReport(pid: nat, recordedAt: Time)
    | ListOpen(pid: nat)
    | Authenticate(pid: nat)
    | CancelNext(pid: nat, ack: Acknowledge, now: Time)
    | PersistTerminal(pid: nat, recordedAt: Time)
    | FlattenOrder(id: string, now: Time)
    | Crash(pid: nat)
    | BrokerRestart

  /** One step, or nothing where the step cannot be taken. */
  function Apply(env: Env, w: World, a: Action): Option<World> {
    match a
    case Note(r, createdAt, recordedAt) =>
      if r.SubmitRecord? || r.ReportRecord? || !Coherent(env, r) then None
      else Some(w.(rows := Logged(env, w.rows, r, createdAt, recordedAt)))
    case Persist(pid, i, recordedAt) => Persisted(env, w, pid, i, recordedAt)
    case Call(pid, paper, behaviour, name, approval, now) => Called(env, w, pid, paper, behaviour, name, approval, now)
    case PersistReport(pid, recordedAt) => Reported(env, w, pid, recordedAt)
    case ListOpen(pid) => if w.PhaseOf(pid).Idle? then Some(w.Now(pid, Authenticating(OpenOrders(w.book), [])))
        else None
    case Authenticate(pid) => Authenticated(env, w, pid)
    case CancelNext(pid, ack, now) => CancelledNext(w, pid, ack, now)
    case PersistTerminal(pid, recordedAt) => Closed(env, w, pid, recordedAt)
    case FlattenOrder(id, now) => Some(w.(book := Cancel(w.book, id, now).book))
    case Crash(pid) => Some(w.Now(pid, Idle))
    case BrokerRestart => Some(w.(book := EmptyBook))
  }

  /** The attempt is written under its key, or refused because the key is taken. */
  function Persisted(env: Env, w: World, pid: nat, i: BrokerSubmitIntent, recordedAt: Time): Option<World> {
    if !w.PhaseOf(pid).Idle? || !IntentCoherent(env, i) || KeyTaken(w.rows, i.idempotencyKey) then None
    else Some(w.(rows := w.rows + [SubmitRow(env, w.rows, i, recordedAt)]).Now(pid, Attempted(i)))
  }

  function Called(env: Env, w: World, pid: nat, paper: PaperBrokerConfig, behaviour: Behaviour, name: string,
                  approval: Option<PaperSubmitApproval>, now: Time): Option<World>
  {
    if !w.PhaseOf(pid).Attempted? then None
    else
      var i := w.PhaseOf(pid).intent;
      var reply := PaperSubmit(env, paper, w.book, behaviour, name, i, approval, now);
      Some(w.(book := reply.book, calls := w.calls + multiset{i.idempotencyKey})
            .Now(pid, if reply.result.Ok? then Answered(i, reply.result.value) else Idle))
  }

  function Reported(env: Env, w: World, pid: nat, recordedAt: Time): Option<World> {
    if !w.PhaseOf(pid).Answered? then None
    else
      var report := ReportOf(w.PhaseOf(pid).answered, w.PhaseOf(pid).fill);
      if report.Err? then Some(w.Now(pid, Idle)) else Some(WithReport(env, w, pid, report.value, recordedAt, Idle))
  }

  function WithReport(env: Env, w: World, pid: nat, report: ExecutionReport, recordedAt: Time, next: Phase): World {
    w.(rows := Logged(env, w.rows, ReportRecord(report), report.EventTime(), recordedAt)).Now(pid, next)
  }

  /** One more open order is authenticated; after the last one cancelling may begin. */
  function Authenticated(env: Env, w: World, pid: nat): Option<World> {
    var phase := w.PhaseOf(pid);
    if !phase.Authenticating? then None
    else if phase.todo == [] then Some(w.Now(pid, Cancelling(phase.done)))
    else
      var i := Resolve(env, w.rows, phase.todo[0]);
      Some(w.Now(pid, if i.Err? then Idle else Authenticating(phase.todo[1..],
                                                              phase.done + [Identified(phase.todo[0], i.value)])))
  }

  function CancelledNext(w: World, pid: nat, ack: Acknowledge, now: Time): Option<World> {
    var phase := w.PhaseOf(pid);
    if !phase.Cancelling? then None
    else if phase.queue == [] then Some(w.Now(pid, Idle))
    else
      var q := phase.queue[0];
      var reply := CancelReply(w.book, ack, q.fill.orderId.value, now);
      var report := TerminalReport(q, reply.result);
      Some(w.(book := reply.book).Now(pid, if report.Err? then Idle else Closing(report.value, phase.queue[1..])))
  }

  function Closed(env: Env, w: World, pid: nat, recordedAt: Time): Option<World> {
    var phase := w.PhaseOf(pid);
    if !phase.Closing? then None else Some(WithReport(env, w, pid, phase.report, recordedAt, Cancelling(phase.rest)))
  }

  /** The world after a schedule; `None` if some step of it cannot be taken. */
  function Run(env: Env, w: World, schedule: seq<Action>): Option<World>
    decreases |schedule|
  {
    if schedule == [] then Some(w)
    else
      var next := Apply(env, w, schedule[0]);
      if next.None? then None else Run(env, next.value, schedule[1..])
  }

  /** The key whose answer a crash forgets before it was reported. */
  function Loses(w: World, a: Action): set<string> {
    if a.Crash? && w.PhaseOf(a.pid).Answered? then {w.PhaseOf(a.pid).answered.idempotencyKey} else {}
  }

  /** The keys whose answers the crashes of a schedule have forgotten. */
  function Lost(env: Env, w: World, schedule: seq<Action>): set<string>
    decreases |schedule|
  {
    if schedule == [] then {}
    else
      var next := Apply(env, w, schedule[0]);
      Loses(w, schedule[0]) + if next.None? then {} else Lost(env, next.value, schedule[1..])
  }

  /* ---- the invariant ---- */

  ghost predicate OpenAtBroker(book: Book, k: string) { k in book.fills && IsOpen(book.fills[k].lifecycle) }

  ghost predicate LogInv(env: Env, w: World) {
    && ValidLog(env, w.rows)
    && (forall j :: 0 <= j < |w.rows| ==> RowInv(w, w.rows[j]))
  }

  /** Keyed rows are filed under their own key, and every report names the order of a key the broker was called with. */
  ghost predicate RowInv(w: World, row: Row) {
    && (row.idempotencyKey.Some? ==> row.idempotencyKey.value == row.recordId)
    && (row.recordType == EXECUTION_REPORT ==>
          row.payload.ReportRecord? && row.payload.report.brokerOrderId == OrderIdText(row.recordId)
              && w.calls[row.recordId] > 0)
  }

  ghost predicate CallInv(w: World) {
    forall k :: w.calls[k] <= 1 && (w.calls[k] > 0 ==> KeyTaken(w.rows, k))
  }

  ghost predicate BookInv(w: World) {
    && ValidBook(w.book)
    && (forall k :: k in w.book.fills ==> w.calls[k] > 0)
    && (forall k :: OpenAtBroker(w.book, k) ==> !Settled(w.rows, k))
  }

  /** A key the broker was called with, and a lifecycle that may only be terminal if the order is no longer open. */
  ghost predicate Evidence(w: World, k: string, id: string, lifecycle: OrderLifecycleState) {
    w.calls[k] > 0 && id == OrderIdText(k) && (OpenAtBroker(w.book, k) ==> IsOpen(lifecycle))
  }

  ghost predicate QueueInv(w: World, queue: seq<Identified>) {
    forall j :: 0 <= j < |queue| ==>
      w.calls[queue[j].intent.idempotencyKey] > 0
          && queue[j].fill.orderId.value == OrderIdText(queue[j].intent.idempotencyKey)
  }

  ghost predicate PhaseInv(w: World, phase: Phase) {
    match phase
    case Idle => true
    case Attempted(i) => KeyTaken(w.rows, i.idempotencyKey) && w.calls[i.idempotencyKey] == 0
    case Answered(i, fill) => Evidence(w, i.idempotencyKey, fill.orderId.value, fill.lifecycle)
    case Authenticating(_, done) => QueueInv(w, done)
    case Cancelling(queue) => QueueInv(w, queue)
    case Closing(report, rest) =>
      report.Coherent() && Evidence(w, report.idempotencyKey, report.brokerOrderId, report.lifecycle)
          && QueueInv(w, rest)
  }

  ghost predicate PhasesInv(w: World) { forall pid :: pid in w.phases ==> PhaseInv(w, w.phases[pid]) }

  /** No two processes are about to call the broker with the same key. */
  ghost predicate AttemptsDiffer(w: World) {
    forall p, q :: p in w.phases && q in w.phases && p != q && w.phases[p].Attempted? && w.phases[q].Attempted? ==>
      w.phases[p].intent.idempotencyKey != w.phases[q].intent.idempotencyKey
  }

  ghost predicate Inv(env: Env, w: World) {
    LogInv(env, w) && CallInv(w) && BookInv(w) && PhasesInv(w) && AttemptsDiffer(w)
  }

  /* ---- what other processes may rely on ---- */

  /** The log only grows and no order of an already called key opens. */
  ghost predicate Later(w: World, w': World) {
    && w.rows <= w'.rows && w.calls <= w'.calls
    && (forall k :: w.calls[k] > 0 && OpenAtBroker(w'.book, k) ==> OpenAtBroker(w.book, k))
  }

  lemma TakenStaysTaken(rows: seq<Row>, later: seq<Row>, k: string)
    requires rows <= later && KeyTaken(rows, k)
    ensures KeyTaken(later, k)
  {
    var j :| 0 <= j < |rows| && rows[j].idempotencyKey == Some(k);
    assert later[j] == rows[j];
  }

  lemma PhaseIsStable(w: World, w': World, phase: Phase)
    requires PhaseInv(w, phase) && Later(w, w')
    requires phase.Attempted? ==> w'.calls[phase.intent.idempotencyKey] == 0
    ensures PhaseInv(w', phase)
  {
    if phase.Attempted? { TakenStaysTaken(w.rows, w'.rows, phase.intent.idempotencyKey); }
  }

  /** Every process keeps its invariant as the log and the broker move on, unless its own pending key is called. */
  lemma PhasesAreStable(w: World, w': World)
    requires PhasesInv(w) && Later(w, w') && w'.phases == w.phases
    requires forall p :: p in w.phases && w.phases[p].Attempted? ==> w'.calls[w.phases[p].intent.idempotencyKey] == 0
    ensures PhasesInv(w')
  {
    forall p | p in w'.phases ensures PhaseInv(w', w'.phases[p]) { PhaseIsStable(w, w', w.phases[p]); }
  }

  lemma CallsStayBacked(w: World, w': World)
    requires CallInv(w) && w.rows <= w'.rows && w'.calls == w.calls
    ensures CallInv(w')
  {
    forall k | w'.calls[k] > 0 ensures KeyTaken(w'.rows, k) { TakenStaysTaken(w.rows, w'.rows, k); }
  }

  /* ---- the steps, one effect at a time ---- */

  lemma MovingOnKeepsInv(env: Env, w: World, pid: nat, phase: Phase)
    requires Inv(env, w) && PhaseInv(w, phase) && !phase.Attempted?
    ensures Inv(env, w.Now(pid, phase))
  {
    var w' := w.Now(pid, phase);
    forall p | p in w'.phases ensures PhaseInv(w', w'.phases[p]) {
      if p == pid { PhaseIsStable(w, w', phase); } else { PhaseIsStable(w, w', w.phases[p]); }
    }
    assert LogInv(env, w') by { LogIsStable(env, w, w'); }
  }

  lemma LogIsStable(env: Env, w: World, w': World)
    requires LogInv(env, w) && w'.rows == w.rows && w.calls <= w'.calls
    ensures LogInv(env, w')
  {
    forall j | 0 <= j < |w'.rows| ensures RowInv(w', w'.rows[j]) { assert RowInv(w, w.rows[j]); }
  }

  lemma AppendKeepsLogInv(env: Env, w: World, row: Row)
    requires LogInv(env, w) && ValidLog(env, w.rows + [row]) && RowInv(w, row)
    ensures LogInv(env, w.(rows := w.rows + [row]))
  {
    var w' := w.(rows := w.rows + [row]);
    forall j | 0 <= j < |w'.rows| ensures RowInv(w', w'.rows[j]) {
      assert RowInv(w, if j < |w.rows| then w.rows[j] else row);
    }
  }

  /** The store would write this row, and it settles no order that is still open. */
  ghost predicate Fits(env: Env, w: World, row: Row) {
    && ValidLog(env, w.rows + [row]) && RowInv(w, row)
    && (row.recordType == EXECUTION_REPORT && IsTerminalReport(row) ==> !OpenAtBroker(w.book, row.recordId))
  }

  lemma AppendKeepsInv(env: Env, w: World, row: Row)
    requires Inv(env, w) && Fits(env, w, row)
    ensures Inv(env, w.(rows := w.rows + [row]))
  {
    var w' := w.(rows := w.rows + [row]);
    AppendKeepsLogInv(env, w, row);
    CallsStayBacked(w, w');
    PhasesAreStable(w, w');
    forall k | OpenAtBroker(w'.book, k) ensures !Settled(w'.rows, k) { LatestAfterAppend(w.rows, row, k); }
  }

  /** A report needs evidence; a submit attempt needs its own step. */
  ghost predicate Loggable(env: Env, w: World, r: Record) {
    && Coherent(env, r) && !r.SubmitRecord?
    && (r.ReportRecord? ==> Evidence(w, r.report.idempotencyKey, r.report.brokerOrderId, r.report.lifecycle))
  }

  lemma LoggableFits(env: Env, w: World, r: Record, createdAt: Time, recordedAt: Time) returns (row: Row)
    requires ValidLog(env, w.rows) && Loggable(env, w, r)
    ensures Fits(env, w, row) && Logged(env, w.rows, r, createdAt, recordedAt) == w.rows + [row]
  {
    row := RowFor(env, |w.rows| + 1, r, createdAt, recordedAt, None);
    AppendKeepsLogValid(env, w.rows, r, createdAt, recordedAt, None);
  }

  lemma LoggingKeepsInv(env: Env, w: World, r: Record, createdAt: Time, recordedAt: Time)
    requires Inv(env, w) && Loggable(env, w, r)
    ensures Inv(env, w.(rows := Logged(env, w.rows, r, createdAt, recordedAt)))
  {
    var row := LoggableFits(env, w, r, createdAt, recordedAt);
    AppendKeepsInv(env, w, row);
  }

  lemma CancellingKeepsInv(env: Env, w: World, id: string, now: Time)
    requires Inv(env, w)
    ensures Inv(env, w.(book := Cancel(w.book, id, now).book))
  {
    CancelFacts(w.book, id, now);
    BookOnlyCloses(env, w, Cancel(w.book, id, now).book);
  }

  /** A valid book that holds no new and no newly open order keeps the invariant. */
  lemma BookOnlyCloses(env: Env, w: World, book: Book)
    requires Inv(env, w) && ValidBook(book)
    requires forall k :: k in book.fills ==> k in w.book.fills
    requires forall k :: OpenAtBroker(book, k) ==> OpenAtBroker(w.book, k)
    ensures Inv(env, w.(book := book))
  {
    var w' := w.(book := book);
    LogIsStable(env, w, w');
    CallsStayBacked(w, w');
    PhasesAreStable(w, w');
  }

  /* ---- the steps that need no phase ---- */

  lemma PhaselessSteps(env: Env, w: World, pid: nat, id: string, now: Time)
    ensures Apply(env, w, FlattenOrder(id, now)) == Some(w.(book := Cancel(w.book, id, now).book))
    ensures Apply(env, w, Crash(pid)) == Some(w.Now(pid, Idle))
    ensures Apply(env, w, BrokerRestart) == Some(w.(book := EmptyBook))
    ensures w.PhaseOf(pid).Idle? ==>
        Apply(env, w, ListOpen(pid)) == Some(w.Now(pid, Authenticating(OpenOrders(w.book), [])))
  {
  }

  lemma NoteKeepsInv(env: Env, w: World, r: Record, createdAt: Time, recordedAt: Time)
    requires Inv(env, w) && Apply(env, w, Note(r, createdAt, recordedAt)).Some?
    ensures Inv(env, Apply(env, w, Note(r, createdAt, recordedAt)).value)
  {
    LoggingKeepsInv(env, w, r, createdAt, recordedAt);
  }

  lemma FlattenKeepsInv(env: Env, w: World, id: string, now: Time)
    requires Inv(env, w)
    ensures Inv(env, Apply(env, w, FlattenOrder(id, now)).value)
  {
    PhaselessSteps(env, w, 0, id, now);
    CancellingKeepsInv(env, w, id, now);
  }

  lemma CrashKeepsInv(env: Env, w: World, pid: nat)
    requires Inv(env, w)
    ensures Inv(env, Apply(env, w, Crash(pid)).value)
  {
    PhaselessSteps(env, w, pid, "", 0);
    MovingOnKeepsInv(env, w, pid, Idle);
  }

  lemma RestartKeepsInv(env: Env, w: World)
    requires Inv(env, w)
    ensures Inv(env, Apply(env, w, BrokerRestart).value)
  {
    PhaselessSteps(env, w, 0, "", 0);
    BookOnlyCloses(env, w, EmptyBook);
  }

  lemma ListOpenKeepsInv(env: Env, w: World, pid: nat)
    requires Inv(env, w) && w.PhaseOf(pid).Idle?
    ensures Inv(env, Apply(env, w, ListOpen(pid)).value)
  {
    PhaselessSteps(env, w, pid, "", 0);
    MovingOnKeepsInv(env, w, pid, Authenticating(OpenOrders(w.book), []));
  }

  /* ---- the submit path ---- */

  lemma PersistKeepsInv(env: Env, w: World, pid: nat, i: BrokerSubmitIntent, recordedAt: Time)
    requires Inv(env, w) && Persisted(env, w, pid, i, recordedAt).Some?
    ensures Inv(env, Persisted(env, w, pid, i, recordedAt).value)
  {
    var k := i.idempotencyKey;
    var row := SubmitRow(env, w.rows, i, recordedAt);
    var w1 := w.(rows := w.rows + [row]);
    AppendKeepsLogValid(env, w.rows, SubmitRecord(i), i.submittedAt, recordedAt, Some(k));
    AppendKeepsInv(env, w, row);
    assert KeyTaken(w1.rows, k) by { assert w1.rows[|w.rows|] == row; }
    AttemptKeepsInv(env, w, w1, pid, i);
  }

  lemma AttemptKeepsInv(env: Env, w: World, w1: World, pid: nat, i: BrokerSubmitIntent)
    requires Inv(env, w1) && PhasesInv(w) && CallInv(w) && w1.phases == w.phases && w1.calls == w.calls
    requires KeyTaken(w1.rows, i.idempotencyKey) && !KeyTaken(w.rows, i.idempotencyKey)
    ensures Inv(env, w1.Now(pid, Attempted(i)))
  {
    var w' := w1.Now(pid, Attempted(i));
    assert LogInv(env, w') by { LogIsStable(env, w1, w'); }
    assert PhasesInv(w') by { AttemptKeepsPhases(w1, w', pid, i); }
    assert AttemptsDiffer(w') by { FreshAttemptDiffers(w, w1, pid, i); }
  }

  lemma AttemptKeepsPhases(w: World, w': World, pid: nat, i: BrokerSubmitIntent)
    requires PhasesInv(w) && w' == w.Now(pid, Attempted(i))
    requires KeyTaken(w.rows, i.idempotencyKey) && w.calls[i.idempotencyKey] == 0
    ensures PhasesInv(w')
  {
    forall p | p in w'.phases ensures PhaseInv(w', w'.phases[p]) {
      if p != pid { PhaseIsStable(w, w', w.phases[p]); }
    }
  }

  lemma FreshAttemptDiffers(w: World, w1: World, pid: nat, i: BrokerSubmitIntent)
    requires PhasesInv(w) && AttemptsDiffer(w1) && w1.phases == w.phases && !KeyTaken(w.rows, i.idempotencyKey)
    ensures AttemptsDiffer(w1.Now(pid, Attempted(i)))
  {
    forall p | p in w.phases && w.phases[p].Attempted? ensures w.phases[p].intent.idempotencyKey != i.idempotencyKey {
      assert PhaseInv(w, w.phases[p]);
    }
  }

  lemma CallKeepsInv(env: Env, w: World, pid: nat, paper: PaperBrokerConfig, behaviour: Behaviour, name: string,
                     approval: Option<PaperSubmitApproval>, now: Time)
    requires Inv(env, w) && w.PhaseOf(pid).Attempted?
    ensures Inv(env, Called(env, w, pid, paper, behaviour, name, approval, now).value)
  {
    var i := w.PhaseOf(pid).intent;
    var reply := PaperSubmit(env, paper, w.book, behaviour, name, i, approval, now);
    assert Placed(w.book, reply, i.idempotencyKey) by {
      PaperSubmitPlaces(env, paper, w.book, behaviour, name, i, approval, now);
    }
    AnswerKeepsInv(env, w, pid, i, reply);
  }

  lemma PaperSubmitPlaces(env: Env, paper: PaperBrokerConfig, book: Book, behaviour: Behaviour, name: string,
                          i: BrokerSubmitIntent, approval: Option<PaperSubmitApproval>, now: Time)
    requires ValidBook(book)
    ensures Placed(book, PaperSubmit(env, paper, book, behaviour, name, i, approval, now), i.idempotencyKey)
  {
    SubmitFacts(book, behaviour, name, i, now);
  }

  lemma AnswerKeepsInv(env: Env, w: World, pid: nat, i: BrokerSubmitIntent, reply: Reply)
    requires Inv(env, w) && w.PhaseOf(pid) == Attempted(i) && Placed(w.book, reply, i.idempotencyKey)
    ensures Inv(env, w.(book := reply.book, calls := w.calls + multiset{i.idempotencyKey})
                      .Now(pid, if reply.result.Ok? then Answered(i, reply.result.value) else Idle))
  {
    var k := i.idempotencyKey;
    var w0 := w.Now(pid, Idle);
    assert PhaseInv(w, w.phases[pid]);
    MovingOnKeepsInv(env, w, pid, Idle);
    PlacingKeepsInv(env, w0, reply, k);
    var v := w.(book := reply.book, calls := w.calls + multiset{k});
    assert w0.(book := reply.book, calls := w.calls + multiset{k}) == v.Now(pid, Idle);
    var next := if reply.result.Ok? then Answered(i, reply.result.value) else Idle;
    MovingOnKeepsInv(env, v.Now(pid, Idle), pid, next);
    LastPhaseCounts(v, pid, Idle, next);
  }

  lemma LastPhaseCounts(w: World, pid: nat, phase: Phase, next: Phase)
    ensures w.Now(pid, phase).Now(pid, next) == w.Now(pid, next)
  {
    assert w.phases[pid := phase][pid := next] == w.phases[pid := next];
  }

  /** What a submit call does to the book: at most the order under the key is new, and it is the answer. */
  ghost predicate Placed(book: Book, reply: Reply, k: string) {
    && ValidBook(reply.book)
    && (forall j :: j in book.fills ==> j in reply.book.fills && reply.book.fills[j] == book.fills[j])
    && (forall j :: j in reply.book.fills && j !in book.fills ==> j == k)
    && (reply.result.Ok? ==>
          k in reply.book.fills && reply.book.fills[k] == reply.result.value
              && reply.result.value.orderId.value == OrderIdText(k))
  }

  lemma PlacingKeepsInv(env: Env, w: World, reply: Reply, k: string)
    requires Inv(env, w) && Placed(w.book, reply, k) && w.calls[k] == 0 && KeyTaken(w.rows, k)
    requires forall p :: p in w.phases && w.phases[p].Attempted? ==> w.phases[p].intent.idempotencyKey != k
    ensures Inv(env, w.(book := reply.book, calls := w.calls + multiset{k}))
  {
    var w' := w.(book := reply.book, calls := w.calls + multiset{k});
    assert LogInv(env, w') by { LogIsStable(env, w, w'); }
    assert BookInv(w') by { PlacingKeepsBook(env, w, w', reply, k); }
    assert PhasesInv(w') by { PlacingKeepsPhases(w, w', reply, k); }
    assert CallInv(w');
  }

  lemma PlacingKeepsBook(env: Env, w: World, w': World, reply: Reply, k: string)
    requires LogInv(env, w) && BookInv(w) && Placed(w.book, reply, k) && w.calls[k] == 0
    requires w' == w.(book := reply.book, calls := w.calls + multiset{k})
    ensures BookInv(w')
  {
    forall j | OpenAtBroker(w'.book, j) ensures !Settled(w'.rows, j) {
      if j == k { UncalledIsUnsettled(env, w, k); } else { assert OpenAtBroker(w.book, j); }
    }
  }

  lemma PlacingKeepsPhases(w: World, w': World, reply: Reply, k: string)
    requires PhasesInv(w) && Placed(w.book, reply, k) && w.calls[k] == 0
    requires forall p :: p in w.phases && w.phases[p].Attempted? ==> w.phases[p].intent.idempotencyKey != k
    requires w' == w.(book := reply.book, calls := w.calls + multiset{k})
    ensures PhasesInv(w')
  {
    forall p | p in w.phases && w.phases[p].Attempted? ensures w'.calls[w.phases[p].intent.idempotencyKey] == 0 {
      assert PhaseInv(w, w.phases[p]);
    }
    PhasesAreStable(w, w');
  }

  lemma UncalledIsUnsettled(env: Env, w: World, k: string)
    requires LogInv(env, w) && w.calls[k] == 0
    ensures !Settled(w.rows, k)
  {
    LatestReportIsReport(env, w.rows, k);
  }

  lemma ReportKeepsInv(env: Env, w: World, pid: nat, recordedAt: Time)
    requires Inv(env, w) && w.PhaseOf(pid).Answered?
    ensures Inv(env, Reported(env, w, pid, recordedAt).value)
  {
    assert PhaseInv(w, w.phases[pid]);
    ReportSteps(env, w, pid, recordedAt);
    var report := ReportOf(w.PhaseOf(pid).answered, w.PhaseOf(pid).fill);
    if report.Err? {
      MovingOnKeepsInv(env, w, pid, Idle);
    } else {
      ReportThenMove(env, w, pid, report.value, recordedAt, Idle);
    }
  }

  /* ---- the cancel path ---- */

  /** Authentication ties the broker's order id to the key of the persisted intent. */
  lemma AuthenticatedOrdersMatch(env: Env, w: World, fill: BrokerFill)
    requires LogInv(env, w) && Resolve(env, w.rows, fill).Ok?
    ensures var k := Resolve(env, w.rows, fill).value.idempotencyKey;
      w.calls[k] > 0 && fill.orderId.value == OrderIdText(k)
  {
    var q := Identified(fill, Resolve(env, w.rows, fill).value);
    ResolveIsAuthentic(env, w.rows, fill);
    var e :| e in w.rows && ReportsOrder(e, q.fill.orderId.value) && e.recordId == q.intent.idempotencyKey
        && Agrees(e.payload.report, q.fill);
    var j :| 0 <= j < |w.rows| && w.rows[j] == e;
    assert RowInv(w, w.rows[j]);
  }

  lemma QueueGrows(w: World, queue: seq<Identified>, q: Identified)
    requires QueueInv(w, queue) && QueueInv(w, [q])
    ensures QueueInv(w, queue + [q])
  {
    assert [q][0] == q;
  }

  lemma AuthenticateKeepsInv(env: Env, w: World, pid: nat)
    requires Inv(env, w) && w.PhaseOf(pid).Authenticating?
    ensures Inv(env, Authenticated(env, w, pid).value)
  {
    var phase := w.PhaseOf(pid);
    assert PhaseInv(w, w.phases[pid]);
    if phase.todo == [] {
      MovingOnKeepsInv(env, w, pid, Cancelling(phase.done));
    } else {
      var i := Resolve(env, w.rows, phase.todo[0]);
      if i.Err? {
        MovingOnKeepsInv(env, w, pid, Idle);
      } else {
        assert QueueInv(w, [Identified(phase.todo[0], i.value)]) by { AuthenticatedOrdersMatch(env, w, phase.todo[0]); }
        QueueGrows(w, phase.done, Identified(phase.todo[0], i.value));
        MovingOnKeepsInv(env, w, pid, Authenticating(phase.todo[1..],
                                                     phase.done + [Identified(phase.todo[0], i.value)]));
      }
    }
  }

  lemma CancelNextKeepsInv(env: Env, w: World, pid: nat, ack: Acknowledge, now: Time)
    requires Inv(env, w) && w.PhaseOf(pid).Cancelling?
    ensures Inv(env, CancelledNext(w, pid, ack, now).value)
  {
    var phase := w.PhaseOf(pid);
    assert PhaseInv(w, w.phases[pid]);
    if phase.queue == [] {
      MovingOnKeepsInv(env, w, pid, Idle);
    } else {
      CancelOneKeepsInv(env, w, pid, phase.queue[0], phase.queue[1..], ack, now);
    }
  }

  /** A mintable terminal report follows only a genuine cancel of that very order. */
  lemma TerminalReportIsEvidence(w: World, q: Identified, ack: Acknowledge, now: Time)
    requires BookInv(w) && QueueInv(w, [q])
    requires TerminalReport(q, CancelReply(w.book, ack, q.fill.orderId.value, now).result).Ok?
    ensures var reply := CancelReply(w.book, ack, q.fill.orderId.value, now);
      var e := TerminalReport(q, reply.result).value;
      e.Coherent() && Evidence(w.(book := reply.book), e.idempotencyKey, e.brokerOrderId, e.lifecycle)
  {
    assert [q][0] == q;
    CancelFacts(w.book, q.fill.orderId.value, now);
  }

  lemma CancelOneKeepsInv(env: Env, w: World, pid: nat, q: Identified, rest: seq<Identified>, ack: Acknowledge,
                          now: Time)
    requires Inv(env, w) && QueueInv(w, [q]) && QueueInv(w, rest)
    ensures var reply := CancelReply(w.book, ack, q.fill.orderId.value, now);
      var report := TerminalReport(q, reply.result);
      Inv(env, w.(book := reply.book).Now(pid, if report.Err? then Idle else Closing(report.value, rest)))
  {
    var reply := CancelReply(w.book, ack, q.fill.orderId.value, now);
    var report := TerminalReport(q, reply.result);
    var w1 := w.(book := reply.book);
    CancellingKeepsInv(env, w, q.fill.orderId.value, now);
    if report.Ok? { TerminalReportIsEvidence(w, q, ack, now); }
    MovingOnKeepsInv(env, w1, pid, if report.Err? then Idle else Closing(report.value, rest));
  }

  lemma CloseKeepsInv(env: Env, w: World, pid: nat, recordedAt: Time)
    requires Inv(env, w) && w.PhaseOf(pid).Closing?
    ensures Inv(env, Closed(env, w, pid, recordedAt).value)
  {
    var phase := w.PhaseOf(pid);
    assert PhaseInv(w, w.phases[pid]);
    ReportSteps(env, w, pid, recordedAt);
    ReportThenMove(env, w, pid, phase.report, recordedAt, Cancelling(phase.rest));
  }

  lemma ReportSteps(env: Env, w: World, pid: nat, recordedAt: Time)
    ensures var phase := w.PhaseOf(pid);
      phase.Closing? ==>
        Closed(env, w, pid, recordedAt)
        == Some(WithReport(env, w, pid, phase.report, recordedAt, Cancelling(phase.rest)))
    ensures var phase := w.PhaseOf(pid);
      phase.Answered? ==>
        var report := ReportOf(phase.answered, phase.fill);
        Reported(env, w, pid, recordedAt)
        == Some(if report.Err? then w.Now(pid, Idle) else WithReport(env, w, pid, report.value, recordedAt, Idle))
  {
  }

  /** Writing an evidenced report and moving on. */
  lemma ReportThenMove(env: Env, w: World, pid: nat, report: ExecutionReport, recordedAt: Time, next: Phase)
    requires Inv(env, w) && Loggable(env, w, ReportRecord(report)) && PhaseInv(w, next) && !next.Attempted?
    ensures Inv(env, WithReport(env, w, pid, report, recordedAt, next))
  {
    var logged := w.(rows := Logged(env, w.rows, ReportRecord(report), report.EventTime(), recordedAt));
    LoggingKeepsInv(env, w, ReportRecord(report), report.EventTime(), recordedAt);
    PhaseIsStable(w, logged, next);
    MovingOnKeepsInv(env, logged, pid, next);
  }

  /* ---- every step, every run ---- */

  lemma SubmitStepKeepsInv(env: Env, w: World, a: Action)
    requires Inv(env, w) && Apply(env, w, a).Some? && (a.Persist? || a.Call? || a.PersistReport?)
    ensures Inv(env, Apply(env, w, a).value)
  {
    match a
    case Persist(pid, i, recordedAt) => PersistKeepsInv(env, w, pid, i, recordedAt);
    case Call(pid, paper, behaviour, name, approval, now) =>
      CallKeepsInv(env, w, pid, paper, behaviour, name, approval, now);
    case PersistReport(pid, recordedAt) => ReportKeepsInv(env, w, pid, recordedAt);
  }

  lemma CancelStepKeepsInv(env: Env, w: World, a: Action)
    requires Inv(env, w) && Apply(env, w, a).Some? && (a.Authenticate? || a.CancelNext? || a.PersistTerminal?)
    ensures Inv(env, Apply(env, w, a).value)
  {
    CancelSteps(env, w, a);
    match a
    case Authenticate(pid) => AuthenticateKeepsInv(env, w, pid);
    case CancelNext(pid, ack, now) => CancelNextKeepsInv(env, w, pid, ack, now);
    case PersistTerminal(pid, recordedAt) => CloseKeepsInv(env, w, pid, recordedAt);
  }

  lemma CancelSteps(env: Env, w: World, a: Action)
    requires Apply(env, w, a).Some?
    ensures a.Authenticate? ==> w.PhaseOf(a.pid).Authenticating? && Apply(env, w, a) == Authenticated(env, w, a.pid)
    ensures a.CancelNext? ==> w.PhaseOf(a.pid).Cancelling? && Apply(env, w, a) == CancelledNext(w, a.pid, a.ack, a.now)
    ensures a.PersistTerminal? ==> w.PhaseOf(a.pid).Closing? && Apply(env, w, a) == Closed(env, w, a.pid, a.recordedAt)
  {
  }

  lemma StepKeepsInv(env: Env, w: World, a: Action)
    requires Inv(env, w) && Apply(env, w, a).Some?
    ensures Inv(env, Apply(env, w, a).value)
  {
    match a
    case Note(r, createdAt, recordedAt) => NoteKeepsInv(env, w, r, createdAt, recordedAt);
    case FlattenOrder(id, now) => FlattenKeepsInv(env, w, id, now);
    case Crash(pid) => CrashKeepsInv(env, w, pid);
    case BrokerRestart => RestartKeepsInv(env, w);
    case ListOpen(pid) => ListOpenKeepsInv(env, w, pid);
    case Persist(_, _, _) => SubmitStepKeepsInv(env, w, a);
    case Call(_, _, _, _, _, _) => SubmitStepKeepsInv(env, w, a);
    case PersistReport(_, _) => SubmitStepKeepsInv(env, w, a);
    case _ => CancelStepKeepsInv(env, w, a);
  }

  lemma {:induction false} RunKeepsInv(env: Env, w: World, schedule: seq<Action>)
    requires Inv(env, w) && Run(env, w, schedule).Some?
    ensures Inv(env, Run(env, w, schedule).value)
    decreases |schedule|
  {
    if schedule != [] {
      StepKeepsInv(env, w, schedule[0]);
      RunKeepsInv(env, Apply(env, w, schedule[0]).value, schedule[1..]);
    }
  }

  lemma TakenIsSubmitted(env: Env, w: World, k: string)
    requires LogInv(env, w) && KeyTaken(w.rows, k)
    ensures HasSubmit(w.rows, k)
  {
    var j :| 0 <= j < |w.rows| && w.rows[j].idempotencyKey == Some(k);
    assert ValidRow(env, w.rows[j], j) && RowInv(w, w.rows[j]);
  }

  /**
   * Crash safety: after any schedule at all, every order the broker holds has a persisted submit attempt under its key,
   * every order still open there is listed by recovery, and the broker has been called at most once per key.
   */
  lemma EveryRunIsCrashSafe(env: Env, schedule: seq<Action>, k: string)
    requires Run(env, Genesis, schedule).Some?
    ensures var w := Run(env, Genesis, schedule).value;
      && ValidLog(env, w.rows) && ValidBook(w.book)
      && w.calls[k] <= 1
      && (k in w.book.fills ==> HasSubmit(w.rows, k))
      && (OpenAtBroker(w.book, k) ==> exists f :: f in UnresolvedOpenOrders(w.rows) && f.logicalKey == k)
  {
    RunKeepsInv(env, Genesis, schedule);
    var w := Run(env, Genesis, schedule).value;
    if k in w.book.fills { TakenIsSubmitted(env, w, k); }
    RecoveryIsExact(w.rows, k);
  }

  /** Reports are never about an order the broker was not asked to place, and name the order of their own key. */
  lemma ReportsNeedACall(env: Env, schedule: seq<Action>, row: Row)
    requires Run(env, Genesis, schedule).Some? && row in Run(env, Genesis, schedule).value.rows
        && row.recordType == EXECUTION_REPORT
    ensures var w := Run(env, Genesis, schedule).value;
      && w.calls[row.recordId] == 1 && HasSubmit(w.rows, row.recordId)
      && row.payload.ReportRecord? && row.payload.report.brokerOrderId == OrderIdText(row.recordId)
  {
    RunKeepsInv(env, Genesis, schedule);
    var w := Run(env, Genesis, schedule).value;
    var j :| 0 <= j < |w.rows| && w.rows[j] == row;
    assert RowInv(w, w.rows[j]);
    TakenIsSubmitted(env, w, row.recordId);
  }

  lemma CallIsMonotone(env: Env, w: World, pid: nat, paper: PaperBrokerConfig, behaviour: Behaviour, name: string,
                       approval: Option<PaperSubmitApproval>, now: Time, k: string)
    requires ValidBook(w.book) && w.PhaseOf(pid).Attempted?
    ensures var w' := Called(env, w, pid, paper, behaviour, name, approval, now).value;
      w'.rows == w.rows && (k in w.book.fills ==> k in w'.book.fills && w'.book.fills[k] == w.book.fills[k])
  {
    PaperSubmitPlaces(env, paper, w.book, behaviour, name, w.PhaseOf(pid).intent, approval, now);
  }

  lemma CancelNextIsMonotone(w: World, pid: nat, ack: Acknowledge, now: Time, k: string)
    requires BookInv(w) && w.PhaseOf(pid).Cancelling?
    ensures var w' := CancelledNext(w, pid, ack, now).value;
      && w'.rows == w.rows
      && (k in w.book.fills && !IsOpen(w.book.fills[k].lifecycle) ==>
            k in w'.book.fills && w'.book.fills[k] == w.book.fills[k])
  {
    var phase := w.PhaseOf(pid);
    if phase.queue != [] { CancelFacts(w.book, phase.queue[0].fill.orderId.value, now); }
  }

  lemma LogOnlyGrows(env: Env, w: World, a: Action)
    requires Apply(env, w, a).Some?
    ensures w.rows <= Apply(env, w, a).value.rows
  {
  }

  lemma TerminalOrderStays(env: Env, w: World, a: Action, k: string)
    requires BookInv(w) && Apply(env, w, a).Some? && !a.BrokerRestart? && k in w.book.fills
        && !IsOpen(w.book.fills[k].lifecycle)
    ensures var book := Apply(env, w, a).value.book; k in book.fills && book.fills[k] == w.book.fills[k]
  {
    match a
    case FlattenOrder(id, now) => CancelFacts(w.book, id, now);
    case Call(pid, paper, behaviour, name, approval, now) =>
      CallIsMonotone(env, w, pid, paper, behaviour, name, approval, now, k);
    case CancelNext(pid, ack, now) => CancelNextIsMonotone(w, pid, ack, now, k);
    case _ =>
  }

  /** While the broker stays up a terminal order never changes again, and no row of the log is ever altered. */
  lemma {:induction false} TerminalOrdersAreFinal(env: Env, w: World, schedule: seq<Action>, k: string)
    requires Inv(env, w) && Run(env, w, schedule).Some?
    ensures w.rows <= Run(env, w, schedule).value.rows
    ensures BrokerRestart !in schedule && k in w.book.fills && !IsOpen(w.book.fills[k].lifecycle) ==>
              var book := Run(env, w, schedule).value.book; k in book.fills && book.fills[k] == w.book.fills[k]
    decreases |schedule|
  {
    if schedule != [] {
      StepKeepsInv(env, w, schedule[0]);
      LogOnlyGrows(env, w, schedule[0]);
      if schedule[0] != BrokerRestart && k in w.book.fills && !IsOpen(w.book.fills[k].lifecycle) {
        TerminalOrderStays(env, w, schedule[0], k);
      }
      TerminalOrdersAreFinal(env, Apply(env, w, schedule[0]).value, schedule[1..], k);
    }
  }
}
