/**
 * Whether the log tells the truth about open orders, over every schedule: each open order has a newest report that says
 * what the broker says, or a named reason why not (services/paper_cycle.py, brokers/fake.py, ops/control_plane.py).
 */
module Agreement {
  import opened Wrappers
  import opened Vocabulary
  import opened Trade
  import opened Orders
  import opened AuditLog
  import opened RecoveryFindings
  import opened Brokers
  import opened PaperCycle
  import opened Cancellation
  import opened Authentication
  import opened Protocol
  import opened Provenance

  /** The newest report under the key says of the order what the broker says of it. */
  ghost predicate LogAgrees(rows: seq<Row>, k: string, f: BrokerFill) {
    exists j: nat :: IsNewestReport(rows, k, j) && rows[j].payload.ReportRecord?
        && SaysTheSame(rows[j].payload.report, f)
  }

  /** The log agrees with the broker about every open order. */
  ghost predicate AgreesOnOpenOrders(rows: seq<Row>, book: Book) {
    forall k :: OpenAtBroker(book, k) ==> LogAgrees(rows, k, book.fills[k])
  }

  lemma AgreementStays(rows: seq<Row>, row: Row, k: string, f: BrokerFill)
    requires LogAgrees(rows, k, f) && !(row.recordType == EXECUTION_REPORT && row.recordId == k)
    ensures LogAgrees(rows + [row], k, f)
  {
    var j: nat :| IsNewestReport(rows, k, j) && rows[j].payload.ReportRecord? && SaysTheSame(rows[j].payload.report, f);
    assert IsNewestReport(rows + [row], k, j);
  }

  lemma NewReportAgrees(rows: seq<Row>, row: Row, k: string, f: BrokerFill)
    requires row.recordType == EXECUTION_REPORT && row.recordId == k
    requires row.payload.ReportRecord? && SaysTheSame(row.payload.report, f)
    ensures LogAgrees(rows + [row], k, f)
  {
    assert IsNewestReport(rows + [row], k, |rows|);
  }

  /* ---- what a broker's answer allows to be reported ---- */

  /** Filled, by the broker's clock, before it was submitted. */
  predicate Backdated(f: BrokerFill) { f.fillAt.Some? && f.fillAt.value < f.submittedAt }

  /** The answer is about this very intent, and an open order is not completed. */
  predicate Answers(i: BrokerSubmitIntent, f: BrokerFill) {
    && f.requested == i.ticket.Contracts() && f.submittedAt == i.submittedAt && 0 <= f.filled <= f.requested
    && (IsOpen(f.lifecycle) ==> f.completedAt.None?)
  }

  /** Of an open order a report can be minted iff it is not backdated, and the report says what the broker says. */
  lemma OpenAnswerIsReported(i: BrokerSubmitIntent, f: BrokerFill)
    requires Answers(i, f) && IsOpen(f.lifecycle)
    ensures ReportOf(i, f).Ok? <==> !Backdated(f)
    ensures ReportOf(i, f).Ok? ==>
              SaysTheSame(ReportOf(i, f).value, f) && ReportOf(i, f).value.idempotencyKey == i.idempotencyKey
  {
    ReportMintIsExact(i, f.orderId.value, f.lifecycle, f.filled, f.avgPrice, f.fillAt, f.completedAt);
  }

  lemma NewAnswerAnswers(env: Env, paper: PaperBrokerConfig, book: Book, behaviour: Behaviour, name: string,
                         i: BrokerSubmitIntent, approval: Option<PaperSubmitApproval>, now: Time)
    requires i.idempotencyKey !in book.fills
    ensures var reply := PaperSubmit(env, paper, book, behaviour, name, i, approval, now);
      if reply.result.Ok? then Answers(i, reply.result.value) else reply.book == book
  {
    SubmitIsExact(book, behaviour, name, i, now);
    if Simulate(behaviour, name, i, now).Ok? { SimulatedFillIsCoherent(behaviour, name, i, now); }
  }

  /* ---- the invariant ---- */

  /** A process holds the answer to this key and has still to report it. */
  ghost predicate InFlight(w: World, k: string) {
    exists p :: p in w.phases && w.phases[p].Answered? && w.phases[p].answered.idempotencyKey == k
  }

  /** The log agrees with the broker about the order, or will, or cannot, or its answer was lost. */
  ghost predicate Accounted(w: World, k: string, lost: set<string>)
    requires k in w.book.fills
  {
    LogAgrees(w.rows, k, w.book.fills[k]) || InFlight(w, k) || Backdated(w.book.fills[k]) || k in lost
  }

  /** What a process still has to report is what the broker would say. */
  ghost predicate PhaseTells(book: Book, phase: Phase) {
    match phase
    case Answered(i, f) =>
      && Answers(i, f)
      && (OpenAtBroker(book, i.idempotencyKey) ==> book.fills[i.idempotencyKey] == f)
    case Closing(report, _) => !IsOpen(report.lifecycle)
    case _ => true
  }

  ghost predicate PhasesTell(w: World) { forall p :: p in w.phases ==> PhaseTells(w.book, w.phases[p]) }

  ghost predicate AllAccounted(w: World, lost: set<string>) {
    forall k :: OpenAtBroker(w.book, k) ==> Accounted(w, k, lost)
  }

  ghost predicate Tells(w: World, lost: set<string>) { PhasesTell(w) && AllAccounted(w, lost) }

  /* ---- what the steps have in common ---- */

  /** An order the broker was called for is open in the new book only as it was before. */
  ghost predicate Steady(w: World, book: Book) {
    forall k :: w.calls[k] > 0 && OpenAtBroker(book, k) ==> OpenAtBroker(w.book, k) && book.fills[k] == w.book.fills[k]
  }

  lemma PhaseStaysTelling(w: World, book: Book, phase: Phase)
    requires PhaseInv(w, phase) && PhaseTells(w.book, phase) && Steady(w, book)
    ensures PhaseTells(book, phase)
  {
  }

  lemma MovePhasesTell(w: World, w': World, pid: nat, next: Phase)
    requires PhasesInv(w) && PhasesTell(w) && Steady(w, w'.book)
    requires w'.phases == w.phases[pid := next] && PhaseTells(w'.book, next)
    ensures PhasesTell(w')
  {
    forall p | p in w'.phases ensures PhaseTells(w'.book, w'.phases[p]) {
      if p != pid { PhaseStaysTelling(w, w'.book, w.phases[p]); }
    }
  }

  lemma SamePhasesTell(w: World, w': World)
    requires PhasesInv(w) && PhasesTell(w) && Steady(w, w'.book) && w'.phases == w.phases
    ensures PhasesTell(w')
  {
    forall p | p in w'.phases ensures PhaseTells(w'.book, w'.phases[p]) {
      PhaseStaysTelling(w, w'.book, w.phases[p]);
    }
  }

  /** Other processes' answers stay in flight. */
  lemma FlightGoesOn(w: World, w': World, pid: nat, next: Phase, k: string)
    requires InFlight(w, k) && w'.phases == w.phases[pid := next]
    requires w.PhaseOf(pid).Answered? ==> w.PhaseOf(pid).answered.idempotencyKey != k
    ensures InFlight(w', k)
  {
    var p :| p in w.phases && w.phases[p].Answered? && w.phases[p].answered.idempotencyKey == k;
    assert w'.phases[p] == w.phases[p];
  }

  /** A step of a process that holds no answer, without a new row or a new order. */
  lemma MoveTells(w: World, w': World, pid: nat, next: Phase, lost: set<string>)
    requires PhasesInv(w) && Tells(w, lost) && !w.PhaseOf(pid).Answered? && PhaseTells(w'.book, next)
    requires w'.rows == w.rows && w'.phases == w.phases[pid := next] && Steady(w, w'.book)
    requires forall k :: OpenAtBroker(w'.book, k) ==> w.calls[k] > 0
    ensures Tells(w', lost)
  {
    MovePhasesTell(w, w', pid, next);
    forall k | OpenAtBroker(w'.book, k) ensures Accounted(w', k, lost) {
      assert Accounted(w, k, lost);
      if InFlight(w, k) { FlightGoesOn(w, w', pid, next, k); }
    }
  }

  /** A step that touches nothing but the broker, and opens nothing there. */
  lemma BookTells(w: World, book: Book, lost: set<string>)
    requires PhasesInv(w) && Tells(w, lost) && Steady(w, book)
    requires forall k :: OpenAtBroker(book, k) ==> w.calls[k] > 0
    ensures Tells(w.(book := book), lost)
  {
    var w' := w.(book := book);
    SamePhasesTell(w, w');
    forall k | OpenAtBroker(book, k) ensures Accounted(w', k, lost) {
      assert Accounted(w, k, lost);
      assert InFlight(w, k) ==> InFlight(w', k);
    }
  }

  lemma CancelIsSteady(w: World, id: string, now: Time)
    requires BookInv(w)
    ensures Steady(w, Cancel(w.book, id, now).book)
    ensures forall k :: OpenAtBroker(Cancel(w.book, id, now).book, k) ==> w.calls[k] > 0
  {
    CancelFacts(w.book, id, now);
    CancelIsExact(w.book, id, now);
  }

  /* ---- the steps ---- */

  lemma NoteTells(env: Env, w: World, r: Record, createdAt: Time, recordedAt: Time, lost: set<string>)
    requires PhasesInv(w) && Tells(w, lost) && !r.ReportRecord?
    ensures Tells(w.(rows := Logged(env, w.rows, r, createdAt, recordedAt)), lost)
  {
    var w' := w.(rows := Logged(env, w.rows, r, createdAt, recordedAt));
    var row := RowFor(env, |w.rows| + 1, r, createdAt, recordedAt, None);
    SamePhasesTell(w, w');
    forall k | OpenAtBroker(w'.book, k) ensures Accounted(w', k, lost) {
      assert Accounted(w, k, lost);
      if LogAgrees(w.rows, k, w.book.fills[k]) { AgreementStays(w.rows, row, k, w.book.fills[k]); }
      assert InFlight(w, k) ==> InFlight(w', k);
    }
  }

  lemma PersistTells(env: Env, w: World, pid: nat, i: BrokerSubmitIntent, recordedAt: Time, lost: set<string>)
    requires PhasesInv(w) && Tells(w, lost) && Persisted(env, w, pid, i, recordedAt).Some?
    ensures Tells(Persisted(env, w, pid, i, recordedAt).value, lost)
  {
    var w' := Persisted(env, w, pid, i, recordedAt).value;
    MovePhasesTell(w, w', pid, Attempted(i));
    forall k | OpenAtBroker(w'.book, k) ensures Accounted(w', k, lost) {
      assert Accounted(w, k, lost);
      if LogAgrees(w.rows, k, w.book.fills[k]) {
        AgreementStays(w.rows, SubmitRow(env, w.rows, i, recordedAt), k, w.book.fills[k]);
      }
      if InFlight(w, k) { FlightGoesOn(w, w', pid, Attempted(i), k); }
    }
  }

  lemma CallTells(env: Env, w: World, pid: nat, paper: PaperBrokerConfig, behaviour: Behaviour, name: string,
                  approval: Option<PaperSubmitApproval>, now: Time, lost: set<string>)
    requires Inv(env, w) && Tells(w, lost) && w.PhaseOf(pid).Attempted?
    ensures Tells(Called(env, w, pid, paper, behaviour, name, approval, now).value, lost)
  {
    var i := w.PhaseOf(pid).intent;
    var reply := PaperSubmit(env, paper, w.book, behaviour, name, i, approval, now);
    assert PhaseInv(w, w.phases[pid]);
    PaperSubmitPlaces(env, paper, w.book, behaviour, name, i, approval, now);
    NewAnswerAnswers(env, paper, w.book, behaviour, name, i, approval, now);
    PlacedTells(w, pid, i, reply, lost);
  }

  lemma PlacedTells(w: World, pid: nat, i: BrokerSubmitIntent, reply: Reply, lost: set<string>)
    requires PhasesInv(w) && BookInv(w) && Tells(w, lost) && w.PhaseOf(pid).Attempted?
    requires Placed(w.book, reply, i.idempotencyKey) && w.calls[i.idempotencyKey] == 0
    requires if reply.result.Ok? then Answers(i, reply.result.value) else reply.book == w.book
    ensures Tells(w.(book := reply.book, calls := w.calls + multiset{i.idempotencyKey})
                    .Now(pid, if reply.result.Ok? then Answered(i, reply.result.value) else Idle), lost)
  {
    var next := if reply.result.Ok? then Answered(i, reply.result.value) else Idle;
    var w' := w.(book := reply.book, calls := w.calls + multiset{i.idempotencyKey}).Now(pid, next);
    MovePhasesTell(w, w', pid, next);
    forall k | OpenAtBroker(w'.book, k) ensures Accounted(w', k, lost) {
      if k in w.book.fills {
        assert Accounted(w, k, lost);
        if InFlight(w, k) { FlightGoesOn(w, w', pid, next, k); }
      } else {
        assert w'.phases[pid] == next;
      }
    }
  }

  /** Writing a report under one key leaves the other orders as they are accounted for. */
  lemma OthersStayAccounted(env: Env, w: World, pid: nat, report: ExecutionReport, recordedAt: Time, next: Phase,
                            k: string, lost: set<string>)
    requires OpenAtBroker(w.book, k) && Accounted(w, k, lost) && k != report.idempotencyKey
    requires w.PhaseOf(pid).Answered? ==> w.PhaseOf(pid).answered.idempotencyKey != k
    ensures Accounted(WithReport(env, w, pid, report, recordedAt, next), k, lost)
  {
    var w' := WithReport(env, w, pid, report, recordedAt, next);
    var row := RowFor(env, |w.rows| + 1, ReportRecord(report), report.EventTime(), recordedAt, None);
    if LogAgrees(w.rows, k, w.book.fills[k]) { AgreementStays(w.rows, row, k, w.book.fills[k]); }
    if InFlight(w, k) { FlightGoesOn(w, w', pid, next, k); }
  }

  lemma ReportTells(env: Env, w: World, pid: nat, recordedAt: Time, lost: set<string>)
    requires PhasesInv(w) && Tells(w, lost) && w.PhaseOf(pid).Answered?
    ensures Tells(Reported(env, w, pid, recordedAt).value, lost)
  {
    var i, f := w.PhaseOf(pid).answered, w.PhaseOf(pid).fill;
    var w' := Reported(env, w, pid, recordedAt).value;
    ReportSteps(env, w, pid, recordedAt);
    MovePhasesTell(w, w', pid, Idle);
    assert PhaseTells(w.book, w.phases[pid]);
    forall k | OpenAtBroker(w'.book, k) ensures Accounted(w', k, lost) {
      assert Accounted(w, k, lost);
      if k == i.idempotencyKey {
        AnswerIsAccounted(env, w, pid, recordedAt, lost);
      } else if ReportOf(i, f).Ok? {
        OthersStayAccounted(env, w, pid, ReportOf(i, f).value, recordedAt, Idle, k, lost);
      } else if InFlight(w, k) {
        FlightGoesOn(w, w', pid, Idle, k);
      }
    }
  }

  lemma AnswerIsAccounted(env: Env, w: World, pid: nat, recordedAt: Time, lost: set<string>)
    requires w.PhaseOf(pid).Answered? && PhaseTells(w.book, w.PhaseOf(pid))
    requires OpenAtBroker(w.book, w.PhaseOf(pid).answered.idempotencyKey)
    ensures Accounted(Reported(env, w, pid, recordedAt).value, w.PhaseOf(pid).answered.idempotencyKey, lost)
  {
    var i, f := w.PhaseOf(pid).answered, w.PhaseOf(pid).fill;
    ReportSteps(env, w, pid, recordedAt);
    OpenAnswerIsReported(i, f);
    if ReportOf(i, f).Ok? {
      var report := ReportOf(i, f).value;
      var row := RowFor(env, |w.rows| + 1, ReportRecord(report), report.EventTime(), recordedAt, None);
      NewReportAgrees(w.rows, row, i.idempotencyKey, f);
    }
  }

  lemma AuthenticateTells(env: Env, w: World, pid: nat, lost: set<string>)
    requires PhasesInv(w) && BookInv(w) && Tells(w, lost) && w.PhaseOf(pid).Authenticating?
    ensures Tells(Authenticated(env, w, pid).value, lost)
  {
    var w' := Authenticated(env, w, pid).value;
    assert w'.phases[pid].Cancelling? || w'.phases[pid].Idle? || w'.phases[pid].Authenticating?;
    MoveTells(w, w', pid, w'.phases[pid], lost);
  }

  lemma CancelNextTells(env: Env, w: World, pid: nat, ack: Acknowledge, now: Time, lost: set<string>)
    requires PhasesInv(w) && BookInv(w) && Tells(w, lost) && w.PhaseOf(pid).Cancelling?
    ensures Tells(CancelledNext(w, pid, ack, now).value, lost)
  {
    var queue := w.PhaseOf(pid).queue;
    if queue == [] {
      MoveTells(w, w.Now(pid, Idle), pid, Idle, lost);
    } else {
      var q := queue[0];
      var reply := CancelReply(w.book, ack, q.fill.orderId.value, now);
      var report := TerminalReport(q, reply.result);
      var next := if report.Err? then Idle else Closing(report.value, queue[1..]);
      CancelIsSteady(w, q.fill.orderId.value, now);
      assert report.Ok? ==> report.value.lifecycle == CANCELLED;
      MoveTells(w, w.(book := reply.book).Now(pid, next), pid, next, lost);
    }
  }

  lemma CloseTells(env: Env, w: World, pid: nat, recordedAt: Time, lost: set<string>)
    requires PhasesInv(w) && Tells(w, lost) && w.PhaseOf(pid).Closing?
    ensures Tells(Closed(env, w, pid, recordedAt).value, lost)
  {
    var report, next := w.PhaseOf(pid).report, Cancelling(w.PhaseOf(pid).rest);
    ReportSteps(env, w, pid, recordedAt);
    var w' := WithReport(env, w, pid, report, recordedAt, next);
    MovePhasesTell(w, w', pid, next);
    assert PhaseInv(w, w.phases[pid]) && PhaseTells(w.book, w.phases[pid]);
    forall k | OpenAtBroker(w'.book, k) ensures Accounted(w', k, lost) {
      OthersStayAccounted(env, w, pid, report, recordedAt, next, k, lost);
    }
  }

  lemma CrashTells(env: Env, w: World, pid: nat, lost: set<string>)
    requires PhasesInv(w) && Tells(w, lost)
    ensures Tells(w.Now(pid, Idle), lost + Loses(w, Crash(pid)))
  {
    var w' := w.Now(pid, Idle);
    MovePhasesTell(w, w', pid, Idle);
    forall k | OpenAtBroker(w'.book, k) ensures Accounted(w', k, lost + Loses(w, Crash(pid))) {
      assert Accounted(w, k, lost);
      if InFlight(w, k) && k !in Loses(w, Crash(pid)) { FlightGoesOn(w, w', pid, Idle, k); }
    }
  }

  lemma BrokerStepTells(w: World, id: string, now: Time, lost: set<string>)
    requires PhasesInv(w) && BookInv(w) && Tells(w, lost)
    ensures Tells(w.(book := Cancel(w.book, id, now).book), lost) && Tells(w.(book := EmptyBook), lost)
  {
    CancelIsSteady(w, id, now);
    BookTells(w, Cancel(w.book, id, now).book, lost);
    BookTells(w, EmptyBook, lost);
  }

  lemma ListOpenTells(w: World, pid: nat, lost: set<string>)
    requires PhasesInv(w) && BookInv(w) && Tells(w, lost) && w.PhaseOf(pid).Idle?
    ensures Tells(w.Now(pid, Authenticating(OpenOrders(w.book), [])), lost)
  {
    var next := Authenticating(OpenOrders(w.book), []);
    MoveTells(w, w.Now(pid, next), pid, next, lost);
  }

  lemma OtherStepTells(env: Env, w: World, a: Action, lost: set<string>)
    requires PhasesInv(w) && BookInv(w) && Tells(w, lost) && Apply(env, w, a).Some?
    requires a.FlattenOrder? || a.BrokerRestart? || a.ListOpen? || a.Crash?
    ensures Tells(Apply(env, w, a).value, lost + Loses(w, a))
  {
    assert !a.Crash? ==> lost + Loses(w, a) == lost;
    match a
    case FlattenOrder(id, now) =>
      PhaselessSteps(env, w, 0, id, now);
      BrokerStepTells(w, id, now, lost);
    case BrokerRestart =>
      PhaselessSteps(env, w, 0, "", 0);
      BrokerStepTells(w, "", 0, lost);
    case Crash(pid) =>
      PhaselessSteps(env, w, pid, "", 0);
      CrashTells(env, w, pid, lost);
    case ListOpen(pid) =>
      PhaselessSteps(env, w, pid, "", 0);
      ListOpenTells(w, pid, lost);
  }

  lemma SubmitStepTells(env: Env, w: World, a: Action, lost: set<string>)
    requires Inv(env, w) && Tells(w, lost) && Apply(env, w, a).Some?
    requires a.Note? || a.Persist? || a.Call? || a.PersistReport?
    ensures Tells(Apply(env, w, a).value, lost)
  {
    SubmitSteps(env, w, a);
    match a
    case Note(r, createdAt, recordedAt) => NoteTells(env, w, r, createdAt, recordedAt, lost);
    case Persist(pid, i, recordedAt) => PersistTells(env, w, pid, i, recordedAt, lost);
    case Call(pid, paper, behaviour, name, approval, now) =>
      CallTells(env, w, pid, paper, behaviour, name, approval, now, lost);
    case PersistReport(pid, recordedAt) => ReportTells(env, w, pid, recordedAt, lost);
  }

  lemma CancelStepTells(env: Env, w: World, a: Action, lost: set<string>)
    requires Inv(env, w) && Tells(w, lost) && Apply(env, w, a).Some?
    requires a.Authenticate? || a.CancelNext? || a.PersistTerminal?
    ensures Tells(Apply(env, w, a).value, lost)
  {
    CancelSteps(env, w, a);
    match a
    case Authenticate(pid) => AuthenticateTells(env, w, pid, lost);
    case CancelNext(pid, ack, now) => CancelNextTells(env, w, pid, ack, now, lost);
    case PersistTerminal(pid, recordedAt) => CloseTells(env, w, pid, recordedAt, lost);
  }

  lemma StepTells(env: Env, w: World, a: Action, lost: set<string>)
    requires Inv(env, w) && Tells(w, lost) && Apply(env, w, a).Some?
    ensures Tells(Apply(env, w, a).value, lost + Loses(w, a))
  {
    assert !a.Crash? ==> lost + Loses(w, a) == lost;
    if a.Note? || a.Persist? || a.Call? || a.PersistReport? {
      SubmitStepTells(env, w, a, lost);
    } else if a.Authenticate? || a.CancelNext? || a.PersistTerminal? {
      CancelStepTells(env, w, a, lost);
    } else {
      OtherStepTells(env, w, a, lost);
    }
  }

  lemma {:induction false} RunTells(env: Env, w: World, schedule: seq<Action>, lost: set<string>)
    requires Inv(env, w) && Tells(w, lost) && Run(env, w, schedule).Some?
    ensures Tells(Run(env, w, schedule).value, lost + Lost(env, w, schedule))
    decreases |schedule|
  {
    if schedule == [] {
      assert lost + Lost(env, w, schedule) == lost;
    } else {
      var a := schedule[0];
      var next := Apply(env, w, a).value;
      StepKeepsInv(env, w, a);
      StepTells(env, w, a, lost);
      RunTells(env, next, schedule[1..], lost + Loses(w, a));
      assert lost + Lost(env, w, schedule) == (lost + Loses(w, a)) + Lost(env, next, schedule[1..]);
    }
  }

  /**
   * After every schedule, if the log does not say of an open order what the broker says, then a process has still to
   * report it, or the broker dated its fill before its submission, or a crash lost the broker's answer.
   */
  lemma DisagreementHasACause(env: Env, schedule: seq<Action>, w: World, k: string)
    requires Run(env, Genesis, schedule) == Some(w) && OpenAtBroker(w.book, k)
    ensures || LogAgrees(w.rows, k, w.book.fills[k]) || InFlight(w, k) || Backdated(w.book.fills[k])
            || k in Lost(env, Genesis, schedule)
  {
    RunTells(env, Genesis, schedule, {});
  }

  /** What is backdated is never agreed upon, since no such report exists. */
  lemma BackdatedIsNeverAgreed(env: Env, rows: seq<Row>, k: string, f: BrokerFill)
    requires ValidLog(env, rows) && LogAgrees(rows, k, f)
    ensures !Backdated(f)
  {
    var j: nat :| IsNewestReport(rows, k, j) && rows[j].payload.ReportRecord? && SaysTheSame(rows[j].payload.report, f);
    assert ValidRow(env, rows[j], j);
  }

  /** With every process at rest and no answer lost, the log agrees about an open order iff it is not backdated. */
  lemma AgreesUnlessBackdated(env: Env, schedule: seq<Action>, w: World, k: string)
    requires Run(env, Genesis, schedule) == Some(w) && Lost(env, Genesis, schedule) == {}
    requires OpenAtBroker(w.book, k) && forall p :: p in w.phases ==> w.phases[p].Idle?
    ensures LogAgrees(w.rows, k, w.book.fills[k]) <==> !Backdated(w.book.fills[k])
  {
    DisagreementHasACause(env, schedule, w, k);
    assert ValidLog(env, w.rows) by { RunKeepsInv(env, Genesis, schedule); }
    if LogAgrees(w.rows, k, w.book.fills[k]) { BackdatedIsNeverAgreed(env, w.rows, k, w.book.fills[k]); }
  }
}
