/** The replay runner: the submit and resubmit drill of one scenario (replay/runner.py, replay/results.py). */
module Replay {
  import opened Wrappers
  import opened Vocabulary
  import opened Trade
  import opened AuditLog
  import opened Brokers
  import opened PaperCycle
  import opened CycleProperties
  import Protocol

  datatype ReplayOutcome =
    | BROKER_REJECTED
    | BROKER_DISCONNECTED
    | BROKER_TIMEOUT
    | FILLED_OUTCOME
    | PARTIAL_FILL_OUTCOME
    | WORKING_OUTCOME
    | REPORT_REJECTED

  /** Outcomes the runner calls unresolved. */
  predicate IsUnresolved(o: ReplayOutcome) { o != FILLED_OUTCOME }

  function ErrorOutcome(e: BrokerError): ReplayOutcome {
    match e
    case BrokerDisconnect => BROKER_DISCONNECTED
    case BrokerTimeout => BROKER_TIMEOUT
    case _ => BROKER_REJECTED
  }

  /** Anything but a fill or a partial fill is called working. */
  function LifecycleOutcome(s: OrderLifecycleState): ReplayOutcome {
    match s
    case FILLED => FILLED_OUTCOME
    case PARTIAL_FILL => PARTIAL_FILL_OUTCOME
    case _ => WORKING_OUTCOME
  }

  /** `clock` is the broker's wall clock at its n-th call, `codeText` the printed form of a reason code. */
  datatype Scenario = Scenario(
    id: string, asOf: Time, recordedAt: Time, resubmitAttempts: nat, clock: nat -> Time, codeText: ReasonCode -> string)
  {
    function Failure(suffix: string, reason: ReasonCode): Record {
      ArtifactRecord(AuditArtifact("replay-" + id + "-" + suffix, asOf, "REJECT", [reason]))
    }

    function BrokerFailure(e: BrokerError): Record { Failure("broker-" + codeText(ReasonOf(e)), ReasonOf(e)) }

    function ResubmitFailure(n: nat, e: BrokerError): Record {
      Failure("resubmit-" + NatText(n) + "-broker-" + codeText(ReasonOf(e)), ReasonOf(e))
    }
  }

  /** The part of a replay result that the drill decides. */
  datatype Drill = Drill(rows: seq<Row>, book: Book, attempts: nat, secondOrder: bool, deduped: bool)

  datatype Replayed = Replayed(drill: Drill, outcome: ReplayOutcome) {
    predicate Flagged() { IsUnresolved(outcome) }
  }

  function Appended(env: Env, sc: Scenario, d: Drill, r: Record): Drill {
    d.(rows := Logged(env, d.rows, r, sc.asOf, sc.recordedAt))
  }

  /** One same-key resubmission, the `n`-th, to a broker that behaves as given. */
  function ResubmitOnce(env: Env, sc: Scenario, behaviour: Behaviour, name: string, i: BrokerSubmitIntent,
                        first: string, d: Drill, n: nat): Drill
  {
    var reply := Submit(d.book, behaviour, name, i, sc.clock(n + 1));
    AfterResubmission(env, sc, i, first, d.(book := reply.book, attempts := d.attempts + 1), n, reply.result)
  }

  /** A failed resubmission is audited; an answered one is offered to the store, which refuses a known key. */
  function AfterResubmission(env: Env, sc: Scenario, i: BrokerSubmitIntent, first: string, called: Drill, n: nat,
                             result: Result<BrokerFill, BrokerError>): Drill
  {
    match result
    case Err(e) => Appended(env, sc, called, sc.ResubmitFailure(n, e))
    case Ok(fill) =>
      var seen := called.(secondOrder := called.secondOrder || fill.orderId.value != first);
      if KeyTaken(seen.rows, i.idempotencyKey) then seen.(deduped := true)
      else seen.(rows := seen.rows + [SubmitRow(env, seen.rows, i, sc.recordedAt)])
  }

  function Resubmit(env: Env, sc: Scenario, behaviour: Behaviour, name: string, i: BrokerSubmitIntent, first: string,
                    d: Drill, n: nat): Drill
  {
    if n == 0 then d
    else ResubmitOnce(env, sc, behaviour, name, i, first, Resubmit(env, sc, behaviour, name, i, first, d, n - 1), n - 1)
  }

  /** What follows the broker's first answer. */
  function AfterAnswer(env: Env, sc: Scenario, behaviour: Behaviour, name: string, i: BrokerSubmitIntent, d: Drill,
                       answer: Result<BrokerFill, BrokerError>): Replayed
  {
    match answer
    case Err(e) => Replayed(Appended(env, sc, d, sc.BrokerFailure(e)), ErrorOutcome(e))
    case Ok(fill) =>
      var report := ReportOf(i, fill);
      if report.Err? then Replayed(Appended(env, sc, d, sc.Failure("execution-report", INTERNAL_CONTRADICTION)),
                                   REPORT_REJECTED)
      else
        var reported := Appended(env, sc, d, ReportRecord(report.value));
        Replayed(Resubmit(env, sc, behaviour, name, i, fill.orderId.value, reported, sc.resubmitAttempts),
                 LifecycleOutcome(fill.lifecycle))
  }

  /** Persist, submit, report, resubmit; a key that is already in the log raises before anything happens. */
  function RunSubmission(env: Env, sc: Scenario, behaviour: Behaviour, name: string, rows: seq<Row>, book: Book,
                         i: BrokerSubmitIntent)
    : Result<Replayed, StoreError>
  {
    if KeyTaken(rows, i.idempotencyKey) then Err(DuplicateIdempotencyKey)
    else
      var reply := Submit(book, behaviour, name, i, sc.clock(0));
      var persisted := Drill(rows + [SubmitRow(env, rows, i, sc.recordedAt)], reply.book, 1, false, false);
      Ok(AfterAnswer(env, sc, behaviour, name, i, persisted, reply.result))
  }

  /* ---- resubmission changes nothing ---- */

  /** For every number of resubmissions: no second order, no second row, and the store has refused every one of them. */
  lemma {:induction false} ResubmissionIsIdempotent(env: Env, sc: Scenario, behaviour: Behaviour, name: string,
                                                    i: BrokerSubmitIntent, d: Drill, n: nat)
    requires ValidBook(d.book) && i.idempotencyKey in d.book.fills && i.submitMode == PAPER
        && KeyTaken(d.rows, i.idempotencyKey)
    requires !d.secondOrder && !d.deduped
    ensures Resubmit(env, sc, behaviour, name, i, d.book.fills[i.idempotencyKey].orderId.value, d, n)
         == d.(attempts := d.attempts + n, deduped := n > 0)
  {
    if n > 0 { ResubmissionIsIdempotent(env, sc, behaviour, name, i, d, n - 1); }
  }

  /** The log has nothing under this key yet. */
  ghost predicate Fresh(rows: seq<Row>, k: string) {
    !KeyTaken(rows, k) && !HasSubmit(rows, k) && LatestReport(rows, k).None?
  }

  /**
   * In every reachable state a key without a submit attempt is fresh, so the store's own uniqueness check decides it.
   */
  lemma UnusedKeysAreFresh(env: Env, schedule: seq<Protocol.Action>, k: string)
    requires Protocol.Run(env, Protocol.Genesis, schedule).Some?
    requires !HasSubmit(Protocol.Run(env, Protocol.Genesis, schedule).value.rows, k)
    ensures Fresh(Protocol.Run(env, Protocol.Genesis, schedule).value.rows, k)
  {
    var w := Protocol.Run(env, Protocol.Genesis, schedule).value;
    Protocol.RunKeepsInv(env, Protocol.Genesis, schedule);
    if KeyTaken(w.rows, k) { Protocol.TakenIsSubmitted(env, w, k); }
    if LatestReport(w.rows, k).Some? { ReportedKeysAreSubmitted(env, w, k); }
  }

  lemma ReportedKeysAreSubmitted(env: Env, w: Protocol.World, k: string)
    requires Protocol.LogInv(env, w) && Protocol.CallInv(w) && LatestReport(w.rows, k).Some?
    ensures HasSubmit(w.rows, k)
  {
    LatestReportIsReport(env, w.rows, k);
    var row := LatestReport(w.rows, k).value;
    var j :| 0 <= j < |w.rows| && w.rows[j] == row;
    assert Protocol.RowInv(w, w.rows[j]) && ValidRow(env, w.rows[j], j);
    Protocol.TakenIsSubmitted(env, w, k);
  }

  /** The second row of the drill: the report, or the artifact of what prevented it. */
  function SecondRecord(sc: Scenario, i: BrokerSubmitIntent, answer: Result<BrokerFill, BrokerError>): Record {
    match answer
    case Err(e) => sc.BrokerFailure(e)
    case Ok(fill) =>
      var report := ReportOf(i, fill);
      if report.Err? then sc.Failure("execution-report", INTERNAL_CONTRADICTION) else ReportRecord(report.value)
  }

  ghost predicate IsOnlyOrder(before: Book, after: Book, k: string) {
    && ValidBook(after)
    && (forall j :: j in before.fills ==> j in after.fills && after.fills[j] == before.fills[j])
    && (forall j :: j in after.fills && j !in before.fills ==> j == k)
  }

  function OutcomeOf(i: BrokerSubmitIntent, answer: Result<BrokerFill, BrokerError>): ReplayOutcome {
    match answer
    case Err(e) => ErrorOutcome(e)
    case Ok(fill) => if ReportOf(i, fill).Err? then REPORT_REJECTED else LifecycleOutcome(fill.lifecycle)
  }

  /** The drill without its loop: every resubmission is counted and none has any other effect. */
  function Undisturbed(env: Env, sc: Scenario, i: BrokerSubmitIntent, d: Drill,
                       answer: Result<BrokerFill, BrokerError>): Replayed
  {
    var resubmissions := if answer.Ok? && ReportOf(i, answer.value).Ok? then sc.resubmitAttempts else 0;
    Replayed(Appended(env, sc, d, SecondRecord(sc, i, answer)).(attempts := d.attempts + resubmissions,
                                                                deduped := resubmissions > 0),
             OutcomeOf(i, answer))
  }

  lemma AnswerIsUndisturbed(env: Env, sc: Scenario, behaviour: Behaviour, name: string, i: BrokerSubmitIntent, d: Drill,
                            answer: Result<BrokerFill, BrokerError>)
    requires ValidBook(d.book) && KeyTaken(d.rows, i.idempotencyKey) && !d.secondOrder && !d.deduped
    requires answer.Ok? ==>
        i.submitMode == PAPER && i.idempotencyKey in d.book.fills && d.book.fills[i.idempotencyKey] == answer.value
    ensures AfterAnswer(env, sc, behaviour, name, i, d, answer) == Undisturbed(env, sc, i, d, answer)
  {
    if answer.Ok? && ReportOf(i, answer.value).Ok? {
      var reported := Appended(env, sc, d, ReportRecord(ReportOf(i, answer.value).value));
      assert KeyTaken(reported.rows, i.idempotencyKey) by {
        Protocol.TakenStaysTaken(d.rows, reported.rows, i.idempotencyKey);
      }
      ResubmissionIsIdempotent(env, sc, behaviour, name, i, reported, sc.resubmitAttempts);
    }
  }

  /** Under a fresh key the whole run is the undisturbed drill, for every number of resubmissions. */
  lemma ReplayIsUndisturbed(env: Env, sc: Scenario, behaviour: Behaviour, name: string, rows: seq<Row>, book: Book,
                            i: BrokerSubmitIntent)
    requires ValidBook(book) && !KeyTaken(rows, i.idempotencyKey)
    ensures var reply := Submit(book, behaviour, name, i, sc.clock(0));
      var persisted := Drill(rows + [SubmitRow(env, rows, i, sc.recordedAt)], reply.book, 1, false, false);
      RunSubmission(env, sc, behaviour, name, rows, book, i) == Ok(Undisturbed(env, sc, i, persisted, reply.result))
  {
    var reply := Submit(book, behaviour, name, i, sc.clock(0));
    var persisted := Drill(rows + [SubmitRow(env, rows, i, sc.recordedAt)], reply.book, 1, false, false);
    assert persisted.rows[|rows|].idempotencyKey == Some(i.idempotencyKey);
    SubmitFacts(book, behaviour, name, i, sc.clock(0));
    AnswerIsUndisturbed(env, sc, behaviour, name, i, persisted, reply.result);
  }

  ghost predicate OneOrderOneAttempt(rows: seq<Row>, book: Book, k: string, d: Drill) {
    && rows <= d.rows && |d.rows| == |rows| + 2
    && CountOf(d.rows, BROKER_SUBMIT_INTENT) == CountOf(rows, BROKER_SUBMIT_INTENT) + 1 && HasSubmit(d.rows, k)
    && IsOnlyOrder(book, d.book, k) && !d.secondOrder
  }

  /**
   * Under a fresh key and for every number of resubmissions the log grows by one submit attempt and one report or
   * failure, the broker holds at most the one order of that key more, and no second order is ever reported.
   */
  lemma ReplayIsExact(env: Env, sc: Scenario, behaviour: Behaviour, name: string, rows: seq<Row>, book: Book,
                      i: BrokerSubmitIntent)
    requires ValidBook(book) && Fresh(rows, i.idempotencyKey)
    ensures var r := RunSubmission(env, sc, behaviour, name, rows, book, i);
      r.Ok? && OneOrderOneAttempt(rows, book, i.idempotencyKey, r.value.drill)
  {
    var submit, second := DrillShape(env, sc, behaviour, name, rows, book, i);
    SubmitAddsOnlyOrder(book, behaviour, name, i, sc.clock(0));
    RowsOfDrill(rows, submit, second, i.idempotencyKey);
  }

  /** The two rows of a run under a fresh key, and everything else the run leaves behind. */
  lemma DrillShape(env: Env, sc: Scenario, behaviour: Behaviour, name: string, rows: seq<Row>, book: Book,
                   i: BrokerSubmitIntent)
    returns (submit: Row, second: Row)
    requires ValidBook(book) && !KeyTaken(rows, i.idempotencyKey)
    ensures var r := RunSubmission(env, sc, behaviour, name, rows, book, i);
      var reply := Submit(book, behaviour, name, i, sc.clock(0));
      && r.Ok? && r.value.outcome == OutcomeOf(i, reply.result)
      && r.value.drill.rows == rows + [submit] + [second] && r.value.drill.book == reply.book
         && !r.value.drill.secondOrder
      && second.payload == SecondRecord(sc, i, reply.result)
    ensures submit.recordType == BROKER_SUBMIT_INTENT && submit.recordId == i.idempotencyKey
        && submit.idempotencyKey == Some(i.idempotencyKey)
    ensures second.recordType == TypeOf(second.payload) && second.recordType != BROKER_SUBMIT_INTENT
    ensures second.recordType == EXECUTION_REPORT ==> second.recordId == i.idempotencyKey
  {
    var reply := Submit(book, behaviour, name, i, sc.clock(0));
    submit := SubmitRow(env, rows, i, sc.recordedAt);
    second := RowFor(env, |rows| + 2, SecondRecord(sc, i, reply.result), sc.asOf, sc.recordedAt, None);
    var persisted := Drill(rows + [submit], reply.book, 1, false, false);
    ReplayIsUndisturbed(env, sc, behaviour, name, rows, book, i);
    UndisturbedShape(env, sc, i, persisted, reply.result);
    assert |persisted.rows| == |rows| + 1;
    SecondRowShape(env, sc, i, reply.result, second);
  }

  lemma UndisturbedShape(env: Env, sc: Scenario, i: BrokerSubmitIntent, d: Drill,
                         answer: Result<BrokerFill, BrokerError>)
    ensures var u := Undisturbed(env, sc, i, d, answer);
      && u.outcome == OutcomeOf(i, answer) && u.drill.book == d.book && u.drill.secondOrder == d.secondOrder
      && u.drill.rows == d.rows + [RowFor(env, |d.rows| + 1, SecondRecord(sc, i, answer), sc.asOf, sc.recordedAt, None)]
  {
  }

  lemma SecondRowShape(env: Env, sc: Scenario, i: BrokerSubmitIntent, answer: Result<BrokerFill, BrokerError>,
                       second: Row)
    requires second == RowFor(env, second.seqNo, SecondRecord(sc, i, answer), sc.asOf, sc.recordedAt, None)
    ensures second.payload == SecondRecord(sc, i, answer)
    ensures second.recordType == TypeOf(second.payload) && second.recordType != BROKER_SUBMIT_INTENT
    ensures second.recordType == EXECUTION_REPORT ==> second.recordId == i.idempotencyKey
  {
  }

  lemma SubmitAddsOnlyOrder(book: Book, behaviour: Behaviour, name: string, i: BrokerSubmitIntent, now: Time)
    requires ValidBook(book)
    ensures IsOnlyOrder(book, Submit(book, behaviour, name, i, now).book, i.idempotencyKey)
  {
    SubmitFacts(book, behaviour, name, i, now);
  }

  lemma RowsOfDrill(rows: seq<Row>, submit: Row, second: Row, k: string)
    requires submit.recordType == BROKER_SUBMIT_INTENT && submit.recordId == k && submit.idempotencyKey == Some(k)
    requires second.recordType != BROKER_SUBMIT_INTENT
    ensures var later := rows + [submit] + [second];
      && CountOf(later, BROKER_SUBMIT_INTENT) == CountOf(rows, BROKER_SUBMIT_INTENT) + 1
      && HasSubmit(later, k) && KeyTaken(later, k)
      && LatestReport(later, k) == if second.recordType == EXECUTION_REPORT && second.recordId == k then Some(second)
         else LatestReport(rows, k)
  {
    CountAfterAppend(rows, submit, BROKER_SUBMIT_INTENT);
    CountAfterAppend(rows + [submit], second, BROKER_SUBMIT_INTENT);
    HasSubmitAfterAppend(rows, submit, k);
    HasSubmitAfterAppend(rows + [submit], second, k);
    LatestAfterAppend(rows, submit, k);
    LatestAfterAppend(rows + [submit], second, k);
    assert (rows + [submit] + [second])[|rows|] == submit;
  }

  /**
   * The outcome names the broker's answer: its error, its lifecycle if a report of it can be minted, or that none can.
   */
  lemma ReplayOutcomeIsExact(env: Env, sc: Scenario, behaviour: Behaviour, name: string, rows: seq<Row>, book: Book,
                             i: BrokerSubmitIntent)
    requires ValidBook(book) && !KeyTaken(rows, i.idempotencyKey)
    ensures var r := RunSubmission(env, sc, behaviour, name, rows, book, i);
      var answer := Submit(book, behaviour, name, i, sc.clock(0)).result;
      r.Ok? && NamesAnswer(i, answer, r.value.outcome)
  {
    var submit, second := DrillShape(env, sc, behaviour, name, rows, book, i);
    OutcomeNamesAnswer(i, Submit(book, behaviour, name, i, sc.clock(0)).result);
  }

  lemma OutcomeNamesAnswer(i: BrokerSubmitIntent, answer: Result<BrokerFill, BrokerError>)
    ensures NamesAnswer(i, answer, OutcomeOf(i, answer))
  {
  }

  ghost predicate NamesAnswer(i: BrokerSubmitIntent, answer: Result<BrokerFill, BrokerError>, o: ReplayOutcome) {
    var reported := answer.Ok? && ReportOf(i, answer.value).Ok?;
    && (o == BROKER_DISCONNECTED <==> answer == Err(BrokerDisconnect))
    && (o == BROKER_TIMEOUT <==> answer == Err(BrokerTimeout))
    && (o == BROKER_REJECTED <==> answer.Err? && answer.error != BrokerDisconnect && answer.error != BrokerTimeout)
    && (o == REPORT_REJECTED <==> answer.Ok? && !reported)
    && (o == FILLED_OUTCOME <==> reported && answer.value.lifecycle == FILLED)
    && (o == PARTIAL_FILL_OUTCOME <==> reported && answer.value.lifecycle == PARTIAL_FILL)
    && (o == WORKING_OUTCOME
        <==> reported && answer.value.lifecycle != FILLED && answer.value.lifecycle != PARTIAL_FILL)
  }

  /** The broker already holds the order in a terminal state other than filled, and a report of it can be minted. */
  predicate AlreadyDead(book: Book, i: BrokerSubmitIntent) {
    var k := i.idempotencyKey;
    && i.submitMode == PAPER && k in book.fills
    && book.fills[k].lifecycle in {CANCELLED, REJECTED, EXPIRED}
    && ReportOf(i, book.fills[k]).Ok?
  }

  /**
   * The `unresolved` flag equals what recovery says of the log, except exactly when the broker already holds a dead
   * order.
   */
  lemma FlagAgreesWithRecovery(env: Env, sc: Scenario, behaviour: Behaviour, name: string, rows: seq<Row>, book: Book,
                               i: BrokerSubmitIntent)
    requires ValidBook(book) && Fresh(rows, i.idempotencyKey)
    ensures RunSubmission(env, sc, behaviour, name, rows, book, i).Ok?
    ensures var r := RunSubmission(env, sc, behaviour, name, rows, book, i).value;
      (r.Flagged() <==> Unresolved(r.drill.rows, i.idempotencyKey)) <==> !AlreadyDead(book, i)
  {
    var answer := Submit(book, behaviour, name, i, sc.clock(0)).result;
    var submit, second := DrillShape(env, sc, behaviour, name, rows, book, i);
    RowsOfDrill(rows, submit, second, i.idempotencyKey);
    AnswerMisjudged(book, behaviour, name, i, sc.clock(0));
    SecondRowSettles(env, sc, i, answer, second);
  }

  /** The outcome and the minted report disagree only for terminal answers other than a fill. */
  predicate Misjudged(i: BrokerSubmitIntent, answer: Result<BrokerFill, BrokerError>) {
    answer.Ok? && ReportOf(i, answer.value).Ok? && answer.value.lifecycle in {CANCELLED, REJECTED, EXPIRED}
  }

  lemma SecondRowSettles(env: Env, sc: Scenario, i: BrokerSubmitIntent, answer: Result<BrokerFill, BrokerError>,
                         second: Row)
    requires second.payload == SecondRecord(sc, i, answer) && second.recordType == TypeOf(second.payload)
    ensures var settles := second.recordType == EXECUTION_REPORT && IsTerminalReport(second);
      (IsUnresolved(OutcomeOf(i, answer)) <==> !settles) <==> !Misjudged(i, answer)
  {
  }

  /** No fake broker answers a new order with a dead one. */
  lemma AnswerMisjudged(book: Book, behaviour: Behaviour, name: string, i: BrokerSubmitIntent, now: Time)
    ensures Misjudged(i, Submit(book, behaviour, name, i, now).result) <==> AlreadyDead(book, i)
  {
  }

  /**
   * Any paper order that was left open, cancelled at the broker and then replayed on a new store is flagged although
   * the log calls it settled.
   */
  lemma CancelledOrderIsMisjudged(env: Env, sc: Scenario, name: string, i: BrokerSubmitIntent, placedAt: Time,
                                  cancelledAt: Time)
    requires i.submitMode == PAPER && i.submittedAt <= placedAt && i.submittedAt <= cancelledAt
    ensures var open := Submit(EmptyBook, PartiallyFills, name, i, placedAt).book;
      var book := Cancel(open, OrderIdText(i.idempotencyKey), cancelledAt).book;
      var r := RunSubmission(env, sc, PartiallyFills, name, [], book, i);
      r.Ok? && r.value.Flagged() && !Unresolved(r.value.drill.rows, i.idempotencyKey)
  {
    var open := Submit(EmptyBook, PartiallyFills, name, i, placedAt).book;
    var book := Cancel(open, OrderIdText(i.idempotencyKey), cancelledAt).book;
    CancelledIsDead(name, i, placedAt, cancelledAt);
    FlagAgreesWithRecovery(env, sc, PartiallyFills, name, [], book, i);
    var answer := Submit(book, PartiallyFills, name, i, sc.clock(0)).result;
    ReplayIsUndisturbed(env, sc, PartiallyFills, name, [], book, i);
    AnswerMisjudged(book, PartiallyFills, name, i, sc.clock(0));
    assert IsUnresolved(OutcomeOf(i, answer));
  }

  lemma CancelledIsDead(name: string, i: BrokerSubmitIntent, placedAt: Time, cancelledAt: Time)
    requires i.submitMode == PAPER && i.submittedAt <= placedAt && i.submittedAt <= cancelledAt
    ensures var open := Submit(EmptyBook, PartiallyFills, name, i, placedAt).book;
      var book := Cancel(open, OrderIdText(i.idempotencyKey), cancelledAt).book;
      ValidBook(book) && AlreadyDead(book, i)
  {
    var open := Submit(EmptyBook, PartiallyFills, name, i, placedAt).book;
    var book := Cancel(open, OrderIdText(i.idempotencyKey), cancelledAt).book;
    assert ValidBook(book) by {
      SubmitKeepsBookValid(EmptyBook, PartiallyFills, name, i, placedAt);
      CancelKeepsBookValid(open, OrderIdText(i.idempotencyKey), cancelledAt);
    }
    var fill := open.fills[i.idempotencyKey];
    assert book.fills[i.idempotencyKey] == fill.(lifecycle := CANCELLED, completedAt := Some(cancelledAt));
  }

  /* ---- the imperative drill ---- */

  lemma FailureIsCoherent(env: Env, sc: Scenario, suffix: string, reason: ReasonCode)
    ensures Coherent(env, sc.Failure(suffix, reason))
  {
    assert |"replay-" + sc.id + "-" + suffix| > 0;
  }

  method Resubmissions(store: AuditStore, broker: FakeBroker, sc: Scenario, i: BrokerSubmitIntent, first: string)
    returns (attempts: nat, secondOrder: bool, deduped: bool)
    requires store.Valid() && broker.Valid() && IntentCoherent(store.env, i)
    modifies store, broker
    ensures store.Valid() && broker.Valid()
    ensures Drill(store.rows, broker.TheBook(), attempts, secondOrder, deduped)
         == Resubmit(store.env, sc, broker.behaviour, broker.name, i, first,
                     Drill(old(store.rows), old(broker.TheBook()), 1, false, false), sc.resubmitAttempts)
  {
    ghost var d := Drill(store.rows, broker.TheBook(), 1, false, false);
    attempts, secondOrder, deduped := 1, false, false;
    for n := 0 to sc.resubmitAttempts
      invariant store.Valid() && broker.Valid()
      invariant Drill(store.rows, broker.TheBook(), attempts, secondOrder, deduped)
             == Resubmit(store.env, sc, broker.behaviour, broker.name, i, first, d, n)
    {
      secondOrder, deduped := ResubmitAgain(store, broker, sc, i, first, n, attempts, secondOrder, deduped);
      attempts := attempts + 1;
    }
  }

  method ResubmitAgain(store: AuditStore, broker: FakeBroker, sc: Scenario, i: BrokerSubmitIntent, first: string,
                       n: nat,
                       ghost attempts: nat, secondBefore: bool, dedupedBefore: bool)
                           returns (secondOrder: bool, deduped: bool)
    requires store.Valid() && broker.Valid() && IntentCoherent(store.env, i)
    modifies store, broker
    ensures store.Valid() && broker.Valid()
    ensures Drill(store.rows, broker.TheBook(), attempts + 1, secondOrder, deduped)
         == ResubmitOnce(store.env, sc, broker.behaviour, broker.name, i, first,
                         Drill(old(store.rows), old(broker.TheBook()), attempts, secondBefore, dedupedBefore), n)
  {
    var fill := broker.SubmitOrder(i, sc.clock(n + 1));
    secondOrder, deduped := RecordResubmission(store, sc, i, first, n, fill, broker.TheBook(), attempts + 1,
                                               secondBefore, dedupedBefore);
  }

  method RecordResubmission(store: AuditStore, sc: Scenario, i: BrokerSubmitIntent, first: string, n: nat,
                            fill: Result<BrokerFill, BrokerError>,
                            ghost book: Book, ghost attempts: nat, secondBefore: bool, dedupedBefore: bool)
    returns (secondOrder: bool, deduped: bool)
    requires store.Valid() && IntentCoherent(store.env, i)
    modifies store
    ensures store.Valid()
    ensures Drill(store.rows, book, attempts, secondOrder, deduped)
         == AfterResubmission(store.env, sc, i, first,
                              Drill(old(store.rows), book, attempts, secondBefore, dedupedBefore), n, fill)
  {
    secondOrder, deduped := secondBefore, dedupedBefore;
    if fill.Err? {
      FailureIsCoherent(store.env, sc, "resubmit-" + NatText(n) + "-broker-" + sc.codeText(ReasonOf(fill.error)),
                        ReasonOf(fill.error));
      var _ := store.Append(sc.ResubmitFailure(n, fill.error), sc.asOf, sc.recordedAt, None);
      return;
    }
    if fill.value.orderId.value != first { secondOrder := true; }
    var event := store.RecordSubmitAttempt(i, sc.recordedAt);
    if event.Err? { deduped := true; }
  }

  method ReplaySubmission(store: AuditStore, broker: FakeBroker, sc: Scenario, i: BrokerSubmitIntent)
      returns (result: Result<Replayed, StoreError>)
    requires store.Valid() && broker.Valid() && IntentCoherent(store.env, i)
    modifies store, broker
    ensures store.Valid() && broker.Valid()
    ensures result == RunSubmission(store.env, sc, broker.behaviour, broker.name, old(store.rows),
                                    old(broker.TheBook()), i)
    ensures result.Ok? ==> result.value.drill.rows == store.rows && result.value.drill.book == broker.TheBook()
    ensures result.Err? ==> store.rows == old(store.rows) && broker.TheBook() == old(broker.TheBook())
  {
    var event := store.RecordSubmitAttempt(i, sc.recordedAt);
    if event.Err? { return Err(event.error); }
    var fill := broker.SubmitOrder(i, sc.clock(0));
    var replayed := ReplayAnswer(store, broker, sc, i, fill);
    result := Ok(replayed);
  }

  /** Everything after the broker's first answer. */
  method ReplayAnswer(store: AuditStore, broker: FakeBroker, sc: Scenario, i: BrokerSubmitIntent,
                      fill: Result<BrokerFill, BrokerError>)
    returns (replayed: Replayed)
    requires store.Valid() && broker.Valid() && IntentCoherent(store.env, i)
    modifies store, broker
    ensures store.Valid() && broker.Valid()
    ensures replayed == AfterAnswer(store.env, sc, broker.behaviour, broker.name, i,
                                    Drill(old(store.rows), old(broker.TheBook()), 1, false, false), fill)
    ensures replayed.drill.rows == store.rows && replayed.drill.book == broker.TheBook()
  {
    if fill.Err? {
      FailureIsCoherent(store.env, sc, "broker-" + sc.codeText(ReasonOf(fill.error)), ReasonOf(fill.error));
      var _ := store.Append(sc.BrokerFailure(fill.error), sc.asOf, sc.recordedAt, None);
      return Replayed(Drill(store.rows, broker.TheBook(), 1, false, false), ErrorOutcome(fill.error));
    }
    var report := ReportOf(i, fill.value);
    if report.Err? {
      FailureIsCoherent(store.env, sc, "execution-report", INTERNAL_CONTRADICTION);
      var _ := store.Append(sc.Failure("execution-report", INTERNAL_CONTRADICTION), sc.asOf, sc.recordedAt, None);
      return Replayed(Drill(store.rows, broker.TheBook(), 1, false, false), REPORT_REJECTED);
    }
    var _ := store.Append(ReportRecord(report.value), sc.asOf, sc.recordedAt, None);
    var attempts, secondOrder, deduped := Resubmissions(store, broker, sc, i, fill.value.orderId.value);
    replayed := Replayed(Drill(store.rows, broker.TheBook(), attempts, secondOrder, deduped),
                         LifecycleOutcome(fill.value.lifecycle));
  }
}
