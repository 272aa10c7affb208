/**
 * Cancelling open orders in two phases: authenticate every broker-reported order against the log, then cancel one by
 * one and persist a terminal report for each (ops/control_plane.py).
 */
module Cancellation {
  import opened Wrappers
  import opened Vocabulary
  import opened Trade
  import opened Orders
  import opened AuditLog
  import opened Brokers
  import opened ControlPlane

  datatype CancelError =
    | NotAuthorized
    | NoBroker
    | WrongMode
    | NoPersistedReport
    | AmbiguousIdentity
    | NotRehydratable
    | AlreadyTerminal
    | DivergesFromReport
    | NoPersistedIntent
    | IncoherentChain
    | BrokerFailed(error: BrokerError)
    | DivergentReply
    | ReportNotMintable

  /* ---- phase one: authentication ---- */

  predicate ReportsOrder(row: Row, id: string) {
    row.recordType == EXECUTION_REPORT && row.payload.ReportRecord? && row.payload.report.brokerOrderId == id
  }

  function MatchingKeys(rows: seq<Row>, id: string): set<string> {
    if rows == [] then {}
    else
      var last := rows[|rows| - 1];
      MatchingKeys(rows[..|rows| - 1], id) + if ReportsOrder(last, id) then {last.recordId} else {}
  }

  function LastReportOf(rows: seq<Row>, id: string): Option<Row> {
    if rows == [] then None
    else if ReportsOrder(rows[|rows| - 1], id) then Some(rows[|rows| - 1])
    else LastReportOf(rows[..|rows| - 1], id)
  }

  /** The persisted open report says exactly what the broker says now. */
  predicate Agrees(e: ExecutionReport, fill: BrokerFill) {
    && e.brokerOrderId == fill.orderId.value && e.lifecycle == fill.lifecycle
    && e.filledContracts == fill.filled && e.requestedContracts == fill.requested
    && e.avgFillPrice == fill.avgPrice && e.fillTimestamp == fill.fillAt && e.submittedAt == fill.submittedAt
  }

  /** The persisted intent and its report belong together. */
  predicate Chained(i: BrokerSubmitIntent, e: ExecutionReport) {
    && i.orderTicketHash == e.orderTicketHash && i.idempotencyKey == e.idempotencyKey && i.submittedAt == e.submittedAt
    && i.ticket.orderType == e.orderType && i.ticket.Contracts() == e.requestedContracts && i.submitMode == PAPER
  }

  function CheckIntent(env: Env, rows: seq<Row>, e: ExecutionReport, key: string)
      : Result<BrokerSubmitIntent, CancelError>
  {
    var submit := RowWithKey(rows, key);
    if submit.None? || submit.value.recordType != BROKER_SUBMIT_INTENT then Err(NoPersistedIntent)
    else
      var i := Rehydrate(env, rows, submit.value);
      if i.Err? || !i.value.SubmitRecord? then Err(NotRehydratable)
      else if !Chained(i.value.intent, e) then Err(IncoherentChain)
      else Ok(i.value.intent)
  }

  function CheckReport(env: Env, rows: seq<Row>, latest: Row, fill: BrokerFill)
      : Result<BrokerSubmitIntent, CancelError>
  {
    var e := Rehydrate(env, rows, latest);
    if e.Err? || !e.value.ReportRecord? then Err(NotRehydratable)
    else if !IsOpen(e.value.report.lifecycle) then Err(AlreadyTerminal)
    else if !Agrees(e.value.report, fill) then Err(DivergesFromReport)
    else CheckIntent(env, rows, e.value.report, latest.recordId)
  }

  /** The one persisted intent behind a broker-reported open order, or why it cannot be authenticated. */
  function Resolve(env: Env, rows: seq<Row>, fill: BrokerFill): Result<BrokerSubmitIntent, CancelError> {
    var keys := MatchingKeys(rows, fill.orderId.value);
    var latest := LastReportOf(rows, fill.orderId.value);
    if latest.None? then Err(NoPersistedReport)
    else if |keys| > 1 then Err(AmbiguousIdentity)
    else CheckReport(env, rows, latest.value, fill)
  }

  datatype Identified = Identified(fill: BrokerFill, intent: BrokerSubmitIntent)

  type Resolver = BrokerFill -> Result<BrokerSubmitIntent, CancelError>

  function ResolverFor(env: Env, rows: seq<Row>): Resolver { fill => Resolve(env, rows, fill) }

  /** Authenticates the first `n` open orders; the first failure ends the phase. */
  function ResolveAll(resolve: Resolver, open: seq<BrokerFill>, n: nat): Result<seq<Identified>, CancelError>
    requires n <= |open|
  {
    if n == 0 then Ok([])
    else
      match ResolveAll(resolve, open, n - 1)
      case Err(e) => Err(e)
      case Ok(done) =>
        match resolve(open[n - 1])
        case Err(e) => Err(e)
        case Ok(i) => Ok(done + [Identified(open[n - 1], i)])
  }

  /* ---- phase two: cancel and report ---- */

  /** The broker's answer confirms a genuine cancellation with unchanged fill evidence. */
  predicate ConfirmsCancel(q: Identified, reply: BrokerFill) {
    && reply.orderId == q.fill.orderId && reply.lifecycle == CANCELLED && reply.requested == q.intent.ticket.Contracts()
    && reply.filled == q.fill.filled && reply.avgPrice == q.fill.avgPrice && reply.fillAt == q.fill.fillAt
    && reply.submittedAt == q.intent.submittedAt
  }

  function TerminalReport(q: Identified, reply: Result<BrokerFill, BrokerError>): Result<ExecutionReport, CancelError> {
    match reply
    case Err(e) => Err(BrokerFailed(e))
    case Ok(fill) =>
      if !ConfirmsCancel(q, fill) then Err(DivergentReply)
      else
        var report := MintExecutionReport(q.intent, fill.orderId.value, fill.lifecycle, fill.filled, fill.avgPrice,
                                          fill.fillAt, fill.completedAt);
        if report.Err? then Err(ReportNotMintable) else Ok(report.value)
  }

  type Acknowledge = BrokerFill -> Result<BrokerFill, BrokerError>

  datatype Batch = Batch(rows: seq<Row>, book: Book, reports: seq<ExecutionReport>, error: Option<CancelError>)

  function CancelReply(book: Book, ack: Acknowledge, id: string, now: Time): Reply {
    var r := Cancel(book, id, now);
    Reply(r.book, if r.result.Ok? then ack(r.result.value) else r.result)
  }

  function BatchStep(env: Env, s: Batch, ack: Acknowledge, q: Identified, brokerNow: Time, now: Time): Batch {
    var reply := CancelReply(s.book, ack, q.fill.orderId.value, brokerNow);
    match TerminalReport(q, reply.result)
    case Err(e) => Batch(s.rows, reply.book, s.reports, Some(e))
    case Ok(report) => Batch(Logged(env, s.rows, ReportRecord(report), report.EventTime(), now), reply.book,
                             s.reports + [report], None)
  }

  /** Processing the n-th order of the queue as a function of the state it finds. */
  type BatchFn = (Batch, nat) -> Batch

  function BatchFor(env: Env, ack: Acknowledge, queue: seq<Identified>, clock: nat -> Time, now: Time): BatchFn {
    (s, n: nat) => if n < |queue| then BatchStep(env, s, ack, queue[n], clock(n), now) else s
  }

  /** Cancels the first `n` authenticated orders, stopping at the first failure. */
  function RunBatch(step: BatchFn, start: Batch, n: nat): Batch {
    if n == 0 then start
    else
      var s := RunBatch(step, start, n - 1);
      if s.error.Some? then s else step(s, n - 1)
  }

  /** Log and broker after the whole command, and how many orders it cancelled. */
  datatype CancelOutcome = CancelOutcome(rows: seq<Row>, book: Book, result: Result<nat, CancelError>)

  function Refusal(env: Env, rows: seq<Row>, book: Book, e: CancelError, now: Time): CancelOutcome {
    CancelOutcome(Audited(env, rows, CANCEL, "REJECT", now), book, Err(e))
  }

  /** The outcome of both phases over everything the broker reports open. */
  function Resolved(env: Env, rows: seq<Row>, book: Book): Result<seq<Identified>, CancelError> {
    ResolveAll(ResolverFor(env, rows), OpenOrders(book), |OpenOrders(book)|)
  }

  function Cancelled(env: Env, rows: seq<Row>, book: Book, ack: Acknowledge, clock: nat -> Time, now: Time): Batch {
    match Resolved(env, rows, book)
    case Err(e) => Batch(rows, book, [], Some(e))
    case Ok(queue) => RunBatch(BatchFor(env, ack, queue, clock, now), Batch(rows, book, [], None), |queue|)
  }

  function Conclude(env: Env, s: Batch, now: Time): CancelOutcome {
    if s.error.Some? then Refusal(env, s.rows, s.book, s.error.value, now)
    else CancelOutcome(Audited(env, s.rows, CANCEL, "CANCEL", now), s.book, Ok(|s.reports|))
  }

  function CancelOpenOrders(env: Env, rows: seq<Row>, book: Book, ack: Acknowledge, bound: Option<Command>,
                            hasBroker: bool,
                            clock: nat -> Time, now: Time): CancelOutcome
  {
    if bound != Some(CANCEL) then Refusal(env, rows, book, NotAuthorized, now)
    else if !hasBroker then Refusal(env, rows, book, NoBroker, now)
    else Conclude(env, Cancelled(env, rows, book, ack, clock, now), now)
  }

  /* ---- what authentication guarantees ---- */

  lemma {:induction false} LastReportFacts(rows: seq<Row>, id: string)
    ensures var r := LastReportOf(rows, id); r.Some? ==>
        r.value in rows && ReportsOrder(r.value, id) && r.value.recordId in MatchingKeys(rows, id)
  {
    if rows != [] { LastReportFacts(rows[..|rows| - 1], id); }
  }

  lemma {:induction false} RowWithKeyFacts(rows: seq<Row>, key: string)
    ensures var r := RowWithKey(rows, key); r.Some? ==> r.value in rows && r.value.idempotencyKey == Some(key)
    ensures RowWithKey(rows, key).Some? <==> KeyTaken(rows, key)
  {
    if rows != [] {
      RowWithKeyFacts(rows[1..], key);
      if KeyTaken(rows, key) && rows[0].idempotencyKey != Some(key) {
        var i :| 0 <= i < |rows| && rows[i].idempotencyKey == Some(key);
        assert rows[1..][i - 1] == rows[i];
      }
    }
  }

  /** The intent is persisted under its own key and agrees with the open order on everything the report will carry. */
  ghost predicate Authentic(rows: seq<Row>, q: Identified) {
    && HasSubmit(rows, q.intent.idempotencyKey)
    && IsOpen(q.fill.lifecycle)
    && q.intent.ticket.Contracts() == q.fill.requested && q.intent.submittedAt == q.fill.submittedAt
       && q.intent.submitMode == PAPER
    && exists e :: e in rows && ReportsOrder(e, q.fill.orderId.value) && e.recordId == q.intent.idempotencyKey
                   && Agrees(e.payload.report, q.fill)
  }

  lemma ResolveIsAuthentic(env: Env, rows: seq<Row>, fill: BrokerFill)
    requires ValidLog(env, rows) && Resolve(env, rows, fill).Ok?
    ensures Authentic(rows, Identified(fill, Resolve(env, rows, fill).value))
  {
    var id := fill.orderId.value;
    LastReportFacts(rows, id);
    var latest := LastReportOf(rows, id).value;
    ReportIsAuthentic(env, rows, latest, fill);
  }

  lemma ReportIsAuthentic(env: Env, rows: seq<Row>, latest: Row, fill: BrokerFill)
    requires ValidLog(env, rows) && latest in rows && ReportsOrder(latest, fill.orderId.value)
    requires CheckReport(env, rows, latest, fill).Ok?
    ensures Authentic(rows, Identified(fill, CheckReport(env, rows, latest, fill).value))
  {
    RehydrationIsExact(env, rows, latest);
    var i :| 0 <= i < |rows| && rows[i] == latest;
    assert ValidRow(env, rows[i], i);
    SubmitIsAuthentic(env, rows, latest.payload.report, latest.recordId);
  }

  lemma SubmitIsAuthentic(env: Env, rows: seq<Row>, e: ExecutionReport, key: string)
    requires ValidLog(env, rows) && CheckIntent(env, rows, e, key).Ok?
    ensures var i := CheckIntent(env, rows, e, key).value; Chained(i, e) && HasSubmit(rows, i.idempotencyKey)
  {
    RowWithKeyFacts(rows, key);
    var submit := RowWithKey(rows, key).value;
    RehydrationIsExact(env, rows, submit);
    var k :| 0 <= k < |rows| && rows[k] == submit;
    assert ValidRow(env, rows[k], k);
  }

  ghost predicate AllAuthentic(rows: seq<Row>, queue: seq<Identified>) {
    forall j :: 0 <= j < |queue| ==> Authentic(rows, queue[j])
  }

  lemma {:induction false} ResolveAllFacts(resolve: Resolver, open: seq<BrokerFill>, n: nat)
    requires n <= |open|
    ensures var r := ResolveAll(resolve, open, n);
      && (r.Ok? <==> forall j :: 0 <= j < n ==> resolve(open[j]).Ok?)
      && (r.Ok? ==> |r.value| == n && forall j :: 0 <= j < n ==>
            r.value[j] == Identified(open[j], resolve(open[j]).value))
  {
    if n > 0 { ResolveAllFacts(resolve, open, n - 1); }
  }

  lemma ResolveAllIsAuthentic(env: Env, rows: seq<Row>, open: seq<BrokerFill>)
    requires ValidLog(env, rows) && ResolveAll(ResolverFor(env, rows), open, |open|).Ok?
    ensures var queue := ResolveAll(ResolverFor(env, rows), open, |open|).value;
      AllAuthentic(rows, queue) && |queue| == |open| && forall j :: 0 <= j < |open| ==> queue[j].fill == open[j]
  {
    var resolve := ResolverFor(env, rows);
    var queue := ResolveAll(resolve, open, |open|).value;
    ResolveAllFacts(resolve, open, |open|);
    forall j | 0 <= j < |open| ensures Authentic(rows, queue[j]) {
      assert resolve(open[j]) == Resolve(env, rows, open[j]);
      ResolveIsAuthentic(env, rows, open[j]);
    }
  }

  /* ---- what the batch guarantees ---- */

  /** The report closes the order with the very evidence of the open one. */
  ghost predicate Closes(report: ExecutionReport, q: Identified) {
    && report.lifecycle == CANCELLED && report.Coherent()
    && report.idempotencyKey == q.intent.idempotencyKey && report.orderTicketHash == q.intent.orderTicketHash
    && report.brokerOrderId == q.fill.orderId.value
    && report.filledContracts == q.fill.filled && report.requestedContracts == q.fill.requested
    && report.avgFillPrice == q.fill.avgPrice && report.fillTimestamp == q.fill.fillAt
       && report.submittedAt == q.fill.submittedAt
  }

  lemma TerminalReportCloses(rows: seq<Row>, q: Identified, reply: Result<BrokerFill, BrokerError>)
    requires Authentic(rows, q) && TerminalReport(q, reply).Ok?
    ensures Closes(TerminalReport(q, reply).value, q)
  {
  }

  ghost function KeysOf(queue: seq<Identified>): set<string> { set q | q in queue :: q.intent.idempotencyKey }

  /** Rows appended by the batch: one terminal report per processed order, in order. */
  ghost predicate ReportsAppended(env: Env, rows: seq<Row>, later: seq<Row>, reports: seq<ExecutionReport>) {
    && rows <= later && |later| == |rows| + |reports|
    && forall j :: 0 <= j < |reports| ==>
       later[|rows| + j].payload == ReportRecord(reports[j]) && later[|rows| + j].recordType == EXECUTION_REPORT
  }

  lemma ReportSettles(env: Env, rows: seq<Row>, report: ExecutionReport, createdAt: Time, now: Time, key: string)
    requires report.lifecycle == CANCELLED
    ensures Unresolved(Logged(env, rows, ReportRecord(report), createdAt, now), key)
        <==> Unresolved(rows, key) && key != report.idempotencyKey
  {
    var row := RowFor(env, |rows| + 1, ReportRecord(report), createdAt, now, None);
    LatestAfterAppend(rows, row, key);
    HasSubmitAfterAppend(rows, row, key);
  }

  /** What holds after the first `done` orders of the queue have been processed. */
  ghost predicate Progress(env: Env, rows: seq<Row>, queue: seq<Identified>, s: Batch) {
    && |s.reports| <= |queue|
    && ReportsAppended(env, rows, s.rows, s.reports)
    && (forall j :: 0 <= j < |s.reports| ==> Closes(s.reports[j], queue[j]))
    && (forall k :: Unresolved(s.rows, k) <==> Unresolved(rows, k) && k !in KeysOf(queue[..|s.reports|]))
  }

  /** One more terminal report takes exactly one more key out of recovery. */
  lemma ReportShrinksRecovery(env: Env, rows: seq<Row>, done: seq<Identified>, q: Identified, mid: seq<Row>,
                              report: ExecutionReport, now: Time)
    requires report.lifecycle == CANCELLED && report.idempotencyKey == q.intent.idempotencyKey
    requires forall k :: Unresolved(mid, k) <==> Unresolved(rows, k) && k !in KeysOf(done)
    ensures forall k :: Unresolved(Logged(env, mid, ReportRecord(report), report.EventTime(), now), k)
                   <==> Unresolved(rows, k) && k !in KeysOf(done + [q])
  {
    forall k ensures Unresolved(Logged(env, mid, ReportRecord(report), report.EventTime(), now), k)
                <==> Unresolved(rows, k) && k !in KeysOf(done + [q])
    {
      ReportSettles(env, mid, report, report.EventTime(), now, k);
      KeysGrow(done, q, k);
    }
  }

  lemma KeysGrow(done: seq<Identified>, q: Identified, k: string)
    ensures k in KeysOf(done + [q]) <==> k in KeysOf(done) || k == q.intent.idempotencyKey
  {
    assert q in done + [q];
  }

  lemma BatchStepProgress(env: Env, rows: seq<Row>, queue: seq<Identified>, s: Batch, ack: Acknowledge, brokerNow: Time,
                          now: Time)
    requires Progress(env, rows, queue, s) && |s.reports| < |queue| && Authentic(rows, queue[|s.reports|])
    ensures Progress(env, rows, queue, BatchStep(env, s, ack, queue[|s.reports|], brokerNow, now))
  {
    var n := |s.reports|;
    var q := queue[n];
    var reply := CancelReply(s.book, ack, q.fill.orderId.value, brokerNow);
    var report := TerminalReport(q, reply.result);
    if report.Ok? {
      TerminalReportCloses(rows, q, reply.result);
      ReportAdvances(env, rows, queue, s, report.value, reply.book, now);
    }
  }

  lemma ReportIsAppended(env: Env, rows: seq<Row>, s: Batch, report: ExecutionReport, now: Time)
    requires ReportsAppended(env, rows, s.rows, s.reports)
    ensures ReportsAppended(env, rows, Logged(env, s.rows, ReportRecord(report), report.EventTime(), now),
                            s.reports + [report])
  {
    var later, reports := Logged(env, s.rows, ReportRecord(report), report.EventTime(), now), s.reports + [report];
    forall j | 0 <= j < |reports|
      ensures later[|rows| + j].payload == ReportRecord(reports[j]) && later[|rows| + j].recordType == EXECUTION_REPORT
    {
      if j < |s.reports| {
        assert later[|rows| + j] == s.rows[|rows| + j] && reports[j] == s.reports[j];
      } else {
        assert later[|s.rows|] == RowFor(env, |s.rows| + 1, ReportRecord(report), report.EventTime(), now, None);
      }
    }
  }

  lemma ReportAdvances(env: Env, rows: seq<Row>, queue: seq<Identified>, s: Batch, report: ExecutionReport, book: Book,
                       now: Time)
    requires Progress(env, rows, queue, s) && |s.reports| < |queue| && Closes(report, queue[|s.reports|])
    ensures Progress(env, rows, queue, Batch(Logged(env, s.rows, ReportRecord(report), report.EventTime(), now), book,
                                             s.reports + [report], None))
  {
    var n := |s.reports|;
    var later, reports := Logged(env, s.rows, ReportRecord(report), report.EventTime(), now), s.reports + [report];
    ReportIsAppended(env, rows, s, report, now);
    forall j | 0 <= j < n + 1 ensures Closes(reports[j], queue[j]) { if j < n { assert reports[j] == s.reports[j]; } }
    assert queue[..n + 1] == queue[..n] + [queue[n]];
    ReportShrinksRecovery(env, rows, queue[..n], queue[n], s.rows, report, now);
    assert |reports| == n + 1;
  }

  /** Every step that finds `n` orders done either completes the next one or reports why it could not. */
  ghost predicate StepsProgress(env: Env, rows: seq<Row>, queue: seq<Identified>, step: BatchFn) {
    forall s: Batch, n: nat :: n < |queue| && |s.reports| == n && Progress(env, rows, queue, s) ==>
      Progress(env, rows, queue, step(s, n)) && |step(s, n).reports| == n + if step(s, n).error.None? then 1 else 0
  }

  lemma {:induction false} BatchProgress(env: Env, rows: seq<Row>, queue: seq<Identified>, step: BatchFn, start: Batch,
                                         n: nat)
    requires n <= |queue| && StepsProgress(env, rows, queue, step) && Progress(env, rows, queue, start)
        && start.reports == []
    ensures var s := RunBatch(step, start, n);
      Progress(env, rows, queue, s) && |s.reports| <= n && (s.error.None? ==> |s.reports| == n)
  {
    if n > 0 { BatchProgress(env, rows, queue, step, start, n - 1); }
  }

  lemma BatchForProgresses(env: Env, rows: seq<Row>, book: Book, ack: Acknowledge, queue: seq<Identified>,
                           clock: nat -> Time, now: Time)
    requires AllAuthentic(rows, queue)
    ensures Progress(env, rows, queue, Batch(rows, book, [], None))
    ensures StepsProgress(env, rows, queue, BatchFor(env, ack, queue, clock, now))
  {
    assert queue[..0] == [];
    var step := BatchFor(env, ack, queue, clock, now);
    forall s: Batch, n: nat | n < |queue| && |s.reports| == n && Progress(env, rows, queue, s)
      ensures Progress(env, rows, queue, step(s, n)) && |step(s, n).reports| == n + if step(s, n).error.None? then 1
          else 0
    {
      BatchStepProgress(env, rows, queue, s, ack, clock(n), now);
    }
  }

  /* ---- what the batch does to the broker ---- */

  ghost function IdsOf(queue: seq<Identified>): (ids: seq<string>)
    ensures |ids| == |queue| && forall j :: 0 <= j < |queue| ==> ids[j] == queue[j].fill.orderId.value
  {
    seq(|queue|, j requires 0 <= j < |queue| => queue[j].fill.orderId.value)
  }

  /** The first `n` ids. */
  ghost function Among(ids: seq<string>, n: nat): set<string>
    requires n <= |ids|
  {
    if n == 0 then {} else Among(ids, n - 1) + {ids[n - 1]}
  }

  lemma {:induction false} ListedIsAmong(ids: seq<string>, j: nat, n: nat)
    requires j < n <= |ids|
    ensures ids[j] in Among(ids, n)
  {
    if j < n - 1 { ListedIsAmong(ids, j, n - 1); }
  }

  ghost predicate OnlyTouches(before: Book, ids: set<string>, book: Book) {
    forall k :: k in book.fills && OrderIdText(k) !in ids ==> k in before.fills && book.fills[k] == before.fills[k]
  }

  ghost predicate NoneOpen(ids: set<string>, book: Book) {
    forall k :: k in book.fills && OrderIdText(k) in ids ==> !IsOpen(book.fills[k].lifecycle)
  }

  /** Orders outside the first `calls` ids are untouched, and none of the first `done` is open any more. */
  ghost predicate Touched(before: Book, ids: seq<string>, calls: nat, done: nat, book: Book)
    requires done <= calls <= |ids|
  {
    && ValidBook(book) && book.placed == before.placed
    && OnlyTouches(before, Among(ids, calls), book) && NoneOpen(Among(ids, done), book)
  }

  /** The first `n` orders are closed, the next one was touched last, and no later one was. */
  ghost predicate StoppedAt(before: Book, ids: seq<string>, n: nat, book: Book) {
    n < |ids| && Touched(before, ids, n + 1, n, book)
  }

  lemma CancelTouchesOne(before: Book, ids: set<string>, id: string, book: Book, now: Time)
    requires ValidBook(book) && OnlyTouches(before, ids, book) && NoneOpen(ids, book)
    ensures var r := Cancel(book, id, now);
      OnlyTouches(before, ids + {id}, r.book) && NoneOpen(ids, r.book)
          && (r.result.Ok? ==> NoneOpen(ids + {id}, r.book))
  {
    CancelFacts(book, id, now);
  }

  lemma CancelTouches(before: Book, ids: seq<string>, n: nat, book: Book, now: Time)
    requires n < |ids| && Touched(before, ids, n, n, book)
    ensures StoppedAt(before, ids, n, Cancel(book, ids[n], now).book)
    ensures Cancel(book, ids[n], now).result.Ok? ==> Touched(before, ids, n + 1, n + 1, Cancel(book, ids[n], now).book)
  {
    CancelTouchesOne(before, Among(ids, n), ids[n], book, now);
    assert ValidBook(Cancel(book, ids[n], now).book) by { CancelKeepsBookValid(book, ids[n], now); }
  }

  ghost function CallsMade(s: Batch): nat { |s.reports| + if s.error.Some? then 1 else 0 }

  ghost predicate BrokerProgress(before: Book, queue: seq<Identified>, s: Batch) {
    CallsMade(s) <= |queue| && Touched(before, IdsOf(queue), CallsMade(s), |s.reports|, s.book)
  }

  ghost predicate StepsTouch(before: Book, queue: seq<Identified>, step: BatchFn) {
    forall s: Batch, n: nat :: n < |queue| && |s.reports| == n && s.error.None? && BrokerProgress(before, queue, s) ==>
      BrokerProgress(before, queue, step(s, n)) && |step(s, n).reports| == n + if step(s, n).error.None? then 1 else 0
  }

  lemma {:induction false} BatchTouches(before: Book, queue: seq<Identified>, step: BatchFn, start: Batch, n: nat)
    requires n <= |queue| && StepsTouch(before, queue, step) && BrokerProgress(before, queue, start)
        && start.reports == [] && start.error.None?
    ensures var s := RunBatch(step, start, n);
      BrokerProgress(before, queue, s) && (s.error.None? ==> |s.reports| == n)
  {
    if n > 0 { BatchTouches(before, queue, step, start, n - 1); }
  }

  /** What one step of the batch does to broker and reports, in terms of the broker's own cancel. */
  lemma BatchStepShape(env: Env, s: Batch, ack: Acknowledge, q: Identified, brokerNow: Time, now: Time)
    ensures var t := BatchStep(env, s, ack, q, brokerNow, now);
      var r := Cancel(s.book, q.fill.orderId.value, brokerNow);
      && t.book == r.book
      && (t.error.None? ==> r.result.Ok? && |t.reports| == |s.reports| + 1)
      && (t.error.Some? ==> t.reports == s.reports)
  {
  }

  lemma BatchStepTouches(before: Book, env: Env, queue: seq<Identified>, s: Batch, ack: Acknowledge, brokerNow: Time,
                         now: Time)
    requires |s.reports| < |queue| && s.error.None? && BrokerProgress(before, queue, s)
    ensures var n := |s.reports|;
      var t := BatchStep(env, s, ack, queue[n], brokerNow, now);
      BrokerProgress(before, queue, t) && |t.reports| == n + if t.error.None? then 1 else 0
  {
    var n := |s.reports|;
    assert Touched(before, IdsOf(queue), n, n, s.book);
    CancelTouches(before, IdsOf(queue), n, s.book, brokerNow);
    BatchStepShape(env, s, ack, queue[n], brokerNow, now);
    TouchAdvances(before, queue, s, BatchStep(env, s, ack, queue[n], brokerNow, now));
  }

  lemma TouchAdvances(before: Book, queue: seq<Identified>, s: Batch, t: Batch)
    requires |s.reports| < |queue| && StoppedAt(before, IdsOf(queue), |s.reports|, t.book)
    requires if t.error.None? then |t.reports| == |s.reports| + 1
        && Touched(before, IdsOf(queue), |t.reports|, |t.reports|, t.book)
             else t.reports == s.reports
    ensures BrokerProgress(before, queue, t)
  {
  }

  lemma BatchForTouches(env: Env, rows: seq<Row>, book: Book, ack: Acknowledge, queue: seq<Identified>,
                        clock: nat -> Time, now: Time)
    requires ValidBook(book)
    ensures BrokerProgress(book, queue, Batch(rows, book, [], None))
    ensures StepsTouch(book, queue, BatchFor(env, ack, queue, clock, now))
  {
    var step := BatchFor(env, ack, queue, clock, now);
    forall s: Batch, n: nat | n < |queue| && |s.reports| == n && s.error.None? && BrokerProgress(book, queue, s)
      ensures BrokerProgress(book, queue, step(s, n)) && |step(s, n).reports| == n + if step(s, n).error.None? then 1
          else 0
    {
      BatchStepTouches(book, env, queue, s, ack, clock(n), now);
    }
  }

  /* ---- the command as a whole ---- */

  /** The report carries the same fill count, price, fill time, requested count and submit time as the open order. */
  ghost predicate ClosesFill(report: ExecutionReport, fill: BrokerFill) {
    && report.lifecycle == CANCELLED && report.brokerOrderId == fill.orderId.value
    && report.filledContracts == fill.filled && report.requestedContracts == fill.requested
    && report.avgFillPrice == fill.avgPrice && report.fillTimestamp == fill.fillAt
       && report.submittedAt == fill.submittedAt
  }

  ghost predicate RowCloses(row: Row, fill: BrokerFill) {
    row.payload.ReportRecord? && ClosesFill(row.payload.report, fill)
  }

  ghost predicate EndsWithArtifact(env: Env, rows: seq<Row>, n: nat, decision: string) {
    && |rows| == n + 1
    && rows[n].payload.ArtifactRecord? && rows[n].payload.artifact.decision == decision
    && rows[n].payload.artifact.reasonCodes == [OPERATOR_CANCEL_COMMAND] && IsCommandRow(env, rows, n)
  }

  /** The first `n` orders of the queue have been closed in the log and nothing else has happened to it. */
  ghost predicate ClosedPrefix(rows: seq<Row>, later: seq<Row>, queue: seq<Identified>, n: nat) {
    && n <= |queue| && rows <= later && |later| >= |rows| + n
    && (forall j :: 0 <= j < n ==> RowCloses(later[|rows| + j], queue[j].fill))
    && (forall k :: Unresolved(later, k) <==> Unresolved(rows, k) && k !in KeysOf(queue[..n]))
  }

  lemma AuditKeepsRecovery(env: Env, rows: seq<Row>, c: Command, decision: string, now: Time)
    ensures forall k :: Unresolved(Audited(env, rows, c, decision, now), k) <==> Unresolved(rows, k)
  {
    var row := RowFor(env, |rows| + 1, CommandArtifact(env, rows, c, decision, now), now, now, None);
    forall k ensures Unresolved(Audited(env, rows, c, decision, now), k) <==> Unresolved(rows, k) {
      OtherRowsDoNotMatter(rows, row, k);
    }
  }

  lemma ProgressCloses(env: Env, rows: seq<Row>, queue: seq<Identified>, s: Batch)
    requires Progress(env, rows, queue, s)
    ensures ClosedPrefix(rows, s.rows, queue, |s.reports|)
  {
    forall j | 0 <= j < |s.reports| ensures RowCloses(s.rows[|rows| + j], queue[j].fill) {
      assert Closes(s.reports[j], queue[j]);
    }
  }

  lemma AuditKeepsClosed(env: Env, rows: seq<Row>, mid: seq<Row>, queue: seq<Identified>, n: nat, decision: string,
                         now: Time)
    requires ClosedPrefix(rows, mid, queue, n)
    ensures ClosedPrefix(rows, Audited(env, mid, CANCEL, decision, now), queue, n)
  {
    AuditKeepsRecovery(env, mid, CANCEL, decision, now);
    var later := Audited(env, mid, CANCEL, decision, now);
    forall j | 0 <= j < n ensures RowCloses(later[|rows| + j], queue[j].fill) {
      assert later[|rows| + j] == mid[|rows| + j];
    }
  }

  lemma ArtifactEndsBatch(env: Env, rows: seq<Row>, queue: seq<Identified>, s: Batch, decision: string, now: Time)
    requires Progress(env, rows, queue, s)
    ensures var later := Audited(env, s.rows, CANCEL, decision, now);
      ClosedPrefix(rows, later, queue, |s.reports|) && EndsWithArtifact(env, later, |rows| + |s.reports|, decision)
  {
    assert ClosedPrefix(rows, Audited(env, s.rows, CANCEL, decision, now), queue, |s.reports|) by {
      ProgressCloses(env, rows, queue, s);
      AuditKeepsClosed(env, rows, s.rows, queue, |s.reports|, decision, now);
    }
    AuditedWritesCommandRow(env, s.rows, CANCEL, decision, now);
  }

  lemma BatchSummary(env: Env, rows: seq<Row>, book: Book, ack: Acknowledge, queue: seq<Identified>, clock: nat -> Time,
                     now: Time)
    requires AllAuthentic(rows, queue) && ValidBook(book)
    ensures Summary(env, rows, book, queue, RunBatch(BatchFor(env, ack, queue, clock, now), Batch(rows, book, [], None),
                                                     |queue|))
  {
    var step, start := BatchFor(env, ack, queue, clock, now), Batch(rows, book, [], None);
    BatchForProgresses(env, rows, book, ack, queue, clock, now);
    BatchForTouches(env, rows, book, ack, queue, clock, now);
    BatchProgress(env, rows, queue, step, start, |queue|);
    BatchTouches(book, queue, step, start, |queue|);
  }

  ghost predicate Summary(env: Env, rows: seq<Row>, book: Book, queue: seq<Identified>, s: Batch) {
    && Progress(env, rows, queue, s) && BrokerProgress(book, queue, s) && (s.error.None? ==> |s.reports| == |queue|)
  }

  /** The queue is the list of open orders, each with its authenticated intent. */
  ghost predicate Lists(queue: seq<Identified>, open: seq<BrokerFill>) {
    |queue| == |open| && forall j :: 0 <= j < |open| ==> queue[j].fill == open[j]
  }

  lemma CancelledSummary(env: Env, rows: seq<Row>, book: Book, ack: Acknowledge, clock: nat -> Time, now: Time)
    requires ValidLog(env, rows) && ValidBook(book) && Resolved(env, rows, book).Ok?
    ensures Lists(Resolved(env, rows, book).value, OpenOrders(book))
    ensures Summary(env, rows, book, Resolved(env, rows, book).value, Cancelled(env, rows, book, ack, clock, now))
  {
    ResolveAllIsAuthentic(env, rows, OpenOrders(book));
    BatchSummary(env, rows, book, ack, Resolved(env, rows, book).value, clock, now);
  }

  ghost function FillIds(open: seq<BrokerFill>): (ids: seq<string>)
    ensures |ids| == |open| && forall j :: 0 <= j < |open| ==> ids[j] == open[j].orderId.value
  {
    seq(|open|, j requires 0 <= j < |open| => open[j].orderId.value)
  }

  lemma OpenIsListed(book: Book, k: string)
    requires ValidBook(book) && k in book.fills && IsOpen(book.fills[k].lifecycle)
    ensures OrderIdText(k) in FillIds(OpenOrders(book))
  {
    var f := book.fills[k];
    OpenOrdersAreExact(book, f);
    var j :| 0 <= j < |OpenOrders(book)| && OpenOrders(book)[j] == f;
    assert FillIds(OpenOrders(book))[j] == OrderIdText(k);
  }

  /** A pass over all open orders that stopped at none of them leaves nothing open. */
  lemma NothingStaysOpen(before: Book, ids: seq<string>, book: Book)
    requires ValidBook(before) && ids == FillIds(OpenOrders(before)) && Touched(before, ids, |ids|, |ids|, book)
    ensures OpenOrders(book) == []
  {
    forall k | k in book.fills ensures !IsOpen(book.fills[k].lifecycle) {
      if k in before.fills && IsOpen(before.fills[k].lifecycle) {
        OpenIsListed(before, k);
        var j :| 0 <= j < |ids| && ids[j] == OrderIdText(k);
        ListedIsAmong(ids, j, |ids|);
      }
    }
    if OpenOrders(book) != [] { OpenOrdersAreExact(book, OpenOrders(book)[0]); }
  }

  /**
   * Cancel success: one terminal report per reported open order with unchanged evidence, then one CANCEL artifact; the
   * unresolved set loses exactly the keys of their authenticated intents, and nothing stays open at the broker.
   */
  lemma CancelSucceeds(env: Env, rows: seq<Row>, book: Book, ack: Acknowledge, bound: Option<Command>, hasBroker: bool,
                       clock: nat -> Time, now: Time)
    requires ValidLog(env, rows) && ValidBook(book)
    requires CancelOpenOrders(env, rows, book, ack, bound, hasBroker, clock, now).result.Ok?
    ensures bound == Some(CANCEL) && hasBroker && Resolved(env, rows, book).Ok?
    ensures Lists(Resolved(env, rows, book).value, OpenOrders(book))
    ensures Succeeded(env, rows, Resolved(env, rows, book).value,
                      CancelOpenOrders(env, rows, book, ack, bound, hasBroker, clock, now))
  {
    var s := Cancelled(env, rows, book, ack, clock, now);
    var out := CancelOutcome(Audited(env, s.rows, CANCEL, "CANCEL", now), s.book, Ok(|s.reports|));
    assert s.error.None? && CancelOpenOrders(env, rows, book, ack, bound, hasBroker, clock, now) == out;
    CancelledSummary(env, rows, book, ack, clock, now);
    SuccessSummary(env, rows, book, Resolved(env, rows, book).value, s, now);
  }

  lemma FinishedBatchClosesAll(book: Book, queue: seq<Identified>, s: Batch)
    requires ValidBook(book) && Lists(queue, OpenOrders(book))
    requires BrokerProgress(book, queue, s) && s.error.None? && |s.reports| == |queue|
    ensures OpenOrders(s.book) == []
  {
    assert IdsOf(queue) == FillIds(OpenOrders(book));
    NothingStaysOpen(book, IdsOf(queue), s.book);
  }

  lemma SuccessSummary(env: Env, rows: seq<Row>, book: Book, queue: seq<Identified>, s: Batch, now: Time)
    requires ValidBook(book) && Lists(queue, OpenOrders(book)) && Summary(env, rows, book, queue, s) && s.error.None?
    ensures Succeeded(env, rows, queue, CancelOutcome(Audited(env, s.rows, CANCEL, "CANCEL", now), s.book,
                                                      Ok(|s.reports|)))
  {
    var later := Audited(env, s.rows, CANCEL, "CANCEL", now);
    assert |s.reports| == |queue|;
    assert OpenOrders(s.book) == [] by { FinishedBatchClosesAll(book, queue, s); }
    assert ClosedPrefix(rows, later, queue, |queue|) && EndsWithArtifact(env, later, |rows| + |queue|, "CANCEL") by {
      ArtifactEndsBatch(env, rows, queue, s, "CANCEL", now);
    }
    SucceededFrom(env, rows, queue, later, s.book);
  }

  lemma SucceededFrom(env: Env, rows: seq<Row>, queue: seq<Identified>, later: seq<Row>, book: Book)
    requires ClosedPrefix(rows, later, queue, |queue|) && EndsWithArtifact(env, later, |rows| + |queue|, "CANCEL")
        && OpenOrders(book) == []
    ensures Succeeded(env, rows, queue, CancelOutcome(later, book, Ok(|queue|)))
  {
  }

  ghost predicate Succeeded(env: Env, rows: seq<Row>, queue: seq<Identified>, out: CancelOutcome) {
    && out.result == Ok(|queue|)
    && ClosedPrefix(rows, out.rows, queue, |queue|) && EndsWithArtifact(env, out.rows, |rows| + |queue|, "CANCEL")
    && OpenOrders(out.book) == []
  }

  /**
   * Cancel failure: without authorization, without a broker, or if any open order cannot be authenticated, the broker
   * is not called at all; otherwise the orders before the failing one keep their terminal reports and their keys alone
   * leave the unresolved set, the orders behind it are untouched at the broker (the failing one itself may have been
   * cancelled there), and in every case exactly one REJECT artifact follows.
   */
  lemma CancelFails(env: Env, rows: seq<Row>, book: Book, ack: Acknowledge, bound: Option<Command>, hasBroker: bool,
                    clock: nat -> Time, now: Time)
    requires ValidLog(env, rows) && ValidBook(book)
    requires CancelOpenOrders(env, rows, book, ack, bound, hasBroker, clock, now).result.Err?
    ensures var out := CancelOpenOrders(env, rows, book, ack, bound, hasBroker, clock, now);
      if bound != Some(CANCEL) || !hasBroker || Resolved(env, rows, book).Err? then
        && out.book == book && ClosedPrefix(rows, out.rows, [], 0) && EndsWithArtifact(env, out.rows, |rows|, "REJECT")
      else
        exists n :: FailedAt(env, rows, book, Resolved(env, rows, book).value, n, out)
  {
    var s := Cancelled(env, rows, book, ack, clock, now);
    if bound != Some(CANCEL) || !hasBroker || Resolved(env, rows, book).Err? {
      RefusalSummary(env, rows, book, now);
    } else {
      var queue := Resolved(env, rows, book).value;
      CancelledSummary(env, rows, book, ack, clock, now);
      ArtifactEndsBatch(env, rows, queue, s, "REJECT", now);
      assert CancelOpenOrders(env, rows, book, ack, bound, hasBroker, clock, now)
          == Refusal(env, s.rows, s.book, s.error.value, now);
      assert FailedAt(env, rows, book, queue, |s.reports|, Refusal(env, s.rows, s.book, s.error.value, now));
    }
  }

  /** The command stopped at order `n`: earlier orders are closed, later ones were never touched. */
  ghost predicate FailedAt(env: Env, rows: seq<Row>, book: Book, queue: seq<Identified>, n: nat, out: CancelOutcome) {
    && StoppedAt(book, IdsOf(queue), n, out.book)
    && ClosedPrefix(rows, out.rows, queue, n) && EndsWithArtifact(env, out.rows, |rows| + n, "REJECT")
  }

  /** Authentication fails as a whole exactly when it fails for some open order. */
  lemma AnyUnauthenticatedOrderRefuses(env: Env, rows: seq<Row>, book: Book)
    ensures Resolved(env, rows, book).Err? <==> exists f :: f in OpenOrders(book) && Resolve(env, rows, f).Err?
  {
    ResolveAllFacts(ResolverFor(env, rows), OpenOrders(book), |OpenOrders(book)|);
    if f :| f in OpenOrders(book) && Resolve(env, rows, f).Err? {
      var j :| 0 <= j < |OpenOrders(book)| && OpenOrders(book)[j] == f;
      assert ResolverFor(env, rows)(OpenOrders(book)[j]).Err?;
    }
    if Resolved(env, rows, book).Err? {
      var j :| 0 <= j < |OpenOrders(book)| && ResolverFor(env, rows)(OpenOrders(book)[j]).Err?;
      assert OpenOrders(book)[j] in OpenOrders(book);
    }
  }

  lemma RefusalSummary(env: Env, rows: seq<Row>, book: Book, now: Time)
    ensures var later := Audited(env, rows, CANCEL, "REJECT", now);
      ClosedPrefix(rows, later, [], 0) && EndsWithArtifact(env, later, |rows|, "REJECT")
  {
    ArtifactEndsBatch(env, rows, [], Batch(rows, book, [], None), "REJECT", now);
  }

  /* ---- flatten: cancel at the broker without touching the order log ---- */

  datatype Flattened = Flattened(book: Book, error: Option<BrokerError>)

  function FlattenFirst(book: Book, ack: Acknowledge, open: seq<BrokerFill>, clock: nat -> Time, n: nat): Flattened
    requires n <= |open|
  {
    if n == 0 then Flattened(book, None)
    else
      var s := FlattenFirst(book, ack, open, clock, n - 1);
      if s.error.Some? then s else FlattenOne(s.book, ack, open[n - 1].orderId.value, clock(n - 1))
  }

  function FlattenOne(book: Book, ack: Acknowledge, id: string, now: Time): Flattened {
    var r := CancelReply(book, ack, id, now);
    Flattened(r.book, if r.result.Err? then Some(r.result.error) else None)
  }

  function FlattenDecision(s: Flattened): string { if s.error.Some? then "REJECT" else "FLATTEN" }

  function FlattenPaperOnly(env: Env, rows: seq<Row>, book: Book, ack: Acknowledge, bound: Option<Command>,
                            mode: Option<BrokerMode>,
                            hasBroker: bool, clock: nat -> Time, now: Time): CancelOutcome
  {
    var rejected := Audited(env, rows, FLATTEN, "REJECT", now);
    if bound != Some(FLATTEN) then CancelOutcome(rejected, book, Err(NotAuthorized))
    else if mode != Some(PAPER_MODE) then CancelOutcome(rejected, book, Err(WrongMode))
    else if !hasBroker then CancelOutcome(rejected, book, Err(NoBroker))
    else
      var open := OpenOrders(book);
      var s := FlattenFirst(book, ack, open, clock, |open|);
      CancelOutcome(Audited(env, rows, FLATTEN, FlattenDecision(s), now), s.book,
                    if s.error.Some? then Err(BrokerFailed(s.error.value)) else Ok(|open|))
  }

  /**
   * Flatten adds one artifact and leaves recovery exactly as it was, so cancelled orders stay listed for
   * reconciliation.
   */
  lemma FlattenKeepsRecovery(env: Env, rows: seq<Row>, book: Book, ack: Acknowledge, bound: Option<Command>,
                             mode: Option<BrokerMode>,
                             hasBroker: bool, clock: nat -> Time, now: Time, k: string)
    ensures var out := FlattenPaperOnly(env, rows, book, ack, bound, mode, hasBroker, clock, now);
      && rows <= out.rows && |out.rows| == |rows| + 1 && IsCommandRow(env, out.rows, |rows|)
      && (Unresolved(out.rows, k) <==> Unresolved(rows, k))
      && (bound != Some(FLATTEN) || mode != Some(PAPER_MODE) || !hasBroker ==> out.book == book && out.result.Err?)
  {
    var decision := if bound != Some(FLATTEN) || mode != Some(PAPER_MODE) || !hasBroker then "REJECT"
                    else FlattenDecision(FlattenFirst(book, ack, OpenOrders(book), clock, |OpenOrders(book)|));
    AuditedWritesCommandRow(env, rows, FLATTEN, decision, now);
    OtherRowsDoNotMatter(rows, RowFor(env, |rows| + 1, CommandArtifact(env, rows, FLATTEN, decision, now), now, now,
                                      None), k);
  }

  /** How far flattening got: through all orders, or up to one that it touched last and could not confirm. */
  ghost predicate FlattenedTo(before: Book, ids: seq<string>, n: nat, s: Flattened) {
    && n <= |ids|
    && if s.error.None? then Touched(before, ids, n, n, s.book)
       else exists m: nat :: m < n && StoppedAt(before, ids, m, s.book)
  }

  lemma FlattenOneTouches(before: Book, ids: seq<string>, n: nat, book: Book, ack: Acknowledge, now: Time)
    requires n < |ids| && Touched(before, ids, n, n, book)
    ensures FlattenedTo(before, ids, n + 1, FlattenOne(book, ack, ids[n], now))
  {
    CancelTouches(before, ids, n, book, now);
    assert FlattenOne(book, ack, ids[n], now).book == Cancel(book, ids[n], now).book;
  }

  lemma FlattenAdvances(before: Book, ids: seq<string>, n: nat, s: Flattened, ack: Acknowledge, now: Time, t: Flattened)
    requires n < |ids| && FlattenedTo(before, ids, n, s)
    requires t == if s.error.Some? then s else FlattenOne(s.book, ack, ids[n], now)
    ensures FlattenedTo(before, ids, n + 1, t)
  {
    if s.error.None? { FlattenOneTouches(before, ids, n, s.book, ack, now); }
  }

  function FlattenNext(s: Flattened, ack: Acknowledge, ids: seq<string>, m: nat, now: Time): Flattened
    requires m < |ids|
  {
    if s.error.Some? then s else FlattenOne(s.book, ack, ids[m], now)
  }

  lemma NextFlattened(book: Book, ack: Acknowledge, open: seq<BrokerFill>, clock: nat -> Time, n: nat)
    requires 0 < n <= |open|
    ensures FlattenFirst(book, ack, open, clock, n)
         == FlattenNext(FlattenFirst(book, ack, open, clock, n - 1), ack, FillIds(open), n - 1, clock(n - 1))
  {
  }

  /** The condition survives the next order, whatever the state it is found in. */
  ghost predicate Survives(reach: (nat, Flattened) -> bool, ack: Acknowledge, ids: seq<string>, clock: nat -> Time) {
    forall m: nat, s: Flattened {:trigger FlattenNext(s, ack, ids, m, clock(m))} :: m < |ids| && reach(m, s) ==>
      reach(m + 1, FlattenNext(s, ack, ids, m, clock(m)))
  }

  lemma {:induction false} FlattenKeeps(reach: (nat, Flattened) -> bool, book: Book, ack: Acknowledge,
                                        open: seq<BrokerFill>, clock: nat -> Time, n: nat)
    requires n <= |open| && reach(0, Flattened(book, None)) && Survives(reach, ack, FillIds(open), clock)
    ensures reach(n, FlattenFirst(book, ack, open, clock, n))
  {
    if n > 0 {
      FlattenKeeps(reach, book, ack, open, clock, n - 1);
      NextFlattened(book, ack, open, clock, n);
    }
  }

  ghost function ReachesTo(book: Book, ids: seq<string>): (nat, Flattened) -> bool {
    (n: nat, s: Flattened) => FlattenedTo(book, ids, n, s)
  }

  lemma TouchingSurvives(book: Book, ack: Acknowledge, ids: seq<string>, clock: nat -> Time)
    ensures Survives(ReachesTo(book, ids), ack, ids, clock)
  {
    forall m: nat, s: Flattened {:trigger FlattenNext(s, ack, ids, m, clock(m))}
      | m < |ids| && ReachesTo(book, ids)(m, s)
      ensures ReachesTo(book, ids)(m + 1, FlattenNext(s, ack, ids, m, clock(m)))
    {
      FlattenAdvances(book, ids, m, s, ack, clock(m), FlattenNext(s, ack, ids, m, clock(m)));
    }
  }

  lemma FlattenTouches(book: Book, ack: Acknowledge, open: seq<BrokerFill>, clock: nat -> Time)
    requires ValidBook(book)
    ensures FlattenedTo(book, FillIds(open), |open|, FlattenFirst(book, ack, open, clock, |open|))
  {
    NothingTouchedYet(book, FillIds(open));
    TouchingSurvives(book, ack, FillIds(open), clock);
    FlattenKeeps(ReachesTo(book, FillIds(open)), book, ack, open, clock, |open|);
  }

  lemma NothingTouchedYet(book: Book, ids: seq<string>)
    requires ValidBook(book)
    ensures Touched(book, ids, 0, 0, book)
  {
  }

  /**
   * Flatten at the broker: a granted flatten that succeeds leaves nothing open, one that fails has touched only a
   * prefix of the open orders and closed all of it but its last, and a refused one touches nothing.
   */
  lemma FlattenClosesOrders(env: Env, rows: seq<Row>, book: Book, ack: Acknowledge, bound: Option<Command>,
                            mode: Option<BrokerMode>,
                            hasBroker: bool, clock: nat -> Time, now: Time)
    requires ValidBook(book)
    ensures var out := FlattenPaperOnly(env, rows, book, ack, bound, mode, hasBroker, clock, now);
      var open := OpenOrders(book);
      if bound != Some(FLATTEN) || mode != Some(PAPER_MODE) || !hasBroker then out.book == book && out.result.Err?
      else if out.result.Ok? then out.result.value == |open| && OpenOrders(out.book) == []
      else exists m: nat :: StoppedAt(book, FillIds(open), m, out.book)
  {
    if bound == Some(FLATTEN) && mode == Some(PAPER_MODE) && hasBroker {
      var open := OpenOrders(book);
      var s := FlattenFirst(book, ack, open, clock, |open|);
      FlattenTouches(book, ack, open, clock);
      FlattenEnds(book, s);
    }
  }

  lemma FlattenEnds(book: Book, s: Flattened)
    requires ValidBook(book) && FlattenedTo(book, FillIds(OpenOrders(book)), |OpenOrders(book)|, s)
    ensures if s.error.None? then OpenOrders(s.book) == []
        else exists m: nat :: StoppedAt(book, FillIds(OpenOrders(book)), m, s.book)
  {
    if s.error.None? { NothingStaysOpen(book, FillIds(OpenOrders(book)), s.book); }
  }
}
