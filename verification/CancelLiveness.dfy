/**
 * When a cancel or a flatten succeeds (ops/control_plane.py): with a broker that acknowledges truthfully, exactly when
 * the command is authorized and the log agrees with the broker about every open order.
 */
module CancelLiveness {
  import opened Wrappers
  import opened Vocabulary
  import opened Trade
  import opened Orders
  import opened AuditLog
  import opened RecoveryFindings
  import opened Brokers
  import opened ControlPlane
  import opened Cancellation
  import opened Authentication
  import opened Protocol
  import opened Provenance
  import opened CancelRecovery
  import opened Agreement
  import opened Operations

  /** An adapter that answers what its venue did, as the fake brokers do. */
  function Truthful(): Acknowledge { (f: BrokerFill) => Ok(f) }

  /* ---- which open orders authenticate ---- */

  lemma NamedByItsKey(env: Env, w: World, k: string, n: nat)
    requires LogInv(env, w) && n < |w.rows|
    ensures NamesOrder(w.rows[n], OrderIdText(k))
        <==> w.rows[n].recordType == EXECUTION_REPORT && w.rows[n].recordId == k
  {
    assert ValidRow(env, w.rows[n], n) && RowInv(w, w.rows[n]);
    if NamesOrder(w.rows[n], OrderIdText(k)) { OrderIdsAreInjective(k, w.rows[n].recordId); }
  }

  lemma NewestIsLastNaming(env: Env, w: World, k: string, j: nat)
    requires LogInv(env, w)
    ensures IsNewestReport(w.rows, k, j)
       <==> && j < |w.rows| && NamesOrder(w.rows[j], OrderIdText(k))
            && forall n :: j < n < |w.rows| ==> !NamesOrder(w.rows[n], OrderIdText(k))
  {
    forall n | 0 <= n < |w.rows|
      ensures NamesOrder(w.rows[n], OrderIdText(k))
         <==> w.rows[n].recordType == EXECUTION_REPORT && w.rows[n].recordId == k
    {
      NamedByItsKey(env, w, k, n);
    }
  }

  lemma AgreementProves(env: Env, w: World, k: string, j: nat)
    requires LogInv(env, w) && BookInv(w) && BackedRows(w.rows) && OpenAtBroker(w.book, k)
    requires IsNewestReport(w.rows, k, j) && w.rows[j].payload.ReportRecord?
    requires SaysTheSame(w.rows[j].payload.report, w.book.fills[k])
    ensures exists i :: Proven(w.rows, w.book.fills[k], i)
  {
    NewestIsLastNaming(env, w, k, j);
    forall n | 0 <= n < |w.rows| && NamesOrder(w.rows[n], OrderIdText(k)) ensures w.rows[n].recordId == k {
      NamedByItsKey(env, w, k, n);
    }
    assert w.rows[j].payload.report.idempotencyKey == k by { assert ValidRow(env, w.rows[j], j); }
    var i := ProofFromReport(w.rows, w.book.fills[k], k, j);
  }

  lemma ProofFromReport(rows: seq<Row>, fill: BrokerFill, k: string, j: nat) returns (i: BrokerSubmitIntent)
    requires j < |rows| && NamesOrder(rows[j], fill.orderId.value) && rows[j].recordId == k
    requires forall n :: j < n < |rows| ==> !NamesOrder(rows[n], fill.orderId.value)
    requires forall n :: 0 <= n < |rows| && NamesOrder(rows[n], fill.orderId.value) ==> rows[n].recordId == k
    requires SaysTheSame(rows[j].payload.report, fill) && IsOpen(fill.lifecycle)
    requires rows[j].payload.report.idempotencyKey == k && Backed(rows, rows[j].payload.report)
    ensures Proven(rows, fill, i)
  {
    i :| Stored(rows, i) && Vouches(i, rows[j].payload.report);
    var m: nat :| m < |rows| && rows[m].idempotencyKey == Some(i.idempotencyKey) && rows[m].payload == SubmitRecord(i);
    assert Proves(rows, fill, i, j, m);
  }

  lemma OpenOrderResolvesIff(env: Env, w: World, k: string)
    requires LogInv(env, w) && BookInv(w) && BackedRows(w.rows) && OpenAtBroker(w.book, k)
    ensures Resolve(env, w.rows, w.book.fills[k]).Ok? <==> LogAgrees(w.rows, k, w.book.fills[k])
  {
    var fill := w.book.fills[k];
    if Resolve(env, w.rows, fill).Ok? {
      var i := Resolve(env, w.rows, fill).value;
      ResolveIsExact(env, w.rows, fill, i);
      var j: nat, m: nat :| Proves(w.rows, fill, i, j, m);
      NewestIsLastNaming(env, w, k, j);
    }
    if LogAgrees(w.rows, k, fill) {
      var j: nat :| IsNewestReport(w.rows, k, j) && w.rows[j].payload.ReportRecord?
          && SaysTheSame(w.rows[j].payload.report, fill);
      AgreementProves(env, w, k, j);
      var i :| Proven(w.rows, fill, i);
      ResolveIsExact(env, w.rows, fill, i);
    }
  }

  lemma AllResolveIff(env: Env, w: World)
    requires LogInv(env, w) && BookInv(w) && BackedRows(w.rows)
    ensures Resolved(env, w.rows, w.book).Ok? <==> AgreesOnOpenOrders(w.rows, w.book)
  {
    AnyUnauthenticatedOrderRefuses(env, w.rows, w.book);
    if !AgreesOnOpenOrders(w.rows, w.book) {
      var k :| OpenAtBroker(w.book, k) && !LogAgrees(w.rows, k, w.book.fills[k]);
      OpenOrderResolvesIff(env, w, k);
      OpenOrdersAreExact(w.book, w.book.fills[k]);
    }
    if Resolved(env, w.rows, w.book).Err? {
      var f :| f in OpenOrders(w.book) && Resolve(env, w.rows, f).Err?;
      OpenOrdersAreExact(w.book, f);
      var k :| k in w.book.fills && w.book.fills[k] == f && IsOpen(f.lifecycle);
      OpenOrderResolvesIff(env, w, k);
    }
  }

  /* ---- authenticated orders are cancelled ---- */

  /** A truthful broker cancels an open order, and its terminal report can be minted. */
  lemma ProvenOrderIsClosed(env: Env, rows: seq<Row>, q: Identified, book: Book, now: Time)
    requires ValidLog(env, rows) && Proven(rows, q.fill, q.intent) && ValidBook(book)
    requires var k := q.intent.idempotencyKey;
      k in book.fills && book.fills[k] == q.fill && q.fill.orderId.value == OrderIdText(k)
    requires IsOpen(q.fill.lifecycle) && q.fill.submittedAt <= now
    ensures TerminalReport(q, CancelReply(book, Truthful(), q.fill.orderId.value, now).result).Ok?
  {
    var j: nat, m: nat :| Proves(rows, q.fill, q.intent, j, m);
    assert ValidRow(env, rows[j], j);
    var e := rows[j].payload.report;
    assert e.Coherent();
    var cancelled := q.fill.(lifecycle := CANCELLED, completedAt := Some(now));
    assert CancelReply(book, Truthful(), q.fill.orderId.value, now).result == Ok(cancelled);
    assert ConfirmsCancel(q, cancelled);
    ReportMintIsExact(q.intent, cancelled.orderId.value, CANCELLED, cancelled.filled, cancelled.avgPrice,
                      cancelled.fillAt, cancelled.completedAt);
  }

  lemma UntouchedSoFar(before: Book, ids: seq<string>, n: nat, book: Book, k: string)
    requires ValidBook(before) && n <= |ids| && Touched(before, ids, n, n, book)
    requires k in before.fills && OrderIdText(k) !in Among(ids, n)
    ensures k in book.fills && book.fills[k] == before.fills[k]
  {
    assert k in before.placed;
    assert k in book.placed;
  }

  /** Everything that makes the n-th cancel of the queue succeed. */
  ghost predicate Ready(env: Env, rows: seq<Row>, book: Book, queue: seq<Identified>, clock: nat -> Time) {
    && ValidLog(env, rows) && ValidBook(book) && QueueIsOpenBook(book, queue)
    && (forall j :: 0 <= j < |queue| ==> Proven(rows, queue[j].fill, queue[j].intent))
    && (forall j, n: nat :: 0 <= j < |queue| ==> queue[j].fill.submittedAt <= clock(n))
  }

  lemma NextIsClosed(env: Env, rows: seq<Row>, book: Book, queue: seq<Identified>, clock: nat -> Time, s: Batch,
                     now: Time)
    requires Ready(env, rows, book, queue, clock) && BrokerProgress(book, queue, s) && s.error.None?
        && |s.reports| < |queue|
    ensures BatchStep(env, s, Truthful(), queue[|s.reports|], clock(|s.reports|), now).error.None?
  {
    var n := |s.reports|;
    var k := queue[n].intent.idempotencyKey;
    assert Owns(book, queue, n);
    LaterOrderIsAnother(book, queue, n, n);
    UntouchedSoFar(book, IdsOf(queue), n, s.book, k);
    ProvenOrderIsClosed(env, rows, queue[n], s.book, clock(n));
  }

  ghost predicate StepsFinish(book: Book, queue: seq<Identified>, step: BatchFn) {
    forall s: Batch, n: nat :: n < |queue| && |s.reports| == n && s.error.None? && BrokerProgress(book, queue, s) ==>
      step(s, n).error.None?
  }

  lemma {:induction false} BatchFinishes(book: Book, queue: seq<Identified>, step: BatchFn, start: Batch, n: nat)
    requires n <= |queue| && StepsTouch(book, queue, step) && StepsFinish(book, queue, step)
    requires BrokerProgress(book, queue, start) && start.reports == [] && start.error.None?
    ensures RunBatch(step, start, n).error.None?
  {
    if n > 0 {
      BatchFinishes(book, queue, step, start, n - 1);
      BatchTouches(book, queue, step, start, n - 1);
    }
  }

  lemma ReadyQueueIsCancelled(env: Env, rows: seq<Row>, book: Book, queue: seq<Identified>, clock: nat -> Time,
                              now: Time)
    requires Ready(env, rows, book, queue, clock)
    ensures RunBatch(BatchFor(env, Truthful(), queue, clock, now), Batch(rows, book, [], None), |queue|).error.None?
  {
    var step, start := BatchFor(env, Truthful(), queue, clock, now), Batch(rows, book, [], None);
    BatchForTouches(env, rows, book, Truthful(), queue, clock, now);
    forall s: Batch, n: nat | n < |queue| && |s.reports| == n && s.error.None? && BrokerProgress(book, queue, s)
      ensures step(s, n).error.None?
    {
      NextIsClosed(env, rows, book, queue, clock, s, now);
    }
    BatchFinishes(book, queue, step, start, |queue|);
  }

  lemma ResolvedIsReady(env: Env, w: World, queue: seq<Identified>, clock: nat -> Time)
    requires LogInv(env, w) && BookInv(w) && Resolved(env, w.rows, w.book) == Ok(queue)
    requires forall k, n: nat :: OpenAtBroker(w.book, k) ==> w.book.fills[k].submittedAt <= clock(n)
    ensures Ready(env, w.rows, w.book, queue, clock)
  {
    ResolvedIsOpenBook(env, w, queue);
    var open, resolve := OpenOrders(w.book), ResolverFor(env, w.rows);
    ResolveAllFacts(resolve, open, |open|);
    forall j | 0 <= j < |queue| ensures Proven(w.rows, queue[j].fill, queue[j].intent) {
      assert resolve(open[j]) == Resolve(env, w.rows, open[j]);
      ResolveIsExact(env, w.rows, open[j], queue[j].intent);
    }
    forall j, n: nat | 0 <= j < |queue| ensures queue[j].fill.submittedAt <= clock(n) { assert Owns(w.book, queue, j); }
  }

  /**
   * Cancel is live: in every reachable state, with a truthful broker whose clock is not behind the submit times, the
   * command succeeds exactly when it is authorized and the log agrees with the broker about every open order.
   */
  lemma CancelSucceedsIff(env: Env, schedule: seq<Action>, w: World, bound: Option<Command>, hasBroker: bool,
                          clock: nat -> Time, now: Time)
    requires Run(env, Genesis, schedule) == Some(w)
    requires forall k, n: nat :: OpenAtBroker(w.book, k) ==> w.book.fills[k].submittedAt <= clock(n)
    ensures CancelOpenOrders(env, w.rows, w.book, Truthful(), bound, hasBroker, clock, now).result.Ok?
       <==> bound == Some(CANCEL) && hasBroker && AgreesOnOpenOrders(w.rows, w.book)
  {
    RunKeepsInv(env, Genesis, schedule);
    RunIsTraceable(env, Genesis, schedule);
    AllResolveIff(env, w);
    if bound == Some(CANCEL) && hasBroker && AgreesOnOpenOrders(w.rows, w.book) {
      var queue := Resolved(env, w.rows, w.book).value;
      ResolvedIsReady(env, w, queue, clock);
      ReadyQueueIsCancelled(env, w.rows, w.book, queue, clock, now);
    }
  }

  /**
   * After any sequence of paper cycles, commands and broker restarts, an authorized cancel succeeds unless the broker
   * dated the fill of an open order before its submission; nothing else can stand in its way.
   */
  lemma CancelSucceedsAfterJobs(env: Env, jobs: seq<Job>, n: nat, bound: Option<Command>, hasBroker: bool,
                                clock: nat -> Time, now: Time)
    requires n <= |jobs| && forall j :: 0 <= j < n ==> Runnable(env, jobs[j])
    requires var book := AfterJobs(env, jobs, n).book;
      forall k, m: nat :: OpenAtBroker(book, k) ==> book.fills[k].submittedAt <= clock(m)
    ensures var d := AfterJobs(env, jobs, n);
      CancelOpenOrders(env, d.rows, d.book, Truthful(), bound, hasBroker, clock, now).result.Ok?
      <==> bound == Some(CANCEL) && hasBroker && forall k :: OpenAtBroker(d.book, k) ==> !Backdated(d.book.fills[k])
  {
    var w := AtRest(AfterJobs(env, jobs, n));
    JobStepReaches(env, jobs, n);
    SitesReach(env, JobStep(env, jobs), n);
    var schedule :| Run(env, Genesis, schedule) == Some(w) && Lost(env, Genesis, schedule) == {};
    CancelSucceedsIff(env, schedule, w, bound, hasBroker, clock, now);
    forall k | OpenAtBroker(w.book, k) ensures LogAgrees(w.rows, k, w.book.fills[k]) <==> !Backdated(w.book.fills[k]) {
      AgreesUnlessBackdated(env, schedule, w, k);
    }
  }

  /* ---- flatten ---- */

  /** Flattening has come through the first `n` orders without an error. */
  ghost predicate Through(book: Book, ids: seq<string>, n: nat, s: Flattened) {
    s.error.None? && FlattenedTo(book, ids, n, s)
  }

  ghost function ReachesThrough(book: Book, ids: seq<string>): (nat, Flattened) -> bool {
    (n: nat, s: Flattened) => Through(book, ids, n, s)
  }

  lemma NextFlattenSucceeds(book: Book, open: seq<BrokerFill>, n: nat, s: Flattened, now: Time)
    requires ValidBook(book) && open == OpenOrders(book) && n < |open|
    requires FlattenedTo(book, FillIds(open), n, s) && s.error.None?
    ensures FlattenOne(s.book, Truthful(), FillIds(open)[n], now).error.None?
  {
    OpenOrdersAreExact(book, open[n]);
    var k :| k in book.fills && book.fills[k] == open[n] && IsOpen(open[n].lifecycle);
    var ids := FillIds(open);
    forall i | 0 <= i < n ensures ids[i] != OrderIdText(k) { OpenIdsDiffer(book, |book.placed|, i, n); }
    NotAmong(ids, n, OrderIdText(k));
    UntouchedSoFar(book, ids, n, s.book, k);
  }

  lemma OneFurther(book: Book, open: seq<BrokerFill>, n: nat, s: Flattened, now: Time)
    requires ValidBook(book) && open == OpenOrders(book) && n < |open| && Through(book, FillIds(open), n, s)
    ensures Through(book, FillIds(open), n + 1, FlattenNext(s, Truthful(), FillIds(open), n, now))
  {
    NextFlattenSucceeds(book, open, n, s, now);
    FlattenAdvances(book, FillIds(open), n, s, Truthful(), now, FlattenNext(s, Truthful(), FillIds(open), n, now));
  }

  lemma SurvivesIfThrough(book: Book, ids: seq<string>, ack: Acknowledge, clock: nat -> Time)
    requires forall m: nat, s: Flattened {:trigger FlattenNext(s, ack, ids, m, clock(m))} ::
      m < |ids| && Through(book, ids, m, s) ==> Through(book, ids, m + 1, FlattenNext(s, ack, ids, m, clock(m)))
    ensures Survives(ReachesThrough(book, ids), ack, ids, clock)
  {
  }

  lemma ComingThroughSurvives(book: Book, open: seq<BrokerFill>, clock: nat -> Time)
    requires ValidBook(book) && open == OpenOrders(book)
    ensures Survives(ReachesThrough(book, FillIds(open)), Truthful(), FillIds(open), clock)
  {
    var ids, ack := FillIds(open), Truthful();
    forall m: nat, s: Flattened {:trigger FlattenNext(s, ack, ids, m, clock(m))} | m < |ids| && Through(book, ids, m, s)
      ensures Through(book, ids, m + 1, FlattenNext(s, ack, ids, m, clock(m)))
    {
      OneFurther(book, open, m, s, clock(m));
    }
    SurvivesIfThrough(book, ids, ack, clock);
  }

  /** Flatten is live: with a truthful broker it succeeds exactly when it is authorized, in PAPER mode, at a broker. */
  lemma FlattenSucceedsIff(env: Env, rows: seq<Row>, book: Book, bound: Option<Command>, mode: Option<BrokerMode>,
                           hasBroker: bool, clock: nat -> Time, now: Time)
    requires ValidBook(book)
    ensures FlattenPaperOnly(env, rows, book, Truthful(), bound, mode, hasBroker, clock, now).result.Ok?
       <==> bound == Some(FLATTEN) && mode == Some(PAPER_MODE) && hasBroker
  {
    var open := OpenOrders(book);
    NothingTouchedYet(book, FillIds(open));
    ComingThroughSurvives(book, open, clock);
    FlattenKeeps(ReachesThrough(book, FillIds(open)), book, Truthful(), open, clock, |open|);
  }
}
