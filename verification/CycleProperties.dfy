/** What a paper cycle conserves, and what is true of every intent it gets into the broker. */
module CycleProperties {
  import opened Wrappers
  import opened Vocabulary
  import opened Trade
  import opened Gateway
  import opened Orders
  import opened AuditLog
  import opened Brokers
  import opened PaperCycle
  import opened ControlPlane

  /* ---- conservation ---- */

  function CountOf(rows: seq<Row>, t: RecordType): nat {
    if rows == [] then 0
    else CountOf(rows[..|rows| - 1], t) + if rows[|rows| - 1].recordType == t then 1 else 0
  }

  lemma CountAfterAppend(rows: seq<Row>, row: Row, t: RecordType)
    ensures CountOf(rows + [row], t) == CountOf(rows, t) + if row.recordType == t then 1 else 0
  {
    assert (rows + [row])[..|rows|] == rows;
  }

  /** `later` extends `rows` by `total` rows, among them so many submit attempts and so many reports. */
  ghost predicate Grew(rows: seq<Row>, later: seq<Row>, total: nat, submits: nat, reports: nat) {
    && rows <= later && |later| == |rows| + total
    && CountOf(later, BROKER_SUBMIT_INTENT) == CountOf(rows, BROKER_SUBMIT_INTENT) + submits
    && CountOf(later, EXECUTION_REPORT) == CountOf(rows, EXECUTION_REPORT) + reports
  }

  lemma GrowsByOne(rows: seq<Row>, later: seq<Row>, row: Row, total: nat, submits: nat, reports: nat)
    requires Grew(rows, later, total, submits, reports)
    ensures Grew(rows, later + [row], total + 1,
                 submits + (if row.recordType == BROKER_SUBMIT_INTENT then 1 else 0),
                 reports + (if row.recordType == EXECUTION_REPORT then 1 else 0))
  {
    CountAfterAppend(later, row, BROKER_SUBMIT_INTENT);
    CountAfterAppend(later, row, EXECUTION_REPORT);
  }

  function RowsFor(o: Outcome): nat {
    match o
    case GatewayRejected => 2
    case Deferred => 4
    case DuplicateSkipped => 4
    case SubmitFailed => 5
    case Submitted => 5
    case Raised(_) => 0
  }

  function SubmitsFor(o: Outcome): nat { if o.SubmitFailed? || o.Submitted? then 1 else 0 }

  function ReportsFor(o: Outcome): nat { if o.Submitted? then 1 else 0 }

  lemma NotedGrows(su: Setup, rows: seq<Row>, s: ItemResult, r: Record, createdAt: Time, total: nat, submits: nat)
    requires Grew(rows, s.rows, total, submits, 0) && !r.SubmitRecord?
    ensures Grew(rows, Noted(su, s, r, createdAt).rows, total + 1, submits, if r.ReportRecord? then 1 else 0)
  {
    GrowsByOne(rows, s.rows, RowFor(su.env, |s.rows| + 1, r, createdAt, su.recordedAt, None), total, submits, 0);
  }

  lemma AfterReplyGrows(su: Setup, rows: seq<Row>, s: ItemResult, ordinal: nat, i: BrokerSubmitIntent,
                        result: Result<BrokerFill, BrokerError>)
    requires Grew(rows, s.rows, 4, 1, 0)
    ensures var r := AfterReply(su, s, ordinal, i, result);
      !r.outcome.Raised? ==> Grew(rows, r.rows, RowsFor(r.outcome), SubmitsFor(r.outcome), ReportsFor(r.outcome))
  {
    match result
    case Err(e) => NotedGrows(su, rows, s, CycleArtifact(su, "submitfail", ordinal, "REJECT", ReasonOf(e)),
                              su.recordedAt, 4, 1);
    case Ok(fill) =>
      var report := ReportOf(i, fill);
      if report.Ok? { NotedGrows(su, rows, s, ReportRecord(report.value), report.value.EventTime(), 4, 1); }
  }

  function BrokerReply(su: Setup, book: Book, ordinal: nat, i: BrokerSubmitIntent, a: PaperSubmitApproval): Reply {
    PaperSubmit(su.env, su.paper, book, su.behaviour, su.brokerName, i, Some(a), su.clock(ordinal))
  }

  /** The state after the attempt has been persisted and the broker called. */
  function Attempt(su: Setup, s: ItemResult, i: BrokerSubmitIntent, reply: Reply): ItemResult {
    s.(rows := s.rows + [SubmitRow(su.env, s.rows, i, su.recordedAt)], recordIds := s.recordIds + [i.idempotencyKey],
       book := reply.book, called := s.called + [i.idempotencyKey])
  }

  lemma FreshAttempt(su: Setup, s: ItemResult, ordinal: nat, i: BrokerSubmitIntent, a: PaperSubmitApproval)
    requires !KeyTaken(s.rows, i.idempotencyKey)
    ensures var reply := BrokerReply(su, s.book, ordinal, i, a);
      SubmitAndReport(su, s, ordinal, i, a) == AfterReply(su, Attempt(su, s, i, reply), ordinal, i, reply.result)
  {
  }

  lemma SubmitAndReportGrows(su: Setup, rows: seq<Row>, s: ItemResult, ordinal: nat, i: BrokerSubmitIntent,
                             a: PaperSubmitApproval)
    requires Grew(rows, s.rows, 3, 0, 0)
    ensures var r := SubmitAndReport(su, s, ordinal, i, a);
      !r.outcome.Raised? ==> Grew(rows, r.rows, RowsFor(r.outcome), SubmitsFor(r.outcome), ReportsFor(r.outcome))
  {
    if KeyTaken(s.rows, i.idempotencyKey) {
      NotedGrows(su, rows, s, CycleArtifact(su, "dupe", ordinal, "PAPER_SUBMIT_DUPLICATE_SKIPPED",
                                            INTERNAL_CONTRADICTION), su.recordedAt, 3, 0);
    } else {
      var reply := BrokerReply(su, s.book, ordinal, i, a);
      GrowsByOne(rows, s.rows, SubmitRow(su.env, s.rows, i, su.recordedAt), 3, 0, 0);
      FreshAttempt(su, s, ordinal, i, a);
      AfterReplyGrows(su, rows, Attempt(su, s, i, reply), ordinal, i, reply.result);
    }
  }

  lemma FromIntentGrows(su: Setup, rows: seq<Row>, s: ItemResult, ordinal: nat, i: BrokerSubmitIntent)
    requires Grew(rows, s.rows, 3, 0, 0)
    ensures var r := FromIntent(su, s, ordinal, i);
      !r.outcome.Raised? ==> Grew(rows, r.rows, RowsFor(r.outcome), SubmitsFor(r.outcome), ReportsFor(r.outcome))
  {
    var a := if su.confirmer.Some? then su.confirmer.value(i) else None;
    if a.None? {
      NotedGrows(su, rows, s, CycleArtifact(su, "noconfirm", ordinal, "PAPER_SUBMIT_DEFERRED", HUMAN_REARM_REQUIRED),
                 su.recordedAt, 3, 0);
    } else {
      SubmitAndReportGrows(su, rows, s, ordinal, i, a.value);
    }
  }

  lemma FromTicketGrows(su: Setup, rows: seq<Row>, s: ItemResult, ordinal: nat, item: PaperSubmitRequest,
                        t: OrderTicket)
    requires Grew(rows, s.rows, 2, 0, 0)
    ensures var r := FromTicket(su, s, ordinal, item, t);
      !r.outcome.Raised? ==> Grew(rows, r.rows, RowsFor(r.outcome), SubmitsFor(r.outcome), ReportsFor(r.outcome))
  {
    NotedGrows(su, rows, s, TicketRecord(t), t.createdAt, 2, 0);
    var noted := Noted(su, s, TicketRecord(t), t.createdAt);
    if t.orderType == LIMIT && item.limitPrice.None? {
      NotedGrows(su, rows, noted, CycleArtifact(su, "noprice", ordinal, "PAPER_SUBMIT_DEFERRED", PRICE_STALE),
                 su.recordedAt, 3, 0);
    } else {
      var i := MintSubmitIntent(su.env, t, su.attempt, PAPER, if t.orderType == LIMIT then item.limitPrice else None,
                                item.request.asOf);
      if i.Ok? { FromIntentGrows(su, rows, noted, ordinal, i.value); }
    }
  }

  /** One item adds exactly the rows its outcome stands for. */
  lemma ItemGrows(su: Setup, rows: seq<Row>, book: Book, called: seq<string>, ordinal: nat, item: PaperSubmitRequest)
    ensures var r := RunItem(su, rows, book, called, ordinal, item);
      !r.outcome.Raised? ==> Grew(rows, r.rows, RowsFor(r.outcome), SubmitsFor(r.outcome), ReportsFor(r.outcome))
  {
    var s := ItemResult(rows, book, called, [], Submitted);
    NotedGrows(su, rows, s, RequestRecord(item.request), item.request.asOf, 0, 0);
    FromDecisionGrows(su, rows, Noted(su, s, RequestRecord(item.request), item.request.asOf), ordinal, item,
                      su.decide(item.request));
  }

  lemma FromDecisionGrows(su: Setup, rows: seq<Row>, s: ItemResult, ordinal: nat, item: PaperSubmitRequest,
                          d: GatewayDecision)
    requires Grew(rows, s.rows, 1, 0, 0)
    ensures var r := FromDecision(su, s, ordinal, item, d);
      !r.outcome.Raised? ==> Grew(rows, r.rows, RowsFor(r.outcome), SubmitsFor(r.outcome), ReportsFor(r.outcome))
  {
    match d
    case Refused(artifact) => NotedGrows(su, rows, s, ArtifactRecord(artifact), artifact.createdAt, 1, 0);
    case Approved(v) =>
      NotedGrows(su, rows, s, ValidatedRecord(v), item.request.asOf, 1, 0);
      var t := MintOrderTicket(v, su.routing, item.request.asOf);
      if t.Ok? {
        FromTicketGrows(su, rows, Noted(su, s, ValidatedRecord(v), item.request.asOf), ordinal, item, t.value);
      }
  }

  ghost predicate Conserved(rows: seq<Row>, s: CycleState, n: nat) {
    var t := s.tally;
    && t.rejected + t.deferred + t.submitted + t.failed + t.duplicates == n
    && Grew(rows, s.rows, RowsOf(t), t.submitted + t.failed, t.submitted)
  }

  /** The rows a cycle with this tally has written, its start artifact included. */
  function RowsOf(t: Tally): nat { 1 + 2 * t.rejected + 4 * (t.deferred + t.duplicates) + 5 * (t.failed + t.submitted) }

  lemma GrowthAdds(rows: seq<Row>, mid: seq<Row>, later: seq<Row>, t1: nat, s1: nat, r1: nat, t2: nat, s2: nat, r2: nat)
    requires Grew(rows, mid, t1, s1, r1) && Grew(mid, later, t2, s2, r2)
    ensures Grew(rows, later, t1 + t2, s1 + s2, r1 + r2)
  {
  }

  /** Every step that does not raise adds the rows its outcome stands for. */
  ghost predicate StepGrows(step: Step, count: nat) {
    forall rows, book, called, n :: 0 <= n < count && !step(rows, book, called, n).outcome.Raised? ==>
      var r := step(rows, book, called, n); Grew(rows, r.rows, RowsFor(r.outcome), SubmitsFor(r.outcome),
                                                 ReportsFor(r.outcome))
  }

  lemma ConservedStep(rows: seq<Row>, s: CycleState, r: ItemResult, n: nat)
    requires Conserved(rows, s, n) && !r.outcome.Raised?
    requires Grew(s.rows, r.rows, RowsFor(r.outcome), SubmitsFor(r.outcome), ReportsFor(r.outcome))
    ensures Conserved(rows, Advance(s, r), n + 1)
  {
    var t := s.tally;
    GrowthAdds(rows, s.rows, r.rows, RowsOf(t), t.submitted + t.failed, t.submitted,
               RowsFor(r.outcome), SubmitsFor(r.outcome), ReportsFor(r.outcome));
    CountedAdds(t, r.outcome);
  }

  lemma CountedAdds(t: Tally, o: Outcome)
    requires !o.Raised?
    ensures var t' := Counted(t, o);
      && t'.rejected + t'.deferred + t'.submitted + t'.failed + t'.duplicates
         == t.rejected + t.deferred + t.submitted + t.failed + t.duplicates + 1
      && RowsOf(t') == RowsOf(t) + RowsFor(o)
      && t'.submitted + t'.failed == t.submitted + t.failed + SubmitsFor(o)
         && t'.submitted == t.submitted + ReportsFor(o)
  {
  }

  lemma {:induction false} LoopConserves(step: Step, rows: seq<Row>, start: CycleState, n: nat)
    requires StepGrows(step, n) && Conserved(rows, start, 0) && Loop(step, start, n).error.None?
    ensures Conserved(rows, Loop(step, start, n), n)
  {
    if n > 0 {
      var s := Loop(step, start, n - 1);
      LoopConserves(step, rows, start, n - 1);
      ConservedStep(rows, s, step(s.rows, s.book, s.called, n - 1), n - 1);
    }
  }

  /**
   * Conservation: when the cycle returns normally every request is counted once, the log has grown by exactly the rows
   * those counts stand for, and earlier rows are untouched.
   */
  lemma CycleConserves(su: Setup, rows: seq<Row>, book: Book, called: seq<string>, items: seq<PaperSubmitRequest>)
    requires Cycle(su, rows, book, called, items).error.None?
    ensures Conserved(rows, Cycle(su, rows, book, called, items), |items|)
  {
    StartConserves(su, rows, book, called);
    ItemStepGrows(su, items);
    LoopConserves(ItemStep(su, items), rows, Started(su, rows, book, called), |items|);
  }

  lemma StartConserves(su: Setup, rows: seq<Row>, book: Book, called: seq<string>)
    ensures Conserved(rows, Started(su, rows, book, called), 0)
  {
    GrowsByOne(rows, rows, RowFor(su.env, |rows| + 1, StartArtifact(su), su.recordedAt, su.recordedAt, None), 0, 0, 0);
  }

  lemma ItemStepGrows(su: Setup, items: seq<PaperSubmitRequest>)
    ensures StepGrows(ItemStep(su, items), |items|)
  {
    forall rows, book, called, n: nat | n < |items| && !ItemStep(su, items)(rows, book, called, n).outcome.Raised?
      ensures var r := ItemStep(su, items)(rows, book, called, n);
        Grew(rows, r.rows, RowsFor(r.outcome), SubmitsFor(r.outcome), ReportsFor(r.outcome))
    {
      ItemGrows(su, rows, book, called, n, items[n]);
    }
  }

  /* ---- what reaches the broker ---- */

  /** The item gets as far as handing `i` with approval `a` to the paper broker, unless its key is already taken. */
  ghost predicate Submits(su: Setup, item: PaperSubmitRequest, i: BrokerSubmitIntent, a: PaperSubmitApproval) {
    var d := su.decide(item.request);
    && d.Approved?
    && var t := MintOrderTicket(d.validated, su.routing, item.request.asOf);
    && t.Ok?
    && (t.value.orderType == LIMIT ==> item.limitPrice.Some?)
    && MintSubmitIntent(su.env, t.value, su.attempt, PAPER,
                        if t.value.orderType == LIMIT then item.limitPrice else None,
                        item.request.asOf) == Ok(i)
    && su.confirmer.Some? && su.confirmer.value(i) == Some(a)
  }

  /** Everything a reader may rely on for an intent that the inner broker has accepted. */
  ghost predicate SafelyPlaced(su: Setup, item: PaperSubmitRequest, i: BrokerSubmitIntent, a: PaperSubmitApproval) {
    var c := item.request.candidate;
    && Eligible(su.env, item.request)
    && i.ticket.validatedIntent.candidate == c && IntentCoherent(su.env, i)
    && i.submitMode == PAPER && i.submittedAt == item.request.asOf
    && c.underlying in su.paper.allowedUnderlyings && i.ticket.Contracts() <= su.paper.maxContracts
    && (su.routing.policyState == NORMAL ==>
          i.ticket.orderType == LIMIT && item.limitPrice.Some? && i.limitPrice == item.limitPrice)
    && (su.paper.limitOnly ==> i.ticket.orderType == LIMIT)
    && LongLegRoutesFirst(i.ticket)
    && c.MaxLoss() > 0.0
    && a.idempotencyKey == i.idempotencyKey && a.fullIntentDigest == IntentDigest(su.env, i)
       && a.approvedAt >= i.submittedAt
  }

  lemma MaxLossIsPositive(c: CandidateTradeIntent)
    ensures c.MaxLoss() > 0.0
  {
    var gap := c.SpreadWidth() - c.netCredit;
    assert gap * (c.multiplier as real) > 0.0;
  }

  /** End to end: an intent that the cycle hands over and the paper broker does not refuse is safe in every respect. */
  lemma AcceptedIntentsAreSafe(su: Setup, item: PaperSubmitRequest, i: BrokerSubmitIntent, a: PaperSubmitApproval)
    requires UsesGateway(su) && su.paper.requireHumanConfirm
    requires Submits(su, item, i, a) && PaperRefusal(su.env, su.paper, i, Some(a)).None?
    ensures SafelyPlaced(su, item, i, a)
  {
    assert su.decide(item.request) == Decide(su.env, item.request);
    GatewayIsExact(su.env, item.request);
    var v := su.decide(item.request).validated;
    TicketMintIsExact(v, su.routing, item.request.asOf);
    MaxLossIsPositive(item.request.candidate);
  }

  /** A digest without collisions ties the approval to exactly one intent. */
  lemma ApprovalFitsOneIntent(env: Env, i: BrokerSubmitIntent, j: BrokerSubmitIntent, a: PaperSubmitApproval)
    requires forall r, r' :: env.sha(r) == env.sha(r') ==> r == r'
    requires Confirms(env, i, Some(a)) && Confirms(env, j, Some(a))
    ensures i == j
  {
    assert SubmitRecord(i) == SubmitRecord(j);
  }

  /** The log holds the intent itself, under its key, at or after position `from`. */
  ghost predicate LoggedFrom(later: seq<Row>, from: nat, i: BrokerSubmitIntent) {
    exists j :: from <= j < |later| && later[j].idempotencyKey == Some(i.idempotencyKey)
        && later[j].payload == SubmitRecord(i)
  }

  /**
   * The very intent that the cycle handed over for this item, under the confirmer's own approval, is safe and in the
   * log.
   */
  ghost predicate PlacedFor(su: Setup, item: PaperSubmitRequest, k: string, later: seq<Row>, from: nat) {
    exists i: BrokerSubmitIntent, a: PaperSubmitApproval ::
      i.idempotencyKey == k && Submits(su, item, i, a) && SafelyPlaced(su, item, i, a) && LoggedFrom(later, from, i)
  }

  lemma PlacedForStays(su: Setup, item: PaperSubmitRequest, k: string, later: seq<Row>, from: nat, later': seq<Row>,
                       from': nat)
    requires PlacedFor(su, item, k, later, from) && later <= later' && from' <= from
    ensures PlacedFor(su, item, k, later', from')
  {
    var i: BrokerSubmitIntent, a: PaperSubmitApproval :|
      i.idempotencyKey == k && Submits(su, item, i, a) && SafelyPlaced(su, item, i, a) && LoggedFrom(later, from, i);
    var j :| from <= j < |later| && later[j].idempotencyKey == Some(i.idempotencyKey)
        && later[j].payload == SubmitRecord(i);
    assert later'[j] == later[j];
    assert LoggedFrom(later', from', i);
  }

  /* ---- what every item leaves alone ---- */

  lemma NotedLeavesSwitch(su: Setup, rows: seq<Row>, s: ItemResult, r: Record, createdAt: Time)
    requires LeavesSwitch(rows, s.rows) && !r.KillSwitchRecord?
    ensures LeavesSwitch(rows, Noted(su, s, r, createdAt).rows)
  {
    AppendLeavesSwitch(rows, s.rows, RowFor(su.env, |s.rows| + 1, r, createdAt, su.recordedAt, None));
  }

  lemma AfterReplyLeavesSwitch(su: Setup, rows: seq<Row>, s: ItemResult, ordinal: nat, i: BrokerSubmitIntent,
                               result: Result<BrokerFill, BrokerError>)
    requires LeavesSwitch(rows, s.rows)
    ensures LeavesSwitch(rows, AfterReply(su, s, ordinal, i, result).rows)
  {
    match result
    case Err(e) => NotedLeavesSwitch(su, rows, s, CycleArtifact(su, "submitfail", ordinal, "REJECT", ReasonOf(e)),
                                     su.recordedAt);
    case Ok(fill) =>
      var report := ReportOf(i, fill);
      if report.Ok? { NotedLeavesSwitch(su, rows, s, ReportRecord(report.value), report.value.EventTime()); }
  }

  lemma SubmitLeavesSwitch(su: Setup, rows: seq<Row>, s: ItemResult, ordinal: nat, i: BrokerSubmitIntent,
                           a: PaperSubmitApproval)
    requires LeavesSwitch(rows, s.rows)
    ensures LeavesSwitch(rows, SubmitAndReport(su, s, ordinal, i, a).rows)
  {
    if KeyTaken(s.rows, i.idempotencyKey) {
      NotedLeavesSwitch(su, rows, s, CycleArtifact(su, "dupe", ordinal, "PAPER_SUBMIT_DUPLICATE_SKIPPED",
                                                   INTERNAL_CONTRADICTION), su.recordedAt);
    } else {
      var reply := BrokerReply(su, s.book, ordinal, i, a);
      FreshAttempt(su, s, ordinal, i, a);
      AppendLeavesSwitch(rows, s.rows, SubmitRow(su.env, s.rows, i, su.recordedAt));
      AfterReplyLeavesSwitch(su, rows, Attempt(su, s, i, reply), ordinal, i, reply.result);
    }
  }

  lemma FromIntentLeavesSwitch(su: Setup, rows: seq<Row>, s: ItemResult, ordinal: nat, i: BrokerSubmitIntent)
    requires LeavesSwitch(rows, s.rows)
    ensures LeavesSwitch(rows, FromIntent(su, s, ordinal, i).rows)
  {
    var a := if su.confirmer.Some? then su.confirmer.value(i) else None;
    if a.None? {
      NotedLeavesSwitch(su, rows, s, CycleArtifact(su, "noconfirm", ordinal, "PAPER_SUBMIT_DEFERRED",
                                                   HUMAN_REARM_REQUIRED), su.recordedAt);
    } else {
      SubmitLeavesSwitch(su, rows, s, ordinal, i, a.value);
    }
  }

  lemma FromTicketLeavesSwitch(su: Setup, rows: seq<Row>, s: ItemResult, ordinal: nat, item: PaperSubmitRequest,
                               t: OrderTicket)
    requires LeavesSwitch(rows, s.rows)
    ensures LeavesSwitch(rows, FromTicket(su, s, ordinal, item, t).rows)
  {
    NotedLeavesSwitch(su, rows, s, TicketRecord(t), t.createdAt);
    var noted := Noted(su, s, TicketRecord(t), t.createdAt);
    if t.orderType == LIMIT && item.limitPrice.None? {
      NotedLeavesSwitch(su, rows, noted, CycleArtifact(su, "noprice", ordinal, "PAPER_SUBMIT_DEFERRED", PRICE_STALE),
                        su.recordedAt);
    } else {
      var i := MintSubmitIntent(su.env, t, su.attempt, PAPER, if t.orderType == LIMIT then item.limitPrice else None,
                                item.request.asOf);
      if i.Ok? { FromIntentLeavesSwitch(su, rows, noted, ordinal, i.value); }
    }
  }

  /** An item only appends, whatever its outcome, and never writes a switch state. */
  lemma ItemLeavesSwitch(su: Setup, rows: seq<Row>, book: Book, called: seq<string>, ordinal: nat,
                         item: PaperSubmitRequest)
    ensures LeavesSwitch(rows, RunItem(su, rows, book, called, ordinal, item).rows)
  {
    var s := ItemResult(rows, book, called, [], Submitted);
    var requested := Noted(su, s, RequestRecord(item.request), item.request.asOf);
    NotedLeavesSwitch(su, rows, s, RequestRecord(item.request), item.request.asOf);
    match su.decide(item.request)
    case Refused(artifact) => NotedLeavesSwitch(su, rows, requested, ArtifactRecord(artifact), artifact.createdAt);
    case Approved(v) =>
      NotedLeavesSwitch(su, rows, requested, ValidatedRecord(v), item.request.asOf);
      var t := MintOrderTicket(v, su.routing, item.request.asOf);
      if t.Ok? {
        FromTicketLeavesSwitch(su, rows, Noted(su, requested, ValidatedRecord(v), item.request.asOf), ordinal, item,
                               t.value);
      }
  }

  ghost predicate StepLeavesSwitch(step: Step, count: nat) {
    forall rows, book, called, n :: 0 <= n < count ==> LeavesSwitch(rows, step(rows, book, called, n).rows)
  }

  lemma ItemStepLeavesSwitch(su: Setup, items: seq<PaperSubmitRequest>)
    ensures StepLeavesSwitch(ItemStep(su, items), |items|)
  {
    forall rows, book, called, n: nat | n < |items|
      ensures LeavesSwitch(rows, ItemStep(su, items)(rows, book, called, n).rows)
    {
      ItemLeavesSwitch(su, rows, book, called, n, items[n]);
    }
  }

  lemma {:induction false} LoopLeavesSwitch(step: Step, rows: seq<Row>, start: CycleState, n: nat)
    requires StepLeavesSwitch(step, n) && LeavesSwitch(rows, start.rows)
    ensures LeavesSwitch(rows, Loop(step, start, n).rows)
  {
    if n > 0 {
      LoopLeavesSwitch(step, rows, start, n - 1);
      var s := Loop(step, start, n - 1);
      if s.error.None? { SwitchLeftTwice(rows, s.rows, step(s.rows, s.book, s.called, n - 1).rows); }
    }
  }

  /** A whole cycle, raising or not, alters no earlier row and never touches the kill switch. */
  lemma CycleLeavesSwitch(su: Setup, rows: seq<Row>, book: Book, called: seq<string>, items: seq<PaperSubmitRequest>)
    ensures LeavesSwitch(rows, Cycle(su, rows, book, called, items).rows)
  {
    ItemStepLeavesSwitch(su, items);
    LoopLeavesSwitch(ItemStep(su, items), rows, Started(su, rows, book, called), |items|);
  }

  /* ---- every order a cycle adds ---- */

  lemma AttemptIsLogged(su: Setup, s: ItemResult, ordinal: nat, i: BrokerSubmitIntent, a: PaperSubmitApproval)
    requires !KeyTaken(s.rows, i.idempotencyKey)
    ensures LoggedFrom(SubmitAndReport(su, s, ordinal, i, a).rows, |s.rows|, i)
  {
    var reply := BrokerReply(su, s.book, ordinal, i, a);
    var persisted := Attempt(su, s, i, reply);
    FreshAttempt(su, s, ordinal, i, a);
    AfterReplyLeavesSwitch(su, persisted.rows, persisted, ordinal, i, reply.result);
    var later := AfterReply(su, persisted, ordinal, i, reply.result).rows;
    assert later[|s.rows|] == persisted.rows[|s.rows|] == SubmitRow(su.env, s.rows, i, su.recordedAt);
  }

  /** Only a fresh key that the paper broker does not refuse can bring a new order. */
  lemma NewOrderIsTheIntents(su: Setup, s: ItemResult, ordinal: nat, i: BrokerSubmitIntent, a: PaperSubmitApproval,
                             k: string)
    requires k in SubmitAndReport(su, s, ordinal, i, a).book.fills && k !in s.book.fills
    ensures k == i.idempotencyKey && !KeyTaken(s.rows, k) && PaperRefusal(su.env, su.paper, i, Some(a)).None?
  {
  }

  lemma SubmittedOrderIsSafe(su: Setup, item: PaperSubmitRequest, s: ItemResult, ordinal: nat, i: BrokerSubmitIntent,
                             a: PaperSubmitApproval, k: string)
    requires UsesGateway(su) && su.paper.requireHumanConfirm && Submits(su, item, i, a)
    requires k in SubmitAndReport(su, s, ordinal, i, a).book.fills && k !in s.book.fills
    ensures PlacedFor(su, item, k, SubmitAndReport(su, s, ordinal, i, a).rows, |s.rows|)
  {
    NewOrderIsTheIntents(su, s, ordinal, i, a, k);
    AcceptedIntentsAreSafe(su, item, i, a);
    AttemptIsLogged(su, s, ordinal, i, a);
  }

  lemma FromTicketPlacesSafely(su: Setup, item: PaperSubmitRequest, s: ItemResult, ordinal: nat, t: OrderTicket,
                               k: string)
    requires UsesGateway(su) && su.paper.requireHumanConfirm
    requires su.decide(item.request).Approved?
    requires MintOrderTicket(su.decide(item.request).validated, su.routing, item.request.asOf) == Ok(t)
    requires k in FromTicket(su, s, ordinal, item, t).book.fills && k !in s.book.fills
    ensures PlacedFor(su, item, k, FromTicket(su, s, ordinal, item, t).rows, |s.rows|)
  {
    var noted := Noted(su, s, TicketRecord(t), t.createdAt);
    if !(t.orderType == LIMIT && item.limitPrice.None?) {
      var i := MintSubmitIntent(su.env, t, su.attempt, PAPER, if t.orderType == LIMIT then item.limitPrice else None,
                                item.request.asOf);
      if i.Ok? && su.confirmer.Some? && su.confirmer.value(i.value).Some? {
        var a := su.confirmer.value(i.value).value;
        var r := SubmitAndReport(su, noted, ordinal, i.value, a);
        assert FromTicket(su, s, ordinal, item, t) == r;
        SubmittedOrderIsSafe(su, item, noted, ordinal, i.value, a, k);
        PlacedForStays(su, item, k, r.rows, |noted.rows|, r.rows, |s.rows|);
      }
    }
  }

  lemma ItemPlacesSafely(su: Setup, rows: seq<Row>, book: Book, called: seq<string>, ordinal: nat,
                         item: PaperSubmitRequest, k: string)
    requires UsesGateway(su) && su.paper.requireHumanConfirm
    requires k in RunItem(su, rows, book, called, ordinal, item).book.fills && k !in book.fills
    ensures PlacedFor(su, item, k, RunItem(su, rows, book, called, ordinal, item).rows, |rows|)
  {
    var s := Noted(su, ItemResult(rows, book, called, [], Submitted), RequestRecord(item.request), item.request.asOf);
    var d := su.decide(item.request);
    if d.Approved? {
      var t := MintOrderTicket(d.validated, su.routing, item.request.asOf);
      if t.Ok? {
        var noted := Noted(su, s, ValidatedRecord(d.validated), item.request.asOf);
        FromTicketPlacesSafely(su, item, noted, ordinal, t.value, k);
        var later := FromTicket(su, noted, ordinal, item, t.value).rows;
        PlacedForStays(su, item, k, later, |noted.rows|, later, |rows|);
      }
    }
  }

  /** Whether the order under a key is accounted for by the n-th item in a log, at or after a position. */
  type Account = (nat, string, seq<Row>, nat) -> bool

  ghost predicate IsStable(account: Account) {
    forall m: nat, k: string, later: seq<Row>, from: nat, later': seq<Row>, from': nat
      {:trigger account(m, k, later, from), account(m, k, later', from')} ::
      account(m, k, later, from) && later <= later' && from' <= from ==> account(m, k, later', from')
  }

  ghost predicate StepAccounts(step: Step, account: Account, count: nat) {
    forall rows, book, called, n: nat, k ::
      n < count && k in step(rows, book, called, n).book.fills && k !in book.fills ==>
        account(n, k, step(rows, book, called, n).rows, |rows|)
  }

  lemma NextLoop(step: Step, start: CycleState, n: nat)
    requires n > 0
    ensures var s := Loop(step, start, n - 1);
      Loop(step, start, n) == if s.error.Some? then s else Advance(s, step(s.rows, s.book, s.called, n - 1))
  {
  }

  /** One item keeps the account of every order placed so far and gives one for an order it places itself. */
  lemma AccountAdvances(step: Step, account: Account, count: nat, from: nat, s: CycleState, t: CycleState, n: nat,
                        m: nat, k: string)
    requires StepAccounts(step, account, count) && StepLeavesSwitch(step, count) && IsStable(account)
    requires n < count && from <= |s.rows| && k in t.book.fills
    requires t == if s.error.Some? then s else Advance(s, step(s.rows, s.book, s.called, n))
    requires if k in s.book.fills then account(m, k, s.rows, from) else m == n
    ensures account(m, k, t.rows, from)
  {
    if s.error.None? {
      var r := step(s.rows, s.book, s.called, n);
      assert LeavesSwitch(s.rows, r.rows);
      assert k in s.book.fills || account(m, k, r.rows, |s.rows|);
    }
  }

  /** Every order a loop adds is accounted for by one of its items in the final log. */
  lemma {:induction false} LoopAccounts(step: Step, account: Account, start: CycleState, n: nat, k: string)
      returns (m: nat)
    requires StepAccounts(step, account, n) && StepLeavesSwitch(step, n) && IsStable(account)
    requires k in Loop(step, start, n).book.fills && k !in start.book.fills
    ensures m < n && account(m, k, Loop(step, start, n).rows, |start.rows|)
  {
    var s := Loop(step, start, n - 1);
    NextLoop(step, start, n);
    LoopLeavesSwitch(step, start.rows, start, n - 1);
    if k in s.book.fills { m := LoopAccounts(step, account, start, n - 1, k); } else { m := n - 1; }
    AccountAdvances(step, account, n, |start.rows|, s, Loop(step, start, n), n - 1, m, k);
  }

  ghost function PlacedBy(su: Setup, items: seq<PaperSubmitRequest>): Account {
    (m: nat, k: string, later: seq<Row>, from: nat) => m < |items| && PlacedFor(su, items[m], k, later, from)
  }

  lemma PlacedByIsStable(su: Setup, items: seq<PaperSubmitRequest>)
    ensures IsStable(PlacedBy(su, items))
  {
    var account := PlacedBy(su, items);
    forall m: nat, k: string, later: seq<Row>, from: nat, later': seq<Row>, from': nat
      | account(m, k, later, from) && later <= later' && from' <= from
      ensures account(m, k, later', from')
    {
      PlacedForStays(su, items[m], k, later, from, later', from');
    }
  }

  lemma ItemStepAccounts(su: Setup, items: seq<PaperSubmitRequest>)
    requires UsesGateway(su) && su.paper.requireHumanConfirm
    ensures StepAccounts(ItemStep(su, items), PlacedBy(su, items), |items|)
  {
    var step := ItemStep(su, items);
    forall rows, book, called, n: nat, k | n < |items| && k in step(rows, book, called, n).book.fills
        && k !in book.fills
      ensures PlacedFor(su, items[n], k, step(rows, book, called, n).rows, |rows|)
    {
      ItemPlacesSafely(su, rows, book, called, n, items[n], k);
    }
  }

  /**
   * Every order a paper cycle adds to the broker is one that the cycle handed over for one of its requests: the intent
   * the item minted, the approval the confirmer gave for it, safe in every respect, and in the log as a new row under
   * its key.
   */
  lemma CyclePlacesOnlySafeOrders(app: AppConfig, su: Setup, rows: seq<Row>, book: Book, called: seq<string>,
                                  items: seq<PaperSubmitRequest>, k: string)
    requires UsesGateway(su) && PaperSafe(app, su.paper)
    requires k in Cycle(su, rows, book, called, items).book.fills && k !in book.fills
    ensures exists m :: 0 <= m < |items| && PlacedFor(su, items[m], k, Cycle(su, rows, book, called, items).rows,
                                                      |rows|)
  {
    var start := Started(su, rows, book, called);
    ItemStepAccounts(su, items);
    ItemStepLeavesSwitch(su, items);
    PlacedByIsStable(su, items);
    var m := LoopAccounts(ItemStep(su, items), PlacedBy(su, items), start, |items|, k);
    var later := Cycle(su, rows, book, called, items).rows;
    PlacedForStays(su, items[m], k, later, |start.rows|, later, |rows|);
  }
}
