/**
 * Exactly what each item of a paper cycle comes to (services/paper_cycle.py): every outcome as a condition on the
 * inputs, what is written and called in each case, and the counters as the numbers of items that meet the condition.
 */
module CycleOutcomes {
  import opened Wrappers
  import opened Vocabulary
  import opened Trade
  import opened Gateway
  import opened Orders
  import opened AuditLog
  import opened Brokers
  import opened PaperCycle
  import opened CycleProperties

  /* ---- conditions on the inputs ---- */

  /** An emergency policy state that allows MARKET orders routes at the market; everything else is a LIMIT order. */
  predicate AtMarket(su: Setup) { su.routing.policyState != NORMAL && su.routing.marketOrderAllowed }

  predicate Routable(su: Setup) { su.routing.requestedOrderType != Some(MARKET) }

  predicate PriceMissing(su: Setup, item: PaperSubmitRequest) { !AtMarket(su) && item.limitPrice.None? }

  /** `i` is the submit intent of this item: its own candidate, routed and priced, at the time of the request. */
  ghost predicate Intends(su: Setup, item: PaperSubmitRequest, i: BrokerSubmitIntent) {
    && Eligible(su.env, item.request)
    && su.decide(item.request).Approved?
    && MintOrderTicket(su.decide(item.request).validated, su.routing, item.request.asOf) == Ok(i.ticket)
    && MintSubmitIntent(su.env, i.ticket, su.attempt, PAPER, if AtMarket(su) then None else item.limitPrice,
                        item.request.asOf) == Ok(i)
  }

  predicate Unconfirmed(su: Setup, i: BrokerSubmitIntent) {
    su.confirmer.None? || su.confirmer.value(i).None?
  }

  /** An item has an intent iff it is eligible, routable and priced, and the attempt is numbered from one. */
  lemma IntentExistsIff(su: Setup, item: PaperSubmitRequest)
    requires UsesGateway(su)
    ensures (exists i :: Intends(su, item, i))
       <==> Eligible(su.env, item.request) && Routable(su) && !PriceMissing(su, item) && su.attempt >= 1
  {
    assert su.decide(item.request) == Decide(su.env, item.request);
    GatewayIsExact(su.env, item.request);
    if Eligible(su.env, item.request) {
      var v := su.decide(item.request).validated;
      TicketMintIsExact(v, su.routing, item.request.asOf);
      if Routable(su) {
        var t := MintOrderTicket(v, su.routing, item.request.asOf).value;
        var price := if AtMarket(su) then None else item.limitPrice;
        SubmitIntentMintIsExact(su.env, t, su.attempt, PAPER, price, item.request.asOf);
        var i := MintSubmitIntent(su.env, t, su.attempt, PAPER, price, item.request.asOf);
        if i.Ok? { assert Intends(su, item, i.value); }
      }
    }
  }

  /** There is at most one such intent, and submitting means that the confirmer approves it. */
  lemma IntentIsUnique(su: Setup, item: PaperSubmitRequest, i: BrokerSubmitIntent, j: BrokerSubmitIntent)
    requires Intends(su, item, i) && Intends(su, item, j)
    ensures i == j
  {
  }

  lemma SubmitsIffConfirmed(su: Setup, item: PaperSubmitRequest, i: BrokerSubmitIntent, a: PaperSubmitApproval)
    requires UsesGateway(su)
    ensures Submits(su, item, i, a) <==> Intends(su, item, i) && su.confirmer.Some? && su.confirmer.value(i) == Some(a)
  {
    assert su.decide(item.request) == Decide(su.env, item.request);
    GatewayIsExact(su.env, item.request);
    if su.decide(item.request).Approved? {
      var v := su.decide(item.request).validated;
      TicketMintIsExact(v, su.routing, item.request.asOf);
      var t := MintOrderTicket(v, su.routing, item.request.asOf);
      if t.Ok? {
        SubmitIntentMintIsExact(su.env, t.value, su.attempt, PAPER, if AtMarket(su) then None else item.limitPrice,
                                item.request.asOf);
      }
    }
  }

  /* ---- what an item writes ---- */

  /** The rows after `rows` hold exactly these records, and the collected ids are their ids. */
  ghost predicate Wrote(rows: seq<Row>, s: ItemResult, written: seq<Record>) {
    && rows <= s.rows && |s.rows| == |rows| + |written| && |s.recordIds| == |written|
    && (forall j :: |rows| <= j < |s.rows| ==>
          s.rows[j].payload == written[j - |rows|] && s.rows[j].recordId == s.recordIds[j - |rows|])
  }

  /** The keys in the log are those of `rows`. */
  ghost predicate SameKeys(rows: seq<Row>, later: seq<Row>) { forall k :: KeyTaken(later, k) <==> KeyTaken(rows, k) }

  lemma NotedWrites(su: Setup, rows: seq<Row>, s: ItemResult, written: seq<Record>, r: Record, createdAt: Time)
    requires Wrote(rows, s, written)
    ensures Wrote(rows, Noted(su, s, r, createdAt), written + [r])
  {
  }

  lemma NotedKeepsKeys(su: Setup, rows: seq<Row>, s: ItemResult, r: Record, createdAt: Time)
    requires SameKeys(rows, s.rows)
    ensures SameKeys(rows, Noted(su, s, r, createdAt).rows)
  {
    var later := Noted(su, s, r, createdAt).rows;
    forall k ensures KeyTaken(later, k) <==> KeyTaken(s.rows, k) {
      if KeyTaken(s.rows, k) {
        var j :| 0 <= j < |s.rows| && s.rows[j].idempotencyKey == Some(k);
        assert later[j] == s.rows[j];
      }
    }
  }

  lemma AttemptWrites(su: Setup, rows: seq<Row>, s: ItemResult, written: seq<Record>, i: BrokerSubmitIntent,
                      reply: Reply)
    requires Wrote(rows, s, written)
    ensures Wrote(rows, Attempt(su, s, i, reply), written + [SubmitRecord(i)])
  {
  }

  predicate IsArtifact(r: Record, decision: string, reason: ReasonCode) {
    r.ArtifactRecord? && r.artifact.decision == decision && r.artifact.reasonCodes == [reason]
  }

  /* ---- the way of an item, case by case ---- */

  /** Log, broker and calls as an approved item finds them once its ticket has been noted. */
  ghost predicate Ticketed(su: Setup, rows: seq<Row>, book: Book, called: seq<string>, item: PaperSubmitRequest,
                           s: ItemResult, t: OrderTicket) {
    && su.decide(item.request).Approved?
    && MintOrderTicket(su.decide(item.request).validated, su.routing, item.request.asOf) == Ok(t)
    && s.book == book && s.called == called && SameKeys(rows, s.rows)
    && Wrote(rows, s, [RequestRecord(item.request), ValidatedRecord(su.decide(item.request).validated),
                       TicketRecord(t)])
  }

  lemma RejectedItem(su: Setup, rows: seq<Row>, book: Book, called: seq<string>, ordinal: nat, item: PaperSubmitRequest)
    requires UsesGateway(su) && !Eligible(su.env, item.request)
    ensures var r := RunItem(su, rows, book, called, ordinal, item);
      && r.outcome == GatewayRejected && r.book == book && r.called == called
      && su.decide(item.request).Refused?
      && Wrote(rows, r, [RequestRecord(item.request), ArtifactRecord(su.decide(item.request).artifact)])
  {
    assert su.decide(item.request) == Decide(su.env, item.request);
    GatewayIsExact(su.env, item.request);
    var s := ItemResult(rows, book, called, [], Submitted);
    var requested := Noted(su, s, RequestRecord(item.request), item.request.asOf);
    var artifact := su.decide(item.request).artifact;
    NotedWrites(su, rows, s, [], RequestRecord(item.request), item.request.asOf);
    NotedWrites(su, rows, requested, [RequestRecord(item.request)], ArtifactRecord(artifact), artifact.createdAt);
  }

  lemma ApprovedItem(su: Setup, rows: seq<Row>, book: Book, called: seq<string>, ordinal: nat, item: PaperSubmitRequest)
    returns (s: ItemResult)
    requires UsesGateway(su) && Eligible(su.env, item.request)
    ensures su.decide(item.request).Approved?
    ensures s.book == book && s.called == called && SameKeys(rows, s.rows)
    ensures Wrote(rows, s, [RequestRecord(item.request), ValidatedRecord(su.decide(item.request).validated)])
    ensures var t := MintOrderTicket(su.decide(item.request).validated, su.routing, item.request.asOf);
      RunItem(su, rows, book, called, ordinal, item)
      == if t.Err? then s.(outcome := Raised(t.error)) else FromTicket(su, s, ordinal, item, t.value)
  {
    assert su.decide(item.request) == Decide(su.env, item.request);
    GatewayIsExact(su.env, item.request);
    s := PastDecision(su, rows, book, called, item, su.decide(item.request).validated);
    RequestIsWritten(su, rows, book, called, item, su.decide(item.request).validated);
    DecidedItem(su, rows, book, called, ordinal, item, su.decide(item.request).validated);
  }

  /** What an item has noted of its request and its validated intent. */
  function PastDecision(su: Setup, rows: seq<Row>, book: Book, called: seq<string>, item: PaperSubmitRequest,
                        v: ValidatedTradeIntent): ItemResult
  {
    var requested := Noted(su, ItemResult(rows, book, called, [], Submitted), RequestRecord(item.request),
                           item.request.asOf);
    Noted(su, requested, ValidatedRecord(v), item.request.asOf)
  }

  lemma RequestIsWritten(su: Setup, rows: seq<Row>, book: Book, called: seq<string>, item: PaperSubmitRequest,
                         v: ValidatedTradeIntent)
    ensures var s := PastDecision(su, rows, book, called, item, v);
      && s.book == book && s.called == called && SameKeys(rows, s.rows)
      && Wrote(rows, s, [RequestRecord(item.request), ValidatedRecord(v)])
  {
    var start := ItemResult(rows, book, called, [], Submitted);
    var requested := Noted(su, start, RequestRecord(item.request), item.request.asOf);
    NotedWrites(su, rows, start, [], RequestRecord(item.request), item.request.asOf);
    NotedKeepsKeys(su, rows, start, RequestRecord(item.request), item.request.asOf);
    NotedWrites(su, rows, requested, [RequestRecord(item.request)], ValidatedRecord(v), item.request.asOf);
    NotedKeepsKeys(su, rows, requested, ValidatedRecord(v), item.request.asOf);
  }

  lemma DecidedItem(su: Setup, rows: seq<Row>, book: Book, called: seq<string>, ordinal: nat, item: PaperSubmitRequest,
                    v: ValidatedTradeIntent)
    requires su.decide(item.request) == Approved(v)
    ensures var s := PastDecision(su, rows, book, called, item, v);
      var t := MintOrderTicket(v, su.routing, item.request.asOf);
      RunItem(su, rows, book, called, ordinal, item)
      == if t.Err? then s.(outcome := Raised(t.error)) else FromTicket(su, s, ordinal, item, t.value)
  {
  }

  lemma UnroutedItem(su: Setup, rows: seq<Row>, book: Book, called: seq<string>, ordinal: nat, item: PaperSubmitRequest)
    requires UsesGateway(su) && Eligible(su.env, item.request) && !Routable(su)
    ensures var r := RunItem(su, rows, book, called, ordinal, item);
      && r.outcome == Raised(RouteRejected) && r.book == book && r.called == called && su.decide(item.request).Approved?
      && Wrote(rows, r, [RequestRecord(item.request), ValidatedRecord(su.decide(item.request).validated)])
  {
    var s := ApprovedItem(su, rows, book, called, ordinal, item);
  }

  /** What is left to do behind a noted ticket. */
  function PastTicket(su: Setup, s: ItemResult, ordinal: nat, item: PaperSubmitRequest, t: OrderTicket): ItemResult {
    if t.orderType == LIMIT && item.limitPrice.None? then
      Noted(su, s, CycleArtifact(su, "noprice", ordinal, "PAPER_SUBMIT_DEFERRED", PRICE_STALE),
            su.recordedAt).(outcome := Deferred)
    else
      var i := MintSubmitIntent(su.env, t, su.attempt, PAPER, if t.orderType == LIMIT then item.limitPrice else None,
                                item.request.asOf);
      if i.Err? then s.(outcome := Raised(i.error)) else FromIntent(su, s, ordinal, i.value)
  }

  lemma TicketedItem(su: Setup, rows: seq<Row>, book: Book, called: seq<string>, ordinal: nat, item: PaperSubmitRequest)
    returns (s: ItemResult, t: OrderTicket)
    requires UsesGateway(su) && Eligible(su.env, item.request) && Routable(su)
    ensures Ticketed(su, rows, book, called, item, s, t) && t.Coherent() && t.createdAt == item.request.asOf
    ensures t.orderType == if AtMarket(su) then MARKET else LIMIT
    ensures RunItem(su, rows, book, called, ordinal, item) == PastTicket(su, s, ordinal, item, t)
  {
    var noted := ApprovedItem(su, rows, book, called, ordinal, item);
    var v := su.decide(item.request).validated;
    assert v.Coherent() by {
      assert su.decide(item.request) == Decide(su.env, item.request);
      GatewayIsExact(su.env, item.request);
    }
    TicketMintIsExact(v, su.routing, item.request.asOf);
    t := MintOrderTicket(v, su.routing, item.request.asOf).value;
    s := Noted(su, noted, TicketRecord(t), t.createdAt);
    NotedWrites(su, rows, noted, [RequestRecord(item.request), ValidatedRecord(v)], TicketRecord(t), t.createdAt);
    NotedKeepsKeys(su, rows, noted, TicketRecord(t), t.createdAt);
  }

  ghost function Trail(su: Setup, item: PaperSubmitRequest, t: OrderTicket): seq<Record>
    requires su.decide(item.request).Approved?
  {
    [RequestRecord(item.request), ValidatedRecord(su.decide(item.request).validated), TicketRecord(t)]
  }

  /** Deferred: nothing is persisted as an attempt, nobody is called, and the artifact names what is missing. */
  ghost predicate DeferredFor(su: Setup, rows: seq<Row>, book: Book, called: seq<string>, item: PaperSubmitRequest,
                              reason: ReasonCode, r: ItemResult) {
    && r.outcome == Deferred && r.book == book && r.called == called && su.decide(item.request).Approved?
    && exists t, artifact :: IsArtifact(artifact, "PAPER_SUBMIT_DEFERRED", reason)
                             && Wrote(rows, r, Trail(su, item, t) + [artifact])
  }

  lemma UnpricedItem(su: Setup, rows: seq<Row>, book: Book, called: seq<string>, ordinal: nat, item: PaperSubmitRequest)
    requires UsesGateway(su) && Eligible(su.env, item.request) && Routable(su) && PriceMissing(su, item)
    ensures DeferredFor(su, rows, book, called, item, PRICE_STALE, RunItem(su, rows, book, called, ordinal, item))
  {
    var s, t := TicketedItem(su, rows, book, called, ordinal, item);
    var artifact := CycleArtifact(su, "noprice", ordinal, "PAPER_SUBMIT_DEFERRED", PRICE_STALE);
    NotedWrites(su, rows, s, Trail(su, item, t), artifact, su.recordedAt);
    assert IsArtifact(artifact, "PAPER_SUBMIT_DEFERRED", PRICE_STALE);
  }

  lemma UncountedItem(su: Setup, rows: seq<Row>, book: Book, called: seq<string>, ordinal: nat,
                      item: PaperSubmitRequest)
    requires UsesGateway(su) && Eligible(su.env, item.request) && Routable(su) && !PriceMissing(su, item)
    requires su.attempt < 1
    ensures var r := RunItem(su, rows, book, called, ordinal, item);
      && r.outcome == Raised(BadAttemptCounter) && r.book == book && r.called == called
      && exists written :: Wrote(rows, r, written)
  {
    var s, t := TicketedItem(su, rows, book, called, ordinal, item);
    var r := RunItem(su, rows, book, called, ordinal, item);
    assert Wrote(rows, r, [RequestRecord(item.request), ValidatedRecord(su.decide(item.request).validated),
                           TicketRecord(t)]);
  }

  /** Behind the ticket an item with an intent goes on from that intent. */
  lemma IntendedItem(su: Setup, rows: seq<Row>, book: Book, called: seq<string>, ordinal: nat, item: PaperSubmitRequest,
                     i: BrokerSubmitIntent) returns (s: ItemResult)
    requires UsesGateway(su) && Intends(su, item, i)
    ensures Ticketed(su, rows, book, called, item, s, i.ticket)
    ensures RunItem(su, rows, book, called, ordinal, item) == FromIntent(su, s, ordinal, i)
  {
    IntentExistsIff(su, item);
    var t;
    s, t := TicketedItem(su, rows, book, called, ordinal, item);
  }

  lemma UnconfirmedItem(su: Setup, rows: seq<Row>, book: Book, called: seq<string>, ordinal: nat,
                        item: PaperSubmitRequest, i: BrokerSubmitIntent)
    requires UsesGateway(su) && Intends(su, item, i) && Unconfirmed(su, i)
    ensures DeferredFor(su, rows, book, called, item, HUMAN_REARM_REQUIRED,
                        RunItem(su, rows, book, called, ordinal, item))
  {
    var s := IntendedItem(su, rows, book, called, ordinal, item, i);
    var artifact := CycleArtifact(su, "noconfirm", ordinal, "PAPER_SUBMIT_DEFERRED", HUMAN_REARM_REQUIRED);
    NotedWrites(su, rows, s, Trail(su, item, i.ticket), artifact, su.recordedAt);
    assert IsArtifact(artifact, "PAPER_SUBMIT_DEFERRED", HUMAN_REARM_REQUIRED);
  }

  /** Skipped: the key is in the log already, and nobody is called. */
  ghost predicate Skipped(rows: seq<Row>, book: Book, called: seq<string>, trail: seq<Record>, r: ItemResult) {
    && r.outcome == DuplicateSkipped && r.book == book && r.called == called
    && exists artifact :: IsArtifact(artifact, "PAPER_SUBMIT_DUPLICATE_SKIPPED", INTERNAL_CONTRADICTION)
                          && Wrote(rows, r, trail + [artifact])
  }

  /** Called: the attempt is persisted, the broker called once under its key, and its answer decides the rest. */
  ghost predicate CalledWith(rows: seq<Row>, called: seq<string>, trail: seq<Record>, i: BrokerSubmitIntent,
                             reply: Reply, r: ItemResult)
  {
    && r.book == reply.book && r.called == called + [i.idempotencyKey]
    && match reply.result
       case Err(e) =>
         && r.outcome == SubmitFailed
         && exists artifact :: IsArtifact(artifact, "REJECT", ReasonOf(e))
                               && Wrote(rows, r, trail + [SubmitRecord(i)] + [artifact])
       case Ok(fill) =>
         match ReportOf(i, fill)
         case Ok(report) => r.outcome == Submitted && Wrote(rows, r, trail + [SubmitRecord(i)] + [ReportRecord(report)])
         case Err(x) => r.outcome == Raised(x) && Wrote(rows, r, trail + [SubmitRecord(i)])
  }

  lemma AfterReplyIsExact(su: Setup, rows: seq<Row>, called: seq<string>, trail: seq<Record>, s: ItemResult,
                          ordinal: nat, i: BrokerSubmitIntent, reply: Reply)
    requires Wrote(rows, s, trail + [SubmitRecord(i)]) && s.book == reply.book
        && s.called == called + [i.idempotencyKey]
    ensures CalledWith(rows, called, trail, i, reply, AfterReply(su, s, ordinal, i, reply.result))
  {
    match reply.result
    case Err(e) =>
      var artifact := CycleArtifact(su, "submitfail", ordinal, "REJECT", ReasonOf(e));
      NotedWrites(su, rows, s, trail + [SubmitRecord(i)], artifact, su.recordedAt);
      assert IsArtifact(artifact, "REJECT", ReasonOf(e));
    case Ok(fill) =>
      var report := ReportOf(i, fill);
      if report.Ok? {
        NotedWrites(su, rows, s, trail + [SubmitRecord(i)], ReportRecord(report.value), report.value.EventTime());
      }
  }

  lemma SubmittedItem(su: Setup, rows: seq<Row>, book: Book, called: seq<string>, ordinal: nat,
                      item: PaperSubmitRequest, i: BrokerSubmitIntent, a: PaperSubmitApproval)
    requires UsesGateway(su) && Intends(su, item, i) && su.confirmer.Some? && su.confirmer.value(i) == Some(a)
    ensures var r := RunItem(su, rows, book, called, ordinal, item);
      if KeyTaken(rows, i.idempotencyKey) then Skipped(rows, book, called, Trail(su, item, i.ticket), r)
      else CalledWith(rows, called, Trail(su, item, i.ticket), i, BrokerReply(su, book, ordinal, i, a), r)
  {
    var s := IntendedItem(su, rows, book, called, ordinal, item, i);
    var trail := Trail(su, item, i.ticket);
    assert KeyTaken(s.rows, i.idempotencyKey) <==> KeyTaken(rows, i.idempotencyKey);
    if KeyTaken(rows, i.idempotencyKey) {
      var artifact := CycleArtifact(su, "dupe", ordinal, "PAPER_SUBMIT_DUPLICATE_SKIPPED", INTERNAL_CONTRADICTION);
      NotedWrites(su, rows, s, trail, artifact, su.recordedAt);
      assert IsArtifact(artifact, "PAPER_SUBMIT_DUPLICATE_SKIPPED", INTERNAL_CONTRADICTION);
    } else {
      var reply := BrokerReply(su, book, ordinal, i, a);
      FreshAttempt(su, s, ordinal, i, a);
      AttemptWrites(su, rows, s, trail, i, reply);
      AfterReplyIsExact(su, rows, called, trail, Attempt(su, s, i, reply), ordinal, i, reply);
    }
  }

  /* ---- the outcomes as conditions ---- */

  ghost predicate Defers(su: Setup, item: PaperSubmitRequest) {
    && Eligible(su.env, item.request) && Routable(su)
    && (PriceMissing(su, item) || exists i :: Intends(su, item, i) && Unconfirmed(su, i))
  }

  ghost predicate Skips(su: Setup, item: PaperSubmitRequest, rows: seq<Row>) {
    exists i, a :: Submits(su, item, i, a) && KeyTaken(rows, i.idempotencyKey)
  }

  ghost predicate Fails(su: Setup, item: PaperSubmitRequest, rows: seq<Row>, book: Book, n: nat) {
    exists i, a :: Submits(su, item, i, a) && !KeyTaken(rows, i.idempotencyKey)
        && BrokerReply(su, book, n, i, a).result.Err?
  }

  ghost predicate Succeeds(su: Setup, item: PaperSubmitRequest, rows: seq<Row>, book: Book, n: nat) {
    exists i, a :: Submits(su, item, i, a) && !KeyTaken(rows, i.idempotencyKey)
        && Answers(BrokerReply(su, book, n, i, a), i)
  }

  /** The broker answers with a fill that a report can be minted from. */
  predicate Answers(reply: Reply, i: BrokerSubmitIntent) { reply.result.Ok? && ReportOf(i, reply.result.value).Ok? }

  /** The outcome of an item is what the conditions on its inputs say. */
  ghost predicate OutcomeMatches(su: Setup, rows: seq<Row>, book: Book, n: nat, item: PaperSubmitRequest, o: Outcome) {
    && (o == GatewayRejected <==> !Eligible(su.env, item.request))
    && (o == Deferred <==> Defers(su, item))
    && (o == DuplicateSkipped <==> Skips(su, item, rows))
    && (o == SubmitFailed <==> Fails(su, item, rows, book, n))
    && (o == Submitted <==> Succeeds(su, item, rows, book, n))
  }

  lemma WithoutSubmission(su: Setup, rows: seq<Row>, book: Book, n: nat, item: PaperSubmitRequest)
    requires forall i, a :: !Submits(su, item, i, a)
    ensures !Skips(su, item, rows) && !Fails(su, item, rows, book, n) && !Succeeds(su, item, rows, book, n)
  {
  }

  lemma WithSubmission(su: Setup, rows: seq<Row>, book: Book, n: nat, item: PaperSubmitRequest, i: BrokerSubmitIntent,
                       a: PaperSubmitApproval)
    requires UsesGateway(su) && Submits(su, item, i, a)
    ensures Eligible(su.env, item.request) && !Defers(su, item)
    ensures Skips(su, item, rows) <==> KeyTaken(rows, i.idempotencyKey)
    ensures var reply := BrokerReply(su, book, n, i, a);
      && (Fails(su, item, rows, book, n) <==> !KeyTaken(rows, i.idempotencyKey) && reply.result.Err?)
      && (Succeeds(su, item, rows, book, n) <==> !KeyTaken(rows, i.idempotencyKey) && Answers(reply, i))
  {
    SubmitsIffConfirmed(su, item, i, a);
    IntentExistsIff(su, item);
    forall j, b | Submits(su, item, j, b) ensures j == i && b == a {
      SubmitsIffConfirmed(su, item, j, b);
      IntentIsUnique(su, item, i, j);
    }
    forall j | Intends(su, item, j) ensures !Unconfirmed(su, j) { IntentIsUnique(su, item, i, j); }
  }

  lemma NoSubmission(su: Setup, item: PaperSubmitRequest)
    requires UsesGateway(su) && forall i :: Intends(su, item, i) ==> Unconfirmed(su, i)
    ensures forall i, a :: !Submits(su, item, i, a)
  {
    forall i, a ensures !Submits(su, item, i, a) { SubmitsIffConfirmed(su, item, i, a); }
  }

  /** Every outcome of an item holds exactly under its condition on the inputs, the log and the broker it finds. */
  lemma OutcomesAreExact(su: Setup, rows: seq<Row>, book: Book, called: seq<string>, n: nat, item: PaperSubmitRequest)
    requires UsesGateway(su)
    ensures OutcomeMatches(su, rows, book, n, item, RunItem(su, rows, book, called, n, item).outcome)
  {
    IntentExistsIff(su, item);
    if i :| Intends(su, item, i) {
      if Unconfirmed(su, i) {
        forall j | Intends(su, item, j) ensures Unconfirmed(su, j) { IntentIsUnique(su, item, i, j); }
        NoSubmission(su, item);
        WithoutSubmission(su, rows, book, n, item);
        UnconfirmedItem(su, rows, book, called, n, item, i);
      } else {
        var a := su.confirmer.value(i).value;
        SubmitsIffConfirmed(su, item, i, a);
        WithSubmission(su, rows, book, n, item, i, a);
        SubmittedItem(su, rows, book, called, n, item, i, a);
      }
    } else {
      NoSubmission(su, item);
      WithoutSubmission(su, rows, book, n, item);
      UnintendedItem(su, rows, book, called, n, item);
    }
  }

  lemma UnintendedItem(su: Setup, rows: seq<Row>, book: Book, called: seq<string>, n: nat, item: PaperSubmitRequest)
    requires UsesGateway(su) && forall i :: !Intends(su, item, i)
    ensures var o := RunItem(su, rows, book, called, n, item).outcome;
      && (o == GatewayRejected <==> !Eligible(su.env, item.request)) && (o == Deferred <==> Defers(su, item))
      && o != DuplicateSkipped && o != SubmitFailed && o != Submitted
  {
    IntentExistsIff(su, item);
    if !Eligible(su.env, item.request) { RejectedItem(su, rows, book, called, n, item); }
    else if !Routable(su) { UnroutedItem(su, rows, book, called, n, item); }
    else if PriceMissing(su, item) { UnpricedItem(su, rows, book, called, n, item); }
    else { UncountedItem(su, rows, book, called, n, item); }
  }

  /** A confirmed intent under an unused key reaches the broker, once and under that key; nothing else does. */
  lemma ConfirmedIntentsAreSubmitted(su: Setup, rows: seq<Row>, book: Book, called: seq<string>, n: nat,
                                     item: PaperSubmitRequest, i: BrokerSubmitIntent, a: PaperSubmitApproval)
    requires UsesGateway(su) && Submits(su, item, i, a)
    ensures su.decide(item.request).Approved?
    ensures var r := RunItem(su, rows, book, called, n, item);
      if KeyTaken(rows, i.idempotencyKey) then Skipped(rows, book, called, Trail(su, item, i.ticket), r)
      else CalledWith(rows, called, Trail(su, item, i.ticket), i, BrokerReply(su, book, n, i, a), r)
  {
    SubmitsIffConfirmed(su, item, i, a);
    SubmittedItem(su, rows, book, called, n, item, i, a);
  }

  /* ---- the counters ---- */

  /** How many of the first `n` positions satisfy `p`. */
  ghost function Times(p: nat -> bool, n: nat): nat {
    if n == 0 then 0 else Times(p, n - 1) + if p(n - 1) then 1 else 0
  }

  lemma {:induction false} TimesAgree(p: nat -> bool, q: nat -> bool, n: nat)
    requires forall m: nat :: m < n ==> (p(m) <==> q(m))
    ensures Times(p, n) == Times(q, n)
  {
    if n > 0 { TimesAgree(p, q, n - 1); }
  }

  /** The outcome of item `m` at its turn. */
  ghost function OutcomeAt(step: Step, start: CycleState, m: nat): Outcome {
    var s := Loop(step, start, m);
    step(s.rows, s.book, s.called, m).outcome
  }

  ghost function Comes(step: Step, start: CycleState, o: Outcome): nat -> bool {
    (m: nat) => OutcomeAt(step, start, m) == o
  }

  lemma {:induction false} LoopTally(step: Step, start: CycleState, n: nat)
    requires start.tally == Tally(0, 0, 0, 0, 0) && Loop(step, start, n).error.None?
    ensures Loop(step, start, n).tally
         == Tally(Times(Comes(step, start, GatewayRejected), n), Times(Comes(step, start, Deferred), n),
                  Times(Comes(step, start, Submitted), n), Times(Comes(step, start, SubmitFailed), n),
                  Times(Comes(step, start, DuplicateSkipped), n))
  {
    if n > 0 {
      NextLoop(step, start, n);
      LoopTally(step, start, n - 1);
    }
  }

  /* ---- the whole cycle ---- */

  ghost function Rejected(su: Setup, items: seq<PaperSubmitRequest>): nat -> bool {
    (m: nat) => m < |items| && !Eligible(su.env, items[m].request)
  }

  ghost function DeferredAt(su: Setup, items: seq<PaperSubmitRequest>): nat -> bool {
    (m: nat) => m < |items| && Defers(su, items[m])
  }

  /** The state in which item `m` finds log and broker. */
  type Turns = nat -> CycleState

  ghost function SkippedAt(su: Setup, items: seq<PaperSubmitRequest>, turn: Turns): nat -> bool {
    (m: nat) => m < |items| && Skips(su, items[m], turn(m).rows)
  }

  ghost function FailedAt(su: Setup, items: seq<PaperSubmitRequest>, turn: Turns): nat -> bool {
    (m: nat) => m < |items| && Fails(su, items[m], turn(m).rows, turn(m).book, m)
  }

  ghost function SucceededAt(su: Setup, items: seq<PaperSubmitRequest>, turn: Turns): nat -> bool {
    (m: nat) => m < |items| && Succeeds(su, items[m], turn(m).rows, turn(m).book, m)
  }

  ghost function TurnsOf(step: Step, start: CycleState): Turns { (m: nat) => Loop(step, start, m) }

  lemma OutcomeAtTurn(su: Setup, items: seq<PaperSubmitRequest>, start: CycleState, m: nat)
    requires UsesGateway(su) && m < |items|
    ensures var s := Loop(ItemStep(su, items), start, m);
      OutcomeMatches(su, s.rows, s.book, m, items[m], OutcomeAt(ItemStep(su, items), start, m))
  {
    var s := Loop(ItemStep(su, items), start, m);
    OutcomesAreExact(su, s.rows, s.book, s.called, m, items[m]);
  }

  /** At every turn the outcome is a given one exactly when the item meets that outcome's condition. */
  ghost predicate TurnsMatch(su: Setup, items: seq<PaperSubmitRequest>, step: Step, start: CycleState) {
    var turn := TurnsOf(step, start);
    forall m: nat {:trigger OutcomeAt(step, start, m)} :: m < |items| ==>
      OutcomeMatches(su, turn(m).rows, turn(m).book, m, items[m], OutcomeAt(step, start, m))
  }

  lemma TimesMatch(su: Setup, items: seq<PaperSubmitRequest>, step: Step, start: CycleState)
    requires TurnsMatch(su, items, step, start)
    ensures var n, turn := |items|, TurnsOf(step, start);
      && Times(Comes(step, start, GatewayRejected), n) == Times(Rejected(su, items), n)
      && Times(Comes(step, start, Deferred), n) == Times(DeferredAt(su, items), n)
      && Times(Comes(step, start, DuplicateSkipped), n) == Times(SkippedAt(su, items, turn), n)
      && Times(Comes(step, start, SubmitFailed), n) == Times(FailedAt(su, items, turn), n)
      && Times(Comes(step, start, Submitted), n) == Times(SucceededAt(su, items, turn), n)
  {
    var n, turn := |items|, TurnsOf(step, start);
    TimesAgree(Comes(step, start, GatewayRejected), Rejected(su, items), n);
    TimesAgree(Comes(step, start, Deferred), DeferredAt(su, items), n);
    TimesAgree(Comes(step, start, DuplicateSkipped), SkippedAt(su, items, turn), n);
    TimesAgree(Comes(step, start, SubmitFailed), FailedAt(su, items, turn), n);
    TimesAgree(Comes(step, start, Submitted), SucceededAt(su, items, turn), n);
  }

  /** The counters are exact: each is the number of items that met its condition when their turn came. */
  lemma CountersAreExact(su: Setup, rows: seq<Row>, book: Book, called: seq<string>, items: seq<PaperSubmitRequest>)
    requires UsesGateway(su) && Cycle(su, rows, book, called, items).error.None?
    ensures var turn := TurnsOf(ItemStep(su, items), Started(su, rows, book, called));
      Cycle(su, rows, book, called, items).tally
      == Tally(Times(Rejected(su, items), |items|), Times(DeferredAt(su, items), |items|),
               Times(SucceededAt(su, items, turn), |items|), Times(FailedAt(su, items, turn), |items|),
               Times(SkippedAt(su, items, turn), |items|))
  {
    var step, start := ItemStep(su, items), Started(su, rows, book, called);
    LoopTally(step, start, |items|);
    forall m: nat | m < |items|
      ensures OutcomeMatches(su, TurnsOf(step, start)(m).rows, TurnsOf(step, start)(m).book, m, items[m],
                             OutcomeAt(step, start, m))
    {
      OutcomeAtTurn(su, items, start, m);
    }
    TimesMatch(su, items, step, start);
  }

  /* ---- the reported record ids ---- */

  /** `ids` are the record ids of the rows behind `rows`, in order. */
  ghost predicate NamesRows(rows: seq<Row>, later: seq<Row>, ids: seq<string>) {
    && rows <= later && |later| == |rows| + |ids|
    && forall j :: |rows| <= j < |later| ==> later[j].recordId == ids[j - |rows|]
  }

  lemma ItemNamesRows(su: Setup, rows: seq<Row>, book: Book, called: seq<string>, n: nat, item: PaperSubmitRequest)
    requires UsesGateway(su)
    ensures var r := RunItem(su, rows, book, called, n, item); NamesRows(rows, r.rows, r.recordIds)
  {
    IntentExistsIff(su, item);
    if !Eligible(su.env, item.request) { RejectedItem(su, rows, book, called, n, item); }
    else if !Routable(su) { UnroutedItem(su, rows, book, called, n, item); }
    else if PriceMissing(su, item) { UnpricedItem(su, rows, book, called, n, item); }
    else if su.attempt < 1 { UncountedItem(su, rows, book, called, n, item); }
    else {
      var i :| Intends(su, item, i);
      if Unconfirmed(su, i) {
        UnconfirmedItem(su, rows, book, called, n, item, i);
      } else {
        SubmittedItem(su, rows, book, called, n, item, i, su.confirmer.value(i).value);
      }
    }
  }

  ghost predicate StepNamesRows(step: Step, count: nat) {
    forall rows, book, called, n: nat :: n < count ==>
      NamesRows(rows, step(rows, book, called, n).rows, step(rows, book, called, n).recordIds)
  }

  lemma NamesCompose(rows: seq<Row>, mid: seq<Row>, later: seq<Row>, ids: seq<string>, more: seq<string>)
    requires NamesRows(rows, mid, ids) && NamesRows(mid, later, more)
    ensures NamesRows(rows, later, ids + more)
  {
    forall j | |rows| <= j < |later| ensures later[j].recordId == (ids + more)[j - |rows|] {
      if j < |mid| { assert later[j] == mid[j]; }
    }
  }

  lemma {:induction false} LoopNamesRows(step: Step, rows: seq<Row>, start: CycleState, n: nat)
    requires StepNamesRows(step, n) && NamesRows(rows, start.rows, start.recordIds)
    ensures NamesRows(rows, Loop(step, start, n).rows, Loop(step, start, n).recordIds)
  {
    if n > 0 {
      LoopNamesRows(step, rows, start, n - 1);
      var s := Loop(step, start, n - 1);
      NextLoop(step, start, n);
      if s.error.None? {
        var r := step(s.rows, s.book, s.called, n - 1);
        NamesCompose(rows, s.rows, r.rows, s.recordIds, r.recordIds);
      }
    }
  }

  /** The ids a cycle reports are the ids of exactly the rows it has written, in order. */
  lemma CycleNamesItsRows(su: Setup, rows: seq<Row>, book: Book, called: seq<string>, items: seq<PaperSubmitRequest>)
    requires UsesGateway(su)
    ensures var s := Cycle(su, rows, book, called, items); NamesRows(rows, s.rows, s.recordIds)
  {
    var step := ItemStep(su, items);
    forall rows, book, called, n: nat | n < |items|
      ensures NamesRows(rows, step(rows, book, called, n).rows, step(rows, book, called, n).recordIds)
    {
      ItemNamesRows(su, rows, book, called, n, items[n]);
    }
    LoopNamesRows(step, rows, Started(su, rows, book, called), |items|);
  }

  /** What a fake broker answers to a new order can be reported iff it was not filled before it was submitted. */
  lemma NewFillIsReportable(behaviour: Behaviour, name: string, i: BrokerSubmitIntent, now: Time)
    requires Simulate(behaviour, name, i, now).Ok?
    ensures ReportOf(i, Simulate(behaviour, name, i, now).value).Ok?
       <==> Simulate(behaviour, name, i, now).value.filled == 0 || i.submittedAt <= now
  {
    var f := Simulate(behaviour, name, i, now).value;
    SimulatedFillIsCoherent(behaviour, name, i, now);
    ReportMintIsExact(i, f.orderId.value, f.lifecycle, f.filled, f.avgPrice, f.fillAt, f.completedAt);
  }
}
