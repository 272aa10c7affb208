/** The in-memory fake brokers and the local paper broker in front of them (brokers/fake.py, brokers/paper.py). */
module Brokers {
  import opened Wrappers
  import opened Vocabulary
  import opened Trade

  datatype BrokerOrderId = BrokerOrderId(value: string, brokerName: string)

  datatype BrokerFill = BrokerFill(
    orderId: BrokerOrderId,
    lifecycle: OrderLifecycleState,
    filled: int,
    requested: int,
    avgPrice: Option<real>,
    fillAt: Option<Time>,
    submittedAt: Time,
    completedAt: Option<Time>
  )

  datatype BrokerError =
    | BrokerRejected
    | BrokerDisconnect
    | BrokerTimeout
    | LiveSubmitNotPermitted
    | PaperSubmissionDisabled
    | PaperPolicyViolation(reason: ReasonCode)
    | HumanConfirmationRequired
    | UnknownOrder
    | OrderNotCancellable

  /** The reason code each broker error carries into its audit artifact. */
  function ReasonOf(e: BrokerError): ReasonCode {
    match e
    case BrokerRejected => EXECUTION_QUALITY_SUSPENDED
    case BrokerTimeout => PRICE_STALE
    case PaperSubmissionDisabled => HUMAN_REARM_REQUIRED
    case HumanConfirmationRequired => HUMAN_REARM_REQUIRED
    case PaperPolicyViolation(reason) => reason
    case _ => INTERNAL_CONTRADICTION
  }

  /** What one fake broker does with a new order. */
  datatype Behaviour = Fills | Rejects | PartiallyFills | Disconnects | TimesOut | DuplicateAcks

  /** Orders by idempotency key in the order they were placed, and the index from order id back to key. */
  datatype Book = Book(placed: seq<string>, fills: map<string, BrokerFill>, index: map<string, string>)

  const EmptyBook := Book([], map[], map[])

  datatype Reply = Reply(book: Book, result: Result<BrokerFill, BrokerError>)

  function OrderIdText(key: string): string { "FAKE-" + key }

  function FillPrice(i: BrokerSubmitIntent): real {
    if i.limitPrice.Some? && i.limitPrice.value != 0.0 then i.limitPrice.value else 1.00
  }

  function MakeFill(name: string, i: BrokerSubmitIntent, lifecycle: OrderLifecycleState, filled: int, completed: bool,
                    now: Time): BrokerFill
  {
    BrokerFill(
      BrokerOrderId(OrderIdText(i.idempotencyKey), name),
      lifecycle,
      filled,
      i.ticket.Contracts(),
      if filled > 0 then Some(FillPrice(i)) else None,
      if filled > 0 then Some(now) else None,
      i.submittedAt,
      if completed then Some(now) else None)
  }

  function Simulate(behaviour: Behaviour, name: string, i: BrokerSubmitIntent, now: Time)
      : Result<BrokerFill, BrokerError>
  {
    var n := i.ticket.Contracts();
    match behaviour
    case Fills => Ok(MakeFill(name, i, FILLED, n, true, now))
    case DuplicateAcks => Ok(MakeFill(name, i, FILLED, n, true, now))
    case PartiallyFills =>
      if n <= 1 then Ok(MakeFill(name, i, WORKING, 0, false, now))
          else Ok(MakeFill(name, i, PARTIAL_FILL, n - 1, false, now))
    case Rejects => Err(BrokerRejected)
    case Disconnects => Err(BrokerDisconnect)
    case TimesOut => Err(BrokerTimeout)
  }

  /** One submit call: an already known key answers with the stored fill and never executes again. */
  function Submit(book: Book, behaviour: Behaviour, name: string, i: BrokerSubmitIntent, now: Time): Reply {
    var k := i.idempotencyKey;
    if i.submitMode != PAPER then Reply(book, Err(LiveSubmitNotPermitted))
    else if k in book.fills then Reply(book, Ok(book.fills[k]))
    else
      var fill := Simulate(behaviour, name, i, now);
      if fill.Err? then Reply(book, fill)
      else Reply(Book(book.placed + [k], book.fills[k := fill.value], book.index[fill.value.orderId.value := k]), fill)
  }

  function GetOrder(book: Book, id: string): Result<BrokerFill, BrokerError> {
    if id in book.index && book.index[id] in book.fills then Ok(book.fills[book.index[id]]) else Err(UnknownOrder)
  }

  /** One cancel call: only an open order can be cancelled, and its fill evidence is kept. */
  function Cancel(book: Book, id: string, now: Time): Reply {
    var current := GetOrder(book, id);
    if current.Err? then Reply(book, current)
    else if !IsOpen(current.value.lifecycle) then Reply(book, Err(OrderNotCancellable))
    else
      var cancelled := current.value.(lifecycle := CANCELLED, completedAt := Some(now));
      Reply(book.(fills := book.fills[book.index[id] := cancelled]), Ok(cancelled))
  }

  /** The open orders among the first `n` placed, in placing order. */
  function OpenAmong(book: Book, n: nat): seq<BrokerFill>
    requires n <= |book.placed|
  {
    if n == 0 then []
    else
      var k := book.placed[n - 1];
      OpenAmong(book, n - 1) + if k in book.fills && IsOpen(book.fills[k].lifecycle) then [book.fills[k]] else []
  }

  function OpenOrders(book: Book): seq<BrokerFill> { OpenAmong(book, |book.placed|) }

  /** The two maps are inverse to each other and every key was placed exactly once. */
  ghost predicate ValidBook(book: Book) {
    && (forall k :: k in book.placed <==> k in book.fills)
    && (forall i, j :: 0 <= i < j < |book.placed| ==> book.placed[i] != book.placed[j])
    && (forall k :: k in book.fills ==>
          && book.fills[k].orderId.value == OrderIdText(k)
          && OrderIdText(k) in book.index && book.index[OrderIdText(k)] == k)
    && (forall id :: id in book.index ==> book.index[id] in book.fills && id == OrderIdText(book.index[id]))
  }

  lemma OrderIdsAreInjective(a: string, b: string)
    requires OrderIdText(a) == OrderIdText(b)
    ensures a == b
  {
    assert OrderIdText(a)[5..] == a && OrderIdText(b)[5..] == b;
  }

  lemma PlacingKeepsBookValid(book: Book, k: string, fill: BrokerFill)
    requires ValidBook(book) && k !in book.fills && fill.orderId.value == OrderIdText(k)
    ensures ValidBook(Book(book.placed + [k], book.fills[k := fill], book.index[OrderIdText(k) := k]))
  {
    forall k' | k' in book.fills ensures OrderIdText(k') != OrderIdText(k) {
      if OrderIdText(k') == OrderIdText(k) { OrderIdsAreInjective(k', k); }
    }
  }

  lemma SubmitKeepsBookValid(book: Book, behaviour: Behaviour, name: string, i: BrokerSubmitIntent, now: Time)
    requires ValidBook(book)
    ensures ValidBook(Submit(book, behaviour, name, i, now).book)
  {
    var k := i.idempotencyKey;
    var fill := Simulate(behaviour, name, i, now);
    if i.submitMode == PAPER && k !in book.fills && fill.Ok? { PlacingKeepsBookValid(book, k, fill.value); }
  }

  lemma CancelKeepsBookValid(book: Book, id: string, now: Time)
    requires ValidBook(book)
    ensures ValidBook(Cancel(book, id, now).book)
  {
  }

  /** A repeated submit under a known key changes nothing and answers with the stored fill. */
  lemma ResubmitIsIdempotent(book: Book, behaviour: Behaviour, name: string, i: BrokerSubmitIntent, now: Time,
                             later: Time, behaviour': Behaviour)
    requires Submit(book, behaviour, name, i, now).result.Ok?
    ensures var r := Submit(book, behaviour, name, i, now); Submit(r.book, behaviour', name, i, later) == r
  {
  }

  /** A cancel touches the addressed order only, reopens nothing, and closes the order when it succeeds. */
  lemma CancelFacts(book: Book, id: string, now: Time)
    requires ValidBook(book)
    ensures var r := Cancel(book, id, now);
      && ValidBook(r.book) && r.book.placed == book.placed && r.book.fills.Keys == book.fills.Keys
      && (forall k :: k in book.fills && (OrderIdText(k) != id || !IsOpen(book.fills[k].lifecycle)) ==>
            r.book.fills[k] == book.fills[k])
      && (forall k :: k in book.fills && IsOpen(r.book.fills[k].lifecycle) ==> IsOpen(book.fills[k].lifecycle))
      && (r.result.Ok? ==> forall k :: k in book.fills && OrderIdText(k) == id ==> r.book.fills[k] == r.result.value)
      && (r.result.Ok? ==> r.result.value.lifecycle == CANCELLED && r.result.value.orderId.value == id)
  {
    CancelKeepsBookValid(book, id, now);
    if id in book.index { assert book.index[id] in book.fills; }
  }

  /** A submit changes at most one key, which was unknown before, and answers under that key's order id. */
  lemma SubmitFacts(book: Book, behaviour: Behaviour, name: string, i: BrokerSubmitIntent, now: Time)
    requires ValidBook(book)
    ensures var r := Submit(book, behaviour, name, i, now);
      && ValidBook(r.book)
      && (forall k :: k in book.fills ==> k in r.book.fills && r.book.fills[k] == book.fills[k])
      && (forall k :: k in r.book.fills && k !in book.fills ==> k == i.idempotencyKey)
      && (r.result.Ok? ==> i.idempotencyKey in r.book.fills && r.book.fills[i.idempotencyKey] == r.result.value
                           && r.result.value.orderId.value == OrderIdText(i.idempotencyKey))
      && (r.result.Err? ==> r.book == book)
  {
    SubmitKeepsBookValid(book, behaviour, name, i, now);
  }

  /** A cancel succeeds iff the broker holds that order open, and changes its state and completion time alone. */
  lemma CancelIsExact(book: Book, id: string, now: Time)
    requires ValidBook(book)
    ensures Cancel(book, id, now).result.Ok?
       <==> exists k :: k in book.fills && OrderIdText(k) == id && IsOpen(book.fills[k].lifecycle)
    ensures forall k :: k in book.fills && OrderIdText(k) == id && IsOpen(book.fills[k].lifecycle) ==>
              && Cancel(book, id, now).book == book.(fills := book.fills[k := Cancel(book, id, now).result.value])
              && Cancel(book, id, now).result.value
                 == book.fills[k].(lifecycle := CANCELLED, completedAt := Some(now))
  {
    if id in book.index { assert book.index[id] in book.fills; }
    if k :| k in book.fills && OrderIdText(k) == id && IsOpen(book.fills[k].lifecycle) {
      assert book.index[id] == k;
    }
  }

  /**
   * LIVE intents are refused, a known key answers with the stored fill, and a new one with what the broker simulates.
   */
  lemma SubmitIsExact(book: Book, behaviour: Behaviour, name: string, i: BrokerSubmitIntent, now: Time)
    ensures var r, k := Submit(book, behaviour, name, i, now), i.idempotencyKey;
      if i.submitMode == LIVE then r == Reply(book, Err(LiveSubmitNotPermitted))
      else if k in book.fills then r == Reply(book, Ok(book.fills[k]))
      else
        && r.result == Simulate(behaviour, name, i, now)
        && (r.result.Ok? <==> behaviour == Fills || behaviour == DuplicateAcks || behaviour == PartiallyFills)
        && (r.result.Ok? ==> r.book.placed == book.placed + [k] && r.book.fills == book.fills[k := r.result.value])
  {
  }

  /** A new fill is about the whole order, and its state says how much of it is filled, at the price of the order. */
  lemma SimulatedFillIsCoherent(behaviour: Behaviour, name: string, i: BrokerSubmitIntent, now: Time)
    requires Simulate(behaviour, name, i, now).Ok?
    ensures var f, n := Simulate(behaviour, name, i, now).value, i.ticket.Contracts();
      && f.requested == n && f.submittedAt == i.submittedAt
         && f.orderId == BrokerOrderId(OrderIdText(i.idempotencyKey), name)
      && 0 <= f.filled <= n
      && (f.lifecycle == FILLED <==> f.filled == n) && (f.lifecycle == PARTIAL_FILL <==> 0 < f.filled < n)
      && (f.lifecycle == WORKING <==> f.filled == 0)
      && (behaviour == PartiallyFills ==> f.filled == n - 1)
      && f.fillAt == (if f.filled > 0 then Some(now) else None)
      && f.completedAt == (if f.lifecycle == FILLED then Some(now) else None)
      && (f.avgPrice.Some? <==> f.filled > 0)
      && (f.filled > 0 && i.limitPrice.Some? && i.limitPrice.value != 0.0 ==> f.avgPrice == i.limitPrice)
      && (f.filled > 0 && (i.limitPrice.None? || i.limitPrice.value == 0.0) ==> f.avgPrice == Some(1.00))
  {
  }

  ghost predicate IsOpenAt(book: Book, j: nat, f: BrokerFill)
    requires j < |book.placed|
  {
    book.placed[j] in book.fills && book.fills[book.placed[j]] == f && IsOpen(f.lifecycle)
  }

  lemma {:induction false} OpenAmongIsOpen(book: Book, n: nat, f: BrokerFill)
    requires n <= |book.placed|
    ensures f in OpenAmong(book, n) <==> exists j :: 0 <= j < n && IsOpenAt(book, j, f)
  {
    if n > 0 {
      OpenAmongIsOpen(book, n - 1, f);
      if f in OpenAmong(book, n) && f !in OpenAmong(book, n - 1) { assert IsOpenAt(book, n - 1, f); }
    }
  }

  /** `get_open_orders` lists exactly the stored fills in an open state. */
  lemma OpenOrdersAreExact(book: Book, f: BrokerFill)
    requires ValidBook(book)
    ensures f in OpenOrders(book) <==> exists k :: k in book.fills && book.fills[k] == f && IsOpen(f.lifecycle)
  {
    OpenAmongIsOpen(book, |book.placed|, f);
    if exists k :: k in book.fills && book.fills[k] == f && IsOpen(f.lifecycle) {
      var k :| k in book.fills && book.fills[k] == f && IsOpen(f.lifecycle);
      assert k in book.placed;
      var j :| 0 <= j < |book.placed| && book.placed[j] == k;
      assert IsOpenAt(book, j, f);
    }
    if f in OpenOrders(book) {
      var j :| 0 <= j < |book.placed| && IsOpenAt(book, j, f);
      assert book.placed[j] in book.fills;
    }
  }

  /* ---- the local paper broker's policy ---- */

  datatype PaperBrokerConfig = PaperBrokerConfig(
    brokerMode: BrokerMode,
    submissionEnabled: bool,
    paperSubmitEnabled: bool,
    liveSubmitEnabled: bool,
    maxContracts: int,
    allowedUnderlyings: seq<Underlying>,
    limitOnly: bool,
    requireHumanConfirm: bool)
  {
    predicate Armed() { submissionEnabled && paperSubmitEnabled }
  }

  datatype PaperSubmitApproval = PaperSubmitApproval(
    orderTicketHash: string, idempotencyKey: string, approvedBy: string, approvedAt: Time, fullIntentDigest: string)

  /** Why the paper broker refuses an intent, if it does. */
  function PaperRefusal(env: Env, c: PaperBrokerConfig, i: BrokerSubmitIntent,
                        a: Option<PaperSubmitApproval>): Option<BrokerError>
  {
    var candidate := i.ticket.validatedIntent.candidate;
    if i.submitMode != PAPER then Some(LiveSubmitNotPermitted)
    else if !c.Armed() then Some(PaperSubmissionDisabled)
    else if candidate.underlying !in c.allowedUnderlyings then Some(PaperPolicyViolation(INSTRUMENT_NOT_PERMITTED))
    else if candidate.shortLeg.contracts > c.maxContracts then Some(PaperPolicyViolation(CONCENTRATION_LIMIT_EXCEEDED))
    else if c.limitOnly && i.ticket.orderType != LIMIT then Some(PaperPolicyViolation(INTERNAL_CONTRADICTION))
    else if c.requireHumanConfirm && !Confirms(env, i, a) then Some(HumanConfirmationRequired)
    else None
  }

  predicate Confirms(env: Env, i: BrokerSubmitIntent, a: Option<PaperSubmitApproval>) {
    && a.Some?
    && a.value.orderTicketHash == i.orderTicketHash
    && a.value.idempotencyKey == i.idempotencyKey
    && a.value.approvedAt >= i.submittedAt
    && a.value.fullIntentDigest == IntentDigest(env, i)
  }

  /**
   * The paper broker accepts an intent iff the policy admits it and, where demanded, the approval is for this very
   * intent.
   */
  lemma PaperAcceptsIff(env: Env, c: PaperBrokerConfig, i: BrokerSubmitIntent, a: Option<PaperSubmitApproval>)
    ensures PaperRefusal(env, c, i, a).None?
       <==> && i.submitMode == PAPER && c.submissionEnabled && c.paperSubmitEnabled
            && i.ticket.validatedIntent.candidate.underlying in c.allowedUnderlyings
            && i.ticket.Contracts() <= c.maxContracts && (i.ticket.orderType == MARKET ==> !c.limitOnly)
            && (c.requireHumanConfirm ==>
                  && a.Some? && a.value.idempotencyKey == i.idempotencyKey
                  && a.value.orderTicketHash == i.orderTicketHash && i.submittedAt <= a.value.approvedAt
                  && a.value.fullIntentDigest == env.sha(SubmitRecord(i)))
  {
  }

  function PaperSubmit(env: Env, c: PaperBrokerConfig, book: Book, behaviour: Behaviour, name: string,
                       i: BrokerSubmitIntent, a: Option<PaperSubmitApproval>, now: Time): Reply
  {
    var refusal := PaperRefusal(env, c, i, a);
    if refusal.Some? then Reply(book, Err(refusal.value)) else Submit(book, behaviour, name, i, now)
  }

  /** The configuration admits this order, apart from its human confirmation. */
  predicate WithinPolicy(c: PaperBrokerConfig, i: BrokerSubmitIntent) {
    && i.ticket.validatedIntent.candidate.underlying in c.allowedUnderlyings
    && i.ticket.Contracts() <= c.maxContracts && (c.limitOnly ==> i.ticket.orderType == LIMIT)
  }

  /**
   * The reason code under which a failed paper submit is audited says what stood in the way, in the order in which the
   * paper broker and then the broker behind it look.
   */
  lemma FailureCodeIsExact(env: Env, c: PaperBrokerConfig, book: Book, behaviour: Behaviour, name: string,
                           i: BrokerSubmitIntent, a: Option<PaperSubmitApproval>, now: Time)
    requires i.submitMode == PAPER && PaperSubmit(env, c, book, behaviour, name, i, a, now).result.Err?
    ensures var code := ReasonOf(PaperSubmit(env, c, book, behaviour, name, i, a, now).result.error);
      var t, armed := i.ticket, c.submissionEnabled && c.paperSubmitEnabled;
      var known := t.validatedIntent.candidate.underlying in c.allowedUnderlyings;
      var confirmed := c.requireHumanConfirm ==> Confirms(env, i, a);
      && (code == HUMAN_REARM_REQUIRED <==> !armed || (WithinPolicy(c, i) && !confirmed))
      && (code == INSTRUMENT_NOT_PERMITTED <==> armed && !known)
      && (code == CONCENTRATION_LIMIT_EXCEEDED <==> armed && known && t.Contracts() > c.maxContracts)
      && (code == EXECUTION_QUALITY_SUSPENDED <==>
            armed && WithinPolicy(c, i) && confirmed && behaviour == Rejects)
      && (code == PRICE_STALE <==> armed && WithinPolicy(c, i) && confirmed && behaviour == TimesOut)
      && (code == INTERNAL_CONTRADICTION <==>
            || (armed && known && t.Contracts() <= c.maxContracts && c.limitOnly && t.orderType == MARKET)
            || (armed && WithinPolicy(c, i) && confirmed && behaviour == Disconnects))
  {
    if PaperRefusal(env, c, i, a).None? { SubmitIsExact(book, behaviour, name, i, now); }
  }

  /* ---- the broker object ---- */

  class FakeBroker {
    const name: string
    const behaviour: Behaviour
    /** What an adapter answers to a cancel that its venue has carried out; the fakes answer truthfully. */
    const acknowledge: BrokerFill -> Result<BrokerFill, BrokerError>
    var placed: seq<string>
    var fills: map<string, BrokerFill>
    var index: map<string, string>

    ghost predicate Valid()
      reads this
    {
      ValidBook(TheBook())
    }

    function TheBook(): Book
      reads this
    {
      Book(placed, fills, index)
    }

    constructor (name: string, behaviour: Behaviour, acknowledge: BrokerFill -> Result<BrokerFill, BrokerError>)
      ensures Valid() && TheBook() == EmptyBook
      ensures this.name == name && this.behaviour == behaviour && this.acknowledge == acknowledge
    {
      this.name, this.behaviour, this.acknowledge := name, behaviour, acknowledge;
      placed, fills, index := [], map[], map[];
    }

    method SubmitOrder(i: BrokerSubmitIntent, now: Time) returns (result: Result<BrokerFill, BrokerError>)
      requires Valid()
      modifies this
      ensures Valid()
      ensures Reply(TheBook(), result) == Submit(old(TheBook()), behaviour, name, i, now)
    {
      SubmitKeepsBookValid(TheBook(), behaviour, name, i, now);
      var key := i.idempotencyKey;
      if i.submitMode != PAPER { return Err(LiveSubmitNotPermitted); }
      if key in fills { return Ok(fills[key]); }
      result := Simulate(behaviour, name, i, now);
      if result.Ok? {
        placed := placed + [key];
        fills := fills[key := result.value];
        index := index[result.value.orderId.value := key];
      }
    }

    method CancelOrder(id: string, now: Time) returns (result: Result<BrokerFill, BrokerError>)
      requires Valid()
      modifies this
      ensures Valid()
      ensures TheBook() == Cancel(old(TheBook()), id, now).book
      ensures var r := Cancel(old(TheBook()), id, now).result;
        result == if r.Ok? then acknowledge(r.value) else r
    {
      CancelKeepsBookValid(TheBook(), id, now);
      var current := GetOrder(TheBook(), id);
      if current.Err? { return current; }
      if !IsOpen(current.value.lifecycle) { return Err(OrderNotCancellable); }
      var cancelled := current.value.(lifecycle := CANCELLED, completedAt := Some(now));
      fills := fills[index[id] := cancelled];
      result := acknowledge(cancelled);
    }

    method GetOpenOrders() returns (open: seq<BrokerFill>)
      ensures open == OpenOrders(TheBook())
    {
      open := [];
      for j := 0 to |placed|
        invariant open == OpenAmong(TheBook(), j)
      {
        if placed[j] in fills && IsOpen(fills[placed[j]].lifecycle) { open := open + [fills[placed[j]]]; }
      }
    }
  }

  class LocalPaperBroker {
    const env: Env
    const config: PaperBrokerConfig
    const inner: FakeBroker
    /** The keys this broker has been called with, in order. */
    ghost var calls: seq<string>

    constructor (env: Env, config: PaperBrokerConfig, inner: FakeBroker)
      ensures this.env == env && this.config == config && this.inner == inner && calls == []
    {
      this.env, this.config, this.inner := env, config, inner;
      calls := [];
    }

    method SubmitOrder(i: BrokerSubmitIntent, a: Option<PaperSubmitApproval>, now: Time)
        returns (result: Result<BrokerFill, BrokerError>)
      requires inner.Valid()
      modifies this, inner
      ensures inner.Valid() && calls == old(calls) + [i.idempotencyKey]
      ensures Reply(inner.TheBook(), result)
           == PaperSubmit(env, config, old(inner.TheBook()), inner.behaviour, inner.name, i, a, now)
    {
      calls := calls + [i.idempotencyKey];
      var refusal := PaperRefusal(env, config, i, a);
      if refusal.Some? { return Err(refusal.value); }
      result := inner.SubmitOrder(i, now);
    }
  }
}
