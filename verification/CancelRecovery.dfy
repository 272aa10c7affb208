/**
 * What a cancel means in every reachable state: there the keys it takes out of recovery are exactly the broker's own
 * keys of its open orders, and an order the command did not close is still listed (ops/control_plane.py).
 */
module CancelRecovery {
  import opened Wrappers
  import opened Vocabulary
  import opened Trade
  import opened AuditLog
  import opened Brokers
  import opened ControlPlane
  import opened Cancellation
  import opened Protocol

  /* ---- the broker lists every open order once ---- */

  lemma {:induction false} OpenIdsDiffer(book: Book, n: nat, i: nat, j: nat)
    requires ValidBook(book) && n <= |book.placed| && i < j < |OpenAmong(book, n)|
    ensures OpenAmong(book, n)[i].orderId.value != OpenAmong(book, n)[j].orderId.value
  {
    var before, open := OpenAmong(book, n - 1), OpenAmong(book, n);
    if j < |before| {
      OpenIdsDiffer(book, n - 1, i, j);
    } else {
      assert open[i] == before[i] && before[i] in before;
      OpenAmongIsOpen(book, n - 1, before[i]);
      var m :| 0 <= m < n - 1 && IsOpenAt(book, m, before[i]);
      if OrderIdText(book.placed[m]) == OrderIdText(book.placed[n - 1]) {
        OrderIdsAreInjective(book.placed[m], book.placed[n - 1]);
      }
    }
  }

  /* ---- authenticated orders carry the broker's own keys ---- */

  /** The `j`-th order of the queue is the broker's open order under the key of its authenticated intent. */
  ghost predicate Owns(book: Book, queue: seq<Identified>, j: nat)
    requires j < |queue|
  {
    var k := queue[j].intent.idempotencyKey;
    OpenAtBroker(book, k) && book.fills[k] == queue[j].fill && queue[j].fill.orderId.value == OrderIdText(k)
  }

  lemma ListedOrderIsOwned(env: Env, w: World, queue: seq<Identified>, j: nat)
    requires LogInv(env, w) && BookInv(w) && Resolved(env, w.rows, w.book) == Ok(queue) && j < |queue|
    ensures |queue| == |OpenOrders(w.book)| && queue[j].fill == OpenOrders(w.book)[j] && Owns(w.book, queue, j)
  {
    var open, resolve := OpenOrders(w.book), ResolverFor(env, w.rows);
    ResolveAllFacts(resolve, open, |open|);
    assert resolve(open[j]) == Resolve(env, w.rows, open[j]);
    AuthenticatedOrdersMatch(env, w, open[j]);
    OwnedByItsId(w.book, open[j], queue[j].intent.idempotencyKey);
  }

  lemma OwnedByItsId(book: Book, fill: BrokerFill, k: string)
    requires ValidBook(book) && fill in OpenOrders(book) && fill.orderId.value == OrderIdText(k)
    ensures OpenAtBroker(book, k) && book.fills[k] == fill
  {
    OpenOrdersAreExact(book, fill);
    var k' :| k' in book.fills && book.fills[k'] == fill && IsOpen(fill.lifecycle);
    OrderIdsAreInjective(k', k);
  }

  /** The queue holds the broker's own keys of its open orders, each exactly once. */
  ghost predicate QueueIsOpenBook(book: Book, queue: seq<Identified>) {
    && (forall j :: 0 <= j < |queue| ==> Owns(book, queue, j))
    && (forall k :: OpenAtBroker(book, k) <==> k in KeysOf(queue))
    && (forall i, j :: 0 <= i < j < |queue| ==> queue[i].intent.idempotencyKey != queue[j].intent.idempotencyKey)
  }

  lemma ResolvedIsOpenBook(env: Env, w: World, queue: seq<Identified>)
    requires LogInv(env, w) && BookInv(w) && Resolved(env, w.rows, w.book) == Ok(queue)
    ensures QueueIsOpenBook(w.book, queue)
  {
    var open := OpenOrders(w.book);
    ResolveAllFacts(ResolverFor(env, w.rows), open, |open|);
    forall j | 0 <= j < |queue| ensures Owns(w.book, queue, j) { ListedOrderIsOwned(env, w, queue, j); }
    forall k ensures OpenAtBroker(w.book, k) <==> k in KeysOf(queue) { KeysAreOpen(env, w, queue, k); }
    forall i, j | 0 <= i < j < |queue| ensures queue[i].intent.idempotencyKey != queue[j].intent.idempotencyKey {
      ListedOrderIsOwned(env, w, queue, i);
      ListedOrderIsOwned(env, w, queue, j);
      OpenIdsDiffer(w.book, |w.book.placed|, i, j);
    }
  }

  lemma KeysAreOpen(env: Env, w: World, queue: seq<Identified>, k: string)
    requires LogInv(env, w) && BookInv(w) && Resolved(env, w.rows, w.book) == Ok(queue)
    ensures OpenAtBroker(w.book, k) <==> k in KeysOf(queue)
  {
    if k in KeysOf(queue) {
      var j :| 0 <= j < |queue| && queue[j].intent.idempotencyKey == k;
      ListedOrderIsOwned(env, w, queue, j);
    }
    if OpenAtBroker(w.book, k) {
      OpenIsListed(w.book, k);
      var ids := FillIds(OpenOrders(w.book));
      var j :| 0 <= j < |ids| && ids[j] == OrderIdText(k);
      ResolveAllFacts(ResolverFor(env, w.rows), OpenOrders(w.book), |OpenOrders(w.book)|);
      ListedOrderIsOwned(env, w, queue, j);
      OrderIdsAreInjective(k, queue[j].intent.idempotencyKey);
      assert queue[j] in queue;
    }
  }

  /* ---- success ---- */

  /**
   * Cancel success in every reachable state: recovery afterwards is recovery before minus the keys of the orders that
   * the broker held open, and the broker holds none open any more.
   */
  lemma CancelResolvesOpenOrders(env: Env, schedule: seq<Action>, w: World, ack: Acknowledge, bound: Option<Command>,
                                 hasBroker: bool, clock: nat -> Time, now: Time, k: string)
    requires Run(env, Genesis, schedule) == Some(w)
    requires CancelOpenOrders(env, w.rows, w.book, ack, bound, hasBroker, clock, now).result.Ok?
    ensures var out := CancelOpenOrders(env, w.rows, w.book, ack, bound, hasBroker, clock, now);
      && (Unresolved(out.rows, k) <==> Unresolved(w.rows, k) && !OpenAtBroker(w.book, k))
      && OpenOrders(out.book) == []
  {
    RunKeepsInv(env, Genesis, schedule);
    CancelSucceeds(env, w.rows, w.book, ack, bound, hasBroker, clock, now);
    var queue := Resolved(env, w.rows, w.book).value;
    ResolvedIsOpenBook(env, w, queue);
    var out := CancelOpenOrders(env, w.rows, w.book, ack, bound, hasBroker, clock, now);
    ClosingAllResolvesOpen(w.rows, w.book, queue, out.rows, k);
  }

  lemma ClosingAllResolvesOpen(rows: seq<Row>, book: Book, queue: seq<Identified>, later: seq<Row>, k: string)
    requires QueueIsOpenBook(book, queue) && ClosedPrefix(rows, later, queue, |queue|)
    ensures Unresolved(later, k) <==> Unresolved(rows, k) && !OpenAtBroker(book, k)
  {
    assert queue[..|queue|] == queue;
  }

  /* ---- failure ---- */

  lemma OpenIsUnresolved(env: Env, w: World, k: string)
    requires LogInv(env, w) && CallInv(w) && BookInv(w) && OpenAtBroker(w.book, k)
    ensures Unresolved(w.rows, k)
  {
    TakenIsSubmitted(env, w, k);
  }

  lemma {:induction false} NotAmong(ids: seq<string>, n: nat, id: string)
    requires n <= |ids| && forall i :: 0 <= i < n ==> ids[i] != id
    ensures id !in Among(ids, n)
  {
    if n > 0 { NotAmong(ids, n - 1, id); }
  }

  /** Neither the key nor the order id of a later order occurs among the earlier ones. */
  lemma LaterOrderIsAnother(book: Book, queue: seq<Identified>, n: nat, j: nat)
    requires QueueIsOpenBook(book, queue) && n <= j < |queue|
    ensures queue[j].intent.idempotencyKey !in KeysOf(queue[..n])
    ensures OrderIdText(queue[j].intent.idempotencyKey) !in Among(IdsOf(queue), n)
  {
    var k, ids := queue[j].intent.idempotencyKey, IdsOf(queue);
    forall i | 0 <= i < n ensures queue[..n][i].intent.idempotencyKey != k && ids[i] != OrderIdText(k) {
      assert Owns(book, queue, i);
      assert OrderIdText(k)[5..] == k && ids[i][5..] == queue[i].intent.idempotencyKey;
    }
    NotAmong(ids, n, OrderIdText(k));
  }

  /**
   * Order `j`, at or after the one that failed: recovery lists it, and behind the failing one the broker has not
   * touched it.
   */
  ghost predicate Stands(w: World, queue: seq<Identified>, n: nat, out: CancelOutcome, j: nat)
    requires j < |queue|
  {
    var k := queue[j].intent.idempotencyKey;
    && Unresolved(out.rows, k)
    && (n < j ==> k in out.book.fills && k in w.book.fills && out.book.fills[k] == w.book.fills[k])
  }

  lemma LaterOrderIsListed(env: Env, w: World, queue: seq<Identified>, n: nat, later: seq<Row>, j: nat)
    requires LogInv(env, w) && CallInv(w) && BookInv(w) && QueueIsOpenBook(w.book, queue)
    requires n <= j < |queue| && ClosedPrefix(w.rows, later, queue, n)
    ensures Unresolved(later, queue[j].intent.idempotencyKey)
  {
    var k := queue[j].intent.idempotencyKey;
    assert Owns(w.book, queue, j);
    OpenIsUnresolved(env, w, k);
    LaterOrderIsAnother(w.book, queue, n, j);
  }

  lemma OutsideIsUntouched(before: Book, ids: seq<string>, n: nat, book: Book, k: string)
    requires ValidBook(before) && StoppedAt(before, ids, n, book) && k in before.fills
        && OrderIdText(k) !in Among(ids, n + 1)
    ensures k in book.fills && book.fills[k] == before.fills[k]
  {
    assert k in before.placed;
    assert k in book.placed;
  }

  /** The orders before `n` are closed; the one at `n` and all later ones stand. */
  ghost predicate ClosedUpTo(env: Env, w: World, queue: seq<Identified>, n: nat, out: CancelOutcome) {
    FailedAt(env, w.rows, w.book, queue, n, out) && forall j :: n <= j < |queue| ==> Stands(w, queue, n, out, j)
  }

  lemma FailureLeavesRest(env: Env, w: World, queue: seq<Identified>, n: nat, out: CancelOutcome)
    requires LogInv(env, w) && CallInv(w) && BookInv(w) && QueueIsOpenBook(w.book, queue)
    requires FailedAt(env, w.rows, w.book, queue, n, out)
    ensures ClosedUpTo(env, w, queue, n, out)
  {
    forall j | n <= j < |queue| ensures Stands(w, queue, n, out, j) {
      LaterOrderIsListed(env, w, queue, n, out.rows, j);
      if n < j {
        assert Owns(w.book, queue, j);
        LaterOrderIsAnother(w.book, queue, n + 1, j);
        OutsideIsUntouched(w.book, IdsOf(queue), n, out.book, queue[j].intent.idempotencyKey);
      }
    }
  }

  /**
   * Cancel failure in every reachable state: either the broker is untouched and recovery as it was, or the command
   * stopped at some order. Then the earlier orders are closed and out of recovery, the failing one is still listed
   * although the broker may have cancelled it, and every later one is listed and untouched at the broker.
   */
  lemma FailedCancelKeepsRest(env: Env, schedule: seq<Action>, w: World, ack: Acknowledge, bound: Option<Command>,
                              hasBroker: bool, clock: nat -> Time, now: Time)
    requires Run(env, Genesis, schedule) == Some(w)
    requires CancelOpenOrders(env, w.rows, w.book, ack, bound, hasBroker, clock, now).result.Err?
    ensures var out := CancelOpenOrders(env, w.rows, w.book, ack, bound, hasBroker, clock, now);
      if bound != Some(CANCEL) || !hasBroker || Resolved(env, w.rows, w.book).Err? then
        out.book == w.book && forall k :: Unresolved(out.rows, k) <==> Unresolved(w.rows, k)
      else
        var queue := Resolved(env, w.rows, w.book).value;
        QueueIsOpenBook(w.book, queue) && exists n :: ClosedUpTo(env, w, queue, n, out)
  {
    RunKeepsInv(env, Genesis, schedule);
    CancelFails(env, w.rows, w.book, ack, bound, hasBroker, clock, now);
    var out := CancelOpenOrders(env, w.rows, w.book, ack, bound, hasBroker, clock, now);
    if bound == Some(CANCEL) && hasBroker && Resolved(env, w.rows, w.book).Ok? {
      var queue := Resolved(env, w.rows, w.book).value;
      ResolvedIsOpenBook(env, w, queue);
      var n :| FailedAt(env, w.rows, w.book, queue, n, out);
      FailureLeavesRest(env, w, queue, n, out);
    } else {
      assert forall k :: k !in KeysOf([]);
    }
  }
}
