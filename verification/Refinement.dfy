/** The code's own operations, run from start to end by one process of a busy world, are schedules of the protocol. */
module Refinement {
  import opened Wrappers
  import opened Vocabulary
  import opened Trade
  import opened Gateway
  import opened Orders
  import opened AuditLog
  import opened Brokers
  import opened PaperCycle
  import opened CycleProperties
  import opened Protocol

  /** Some schedule leads from one world to the other, and no crash in it forgets an answer of the broker. */
  ghost predicate Reaches(env: Env, w: World, w': World) {
    exists schedule :: Run(env, w, schedule) == Some(w') && Lost(env, w, schedule) == {}
  }

  lemma {:induction false} RunsCompose(env: Env, w: World, first: seq<Action>, second: seq<Action>)
    requires Run(env, w, first).Some? && Lost(env, w, first) == {}
    ensures Run(env, w, first + second) == Run(env, Run(env, w, first).value, second)
    ensures Lost(env, w, first + second) == Lost(env, Run(env, w, first).value, second)
    decreases |first|
  {
    if first == [] {
      assert first + second == second;
    } else {
      assert (first + second)[0] == first[0] && (first + second)[1..] == first[1..] + second;
      RunsCompose(env, Apply(env, w, first[0]).value, first[1..], second);
    }
  }

  lemma ReachesComposes(env: Env, a: World, b: World, c: World)
    requires Reaches(env, a, b) && Reaches(env, b, c)
    ensures Reaches(env, a, c)
  {
    var first :| Run(env, a, first) == Some(b) && Lost(env, a, first) == {};
    var second :| Run(env, b, second) == Some(c) && Lost(env, b, second) == {};
    RunsCompose(env, a, first, second);
    assert Run(env, a, first + second) == Some(c);
  }

  lemma StepReaches(env: Env, w: World, a: Action)
    requires Apply(env, w, a).Some? && Loses(w, a) == {}
    ensures Reaches(env, w, Apply(env, w, a).value)
  {
    var w' := Apply(env, w, a).value;
    assert [a][1..] == [];
    assert Run(env, w', []) == Some(w') && Lost(env, w', []) == {};
    assert Run(env, w, [a]) == Some(w') && Lost(env, w, [a]) == {};
  }

  lemma StayingReaches(env: Env, w: World)
    ensures Reaches(env, w, w)
  {
    assert Run(env, w, []) == Some(w) && Lost(env, w, []) == {};
  }

  /**
   * Some schedule takes the world to this log, broker and call record, with every process back in the phase it was in.
   */
  ghost predicate Does(env: Env, w: World, rows: seq<Row>, book: Book, calls: multiset<string>) {
    Reaches(env, w, World(rows, book, w.phases, calls))
  }

  lemma NoteDoes(env: Env, w: World, r: Record, createdAt: Time, recordedAt: Time)
    requires Coherent(env, r) && !r.SubmitRecord? && !r.ReportRecord?
    ensures Reaches(env, w, w.(rows := Logged(env, w.rows, r, createdAt, recordedAt)))
    ensures Does(env, w, Logged(env, w.rows, r, createdAt, recordedAt), w.book, w.calls)
  {
    var rows := Logged(env, w.rows, r, createdAt, recordedAt);
    StepReaches(env, w, Note(r, createdAt, recordedAt));
    assert w.(rows := rows) == World(rows, w.book, w.phases, w.calls);
  }

  lemma DoesAfter(env: Env, w: World, mid: World, rows: seq<Row>, book: Book, calls: multiset<string>)
    requires Reaches(env, w, mid) && mid.phases == w.phases && Does(env, mid, rows, book, calls)
    ensures Does(env, w, rows, book, calls)
  {
    ReachesComposes(env, w, mid, World(rows, book, mid.phases, calls));
  }

  ghost predicate IsIdle(w: World, pid: nat) { pid in w.phases && w.phases[pid].Idle? }

  lemma BackToIdle(w: World, pid: nat, phase: Phase)
    requires IsIdle(w, pid)
    ensures w.Now(pid, phase).Now(pid, Idle) == w
  {
    assert w.phases[pid := phase][pid := Idle] == w.phases;
  }

  /* ---- the paper cycle ---- */

  /** The item's view of log, broker and calls is the world's. */
  ghost predicate Shows(s: ItemResult, w: World) {
    s.rows == w.rows && s.book == w.book && multiset(s.called) == w.calls
  }

  function NextPhase(i: BrokerSubmitIntent, reply: Reply): Phase {
    if reply.result.Ok? then Answered(i, reply.result.value) else Idle
  }

  /** Persist the attempt, then call the broker. */
  lemma AttemptReaches(su: Setup, w: World, pid: nat, ordinal: nat, i: BrokerSubmitIntent, a: PaperSubmitApproval)
    requires IsIdle(w, pid) && IntentCoherent(su.env, i) && !KeyTaken(w.rows, i.idempotencyKey)
    ensures var reply := PaperSubmit(su.env, su.paper, w.book, su.behaviour, su.brokerName, i, Some(a),
                                     su.clock(ordinal));
      Reaches(su.env, w, World(w.rows + [SubmitRow(su.env, w.rows, i, su.recordedAt)], reply.book, w.phases,
                               w.calls + multiset{i.idempotencyKey})
                           .Now(pid, NextPhase(i, reply)))
  {
    var reply := PaperSubmit(su.env, su.paper, w.book, su.behaviour, su.brokerName, i, Some(a), su.clock(ordinal));
    var rows := w.rows + [SubmitRow(su.env, w.rows, i, su.recordedAt)];
    var persisted := w.(rows := rows).Now(pid, Attempted(i));
    assert Persisted(su.env, w, pid, i, su.recordedAt) == Some(persisted);
    StepReaches(su.env, w, Persist(pid, i, su.recordedAt));
    StepReaches(su.env, persisted, Call(pid, su.paper, su.behaviour, su.brokerName, Some(a), su.clock(ordinal)));
    var called := World(rows, reply.book, w.phases, w.calls + multiset{i.idempotencyKey});
    LastPhaseCounts(called, pid, Attempted(i), NextPhase(i, reply));
    ReachesComposes(su.env, w, persisted, called.Now(pid, NextPhase(i, reply)));
  }

  lemma AfterReplyDoes(su: Setup, w: World, pid: nat, called: World, s: ItemResult, ordinal: nat, i: BrokerSubmitIntent,
                       reply: Reply)
    requires IsIdle(w, pid) && called.phases == w.phases && Shows(s, called) && s.book == reply.book
    requires Reaches(su.env, w, called.Now(pid, NextPhase(i, reply)))
    ensures var r := AfterReply(su, s, ordinal, i, reply.result); Does(su.env, w, r.rows, r.book, multiset(r.called))
  {
    BackToIdle(called, pid, Idle);
    match reply.result
    case Err(e) =>
      var note := CycleArtifact(su, "submitfail", ordinal, "REJECT", ReasonOf(e));
      assert called.Now(pid, Idle) == called by { assert called.phases[pid := Idle] == called.phases; }
      CycleArtifactIsCoherent(su, "submitfail", ordinal, "REJECT", ReasonOf(e));
      NoteDoes(su.env, called, note, su.recordedAt, su.recordedAt);
      DoesAfter(su.env, w, called, Logged(su.env, called.rows, note, su.recordedAt, su.recordedAt), called.book,
                called.calls);
    case Ok(fill) => AnswerDoes(su, w, pid, called, i, fill);
  }

  lemma AnswerDoes(su: Setup, w: World, pid: nat, called: World, i: BrokerSubmitIntent, fill: BrokerFill)
    requires IsIdle(w, pid) && called.phases == w.phases && Reaches(su.env, w, called.Now(pid, Answered(i, fill)))
    ensures var report := ReportOf(i, fill);
      Does(su.env, w, if report.Err? then called.rows
                      else Logged(su.env, called.rows, ReportRecord(report.value), report.value.EventTime(),
                                  su.recordedAt), called.book, called.calls)
  {
    var report := ReportOf(i, fill);
    var rows := if report.Err? then called.rows
                else Logged(su.env, called.rows, ReportRecord(report.value), report.value.EventTime(), su.recordedAt);
    var answered, end := called.Now(pid, Answered(i, fill)), called.(rows := rows);
    BackToIdle(end, pid, Answered(i, fill));
    assert Reported(su.env, answered, pid, su.recordedAt) == Some(end);
    StepReaches(su.env, answered, PersistReport(pid, su.recordedAt));
    ReachesComposes(su.env, w, answered, end);
    assert end == World(rows, called.book, w.phases, called.calls);
  }

  lemma SubmitDoes(su: Setup, w: World, pid: nat, s: ItemResult, ordinal: nat, i: BrokerSubmitIntent,
                   a: PaperSubmitApproval)
    requires IsIdle(w, pid) && Shows(s, w) && IntentCoherent(su.env, i)
    ensures var r := SubmitAndReport(su, s, ordinal, i, a); Does(su.env, w, r.rows, r.book, multiset(r.called))
  {
    if KeyTaken(s.rows, i.idempotencyKey) {
      CycleArtifactIsCoherent(su, "dupe", ordinal, "PAPER_SUBMIT_DUPLICATE_SKIPPED", INTERNAL_CONTRADICTION);
      NoteDoes(su.env, w, CycleArtifact(su, "dupe", ordinal, "PAPER_SUBMIT_DUPLICATE_SKIPPED", INTERNAL_CONTRADICTION),
               su.recordedAt, su.recordedAt);
    } else {
      var reply := BrokerReply(su, s.book, ordinal, i, a);
      var rows := w.rows + [SubmitRow(su.env, w.rows, i, su.recordedAt)];
      var called := World(rows, reply.book, w.phases, w.calls + multiset{i.idempotencyKey});
      var after := Attempt(su, s, i, reply);
      AttemptReaches(su, w, pid, ordinal, i, a);
      AfterReplyDoes(su, w, pid, called, after, ordinal, i, reply);
      FreshAttempt(su, s, ordinal, i, a);
    }
  }

  /** Whatever a process does after noting a record, it does after a step of the protocol. */
  lemma NoteThenDoes(env: Env, w: World, r: Record, createdAt: Time, recordedAt: Time, rows: seq<Row>, book: Book,
                     calls: multiset<string>)
    requires Coherent(env, r) && !r.SubmitRecord? && !r.ReportRecord?
    requires Does(env, w.(rows := Logged(env, w.rows, r, createdAt, recordedAt)), rows, book, calls)
    ensures Does(env, w, rows, book, calls)
  {
    NoteDoes(env, w, r, createdAt, recordedAt);
    DoesAfter(env, w, w.(rows := Logged(env, w.rows, r, createdAt, recordedAt)), rows, book, calls);
  }

  lemma StayingDoes(env: Env, w: World)
    ensures Does(env, w, w.rows, w.book, w.calls)
  {
    StayingReaches(env, w);
    assert World(w.rows, w.book, w.phases, w.calls) == w;
  }

  lemma TicketDoes(su: Setup, w: World, pid: nat, s: ItemResult, ordinal: nat, item: PaperSubmitRequest, t: OrderTicket)
    requires IsIdle(w, pid) && Shows(s, w) && t.Coherent()
    ensures var r := FromTicket(su, s, ordinal, item, t); Does(su.env, w, r.rows, r.book, multiset(r.called))
  {
    var noted := Noted(su, s, TicketRecord(t), t.createdAt);
    var w1 := w.(rows := noted.rows);
    var r := FromTicket(su, s, ordinal, item, t);
    assert Does(su.env, w1, r.rows, r.book, multiset(r.called)) by {
      PastTicketDoes(su, w1, pid, noted, ordinal, item, t, r);
    }
    NoteThenDoes(su.env, w, TicketRecord(t), t.createdAt, su.recordedAt, r.rows, r.book, multiset(r.called));
  }

  lemma IntentDoes(su: Setup, w: World, pid: nat, s: ItemResult, ordinal: nat, i: BrokerSubmitIntent)
    requires IsIdle(w, pid) && Shows(s, w) && IntentCoherent(su.env, i)
    ensures var r := FromIntent(su, s, ordinal, i); Does(su.env, w, r.rows, r.book, multiset(r.called))
  {
    var a := if su.confirmer.Some? then su.confirmer.value(i) else None;
    if a.None? {
      CycleArtifactIsCoherent(su, "noconfirm", ordinal, "PAPER_SUBMIT_DEFERRED", HUMAN_REARM_REQUIRED);
      NoteDoes(su.env, w, CycleArtifact(su, "noconfirm", ordinal, "PAPER_SUBMIT_DEFERRED", HUMAN_REARM_REQUIRED),
               su.recordedAt, su.recordedAt);
    } else {
      SubmitDoes(su, w, pid, s, ordinal, i, a.value);
    }
  }

  lemma PastTicketDoes(su: Setup, w: World, pid: nat, noted: ItemResult, ordinal: nat, item: PaperSubmitRequest,
                       t: OrderTicket, r: ItemResult)
    requires IsIdle(w, pid) && Shows(noted, w)
    requires exists s :: noted == Noted(su, s, TicketRecord(t), t.createdAt) && r == FromTicket(su, s, ordinal, item, t)
    ensures Does(su.env, w, r.rows, r.book, multiset(r.called))
  {
    CycleArtifactIsCoherent(su, "noprice", ordinal, "PAPER_SUBMIT_DEFERRED", PRICE_STALE);
    if t.orderType == LIMIT && item.limitPrice.None? {
      NoteDoes(su.env, w, CycleArtifact(su, "noprice", ordinal, "PAPER_SUBMIT_DEFERRED", PRICE_STALE), su.recordedAt,
               su.recordedAt);
    } else {
      var i := MintSubmitIntent(su.env, t, su.attempt, PAPER, if t.orderType == LIMIT then item.limitPrice else None,
                                item.request.asOf);
      if i.Err? {
        StayingDoes(su.env, w);
      } else {
        IntentDoes(su, w, pid, noted, ordinal, i.value);
      }
    }
  }

  lemma DecisionDoes(su: Setup, w: World, pid: nat, s: ItemResult, ordinal: nat, item: PaperSubmitRequest,
                     d: GatewayDecision)
    requires IsIdle(w, pid) && Shows(s, w) && SoundDecision(item.request, d)
    ensures var r := FromDecision(su, s, ordinal, item, d); Does(su.env, w, r.rows, r.book, multiset(r.called))
  {
    match d
    case Refused(artifact) => NoteDoes(su.env, w, ArtifactRecord(artifact), artifact.createdAt, su.recordedAt);
    case Approved(v) =>
      var noted := Noted(su, s, ValidatedRecord(v), item.request.asOf);
      var w1 := w.(rows := noted.rows);
      var t := MintOrderTicket(v, su.routing, item.request.asOf);
      var r := FromDecision(su, s, ordinal, item, d);
      if t.Ok? { TicketDoes(su, w1, pid, noted, ordinal, item, t.value); } else { StayingDoes(su.env, w1); }
      NoteThenDoes(su.env, w, ValidatedRecord(v), item.request.asOf, su.recordedAt, r.rows, r.book, multiset(r.called));
  }

  lemma ItemDoes(su: Setup, w: World, pid: nat, called: seq<string>, ordinal: nat, item: PaperSubmitRequest)
    requires UsesGateway(su) && IsIdle(w, pid) && w.calls == multiset(called)
    ensures var r := RunItem(su, w.rows, w.book, called, ordinal, item);
      Does(su.env, w, r.rows, r.book, multiset(r.called))
  {
    var s := Noted(su, ItemResult(w.rows, w.book, called, [], Submitted), RequestRecord(item.request),
                   item.request.asOf);
    var d := su.decide(item.request);
    assert SoundDecision(item.request, d) by {
      assert d == Decide(su.env, item.request);
      GatewayIsExact(su.env, item.request);
    }
    var r := FromDecision(su, s, ordinal, item, d);
    DecisionDoes(su, w.(rows := s.rows), pid, s, ordinal, item, d);
    NoteThenDoes(su.env, w, RequestRecord(item.request), item.request.asOf, su.recordedAt, r.rows, r.book,
                 multiset(r.called));
  }

  ghost predicate StepDoes(env: Env, step: Step, pid: nat, count: nat) {
    forall w: World, called: seq<string>, n: nat :: n < count && IsIdle(w, pid) && w.calls == multiset(called) ==>
      var r := step(w.rows, w.book, called, n); Does(env, w, r.rows, r.book, multiset(r.called))
  }

  lemma ItemStepDoes(su: Setup, pid: nat, items: seq<PaperSubmitRequest>)
    requires UsesGateway(su)
    ensures StepDoes(su.env, ItemStep(su, items), pid, |items|)
  {
    var step := ItemStep(su, items);
    forall w: World, called: seq<string>, n: nat | n < |items| && IsIdle(w, pid) && w.calls == multiset(called)
      ensures var r := step(w.rows, w.book, called, n); Does(su.env, w, r.rows, r.book, multiset(r.called))
    {
      ItemDoes(su, w, pid, called, n, items[n]);
    }
  }

  lemma {:induction false} LoopDoes(env: Env, step: Step, w: World, pid: nat, start: CycleState, n: nat)
    requires StepDoes(env, step, pid, n) && IsIdle(w, pid)
        && Does(env, w, start.rows, start.book, multiset(start.called))
    ensures var s := Loop(step, start, n); Does(env, w, s.rows, s.book, multiset(s.called))
  {
    if n > 0 {
      LoopDoes(env, step, w, pid, start, n - 1);
      var s := Loop(step, start, n - 1);
      if s.error.None? {
        var mid := World(s.rows, s.book, w.phases, multiset(s.called));
        var r := step(s.rows, s.book, s.called, n - 1);
        assert IsIdle(mid, pid) && Does(env, mid, r.rows, r.book, multiset(r.called));
        DoesAfter(env, w, mid, r.rows, r.book, multiset(r.called));
      }
    }
  }

  /**
   * A whole paper cycle, from any state with other processes midway, is a schedule with exactly the cycle's broker
   * calls.
   */
  lemma CycleIsASchedule(su: Setup, w: World, pid: nat, called: seq<string>, items: seq<PaperSubmitRequest>)
    requires UsesGateway(su) && IsIdle(w, pid) && w.calls == multiset(called)
    ensures var s := Cycle(su, w.rows, w.book, called, items); Does(su.env, w, s.rows, s.book, multiset(s.called))
  {
    ItemStepDoes(su, pid, items);
    CycleArtifactIsCoherent(su, "", 0, "", PRICE_STALE);
    NoteDoes(su.env, w, StartArtifact(su), su.recordedAt, su.recordedAt);
    LoopDoes(su.env, ItemStep(su, items), w, pid, Started(su, w.rows, w.book, called), |items|);
  }
}
