/** Operator commands: audit, authorization, kill switch, cancel and flatten (ops/control_plane.py). */
module ControlPlane {
  import opened Wrappers
  import opened Vocabulary
  import opened Trade
  import opened Orders
  import opened AuditLog

  datatype Command =
    | STATUS
    | HALT
    | RESUME
    | FLATTEN
    | CANCEL
    | SHOW_OPEN_ORDERS
    | SHOW_POSITIONS
    | SHOW_LAST_DECISION
    | EXPORT_AUDIT

  function CommandText(c: Command): string {
    match c
    case STATUS => "status"
    case HALT => "halt-new-entries"
    case RESUME => "resume-new-entries"
    case FLATTEN => "flatten-paper-only"
    case CANCEL => "cancel-open-orders"
    case SHOW_OPEN_ORDERS => "show-open-orders"
    case SHOW_POSITIONS => "show-positions"
    case SHOW_LAST_DECISION => "show-last-decision"
    case EXPORT_AUDIT => "export-audit"
  }

  function OperatorReason(c: Command): seq<ReasonCode> {
    match c
    case HALT => [OPERATOR_HALT_COMMAND]
    case RESUME => [OPERATOR_RESUME_COMMAND]
    case CANCEL => [OPERATOR_CANCEL_COMMAND]
    case FLATTEN => [OPERATOR_FLATTEN_COMMAND]
    case _ => []
  }

  /** The id embeds the number of events in the log at the time of the command. */
  function ArtifactId(env: Env, c: Command, count: nat, now: Time): string {
    CommandText(c) + ":" + NatText(count) + ":" + env.stampText(now)
  }

  function CommandArtifact(env: Env, rows: seq<Row>, c: Command, decision: string, now: Time): Record {
    ArtifactRecord(AuditArtifact(ArtifactId(env, c, |rows|, now), now, decision, OperatorReason(c)))
  }

  /** The log after a command has written its one audit artifact. */
  function Audited(env: Env, rows: seq<Row>, c: Command, decision: string, now: Time): seq<Row> {
    Logged(env, rows, CommandArtifact(env, rows, c, decision, now), now, now)
  }

  lemma ArtifactIsCoherent(env: Env, rows: seq<Row>, c: Command, decision: string, now: Time)
    requires (decision == "REJECT" || decision == "HALT") ==> c == HALT || c == RESUME || c == CANCEL || c == FLATTEN
    ensures Coherent(env, CommandArtifact(env, rows, c, decision, now))
  {
    assert |CommandText(c)| > 0;
    assert ArtifactId(env, c, |rows|, now)[0] == CommandText(c)[0];
  }

  /* ---- artifact ids never repeat ---- */

  lemma {:induction false} NatTextHasNoColon(n: nat)
    ensures ':' !in NatText(n)
  {
    if n >= 10 { NatTextHasNoColon(n / 10); }
  }

  lemma {:induction false} SplitAtFirstColon(a: string, x: string, b: string, y: string)
    requires ':' !in a && ':' !in b && a + ":" + x == b + ":" + y
    ensures a == b && x == y
  {
    var s, t := a + ":" + x, b + ":" + y;
    if a == [] {
      assert s[0] == ':';
      assert b == [];
      assert x == s[1..] == t[1..] == y;
    } else {
      assert s[0] == a[0] && a[0] in a;
      assert t[0] == if b == [] then ':' else b[0];
      assert s[1..] == a[1..] + ":" + x && t[1..] == b[1..] + ":" + y;
      SplitAtFirstColon(a[1..], x, b[1..], y);
      assert a == [a[0]] + a[1..] && b == [b[0]] + b[1..];
    }
  }

  lemma CommandTextHasNoColon(c: Command)
    ensures ':' !in CommandText(c)
  {
  }

  /** Ids issued at different log lengths differ, whatever the clock says. */
  lemma ArtifactIdsEmbedTheCount(env: Env, c: Command, m: nat, s: Time, d: Command, n: nat, t: Time)
    requires ArtifactId(env, c, m, s) == ArtifactId(env, d, n, t)
    ensures m == n
  {
    CommandTextHasNoColon(c);
    CommandTextHasNoColon(d);
    NatTextHasNoColon(m);
    NatTextHasNoColon(n);
    var x, y := NatText(m) + ":" + env.stampText(s), NatText(n) + ":" + env.stampText(t);
    assert ArtifactId(env, c, m, s) == CommandText(c) + ":" + x;
    assert ArtifactId(env, d, n, t) == CommandText(d) + ":" + y;
    SplitAtFirstColon(CommandText(c), x, CommandText(d), y);
    SplitAtFirstColon(NatText(m), env.stampText(s), NatText(n), env.stampText(t));
    NatTextIsInjective(m, n);
  }

  /** The row was written by a control-plane command: its id embeds its own position. */
  ghost predicate IsCommandRow(env: Env, rows: seq<Row>, i: nat)
    requires i < |rows|
  {
    exists c, now :: rows[i].recordType == AUDIT_ARTIFACT && rows[i].recordId == ArtifactId(env, c, i, now)
  }

  lemma AuditedWritesCommandRow(env: Env, rows: seq<Row>, c: Command, decision: string, now: Time)
    ensures var later := Audited(env, rows, c, decision, now);
      rows <= later && |later| == |rows| + 1 && IsCommandRow(env, later, |rows|)
  {
    var later := Audited(env, rows, c, decision, now);
    assert later[|rows|].recordId == ArtifactId(env, c, |rows|, now);
  }

  /** Over every log, the artifacts of control-plane commands have pairwise distinct ids, even under a frozen clock. */
  lemma CommandIdsAreDistinct(env: Env, rows: seq<Row>, i: nat, j: nat)
    requires i < j < |rows| && IsCommandRow(env, rows, i) && IsCommandRow(env, rows, j)
    ensures rows[i].recordId != rows[j].recordId
  {
    var c, s :| rows[i].recordType == AUDIT_ARTIFACT && rows[i].recordId == ArtifactId(env, c, i, s);
    var d, t :| rows[j].recordType == AUDIT_ARTIFACT && rows[j].recordId == ArtifactId(env, d, j, t);
    if rows[i].recordId == rows[j].recordId { ArtifactIdsEmbedTheCount(env, c, i, s, d, j, t); }
  }

  /* ---- the kill switch ---- */

  function HaltState(env: Env, rows: seq<Row>, rearm: ReArmMode, note: string, now: Time): KillSwitchState {
    KillSwitchState(true, Some(OPERATOR_HALT_COMMAND), Some(rearm), ArtifactId(env, HALT, |rows|, now), now, note)
  }

  function ResumeState(env: Env, rows: seq<Row>, note: string, now: Time): KillSwitchState {
    KillSwitchState(false, None, None, ArtifactId(env, RESUME, |rows|, now), now, note)
  }

  /** Halt: one artifact and one switch state if the token is bound to this command, otherwise one rejection. */
  function AfterHalt(env: Env, rows: seq<Row>, bound: Option<Command>, rearm: ReArmMode, note: string,
                     now: Time): seq<Row>
  {
    if bound != Some(HALT) then Audited(env, rows, HALT, "REJECT", now)
    else Logged(env, Audited(env, rows, HALT, "HALT", now), KillSwitchRecord(HaltState(env, rows, rearm, note, now)),
                now, now)
  }

  function AfterResume(env: Env, rows: seq<Row>, bound: Option<Command>, note: string, now: Time): seq<Row> {
    if bound != Some(RESUME) then Audited(env, rows, RESUME, "REJECT", now)
    else Logged(env, Audited(env, rows, RESUME, "RESUME", now), KillSwitchRecord(ResumeState(env, rows, note, now)),
                now, now)
  }

  function LastOfType(rows: seq<Row>, t: RecordType): Option<Row> {
    if rows == [] then None
    else if rows[|rows| - 1].recordType == t then Some(rows[|rows| - 1])
    else LastOfType(rows[..|rows| - 1], t)
  }

  lemma LastAfterAppend(rows: seq<Row>, row: Row, t: RecordType)
    ensures LastOfType(rows + [row], t) == if row.recordType == t then Some(row) else LastOfType(rows, t)
  {
    assert (rows + [row])[..|rows|] == rows;
  }

  /** `later` extends `rows` without writing a switch state. */
  ghost predicate LeavesSwitch(rows: seq<Row>, later: seq<Row>) {
    rows <= later && forall j :: |rows| <= j < |later| ==> later[j].recordType != KILL_SWITCH_STATE
  }

  lemma AppendLeavesSwitch(rows: seq<Row>, later: seq<Row>, row: Row)
    requires LeavesSwitch(rows, later) && row.recordType != KILL_SWITCH_STATE
    ensures LeavesSwitch(rows, later + [row])
  {
  }

  lemma SwitchLeftTwice(rows: seq<Row>, mid: seq<Row>, later: seq<Row>)
    requires LeavesSwitch(rows, mid) && LeavesSwitch(mid, later)
    ensures LeavesSwitch(rows, later)
  {
    forall j | |rows| <= j < |later| ensures later[j].recordType != KILL_SWITCH_STATE {
      if j < |mid| { assert later[j] == mid[j]; }
    }
  }

  lemma {:induction false} NewestSwitchStays(rows: seq<Row>, later: seq<Row>)
    requires LeavesSwitch(rows, later)
    ensures LastOfType(later, KILL_SWITCH_STATE) == LastOfType(rows, KILL_SWITCH_STATE)
    decreases |later|
  {
    if |later| == |rows| {
      assert later == rows;
    } else {
      NewestSwitchStays(rows, later[..|later| - 1]);
    }
  }

  /** Permission for new entries survives whatever leaves the switch alone. */
  lemma PermissionStays(env: Env, rows: seq<Row>, later: seq<Row>)
    requires ValidLog(env, rows) && ValidLog(env, later) && LeavesSwitch(rows, later)
    ensures NewEntriesAllowed(env, later) == NewEntriesAllowed(env, rows)
  {
    NewestSwitchStays(rows, later);
    KillSwitchIsReadable(env, rows);
    KillSwitchIsReadable(env, later);
  }

  /** The newest switch state, rebuilt through the trusted path; `Err` stands for a raised rehydration error. */
  function CurrentKillSwitch(env: Env, rows: seq<Row>): Result<Option<KillSwitchState>, RehydrateError> {
    var last := LastOfType(rows, KILL_SWITCH_STATE);
    if last.None? then Ok(None)
    else
      match Rehydrate(env, rows, last.value)
      case Err(e) => Err(e)
      case Ok(r) => if r.KillSwitchRecord? then Ok(Some(r.state)) else Err(InvalidPayload)
  }

  predicate NewEntriesAllowed(env: Env, rows: seq<Row>) {
    var s := CurrentKillSwitch(env, rows);
    s.Ok? && (s.value.None? || !s.value.value.halted)
  }

  lemma {:induction false} LastOfTypeIsThere(rows: seq<Row>, t: RecordType)
    ensures var r := LastOfType(rows, t); r.Some? ==> r.value in rows && r.value.recordType == t
  {
    if rows != [] { LastOfTypeIsThere(rows[..|rows| - 1], t); }
  }

  /** On a valid log the switch is always readable and is the payload of the newest switch row. */
  lemma KillSwitchIsReadable(env: Env, rows: seq<Row>)
    requires ValidLog(env, rows)
    ensures var last := LastOfType(rows, KILL_SWITCH_STATE);
      && (last.Some? ==> last.value.payload.KillSwitchRecord?)
      && CurrentKillSwitch(env, rows) == if last.None? then Ok(None) else Ok(Some(last.value.payload.state))
  {
    LastOfTypeIsThere(rows, KILL_SWITCH_STATE);
    var last := LastOfType(rows, KILL_SWITCH_STATE);
    if last.Some? {
      RehydrationIsExact(env, rows, last.value);
      var i :| 0 <= i < |rows| && rows[i] == last.value;
      assert ValidRow(env, rows[i], i);
    }
  }

  /** What one append or switch command may do to the log. */
  datatype Operation =
    | Halt(bound: Option<Command>, rearm: ReArmMode, note: string, now: Time)
    | Resume(bound: Option<Command>, note: string, now: Time)
    | Write(record: Record, createdAt: Time, recordedAt: Time, key: Option<string>)

  /** A plain write is an append that the store would accept, of anything but a switch state. */
  predicate Permitted(env: Env, rows: seq<Row>, op: Operation) {
    op.Write? ==> !op.record.KillSwitchRecord? && Coherent(env, op.record)
                  && NextRow(env, rows, op.record, op.createdAt, op.recordedAt, op.key).Ok?
  }

  function AfterOperation(env: Env, rows: seq<Row>, op: Operation): seq<Row>
    requires Permitted(env, rows, op)
  {
    match op
    case Halt(bound, rearm, note, now) => AfterHalt(env, rows, bound, rearm, note, now)
    case Resume(bound, note, now) => AfterResume(env, rows, bound, note, now)
    case Write(r, createdAt, recordedAt, key) => rows + [NextRow(env, rows, r, createdAt, recordedAt, key).value]
  }

  predicate TakesEffect(op: Operation) {
    (op.Halt? && op.bound == Some(HALT)) || (op.Resume? && op.bound == Some(RESUME))
  }

  lemma LoggedKeepsValid(env: Env, rows: seq<Row>, r: Record, createdAt: Time, recordedAt: Time)
    requires ValidLog(env, rows) && Coherent(env, r)
    ensures ValidLog(env, Logged(env, rows, r, createdAt, recordedAt))
  {
    AppendKeepsLogValid(env, rows, r, createdAt, recordedAt, None);
  }

  lemma SwitchAfterWrite(env: Env, rows: seq<Row>, row: Row)
    requires ValidLog(env, rows) && ValidLog(env, rows + [row])
    ensures row.payload.KillSwitchRecord? ==> NewEntriesAllowed(env, rows + [row]) == !row.payload.state.halted
    ensures !row.payload.KillSwitchRecord? ==> NewEntriesAllowed(env, rows + [row]) == NewEntriesAllowed(env, rows)
  {
    assert (rows + [row])[|rows|] == row;
    assert ValidRow(env, row, |rows|);
    LastAfterAppend(rows, row, KILL_SWITCH_STATE);
    KillSwitchIsReadable(env, rows);
    KillSwitchIsReadable(env, rows + [row]);
  }

  /** A halt or resume moves permission exactly when its token is bound to it, and no other write moves it. */
  lemma OperationMovesSwitch(env: Env, rows: seq<Row>, op: Operation)
    requires ValidLog(env, rows) && Permitted(env, rows, op)
    ensures ValidLog(env, AfterOperation(env, rows, op))
    ensures NewEntriesAllowed(env, AfterOperation(env, rows, op)) == if TakesEffect(op) then op.Resume?
        else NewEntriesAllowed(env, rows)
  {
    match op
    case Write(r, createdAt, recordedAt, key) =>
      AppendKeepsLogValid(env, rows, r, createdAt, recordedAt, key);
      SwitchAfterWrite(env, rows, NextRow(env, rows, r, createdAt, recordedAt, key).value);
    case Halt(bound, rearm, note, now) =>
      var decision := if bound == Some(HALT) then "HALT" else "REJECT";
      ArtifactMovesNothing(env, rows, HALT, decision, now);
      if bound == Some(HALT) {
        StateDecides(env, Audited(env, rows, HALT, decision, now), HaltState(env, rows, rearm, note, now), now);
      }
    case Resume(bound, note, now) =>
      var decision := if bound == Some(RESUME) then "RESUME" else "REJECT";
      ArtifactMovesNothing(env, rows, RESUME, decision, now);
      if bound == Some(RESUME) {
        StateDecides(env, Audited(env, rows, RESUME, decision, now), ResumeState(env, rows, note, now), now);
      }
  }

  lemma ArtifactMovesNothing(env: Env, rows: seq<Row>, c: Command, decision: string, now: Time)
    requires ValidLog(env, rows)
    requires (decision == "REJECT" || decision == "HALT") ==> c == HALT || c == RESUME || c == CANCEL || c == FLATTEN
    ensures ValidLog(env, Audited(env, rows, c, decision, now))
    ensures NewEntriesAllowed(env, Audited(env, rows, c, decision, now)) == NewEntriesAllowed(env, rows)
  {
    ArtifactIsCoherent(env, rows, c, decision, now);
    LoggedKeepsValid(env, rows, CommandArtifact(env, rows, c, decision, now), now, now);
    SwitchAfterWrite(env, rows, RowFor(env, |rows| + 1, CommandArtifact(env, rows, c, decision, now), now, now, None));
  }

  lemma StateDecides(env: Env, rows: seq<Row>, state: KillSwitchState, now: Time)
    requires ValidLog(env, rows) && (state.halted <==> state.reasonCode.Some?)
        && (state.halted <==> state.rearmMode.Some?)
    requires |state.commandId| > 0
    ensures ValidLog(env, Logged(env, rows, KillSwitchRecord(state), now, now))
    ensures NewEntriesAllowed(env, Logged(env, rows, KillSwitchRecord(state), now, now)) == !state.halted
  {
    LoggedKeepsValid(env, rows, KillSwitchRecord(state), now, now);
    SwitchAfterWrite(env, rows, RowFor(env, |rows| + 1, KillSwitchRecord(state), now, now, None));
  }
}
