/**
 * The append-only audit store (storage/base.py, storage/models.py, storage/sqlite_store.py): a table of rows with a
 * unique idempotency key on submit attempts, provenance-checked rehydration, and the restart-recovery scan.
 */
module AuditLog {
  import opened Wrappers
  import opened Vocabulary
  import opened Trade

  datatype RecordType =
    | GATEWAY_REQUEST
    | GATEWAY_DECISION
    | VALIDATED_TRADE_INTENT
    | ORDER_TICKET
    | BROKER_SUBMIT_INTENT
    | EXECUTION_REPORT
    | KILL_SWITCH_STATE
    | AUDIT_ARTIFACT

  function TypeOf(r: Record): RecordType {
    match r
    case RequestRecord(_) => GATEWAY_REQUEST
    case ValidatedRecord(_) => VALIDATED_TRADE_INTENT
    case TicketRecord(_) => ORDER_TICKET
    case SubmitRecord(_) => BROKER_SUBMIT_INTENT
    case ReportRecord(_) => EXECUTION_REPORT
    case KillSwitchRecord(_) => KILL_SWITCH_STATE
    case ArtifactRecord(_) => AUDIT_ARTIFACT
  }

  function ContentId(env: Env, r: Record): string {
    var d := env.sha(r);
    if |d| <= 32 then d else d[..32]
  }

  /** The logical id that chains related rows; submit attempts and their reports share the idempotency key. */
  function RecordId(env: Env, r: Record): string {
    match r
    case SubmitRecord(i) => i.idempotencyKey
    case ReportRecord(e) => e.idempotencyKey
    case ArtifactRecord(a) => a.artifactId
    case TicketRecord(t) => if TicketHash(env, t) != "" then TicketHash(env, t) else ContentId(env, r)
    case _ => ContentId(env, r)
  }

  function TicketHashOf(env: Env, r: Record): Option<string> {
    match r
    case SubmitRecord(i) => Some(i.orderTicketHash)
    case ReportRecord(e) => Some(e.orderTicketHash)
    case TicketRecord(t) => Some(TicketHash(env, t))
    case _ => None
  }

  datatype Row = Row(
    seqNo: nat,
    recordType: RecordType,
    recordId: string,
    idempotencyKey: Option<string>,
    orderTicketHash: Option<string>,
    createdAt: Time,
    recordedAt: Time,
    payload: Record,
    payloadSha: string
  )

  datatype StoreError = DuplicateIdempotencyKey | KeyReservedForSubmits

  datatype RehydrateError = UnverifiedProvenance | PayloadIntegrity | Unrehydratable | InvalidPayload

  function RowFor(env: Env, seqNo: nat, r: Record, createdAt: Time, recordedAt: Time, key: Option<string>): Row {
    Row(seqNo, TypeOf(r), RecordId(env, r), key, TicketHashOf(env, r), createdAt, recordedAt, r, env.sha(r))
  }

  predicate KeyTaken(rows: seq<Row>, key: string) {
    exists i :: 0 <= i < |rows| && rows[i].idempotencyKey == Some(key)
  }

  /** The row an append would add; the partial unique index and the reserved key namespace can refuse it. */
  function NextRow(env: Env, rows: seq<Row>, r: Record, createdAt: Time, recordedAt: Time, key: Option<string>)
      : Result<Row, StoreError>
  {
    if key.Some? && TypeOf(r) != BROKER_SUBMIT_INTENT then Err(KeyReservedForSubmits)
    else if key.Some? && KeyTaken(rows, key.value) then Err(DuplicateIdempotencyKey)
    else Ok(RowFor(env, |rows| + 1, r, createdAt, recordedAt, key))
  }

  /** The log after a record without a key has been appended. */
  function Logged(env: Env, rows: seq<Row>, r: Record, createdAt: Time, recordedAt: Time): seq<Row> {
    rows + [RowFor(env, |rows| + 1, r, createdAt, recordedAt, None)]
  }

  function SubmitRow(env: Env, rows: seq<Row>, i: BrokerSubmitIntent, recordedAt: Time): Row {
    RowFor(env, |rows| + 1, SubmitRecord(i), i.submittedAt, recordedAt, Some(i.idempotencyKey))
  }

  /** Rows as the store writes them: numbered from one, derived from their payload, keys unique. */
  ghost predicate ValidLog(env: Env, rows: seq<Row>) {
    && (forall i :: 0 <= i < |rows| ==> ValidRow(env, rows[i], i))
    && (forall i, j :: 0 <= i < j < |rows| && rows[i].idempotencyKey.Some? ==>
          rows[i].idempotencyKey != rows[j].idempotencyKey)
  }

  ghost predicate ValidRow(env: Env, row: Row, i: nat) {
    && row == RowFor(env, i + 1, row.payload, row.createdAt, row.recordedAt, row.idempotencyKey)
    && Coherent(env, row.payload)
    && (row.idempotencyKey.Some? ==> row.payload.SubmitRecord?)
  }

  /* ---- queries ---- */

  function RowAt(rows: seq<Row>, seqNo: nat): Option<Row> {
    if 1 <= seqNo <= |rows| then Some(rows[seqNo - 1]) else None
  }

  function RowWithKey(rows: seq<Row>, key: string): Option<Row> {
    if rows == [] then None
    else if rows[0].idempotencyKey == Some(key) then Some(rows[0])
    else RowWithKey(rows[1..], key)
  }

  /** The newest report row for a logical key. */
  function LatestReport(rows: seq<Row>, key: string): Option<Row> {
    if rows == [] then None
    else
      var last := rows[|rows| - 1];
      if last.recordType == EXECUTION_REPORT && last.recordId == key then Some(last)
      else LatestReport(rows[..|rows| - 1], key)
  }

  predicate IsTerminalReport(row: Row) { row.payload.ReportRecord? && !IsOpen(row.payload.report.lifecycle) }

  predicate HasSubmit(rows: seq<Row>, key: string) {
    exists i :: 0 <= i < |rows| && rows[i].recordType == BROKER_SUBMIT_INTENT && rows[i].recordId == key
  }

  predicate Settled(rows: seq<Row>, key: string) {
    var r := LatestReport(rows, key);
    r.Some? && IsTerminalReport(r.value)
  }

  /** A submit attempt that recovery must surface: no report yet, or the newest one is not terminal. */
  predicate Unresolved(rows: seq<Row>, key: string) { HasSubmit(rows, key) && !Settled(rows, key) }

  /* ---- rehydration ---- */

  predicate IsGated(t: RecordType) { t == BROKER_SUBMIT_INTENT || t == EXECUTION_REPORT || t == KILL_SWITCH_STATE }

  function RehydratePayload(env: Env, event: Row, allowGated: bool): Result<Record, RehydrateError> {
    if env.sha(event.payload) != event.payloadSha then Err(PayloadIntegrity)
    else if event.recordType == GATEWAY_DECISION then Err(Unrehydratable)
    else if IsGated(event.recordType) && !allowGated then Err(UnverifiedProvenance)
    else if TypeOf(event.payload) != event.recordType || !Coherent(env, event.payload) then Err(InvalidPayload)
    else Ok(event.payload)
  }

  /** The trusted path: the event must be the very row that this store holds. */
  function Rehydrate(env: Env, rows: seq<Row>, event: Row): Result<Record, RehydrateError> {
    if RowAt(rows, event.seqNo) != Some(event) then Err(UnverifiedProvenance)
    else RehydratePayload(env, event, true)
  }

  /**
   * Trusted round trip: what a valid log holds comes back unchanged and nothing else does; without the provenance
   * check no row at all yields a gated type.
   */
  lemma RehydrationIsExact(env: Env, rows: seq<Row>, event: Row)
    requires ValidLog(env, rows)
    ensures event in rows ==> Rehydrate(env, rows, event) == Ok(event.payload)
    ensures event !in rows ==> Rehydrate(env, rows, event) == Err(UnverifiedProvenance)
    ensures RehydratePayload(env, event, false).Ok? ==> !IsGated(TypeOf(event.payload))
  {
    if event in rows {
      var i :| 0 <= i < |rows| && rows[i] == event;
      assert ValidRow(env, rows[i], i);
    }
  }

  /** An object that exists survives append and rehydration; any altered copy of its row is refused. */
  lemma AppendThenRehydrate(env: Env, rows: seq<Row>, r: Record, createdAt: Time, recordedAt: Time, key: Option<string>,
                            forged: Row)
    requires ValidLog(env, rows) && Coherent(env, r)
    requires NextRow(env, rows, r, createdAt, recordedAt, key).Ok?
    ensures var row := NextRow(env, rows, r, createdAt, recordedAt, key).value;
      && ValidLog(env, rows + [row])
      && Rehydrate(env, rows + [row], row) == Ok(r)
      && (forged.seqNo == row.seqNo && forged != row ==>
            Rehydrate(env, rows + [row], forged) == Err(UnverifiedProvenance))
  {
    var row := NextRow(env, rows, r, createdAt, recordedAt, key).value;
    AppendKeepsLogValid(env, rows, r, createdAt, recordedAt, key);
    assert (rows + [row])[|rows|] == row;
    RehydrationIsExact(env, rows + [row], row);
  }

  lemma AppendKeepsLogValid(env: Env, rows: seq<Row>, r: Record, createdAt: Time, recordedAt: Time, key: Option<string>)
    requires ValidLog(env, rows) && Coherent(env, r)
    requires NextRow(env, rows, r, createdAt, recordedAt, key).Ok?
    ensures ValidLog(env, rows + [NextRow(env, rows, r, createdAt, recordedAt, key).value])
  {
    var row := NextRow(env, rows, r, createdAt, recordedAt, key).value;
    var all := rows + [row];
    assert ValidRow(env, row, |rows|);
    forall i | 0 <= i < |all| ensures ValidRow(env, all[i], i) {
      if i < |rows| { assert all[i] == rows[i] && ValidRow(env, rows[i], i); }
    }
  }

  /* ---- the recovery scan ---- */

  datatype OpenOrderRecovery = OpenOrderRecovery(
    logicalKey: string, orderTicketHash: Option<string>, submitSeq: nat,
        latestReport: Option<(nat, OrderLifecycleState)>)

  function Finding(rows: seq<Row>, submit: Row): OpenOrderRecovery {
    var report := LatestReport(rows, submit.recordId);
    var seen := if report.Some? && report.value.payload.ReportRecord?
                then Some((report.value.seqNo, report.value.payload.report.lifecycle)) else None;
    OpenOrderRecovery(submit.recordId, submit.orderTicketHash, submit.seqNo, seen)
  }

  /** Findings for the submit attempts among the first `n` rows, in submit order. */
  function Findings(rows: seq<Row>, n: nat): seq<OpenOrderRecovery>
    requires n <= |rows|
  {
    if n == 0 then []
    else
      var row := rows[n - 1];
      Findings(rows, n - 1)
      + if row.recordType == BROKER_SUBMIT_INTENT && !Settled(rows, row.recordId) then [Finding(rows, row)] else []
  }

  function UnresolvedOpenOrders(rows: seq<Row>): seq<OpenOrderRecovery> { Findings(rows, |rows|) }

  lemma {:induction false} FindingsAreUnresolved(rows: seq<Row>, n: nat, key: string)
    requires n <= |rows|
    ensures (exists f :: f in Findings(rows, n) && f.logicalKey == key)
       <==> && !Settled(rows, key)
            && exists i :: 0 <= i < n && rows[i].recordType == BROKER_SUBMIT_INTENT && rows[i].recordId == key
  {
    if n > 0 {
      FindingsAreUnresolved(rows, n - 1, key);
      var row := rows[n - 1];
      if row.recordType == BROKER_SUBMIT_INTENT && !Settled(rows, row.recordId) {
        var f := Finding(rows, row);
        assert f in Findings(rows, n) && f.logicalKey == row.recordId;
      }
    }
  }

  /** The scan reports a key exactly when it has a submit attempt and no terminal newest report. */
  lemma RecoveryIsExact(rows: seq<Row>, key: string)
    ensures (exists f :: f in UnresolvedOpenOrders(rows) && f.logicalKey == key) <==> Unresolved(rows, key)
  {
    FindingsAreUnresolved(rows, |rows|, key);
  }

  lemma {:induction false} FindingsInSubmitOrder(rows: seq<Row>, n: nat)
    requires n <= |rows| && forall i :: 0 <= i < |rows| ==> rows[i].seqNo == i + 1
    ensures forall i :: 0 <= i < |Findings(rows, n)| ==> Findings(rows, n)[i].submitSeq <= n
    ensures forall i, j :: 0 <= i < j < |Findings(rows, n)| ==>
        Findings(rows, n)[i].submitSeq < Findings(rows, n)[j].submitSeq
  {
    if n > 0 { FindingsInSubmitOrder(rows, n - 1); }
  }

  lemma LatestAfterAppend(rows: seq<Row>, row: Row, key: string)
    ensures LatestReport(rows + [row], key)
         == if row.recordType == EXECUTION_REPORT && row.recordId == key then Some(row) else LatestReport(rows, key)
  {
    assert (rows + [row])[..|rows|] == rows;
  }

  /** Appending one row can change the verdict for that row's own id only. */
  lemma AppendAffectsOneKey(rows: seq<Row>, row: Row, key: string)
    requires row.recordId != key
    ensures Unresolved(rows + [row], key) <==> Unresolved(rows, key)
  {
    LatestAfterAppend(rows, row, key);
    HasSubmitAfterAppend(rows, row, key);
  }

  lemma HasSubmitAfterAppend(rows: seq<Row>, row: Row, key: string)
    ensures HasSubmit(rows + [row], key)
        <==> HasSubmit(rows, key) || (row.recordType == BROKER_SUBMIT_INTENT && row.recordId == key)
  {
    var all := rows + [row];
    if HasSubmit(rows, key) {
      var i :| 0 <= i < |rows| && rows[i].recordType == BROKER_SUBMIT_INTENT && rows[i].recordId == key;
      assert all[i] == rows[i];
    }
    if row.recordType == BROKER_SUBMIT_INTENT && row.recordId == key { assert all[|rows|] == row; }
  }

  /** Rows that are neither submit attempts nor reports leave recovery alone. */
  lemma OtherRowsDoNotMatter(rows: seq<Row>, row: Row, key: string)
    requires row.recordType != BROKER_SUBMIT_INTENT && row.recordType != EXECUTION_REPORT
    ensures Unresolved(rows + [row], key) <==> Unresolved(rows, key)
    ensures Settled(rows + [row], key) <==> Settled(rows, key)
    ensures HasSubmit(rows + [row], key) <==> HasSubmit(rows, key)
  {
    LatestAfterAppend(rows, row, key);
    HasSubmitAfterAppend(rows, row, key);
  }

  /* ---- the store object ---- */

  class AuditStore {
    const env: Env
    var rows: seq<Row>

    ghost predicate Valid()
      reads this
    {
      ValidLog(env, rows)
    }

    constructor (env: Env)
      ensures Valid() && rows == [] && this.env == env
    {
      this.env := env;
      rows := [];
    }

    /** Appends one object; refused appends leave the table as it was, and no append touches an earlier row. */
    method Append(r: Record, createdAt: Time, recordedAt: Time, key: Option<string>)
        returns (result: Result<Row, StoreError>)
      requires Valid() && Coherent(env, r)
      modifies this
      ensures Valid()
      ensures result == NextRow(env, old(rows), r, createdAt, recordedAt, key)
      ensures rows == if result.Ok? then old(rows) + [result.value] else old(rows)
    {
      result := NextRow(env, rows, r, createdAt, recordedAt, key);
      if result.Ok? {
        AppendKeepsLogValid(env, rows, r, createdAt, recordedAt, key);
        rows := rows + [result.value];
      }
    }

    /** Persists a submit attempt under its unique key. */
    method RecordSubmitAttempt(i: BrokerSubmitIntent, recordedAt: Time) returns (result: Result<Row, StoreError>)
      requires Valid() && IntentCoherent(env, i)
      modifies this
      ensures Valid()
      ensures result == if KeyTaken(old(rows), i.idempotencyKey) then Err(DuplicateIdempotencyKey)
                        else Ok(SubmitRow(env, old(rows), i, recordedAt))
      ensures rows == if result.Ok? then old(rows) + [result.value] else old(rows)
    {
      result := Append(SubmitRecord(i), i.submittedAt, recordedAt, Some(i.idempotencyKey));
    }

    method RehydrateEvent(event: Row) returns (result: Result<Record, RehydrateError>)
      requires Valid()
      ensures event in rows ==> result == Ok(event.payload)
      ensures event !in rows ==> result == Err(UnverifiedProvenance)
    {
      RehydrationIsExact(env, rows, event);
      result := Rehydrate(env, rows, event);
    }

    /** First pass: a dictionary from logical key to its newest report. */
    method CollectLatestReports() returns (latest: map<string, Row>)
      ensures forall k :: k in latest <==> LatestReport(rows, k).Some?
      ensures forall k :: k in latest ==> LatestReport(rows, k) == Some(latest[k])
    {
      latest := map[];
      assert rows[..0] == [];
      for i := 0 to |rows|
        invariant forall k :: k in latest <==> LatestReport(rows[..i], k).Some?
        invariant forall k :: k in latest ==> LatestReport(rows[..i], k) == Some(latest[k])
      {
        assert rows[..i + 1][..i] == rows[..i];
        if rows[i].recordType == EXECUTION_REPORT { latest := latest[rows[i].recordId := rows[i]]; }
      }
      assert rows[..|rows|] == rows;
    }

    /** The recovery scan: both passes over the table. */
    method FindUnresolvedOpenOrders() returns (unresolved: seq<OpenOrderRecovery>)
      requires Valid()
      ensures unresolved == UnresolvedOpenOrders(rows)
    {
      var latest := CollectLatestReports();
      forall k | k in latest ensures latest[k].payload.ReportRecord? { LatestReportIsReport(env, rows, k); }
      unresolved := ScanSubmits(rows, latest);
    }
  }

  /** Second pass: the submit attempts whose newest report is missing or not terminal, in submit order. */
  method ScanSubmits(rows: seq<Row>, latest: map<string, Row>) returns (unresolved: seq<OpenOrderRecovery>)
    requires forall k :: k in latest <==> LatestReport(rows, k).Some?
    requires forall k :: k in latest ==> LatestReport(rows, k) == Some(latest[k]) && latest[k].payload.ReportRecord?
    ensures unresolved == Findings(rows, |rows|)
  {
    unresolved := [];
    for i := 0 to |rows|
      invariant unresolved == Findings(rows, i)
    {
      var submit := rows[i];
      if submit.recordType == BROKER_SUBMIT_INTENT {
        var key := submit.recordId;
        if key !in latest {
          unresolved := unresolved + [OpenOrderRecovery(key, submit.orderTicketHash, submit.seqNo, None)];
        } else {
          var lifecycle := latest[key].payload.report.lifecycle;
          if IsOpen(lifecycle) {
            unresolved := unresolved + [OpenOrderRecovery(key, submit.orderTicketHash, submit.seqNo,
                                                          Some((latest[key].seqNo, lifecycle)))];
          }
        }
      }
    }
  }

  lemma {:induction false} LatestReportIsReport(env: Env, rows: seq<Row>, key: string)
    requires ValidLog(env, rows)
    ensures var r := LatestReport(rows, key); r.Some? ==>
      r.value in rows && r.value.payload.ReportRecord? && r.value.payload.report.idempotencyKey == key
          && r.value.recordId == key
  {
    if rows != [] {
      var n := |rows| - 1;
      assert ValidRow(env, rows[n], n);
      LogPrefix(env, rows, n);
      LatestReportIsReport(env, rows[..n], key);
    }
  }

  lemma LogPrefix(env: Env, rows: seq<Row>, n: nat)
    requires ValidLog(env, rows) && n <= |rows|
    ensures ValidLog(env, rows[..n])
  {
    forall i | 0 <= i < n ensures ValidRow(env, rows[..n][i], i) { assert ValidRow(env, rows[i], i); }
  }
}
