/** The report layer's view of running state (reports/_store_reads.py) and when it agrees with the control plane. */
module StoreReads {
  import opened Wrappers
  import opened Vocabulary
  import opened Trade
  import opened AuditLog
  import opened ControlPlane

  predicate Counts(row: Row, t: RecordType, windowEnd: Time) { row.recordType == t && row.createdAt <= windowEnd }

  /** Domain time first, position in the log as the tie-breaker. */
  predicate Newer(a: Row, b: Row) { a.createdAt > b.createdAt || (a.createdAt == b.createdAt && a.seqNo > b.seqNo) }

  /** `r` is the newest counting row, or nothing counts. */
  ghost predicate IsLatest(rows: seq<Row>, t: RecordType, windowEnd: Time, r: Option<Row>) {
    match r
    case None => forall i :: 0 <= i < |rows| ==> !Counts(rows[i], t, windowEnd)
    case Some(row) =>
      && row in rows && Counts(row, t, windowEnd)
      && forall i :: 0 <= i < |rows| && Counts(rows[i], t, windowEnd) ==> rows[i] == row || Newer(row, rows[i])
  }

  method LatestUpto(rows: seq<Row>, t: RecordType, windowEnd: Time) returns (latest: Option<Row>)
    requires forall i :: 0 <= i < |rows| ==> rows[i].seqNo == i + 1
    ensures IsLatest(rows, t, windowEnd, latest)
  {
    latest := None;
    for i := 0 to |rows|
      invariant IsLatest(rows[..i], t, windowEnd, latest)
    {
      assert rows[..i + 1] == rows[..i] + [rows[i]];
      if Counts(rows[i], t, windowEnd) {
        if latest.None? || Newer(rows[i], latest.value) { latest := Some(rows[i]); }
      }
    }
    assert rows[..|rows|] == rows;
  }

  datatype KillSwitchView = UNKNOWN | HALTED | ARMED

  function ViewOf(latest: Option<Row>): KillSwitchView {
    if latest.None? then UNKNOWN
    else if latest.value.payload.KillSwitchRecord? && latest.value.payload.state.halted then HALTED
    else ARMED
  }

  lemma {:induction false} LastOfTypeIsLast(rows: seq<Row>, t: RecordType)
    ensures var last := LastOfType(rows, t);
      && (last.None? ==> forall i :: 0 <= i < |rows| ==> rows[i].recordType != t)
      && (last.Some? ==> exists k :: 0 <= k < |rows| && rows[k] == last.value && last.value.recordType == t
                                     && forall i :: k < i < |rows| ==> rows[i].recordType != t)
  {
    if rows != [] {
      var n := |rows| - 1;
      LastOfTypeIsLast(rows[..n], t);
      if rows[n].recordType != t && LastOfType(rows[..n], t).Some? {
        var k :| 0 <= k < n && rows[..n][k] == LastOfType(rows[..n], t).value && forall i :: k < i < n ==>
            rows[..n][i].recordType != t;
        assert rows[k] == LastOfType(rows, t).value;
        forall i | k < i < |rows| ensures rows[i].recordType != t { if i < n { assert rows[..n][i] == rows[i]; } }
      }
    }
  }

  /**
   * At a window end that includes the newest switch row, the report picks that very row exactly when no counting switch
   * row is dated later than it; a non-decreasing clock is therefore enough.
   */
  lemma ReportPicksLastRow(rows: seq<Row>, windowEnd: Time, latest: Option<Row>, last: Row)
    requires forall i :: 0 <= i < |rows| ==> rows[i].seqNo == i + 1
    requires LastOfType(rows, KILL_SWITCH_STATE) == Some(last) && last.createdAt <= windowEnd
    requires IsLatest(rows, KILL_SWITCH_STATE, windowEnd, latest)
    ensures latest == Some(last)
       <==> forall i :: 0 <= i < |rows| && Counts(rows[i], KILL_SWITCH_STATE, windowEnd) ==>
           rows[i].createdAt <= last.createdAt
  {
    LastOfTypeIsLast(rows, KILL_SWITCH_STATE);
    var k :| 0 <= k < |rows| && rows[k] == last && last.recordType == KILL_SWITCH_STATE
             && forall i :: k < i < |rows| ==> rows[i].recordType != KILL_SWITCH_STATE;
    assert Counts(rows[k], KILL_SWITCH_STATE, windowEnd);
  }

  /** With a non-decreasing clock the report view and the control plane's permission agree. */
  lemma ReportAgreesWithSwitch(env: Env, rows: seq<Row>, windowEnd: Time, latest: Option<Row>)
    requires ValidLog(env, rows) && IsLatest(rows, KILL_SWITCH_STATE, windowEnd, latest)
    requires exists i :: 0 <= i < |rows| && rows[i].recordType == KILL_SWITCH_STATE
    requires forall i :: 0 <= i < |rows| && rows[i].recordType == KILL_SWITCH_STATE ==> rows[i].createdAt <= windowEnd
    requires forall i, j ::
      0 <= i < j < |rows| && rows[i].recordType == KILL_SWITCH_STATE && rows[j].recordType == KILL_SWITCH_STATE ==>
        rows[i].createdAt <= rows[j].createdAt
    ensures ViewOf(latest) == if NewEntriesAllowed(env, rows) then ARMED else HALTED
  {
    forall i | 0 <= i < |rows| ensures rows[i].seqNo == i + 1 { assert ValidRow(env, rows[i], i); }
    KillSwitchIsReadable(env, rows);
    LastOfTypeIsLast(rows, KILL_SWITCH_STATE);
    ReportPicksLastRow(rows, windowEnd, latest, LastOfType(rows, KILL_SWITCH_STATE).value);
  }
}
