/** What each finding of the restart-recovery scan says about its submit attempt (storage/base.py). */
module RecoveryFindings {
  import opened Wrappers
  import opened Vocabulary
  import opened Trade
  import opened AuditLog
  import opened Positions

  /** Row `j` is a report under the key and no later row is one. */
  ghost predicate IsNewestReport(rows: seq<Row>, key: string, j: nat) {
    && j < |rows| && rows[j].recordType == EXECUTION_REPORT && rows[j].recordId == key
    && forall i :: j < i < |rows| ==> !(rows[i].recordType == EXECUTION_REPORT && rows[i].recordId == key)
  }

  lemma {:induction false} LatestReportIsNewest(rows: seq<Row>, key: string)
    ensures LatestReport(rows, key).None? ==>
              forall i :: 0 <= i < |rows| ==> !(rows[i].recordType == EXECUTION_REPORT && rows[i].recordId == key)
    ensures LatestReport(rows, key).Some? ==>
              exists j: nat :: IsNewestReport(rows, key, j) && rows[j] == LatestReport(rows, key).value
  {
    if rows != [] {
      var n := |rows| - 1;
      LatestReportIsNewest(rows[..n], key);
      if rows[n].recordType == EXECUTION_REPORT && rows[n].recordId == key {
        assert IsNewestReport(rows, key, n);
      } else if LatestReport(rows[..n], key).Some? {
        var j: nat :| IsNewestReport(rows[..n], key, j) && rows[..n][j] == LatestReport(rows[..n], key).value;
        assert IsNewestReport(rows, key, j);
      }
    }
  }

  /** What a finding must say about the submit attempt in row `m`, read off the rows themselves. */
  ghost predicate Describes(rows: seq<Row>, f: OpenOrderRecovery, m: nat) {
    && m < |rows| && rows[m].payload.SubmitRecord?
    && f.submitSeq == m + 1
    && f.logicalKey == rows[m].payload.intent.idempotencyKey
    && f.orderTicketHash == Some(rows[m].payload.intent.orderTicketHash)
    && match f.latestReport
       case None => forall i :: 0 <= i < |rows| && rows[i].payload.ReportRecord? ==>
                      rows[i].payload.report.idempotencyKey != f.logicalKey
       case Some((seqNo, lifecycle)) =>
         && 1 <= seqNo <= |rows| && IsOpen(lifecycle)
         && IsNewestReport(rows, f.logicalKey, seqNo - 1)
         && rows[seqNo - 1].payload.ReportRecord? && rows[seqNo - 1].payload.report.lifecycle == lifecycle
  }

  /** The submit attempt in row `m` calls for a finding. */
  predicate Calls(rows: seq<Row>, m: nat)
    requires m < |rows|
  {
    rows[m].recordType == BROKER_SUBMIT_INTENT && !Settled(rows, rows[m].recordId)
  }

  ghost function CallsAt(rows: seq<Row>): nat -> bool { (m: nat) => m < |rows| && Calls(rows, m) }

  lemma {:induction false} FindingPositions(rows: seq<Row>, n: nat)
    requires n <= |rows|
    ensures var found, pos := Findings(rows, n), Chosen(CallsAt(rows), n);
      |found| == |pos| && forall k :: 0 <= k < |found| ==> pos[k] < n && found[k] == Finding(rows, rows[pos[k]])
  {
    if n > 0 { FindingPositions(rows, n - 1); }
  }

  lemma FindingDescribes(env: Env, rows: seq<Row>, m: nat)
    requires ValidLog(env, rows) && m < |rows| && Calls(rows, m)
    ensures Describes(rows, Finding(rows, rows[m]), m)
  {
    assert ValidRow(env, rows[m], m);
    assert rows[m].payload.SubmitRecord?;
    if LatestReport(rows, rows[m].recordId).None? {
      NoReportAtAll(env, rows, rows[m].recordId);
    } else {
      var j := NewestReportPosition(env, rows, rows[m].recordId);
    }
  }

  lemma NoReportAtAll(env: Env, rows: seq<Row>, key: string)
    requires ValidLog(env, rows) && LatestReport(rows, key).None?
    ensures forall i :: 0 <= i < |rows| && rows[i].payload.ReportRecord? ==>
        rows[i].payload.report.idempotencyKey != key
  {
    LatestReportIsNewest(rows, key);
    forall i | 0 <= i < |rows| && rows[i].payload.ReportRecord? ensures rows[i].payload.report.idempotencyKey != key {
      assert ValidRow(env, rows[i], i);
    }
  }

  lemma NewestReportPosition(env: Env, rows: seq<Row>, key: string) returns (j: nat)
    requires ValidLog(env, rows) && LatestReport(rows, key).Some?
    ensures IsNewestReport(rows, key, j) && LatestReport(rows, key) == Some(rows[j])
    ensures rows[j].payload.ReportRecord? && rows[j].seqNo == j + 1
  {
    LatestReportIsNewest(rows, key);
    j :| IsNewestReport(rows, key, j) && rows[j] == LatestReport(rows, key).value;
    assert ValidRow(env, rows[j], j);
  }

  lemma CallsIffUnresolved(env: Env, rows: seq<Row>, m: nat)
    requires ValidLog(env, rows) && m < |rows|
    ensures rows[m].payload.SubmitRecord? ==>
        (Calls(rows, m) <==> Unresolved(rows, rows[m].payload.intent.idempotencyKey))
    ensures Calls(rows, m) ==> rows[m].payload.SubmitRecord?
  {
    assert ValidRow(env, rows[m], m);
  }

  /**
   * Every finding is right about its attempt: key, ticket hash, submit number, and the number and lifecycle of the
   * newest report or that there is none; and each submit row of an unresolved key has exactly one finding, in submit
   * order.
   */
  lemma RecoveryDescribesAttempts(env: Env, rows: seq<Row>) returns (pos: seq<nat>)
    requires ValidLog(env, rows)
    ensures var found := UnresolvedOpenOrders(rows);
      && |pos| == |found|
      && (forall k :: 0 <= k < |pos| ==> Describes(rows, found[k], pos[k]))
      && Increasing(pos)
      && (forall m :: 0 <= m < |rows| && rows[m].payload.SubmitRecord? ==>
            (m in pos <==> Unresolved(rows, rows[m].payload.intent.idempotencyKey)))
  {
    pos := Chosen(CallsAt(rows), |rows|);
    ChosenIsExact(CallsAt(rows), |rows|);
    FindingPositions(rows, |rows|);
    forall k | 0 <= k < |pos| ensures Describes(rows, UnresolvedOpenOrders(rows)[k], pos[k]) {
      assert pos[k] in pos;
      FindingDescribes(env, rows, pos[k]);
    }
    forall m | 0 <= m < |rows| && rows[m].payload.SubmitRecord?
      ensures m in pos <==> Unresolved(rows, rows[m].payload.intent.idempotencyKey)
    {
      CallsIffUnresolved(env, rows, m);
    }
  }
}
