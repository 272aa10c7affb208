/** Exactly which broker-reported orders the cancel command authenticates, read off the rows (ops/control_plane.py). */
module Authentication {
  import opened Wrappers
  import opened Vocabulary
  import opened Trade
  import opened AuditLog
  import opened Brokers
  import opened Cancellation

  /** The row is a persisted report that names the broker order. */
  predicate NamesOrder(row: Row, id: string) {
    row.payload.ReportRecord? && row.payload.report.brokerOrderId == id
  }

  /** The report says of the order what the broker says of it now. */
  predicate SaysTheSame(e: ExecutionReport, f: BrokerFill) {
    (e.brokerOrderId, e.lifecycle, e.filledContracts, e.requestedContracts, e.avgFillPrice, e.fillTimestamp,
     e.submittedAt)
    == (f.orderId.value, f.lifecycle, f.filled, f.requested, f.avgPrice, f.fillAt, f.submittedAt)
  }

  /** The paper intent that the report was minted for. */
  predicate Vouches(i: BrokerSubmitIntent, e: ExecutionReport) {
    && i.submitMode == PAPER
    && (i.idempotencyKey, i.orderTicketHash, i.submittedAt, i.ticket.orderType, i.ticket.Contracts())
       == (e.idempotencyKey, e.orderTicketHash, e.submittedAt, e.orderType, e.requestedContracts)
  }

  /**
   * Row `j` is the newest report naming the order, all reports naming it share its key, it is open and agrees with the
   * broker, and row `m` stores under that key the paper intent it was minted for.
   */
  ghost predicate Proves(rows: seq<Row>, fill: BrokerFill, i: BrokerSubmitIntent, j: nat, m: nat) {
    && j < |rows| && NamesOrder(rows[j], fill.orderId.value)
    && (forall n :: j < n < |rows| ==> !NamesOrder(rows[n], fill.orderId.value))
    && (forall n :: 0 <= n < |rows| && NamesOrder(rows[n], fill.orderId.value) ==> rows[n].recordId == rows[j].recordId)
    && IsOpen(rows[j].payload.report.lifecycle) && SaysTheSame(rows[j].payload.report, fill)
    && m < |rows| && rows[m].idempotencyKey == Some(rows[j].recordId) && rows[m].payload == SubmitRecord(i)
    && Vouches(i, rows[j].payload.report)
  }

  ghost predicate Proven(rows: seq<Row>, fill: BrokerFill, i: BrokerSubmitIntent) {
    exists j: nat, m: nat :: Proves(rows, fill, i, j, m)
  }

  /* ---- the queries of the resolver ---- */

  lemma NamingIsReporting(env: Env, rows: seq<Row>, n: nat, id: string)
    requires ValidLog(env, rows) && n < |rows|
    ensures ReportsOrder(rows[n], id) <==> NamesOrder(rows[n], id)
  {
    assert ValidRow(env, rows[n], n);
  }

  lemma {:induction false} LastReportIsLast(rows: seq<Row>, id: string)
    ensures LastReportOf(rows, id).None? ==> forall n :: 0 <= n < |rows| ==> !ReportsOrder(rows[n], id)
    ensures LastReportOf(rows, id).Some? ==>
              exists j: nat :: j < |rows| && rows[j] == LastReportOf(rows, id).value && ReportsOrder(rows[j], id)
                               && forall n :: j < n < |rows| ==> !ReportsOrder(rows[n], id)
  {
    if rows != [] {
      var n := |rows| - 1;
      LastReportIsLast(rows[..n], id);
      if !ReportsOrder(rows[n], id) && LastReportOf(rows[..n], id).Some? {
        var j: nat :| j < n && rows[..n][j] == LastReportOf(rows[..n], id).value && ReportsOrder(rows[..n][j], id)
                      && forall m :: j < m < n ==> !ReportsOrder(rows[..n][m], id);
        assert rows[j] == LastReportOf(rows, id).value;
        forall m | j < m < |rows| ensures !ReportsOrder(rows[m], id) { if m < n { assert rows[..n][m] == rows[m]; } }
      }
    }
  }

  lemma {:induction false} MatchingKeysAre(rows: seq<Row>, id: string, k: string)
    ensures k in MatchingKeys(rows, id)
        <==> exists n :: 0 <= n < |rows| && ReportsOrder(rows[n], id) && rows[n].recordId == k
  {
    if rows != [] {
      var last := |rows| - 1;
      MatchingKeysAre(rows[..last], id, k);
      if n :| 0 <= n < |rows| && ReportsOrder(rows[n], id) && rows[n].recordId == k {
        if n < last { assert rows[..last][n] == rows[n]; }
      }
    }
  }

  lemma OneKeyOnly(rows: seq<Row>, id: string, k: string)
    requires k in MatchingKeys(rows, id)
    ensures |MatchingKeys(rows, id)| <= 1
       <==> forall n :: 0 <= n < |rows| && ReportsOrder(rows[n], id) ==> rows[n].recordId == k
  {
    var keys := MatchingKeys(rows, id);
    if forall n :: 0 <= n < |rows| && ReportsOrder(rows[n], id) ==> rows[n].recordId == k {
      forall k' | k' in keys ensures k' == k { MatchingKeysAre(rows, id, k'); }
      assert keys == {k};
    }
    if |keys| <= 1 {
      assert keys - {k} == {} by { assert |keys - {k}| == 0; }
      forall n | 0 <= n < |rows| && ReportsOrder(rows[n], id) ensures rows[n].recordId == k {
        MatchingKeysAre(rows, id, rows[n].recordId);
        assert rows[n].recordId !in keys - {k};
      }
    }
  }

  lemma KeyedRowIsUnique(env: Env, rows: seq<Row>, key: string, m: nat)
    requires ValidLog(env, rows) && m < |rows| && rows[m].idempotencyKey == Some(key)
    ensures RowWithKey(rows, key) == Some(rows[m])
  {
    RowWithKeyFacts(rows, key);
    assert KeyTaken(rows, key);
    var row := RowWithKey(rows, key).value;
    var n :| 0 <= n < |rows| && rows[n] == row;
  }

  /* ---- both directions ---- */

  /** `j` is the last row that reports the order. */
  ghost predicate IsLast(rows: seq<Row>, id: string, j: nat) {
    && j < |rows| && ReportsOrder(rows[j], id) && LastReportOf(rows, id) == Some(rows[j])
    && rows[j].recordId in MatchingKeys(rows, id)
    && forall n :: j < n < |rows| ==> !ReportsOrder(rows[n], id)
  }

  lemma LastReportPosition(rows: seq<Row>, id: string, n: nat) returns (j: nat)
    requires n < |rows| && ReportsOrder(rows[n], id)
    ensures IsLast(rows, id, j) && n <= j
  {
    LastReportIsLast(rows, id);
    LastReportFacts(rows, id);
    j :| j < |rows| && rows[j] == LastReportOf(rows, id).value && ReportsOrder(rows[j], id)
         && forall n :: j < n < |rows| ==> !ReportsOrder(rows[n], id);
  }

  lemma CheckIntentIsExact(env: Env, rows: seq<Row>, e: ExecutionReport, key: string, i: BrokerSubmitIntent)
    requires ValidLog(env, rows)
    ensures CheckIntent(env, rows, e, key) == Ok(i)
       <==> && Vouches(i, e)
            && exists m: nat :: m < |rows| && rows[m].idempotencyKey == Some(key) && rows[m].payload == SubmitRecord(i)
  {
    RowWithKeyFacts(rows, key);
    if m: nat :| m < |rows| && rows[m].idempotencyKey == Some(key) && rows[m].payload == SubmitRecord(i) {
      KeyedRowIsUnique(env, rows, key, m);
      assert ValidRow(env, rows[m], m);
      RehydrationIsExact(env, rows, rows[m]);
    }
    if CheckIntent(env, rows, e, key) == Ok(i) {
      var submit := RowWithKey(rows, key).value;
      RehydrationIsExact(env, rows, submit);
      var m :| 0 <= m < |rows| && rows[m] == submit;
      assert rows[m].payload == SubmitRecord(i);
    }
  }

  lemma CheckReportIsExact(env: Env, rows: seq<Row>, j: nat, fill: BrokerFill, i: BrokerSubmitIntent)
    requires ValidLog(env, rows) && j < |rows| && rows[j].payload.ReportRecord?
    ensures CheckReport(env, rows, rows[j], fill) == Ok(i)
       <==> && IsOpen(rows[j].payload.report.lifecycle) && SaysTheSame(rows[j].payload.report, fill)
            && CheckIntent(env, rows, rows[j].payload.report, rows[j].recordId) == Ok(i)
  {
    RehydrationIsExact(env, rows, rows[j]);
  }

  lemma ProofIsResolved(env: Env, rows: seq<Row>, fill: BrokerFill, i: BrokerSubmitIntent, j: nat, m: nat)
    requires ValidLog(env, rows) && Proves(rows, fill, i, j, m)
    ensures Resolve(env, rows, fill) == Ok(i)
  {
    var id := fill.orderId.value;
    forall n | 0 <= n < |rows| ensures ReportsOrder(rows[n], id) <==> NamesOrder(rows[n], id) {
      NamingIsReporting(env, rows, n, id);
    }
    var last := LastReportPosition(rows, id, j);
    OneKeyOnly(rows, id, rows[j].recordId);
    CheckReportIsExact(env, rows, j, fill, i);
    CheckIntentIsExact(env, rows, rows[j].payload.report, rows[j].recordId, i);
  }

  lemma ResolvedIsProven(env: Env, rows: seq<Row>, fill: BrokerFill, i: BrokerSubmitIntent)
    requires ValidLog(env, rows) && Resolve(env, rows, fill) == Ok(i)
    ensures Proven(rows, fill, i)
  {
    var id := fill.orderId.value;
    forall n | 0 <= n < |rows| ensures ReportsOrder(rows[n], id) <==> NamesOrder(rows[n], id) {
      NamingIsReporting(env, rows, n, id);
    }
    LastReportIsLast(rows, id);
    var n :| 0 <= n < |rows| && ReportsOrder(rows[n], id);
    var j := LastReportPosition(rows, id, n);
    OneKeyOnly(rows, id, rows[j].recordId);
    CheckReportIsExact(env, rows, j, fill, i);
    CheckIntentIsExact(env, rows, rows[j].payload.report, rows[j].recordId, i);
    var m: nat :| m < |rows| && rows[m].idempotencyKey == Some(rows[j].recordId) && rows[m].payload == SubmitRecord(i);
    assert Proves(rows, fill, i, j, m);
  }

  /** Authentication is exact: an order is resolved to an intent iff the rows prove that intent. */
  lemma ResolveIsExact(env: Env, rows: seq<Row>, fill: BrokerFill, i: BrokerSubmitIntent)
    requires ValidLog(env, rows)
    ensures Resolve(env, rows, fill) == Ok(i) <==> Proven(rows, fill, i)
  {
    if Resolve(env, rows, fill) == Ok(i) { ResolvedIsProven(env, rows, fill, i); }
    if Proven(rows, fill, i) {
      var j: nat, m: nat :| Proves(rows, fill, i, j, m);
      ProofIsResolved(env, rows, fill, i, j, m);
    }
  }
}
