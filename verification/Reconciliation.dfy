/** Protected position snapshots and their comparison (schemas/position_state.py, gateway/reconciliation.py). */
module Reconciliation {
  import opened Wrappers
  import opened Vocabulary
  import opened PositionLegs
  import opened Allocation
  import opened Exposure
  import opened Protection
  import opened StableSort
  import opened CanonicalOrder

  datatype SnapshotSource = BROKER_REPORT | EXECUTION_LEDGER

  datatype BrokerPositionReport = BrokerPositionReport(
    reportId: string, brokerName: string, reportedAt: Time, legs: seq<PositionLeg>)

  datatype ExecutionPositionLedger = ExecutionPositionLedger(
    ledgerId: string, asOf: Time, legs: seq<PositionLeg>, executionReportIds: seq<string>)

  datatype PositionSnapshot = PositionSnapshot(
    snapshotId: string,
    source: SnapshotSource,
    sourceId: string,
    createdAt: Time,
    asOf: Time,
    legs: seq<PositionLeg>,
    executionReportIds: seq<string>,
    brokerName: Option<string>,
    emergencyState: EmergencyState
  )

  /** The snapshot validator. */
  predicate SnapshotCoherent(s: PositionSnapshot) {
    && (s.source == BROKER_REPORT ==> s.executionReportIds == [] && s.brokerName.Some? && s.brokerName.value != "")
    && (s.source == EXECUTION_LEDGER ==> s.brokerName.None? && (s.legs != [] ==> s.executionReportIds != []))
    && s.asOf <= s.createdAt
    && (!FullyProtected(s.legs) ==> s.emergencyState != NORMAL)
  }

  datatype MintError = IdsDoNotMatch | ValidatorRefused

  function EmergencyStateForLegs(legs: seq<PositionLeg>): EmergencyState {
    if UnprotectedShortLegs(legs) != [] then BROKEN_SPREAD else NORMAL
  }

  function Admit(s: PositionSnapshot): Result<PositionSnapshot, MintError> {
    if SnapshotCoherent(s) then Ok(s) else Err(ValidatorRefused)
  }

  function MintFromBrokerReport(report: BrokerPositionReport, createdAt: Time, snapshotId: Option<string>)
    : Result<PositionSnapshot, MintError>
  {
    var sid := if snapshotId.Some? && snapshotId.value != "" then snapshotId.value else "pos-broker-" + report.reportId;
    Admit(PositionSnapshot(sid, BROKER_REPORT, report.reportId, createdAt, report.reportedAt, report.legs,
                           [], Some(report.brokerName), EmergencyStateForLegs(report.legs)))
  }

  function MintFromExecutionLedger(ledger: ExecutionPositionLedger, reportIds: seq<string>, createdAt: Time,
                                   snapshotId: Option<string>)
    : Result<PositionSnapshot, MintError>
  {
    if Sorted(ledger.executionReportIds, TextLeq) != Sorted(reportIds, TextLeq) then Err(IdsDoNotMatch)
    else
      var sid := if snapshotId.Some? && snapshotId.value != "" then snapshotId.value
          else "pos-ledger-" + ledger.ledgerId;
      Admit(PositionSnapshot(sid, EXECUTION_LEDGER, ledger.ledgerId, createdAt, ledger.asOf, ledger.legs,
                             ledger.executionReportIds, None, EmergencyStateForLegs(ledger.legs)))
  }

  /**
   * Minting never trips over protection: a named broker's report is refused only for being dated in the future,
   * and a mint marks a book as NORMAL exactly when every short contract can be covered.
   */
  lemma BrokerMintIsExact(report: BrokerPositionReport, createdAt: Time, snapshotId: Option<string>)
    ensures MintFromBrokerReport(report, createdAt, snapshotId).Ok?
        <==> report.reportedAt <= createdAt && report.brokerName != ""
    ensures MintFromBrokerReport(report, createdAt, snapshotId).Ok? ==>
              var s := MintFromBrokerReport(report, createdAt, snapshotId).value;
              && SnapshotCoherent(s) && s.source == BROKER_REPORT && s.sourceId == report.reportId
              && s.asOf == report.reportedAt && s.createdAt == createdAt && s.brokerName == Some(report.brokerName)
              && s.legs == report.legs && (s.emergencyState == NORMAL <==> EnoughLongs(report.legs))
  {
    EmergencyStateIsExact(report.legs);
    var sid := if snapshotId.Some? && snapshotId.value != "" then snapshotId.value else "pos-broker-" + report.reportId;
    AdmissionIsExact(PositionSnapshot(sid, BROKER_REPORT, report.reportId, createdAt, report.reportedAt, report.legs,
                                      [], Some(report.brokerName), EmergencyStateForLegs(report.legs)));
  }

  /** A snapshot marked by its own legs is never refused for protection. */
  lemma AdmissionIsExact(s: PositionSnapshot)
    requires s.emergencyState == EmergencyStateForLegs(s.legs)
    ensures Admit(s).Ok? <==>
              && (s.source == BROKER_REPORT ==>
                    s.executionReportIds == [] && s.brokerName.Some? && s.brokerName.value != "")
              && (s.source == EXECUTION_LEDGER ==> s.brokerName.None? && (s.legs != [] ==> s.executionReportIds != []))
              && s.asOf <= s.createdAt
    ensures Admit(s).Ok? ==> Admit(s).value == s
  {
  }

  lemma EmergencyStateIsExact(legs: seq<PositionLeg>)
    ensures EmergencyStateForLegs(legs) == NORMAL <==> EnoughLongs(legs)
    ensures EmergencyStateForLegs(legs) == NORMAL <==> FullyProtected(legs)
  {
    VerdictIsExact(legs);
  }

  /** A ledger with legs names its execution reports, or it could not be built. */
  lemma LedgerMintIsExact(ledger: ExecutionPositionLedger, reportIds: seq<string>, createdAt: Time,
                          snapshotId: Option<string>)
    requires ledger.legs != [] ==> ledger.executionReportIds != []
    ensures MintFromExecutionLedger(ledger, reportIds, createdAt, snapshotId).Ok?
       <==> multiset(ledger.executionReportIds) == multiset(reportIds) && ledger.asOf <= createdAt
    ensures MintFromExecutionLedger(ledger, reportIds, createdAt, snapshotId).Ok? ==>
              var s := MintFromExecutionLedger(ledger, reportIds, createdAt, snapshotId).value;
              && SnapshotCoherent(s) && s.source == EXECUTION_LEDGER && s.sourceId == ledger.ledgerId
              && s.asOf == ledger.asOf && s.createdAt == createdAt && s.executionReportIds == ledger.executionReportIds
              && s.legs == ledger.legs && (s.emergencyState == NORMAL <==> EnoughLongs(ledger.legs))
  {
    IdsCompareAsMultisets(ledger.executionReportIds, reportIds);
    EmergencyStateIsExact(ledger.legs);
    var sid := if snapshotId.Some? && snapshotId.value != "" then snapshotId.value else "pos-ledger-" + ledger.ledgerId;
    AdmissionIsExact(PositionSnapshot(sid, EXECUTION_LEDGER, ledger.ledgerId, createdAt, ledger.asOf, ledger.legs,
                                      ledger.executionReportIds, None, EmergencyStateForLegs(ledger.legs)));
  }

  lemma IdsCompareAsMultisets(a: seq<string>, b: seq<string>)
    ensures Sorted(a, TextLeq) == Sorted(b, TextLeq) <==> multiset(a) == multiset(b)
  {
    TextsAreTotallyOrdered();
    SortedTuplesCompareMultisets(a, b, TextLeq);
  }

  /* ---- comparison ---- */

  /** What reconciliation compares for one leg: its texts, strike included, and its contract count. */
  datatype LegKey = LegKey(texts: seq<string>, contracts: int)

  function OptionTypeText(t: OptionType): string { if t == PUT then "PUT" else "CALL" }

  function SideText(s: LegSide): string { if s == SHORT then "SHORT" else "LONG" }

  function KeyOf(l: PositionLeg): LegKey {
    LegKey([UnderlyingText(l.underlying), l.symbol, l.expiration, OptionTypeText(l.optionType), l.strike.text,
            SideText(l.side)],
           l.contracts)
  }

  predicate KeyLeq(a: LegKey, b: LegKey) {
    if a.texts == b.texts then a.contracts <= b.contracts else TextsLeq(a.texts, b.texts)
  }

  lemma KeysAreTotallyOrdered()
    ensures IsTotalOrder(KeyLeq)
  {
    TextsAreTotallyOrdered();
  }

  function Keys(legs: seq<PositionLeg>): (r: seq<LegKey>)
    ensures |r| == |legs| && forall i :: 0 <= i < |legs| ==> r[i] == KeyOf(legs[i])
  {
    seq(|legs|, i requires 0 <= i < |legs| => KeyOf(legs[i]))
  }

  function NormalizedLegs(legs: seq<PositionLeg>): seq<LegKey> { Sorted(Keys(legs), KeyLeq) }

  datatype Status = MATCH | MISMATCH
  datatype Permission = NEW_ENTRIES_ALLOWED | MANAGED_EXIT_ONLY

  datatype HaltArtifact = HaltArtifact(artifactId: string, createdAt: Time, reasonCodes: seq<ReasonCode>)

  datatype BrokenSpreadEvent = BrokenSpreadEvent(reasonCode: ReasonCode, createdAt: Time, artifactId: string)

  datatype ReconciliationSnapshot = ReconciliationSnapshot(
    reconciliationId: string,
    createdAt: Time,
    expected: PositionSnapshot,
    broker: PositionSnapshot,
    status: Status,
    permission: Permission,
    reasonCodes: seq<ReasonCode>,
    artifact: Option<HaltArtifact>,
    humanEvent: Option<BrokenSpreadEvent>,
    managedExitAllowed: bool,
    flattenAllowed: bool
  )

  /** The reconciliation validator (schemas/reconciliation_state.py). */
  predicate ReconciliationCoherent(r: ReconciliationSnapshot) {
    if r.status == MATCH then
      && r.permission == NEW_ENTRIES_ALLOWED && r.reasonCodes == [] && r.artifact.None? && r.humanEvent.None?
      && !r.managedExitAllowed && !r.flattenAllowed
    else
      && r.permission == MANAGED_EXIT_ONLY && RECONCILIATION_MISMATCH in r.reasonCodes && r.artifact.Some?
      && r.managedExitAllowed && r.flattenAllowed
  }

  /** The human event names the broken protection and points at the halt artifact, which carries the mismatch. */
  predicate EventPointsAtHalt(r: ReconciliationSnapshot) {
    && r.humanEvent.Some? && r.artifact.Some?
    && r.humanEvent.value.reasonCode == PROTECTION_HIERARCHY_VIOLATION
    && r.humanEvent.value.artifactId == r.artifact.value.artifactId
    && r.humanEvent.value.createdAt == r.artifact.value.createdAt == r.createdAt
    && r.artifact.value.reasonCodes == r.reasonCodes
  }

  datatype ReconcileError = WrongExpectedSource | WrongBrokerSource

  function Reconcile(expected: PositionSnapshot, broker: PositionSnapshot, createdAt: Time,
                     reconciliationId: Option<string>)
    : Result<ReconciliationSnapshot, ReconcileError>
  {
    if expected.source != EXECUTION_LEDGER then Err(WrongExpectedSource)
    else if broker.source != BROKER_REPORT then Err(WrongBrokerSource)
    else
      var rid := if reconciliationId.Some? && reconciliationId.value != "" then reconciliationId.value
                 else "recon-" + expected.snapshotId + "-" + broker.snapshotId;
      var unprotected := !FullyProtected(expected.legs) || !FullyProtected(broker.legs);
      if NormalizedLegs(expected.legs) == NormalizedLegs(broker.legs) && !unprotected then
        Ok(ReconciliationSnapshot(rid, createdAt, expected, broker, MATCH, NEW_ENTRIES_ALLOWED, [], None, None, false,
                                  false))
      else
        var artifact := HaltArtifact(rid + "-mismatch", createdAt, [RECONCILIATION_MISMATCH]);
        var event := if unprotected then Some(BrokenSpreadEvent(PROTECTION_HIERARCHY_VIOLATION, createdAt,
                                                                artifact.artifactId)) else None;
        Ok(ReconciliationSnapshot(rid, createdAt, expected, broker, MISMATCH, MANAGED_EXIT_ONLY,
                                  [RECONCILIATION_MISMATCH],
                                  Some(artifact), event, true, true))
  }

  /* ---- equal keys mean equal exposure ---- */

  lemma SameKeySameProfile(x: PositionLeg, y: PositionLeg)
    requires KeyOf(x) == KeyOf(y)
    ensures ProfileOf(x) == ProfileOf(y) && x.contracts == y.contracts
  {
    var a, b := KeyOf(x).texts, KeyOf(y).texts;
    assert a[0] == b[0] && a[2] == b[2] && a[3] == b[3] && a[4] == b[4] && a[5] == b[5];
  }

  lemma KeysOfRemoval(a: seq<PositionLeg>, b: seq<PositionLeg>, i: nat)
    requires multiset(Keys(a)) == multiset(Keys(b)) && a != [] && i < |b| && KeyOf(b[i]) == KeyOf(a[0])
    ensures multiset(Keys(a[1..])) == multiset(Keys(b[..i] + b[i + 1..]))
  {
    RemoveFromMultiset(Keys(a), Keys(b), i);
    assert Keys(a[1..]) == Keys(a)[1..];
    assert Keys(b[..i] + b[i + 1..]) == Keys(b)[..i] + Keys(b)[i + 1..];
  }

  lemma FindKey(a: seq<PositionLeg>, b: seq<PositionLeg>) returns (i: nat)
    requires multiset(Keys(a)) == multiset(Keys(b)) && a != []
    ensures i < |b| && KeyOf(b[i]) == KeyOf(a[0])
  {
    assert Keys(a)[0] in multiset(Keys(a));
    assert Keys(a)[0] in Keys(b);
    i :| 0 <= i < |b| && Keys(b)[i] == KeyOf(a[0]);
  }

  lemma ExposureSplitsOff(a: seq<PositionLeg>, b: seq<PositionLeg>, i: nat, p: Profile)
    requires a != [] && i < |b| && ProfileOf(a[0]) == ProfileOf(b[i]) && a[0].contracts == b[i].contracts
    requires ExposureTo(a[1..], p) == ExposureTo(b[..i] + b[i + 1..], p)
    ensures ExposureTo(a, p) == ExposureTo(b, p)
  {
    ContractsSplitOff(a, b, i, HasProfile(p));
  }

  lemma {:induction false} EqualKeysSameExposure(a: seq<PositionLeg>, b: seq<PositionLeg>, p: Profile)
    requires multiset(Keys(a)) == multiset(Keys(b))
    ensures ExposureTo(a, p) == ExposureTo(b, p)
  {
    if a == [] {
      assert |multiset(Keys(b))| == 0;
    } else {
      var i := FindKey(a, b);
      KeysOfRemoval(a, b, i);
      EqualKeysSameExposure(a[1..], b[..i] + b[i + 1..], p);
      SameKeySameProfile(a[0], b[i]);
      ExposureSplitsOff(a, b, i, p);
    }
  }

  /** Equal keys force the two protection verdicts to agree. */
  lemma EqualKeysSameVerdict(a: seq<PositionLeg>, b: seq<PositionLeg>)
    requires multiset(Keys(a)) == multiset(Keys(b))
    ensures SameExposure(a, b) && (FullyProtected(a) <==> FullyProtected(b))
  {
    forall p ensures ExposureTo(a, p) == ExposureTo(b, p) { EqualKeysSameExposure(a, b, p); }
    VerdictDependsOnExposureOnly(a, b);
  }

  lemma NormalizedLegsCompareKeys(a: seq<PositionLeg>, b: seq<PositionLeg>)
    ensures NormalizedLegs(a) == NormalizedLegs(b) <==> multiset(Keys(a)) == multiset(Keys(b))
  {
    KeysAreTotallyOrdered();
    SortedTuplesCompareMultisets(Keys(a), Keys(b), KeyLeq);
  }

  /**
   * Reconciliation is exact: a MATCH needs equal keys as multisets and one coverable book (the other is then
   * coverable too), a human event is raised iff some book is not coverable, and the validator always accepts.
   */
  lemma ReconcileIsExact(expected: PositionSnapshot, broker: PositionSnapshot, createdAt: Time, id: Option<string>)
    ensures Reconcile(expected, broker, createdAt, id).Ok?
        <==> expected.source == EXECUTION_LEDGER && broker.source == BROKER_REPORT
    ensures var r := Reconcile(expected, broker, createdAt, id); r.Ok? ==>
      && ReconciliationCoherent(r.value)
      && r.value.expected == expected && r.value.broker == broker && r.value.createdAt == createdAt
      && (r.value.status == MISMATCH ==> r.value.reasonCodes == [RECONCILIATION_MISMATCH])
      && (r.value.humanEvent.Some? ==> EventPointsAtHalt(r.value))
      && (r.value.status == MATCH
          <==> multiset(Keys(expected.legs)) == multiset(Keys(broker.legs)) && EnoughLongs(expected.legs))
      && (r.value.humanEvent.Some? <==> !EnoughLongs(expected.legs) || !EnoughLongs(broker.legs))
      && (r.value.permission == NEW_ENTRIES_ALLOWED <==> r.value.status == MATCH)
  {
    ReconcileShape(expected, broker, createdAt, id);
    NormalizedLegsCompareKeys(expected.legs, broker.legs);
    EmergencyStateIsExact(expected.legs);
    EmergencyStateIsExact(broker.legs);
    if multiset(Keys(expected.legs)) == multiset(Keys(broker.legs)) {
      EqualKeysSameVerdict(expected.legs, broker.legs);
    }
  }

  lemma ReconcileShape(expected: PositionSnapshot, broker: PositionSnapshot, createdAt: Time, id: Option<string>)
    ensures Reconcile(expected, broker, createdAt, id).Ok?
        <==> expected.source == EXECUTION_LEDGER && broker.source == BROKER_REPORT
    ensures var r := Reconcile(expected, broker, createdAt, id);
      var covered := FullyProtected(expected.legs) && FullyProtected(broker.legs);
      r.Ok? ==>
        && ReconciliationCoherent(r.value)
        && r.value.expected == expected && r.value.broker == broker && r.value.createdAt == createdAt
        && (r.value.status == MISMATCH ==> r.value.reasonCodes == [RECONCILIATION_MISMATCH])
        && (r.value.humanEvent.Some? ==> EventPointsAtHalt(r.value))
        && (r.value.status == MATCH <==> NormalizedLegs(expected.legs) == NormalizedLegs(broker.legs) && covered)
        && (r.value.humanEvent.Some? <==> !covered)
        && (r.value.permission == NEW_ENTRIES_ALLOWED <==> r.value.status == MATCH)
  {
  }

  /* ---- comparison by text is finer than exposure ---- */

  lemma TrailingZeroKeepsValue()
    ensures DecimalValue("5.0") == 5.0 && DecimalValue("5.00") == 5.0
  {
    assert IndexOf("5.0", 'E') == 3 && IndexOf("5.0", '.') == 1 && IndexOf("5.00", 'E') == 4
        && IndexOf("5.00", '.') == 1;
    assert "5.0"[..3] == "5.0" && "5.00"[..4] == "5.00";
    assert Digits("5.0", 0) == 50 && Digits("5.00", 0) == 500;
    assert Scaled(50.0, -1) == Scaled(5.0, 0) && Scaled(500.0, -2) == Scaled(50.0, -1);
  }

  /** Two long legs that are the same position, written with different strike texts. */
  ghost predicate OnlyTextDiffers(x: PositionLeg, y: PositionLeg) {
    IsLong(x) && ProfileOf(x) == ProfileOf(y) && x.contracts == y.contracts && x.strike.text != y.strike.text
  }

  lemma StrikeTextsCanDiffer() returns (x: PositionLeg, y: PositionLeg)
    ensures OnlyTextDiffers(x, y)
  {
    var a, b := FiveWrittenTwice();
    x := Leg(XSP, "XSP", "2026-01-16", PUT, a, LONG, 1, None);
    y := Leg(XSP, "XSP", "2026-01-16", PUT, b, LONG, 1, None);
  }

  lemma FiveWrittenTwice() returns (a: Decimal, b: Decimal)
    ensures a.value == b.value && |a.text| != |b.text|
  {
    TrailingZeroKeepsValue();
    a, b := Decimal("5.00", 5.0), Decimal("5.0", 5.0);
  }

  /** Equal exposure and nothing unprotected on either side is still a mismatch when a strike is written differently. */
  lemma EqualStrikesCanMismatch(expected: PositionSnapshot, broker: PositionSnapshot, x: PositionLeg, y: PositionLeg,
                                createdAt: Time, id: Option<string>)
    requires expected.source == EXECUTION_LEDGER && broker.source == BROKER_REPORT
    requires expected.legs == [x] && broker.legs == [y] && OnlyTextDiffers(x, y)
    ensures SameExposure(expected.legs, broker.legs) && FullyProtected(expected.legs) && FullyProtected(broker.legs)
    ensures Reconcile(expected, broker, createdAt, id).value.status == MISMATCH
  {
    OneLegExposure(x, y);
    assert [] + [x] == [x] && [] + [y] == [y];
    LongsNeverHurt([], [x]);
    LongsNeverHurt([], [y]);
    assert multiset(Keys([x])) != multiset(Keys([y])) by { DifferentTextsDifferentKeys(x, y); }
    NormalizedLegsCompareKeys([x], [y]);
  }

  lemma OneLegExposure(x: PositionLeg, y: PositionLeg)
    requires ProfileOf(x) == ProfileOf(y) && x.contracts == y.contracts
    ensures SameExposure([x], [y])
  {
    forall p ensures ExposureTo([x], p) == ExposureTo([y], p) {
      assert [x] == [x] + [] && [y] == [y] + [];
      ContractsCons(x, [], HasProfile(p));
      ContractsCons(y, [], HasProfile(p));
    }
  }

  lemma DifferentTextsDifferentKeys(x: PositionLeg, y: PositionLeg)
    requires x.strike.text != y.strike.text
    ensures multiset(Keys([x])) != multiset(Keys([y]))
  {
    assert KeyOf(x).texts[4] != KeyOf(y).texts[4];
    assert Keys([x]) == [KeyOf(x)] && Keys([y]) == [KeyOf(y)];
    assert KeyOf(x) in multiset([KeyOf(x)]) && KeyOf(x) !in multiset([KeyOf(y)]);
  }
}
