# A verified model of the paper-trading order path

The repository is a fail-closed order system for defined-risk option spreads. Proposals pass a deterministic gateway,
become tickets and submit intents, are written to an append-only log *before* the broker is called, and are reconciled
from that log after a restart. Operators halt, resume, cancel and flatten through an audited control plane. Positions
count as safe only if every short contract can be covered by a protective long.

This project models that path in Dafny and proves what it is for:

* **Protection** (`PositionLegs`, `Allocation`, `Serving`, `Flow`, `Exposure`, `Protection`, `Shortfall`, over
  `StableSort` and `Positions`). The greedy allocator of `unprotected_short_legs` leaves the minimum possible number of
  short contracts uncovered (max-flow equals min-cut on nested eligibility). Its empty answer means a full cover
  exists, which means every short strike has enough longs. The verdict ignores leg order, splits, symbols and prices,
  and more longs never hurt. The report lists exactly the shorts whose contracts exceed what the shorts served before
  them left of their eligible longs.
* **Reconciliation** (`CanonicalOrder`, `Reconciliation`). A match is exactly equal leg keys and coverable books.
* **Gateway and orders** (`SafetyState`, `Trade`, `Gateway`, `ReasonTable`, `Orders`). Approval is exactly the
  conjunction of the rules, stated without the gates; each reason code is reported iff the rule it names is broken, by
  a table with the thresholds written out; the contradiction branch is unreachable; tickets route the long leg first.
* **Log and brokers** (`AuditLog`, `RecoveryFindings`, `Brokers`). Trusted rehydration is exact; the recovery scan
  lists exactly the unresolved attempts and is right about the hash, the number and the newest report of each; the fake
  broker's two maps stay inverse with one order per key.
* **Paper cycle** (`PaperCycle`, `CycleProperties`, `CycleOutcomes`). The loop equals a function of log and broker;
  each outcome of an item holds iff its condition on the inputs does, a confirmed intent under an unused key always
  reaches the broker, and each counter is the number of items that met its condition; rows are conserved; every order
  that reaches the broker is the intent its item minted, is in the log, passed every rule, and was approved by the
  confirmer's own token for that very intent.
* **Operator commands** (`ControlPlane`, `StoreReads`, `Cancellation`, `Authentication`, `CancelRecovery`,
  `CancelLiveness`, `OperatorService`). Two-phase cancel in success and failure, which orders authenticate, when the
  command succeeds, what it means for recovery in every reachable state, flatten, the kill switch, artifact ids that
  embed the log length, command-bound tokens.
* **All runs** (`Protocol`, `Provenance`, `Agreement`, `Refinement`, `Operations`). Concurrent processes take the steps
  of cycles, cancels and flattens in any order, crash between any two of them, and the broker may restart empty. In
  every reachable state each broker order has its submit attempt in the log, each open one is listed by recovery, and
  the broker was called at most once per key; each report was minted for a stored paper intent; and if the log does not
  say of an open order what the broker says, its report is under way, its fill was dated before its submission, or a
  crash lost the answer. The code's own operations are shown to be schedules of that system with exactly the broker
  calls they make, so the same holds after any sequence of them; over every such sequence the kill switch follows the
  last effective command and operator artifacts have distinct ids.
* **Replay** (`Replay`, `Drawdown`). Resubmission changes nothing, the `unresolved` flag is compared with recovery, and
  the one-pass drawdown equals its quadratic definition.

State that the source updates in place is a class (`AuditStore`, `FakeBroker`, `LocalPaperBroker`, `AuthRegistry`,
`Service`) or a loop, each proved equal to a function on values; the theorems are about those functions.

Given functions: the SHA-256 digest of an object's JSON text, the digest that names a rejection, calendar conversions
and printed times are fields of `Env`. Nothing is assumed about them except where a lemma says so
(`CycleProperties.ApprovalFitsOneIntent` asks for a digest without collisions). A stored payload is represented by the
object it serializes. Wall-clock readings are parameters. Time is an integer number of microseconds; money is `real`.
The strike of a position leg keeps its decimal text, because reconciliation compares text.

## Model

| member | source | states |
|---|---|---|
| `PositionLegs.EligibilityIsNested` | schemas/position_state.py:177-211 | within one series, a long that protects a more constrained short protects every less constrained one, for puts and calls alike |
| `Allocation.Consume` | schemas/position_state.py:164-172 | the inner loop over eligible longs computes the drained need and the drained capacity table |
| `Allocation.Allocate` | schemas/position_state.py:149-174 | the outer loop leaves each short exactly its unmet need and reports the shorts with one, which Shortfall.ReportIsExact identifies |
| `Allocation.FindUnprotectedShortLegs` | schemas/position_state.py:149-174 | the whole imperative allocator equals the function whose verdict and whose reported legs the theorems below determine |
| `Allocation.DrainConserves` | schemas/position_state.py:164-172 | what a short receives is exactly what its longs lose |
| `StableSort.SortByIsStable` | schemas/position_state.py:177-199 | legs with equal sort keys keep their original relative order |
| `Flow.CutBound` | schemas/position_state.py:149-174 | no plan can move more contracts across a cut than the cut's longs hold, with equality for plans that use those longs up on the cut's shorts |
| `Serving.DeficitIsTheCut` | schemas/position_state.py:149-174 | what the greedy history leaves uncovered is the value of the cut made of its deficits |
| `Protection.AllocatorAchieves` | schemas/position_state.py:149-174 | the allocator's own assignment is a legal cover leaving exactly the contracts it reports as missing |
| `Protection.AllocatorIsOptimal` | schemas/position_state.py:149-211 | for every book and every legal cover of it, the allocator leaves no more contracts unprotected |
| `Protection.VerdictIsExact` | schemas/position_state.py:149-211 | nothing is reported iff a full cover exists iff at every short strike the equally or more constrained shorts fit into the eligible longs |
| `Shortfall.HistoryMisses` | schemas/position_state.py:149-211 | whichever eligible longs each short takes, in every serving history of the allocator's order short i misses its own contracts minus the eligible ones that the shorts of its series before it left, a number defined without any capacity table |
| `Shortfall.ReportIsExact` | schemas/position_state.py:149-174 | the reported legs are the shorts at exactly the positions of the serving order that miss contracts, each once and in that order |
| `Shortfall.MissingIsUncovered` | schemas/position_state.py:149-174 | what a short misses is what the allocator's own optimal cover leaves it without |
| `Protection.VerdictDependsOnExposureOnly` | schemas/position_state.py:160-199 | books with the same contracts per (underlying, expiry, type, strike, side) get the same verdict |
| `Protection.VerdictIgnoresOrder` | schemas/position_state.py:160-199 | permuting legs does not change the verdict |
| `Protection.VerdictIgnoresSplits` | schemas/position_state.py:160-199 | splitting a leg into two with the same total does not change the verdict |
| `Protection.LongsNeverHurt` | schemas/position_state.py:160-199 | adding long legs to a fully protected book keeps it fully protected |
| `CanonicalOrder.SortedTuplesCompareMultisets` | gateway/reconciliation.py:184-198 | sorting under a total order and comparing is comparing as multisets |
| `Reconciliation.BrokerMintIsExact` | gateway/reconciliation.py:31-57 | a broker report is refused only for a missing name or a future date; the snapshot carries its name, dates and legs and is NORMAL iff the book is coverable |
| `Reconciliation.LedgerMintIsExact` | gateway/reconciliation.py:60-95 | a ledger is minted iff its report ids match as multisets and it is not dated in the future; the snapshot carries its ids, dates and legs and is NORMAL iff coverable |
| `Reconciliation.EqualKeysSameVerdict` | gateway/reconciliation.py:176-198 | equal normalized keys force equal exposure and equal protection verdicts |
| `Reconciliation.ReconcileIsExact` | gateway/reconciliation.py:98-167 | MATCH iff keys are equal as multisets and the book is coverable; a human event iff some book is not, pointing at the halt artifact; both snapshots and the time in their own places; the validator always accepts; wrong sources are refused |
| `Reconciliation.EqualStrikesCanMismatch` | gateway/reconciliation.py:184-198 | equal exposure with nothing unprotected is still a mismatch when one strike is written differently |
| `Reconciliation.StrikeTextsCanDiffer` | gateway/reconciliation.py:192-192 | such a pair exists: the same leg at 5.0 and at 5.00 |
| `Gateway.OrderedByFirstOccurrence` | gateway/gateway.py:61-134 | the collected codes are ordered by their first occurrence over all gate outputs |
| `Gateway.FirstOccurrences` | gateway/gateway.py:61-80 | the collected codes have no duplicate and the same members as the gate outputs |
| `Gateway.Validate` | gateway/gateway.py:61-134 | the accumulating loop over all gates computes the decision function, whose codes ReasonTable.CodeMeansBrokenRule determines |
| `Gateway.GatewayIsExact` | gateway/gateway.py:61-210 | approval iff every rule holds, where the rules are stated without the gates; the codes are the deduplicated gate outputs, which ReasonTable determines code by code; a contradiction is never reported |
| `ReasonTable.CodeMeansBrokenRule` | gateway/gates.py:48-227 | for every code and every request: the decision carries the code iff the request breaks the rule the code stands for, by a case table over the request's fields with the thresholds as numbers |
| `ReasonTable.ReasonCodesAreExact` | gateway/gateway.py:61-134 | the reason codes are exactly the codes of the broken rules, each once, in the fixed reporting order; approval iff none is broken |
| `Gateway.ApproveNeverContradicts` | gateway/gateway.py:136-194 | passing gates imply that all three token mints and the validated-intent validator succeed |
| `Orders.TicketMintIsExact` | gateway/order_routing.py:60-157 | a ticket is minted iff MARKET was not requested; it is MARKET iff an emergency state allows it; the long leg routes first at equal size |
| `Orders.SubmitIntentMintIsExact` | gateway/broker_submission.py:57-156 | the early guards are exactly the intent's validator: ticket age, attempt counter, price iff LIMIT; the intent carries ticket, attempt, mode, time and price as given |
| `Orders.ReportMintIsExact` | gateway/broker_submission.py:159-199 | a report is minted iff the filled contracts fit, a full fill has price and time, and no time precedes the submission; it carries the intent's identity and the given evidence unchanged |
| `Orders.NatTextIsInjective` | gateway/broker_submission.py:57-156 | printed attempt counters are distinct |
| `Orders.KeysIdentifyAttempts` | gateway/broker_submission.py:57-156 | two submit decisions share a key only for the same hash and the same attempt |
| `AuditLog.AuditStore.Append` | storage/base.py:139-186 | an append adds the one derived row or is refused and changes nothing; earlier rows are never touched |
| `AuditLog.AuditStore.RecordSubmitAttempt` | storage/base.py:188-211 | a submit attempt is stored iff its key is unused, otherwise the duplicate error and no change |
| `AuditLog.AppendKeepsLogValid` | storage/sqlite_store.py:94-130 | every accepted append keeps numbering, derivation, validity and key uniqueness of the whole table |
| `AuditLog.RehydrationIsExact` | storage/base.py:215-237 | stored rows rehydrate to their object and nothing else does; without provenance no gated type is rebuilt |
| `AuditLog.AppendThenRehydrate` | storage/models.py:233-368 | append then rehydrate returns the object, and any altered copy of its row is refused |
| `AuditLog.AuditStore.RehydrateEvent` | storage/base.py:215-237 | the trusted path on the object |
| `AuditLog.AuditStore.CollectLatestReports` | storage/base.py:249-258 | the first pass maps each key to its highest-numbered report |
| `AuditLog.ScanSubmits` | storage/base.py:259-283 | the second pass computes the findings for submit attempts without a terminal newest report, which RecoveryFindings.RecoveryDescribesAttempts determines |
| `AuditLog.AuditStore.FindUnresolvedOpenOrders` | storage/base.py:241-283 | both passes together equal the recovery function that the lemmas below characterise |
| `AuditLog.RecoveryIsExact` | storage/base.py:241-283 | a key is listed iff it has a submit attempt and no report or a non-terminal newest one |
| `AuditLog.FindingsInSubmitOrder` | storage/base.py:241-283 | findings come in strictly increasing submit order |
| `RecoveryFindings.RecoveryDescribesAttempts` | storage/base.py:241-283 | on a valid log each submit row of an unresolved key has exactly one finding, in submit order, and every finding is right about key, ticket hash, submit number, and number and lifecycle of the newest report or that there is none |
| `AuditLog.AppendAffectsOneKey` | storage/base.py:241-283 | appending a row can change the verdict of that row's key only |
| `Brokers.SubmitFacts` | brokers/fake.py:93-116 | a submit adds at most the order of its own unknown key, answers with it, and keeps the maps inverse; an error changes nothing |
| `Brokers.ResubmitIsIdempotent` | brokers/fake.py:93-116 | a repeated same-key submit changes nothing and answers with the stored fill, whatever the broker would do now |
| `Brokers.CancelFacts` | brokers/fake.py:129-149 | a cancel touches only the addressed open order, never reopens one, and terminal orders are absorbing |
| `Brokers.SubmitIsExact` | brokers/fake.py:93-116 | LIVE is refused, a known key answers with its stored fill, a new one with what this broker simulates, placed last iff it is accepted |
| `Brokers.SimulatedFillIsCoherent` | brokers/fake.py:168-250 | what a fake broker answers to a new order: contracts, lifecycle, price and times fit together |
| `Brokers.CancelIsExact` | brokers/fake.py:129-149 | a cancel succeeds iff the broker holds that order open, and changes its lifecycle and completion time alone |
| `Brokers.PaperAcceptsIff` | brokers/paper.py:231-305 | the paper broker admits an intent iff it is PAPER, armed, within underlyings, size and order type, and confirmed for this very intent where demanded |
| `Brokers.FailureCodeIsExact` | brokers/paper.py:231-305 | the reason code of a failed paper submit, code by code, iff that obstacle is the first one |
| `Brokers.OpenOrdersAreExact` | brokers/fake.py:151-152 | the open list is exactly the stored fills in an open state |
| `Brokers.FakeBroker.SubmitOrder` | brokers/fake.py:93-116 | the dictionary updates equal the function on the book |
| `Brokers.FakeBroker.CancelOrder` | brokers/fake.py:129-149 | likewise for cancel, with the adapter's acknowledgement as a parameter |
| `Brokers.FakeBroker.GetOpenOrders` | brokers/fake.py:151-152 | likewise for the open list |
| `Brokers.LocalPaperBroker.SubmitOrder` | brokers/paper.py:222-305 | policy refusals leave the inner broker alone, otherwise exactly one inner submit |
| `PaperCycle.RunPaperCycle` | services/paper_cycle.py:171-383 | unsafe configuration or missing routing state raises before any effect; otherwise log, broker, counters and ids equal the cycle function, also when an item raises midway; CycleOutcomes determines that function |
| `PaperCycle.SubmitPersisted` | services/paper_cycle.py:307-358 | persist before call, call, persist after call, with the duplicate and failure branches |
| `PaperCycle.ProcessItem` | services/paper_cycle.py:236-358 | one loop body equals the item function, whose outcomes CycleOutcomes.OutcomesAreExact determines |
| `CycleOutcomes.IntentExistsIff` | services/paper_cycle.py:253-290 | an item has a submit intent iff it passes every rule, is routable and priced, and the attempt is numbered from one |
| `CycleOutcomes.OutcomesAreExact` | services/paper_cycle.py:236-358 | each of the five outcomes iff its condition on the inputs, the log and the broker: rejected iff ineligible, deferred iff the price or the approval is missing, skipped iff the key is taken, failed iff the broker refuses, submitted iff it answers with a reportable fill |
| `CycleOutcomes.ConfirmedIntentsAreSubmitted` | services/paper_cycle.py:293-358 | a confirmed intent under an unused key is persisted, the broker is called once under its key, the book is the broker's, and report, refusal or error follow its answer; under a used key nobody is called |
| `CycleOutcomes.CountersAreExact` | services/paper_cycle.py:199-383 | each counter of a cycle is the number of items that met that outcome's condition when their turn came |
| `CycleOutcomes.CycleNamesItsRows` | services/paper_cycle.py:199-383 | the record ids a cycle reports are those of exactly the rows it wrote, in order |
| `CycleOutcomes.NewFillIsReportable` | services/paper_cycle.py:331-358 | a new order's answer can be reported iff nothing is filled or the broker's clock is not behind the submission |
| `CycleProperties.CycleConserves` | services/paper_cycle.py:199-383 | on normal return the five counters add up to the requests, the log grew by 1 + 2 rejected + 4 (deferred + duplicates) + 5 (failed + submitted) rows, and new submit and report rows match |
| `CycleProperties.AcceptedIntentsAreSafe` | services/paper_cycle.py:253-331 | an intent the cycle hands over and the paper broker accepts passed every rule, is PAPER, within cap and underlyings, LIMIT with a price in NORMAL, long leg first, positive maximum loss, approved under its own digest |
| `CycleProperties.CyclePlacesOnlySafeOrders` | services/paper_cycle.py:171-383 | every order a whole cycle adds to the broker was handed over for one of its requests: the intent that item minted, the approval the confirmer gave for it, safe in that sense, and stored as a new row under its key |
| `CycleProperties.CycleLeavesSwitch` | services/paper_cycle.py:171-383 | a whole cycle, raising or not, alters no earlier row and writes no kill-switch state |
| `CycleProperties.ApprovalFitsOneIntent` | brokers/paper.py:157-171 | with a collision-free digest one approval confirms at most one intent |
| `ControlPlane.ArtifactIdsEmbedTheCount` | ops/control_plane.py:260-266 | ids issued at different log lengths differ, whatever the clock says |
| `ControlPlane.CommandIdsAreDistinct` | ops/control_plane.py:260-285 | two rows whose ids embed their own positions have distinct ids, even under a frozen clock |
| `ControlPlane.KillSwitchIsReadable` | ops/control_plane.py:323-335 | on a valid log the switch always rehydrates to the newest switch row |
| `ControlPlane.OperationMovesSwitch` | ops/control_plane.py:395-454 | a halt or resume moves permission exactly if its token is bound to it, and no accepted append of another record moves it |
| `StoreReads.LatestUpto` | reports/_store_reads.py:53-68 | the loop returns the newest counting row by domain time, then position |
| `StoreReads.ReportPicksLastRow` | reports/_store_reads.py:53-68 | the report picks the newest switch row iff no counting one is dated later |
| `StoreReads.ReportAgreesWithSwitch` | reports/_store_reads.py:120-140 | with non-decreasing times the report view equals the control plane's permission |
| `OperatorService.AuthRegistry.ConfirmHuman` | ops/control_plane.py:185-205 | a matching phrase mints a fresh token bound to the command; no existing binding is re-pointed |
| `OperatorService.Service.RequireHuman` | ops/control_plane.py:287-309 | only a token bound to this command passes; a refusal is audited first |
| `OperatorService.Service.HaltNewEntries` | ops/control_plane.py:395-420 | halting equals the log function used in the fold |
| `OperatorService.Service.ResumeNewEntries` | ops/control_plane.py:422-454 | resuming equals the log function used in the fold |
| `OperatorService.HaltIsReported` | ops/control_plane.py:395-420 | after an authorized halt the stored switch and the status report carry the re-arm mode, reason, note, time and command id of that very halt |
| `OperatorService.ResumeIsReported` | ops/control_plane.py:422-454 | after an authorized resume switch and status report are inactive, without reason or re-arm mode, under that command's id |
| `OperatorService.Service.Status` | ops/control_plane.py:343-355 | reading writes its own artifact only and reports switch, reason, re-arm mode, command id, broker mode and event count |
| `OperatorService.Service.ResolveIdentity` | ops/control_plane.py:456-535 | the set and dictionary pass over the reports equals the authentication function, which Authentication.ResolveIsExact characterises |
| `OperatorService.Service.CancelOpenOrders` | ops/control_plane.py:586-634 | the whole command on store and broker equals the cancel function, mutations before a failure included; CancelLiveness says when it succeeds |
| `OperatorService.Service.FlattenPaperOnly` | ops/control_plane.py:636-695 | the whole command equals the flatten function |
| `Cancellation.ResolveIsAuthentic` | ops/control_plane.py:456-535 | an authenticated order has a persisted PAPER intent under its own key and an open persisted report saying exactly what the broker says |
| `Authentication.ResolveIsExact` | ops/control_plane.py:456-535 | a broker order authenticates as intent i iff, read off the rows: all reports naming it share one key, the newest is open and says what the broker says in seven fields, and the row under that key stores the PAPER intent i it was minted for |
| `Cancellation.AnyUnauthenticatedOrderRefuses` | ops/control_plane.py:600-612 | authentication fails as a whole iff it fails for some open order |
| `Cancellation.CancelSucceeds` | ops/control_plane.py:586-634 | on success, over any valid log and broker, the unresolved set loses exactly the keys of the authenticated intents, each terminal report carries the open order's evidence, nothing stays open, one CANCEL artifact |
| `Cancellation.CancelFails` | ops/control_plane.py:600-634 | without authentication the broker is untouched; otherwise a prefix keeps its terminal reports and only its keys leave the unresolved set, orders behind the failing one are untouched, one REJECT artifact |
| `CancelRecovery.ResolvedIsOpenBook` | ops/control_plane.py:456-535 | in every state of the protocol, authentication of all open orders yields the broker's own keys of its open orders, each once |
| `CancelRecovery.CancelResolvesOpenOrders` | ops/control_plane.py:586-634 | in every reachable state, after a successful cancel a key is unresolved iff it was before and its order was not open at the broker; nothing stays open |
| `CancelRecovery.FailedCancelKeepsRest` | ops/control_plane.py:600-634 | in every reachable state, after a failed cancel either nothing changed at the broker and in recovery, or the orders before the failing one are closed, the failing one and all later ones are still unresolved, and the later ones are untouched at the broker |
| `CancelLiveness.CancelSucceedsIff` | ops/control_plane.py:586-634 | in every reachable state, with a truthful broker whose clock is not behind the submissions, cancel succeeds iff it is authorized, has a broker, and the newest report of every open order says what the broker says |
| `CancelLiveness.CancelSucceedsAfterJobs` | ops/control_plane.py:586-634 | after any sequence of cycles, commands and broker restarts the same holds with a condition on the broker alone: no open order's fill is dated before its submission |
| `CancelLiveness.FlattenSucceedsIff` | ops/control_plane.py:636-695 | with a truthful broker flatten succeeds iff it is authorized, in PAPER mode and has a broker |
| `Cancellation.FlattenKeepsRecovery` | ops/control_plane.py:636-695 | flatten writes one artifact and no report, so recovery lists exactly what it listed before |
| `Cancellation.FlattenClosesOrders` | ops/control_plane.py:636-695 | a granted flatten that succeeds leaves nothing open, one that fails has touched a prefix of the open orders only, a refused one nothing |
| `Protocol.StepKeepsInv` | services/paper_cycle.py:307-358 | every step of every process, crash and broker restart keeps the system invariant |
| `Protocol.EveryRunIsCrashSafe` | services/paper_cycle.py:307-358 | after any schedule every broker order has its submit attempt, every open one is listed by recovery, and the broker was called at most once per key |
| `Protocol.ReportsNeedACall` | services/paper_cycle.py:310-358 | every report row follows exactly one broker call under its key, names that key's order and has its submit attempt |
| `Protocol.TerminalOrdersAreFinal` | brokers/fake.py:93-149 | over any schedule without a broker restart a terminal order never changes, and no log row is ever altered |
| `Provenance.EveryReportIsBacked` | services/paper_cycle.py:307-358 | after any schedule every report was minted for a PAPER intent that the log stores under the report's key |
| `Agreement.StepTells` | services/paper_cycle.py:307-358 | every step of every process keeps each open order accounted for: reported as the broker has it, still to be reported, dated before its submission, or lost by the crash of the process that held the answer |
| `Agreement.DisagreementHasACause` | services/paper_cycle.py:307-358 | after any schedule an open order about which log and broker differ has one of those three causes |
| `Agreement.AgreesUnlessBackdated` | services/paper_cycle.py:331-358 | with all processes at rest and no answer lost, the newest report of an open order says what the broker says iff its fill is not dated before its submission |
| `Refinement.CycleIsASchedule` | services/paper_cycle.py:171-383 | a whole paper cycle, from any state with other processes midway, is a schedule of the protocol with exactly the cycle's broker calls |
| `Operations.CancelDoes` | ops/control_plane.py:586-634 | a whole cancel command is a schedule of the protocol |
| `Operations.FlattenDoes` | ops/control_plane.py:636-695 | a whole flatten command is a schedule of the protocol |
| `Operations.EveryJobSequenceIsSafe` | services/paper_cycle.py:171-383 | after any number of cycles, reads, halts, resumes, cancels, flattens and broker restarts, of the code's own log and broker: every order has its submit attempt, every open one is listed, and no key was called twice |
| `Operations.OneArtifactPerCommand` | ops/control_plane.py:395-695 | each command adds exactly one audit artifact, granted or refused, failed or not, and alters no earlier row |
| `Operations.ArtifactSaysOutcome` | ops/control_plane.py:287-695 | that artifact carries the command's own reason code, its time, and the decision that came of it: granted exactly if the command succeeded, REJECT otherwise |
| `Operations.CommandArtifactsAreDistinct` | ops/control_plane.py:260-285 | over every sequence of cycles and commands, the artifacts of two different commands have different ids |
| `Operations.KillSwitchFollowsLastCommand` | ops/control_plane.py:323-454 | over every such sequence, permission for new entries is decided by the last halt or resume with a token bound to it; cycles, reads, cancels, flattens, restarts and refused attempts never alter it |
| `Replay.ResubmissionIsIdempotent` | replay/runner.py:382-414 | any number of same-key resubmissions changes neither log nor broker and is refused by the store |
| `Replay.ReplayIsUndisturbed` | replay/runner.py:313-416 | under an unused key the run equals the run without its loop, apart from the counted attempts |
| `Replay.ReplayIsExact` | replay/runner.py:313-416 | one submit row, one further row, at most one new order, no second order, for every number of resubmissions |
| `Replay.ReplayOutcomeIsExact` | replay/runner.py:313-416 | the recorded outcome names the broker's first answer: each error by its name, each lifecycle that can be reported, or that no report can be minted |
| `Replay.FlagAgreesWithRecovery` | replay/results.py:64-77 | the `unresolved` flag equals store recovery iff the broker does not already hold the order cancelled, rejected or expired |
| `Replay.CancelledOrderIsMisjudged` | replay/runner.py:416-416 | every paper order left open, cancelled at the broker and replayed on a new store is flagged although the log settles it |
| `Replay.UnusedKeysAreFresh` | storage/base.py:188-211 | in every reachable state a key without a submit attempt has no report either |
| `Replay.ReplaySubmission` | replay/runner.py:313-416 | the imperative drill equals the function; a reused key raises before any effect |
| `Drawdown.MaxDrawdown` | replay/runner.py:520-530 | one pass returns the final equity and the maximum over all i <= j of equity i minus equity j, the start included |

## Left out

- Crash points inside one store append or one broker call: each is one step, as the store's transaction and the in-memory broker make them.
- Protocol.EveryRunIsCrashSafe: says that open orders are listed, not that every listed order is open; flatten cancels without writing reports, so recovery only over-approximates.
- AuditLog.AuditStore.Append: does not refuse payloads with secret-like field names, because the JSON text they are found in is not modelled.
- AuditLog.RehydrationIsExact: a payload is the object it serializes, so writing and parsing JSON is the identity by representation; checked are digest, provenance, type gate and validators.
- AuditLog.AppendThenRehydrate: the same, because the payload is represented by its object.
- AuditLog.AuditStore.RehydrateEvent: the same, because the payload is represented by its object.
- ControlPlane.CommandIdsAreDistinct: takes two such rows as given; Operations.CommandArtifactsAreDistinct shows over whole runs that commands write them.
- Cancellation.CancelSucceeds: over an arbitrary valid log two open orders could carry one key, so the broker's own keys enter only in reachable states, in CancelRecovery.CancelResolvesOpenOrders.
- Cancellation.CancelFails: for the same reason that later orders stay unresolved is stated for reachable states, in CancelRecovery.FailedCancelKeepsRest.
- CancelLiveness.CancelSucceedsAfterJobs: jobs run to their end; a crash between broker call and report leaves an open order that Agreement.DisagreementHasACause names and that then makes cancel refuse, as CancelLiveness.CancelSucceedsIff says.
- Operations.EveryJobSequenceIsSafe: runs whole operations one after another; interleavings and crashes are covered by the protocol theorem.
- Brokers.FakeBroker.CancelOrder: the adapter's acknowledgement is an arbitrary function of the true fill, which models adapters that answer divergently; the fakes answer truthfully.
- Orders.KeysIdentifyAttempts: asks for hashes of equal length, as SHA-256 texts have.
- JSON text, the secrets scan over it, artifact and event detail prose, and the heartbeat file.
- Record types other than requests, validated intents, tickets, submit intents, reports, kill-switch states and artifacts.
- Pydantic coercion, field lengths, and the context-variable guards around protected constructors.
- Decimal rounding to 28 digits: arithmetic is exact.
- The strategy and gateway stages of a replay scenario, profit per scenario, and pass counting; the gateway itself is modelled once.
- The read-only commands other than status and the export: they copy rows or broker views into report objects and change nothing but their own artifact.
- The command line, the HTTP interface, configuration parsing and the agents' permission tables: they choose arguments for the operations modelled here, and the model quantifies over all arguments.
- Strategies, market-data records and daily reports: they produce proposals and summaries that the order path does not trust; the gateway decides on every proposal.
- That a halted kill switch blocks a paper cycle: the cycle never reads it. That tokens are single-use: they are not.
- Where code and prose differ the code is followed: a limit price of zero fills at 1.00 in the fake brokers; the late-day freshness rule can never apply inside the entry window; the order in which one short takes its eligible longs does not affect optimality.
