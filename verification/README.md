# Motivra backend: verified model

A Dafny model of the parts of the Motivra backend whose correctness depends on order, time and
concurrency, with proofs about every run, every interleaving and every input. Every database
transaction (and every Redis script) is one atomic step; time is an integer that never goes back;
hashing, JSON marshalling, time formatting and provider answers are parameters. Classes hold the
state the services and stores update in place; each of their methods is proved equal to a
specification function, and the theorems are about those functions and about state machines built
from them.

| files | what they model |
|---|---|
| `PaymentLedger` | the payment tables and the store transactions on them |
| `PaymentProtocol`, `PaymentSafety`, `PaymentDeliveries`, `PaymentTheorems` | initiations, webhook deliveries and reconciliation runs racing on one ledger, one transaction at a time, crashing anywhere; the invariant, its preservation, and what follows |
| `PaymentService` | the service and the reconciliation job as code, refining the protocol |
| `PaymentRepeats` | which attempts are announced twice, and by which deliveries |
| `PaymentStranded` | intents and idempotency keys that nothing ever settles or completes, and exactly when they come about |
| `Reconciliation` | what batches of stale attempts account for and drain, and exactly which attempts they starve |
| `Refunds`, `RefundRaces`, `RefundOutcomes` | the refund table, the serialised refund call, and refund calls interleaving check by write by answer by announcement: what is refunded twice, wrongly announced or never settled |
| `SlidingWindow`, `FixedWindow` | the two rate limiters |
| `InspectionRecords`, `ReportText`, `ReportSelection`, `ReportIntegrity`, `InspectionLifecycle`, `InspectionService`, `EvidenceOrder` | inspection reports: the canonical text, the order it lists evidence in, the selected findings, readiness, sealing, issue and verification |
| `Base64Url`, `VehicleCursor`, `VehicleListing`, `Vin` | keyset pagination and its cursor; vehicle identification numbers |
| `BootWiring` | the degraded-boot wiring loop |
| `Dispatch` | scoring and ranking of technicians, in exact arithmetic |
| `Jobs`, `JobRaces` | the jobs ledger, and job calls interleaving check by write |
| `Sessions` | login sessions and refresh rotation |
| `Wrappers`, `Text`, `Sorting` | shared helpers |
| `Instances` | instances of the formats and codecs the model takes as parameters, and an issued report and a listing under them that are not what they should be |

`dafny verify dfyconfig.toml` checks everything.

## What the code does that its documentation does not say

Each of these is proved: where a promise fails, exactly when it does, and that it can.

- A rejected initiation moves CREATED to FAILED, an edge the intent table lacks. A log leaves the table exactly when a rejected initiation moves its own intent (`OnlyRejectionsLeaveTheTable`), that is, for an initiation run alone, exactly when the provider rejects it and the rejection is recorded (`RejectionLeavesTheTable`).
- A CREATED intent can still leave CREATED if and only if its initiation is live and has recorded its attempt or still can (`LeavesIffNotStranded`); a stranded one is never settled by any webhook or reconciliation (`StrandedForever`). A crash between recording the attempt and moving the intent strands it, its attempt PENDING, and a provider that cannot be reached strands it without one (`StrandingHappens`). A PENDING attempt can be settled if and only if its intent is PROCESSING and the receipt is free (`PendingSettlesIff`).
- A claimed idempotency key is never completed, and every later delivery under it refused, once its holder is gone (`AbandonedForever`, `AbandonedRefuses`). A step abandons a key exactly when the delivery that holds it crashes before completing it or has its settlement refused (`AbandonedExactly`). No crash is needed: a webhook that arrives after the attempt was recorded and before the intent was moved to PROCESSING conflicts and abandons its key beside a PROCESSING intent (`AbandonedWithoutCrash`). A delivery that wins its key and runs alone is applied if and only if the attempt already holds the event's status, or is PENDING beside a PROCESSING intent with the receipt free (`DeliveryAloneIff`).
- A settlement is announced up to twice, by the webhook path and the reconciliation path (`AnnouncedTwice`, `TwiceHappens`). A delivery announces an attempt it does not settle if and only if the attempt already holds its event's status when the delivery reaches settlement (`RedundantIff`). Announcing twice takes such a delivery in every run (`TwiceOnlyByRepetition`), and where no delivery and no reconciliation run crashes, such a delivery always leads to it (`TwiceIffRepeated`).
- The reconciliation query returns the oldest stale attempts first. Over as many runs as there are older stale attempts and one more, an attempt is reached if and only if fewer of the older ones than the batch holds never get a terminal answer (`ReachedIffFewStuck`); otherwise no run ever reaches it (`StarvedOverRuns`), and for every batch limit a reachable ledger starves an attempt so (`StarvationHappens`).
- Refund conservation needs more than the service checks. Over every interleaving an intent is refunded more than was collected if and only if a refund recorded beside a completed one itself completes (`OverRefundedIff`). Every refund but the latest is failed throughout if and only if every request is recorded in order of (created_at, id) and before the check that let it through was overtaken (`RunOrderedIff`); for serialised calls, if and only if every row written sorts last or is failed by the provider's answer (`AlwaysOkIff`). Both ways of losing it happen (`RaceRefundsTwice`, `OutOfOrderRefundsTwice`).
- `refund.completed` is published for refunds that failed: over every interleaving every refund so announced has completed if and only if no call is announced whose provider answered FAILED without an error (`HonestIff`), and a run does announce one (`MislabelHappens`).
- A refund in flight whose call is gone, by a crash, an unavailable provider or an answer that leaves it REQUESTED, and in no other way (`StuckExactly`), stays REQUESTED in every later state, and no refund of its intent is ever recorded or settled again (`StuckForever`, `StuckRefuses`, `StuckHappens`): "until the row resolves" (backend/payments/service.go:618-622) is never.
- Asking the Redis limiter for a retry hint is a call that can take a slot (`ProbeTakesASlot`); it refuses the next request at that instant if and only if it takes the last free one (`ProbeRefusesNextIff`). The in-process limiter's bound over any window length is 2 * rpm - 1, and is reached (`AnyIntervalAdmits`, `BoundReached`).
- Evidence is hashed in the store's order (created_at, id), not by id as backend/inspections/report.go:35 says. For clean rows with distinct ids the two texts agree if and only if the listing is in id order (`HashedByIdIff`); a listing by creation whose text differs is given (`NotHashedById`).
- An issued report verifies if and only if the registered template still matches and its snapshot columns give back the very bytes written (`IssuedVerifiesForever`). A column type that normalises JSON, as backend/migrations/inspections/000004_create_inspection_reports.up.sql:20-21 declares, defeats every report it changes: a run issues a report whose hash matches and which never verifies (`UnverifiableReportIssued`).
- "A session that reaches SUBMITTED can always be reported" (backend/inspections/service.go:361-363) fails when a finding is recorded between the readiness check and the move (`OvertakenSubmission`). A submitted session can still come to have a report if and only if its rows are ready (`CanBeReportedIff`), which the move decides by the rows it finds, whatever the check saw (`MoveDecides`).
- The jobs store does not re-check the status a call was validated against. Over every interleaving of calls and crashes every logged edge is legal if and only if every write's check, asked again at the write, still passes (`RunLegalIff`); a run logs a forbidden edge (`InterleavedEdgeIllegal`).
- A refused refresh changes the sessions if and only if every check before the rotation passes and the successor is not created or not signed (`RefreshChangesIff`). The login loses its last live session if and only if it may rotate and the successor is not created (`LoginLostIff`); the gate, read again after the presented session is revoked, does that when the grace window ends in between (`GateClosingLosesTheLogin`).
- The first wiring delay is the base even when the base exceeds the maximum (`WaitsDouble`).

## Model

| member | source | states |
|---|---|---|
| `PaymentLedger.PaymentStore.CreateIntent` | backend/payments/store.go:223-244 | a new intent row with an empty log, or a duplicate error and no change |
| `PaymentLedger.PaymentStore.UpdateIntentStatus` | backend/payments/store.go:349-396 | the move happens, and is logged, only if the stored status is the expected one; not-found and conflict leave everything |
| `PaymentLedger.PaymentStore.InsertTransaction` | backend/payments/store.go:398-422 | an attempt row under the primary key, the unique provider reference and the intent foreign key, each refusal leaving everything |
| `PaymentLedger.PaymentStore.GetTransactionByProviderRef` | backend/payments/store.go:448-461 | the one attempt with that provider and reference; a missing reference never matches |
| `PaymentLedger.PaymentStore.ApplyTransactionOutcome` | backend/payments/store.go:498-593 | exactly-once settlement: false when already in the requested status, true when settled here with the receipt stamped; a receipt of another attempt, or a conflict found on the intent, leaves everything |
| `PaymentLedger.PaymentStore.ClaimIdempotencyKey` | backend/payments/store.go:725-750 | the first claim wins and is stored; every later one gets the stored claim and changes nothing |
| `PaymentLedger.PaymentStore.CompleteIdempotencyKey` | backend/payments/store.go:752-763 | only that key's result changes |
| `PaymentLedger.PaymentStore.ListStaleIntents` | backend/payments/store.go:765-803 | the oldest pending newest-attempts of PROCESSING intents before the cutoff, without repetition, as many as the limit allows and all of them if it does |
| `PaymentLedger.TakeOldest` | backend/payments/store.go:765-803 | oldest first up to the cap, nothing older left out |
| `PaymentTheorems.StepKeeps` | backend/payments/service.go:233-502 | every step of every process keeps the whole invariant |
| `PaymentTheorems.Agreement` | backend/payments/store.go:498-593 | in every reachable state intent and attempt statuses agree, one attempt per intent, and no settled intent without its attempt |
| `PaymentTheorems.SettledForGood` | backend/payments/store.go:498-593 | terminal statuses, amounts, providers and references never change in any later state |
| `PaymentTheorems.AppliedOnce` | backend/payments/store.go:498-593 | over a whole run, settlement of one attempt returns true at most once |
| `PaymentTheorems.SettledBranchUnreachable` | backend/payments/store.go:544-562 | a pending attempt never sits beside an intent already in the status that would settle it |
| `PaymentTheorems.LogIsPath` | backend/payments/store.go:349-396 | the intent log is an unbroken path from CREATED to the current status, along table edges except the rejection edge |
| `PaymentTheorems.OnlyRejectionsLeaveTheTable` | backend/payments/statemachine.go:38-43 | a step takes an intent's log off the table if and only if it is the move of that intent's own rejected initiation |
| `PaymentTheorems.ReceiptsNameOneAttempt` | backend/migrations/payments/000002_create_payment_transactions.up.sql:29-33 | in every reachable state a PENDING attempt has no receipt and no receipt names two attempts of a provider |
| `PaymentTheorems.ClaimedOnce` | backend/payments/service.go:425-452 | over any deliveries and replays, one delivery per key wins the claim |
| `PaymentTheorems.AnswersStayTrue` | backend/payments/service.go:427-502 | an "applied" or "duplicate" answer means the attempt holds the status its event names, then and in every later state |
| `PaymentTheorems.DeliveriesMatchTheirAttempt` | backend/payments/service.go:378-424 | a delivery past correlation attests the attempt's own amount in its currency, reference, provider and intent |
| `PaymentTheorems.EventsAgree` | backend/payments/service.go:454-502 | all settled events of an attempt carry its status, and there are two at most |
| `PaymentTheorems.AnnouncedTwice` | backend/payments/service.go:463-502 | over every run an attempt is announced twice if and only if both the webhook and the reconciliation path published it; a rejected initiation is announced alone |
| `PaymentTheorems.TwiceHappens` | backend/payments/service.go:463-502 | a run in which an attempt is announced twice |
| `PaymentRepeats.RedundantIff` | backend/payments/service.go:454-476 | in every reachable state a claimed delivery goes on to announce an attempt it does not settle if and only if the attempt holds its event's status |
| `PaymentRepeats.TwiceOnlyByRepetition` | backend/payments/service.go:454-502 | over every run, crashes included, an attempt announced twice met such a delivery |
| `PaymentRepeats.TwiceIffRepeated` | backend/payments/service.go:454-502 | over every run without a crashed delivery or reconciliation run, an attempt nobody is still to announce was announced twice if and only if it met such a delivery |
| `PaymentStranded.PendingSettlesIff` | backend/payments/store.go:498-593 | in every reachable state a PENDING attempt is settled if and only if its intent is PROCESSING and the receipt is free |
| `PaymentStranded.LeavesIffNotStranded` | backend/payments/service.go:270-345 | in every reachable state a CREATED intent can leave CREATED in some continuation if and only if it is not stranded |
| `PaymentStranded.StrandedForever` | backend/payments/service.go:270-345 | a stranded intent keeps its status and its attempt's, whatever happens |
| `PaymentStranded.StrandingHappens` | backend/payments/service.go:276-345 | a crash strands an intent with its attempt PENDING, and an unreachable provider strands one without an attempt |
| `PaymentStranded.AbandonedExactly` | backend/payments/service.go:425-463 | in every reachable state a step abandons a key if and only if its holder crashes before completing it or has its settlement refused |
| `PaymentStranded.DeliveryAloneIff` | backend/payments/service.go:378-463 | a delivery that wins its key and runs alone is applied if and only if the attempt holds the event's status or is PENDING beside a PROCESSING intent with the receipt free; otherwise its key stays claimed with an empty result |
| `PaymentStranded.AbandonedWithoutCrash` | backend/payments/service.go:339-345 | a run without a crash abandons a key beside a PROCESSING intent |
| `PaymentStranded.AbandonedForever` | backend/payments/service.go:434-440 | a key whose holder is gone stays claimed and incomplete, whatever happens |
| `PaymentStranded.AbandonedRefuses` | backend/payments/service.go:434-440 | every delivery under such a key is answered with a refusal |
| `PaymentService.HookAloneIsRun` | backend/payments/service.go:378-502 | an uninterrupted delivery is a run of the protocol |
| `PaymentService.RecAloneIsRun` | backend/payments/reconcile.go:75-163 | an uninterrupted batch is a run of the protocol, with the same ledger, events and counters |
| `PaymentService.RejectionLeavesTheTable` | backend/payments/service.go:288-305 | an initiation run alone leaves the table if and only if the provider rejects it and the rejection is recorded |
| `PaymentService.Service.CheckInput` | backend/payments/service.go:233-269 | exactly the inputs with a positive KES amount, a creator, well-formed optional ids, a configured provider and a short description |
| `PaymentService.Service.InitiatePayment` | backend/payments/service.go:233-361 | bad input changes nothing; otherwise the store and the events end as the initiation process leaves them; what each answer means for intent and attempt |
| `PaymentService.Service.HandleWebhook` | backend/payments/service.go:378-502 | the store, the events and the answer are those of the delivery process run alone |
| `PaymentService.Reconciler.Run` | backend/payments/reconcile.go:75-163 | a batch of the stale query, processed in order to the specified ledger, events and counters |
| `PaymentService.Reconciler.ReconcileOne` | backend/payments/reconcile.go:90-160 | one attempt queried, settled, counted and announced |
| `Reconciliation.OneReconciled` | backend/payments/reconcile.go:90-160 | a terminal answer with a free receipt settles that attempt and nothing else; any other changes nothing and is counted |
| `Reconciliation.BatchAccounting` | backend/payments/reconcile.go:75-163 | Scanned = Repaired + StillPending + Errors for a batch run alone, with one announcement for each repair |
| `Reconciliation.BatchReconciled` | backend/payments/reconcile.go:75-163 | after a batch, what is stale is exactly what was, less the attempts it announced as settled |
| `Reconciliation.BatchSettles` | backend/payments/reconcile.go:75-163 | with distinct receipts it announces exactly the scanned attempts with a terminal answer |
| `Reconciliation.Drains` | backend/payments/reconcile.go:75-163 | with terminal answers and distinct receipts each run takes exactly `limit` off the n attempts stale at the start, none being left after n / limit runs rounded up |
| `Reconciliation.Reached` | backend/payments/store.go:765-803 | an attempt with a creation time of its own is in the batch if and only if fewer than `limit` stale attempts are older |
| `Reconciliation.StarvedOverRuns` | backend/payments/reconcile.go:75-163 | behind `limit` older attempts that never get a terminal answer it is in no batch of any number of runs |
| `Reconciliation.ReachedIffFewStuck` | backend/payments/reconcile.go:75-163 | given enough runs it is reached if and only if fewer than `limit` older attempts never get a terminal answer |
| `Reconciliation.StarvationHappens` | backend/payments/store.go:765-803 | for every limit, a reachable ledger that starves an attempt |
| `Refunds.RefundStore.InsertRefund` | backend/payments/store.go:596-618 | a requested row under the primary key, the one-in-flight index and the foreign key |
| `Refunds.RefundStore.UpdateRefundStatus` | backend/payments/store.go:654-698 | the guarded move, once, from REQUESTED only |
| `Refunds.RefundStore.LatestRefundForIntent` | backend/payments/store.go:702-722 | the refund of the intent that sorts last by (created_at, id) |
| `Refunds.RefundService.RefundPayment` | backend/payments/service.go:567-657 | rows, verdict and events are those of the specified call |
| `Refunds.RefundKeepsIff` | backend/payments/service.go:567-641 | a call that writes its row keeps all refunds but an intent's latest FAILED if and only if the row sorts last or the provider's answer fails it |
| `Refunds.AlwaysOkIff` | backend/payments/service.go:567-641 | over any serialised calls that holds throughout if and only if every call is harmless in that sense |
| `Refunds.RefundedWithinIff` | backend/payments/service.go:567-641 | no more than was collected goes out if and only if at most one refund of the intent completed |
| `Refunds.RefundConservation` | backend/payments/service.go:567-641 | over any serialised harmless calls an intent is refunded not at all or exactly in full, never more than collected |
| `Refunds.PaymentsKeepSettled` | backend/payments/store.go:498-593 | what payments do between refund calls meets the assumption above |
| `RefundRaces.OnceIsRun` | backend/payments/service.go:567-657 | with nothing in between, the interleaving machine's check, record, answer and announcement are the refund call |
| `RefundRaces.StepKeepsIff` | backend/payments/service.go:578-606 | a step of any interleaving keeps all refunds but the latest FAILED if and only if it does not record out of order or past its overtaken check |
| `RefundRaces.RunOrderedIff` | backend/payments/service.go:578-606 | over every interleaving with payments and crashes that holds throughout if and only if every request is recorded in time and in order |
| `RefundRaces.OverRefundedIff` | backend/payments/service.go:567-657 | in every reachable state more than was collected is refunded if and only if a refund recorded beside a completed one completed |
| `RefundRaces.LateMeansOvertaken` | backend/payments/service.go:578-606 | while every refund but the latest is FAILED, a request is recorded beside a completed refund if and only if its check would no longer pass |
| `RefundRaces.InTimeNeverTwice` | backend/payments/service.go:567-657 | a run recorded in time and in order never refunds an intent twice |
| `RefundOutcomes.AnnouncedOnce` | backend/payments/service.go:618-656 | over every interleaving a refund is announced at most once, after it was settled, and as failed only if it failed |
| `RefundOutcomes.HonestIff` | backend/payments/service.go:639-656 | over every interleaving every refund announced as completed completed, if and only if no call answered FAILED is announced |
| `RefundOutcomes.MislabelHappens` | backend/payments/service.go:639-656 | a run that announces a FAILED refund as completed |
| `RefundOutcomes.StuckExactly` | backend/payments/service.go:609-622 | in every reachable state a step leaves a refund in flight without its call if and only if the call crashes, its provider is unavailable, or the answer is REQUESTED |
| `RefundOutcomes.StuckForever` | backend/payments/service.go:618-622 | such a refund stays REQUESTED and the refunds of its intent stay exactly what they are, in every later state |
| `RefundOutcomes.StuckRefuses` | backend/payments/service.go:578-606 | while it does, every call for its intent writes nothing |
| `RefundOutcomes.StuckHappens` | backend/payments/service.go:618-622 | a run in which an unavailable provider leaves one |
| `RefundRaces.RaceRefundsTwice` | backend/payments/service.go:578-606 | a run in which two calls checked before either records refund twice the amount |
| `RefundRaces.OutOfOrderRefundsTwice` | backend/payments/store.go:702-722 | serialised calls in which a refund that sorts before a failed one is not seen, and the amount goes out twice |
| `SlidingWindow.RedisServer.Eval` | backend/platform/ratelimit_redis.go:213-235 | the script's effect on its key, its reply, and no other key touched |
| `SlidingWindow.Retry` | backend/platform/ratelimit_redis.go:228-234 | the retry value of a refusal from the oldest score |
| `SlidingWindow.RedisRateLimiter.Allow` | backend/platform/ratelimit_redis.go:114-140 | refusal exactly when the script refuses; disabled and unreachable let the request through |
| `SlidingWindow.RedisRateLimiter.RetryAfter` | backend/platform/ratelimit_redis.go:145-160 | the hint, and that asking is a script call like any other |
| `SlidingWindow.ExpiryInvisible` | backend/platform/ratelimit_redis.go:220-226 | whenever expired keys are dropped, every call is answered as if none ever were |
| `SlidingWindow.WindowBound` | backend/platform/ratelimit_redis.go:213-235 | any half-open interval as long as the window holds at most `limit` admitted requests, probes included in the run |
| `SlidingWindow.RetryExact` | backend/platform/ratelimit_redis.go:229-234 | after a refusal by the expiring script its next call is admitted if and only if retry_after has passed; the clamp never acts |
| `SlidingWindow.RefusalsLeaveNoTrace` | backend/platform/ratelimit_redis.go:219-234 | refused calls change no later decision |
| `SlidingWindow.ProbeTakesASlot` | backend/platform/ratelimit_redis.go:145-160 | the retry probe is admitted if and only if there is room, and holds a slot unless it already did |
| `SlidingWindow.ProbeRefusesNextIff` | backend/platform/ratelimit_redis.go:145-160 | asking for the hint changes the next request's answer if and only if the probe takes the last free slot |
| `FixedWindow.RateLimiter.Allow` | backend/platform/ratelimit.go:57-84 | the swept table and the answer are those of the specified step; a disabled limiter admits |
| `FixedWindow.RateLimiter.DeleteExpired` | backend/platform/ratelimit.go:72-78 | exactly the buckets whose window has ended are gone |
| `FixedWindow.SweepInvisible` | backend/platform/ratelimit.go:57-84 | the swept table decides every call as the key's own unswept bucket, from that key's calls alone |
| `FixedWindow.WindowAdmits` | backend/platform/ratelimit.go:64-83 | the current window has admitted exactly what its bucket counts, between one and rpm |
| `FixedWindow.AnyIntervalAdmits` | backend/platform/ratelimit.go:64-83 | any interval as long as the window admits at most 2 * rpm - 1 |
| `FixedWindow.BoundReached` | backend/platform/ratelimit.go:64-83 | calls that reach the bound, for every rpm |
| `ReportText.BuildReportInput` | backend/inspections/report.go:100-128 | the loops build the specified canonical text |
| `ReportText.Unambiguous` | backend/inspections/report.go:100-128 | two texts are equal if and only if session fields, version, findings (up to the notes' hash) and evidence agree, in order and number |
| `ReportText.FindingLineInjective` | backend/inspections/report.go:113-116 | a finding line determines its fields |
| `ReportText.EvidenceLineInjective` | backend/inspections/report.go:117-124 | an evidence line determines its fields |
| `ReportSelection.SelectLatestFindings` | backend/inspections/report.go:74-95 | the loops compute the specified selection, for any input |
| `ReportSelection.SelectionIsLatest` | backend/inspections/report.go:69-95 | one record per item key present, the newest by (created_at, id), strictly by key |
| `ReportSelection.SelectionIgnoresOrder` | backend/inspections/report.go:74-95 | the order of the records does not matter |
| `ReportSelection.SelectionIdempotent` | backend/inspections/report.go:74-95 | selecting again changes nothing |
| `ReportIntegrity.CheckReportReadiness` | backend/inspections/report.go:217-254 | exactly the violated preconditions are named; none if and only if the rows are ready |
| `ReportIntegrity.ReadyMeansNoIssue` | backend/inspections/report.go:206-254 | ready means no precondition is violated, and conversely |
| `ReportIntegrity.VerifiedMeansUnchanged` | backend/inspections/report.go:261-298 | verified means live selected findings and evidence equal the frozen ones, and the certified session fields too unless the hashes collide |
| `Instances.UnverifiableReportIssued` | backend/migrations/inspections/000004_create_inspection_reports.up.sql:20-21 | a run issues a report whose hash matches and which does not verify, its columns not giving back what was written |
| `EvidenceOrder.HashedByIdIff` | backend/inspections/report.go:35-128 | the canonical text is the one of the listing in id order if and only if the listing is in id order |
| `Instances.NotHashedById` | backend/inspections/report.go:35-128 | a listing in the store's order whose text is not the one in id order |
| `InspectionLifecycle.OneReportPerSession` | backend/inspections/statemachine.go:44-48 | every interleaving keeps a legal unbroken log, one report exactly when REPORT_AVAILABLE, issued on ready rows only |
| `InspectionLifecycle.SealedForGood` | backend/inspections/store.go:74-90 | from submission on, findings, evidence and session are what they were in every later state |
| `InspectionLifecycle.IssuedVerifiesForever` | backend/inspections/service.go:570-592 | once issued, every request for the report, latest or by version, is answered the same in every later state: found exactly under its version, and verified if and only if the template matches and the bytes read back |
| `InspectionLifecycle.StuckUnlessReady` | backend/inspections/service.go:457-463 | a submitted session whose rows are not ready is never reported |
| `InspectionLifecycle.SubmittedAndReadyIsReported` | backend/inspections/service.go:436-515 | an uninterrupted issue succeeds on a submitted session if and only if its rows are ready and the notes short enough |
| `InspectionLifecycle.CanBeReportedIff` | backend/inspections/service.go:361-515 | a submitted session comes to have a report in some continuation if and only if its rows are ready |
| `InspectionLifecycle.MoveDecides` | backend/inspections/service.go:364-400 | in every reachable state a submission's move leaves a session that can come to have a report if and only if the rows it finds are ready |
| `InspectionLifecycle.OvertakenSubmission` | backend/inspections/service.go:364-400 | a run that submits a session which can never be reported |
| `InspectionService.InspectionStore.UpdateSessionStatus` | backend/inspections/store.go:254-301 | guarded move, stamp and log row, or no change |
| `InspectionService.InspectionStore.InsertFindingRow` | backend/inspections/store.go:319-340 | appended only while IN_PROGRESS and under a new id |
| `InspectionService.InspectionStore.InsertEvidenceRow` | backend/inspections/store.go:377-398 | appended only while IN_PROGRESS and under a new id |
| `InspectionService.InspectionStore.InsertReportRow` | backend/inspections/store.go:439-514 | SUBMITTED and the next version re-checked; report, status and log row together or not at all |
| `InspectionService.LatestVersion` | backend/inspections/store.go:471-477 | the greatest version, zero when there is none |
| `InspectionService.InspectionService.StartSession` | backend/inspections/service.go:202-228 | CREATED to IN_PROGRESS for the inspector, refusals leaving everything |
| `InspectionService.InspectionService.RecordFinding` | backend/inspections/service.go:234-290 | a finding on a template item with a legal severity, while IN_PROGRESS |
| `InspectionService.InspectionService.AttachEvidence` | backend/inspections/service.go:296-356 | evidence with a SHA-256 hash, a capture time not beyond the tolerance and short notes, linked to no finding or to one of the session's, while IN_PROGRESS |
| `InspectionService.InspectionService.SubmitSession` | backend/inspections/service.go:364-407 | what the submission process does uninterrupted |
| `InspectionService.InspectionService.IssueReport` | backend/inspections/service.go:436-515 | what the issuing process does uninterrupted |
| `InspectionService.InspectionService.VerifyReport` | backend/inspections/service.go:570-592 | the verification of the current rows against the stored report |
| `Base64Url.RoundTrip` | backend/vehicles/cursor.go:42-51 | decoding undoes encoding, for every string of bytes (section 5 of RFC 4648) |
| `VehicleCursor.CursorRoundTrip` | backend/vehicles/cursor.go:33-70 | parsing gives back the encoded cursor, whatever blanks surround it |
| `VehicleCursor.CursorsAreDistinct` | backend/vehicles/cursor.go:33-70 | the nil id is neither written nor read, and different cursors are written differently |
| `VehicleListing.ListVehicles` | backend/vehicles/store.go:224-276 | the clamped page and its next cursor |
| `VehicleListing.PageSplits` | backend/vehicles/store.go:239-276 | a page holds the first rows beyond the cursor in strictly descending order, the rest lies beyond the next cursor, and there is one exactly when there is a rest |
| `VehicleListing.WalkReturnsAll` | backend/vehicles/store.go:224-276 | a finished walk returns every row visible at its start exactly once, strictly descending, whatever rows were inserted between pages |
| `VehicleListing.WalkIsListing` | backend/vehicles/store.go:224-276 | with only newer rows inserted it ends, in n / limit pages rounded up, with exactly the starting listing; only the last page has no next cursor |
| `BootWiring.Boot.Block` | backend/platform/boot.go:100-113 | the blocker is recorded and readiness drops |
| `BootWiring.Boot.BlockPermanent` | backend/platform/boot.go:117-122 | as Block, and the name is latched |
| `BootWiring.Boot.RunStep` | backend/platform/boot.go:333-349 | success clears the step's blocker; a failure or panic is returned as its reason |
| `BootWiring.Boot.RunPass` | backend/platform/boot.go:288-303 | one pass over the steps, to its first failure |
| `BootWiring.Boot.RunWire` | backend/platform/boot.go:282-328 | the loop ends in the specified state, finished or cancelled |
| `BootWiring.Boot.RunShutdownHooks` | backend/platform/boot.go:255-271 | every hook runs, last registered first, and the first error met is returned |
| `BootWiring.ReadyIffNothingPermanent` | backend/platform/boot.go:304-316 | on finishing, the blockers are exactly the permanently failed steps and readiness holds if and only if there are none; never ready when cancelled |
| `BootWiring.NeverReadyWhileWiring` | backend/platform/boot.go:282-328 | at no point of any pass is the service ready, so readiness is never seen beside a blocker |
| `BootWiring.StepsRunInOrder` | backend/platform/boot.go:288-303 | a step runs only after every earlier one succeeded in the same pass or failed for good before, and never after it failed for good itself |
| `BootWiring.WaitsDouble` | backend/platform/boot.go:317-327 | the i-th wait is base * 2^i capped at the maximum, except that the first is the base uncapped; exactly when the cap holds throughout |
| `Dispatch.SplitSkills` | backend/dispatch/scoring.go:441-450 | the required skills split into held and missing, none lost |
| `Dispatch.ScoreTechnicalFit` | backend/dispatch/scoring.go:314-347 | the skill ratio times the make bonus, rounded |
| `Dispatch.ScoreCandidate` | backend/dispatch/scoring.go:231-259 | the six factors and their rounded weighted sum |
| `Dispatch.ScoreCandidates` | backend/dispatch/scoring.go:264-276 | the specified ranking |
| `Dispatch.TotalRange` | backend/dispatch/scoring.go:231-259 | with valid weights every total is in [0, 1] |
| `Dispatch.TotalMonotone` | backend/dispatch/scoring.go:314-436 | a candidate at least as good in every input never gets a lower total |
| `Dispatch.RankingSorted` | backend/dispatch/scoring.go:264-276 | a permutation of the scores, total descending, ties by technician id |
| `Dispatch.RankingIgnoresOrder` | backend/dispatch/scoring.go:261-276 | for distinct technicians every order of the candidates gives the same ranking |
| `Dispatch.TopReasons` | backend/dispatch/scoring.go:282-308 | at most n factors that moved the score, biggest contribution first, ties in factor order, none left out but behind n that outrank it |
| `Jobs.JobStore.CreateJobRow` | backend/jobs/store.go:204-250 | the request is claimed and the job created together, or neither |
| `Jobs.JobStore.UpdateStatus` | backend/jobs/store.go:280-319 | the move and its log row from whatever the status is |
| `Jobs.JobStore.AssignTo` | backend/jobs/store.go:322-378 | open assignments retired, a new one appended, job and log moved together |
| `Jobs.JobStore.AcceptBy` | backend/jobs/store.go:381-432 | the technician's open assignment accepted with job and log, or no change |
| `Jobs.JobService.ConvertRequest` | backend/jobs/service.go:130-165 | the serialised conversion |
| `Jobs.JobService.TransitionJob` | backend/jobs/service.go:172-191 | the serialised checked move |
| `Jobs.JobService.AssignTechnicianTo` | backend/jobs/service.go:199-233 | direct assignment, or reassignment through DISPATCHING |
| `Jobs.JobService.AcceptJob` | backend/jobs/service.go:239-262 | the serialised checked acceptance |
| `Jobs.LedgerHolds` | backend/jobs/store.go:280-432 | under every interleaving: an unbroken log, at most one open assignment and that the last, the technician the last assignment's |
| `Jobs.ConvertedOnce` | backend/jobs/store.go:204-250 | a request is converted if and only if exactly one job came from it |
| `Jobs.SerialEdgesLegal` | backend/jobs/statemachine.go:52-67 | serialised, every logged edge is legal, and repair follows approval |
| `Jobs.AcceptanceIffOpen` | backend/jobs/service.go:239-262 | an acceptance succeeds if and only if the job is ASSIGNED and its last assignment is the technician's and open |
| `JobRaces.RunIsTransactions` | backend/jobs/service.go:130-262 | interleaved calls leave what their writes leave, so what holds of every interleaving of store transactions holds of them |
| `JobRaces.AloneIsServe` | backend/jobs/service.go:130-262 | with nothing in between, a call's check and write are the serialised call |
| `JobRaces.WriteLegalIff` | backend/jobs/store.go:280-432 | a write (move, assignment or acceptance) leaves every logged edge legal if and only if the table allows its move from the status it finds |
| `JobRaces.RunLegalIff` | backend/jobs/service.go:130-262 | over every interleaving of calls and crashes every logged edge is legal if and only if every write's check, asked again at the write, passes |
| `JobRaces.InterleavedEdgeIllegal` | backend/jobs/store.go:322-378 | a run in which a cancellation between an assignment's check and its write is overwritten over a forbidden edge |
| `Sessions.SessionStore.GetSessionByRefreshHash` | backend/identity/store.go:378-391 | the one session with that digest |
| `Sessions.SessionStore.CreateSession` | backend/identity/store.go:362-374 | inserted unless id or digest is taken |
| `Sessions.SessionStore.RevokeSession` | backend/identity/store.go:439-448 | only that session is revoked |
| `Sessions.SessionStore.RevokeUserSessions` | backend/identity/store.go:545-554 | all of the user's sessions are revoked, and how many were live |
| `Sessions.Issuer.IssueSession` | backend/identity/tokens.go:215-263 | gate, claims, insert and signature in order; a fresh bound or the predecessor's |
| `Sessions.Issuer.Issue` | backend/identity/tokens.go:126-128 | a login starts a chain of its own |
| `Sessions.Issuer.RefreshSession` | backend/identity/tokens.go:135-187 | the rotation, every refusal included, keeping the invariant |
| `Sessions.OneLivePerLogin` | backend/identity/tokens.go:179-187 | of a login's sessions only the newest may be unrevoked, and all share owner and absolute bound |
| `Sessions.RefreshRotates` | backend/identity/tokens.go:135-187 | what a granted refresh requires and what it leaves |
| `Sessions.RotatedForever` | backend/identity/tokens.go:145-147 | a rotated token never refreshes again |
| `Sessions.RevokeAllIsFinal` | backend/identity/store.go:545-554 | after revoke-all no earlier token refreshes again |
| `Sessions.BoundIsFinal` | backend/identity/tokens.go:151-156 | no token of a login refreshes at or past the login's bound |
| `Sessions.RefreshChangesIff` | backend/identity/tokens.go:135-263 | a refresh is granted if and only if it may rotate, the successor is created and signed; a refused one changes the sessions if and only if it may rotate |
| `Sessions.LoginLostIff` | backend/identity/tokens.go:169-246 | a live login loses its last live session to a refresh if and only if it may rotate and no successor is created |
| `Sessions.GateClosingLosesTheLogin` | backend/identity/tokens.go:202-222 | a reachable login that the grace window, ending between the two readings of the gate, leaves without a live session |
| `Vin.NormalizeVIN` | backend/vehicles/vin.go:39-63 | the specified normal form, or an error |
| `Vin.VinCheckDigit` | backend/vehicles/vin.go:85-98 | the weighted sum modulo eleven as a character, or an error |
| `Vin.ValidateVIN` | backend/vehicles/vin.go:68-81 | the normal form if and only if its ninth character is its check digit |
| `Vin.NormalizeIdempotent` | backend/vehicles/vin.go:39-63 | normalising again changes nothing |
| `Vin.AcceptedInput` | backend/vehicles/vin.go:39-63 | an input is accepted if and only if all its characters but spaces and hyphens, seventeen of them, turn into allowed ones |
| `Vin.SeparatorsIgnored` | backend/vehicles/vin.go:40-45 | a space or hyphen anywhere makes no difference |
| `Vin.CaseIgnored` | backend/vehicles/vin.go:46 | nor does letter case |
| `Vin.SingleErrorCaught` | backend/vehicles/vin.go:68-98 | two accepted VINs that differ in one place have equal values there, never in the check digit |
| `Vin.EqualValueUnseen` | backend/vehicles/vin.go:85-98 | and conversely such a change is accepted |
| `Vin.AdjacentSwapCaught` | backend/vehicles/vin.go:85-98 | swapping adjacent characters of different value away from the check digit is rejected |

## Left out

- HTTP handlers, routing, JSON decoding, middleware, configuration, logging, metrics, tracing, event transport and the `cmd` programs: plumbing.
- The TypeScript applications: user interface.
- Row visibility (scope predicates) and SQL text: the caller is taken to see the row.
- Provider protocols beyond their answers, webhook authentication, intent.created and payment events other than settlements, actors, timestamps and free-text failure reasons of payment rows.
- Cryptography: password hashing, token digests, signatures and SHA-256 are parameters or absent.
- Concurrent refresh rotation: the code checks first and revokes and mints later; sessions are modelled one call at a time.
- An initiation the provider accepts in a status other than PENDING: neither adapter does that.
- Reconciliation and webhooks of several providers with one reference: a reference is unique per provider, as the index has it.
- The one inspection session followed by `InspectionLifecycle`: sessions share no rows, so the others are left out, with the session-not-found errors.
- The sealed-insert rule of inspections is taken from the store's contract: a trigger that reads the session row without locking it is not modelled.
- JSON marshalling errors, and time values that cannot be formatted.
- Clock skew between Redis and the replicas: one clock that never goes back.
- The Retry-After hint of the in-process limiter: a coarse hint over all keys.
- Floating point: scores are computed over the reals; the texts of reasons, and Unicode case folding, are left out.
- Garages, audit listings, pagination of other lists, mileage, `Money` arithmetic: easy or unrelated.
- Reconciliation.Drains: the provider gives no two attempts one receipt; a taken receipt is an error for that attempt in every run, as `OneReconciled` states.
- Reconciliation.ReachedIffFewStuck: batches with nothing else running, the provider's answer for an attempt being the same in every run; webhooks and new initiations in between are covered by the protocol's own theorems.
- PaymentService.Service.HandleWebhook: starts from an authenticated, parsed delivery; what authentication or parsing refuses never reaches the ledger.
- PaymentService.Reconciler.ReconcileOne: an unregistered provider is counted as a failed query, which is what the code counts it as.
- Sessions.SessionStore.CreateSession: the login a session came from is history kept for the proofs; the table has no such column.
- VehicleCursor.CursorRoundTrip: blanks are ASCII blanks; other forms of uuid text are covered by the parameter that reads them.
