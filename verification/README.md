# Governed spend: a verified model

This project models the governed-spend ledger of the repository, the workers that dispatch and reconcile
its payment attempts, and four smaller cores beside it, and proves what they promise. An operator issues a
mandate with a budget; an agent's request reserves part of it as a payment attempt; execution workers lease
tasks, call the vendor and settle or release the reservation; reconciliation workers settle what the vendor
left unresolved; an operator may revoke the mandate at any moment.

Verify with `dafny verify dfyconfig.toml`.

## How it is built

* `Domain`, `StateMachines` — the records, the two transition tables, the policy.
* `Ledger` — what every store transaction does, as functions on tables keyed by id and the two logs. A request, an
  issue and a revocation give several statuses within one transaction; their results list them in order.
  `Store` holds the arrays the code works on; its methods search, put rows at the front and change rows in
  place, and each is proved to compute the `Ledger` function of the same name.
* `Protocol` — the system as a state machine. One store transaction is one atomic step. A worker's place
  between its transactions and its vendor call is a program counter with the snapshot it claimed, so any other
  worker, a revocation, an expired lease, an exception or a crash can come in between. `Exec` runs any list of
  actions from any initial state with agents and nothing else.
* `Money`, `Log`, `References`, `Workers`, `Leases` — the invariant, one concern each, and its preservation by
  every transaction; `System` puts them together for every action and every run.
* `MandateTheorems`, `RequestTheorems`, `SettlementTheorems`, `TaskTheorems` — what each transaction comes to, told by
  its inputs and the rows alone: when it commits, which error it gives otherwise, every row that changes, and the entries
  it writes, in the words of `Entries`.
* `History`, `Runs`, `BudgetTheorems`, `ConsumptionTheorems`, `LogTheorems`, `DispatchTheorems`, `UnresolvedTheorems`,
  `OutcomeTheorems`, `LeaseTheorems`, `ProgressTheorems`, `ClosedMandates`, `Idempotency`, `DrainTheorems`,
  `Acceptance` — the main results; `OutcomeExample` — one run, action by action.
* `Drain` — the queue-drain loop. `Integrity` — the store integrity check, loop by loop. `Persistence` — the
  two writers and the reader of the tables. `PromiseLock` — the promise chain behind `withStoreLock`.
  `BudgetObject` — the durable object with its bounded de-duplication. `StableJson` — the canonical printer, and
  `JsonText` — the printer set against the grammar.

In `Sys` the fields `sends`, `answers`, `leasedAt` and `requeues` only record what happened; no step reads
them. The main results that count vendor calls, leases or requeues count the actions of the run.

Four promises hold only on a condition; the code is modelled as it is, the condition is exact, and an input
shows that the promise fails without it: an attempt the vendor reported as charged ends released when the
transaction that was to store the report throws (`AnsweredIsReleasedIffSettlingThrew`, `ASuccessCanEndReleased`);
the durable object forgets an id after 99 fresh ones (`WindowRefinesUnboundedMemory`, `SomeRepeatIsTooLate`);
upserts can clash on the unique payment identifier where clear-then-insert cannot (`WriteStoreToClient`,
`SwappedIdentifiersClash`); and the printer is canonical only for a key comparison without ties, which
`localeCompare` does not promise (`CanonicalIffNoTies`).

## Model

| member | source | states |
|---|---|---|
| `BudgetTheorems.BudgetIsNeverExceeded` | src/lib/modules/mandates.ts:514-523 | In every reachable state of any interleaving, a mandate has at most one open attempt, reserves exactly its amount, or nothing without one, and reserved plus consumed stays within the cap. |
| `BudgetTheorems.NoClampEverBites` | src/lib/modules/execution-worker.ts:528-532 | Whenever a worker of any run is about to close an attempt by settling, releasing or reconciling, the mandate reserves exactly the amount taken off it, so no subtraction goes below zero and no clamp changes a value. |
| `BudgetTheorems.ReservationsAreConserved` | src/lib/modules/execution-worker.ts:384-391 | In every step a mandate's reservation stays, is made by one new attempt on an active mandate, or is removed whole by one closing attempt, of which at most the amount is consumed. |
| `Money.ApprovalLeavesRoom` | src/lib/modules/policy.ts:26-61 | The policy approves exactly an active, unexpired mandate with nothing reserved, an approved vendor with the receipts required, and room for the amount. |
| `Money.OpenAttemptIsFullyReserved` | src/lib/modules/execution-worker.ts:666-674 | In a sound ledger an open attempt's mandate reserves exactly its amount, so clamped and unclamped subtraction agree and leave zero. |
| `Money.ReserveKeepsMoney` | src/lib/modules/mandates.ts:514-591 | Reserving on an active mandate with nothing reserved and room for the amount keeps every account sound. |
| `Money.ClosingKeepsMoney` | src/lib/modules/execution-worker.ts:69-81 | Closing an open attempt, whatever the outcome and whatever has happened to its mandate meanwhile, keeps every account sound. |
| `ConsumptionTheorems.MandatesConsumeWhatTheirChargesCost` | src/lib/modules/execution-worker.ts:84-97 | In every run a mandate has consumed what its charged attempts cost together: each the whole amount that the vendor's answer reported, or correlation where the answer was unresolved, if it lies between zero and the attempt's amount, and that amount otherwise. |
| `MandateTheorems.VendorsAskedForAreKept` | src/lib/modules/mandates.ts:60-79 | The approved vendors are accepted exactly if there is one and every given id trims to a registered vendor; then a vendor is kept exactly if some id trims to it, each once, in the order in which they are first asked for. |
| `MandateTheorems.WhenAMandateIsIssued` | src/lib/modules/mandates.ts:185-230 | A mandate is issued exactly if name, cap and expiry are valid, the agent is active, the anchor returned a reference that is not blank and the vendors are known; each failing input gets its error, a failing anchor before unknown vendors. |
| `MandateTheorems.IssuedAsAskedFor` | src/lib/modules/mandates.ts:205-247 | The new mandate has the name, agent, cap, expiry, receipt requirement and vendors asked for, nothing reserved or consumed, and its two entries; nothing else is new. |
| `MandateTheorems.IssueTakesEffect` | src/lib/modules/mandates.ts:185-249 | In any state of the system a request for a mandate has that effect under those conditions, and changes nothing otherwise. |
| `MandateTheorems.WhenAMandateIsRevoked` | src/lib/modules/mandates.ts:251-273 | A revocation succeeds exactly if the mandate exists, is active or reserved, and the anchor returned a reference that is not blank; each failing input gets its error. |
| `MandateTheorems.RevokedAndNothingElse` | src/lib/modules/mandates.ts:262-285 | The mandate is revoked and carries the anchor's reference; what it reserves and consumes, its other terms and every other row stay, and two entries are written. |
| `MandateTheorems.RevocationTakesEffect` | src/lib/modules/mandates.ts:251-287 | In any state of the system, an open attempt and busy workers included, a revocation has that effect under those conditions, and changes nothing otherwise. |
| `RequestTheorems.PolicyGivesTheFirstReason` | src/lib/modules/policy.ts:26-61 | The policy gives a reason exactly if it applies and no earlier one does. |
| `RequestTheorems.PolicyApprovesIff` | src/lib/modules/policy.ts:26-61 | For a registered vendor the policy approves exactly if the mandate is active, in time, has nothing reserved, approves the vendor and has room for the amount. |
| `RequestTheorems.WhenANewRequestCommits` | src/lib/modules/mandates.ts:289-343 | A request with a new identifier commits exactly if it is well formed, names a mandate and a registered vendor, does not run into a treasury that throws on an approved request, and is not stored under an empty identifier; each failing input gets its error. |
| `RequestTheorems.NewRequestsFollowPolicyAndTreasury` | src/lib/modules/mandates.ts:343-591 | The stored attempt carries the terms of the request and is queued exactly if the policy's condition holds and the treasury approved or was not asked; then the mandate reserves the amount and one dispatch task is new. Otherwise it is denied with the treasury's code or the policy's first reason, no task is made, and the mandate stays but for one found past its expiry. |
| `RequestTheorems.NewRequestsWriteEveryDecision` | src/lib/modules/mandates.ts:354-578 | The audit entries and events a new request writes, exactly and in order, for each of these ends. |
| `RequestTheorems.EnforcedAsSaid` | src/lib/modules/mandates.ts:452-512 | On an approved request a treasury's denial stores the attempt as denied with its code and reserves nothing, an exception ends the request, and an approval or no enforcement reserves. |
| `RequestTheorems.RequestsCommitOrChangeNothing` | src/lib/modules/mandates.ts:289-310 | In any state of the system a request that fails, as when the treasury throws, leaves everything as it was. |
| `SettlementTheorems.BeginMovesTheQueued` | src/lib/modules/execution-worker.ts:752-789 | Only a queued attempt becomes dispatching, with its two entries; no mandate and no task changes. |
| `SettlementTheorems.PreflightTable` | src/lib/modules/execution-worker.ts:561-617 | The vendor may be called exactly for a dispatching attempt of a reserved mandate in time, and each refusal has its exact condition. |
| `SettlementTheorems.WhenAnAnswerIsStored` | src/lib/modules/execution-worker.ts:346-371 | An answer is stored exactly for a dispatching attempt, and a definite one also for an unresolved attempt. |
| `SettlementTheorems.StoredSuccess` | src/lib/modules/execution-worker.ts:372-489 | A success charges the attempt and consumes the whole amount reported if it lies between zero and the claim, and the claim otherwise; the reservation goes, a closed mandate stays closed, the financial outcome on the log carries that number, and no other row changes. |
| `SettlementTheorems.StoredRefusal` | src/lib/modules/execution-worker.ts:372-489 | A refusal fails the attempt, gives the reservation back and consumes nothing. |
| `SettlementTheorems.StoredUnknown` | src/lib/modules/execution-worker.ts:372-468 | An unresolved answer keeps the reservation, puts the payload on record and leaves exactly one more task waiting to reconcile the attempt unless one waits already. |
| `SettlementTheorems.ReleaseGivesBack` | src/lib/modules/execution-worker.ts:501-555 | Exactly a reserved, queued or dispatching attempt can be released; its reservation goes, never below zero, nothing is consumed, and no other row changes. |
| `SettlementTheorems.ReconciliationSettles` | src/lib/modules/execution-worker.ts:619-735 | Exactly an unresolved attempt is reconciled; it takes what correlation proved, the mandate consumes what that costs if it was a success, and the entries carry the amount. |
| `SettlementTheorems.QueuedForReconciliation` | src/lib/modules/execution-worker.ts:839-871 | Exactly an unresolved attempt of the mandate named can be queued; one task waits for it afterwards, new only if none did. |
| `TaskTheorems.TheOldestIsLeased` | src/lib/modules/execution-worker.ts:196-249 | In any state that satisfies the invariant, as every reachable one does, an idle worker leases a task exactly if the task is of the kind, available, queued or leased with its lease run out, and no such task is older; the row and the snapshot are then exactly these, and nothing else changes. |
| `TaskTheorems.SomethingIsLeased` | src/lib/modules/execution-worker.ts:202-215 | While any such task waits, an idle worker has one to lease, and none older is passed over. |
| `TaskTheorems.NoLeaseLastsForEver` | src/lib/modules/execution-worker.ts:202-211 | Half a minute after any moment of any run every task leased then may be leased again. |
| `TaskTheorems.DeadWorkersTaskIsTakenOver` | src/lib/modules/execution-worker.ts:202-226 | After a worker dies and half a minute passes, any idle worker can lease its task once no older one waits. |
| `TaskTheorems.TasksEndUnguarded` | src/lib/modules/execution-worker.ts:251-344 | Completing, failing and requeueing ask only that the task exists; each drops the lease, a requeued task waits half a minute, and nothing else changes but one event. |
| `ProgressTheorems.UndisturbedDispatchSettles` | src/lib/modules/execution-worker.ts:744-826 | From any safe state an execution worker nobody interrupts calls the vendor once, leaves attempt and mandate as the answer says, completes its task and touches no other task. |
| `ProgressTheorems.DeadMandateReleases` | src/lib/modules/execution-worker.ts:790-801 | One that meets a mandate revoked or past its time releases the attempt for that reason without a call and fails the task. |
| `ProgressTheorems.ExceptionReleases` | src/lib/modules/execution-worker.ts:814-837 | An exception while the vendor is called or before its answer is stored releases the attempt and fails the task. |
| `ProgressTheorems.ExceptionAfterSettling` | src/lib/modules/execution-worker.ts:822-837 | In every run an exception once the answer is stored changes nothing: the release is refused and the worker ends. |
| `ProgressTheorems.ExceptionElsewhere` | src/lib/modules/execution-worker.ts:752-806 | An exception outside the two handlers ends the worker and leaves everything as it is. |
| `ProgressTheorems.UndisturbedReconciliationSettles` | src/lib/modules/execution-worker.ts:912-972 | From any safe state a reconciliation worker nobody interrupts leaves an unresolved attempt and its mandate as correlation proved and completes its task. |
| `ProgressTheorems.PayloadIsHandedOver` | src/lib/modules/execution-worker.ts:933-966 | In every run what it hands to the status call is the payload of the vendor's unresolved answer for its attempt. |
| `ProgressTheorems.FailedReconciliationIsRetried` | src/lib/modules/execution-worker.ts:973-1001 | In every run a reconciliation that throws is queued again for half a minute later exactly if the worker saw the attempt unresolved and the quarter of an hour since it became so is not over; otherwise its task fails. |
| `ProgressTheorems.ConflictIsAnException` | src/lib/modules/execution-worker.ts:640-652 | To find the attempt settled by another worker takes the same way as an exception. |
| `System.EveryRunIsSafe` | src/lib/modules/execution-worker.ts:744-1003 | Whatever operators, workers, vendors, the clock, exceptions and deaths do, and in whatever order, the whole invariant holds after every run. |
| `Runs.EveryReachableStateIsSafe` | src/lib/modules/mandates.ts:185-593 | The invariant of accounts, log, references, workers and times holds in every state reachable from agents alone. |
| `Runs.RunsLast` | src/lib/modules/mandates.ts:289-593 | Over any run no row is deleted, an attempt's terms never change, its rank never falls, a closed mandate stays closed, and the log only grows at the front. |
| `Runs.ClosedStaysClosed` | src/lib/domain/state-machines.ts:32-34 | An attempt that was denied, settled or released keeps that status in every continuation. |
| `Runs.EveryAttemptWalksTheTable` | src/lib/domain/state-machines.ts:16-35 | In every run the statuses an attempt takes form a walk of the published table from created to where it is, with at most six changes: those a request gives within its transaction, as it lists them, and every later write, guarded or not. |
| `Runs.EveryMandateWalksTheTable` | src/lib/domain/state-machines.ts:7-14 | In every run the statuses a mandate takes form a walk of the published table from draft: those an issue or a revocation gives within its transaction, as it lists them, and every other write, guarded or not. |
| `History.RequestsWalkTheTable` | src/lib/modules/mandates.ts:343-591 | The statuses a new request gives its attempt before storing it, as the transaction lists them, walk the table from created to the status stored; a repeat gives none. |
| `History.OnlyRevocationsRevoke` | src/lib/modules/execution-worker.ts:69-81 | No other action, closing an attempt on any mandate included, makes a mandate revoked. |
| `StateMachines.EveryAttemptEdgeClimbs` | src/lib/domain/state-machines.ts:16-35 | Every edge of the attempt table climbs in rank, so the table has no cycle. |
| `History.EveryActionIsLawful` | src/lib/domain/state-machines.ts:37-64 | Every action moves rows only along edges of the tables, keeps terms and caps, consumes at most what it releases, and reserves only on an active, unexpired mandate. |
| `LogTheorems.LogRebuildsEveryBudget` | src/lib/infrastructure/postgres-store.ts:494-500 | The events of the log alone, in any order, add up to every mandate's reserved and consumed cents in every reachable state: each attempt's mandate and released amount are looked up in the log itself. |
| `LogTheorems.LogSpeaksForItself` | src/lib/modules/mandates.ts:354-365 | In any order, the first authentication event of an attempt names its mandate, and the first reservation event names its amount wherever an event releases it. |
| `LogTheorems.LogRebuildsEveryStatus` | src/lib/modules/mandates.ts:532-578 | In any order of the log each attempt's status is the highest-ranked one its events name, and no status is named twice. |
| `LogTheorems.ReconciliationIsRecordedOnce` | src/lib/modules/execution-worker.ts:470-489 | Exactly one attempt_reconciled event if the attempt is charged or refused and none otherwise; exactly one attempt_reconciliation_started event if it was ever execution_unknown and none otherwise. |
| `LogTheorems.FirstMatchIsTheOnePayload` | src/lib/modules/execution-worker.ts:933-951 | Whatever the order of the log, the first-match lookup returns the payload of the attempt's only dispatch if it was ever execution_unknown, and nothing otherwise. |
| `LogTheorems.StartedIffEverUnknown` | src/lib/modules/execution-worker.ts:393-429 | A start of reconciliation is on record exactly if the attempt was execution_unknown at some moment of the run. |
| `Log.ReplayAnyOrder` | src/lib/infrastructure/postgres-store.ts:494-500 | A replay depends on which events are in the log, not on their order. |
| `Log.DispatchResultKeepsLog` | src/lib/modules/execution-worker.ts:393-489 | If the log tells every budget and status, it still does after the vendor's answer is stored: the entries added match what the answer did to the attempt and its mandate. |
| `Log.ReleaseKeepsLog` | src/lib/modules/execution-worker.ts:522-552 | If the log tells every budget and status, it still does after a release, of a queued attempt too. |
| `Log.ReconciliationKeepsLog` | src/lib/modules/execution-worker.ts:654-732 | If the log tells every budget and status, it still does after a reconciliation. |
| `Log.RunKeepsLog` | src/lib/modules/mandates.ts:343-591 | If the log tells every budget and status, it still does after a request, repeated, denied or reserved. |
| `DispatchTheorems.VendorIsCalledAtMostOnce` | src/lib/modules/execution-worker.ts:752-822 | In every run, with repeated leases and redelivered queue messages, the vendor is called at most once for an attempt, exactly once if it was charged, refused or left unresolved, and never for one still queued or denied. |
| `DispatchTheorems.ReservationIsRemovedOnce` | src/lib/modules/execution-worker.ts:346-559 | The number of steps of a run that take an attempt's amount off its mandate is one if the attempt was charged, refused or released, and zero otherwise, deaths between settling and completing included. |
| `DispatchTheorems.PreflightRefusesOnlyTheDead` | src/lib/modules/execution-worker.ts:580-615 | In reachable states preflight refuses exactly expired and revoked mandates, and its last two refusals are never given. |
| `DispatchTheorems.OutcomeIsStatus` | src/lib/modules/execution-worker.ts:373-374 | In every reachable state an attempt's financial outcome equals its status. |
| `DispatchTheorems.OnlyCorrelationResolves` | CONTRIBUTING.md:98-100 | An execution_unknown attempt stays as it is with its reservation held in full until a reconciliation worker stores what correlation proved, and then takes exactly that outcome; a repeated identifier cannot touch it. |
| `DispatchTheorems.UnresolvedDispatchGetsANewTask` | src/lib/modules/execution-worker.ts:140-160 | When a dispatch turns out unresolved there is no live reconcile task of the attempt, so the search finds none and a new task is made. |
| `DispatchTheorems.SettlingIsTheStep` | src/lib/modules/execution-worker.ts:346-492 | Storing an answer in a reachable state is the protocol's step whatever the search for a live reconcile task found. |
| `DispatchTheorems.QueueingIsTheStep` | src/lib/modules/execution-worker.ts:839-871 | Queueing a reconciliation is the protocol's step whichever live task the search met first. |
| `OutcomeTheorems.OutcomeIsAnsweredOrProved` | src/lib/modules/execution-worker.ts:814-838 | In every run an attempt that was charged or refused ended as the vendor answered, or the vendor left it unresolved and correlation proved that end. |
| `OutcomeTheorems.AnsweredIsReleasedIffSettlingThrew` | src/lib/modules/execution-worker.ts:814-838 | In every run an attempt the vendor answered for, once no longer dispatching, is released exactly if the transaction that was to store the answer threw; otherwise a definite answer is its end. |
| `OutcomeTheorems.ThrownAnswerIsReleased` | src/lib/modules/execution-worker.ts:827-835 | From any place where a worker holds an answer, an exception leads to a release. |
| `OutcomeExample.ASuccessCanEndReleased` | src/lib/modules/execution-worker.ts:827-835 | There is a run from one agent in which the vendor answers with a success and the attempt ends released. |
| `UnresolvedTheorems.BecomesUnknownNow` | src/lib/modules/execution-worker.ts:372-377 | An attempt becomes execution_unknown only when a worker stores the vendor's unresolved answer, and is stamped with that moment. |
| `UnresolvedTheorems.UnknownSinceItsStamp` | src/lib/modules/execution-worker.ts:372-377 | In every run an execution_unknown attempt's `updatedAt` is the clock of the step that made it so. |
| `UnresolvedTheorems.CopyKeepsTheMoment` | src/lib/modules/execution-worker.ts:912-931 | In every run the copy a reconciliation worker holds of an unresolved attempt carries that moment. |
| `Workers.SettleKeepsWorkers` | src/lib/modules/execution-worker.ts:346-492 | Storing an answer keeps every worker's place true, also those of stale workers that hold the same task. |
| `Workers.ReleasesOnlyDispatching` | src/lib/modules/execution-worker.ts:501-533 | A worker that releases finds its attempt dispatching or cannot release it at all. |
| `Leases.EligibleMeansRested` | src/lib/modules/execution-worker.ts:202-211 | A task that can be leased was last leased at least a lease period ago, however it became eligible. |
| `LeaseTheorems.LeasesKeepTheirDistance` | src/lib/modules/execution-worker.ts:196-226 | In every run consecutive leases of one task are at least 30 000 ms apart, stale workers that requeue late included. |
| `LeaseTheorems.RequeuesAreBounded` | src/lib/modules/execution-worker.ts:311-344 | In every run a task is requeued at most 30 times. |
| `LeaseTheorems.RequeueIsDecidedInTheWindow` | src/lib/modules/execution-worker.ts:976-998 | In every run a worker whose reconciliation failed goes on to requeue exactly if it saw the attempt unresolved and 15 minutes have not passed since the clock of the step that made it execution_unknown, which was before the task was made; otherwise it fails the task. |
| `ClosedMandates.ClosedMandatesStayClosed` | src/lib/modules/mandates.ts:251-287 | A revoked or expired mandate keeps its status in every continuation and its reservation never grows. |
| `ClosedMandates.DeadMandatesReserveNoMore` | src/lib/modules/policy.ts:31-38 | Nothing is ever reserved again on a mandate that is revoked, expired or past its expiry time. |
| `ClosedMandates.AtMostOneLastCall` | src/lib/modules/execution-worker.ts:791-820 | After a mandate is revoked or has expired at most one more vendor call is made for it, and only for an attempt whose preflight had passed before. |
| `ClosedMandates.TheLastCallCanStillSettle` | src/lib/modules/execution-worker.ts:69-81 | That last call can still settle: the attempt succeeds, the mandate keeps its closed status, and the budget is kept. |
| `Idempotency.RequestsAreIdempotent` | src/lib/modules/mandates.ts:311-341 | Once a request with an identifier succeeded, then after any further run the same fields get the same attempt back and change nothing, other fields fail and change nothing, no other attempt uses the identifier, and it is reserved for at most once. |
| `Idempotency.RepeatFindsTheAttempt` | src/lib/modules/mandates.ts:311-329 | With its identifier on record a request makes no attempt: with the same fields and an operator it gets that attempt, and otherwise the validation error, the missing mandate or the conflict, in the order of the checks. |
| `Acceptance.NoReachableStoreIsRejected` | src/lib/infrastructure/store.ts:318-325 | The arrays of any reachable store, in any order, pass the integrity check: no code is deserved. |
| `Acceptance.NoLaterWriteClashes` | src/lib/infrastructure/postgres-store.ts:587-701 | Over the tables written in any reachable state, the store of any later state is consistent and no upsert clashes on a payment identifier. |
| `Integrity.PushDuplicateIdIssues` | src/lib/infrastructure/store-integrity.ts:14-33 | The code is added exactly when some value stands in two places. |
| `Integrity.CheckVendors` | src/lib/infrastructure/store-integrity.ts:130-148 | The vendor codes are added exactly for a repeated or an unregistered approved vendor. |
| `Integrity.CheckMandate` | src/lib/infrastructure/store-integrity.ts:92-149 | Each mandate code is added exactly when the mandate deserves it. |
| `Integrity.CheckAttempts` | src/lib/infrastructure/store-integrity.ts:151-180 | Each attempt code is added exactly when some attempt deserves it, identifiers counted as used by earlier rows only. |
| `Integrity.CheckWorkerTasks` | src/lib/infrastructure/store-integrity.ts:182-211 | Each task code is added exactly when some task deserves it. |
| `Integrity.CheckAuditEntries` | src/lib/infrastructure/store-integrity.ts:213-236 | Each audit code is added exactly when some entry deserves it. |
| `Integrity.CheckDomainEvents` | src/lib/infrastructure/store-integrity.ts:238-265 | Each event code is added exactly when some event deserves it. |
| `Integrity.BuildStoreIntegrityReport` | src/lib/infrastructure/store-integrity.ts:35-271 | Each code is reported exactly when it is deserved, and nothing is reported exactly for a consistent store, repeated ids or not. |
| `Integrity.NothingViolatedIffConsistent` | src/lib/infrastructure/store-integrity.ts:35-271 | No code is deserved, with last-wins lookups, exactly when ids and identifiers are unique and every reference leads to a row that agrees. |
| `Stores.NormalizeApprovedVendorIds` | src/lib/modules/mandates.ts:60-79 | Accepts exactly a list with at least one id in which every id trims to a registered vendor; keeps each vendor asked for once, in the order of first occurrence, and gives a validation error otherwise. |
| `Stores.Store.CreateMandate` | src/lib/modules/mandates.ts:185-249 | Succeeds exactly for a valid request of an active agent with an anchor reference that is not blank and known vendors; the arrays then show the mandate with everything asked for, made active by way of draft, and its two entries. Otherwise the same error in the same order of checks. |
| `Stores.Store.RevokeMandate` | src/lib/modules/mandates.ts:251-287 | Succeeds exactly for an active or reserved mandate and an anchor reference that is not blank; the arrays then show it revoked by way of revoking, its sums and terms and every other row kept, with its two entries. Otherwise the same error. |
| `Stores.Store.RunAttempt` | src/lib/modules/mandates.ts:289-341 | The arrays afterwards show what a repeat, a conflict or a new request does, in the order of the checks; an empty identifier is refused by the check on the write. |
| `Stores.Store.Decide` | src/lib/modules/mandates.ts:343-450 | The arrays afterwards show the policy's decision: denied, with the mandate expired on the way if its time was up, or passed on to the treasury. |
| `Stores.Store.Enforce` | src/lib/modules/mandates.ts:452-512 | A denial leaves the attempt stored as denied with the treasury's code, mandates and tasks as they were; an approval or no enforcement leaves it queued, its amount added to the reservation and a dispatch task made; an exception ends the request. |
| `Stores.Store.Reserve` | src/lib/modules/mandates.ts:514-591 | The arrays afterwards show the amount reserved, the attempt queued, its dispatch task and all five entries. |
| `Stores.Store.EnqueueWorkerTask` | src/lib/modules/execution-worker.ts:140-194 | A live task of the same kind and attempt is reused; only without one a new task and its event are added. |
| `Stores.Store.PickTask` | src/lib/modules/execution-worker.ts:202-215 | Of the tasks of the kind that are available and queued, or leased with their lease run out, the index of one with the least creation time, the first in the list among equals; none exactly if there is no such task. |
| `Stores.Store.LeaseNextWorkerTask` | src/lib/modules/execution-worker.ts:196-249 | Leases an oldest task of the kind that is available and queued or leased with its lease run out, for half a minute from now, and returns its snapshot; returns nothing exactly if there is no such task. |
| `Stores.Store.CompleteWorkerTask` | src/lib/modules/execution-worker.ts:251-279 | The arrays afterwards show the task completed, unguarded, and its event. |
| `Stores.Store.FailWorkerTask` | src/lib/modules/execution-worker.ts:281-309 | The arrays afterwards show the task failed, unguarded, and its event. |
| `Stores.Store.RequeueWorkerTask` | src/lib/modules/execution-worker.ts:311-344 | The arrays afterwards show the task queued again for later, unguarded, and its event. |
| `Stores.Store.BeginDispatch` | src/lib/modules/execution-worker.ts:752-789 | The arrays afterwards show the attempt dispatching with its two entries, or the guard's error. |
| `Stores.Store.GetDispatchPreflightFailure` | src/lib/modules/execution-worker.ts:561-617 | The refusal for the mandate's and attempt's state, in the order of the checks, or none. |
| `Stores.Store.ApplyDispatchResult` | src/lib/modules/execution-worker.ts:346-492 | A stored success charges the attempt and consumes the amount reported, capped at the claim; a refusal gives the reservation back; an unresolved answer keeps it and has its reconcile task; with all entries and no other row changed, or the guard's error. |
| `Stores.Store.ReleaseDispatch` | src/lib/modules/execution-worker.ts:501-555 | The attempt is released for the reason given, its amount taken off the reservation, never below zero, with the two entries and no other row changed, or the guard's error. |
| `Stores.Store.EnsureReconciliationQueued` | src/lib/modules/execution-worker.ts:839-871 | A reconcile task of the unresolved attempt is found or added; otherwise the same error. |
| `Stores.Store.FindPayload` | src/lib/modules/execution-worker.ts:933-951 | The payload of the first event of the list that recorded one for the attempt. |
| `Stores.Store.ApplyReconciliationResult` | src/lib/modules/execution-worker.ts:619-735 | The unresolved attempt is settled as proved, its mandate consumes the amount proved, capped at the claim, if it was a success, with all six entries and no other row changed, or the conflict. |
| `Drain.ProcessNextQueuedAttempt` | src/lib/modules/execution-worker.ts:744-837 | One run of the worker handles an oldest eligible task and leaves all other attempts, mandates and tasks alone: if the vendor may be called and answers, attempt and mandate end as the answer says and the task completes; otherwise the attempt is released for the first reason that applies and the task fails. Idle exactly when nothing is eligible. It throws exactly when the task's attempt has left the queue, and then the task is leased and nothing else has changed. |
| `Drain.ProcessExecutionQueue` | src/lib/modules/execution-worker.ts:873-910 | Handles exactly as many tasks as are eligible or the limit allows, oldest first, each completed or failed, and no other attempt; processed is completed plus unresolved plus failed, and each counter says how the attempts ended. It throws only when the next task's attempt has left the queue, the tasks before it handled and that one leased. |
| `DrainTheorems.EveryAttemptHasOneDispatchTask` | src/lib/modules/mandates.ts:550-557 | In every reachable state no attempt has two dispatch tasks. |
| `DrainTheorems.DrainThrowsOnlyForTheUnqueued` | src/lib/modules/execution-worker.ts:752-766 | Every reachable store meets what the drain requires, and there a task it throws for had an attempt that was not queued when the loop began. |
| `DrainTheorems.ReadyIffQueued` | src/lib/modules/execution-worker.ts:752-766 | A reachable store is fit for the drain, every eligible task having a queued attempt of its own, exactly when its eligible dispatch tasks are for dispatch_queued attempts. |
| `PromiseLock.TransactionsAreSerialised` | src/lib/infrastructure/store.ts:701-720 | However arrivals and endings interleave, at most one body is at work, on the current store; callers finish in order of arrival; and the store is what the finished bodies make of it one after another, those that threw or were refused adding nothing. |
| `PromiseLock.AcceptedStaysAccepted` | src/lib/infrastructure/store.ts:711-716 | If the store passes the check at the start, it passes it after any events, whatever the bodies return, and every caller that resumes works on it. |
| `PromiseLock.NobodyWaitsForEver` | src/lib/infrastructure/store.ts:711-719 | The first caller not through can always go on, and when a body settles, also by throwing or by a refused write, the next caller can. |
| `PromiseLock.Lock.Enter` | src/lib/infrastructure/store.ts:706-710 | After any sequence of calls on a new lock, a caller takes the tail of the chain to wait for and leaves a new unresolved promise in its place. |
| `PromiseLock.Lock.Begin` | src/lib/infrastructure/store.ts:711-713 | After any sequence of calls, a caller whose predecessor is through works on the current store, alone, or is through itself and lets the next go on when the read is refused. |
| `PromiseLock.Lock.End` | src/lib/infrastructure/store.ts:714-719 | After any sequence of calls, a body that settles leaves the value it returned if the check accepts it and the store as it was otherwise, lets the next caller go on in any case, and leaves the fold over the bodies up to its own. |
| `BudgetObject.MandateBudgetLock.ApplyBudgetCommand` | src/workers/mandate402.ts:376-421 | An invalid command is rejected and changes nothing, and so does one whose id is in the window; any other moves the two sums as its kind says, the reservation never below zero, and leaves the last 99 ids and the new one. |
| `BudgetObject.WindowIsBounded` | src/workers/mandate402.ts:412-415 | After any history the window is the last hundred ids that took effect, without duplicates. |
| `BudgetObject.WindowRefinesUnboundedMemory` | src/workers/mandate402.ts:392-418 | The commands that take effect are the history without its repeats exactly when each repeat comes with at most 99 fresh ids since the first use of its id. |
| `BudgetObject.FinalBudgetIgnoresRepeats` | src/workers/mandate402.ts:399-410 | For such histories the final budget is the fold over the history with repeats removed. |
| `BudgetObject.LateRepeatCountsTwice` | src/workers/mandate402.ts:412-415 | A reservation redelivered after a hundred other ids counts twice. |
| `BudgetObject.SomeRepeatIsTooLate` | src/workers/mandate402.ts:392-418 | There is a history whose final budget differs from the one without repeats. |
| `BudgetObject.ClampedSumIsNetLessLowest` | src/workers/mandate402.ts:403-410 | The clamped running sum is the net of the commands less the lowest net of any prefix, and the consumed sum is the sum of the consume amounts. |
| `BudgetObject.ConservedIffNeverOverdrawn` | src/workers/mandate402.ts:403-410 | The reserved sum is the net exactly when no prefix takes out more than was put in. |
| `BudgetObject.ObjectIsNetLessLowest` | src/workers/mandate402.ts:392-418 | The same closed form for the object after any history of valid commands, over those that took effect. |
| `Persistence.WriteStoreToClient` | src/lib/infrastructure/postgres-store.ts:587-818 | From any tables whose constraints hold, upsert then prune ends in exactly the new store, cascades included; it throws exactly for an inconsistent store or when an identifier is still held by another row not yet overwritten. |
| `Persistence.PruningLeavesTheImage` | src/lib/infrastructure/postgres-store.ts:800-817 | The six deletes with their cascades leave exactly the new store; no cascade reaches a row that should stay. |
| `Persistence.UpsertAttempts` | src/lib/infrastructure/postgres-store.ts:662-701 | The upserts of attempts go through exactly when no identifier clashes with a row not yet overwritten. |
| `Persistence.WriteStoreSync` | src/lib/infrastructure/store.ts:318-476 | Clear then insert, from any tables, ends in exactly the new store and throws exactly for an inconsistent one. |
| `Persistence.InsertRows` | src/lib/infrastructure/store.ts:340-470 | Plain inserts go through exactly when no key repeats or is taken, every reference finds its row and no unique value comes twice. |
| `Persistence.SettledIdentifiersDoNotClash` | src/lib/db/schema.ts:52-68 | If attempts that stay keep their identifiers and those of dropped ones are not used again, the upserts do not clash. |
| `Persistence.SwappedIdentifiersClash` | src/lib/db/schema.ts:65 | Over the tables of any consistent store, the consistent store in which any two attempts have swapped their identifiers clashes, so the upserts throw where clear-then-insert ends in it. |
| `Persistence.SomeConsistentStoreIsRefused` | src/lib/db/schema.ts:65 | There are such tables and such a store. |
| `Persistence.GroupVendors` | src/lib/infrastructure/postgres-store.ts:384-389 | The map holds for each mandate the vendors of its rows, in the order of the rows. |
| `Persistence.ReadStoreFromClient` | src/lib/infrastructure/postgres-store.ts:502-585 | The rows are assembled into a store, or the read throws exactly when they are inconsistent. |
| `Persistence.WhatIsWrittenIsReadBack` | src/lib/infrastructure/store.ts:588-675 | Reading back what was written gives the same rows up to order, each mandate's vendors up to order, and no grouped approvals. |
| `Persistence.VendorsComeBackSorted` | src/lib/infrastructure/store.ts:524-536 | Each mandate's vendors come back in the order of the collation. |
| `StableJson.StableJsonIsCanonical` | src/lib/modules/payments.ts:63-78 | With a key comparison without ties, two parsed values print to the same text exactly when they differ at most in the order of object keys, at any depth. |
| `JsonText.PrintIsText` | src/lib/modules/payments.ts:63-78 | For a comparison with transitive ties, what is printed is a JSON text of the value (RFC 8259, sections 4 to 7): brackets, commas, colons and literals, every character of a string as itself or as an escape that stands for it, and every object's members in the order of their keys. |
| `JsonText.SortIsStable` | src/lib/modules/payments.ts:69-71 | For a comparison with transitive ties the sort gives the same members in ascending order, those that tie in the order they had. |
| `StableJson.EqualTextsMeanSameValues` | src/lib/modules/payments.ts:63-78 | Equal texts come only from such values, whatever the comparison. |
| `StableJson.PrintedValueIsUnique` | src/lib/modules/payments.ts:64-77 | A printed value can be read off the front of a text in one way only. |
| `StableJson.CanonicalIffNoTies` | src/lib/modules/payments.ts:69-71 | The printer is canonical for a comparison exactly when no two different keys tie under it. |
| `StableJson.TiedKeysShow` | src/lib/modules/payments.ts:69-71 | Two keys that tie give two orders of one object different texts. |

## Left out

- Vendor, facilitator, treasury and anchor calls: each is any value of its result type, or an exception; signing, the 402 handshake and timeouts are not modelled, and the handshake's two requests count as one vendor call.
- What the vendor did in a call that threw: the attempt is released as in the code, and only answers that came back are compared with outcomes.
- Progress after a worker dies with its attempt in dispatching: a later lease throws and the reservation stays held, so no progress is claimed.
- Message texts, `lastError`, correlation ids, transaction hashes and other event metadata the proofs do not use are dropped; timestamps are integer milliseconds, and one transaction reads the clock once.
- Ids are numbers from a counter instead of random texts, so `createId` is fresh by construction, and an audit entry's attempt id is never the empty text.
- Amounts are integers; the rejections of fractions and of numbers that are not finite are modelled only for the vendor's reported amount and the durable object.
- Agents carry id, name and whether they are active; their times are dropped.
- Rows of `Store` are values replaced at their index, so two variables holding the same row object is not modelled.
- Stores.Store.ApplyDispatchResult: says nothing of the arrays when it fails, since the caller throws them away; the same goes for every transaction body that throws.
- Drain.ProcessExecutionQueue: states the promise for a worker alone and a clock that stands still, on stores whose eligible tasks refer to rows that exist, as the check on the read demands.
- The reconciliation drain loop, which counts in the same way.
- Completed tasks staying completed and a single live reconcile task per attempt: `complete`, `fail` and `requeueWorkerTask` check neither the lease owner nor the status, so a worker that outlives its lease can break both; no result above relies on them.
- Approved vendors come back from the tables in another order; the protocol only asks whether a vendor is among them.
- StableJson.PrintedValueIsUnique: strings are sequences of Unicode scalar values, so the escapes for lone surrogates are not modelled; numbers are their JSON texts.
- The Postgres advisory lock: the database is taken to run the transactions one at a time.
- Persistence.WriteStoreSync: the vendor rows are inserted after all mandates instead of after each; no row depends on them.
- User interface, authentication, wallets, environment reading, fallback gate, metrics, migrations and demo services.
