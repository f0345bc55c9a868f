# Verified model of the workspace coordination core

A workspace lets many sessions share repositories and machines. What keeps them apart is a ledger that is changed only
in locked transactions, and a handful of journals that let an interrupted command go on where it stopped. This project
models that core in Dafny and proves what it promises.

* **The ledger** (`MachinePolicy`, `Ledger*`, `LateFailure`, `HiddenUnknown`, `Admission`, `Scheduler`, `ClaimMeaning`,
  `Coordination`). `Ledger` gives every transaction as a function on the state: jobs and machine reservations, resource
  claims, request receipts, fences and lifecycle receipts, the outbox, the frontier. `LedgerRuns.Op` lists the
  transactions and `Run` applies any sequence of them; `Sound` is the one invariant. `LedgerGuarantees`, `LedgerClaims`,
  `LedgerQueue`, `LedgerLaws`, `LedgerReceipts` and `LedgerUncertainty` say what follows in every reachable state.
  `LedgerRequests`, `LedgerSettlement`, `LedgerLifecycles`, `Admission` and `ClaimMeaning` say what the transactions do in
  terms of the records alone, without the functions that compute them. `Scheduler` and `Coordination` hold the loops and
  the class `Store`, whose methods promise both. `RecoveryReserve` treats the same ledger as encoded sizes.
* **Journals that survive a crash** (`Integration*`, `ScopedSwitch`, `ArchiveCleanup`, `SessionServices`,
  `ProviderCancel`). A crash is an effect or a save that fails, with or without having happened; the next run starts
  from what was saved. Their `Drive` methods make any number of such runs. `IntegrationMeaning` says what the saved
  phase of an integration promises of the ledger.
* **Algorithms with an exact specification** (`Review*`, `PayloadCollector`, `InactivityPolicy`).

Git, systemd, native provider calls, the clock and other processes appear as arbitrary values: `*` in a method, a
parameter in a function. Digests and UUIDs are values that are taken as injective and fresh. A locked section is one
step.

## Findings

Properties that the code does not have, each with an input that shows it and the exact condition under which it holds.

| property | input that breaks it | condition |
|---|---|---|
| A fenced owner has nothing to send. | `LateFailure.LateFailureWakesFencedOwner`: the transaction that records a delivery raises after its write, the session is fenced, and the rescue branch turns `delivered` into `retry` (libexec/workspace-coordination.rb:1029-1037 looks only for `held`). | `LedgerClaims.DeliveryFailedExact` |
| After admission no recovery step is refused for size. | `RecoveryReserve.RepeatedDeliveriesOverflow`: recovery growth counts nothing for delivered events (libexec/workspace-coordination.rb:416), but a late failure, or a reminder (libexec/workspace-integration-handoff.rb:128-133) whose delivery fails, makes them grow by an error text. | `RecoveryReserve.ReserveExact` |
| The same. | `RecoveryReserve.ResumesOverflow`: recovery growth counts the notices of one generation of a background integration, and every resume starts a new one (libexec/workspace-integration-background.rb:64-66) whose notice is not admitted (76-86). | `RecoveryReserve.ReserveExact` |
| While the outcome of a deployment is unknown, its reservation needs recovery. | `HiddenUnknown.AppliedHidesUnknown`: a refresh does not compare the machine it prepared with that of the reservation (libexec/workspace-coordination.rb:1383-1389), so two deployments of one reservation can run together, and the first record of an attempt takes the state from its own outcome alone (libexec/workspace-coordination-execution.rb:795-798). | `LedgerUncertainty.UnknownThroughoutExact`; no such step exists when every refresh prepares the machine again (`UnknownBlocksWhenKept`) |
| A thread is continued when this switch interrupted its last turn. | `ScopedSwitch.LostContinuation`: an archive call stops a newer turn and fails; the next run finds that turn already ended (portal/cmd/workspace-portal/codex_provider_scoped.go:260-266). | `ScopedSwitch.ContinuedExactly` |
| A thread is continued only when this switch interrupted its last turn. | `ScopedSwitch.ForeignStopIsContinued`: somebody else stops the journaled turn before the archive call (portal/cmd/workspace-portal/codex_provider_scoped.go:291). | `ScopedSwitch.ContinuedExactly` |
| A proof that a service stopped is right. | `SessionServices.ProofTooEarly`: after a reboot the first retry still launches, and while that launch is under way the unit is not found (libexec/workspace-session-services.rb:752-754). | `SessionServices.ProofExact` |
| An accepted cancellation excludes the switch. | `ProviderCancel.CancellationBypassed`: the copy of the worker says `switching` before the write of the cutoff fails, and handling the error stores that copy (libexec/workspace-provider-sessions.rb:56-59). | `ProviderCancel.CutoffExact` |
| An accepted cancellation is never lost. | `ProviderCancel.CancellationFails` and `CancellationUnreadable`: a cancellation of a waiting operation is stored as its phase (libexec/workspace-provider-sessions.rb:26-27), and the worker, on an unrelated error, overwrites the phase with its copy (495 expects no phase). | `ProviderCancel.StandingExact` and `CancellationsStand` |
| What a worker stores can be read again. | `ProviderCancel.UnreadableIsReached` and `UnreadableForever`: an error before admission pauses the operation as `recovery-required` in a waiting stage, and the reader refuses that pair (libexec/workspace-provider-sessions.rb:80). | `ProviderCancel.PauseUnreadable` |
| The first scan after enabling starts a fresh period (docs/dev-sessions.md:868-870). | `InactivityPolicy.EnablingForgottenConcretely`: an incomplete first observation records the new epoch and keeps the old period (libexec/workspace-auto-archive.rb:150-166). | `InactivityPolicy.EnablingRestarts` |

In the last row the documentation and the code disagree; the model follows the code.

## Model

| member | source | states |
|---|---|---|
| MachinePolicy.CanonicalExact | libexec/workspace-machine-identity.rb:113-121 | `canonical` succeeds exactly on alias chains that end, and then returns the end of the chain, however long |
| MachinePolicy.CycleNeverSettles | libexec/workspace-machine-identity.rb:113-121 | a chain that meets one of its own earlier members never ends, so raising on a repeated name refuses no chain that would have ended |
| MachinePolicy.Policy.Canonical | libexec/workspace-machine-identity.rb:113-121 | the loop with its `seen` table is that partial function: it fails exactly on endless chains and otherwise returns an element of the chain that is no alias |
| MachinePolicy.Policy.Create | libexec/workspace-machine-identity.rb:82-95 | the constructor accepts a table exactly when no name is declared with two targets and every chain ends |
| MachinePolicy.NormalIdempotent | libexec/workspace-machine-identity.rb:123-125 | under an accepted table normalization cannot raise, and normal forms are fixed points of it |
| MachinePolicy.AliasContends | libexec/workspace-machine-identity.rb:123-125 | an alias and its target have one normal form |
| MachinePolicy.Policy.Normalize | libexec/workspace-machine-identity.rb:123-125 | the result lists the normal forms of the given resources, each once and nothing else |
| LedgerRuns.NextKeeps | libexec/workspace-coordination.rb:176-194 | every transaction of the ledger keeps the whole invariant, notices, reminders and acknowledgements of background integrations included; it also keeps fenced owners silent unless it is a failed delivery of an event already delivered to a fenced owner |
| LedgerRuns.RunKeeps | libexec/workspace-coordination.rb:176-194 | the same over every finite run, from any sound ledger |
| LedgerGuarantees.OneHolder | libexec/workspace-coordination.rb:1485-1561 | in every reachable ledger a normalized resource has at most one holder among claimed, running and reconciling jobs and held claims, of either protocol |
| LedgerGuarantees.NamesExcludeEachOther | libexec/workspace-machine-identity.rb:113-125 | with the installed alias table, two holders whose resources lead to one name along any chains of aliases, in either spelling of a repository, are the same holder |
| LedgerGuarantees.OneReservationPerMachine | libexec/workspace-coordination.rb:1508-1517 | in every reachable ledger at most one reservation of a machine, under any of its names, is past `requested` and not released |
| LedgerGuarantees.ChecksNeverRefuse | libexec/workspace-coordination.rb:300-303 | the overlap checks on jobs, reservations and claims that run before every write hold after every transaction from every reachable ledger, so none of them can refuse one |
| LedgerGuarantees.ReserveFindsItsOwn | libexec/workspace-coordination.rb:1364-1366 | with an approval that covers the machine, asking again for a machine whose reservation is not released replies with that one reservation and changes nothing |
| LedgerGuarantees.FrontierFixed | libexec/workspace-coordination-execution.rb:675-692 | while an attempt on a machine is active no transaction changes what is integrated on that machine |
| LedgerGuarantees.FrontierFixedThroughout | libexec/workspace-coordination-execution.rb:675-692 | the frontier of a machine is the same at both ends of any run during which an attempt on it stays active |
| LedgerGuarantees.AllDependenciesDone | libexec/workspace-coordination.rb:1504-1507 | everything a claimed, running, reconciling or succeeded job depends on, directly or through other jobs, has succeeded and has a smaller sequence |
| LedgerGuarantees.DependenciesDescend | libexec/workspace-coordination.rb:1405-1408 | sequences fall along every dependency path, so no job depends on itself |
| LedgerGuarantees.ReplayReturnsFirstReply | libexec/workspace-coordination.rb:391-399 | after any run, repeating an accepted request returns its first reply and leaves the ledger as it is |
| LedgerGuarantees.ReuseIsRefused | libexec/workspace-coordination.rb:396-399 | after any run, an accepted request identity with another owner or another input is refused and changes nothing |
| LedgerGuarantees.FencedIsQuiet | libexec/workspace-coordination.rb:488-520 | in every reachable ledger a fenced owner has only terminal jobs and no held or waiting claim, after a completed archive no unreleased reservation, and, if no delivery failed late, only held or delivered events |
| LedgerGuarantees.FenceLeavesOnlyByRevival | libexec/workspace-coordination.rb:662-680 | the only transaction that clears a fence is the revival of the completed archive that raised it, for an owner named in its receipt |
| LedgerGuarantees.ArchiveReleases | libexec/workspace-coordination.rb:632-660 | the first completion of an archive completes the fence of every owner it names and releases all their reservations |
| LedgerGuarantees.CompletionSucceeds | libexec/workspace-coordination.rb:641-657 | while the fences of the named owners are still bound to the operation, completing an archive or delete cannot be refused |
| LedgerClaims.QueueNeverStalls | libexec/workspace-coordination-claims.rb:282-293 | whenever some waiting claim is free of busy resources, there is a first such claim in the queue, it is not blocked, and a tick of its live owner grants it |
| LedgerClaims.FirstKeepsItsTurn | libexec/workspace-coordination-claims.rb:447-451 | granting any other claim leaves the first free claim free |
| LedgerClaims.QuietQueue | libexec/workspace-coordination-claims.rb:432-453 | when no tick of any waiting claim of a live owner changes anything, every waiting claim overlaps something busy |
| LedgerClaims.NewRequestYields | libexec/workspace-coordination-claims.rb:366-377 | a new request that overlaps a waiting claim which could be granted is not granted |
| LedgerQueue.GrantsKeepOrder | libexec/workspace-coordination-claims.rb:282-293 | no transaction of any kind grants a claim while an earlier waiting claim that is free of busy resources overlaps it |
| LedgerClaims.DeliveryFailedExact | libexec/workspace-coordination.rb:1029-1037 | recording a failed delivery keeps fenced owners silent if and only if the event is not an already delivered one of a fenced owner |
| LateFailure.LateFailureWakesFencedOwner | libexec/workspace-coordination.rb:1029-1037 | a run from the empty ledger (register, acquire, announce, deliver, release, fence) after which a failed delivery leaves a fenced owner with an event to send |
| Scheduler.VerdictStable | libexec/workspace-coordination.rb:1494-1529 | state, reason and place that the first loop gives a job do not depend on the jobs examined before it |
| Scheduler.VerdictMeans | libexec/workspace-coordination.rb:1465-1529 | said on the records: a waiting job becomes ready if and only if its integration is not paused, its owner is not fenced, an approval of that owner covers its branch or its machine and action and reviewed its snapshot or change, everything it depends on succeeded, its machine needs no recovery, is occupied by no other reservation and wanted by no contender of an earlier request, and none of its resources is held by a claim or owned by a job; each other state and reason has its own condition |
| Scheduler.Examine | libexec/workspace-coordination.rb:1493-1529 | the first loop leaves every waiting job where the records at the start of the pass say it belongs, with that reason, changes nothing else of it, and gives it a place in the ready order once, behind all earlier places and in the order of submission |
| Scheduler.OneRequestPerMachine | libexec/workspace-coordination.rb:1508-1517 | two jobs ready in one pass never wait on different requested reservations of one machine |
| Scheduler.StillGrantable | libexec/workspace-coordination.rb:1531-1558 | whatever the pass granted before, a ready job whose resources are not busy meets every condition of a grant |
| Scheduler.GrantReady | libexec/workspace-coordination.rb:1530-1559 | the second loop claims only its own jobs, each under the attempt minted for it, refuses its own that are too large, and keeps the place of the others; what is granted or kept is pairwise disjoint; a ready job is passed over only if it overlaps an earlier granted or kept one, or because no slot is left, and then nothing after it is granted |
| Coordination.Store.ClaimReady | libexec/workspace-coordination.rb:1485-1561 | one transaction, nothing while suspended: a waiting job that may run on the records before the pass, belongs to this owner and workspace and fits a request is claimed, unless four jobs work or an earlier ready job that was claimed or keeps its place has one of its resources; only such jobs are claimed; never more than four work when no more did before |
| Coordination.PassIsFair | libexec/workspace-coordination.rb:1530-1559 | every ready job is claimed, refused for its size or keeps its place as its owner and size say, or no slot is left, or it gives way to an earlier one; all other jobs stay as they were |
| Coordination.Store.Mutate | libexec/workspace-coordination.rb:391-409 | the receipt is consulted before the action, a refusal writes nothing, an accepted request stores its receipt with its effect; what each action then does is stated by the next rows |
| LedgerRequests.FirstRequest | libexec/workspace-coordination.rb:391-409 | a first request is accepted exactly for a known owner without a fence whose action is accepted, with capacity unless it cancels or finishes; its receipt is stored with the effect |
| LedgerRequests.ApprovalIsStored | libexec/workspace-coordination.rb:1340-1351 | an accepted approval is stored under a fresh identity with every field as given, and nothing else changes |
| LedgerRequests.ReservationIsRequested | libexec/workspace-coordination.rb:1352-1374 | a machine the owner has no reservation of is queued as requested, exactly with a deployment approval of the owner that names it |
| LedgerRequests.SubmissionExact | libexec/workspace-coordination.rb:1402-1425 | a first submission is accepted exactly when its draft is admissible: distinct known dependencies of the owner, no reservation for a merge, and for a deployment an unreleased reservation of the owner whose machine was prepared |
| LedgerRequests.DraftIsSubmitted | libexec/workspace-coordination.rb:1402-1425 | an accepted submission adds one job as its draft asks for it |
| LedgerRequests.BatchIsSubmitted | libexec/workspace-coordination.rb:1443-1461 | an accepted batch adds one new waiting job for each draft, in order, with its kind, approval, reservation, snapshot and resources; each dependency is the known identity, or the job of the last earlier draft of that key; nothing else changes |
| LedgerRequests.SubmittedOrderHolds | libexec/workspace-coordination.rb:1443-1461 | in every ledger reached after the batch, a job that owns resources or succeeded has behind it, succeeded, the job each of its dependencies meant |
| LedgerRequests.CancellationEnds | libexec/workspace-coordination.rb:1377-1395 | a cancellation is accepted exactly under the current revision of an open job of the owner, and only ends that job |
| LedgerRequests.RefreshStartsOver | libexec/workspace-coordination.rb:1377-1395 | a refresh is accepted exactly so; the job waits for approval again with the new snapshot, resources and approval and without its place |
| LedgerRequests.FinishReleases | libexec/workspace-coordination-execution.rb:675-692 | a finish is accepted exactly for a current, certain reservation of an owner without open jobs; it releases it, and an item enters the frontier of its machine if and only if it is proved and the last history record of its kind covers it; other frontiers stay |
| LedgerRequests.FrontierFromReleases | libexec/workspace-coordination-execution.rb:675-692 | in every reachable ledger an item is in the frontier of a machine if and only if some step of the run was a finish that entered it; none ever leaves |
| LedgerLaws.RunContinues | libexec/workspace-coordination.rb:176-194 | over any run no job is forgotten, given to another owner, or gets other dependencies, kind or reservation; one that ended never changes; outside refreshes and starts none gets another input or a new attempt |
| LedgerLaws.NextSteady | libexec/workspace-coordination.rb:176-194 | outside a settlement no transaction changes a deployment history, revives a released reservation, or unblocks one whose history is uncertain |
| LedgerReceipts.ReachedVouches | libexec/workspace-coordination.rb:391-409 | in every reachable ledger each receipt vouches for what its request did: the submitted jobs exist with owner, kind and reservation, the reservation asked for is of that machine, the finished one is released |
| Coordination.CreateAll | libexec/workspace-coordination.rb:1443-1461 | the loop over the drafts of a batch adds exactly the jobs the drafts ask for, with the dependencies they mean, or refuses all of them |
| Coordination.Store.Reconcile | libexec/workspace-coordination-execution.rb:775-801 | a current attempt whose outcome does not contradict its history is settled: applied succeeds, not applied fails, a changed baseline needs a refresh, unknown reconciles and keeps its resources; result, reason and announcement are stored and the deployment history is entered with it, or nothing is written |
| LedgerSettlement.OutcomeLeads | libexec/workspace-coordination-execution.rb:775-801 | when a settlement is accepted and where each outcome leads job, reservation and outbox, exactly |
| LedgerSettlement.ChangedBaselineIsRefreshed | libexec/workspace-coordination-execution.rb:780 | after a changed baseline the owner's refresh under the new revision is accepted and the job waits to be scheduled again |
| LedgerSettlement.NotAppliedIsFinal | libexec/workspace-coordination-execution.rb:780 | after an attempt that was not applied, in every later ledger the job is failed and its cancellation and refresh are refused |
| LedgerUncertainty.UnknownStepExact | libexec/workspace-coordination-execution.rb:783-799 | from a sound ledger, a step leaves a machine with an unknown outcome unblocked if and only if it enters another attempt of the reservation as applied over the unknown one |
| LedgerUncertainty.UnknownThroughoutExact | libexec/workspace-coordination-execution.rb:783-799 | over whole runs, unknown outcomes block their machines throughout if and only if there is no such step |
| LedgerUncertainty.UnknownBlocksWhenKept | libexec/workspace-coordination.rb:1383-1389 | when every refresh of a deployment prepares the machine of its reservation again, unknown outcomes block their machines in every ledger of the run |
| HiddenUnknown.AppliedHidesUnknown | libexec/workspace-coordination-execution.rb:795-798 | a run from the empty ledger (approve, reserve, submit two deployments, refresh one for another machine, one pass, unknown, applied) that ends with an unknown record and the machine under review |
| Coordination.RecordDeployment | libexec/workspace-coordination-execution.rb:783-799 | the search and update of the history: a new record, one disposition from unknown to applied, no change for a repeated outcome, or a refusal exactly for a contradiction |
| Coordination.Store.MoveAttempt | libexec/workspace-coordination-execution.rb:802-814 | a current attempt moves its job from claimed to running, or to reconciling, and changes nothing else of it |
| Coordination.Store.Fence | libexec/workspace-coordination.rb:481-520 | fencing succeeds exactly when the named owners are idle and no other unfinished intent holds one; then all their open jobs are canceled, their events parked and their waiting claims withdrawn; an archive leaves requested reservations and blocks the others, a delete releases those without history and blocks the others |
| LedgerLifecycles.FencingExact | libexec/workspace-coordination.rb:488-520 | fences are raised for all owners or for none, and do exactly that to the records of these owners and to no other |
| Coordination.Store.BindLifecycle | libexec/workspace-coordination.rb:574-600 | a first binding fences the owners, binds their fences to the operation and enters the receipt with their identities together, or nothing is written; a repeated binding changes no fence |
| Coordination.Store.BindRevival | libexec/workspace-coordination.rb:602-630 | a revival receipt copies the owners of the completed archive it names; any other archive, and a receipt of another identity, is refused without a write |
| Coordination.Store.LifecycleCompleted | libexec/workspace-coordination.rb:632-660 | completion is all or nothing: the fences that still bear the operation are completed and, for an archive, the reservations of exactly these owners released |
| Coordination.Store.Revived | libexec/workspace-coordination.rb:662-680 | a revival lifts the completed fences its receipt names and frees the parked events of these owners, of all or of none; jobs, reservations and claims it leaves |
| Coordination.Store.AcquireClaim | libexec/workspace-coordination-claims.rb:357-382 | from one reading: a saved claim answers a repeated request; a new one of a live owner is held exactly when it asked for it, nobody owns, holds or occupies one of its resources under any name, and no earlier waiting claim that could be granted wants one; otherwise it is queued or refused |
| Coordination.Store.TickClaims | libexec/workspace-coordination-claims.rb:432-453 | the ticks of a live owner are a run of ledger steps after which no claim it still waits for may be held |
| ClaimMeaning.TickMeans | libexec/workspace-coordination-claims.rb:447-451 | a tick grants a waiting claim of a live owner exactly when it may be held, and changes nothing else |
| Coordination.Store.EndClaim | libexec/workspace-coordination-claims.rb:409-424 | only the owner ends a claim, a repeated call changes nothing, and only a held claim is released and a waiting one canceled |
| Coordination.Store.FinishDelivery | libexec/workspace-coordination.rb:1025-1037 | a delivery is recorded as delivered, a failure as to be retried unless the event is parked; fenced owners stay silent unless the failure comes after the delivery |
| Coordination.Store.Notice | libexec/workspace-integration-background.rb:76-86 | a notice of a generation is entered once, for a live owner with a thread, and fenced owners stay silent |
| Coordination.Store.SendAgain | libexec/workspace-integration-handoff.rb:123-135 | only a delivered notice of a live owner is sent again, and fenced owners stay silent |
| RecoveryReserve.CeilingBetween | libexec/workspace-coordination.rb:413-451 | the ceiling of a ledger lies between its size and size plus recovery growth plus what counters and delivered events may add |
| RecoveryReserve.StepKeepsCeiling | libexec/workspace-coordination.rb:413-451 | no step without a further admission (moves of a job through its states, settlement, disposition, cancellation, fencing, holding and completing a reservation, announcement, delivery, failed or repeated delivery) raises the ceiling; resuming a background integration raises it by one event |
| RecoveryReserve.ReserveExact | libexec/workspace-coordination.rb:413-458 | with at most n resumes of background integrations, every run without a further admission stays within the ledger limit if and only if the ceiling with n more events does; each job and reservation moves through its own states |
| RecoveryReserve.AdmittedFits | libexec/workspace-coordination.rb:453-458 | an admitted ledger is safe whenever what its delivered events may grow by, and the counters, fit in the fixed reserve |
| RecoveryReserve.FewDeliveredFit | libexec/workspace-coordination.rb:453-458 | an admitted ledger with at most 472 delivered events is safe, whatever their sizes |
| RecoveryReserve.RepeatedDeliveriesOverflow | libexec/workspace-coordination.rb:1029-1037 | an admitted ledger with 520 delivered events of real size from which some run exceeds the limit |
| RecoveryReserve.ResumesOverflow | libexec/workspace-integration-background.rb:53-86 | while a background integration is unfinished, 1577 resumes, each with a notice of the largest size, are enough to exceed the limit from any ledger |
| IntegrationDriver.Driver.Drive | libexec/workspace-integration.rb:164-286 | stopped anywhere and resumed any number of times: every ledger effect is applied at most once, every saved reply is that of one effect, an unanswered step replays; every saved step asks what fits; and the saved phase is true of the ledger: completing and done mean that every merge of the items succeeded, deployed that both activations succeeded, done with a completion that the reservation is released |
| IntegrationMeaning.KeptPromises | libexec/workspace-integration.rb:221-309 | also: integrate-first asks for no deployment before all merges succeeded, deploy-first submits no merge before both activations succeeded, merge-only asks for none |
| IntegrationDriver.Driver.Resume | libexec/workspace-integration.rb:176-286 | a turn that ends well has advanced as its phase says, given the ledger it looked at: past the merges exactly when all succeeded and no refresh is under way, past a deployment exactly when both activations succeeded; deploy-first then prepares its merges anew |
| IntegrationDriver.Look | libexec/workspace-integration.rb:288-309 | among the jobs of a phase the first stale one is found before any failed, canceled or reconciling one, and only then must all have succeeded |
| IntegrationJournal.RequestKeeps | libexec/workspace-integration.rb:208-219 | asking the ledger for what a saved step intends adds at most that step and its receipt, and repeating it returns the first reply |
| IntegrationJournal.EachStepOnce | libexec/workspace-integration.rb:197-206 | a saved reply is the reply of exactly one ledger effect |
| IntegrationJournal.ResumedIsAnswered | libexec/workspace-integration.rb:197-219 | a resumed step is never answered that its request was reused for other input |
| IntegrationJournal.ForeignKeeps | libexec/workspace-integration.rb:197-206 | no run of other clients of the ledger touches the receipts of the driver |
| ScopedSwitch.Runner.Drive | portal/cmd/workspace-portal/codex_provider_scoped.go:236-391 | over any number of runs with crashes after any call or save: a continuation goes out only after verification, under one identity and for the turn that was decided on, and every thread that is done was treated rightly exactly under the condition of `ContinuedExactly` |
| ScopedSwitch.Runner.Unarchive | portal/cmd/workspace-portal/codex_provider_scoped.go:296-312 | a thread is opened only when the saved intents of all threads say closed |
| ScopedSwitch.ContinuedExactly | portal/cmd/workspace-portal/codex_provider_scoped.go:258-291 | a finished thread was continued exactly when this switch stopped its last turn, if and only if neither somebody else stopped that turn after the journal saw it running, or saw an older one, nor a failed archive stopped it while the journal named an older turn and the next run then found it stopped |
| ScopedSwitch.ContinuationIsDeserved | portal/cmd/workspace-portal/codex_provider_scoped.go:378-387 | messages are sent only to a verified thread, all with its one identity, and only when the journal last judged the turn interrupted |
| ScopedSwitch.StepKeeps | portal/cmd/workspace-portal/codex_provider_scoped.go:236-391 | every step of the switch or of a thread keeps what is known about that thread |
| ScopedSwitch.Runner.SwitchThreads | portal/cmd/workspace-portal/codex_provider_scoped.go:236-362 | a run that returns without error has verified every thread |
| ScopedSwitch.Runner.ContinueThreads | portal/cmd/workspace-portal/codex_provider_scoped.go:363-391 | a run that returns without error has finished every thread |
| ScopedSwitch.LostContinuation | portal/cmd/workspace-portal/codex_provider_scoped.go:258-267 | a run of steps from a prepared thread in which this switch stops the last turn and never continues it |
| ScopedSwitch.ForeignStopIsContinued | portal/cmd/workspace-portal/codex_provider_scoped.go:291 | a run of steps from a prepared thread in which somebody else stops the last turn and the switch continues it |
| ArchiveCleanup.Cleanup.Drive | libexec/workspace-archive-cleanup.rb:311-413 | over any number of interrupted runs the sealed inventory never changes and `removed` only turns true; if nobody else touches the group, a last undisturbed run completes the same inventory |
| ArchiveCleanup.Cleanup.Finish | libexec/workspace-archive-cleanup.rb:359-413 | a run that succeeds has marked the sidecar completed and nothing inventoried is on disk; an undisturbed run with no other writer succeeds |
| ArchiveCleanup.Cleanup.Revalidate | libexec/workspace-archive-cleanup.rb:311-357 | a run goes on only when sidecar and disk agree, and the sidecar it goes on with is saved |
| ArchiveCleanup.Cleanup.RemoveContainer | libexec/workspace-archive-cleanup.rb:390-399 | a container is removed only after all checkouts and every container inventoried below it |
| ArchiveCleanup.EmptyContainer | libexec/workspace-archive-cleanup.rb:390-399 | when everything inventoried below a container is gone the container is empty, so `rmdir` cannot fail on what the inventory knows |
| ArchiveCleanup.SortByDepth | libexec/workspace-archive-cleanup.rb:390 | the order names every container once, and every container after all that are deeper, so after all that lie below it |
| SessionServices.Services.Drive | libexec/workspace-session-services.rb:394-451 | over any sequence of commands, crashes and reboots each unit is started at most once and never while the marker is not ready, and a retired row has a dead unit or one launched on another boot than that of the row |
| SessionServices.Services.Run | libexec/workspace-session-services.rb:394-451 | a run that succeeds leaves the unit loaded, launched once, and its row running under this request and invocation; an undisturbed first run, and the retry of one that may not have launched, succeed; no other unit is launched, and none while a cleanup is prepared |
| SessionServices.Services.FinishWithoutLaunch | libexec/workspace-session-services.rb:597-605 | while the marker is initializing no unit has been launched, so retiring every row retires nothing that runs; afterwards the same rows are all retired |
| SessionServices.Services.StopRow | libexec/workspace-session-services.rb:759-790 | a row is retired only after a stop proof; other rows and identities stay |
| SessionServices.ProofIsRight | libexec/workspace-session-services.rb:750-757 | a unit that counts as stopped is dead, or was launched on another boot than that of its row; on the boot of the row it is dead |
| SessionServices.ProofExact | libexec/workspace-session-services.rb:750-757 | what a command can tell from the row: the proof is right whatever the unit does if and only if the row was created in this boot or its unit was once observed |
| SessionServices.ProofTooEarly | libexec/workspace-session-services.rb:750-757 | a row registered before a reboot, launched again by the retry after it, whose unit counts as stopped while the launch is under way |
| SessionServices.Services.Cleanup | libexec/workspace-session-services.rb:527-538 | cleanup succeeds only with every row retired |
| SessionServices.Services.Handoff | libexec/workspace-session-services.rb:549-562 | the cleanup intent is dropped only when every row is retired |
| PayloadCollector.Collector.Mark | libexec/workspace-coordination-gc.rb:362-379 | marking ends on any metadata, cyclic or not, covers the value, keeps what is marked closed, and marks nothing without a cause |
| PayloadCollector.ExactIsClosed | libexec/workspace-coordination-gc.rb:362-379 | what has been marked is closed under the references of the metadata |
| PayloadCollector.Collector.Protect | libexec/workspace-coordination-gc.rb:317-322 | protecting a payload marks exactly the metadata that mentions it, and all that needs |
| PayloadCollector.Collector.PlanPayloads | libexec/workspace-coordination-gc.rb:426-525 | the planned removals are the removable payloads outside the final closure, also when a later payload extends the closure after an earlier one was planned; what mentions a held payload, or a broken one that was not live at its turn, is marked |
| PayloadCollector.Collector.PlanRoots | libexec/workspace-coordination-gc.rb:526-543 | exactly the links of known and dead artifacts and attempts are planned |
| PayloadCollector.Collector.Sweep | libexec/workspace-coordination-gc.rb:394-545 | exactly the payloads that are neither young nor held nor broken nor live are planned; no planned worktree and no planned artifact link is reachable, through any number of references, from a live root, nor from the metadata that mentions a held payload, or a broken one that was not live at its turn |
| ProviderCancel.CutoffExact | libexec/workspace-provider-sessions.rb:49-61 | a step breaks the exclusion of cancellation and switching if and only if it stores the copy of a worker that says `switching` although its cutoff write failed and a cancellation was accepted since |
| ProviderCancel.CutoffHolds | libexec/workspace-provider-sessions.rb:49-61 | over any interleaving of worker, cancellations and crashes without such a step, no operation is both canceled and switched |
| ProviderCancel.NoneAfterCutoff | libexec/workspace-provider-sessions.rb:26-34 | once `switching` is stored, a cancellation of the operation is refused and changes nothing |
| ProviderCancel.RequestNeverLostThroughout | libexec/workspace-provider-sessions.rb:305-312 | no run of writes, by anybody and however far each gets, takes the flag of a cancellation back; a cancellation of a waiting operation has no flag and is the subject of the next rows |
| ProviderCancel.StandingExact | libexec/workspace-provider-sessions.rb:461-495 | a step takes an accepted cancellation back if and only if a worker, handling an error that was no cancellation, stores its copy over an operation that was canceled while it waited |
| ProviderCancel.CancellationsStand | libexec/workspace-provider-sessions.rb:305-329 | over any interleaving with crashes anywhere, every accepted cancellation stays stored, as a flag or as the phase, until a later operation takes its place, if and only if no such step occurs |
| ProviderCancel.CancellationFails | libexec/workspace-provider-sessions.rb:484-495 | a run from the start in which the stored phase canceled becomes failed |
| ProviderCancel.CancellationUnreadable | libexec/workspace-provider-sessions.rb:492-495 | a run from the start in which the stored phase canceled becomes a state that its reader refuses |
| ProviderCancel.AcceptedStopsSwitch | libexec/workspace-provider-sessions.rb:41-45 | without such a step, an operation whose cancellation was accepted is never switched afterwards |
| ProviderCancel.CancellationBypassed | libexec/workspace-provider-sessions.rb:56-59 | from every world in which a worker may begin the switch there is a run in which an accepted cancellation is followed by the switch |
| ProviderCancel.PreparingIsReached | libexec/workspace-provider-sessions.rb:347-415 | such a world is reached from the start |
| ProviderCancel.PauseUnreadable | libexec/workspace-provider-sessions.rb:67-83 | the error pause of a worker stores a state that its own reader refuses if and only if the operation is not yet admitted |
| ProviderCancel.UnreadableIsReached | libexec/workspace-provider-sessions.rb:492-495 | a run from the start that stores such a state |
| ProviderCancel.UnreadableForever | libexec/workspace-codex-providers.rb:153-159 | no later section changes such a state |
| ProviderCancel.Host.Cancel | libexec/workspace-provider-sessions.rb:16-37 | a cancellation is accepted exactly while the operation waits, was canceled before, or runs and has closed no thread; a waiting one is stored canceled, a running one flagged; it is written as control record and then main record, of which any prefix may survive a crash, or refused without a write |
| ProviderCancel.Host.ScopedWrite | libexec/workspace-provider-sessions.rb:305-328 | the write of the worker keeps a stored cancellation request, and writes nothing when identity or expected phase differ |
| ProviderCancel.Host.BeginSwitch | libexec/workspace-provider-sessions.rb:49-61 | the cutoff passes exactly for the stored, preparing operation without a cancellation flag; then `switching` is stored after the copy of the worker says so |
| InactivityPolicy.EligibleMeans | libexec/workspace-auto-archive.rb:133-176 | over any run, a session is eligible only by a complete sample of an idle session with a tier that nothing blocks, under an enabled policy, and never while it is held |
| InactivityPolicy.EligibleIsQuiet | libexec/workspace-auto-archive.rb:133-176 | over any run with non-decreasing times: if an observation reports eligible, every earlier disturbance (unknown activity, readable change, failed read, release of a hold, revival) lies at least the delay of the tier earlier, in stored seconds and, up to one second, on the clock |
| InactivityPolicy.QuietIsRewarded | libexec/workspace-auto-archive.rb:133-176 | from a settled record, through any number of undisturbed observations, a session that nothing else blocks is eligible exactly when the delay is over |
| InactivityPolicy.EnablingRestarts | libexec/workspace-auto-archive.rb:133-166 | the first observation under a new policy epoch restarts the period if and only if it is complete, of unknown activity or readably changed; the epoch counts as seen in each case |
| InactivityPolicy.EnablingForgotten | libexec/workspace-auto-archive.rb:145-166 | after one incomplete observation under a new epoch an old period still makes the session eligible |
| InactivityPolicy.EnablingForgottenConcretely | libexec/workspace-auto-archive.rb:145-166 | a run from a new record that becomes eligible before a full delay has passed since enabling |
| InactivityPolicy.Session.Scan | libexec/workspace-auto-archive.rb:133-176 | the step of the record is the observation function, and eligibility is withdrawn by a veto of the later proofs |
| InactivityPolicy.Session.Fail | libexec/workspace-auto-archive.rb:448-469 | a failed scan withdraws eligibility, and drops the period when activity is unknown |
| ReviewLines.SourceLines | portal/review-ui/editor-model.js:9-18 | the lines are exactly the pieces of the text with their offsets and numbers, without the empty piece after a final newline |
| ReviewProjection.Review | portal/review-ui/editor-model.js:50-110 | the projection succeeds exactly when the ranges fit both texts and the context lines agree; then its rows carry every old line and every new line exactly once and in order, context rows agree on both sides, marks lie in their rows, and both panes of a split view have equally many rows with the same context rows |
| ReviewMeaning.LitExactly | portal/review-ui/editor-model.js:66-104 | a deleted or added row lights exactly the characters that the diff of the two blocks of its change marks on its own side; rows of a block without the other side light nothing |
| ReviewMeaning.RowsRestoreText | portal/review-ui/editor-model.js:50-110 | reading the rows of one side from top to bottom gives back the text of that side, up to its final newline |
| ReviewMeaning.RowStandsAtOffset | portal/review-ui/editor-model.js:108 | the joined text holds every row at its offset |
| ReviewMeaning.PositionsAgree | portal/review-ui/editor-model.js:74-75 | the positions of a side name exactly the lines shown, each at the offset of its row |
| ReviewFolding.ContextRegions | portal/review-ui/editor-model.js:114-129 | the loop computes the folding function |
| ReviewFolding.RegionsHideFarRows | portal/review-ui/editor-model.js:114-129 | regions ascend without touching, hide at least the minimum number of rows each, and hide only context rows farther than the margin from any other row |
| ReviewFolding.LongStretchesAreHidden | portal/review-ui/editor-model.js:119-125 | every stretch of at least the minimum of such rows is hidden, unless it is one empty last row |
| ReviewFolding.PanesFoldAlike | portal/review-ui/editor-model.js:96-100 | both panes of a split view fold the same row ranges |
| ReviewTokens.ProjectTokens | portal/review-ui/editor-model.js:133-152 | the walk with two cursors gives the list that intersects every row with every token of its side, also for tokens that span rows |
| ReviewTokens.ProjectionRowsSorted | portal/review-ui/editor-model.js:133-152 | the rows of every projection are sorted as the walk needs them |

## Left out

- LedgerRuns.NextKeeps: the receipt that closes a bootstrap is refused for a fenced owner, and an acknowledgement answered twice does not ask again whether its owner is live; both touch only receipts. The journals of background integrations are inputs.
- Ledger.Perform: `finish` takes the integrated heads as a value; the Git ranges, replacement lineage and live-state inspection that produce them (libexec/workspace-coordination-execution.rb:630-674) are inputs.
- Coordination.Store.MoveAttempt: models one reconciling caller per job with the claimed-state guard; the transitions at libexec/workspace-coordination-execution.rb:804-814 act on a state read before their transaction, the rescue of the dispatch at 737-743 moves the job whatever its state is by then, and two concurrent callers are not modelled.
- LedgerGuarantees.FrontierFixed: speaks of the machine of the reservation; a refresh may give a job other resources, since the match between resources and machine is not checked again at libexec/workspace-coordination.rb:1383-1389.
- LedgerGuarantees.ReplayReturnsFirstReply: request digests are compared as the requests themselves, so it assumes that the digest is injective.
- LedgerClaims.QueueNeverStalls: the resolution of names before a tick (libexec/workspace-coordination-claims.rb:435-447), which can refuse a tick when mappings changed, is not modelled.
- RecoveryReserve.ReserveExact: works on encoded sizes with the bounds of the validators, not on JSON text; each record moves through its own states, and what one record keeps another from doing (a blocked machine, a missing approval) is not counted.
- IntegrationDriver.Driver.Drive: the Git work between the ledger steps (checkout, checks, scratch worktrees, export of records) is an effect that may fail and has no content; the phase `finalizing` is part of `Completing`. A run without a completion section ends without a release.
- IntegrationDriver.Driver.Resume: when a request is refused or the process dies nothing is promised but the invariant; whether the ledger accepts a request is stated in `LedgerRequests`.
- LedgerRequests.ReservationIsRequested: an owner that already has the reservation is the subject of `LedgerGuarantees.ReserveFindsItsOwn`.
- LedgerUncertainty.UnknownBlocksWhenKept: what the worker itself checks before it touches a machine is not modelled.
- Scheduler.VerdictMeans: a contender of an earlier request is not asked for a fence, as at libexec/workspace-coordination.rb:1511; a fenced owner has no such job in a reachable ledger.
- ScopedSwitch.Runner.Drive: threads without an active goal only; a native resume restores goals outside the shown code.
- ScopedSwitch.ContinuedExactly: which actor stopped a turn is known to the model only; the code cannot see it, so the condition is stated on the history of the thread.
- ArchiveCleanup.Cleanup.Drive: removing a checkout is one effect with or without success; the recovery archive of removed checkouts and branch proofs are inputs.
- SessionServices.Services.Drive: deadlines are choices; label, argument and path checks of a request are left out.
- PayloadCollector.Collector.Sweep: ends with the plan; removing worktrees and replaying pending removals (`remove_worktree`, `recover_pending`) act on Git registrations.
- PayloadCollector.Collector.PlanRoots: links of workers, profiles and generated roots (libexec/workspace-coordination-gc.rb:561-671) are planned from file dates and are left out.
- ProviderCancel.Host.Cancel: the operations of the older strategy, session selection and dismissal are left out, and so is the interval between reading and quiescing sessions.
- InactivityPolicy.Session.Scan: the proofs made after an eligible observation are one veto; archiving itself is `ArchiveCleanup`.
- ReviewProjection.Review: the character diff is a function that returns marks; syntax tokens are given.
- Approval texts, adapter catalogs, package compatibility, status views, timing metadata and HTTP serving would add members without adding a property.
- Admission capacity inside the ledger functions is a boolean of the transaction; its meaning is in `RecoveryReserve`.
