# Studio Hub: durable state machines

Studio Hub schedules generation work over a fleet of Macs and keeps its state through crashes, retries
and repeated messages. This project models its durable state machines and proves what they keep over
every run. Code that changes state in place is a class whose methods are proved equal to a function of
the old state; what every run keeps is then proved about that function, so it holds of every sequence of
calls on the object.

| module | what it models |
|---|---|
| `RepairRows`, `RepairStore` | the Controller's enrollment-repair request table and its transactions |
| `RepairAgent`, `RepairExecutor` | the Agent's journal and its one replacement of the settings file |
| `RepairCalls` | the same transactions column by column: who is granted, what moves a row where, what is written, which code refuses |
| `RepairProtocol` | both sides together: messages lost, delayed or repeated, crashes between durable writes, separate clocks, foreign writers |
| `RepairTickets`, `RepairRoundTrip` | the ticket text over every run, and one repair from its ticket to its completion |
| `RepairCoordinator` | how one scheduler turn orders the store's transactions around the network calls |
| `Fences`, `FenceRules` | GenStudio's three fence tables: `prepare`, `renew_lease`, `bind_local_batch` |
| `Submission`, `SubmissionEffects` | the broker's idempotent submission on top of the fences |
| `Scheduler` | one scheduling pass of the broker |
| `BrokerItems`, `Lifecycle`, `LifecycleEnds`, `BrokerState` | an item's life: dispatch, post, poll, reconcile, retry, fence, operator recovery, restart |
| `LaneTurns` | the turn token the Chat and Transcription queues share on one Mac |
| `Updater` | the managed updater over git HEAD, the durable phase and the rollback point |
| `Stall`, `StallRules` | which exact job has stalled long enough to be cancelled |
| `ChatParse`, `ChatPacks`, `ChatRuns`, `ChatRules` | Chat batches: accepting packs, reading answers, dispatch to retry |
| `ShadowQueue` | the byte-bounded queue of snapshots for the shadow database |
| `Outcomes` | `Option`, `Result` and two helpers |

How the source is read: one SQLite transaction, one `os.replace`, one ledger save or the code between two
awaits is one step; a crash may fall between any two steps. Everything outside the process (network
answers, health checks, clocks, worker capabilities, what another process writes) is a parameter of a step
or an event that may or may not happen. Hashes are injective, so a text stands where its digest is stored.
Times and gigabytes are reals.

## Where a promise stops

Some properties one would expect are false of the code. The code is modelled as it is; for each there is
the exact condition under which the property holds, with a failing case.

- **Capacity handoff.** The requeue at `app/backend/broker.py:2465-2477` looks at nothing again after its
  await. An uncertain Voice item goes back to queued by exactly this step and no other
  (`Lifecycle.UncertainStays`, `Lifecycle.TakenOverDuringHandoff`). The recovery mark stays, so the item is
  still never posted again (`Lifecycle.OwnedIsNeverReplayed`).
- **Accepted Voice work can be posted twice.** Short of a restart, an item is put back on the queue by
  exactly four steps: the capacity requeue, the peer-authentication requeue, a failure with a retry left
  that has no job to reconcile, and a reconciliation that ended with a retry left
  (`Lifecycle.RequeuedIff`). What was posted is posted again only after one of them or a restart
  (`Lifecycle.PostedAgainOnlyByRequeue`), and at most once per listing (`Lifecycle.PostedAtMostOnce`). A
  Voice item is spared them, and becomes uncertain, exactly when a *transport* failure loses a job whose
  *id is known* while nobody owns it, or an operator takes it over (`Lifecycle.LostVoiceJobIsUncertain`).
  So there are three ways to a second post of accepted work. A post whose answer is lost, refused with a
  retryable status or unreadable leaves no id (`Lifecycle.LostPostIsRequeuedIff`,
  `Lifecycle.LostPostIsPostedAgain`). A status request answered with HTTP 500, 408, 425 or 429, or
  unreadably, is no transport failure, and its reconciliation gives up on any error status
  (`Lifecycle.KnownJobIsPostedAgain`). And a restart makes uncertain exactly those Voice items whose
  *saved* row is running or cancelling (`Lifecycle.RestartFencesVoice`), while a dispatch is not saved
  before it is posted (`Lifecycle.UnsavedAcceptanceIsReplayed`). In all three only the stable
  `client_request_id` in the request (`app/backend/broker.py:2225`) lets the worker tell the posts apart.
- **Cancelled is not final.** The dispatcher starts an item that was cancelled while it was on its list, and
  nothing else ever starts one (`Lifecycle.StartsIff`, `Lifecycle.CancelledStartsIff`). An item off the list
  runs again only if it is listed again (`Lifecycle.UnlistedIsNeverStarted`), and one that is saved as
  ended, with no task and off the list, never does (`Lifecycle.OverIsFinal`). An item of a cancelled batch
  is put back to queued, where nothing starts it, by exactly two steps: the peer-authentication requeue and
  the capacity requeue (`Lifecycle.CancelledBatchRequeues`).
- **Replays and leases.** Only `fencing_token` is left out of a request's fingerprint
  (`app/backend/broker.py:950-966`). A replay whose lease has moved is a conflict, and by then its newer
  fence has been accepted, past the one the batch carries (`Submission.ReplayIffSameLease`,
  `Submission.MovedLeaseIsRefused`).
- **Renewals after a crash.** A crash between the ledger save and the binding leaves the idempotency row
  naming no batch. A renewal then reaches the batch exactly when it is in memory, which every unfinished
  batch is; a finished one that is only in the ledger is missed, although its attempt's deadline has moved
  (`Submission.RenewalReachesIff`, `Submission.UnfinishedIsRenewed`, `Submission.UnnamedFinishedIsMissed`).
  A replay with the same lease names the batch again (`Submission.CutOffIsResumed`), and a submission that
  was answered never loses the name (`Submission.AnsweredStaysNamed`).
- **Derived client ids.** Job and attempt are joined by a colon that ids may contain themselves; two
  executions share a client id exactly when the joined texts agree, and the second is then refused after
  its fence was accepted (`Submission.ClientIdsClashIff`, `Submission.ColonsClash`).
- **Managed update.** `update` checks neither the history nor whose record is active, although
  `trigger_update` does. A rollback point survives to the end of its operation when no helper for another
  request starts while it is stored, and is dropped at once when one does (`Updater.RollbackPointSurvives`,
  `Updater.NextKeepsRollbackPoint`, `Updater.StaleHelperErasesOperation`). An operation that has ended is
  taken up again exactly when a helper is started for it; if helpers are only started for the active
  record's own request, each operation ends at most once (`Updater.EndedRunsAgainIff`,
  `Updater.EachOperationEndsOnce`, `Updater.StaleHelperReruns`). A failure tries no rollback exactly when it
  comes before the preflight answered or nothing was stored (`Updater.FailsWithoutRollbackIff`), so a
  resumed operation can fail with the new version left in place (`Updater.ResumedFailureKeepsTarget`).
- **Stall observation.** `mark` moves a row's clock without the 300-second check. The run behind an
  eligible verdict is free of larger gaps exactly when no mark inside it came late (`Stall.StrictIff`,
  `Stall.LateMarkBridgesGap`). A protected row is forgotten exactly by the sight of another job, a mark that
  lifts it, or the loss of the saved file (`Stall.SettledUnlessLifted`).
- **Chat.** A running pack has a task unless that task was cancelled before its first step or during its
  memory handoff (`ChatRuns.StrandsIff`, `ChatRuns.RunningHasTask`). In the first case `_run_pack` is never
  entered, so its worker and its machine lease are not given back either, and in no other case
  (`ChatRuns.LeaksIff`). Such a pack stays running until a restart or the end of its lease
  (`ChatRuns.StrandedStays`). An answer makes a pack done exactly when it completes it and its elapsed time
  can be read (`ChatRuns.AnswerIsOk`); with an unreadable one a complete pack is queued again or ends
  partial (`ChatRuns.UnreadableElapsedIsNotDone`). The limit on a batch's total of scenes is implied by the
  other two limits and can never refuse anything (`ChatPacks.TotalLimitIsImplied`).
- **Executor.** If the settings file already holds the staged bytes before the replacement, a restart
  reports complete although nothing was replaced; the file then does hold the claimed identity
  (`RepairExecutor.RestartDecides`).

## Model

Members that only follow a function of the same meaning line by line have no row of their own: the eleven
`RepairRows` lemmas ending in `KeepsStore` are the cases of `OpKeepsStore`; `IssueTicket`, `MarkDispatched`,
`Park`, `AdoptStatus`, `FailBeforeClaim`, `ResolvePreclaim`, `ResolveExpired` and `ReleaseFence` of the store
object refine the transactions of those names as `Redeem` does; `JobCheck`, `AttemptCheck` and `Raise` are
parts of `Prepare`; `BrokerState.RestoreItem` and `RetryConnection` are parts of `RestoreItems` and
`HandleFailure`.

| member | source | states |
|---|---|---|
| RepairRows.OpKeepsStore | app/backend/enrollment_repair_store.py:216-1233 | Whatever transaction runs with whatever arguments: at most one row holds the slot, a holder is checking without a ticket or ticketed and live, one unresolved row per target, tickets move only none to issued to spent or expired, complete and retryable rows are frozen. |
| RepairRows.RunKeepsStore | app/backend/enrollment_repair_store.py:216-1233 | The same over every sequence of calls at any times, so nothing once resolved, spent or bound is ever taken back. |
| RepairRows.RecoverAlwaysFreesTheSlot | app/backend/enrollment_repair_store.py:1196-1233 | Restart recovery never refuses a well-formed table; afterwards no slot is held, the same rows are there, and no ticket has changed. |
| RepairRows.GrantSpendsTheTicket | app/backend/enrollment_repair_store.py:698-854 | A claim comes only from a redeem call, only for an issued ticket in a redeemable state, is the claim of exactly that call, and spends the ticket in the same transaction; which ticket text, RepairCalls.GrantedIff says. |
| RepairRows.AtMostOneGrant | app/backend/enrollment_repair_store.py:698-854 | Over every run of repeated and interleaved calls a request is granted a claim at most once, and never once its ticket is spent or expired. |
| RepairRows.ParkedIsNeverGranted | app/backend/enrollment_repair_store.py:743-747 | A request that left the redeemable states, by parking or otherwise, is granted no claim by any later run. |
| RepairCalls.GrantedIff | app/backend/enrollment_repair_store.py:698-854 | A claim is granted if and only if the row is issued and dispatchable, the call carries its exact expiry before the deadline, the digest of its ticket text, fleet token, Controller and every field of the bound target agree, the source is the bound address, and no other request of the target completed since the ticket was issued. |
| RepairCalls.GrantIs | app/backend/enrollment_repair_store.py:819-854 | The claim names the request, its target and the bound Controller's site with the target as controller id; the row becomes redeemed and spent at that moment, keeps slot and binding, and no other row changes. |
| RepairCalls.RefusalNamesFirstFailure | app/backend/enrollment_repair_store.py:735-818 | A refused redemption of a bound row is answered with the code of the first of the ten conditions that fails, in the order they are looked at. |
| RepairCalls.RefusalWritesOnlyLateness | app/backend/enrollment_repair_store.py:752-769 | A refusal writes nothing, except that a call with the exact expiry at or past the deadline retires the ticket, parks the row and frees the slot. |
| RepairCalls.MovesIff | app/backend/enrollment_repair_store.py:216-1233 | For each of the twelve states, a transaction of any kind moves a row into it if and only if it is one of the listed calls with the listed columns: complete only by the adopted or released identity over a spent ticket, retryable by five ways, checking only for the first request in batch order with the slot free, and so on. |
| RepairCalls.ChangeWrites | app/backend/enrollment_repair_store.py:216-1233 | Whatever call changes a row, its slot, ticket, binding, deadlines, error, terminal report and time stamp afterwards are the stated ones. |
| RepairCalls.AddedIff | app/backend/enrollment_repair_store.py:216-313 | A new batch is taken if and only if its targets are distinct and none has an unresolved request; otherwise nothing changes. |
| RepairCalls.AddedRowsAre | app/backend/enrollment_repair_store.py:278-309 | Its requests are then queued in the given order without slot or ticket, and every older row is as it was. |
| RepairCalls.AdoptedOnce | app/backend/enrollment_repair_store.py:892-991 | After an adopted report the same report is answered again without a write and any other is refused as a conflict. |
| RepairTickets.GrantedTicketWasIssued | app/backend/enrollment_repair_store.py:671-854 | Over every run of calls from an empty table, forged ones included, a claim is granted only to a call that carries the ticket text, deadline, fleet token, Controller and target of an earlier issue for that request. |
| RepairTickets.ClaimAppearsIff | app/backend/enrollment_repair_store.py:698-854 | In the protocol a claim comes into being if and only if the Controller answers an open call whose ticket text is the one its row was issued with, in time, from the bound address, with nothing bound having changed. |
| RepairTickets.ClaimsCarryTheirTicket | app/backend/enrollment_repair_store.py:698-854 | Over every run of both sides, every dispatch and every granted call carries the ticket text its row was issued with. |
| RepairRoundTrip.RepairCompletes | app/backend/enrollment_repair_executor.py:582-852 | From every reachable state in which a request waits and its target is reachable, the ten events of one repair end with the row complete, the file replaced once, all five identity values in it and every other key as it was. |
| RepairStore.RepairStore.FindUnresolved | app/backend/enrollment_repair_store.py:227-236 | Finds an unresolved request of the machine if and only if one exists. |
| RepairStore.RepairStore.Partition | app/backend/enrollment_repair_store.py:226-277 | The selection splits without loss into unresolved requests standing for machines and exactly the free machines, in order. |
| RepairStore.RepairStore.CreateOrAdopt | app/backend/enrollment_repair_store.py:216-313 | New rows for exactly the machines no unresolved request stands for; when there are none nothing changes and the answer is a batch made for this very selection, alone or with what it adopted, or a refusal because there is no such batch; success covers every selected machine. |
| RepairStore.RepairStore.Replay | app/backend/enrollment_repair_store.py:237-273 | An answered batch is one whose own targets are the selection and which holds all its requests, or whose targets and adoptions together cover it exactly; a refusal means none of the requests' batches is either. |
| RepairStore.RepairStore.Insert | app/backend/enrollment_repair_store.py:278-309 | One queued row per unclaimed machine in order, the adoption list recorded, every older row unchanged. |
| RepairStore.RepairStore.ClaimNext | app/backend/enrollment_repair_store.py:618-655 | With the slot free it takes the first claimable request in batch order; otherwise, or with none claimable, the table is unchanged. |
| RepairStore.RepairStore.Redeem | app/backend/enrollment_repair_store.py:698-854 | Every check in its order, the claim, and the one refusal that still commits an expiry are those of the transaction whose acceptance, effect and refusals the RepairCalls rows state column by column. |
| RepairStore.RepairStore.RecoverSlot | app/backend/enrollment_repair_store.py:1196-1233 | The holder-by-holder loop with its rollback equals recovery of the whole table at once. |
| RepairAgent.StagedDiffersOnlyInIdentity | app/backend/enrollment_repair_executor.py:782-806 | The staged settings hold the claimed identity and the resolved origin as parent URL, gain no key beyond the five identity keys, and keep every other key's value. |
| RepairAgent.StagedIsEnrolled | app/backend/enrollment_repair_executor.py:797-806 | Staged for the claim of a dispatch, the five keys hold agent, the dispatch's site id and name, the target and the resolved origin, key by key. |
| RepairAgent.AttemptIff | app/backend/enrollment_repair_executor.py:582-660 | An attempt is made if and only if the dispatch is sound, unexpired and sent by the resolved Controller, the machine is unlocked with readable settings and no database, and an earlier attempt is over and was another request's, or is this very one still waiting. |
| RepairAgent.AttemptIs | app/backend/enrollment_repair_executor.py:655-692 | The journal of the attempt: this dispatch, the origin this call resolved, and the preimage and ticket of the first admission. |
| RepairAgent.RefusalNamesFirstFailure | app/backend/enrollment_repair_executor.py:612-645 | A refused dispatch is answered with the first of eight conditions it fails, and nothing is journaled. |
| RepairAgent.BlockedAnswerIs | app/backend/enrollment_repair_executor.py:590-611 | An attempt in the way is answered with its own end, or the dispatch is refused as a conflict or for its source. |
| RepairAgent.FailureKeepsTicketIff | app/backend/enrollment_repair_executor.py:693-765 | A failed callback leaves the ticket usable if and only if no token was at hand, the transport failed or the Controller refused; any other ends under review with its own code. |
| RepairAgent.ClassifyIsTruthful | app/backend/enrollment_repair_executor.py:532-570 | An interrupted apply ends complete if and only if the file is the staged bytes and the identity is known, never applied if and only if it is the preimage and not the staged bytes, otherwise under review; it never stays open. |
| RepairAgent.SavedJournalsAreWellShaped | app/backend/enrollment_repair_executor.py:239-266 | Every journal that expiry, admission, a failed callback, a busy writer or the start of an apply saves passes the ticket and claim shape check made when it is loaded. |
| RepairExecutor.RepairExecutor.ClassifyCurrent | app/backend/enrollment_repair_executor.py:532-570 | What is saved and answered is what the bytes on disk show. |
| RepairExecutor.RepairExecutor.ApplyClaim | app/backend/enrollment_repair_executor.py:767-842 | The settings are replaced exactly when the file was still the preimage at both looks and no fault came first; the file then is the claimed content, or what a foreign writer made of it; every ending is truthful and an interrupted one leaves a journal a restart can decide. |
| RepairExecutor.RepairExecutor.Apply | app/backend/enrollment_repair_executor.py:582-852 | A replacement needs an admitted dispatch before its deadline, a free writer and the callback's own matching claim; the file then holds all five values, the fifth being the origin this call resolved, and otherwise is untouched; every ending of the callback has its stated answer; a refusal changes nothing but an expiry. |
| RepairExecutor.RepairExecutor.Redeem | app/backend/enrollment_repair_executor.py:693-852 | After the journal is saved: a dead, failed, mismatched or blocked callback leaves the file alone with its own answer, and a matching one replaces it with the five values and reports complete unless a fault or a foreign writer intervenes. |
| RepairExecutor.RepairExecutor.Status | app/backend/enrollment_repair_executor.py:861-872 | A status call expires exactly a due waiting journal, only for the dispatching address with the lock free, and answers exactly what the journal then says. |
| RepairExecutor.RepairExecutor.Recover | app/backend/enrollment_repair_executor.py:874-882 | After a restart no apply is left open: it is decided from the file, and any other journal is at most expired. |
| RepairExecutor.RepairExecutor.CrashAndRestart | app/backend/enrollment_repair_executor.py:767-882 | For a crash at any point of an apply, the restart ends complete only with all five values in the file, the parent URL being the origin resolved for the attempt, never applied only with the file untouched, and every foreign key survives. |
| RepairExecutor.RestartDecides | app/backend/enrollment_repair_executor.py:532-570 | From any journal a crash can leave without a foreign writer, a restart decides complete or never applied; complete means all five values are in the file, a replacement that happened is always reported complete, and without one complete is reported if and only if the file already was the staged content. |
| RepairExecutor.AdmissionIsSound | app/backend/enrollment_repair_executor.py:582-705 | An attempt is admitted only for a dispatch before its deadline over a readable file, bound to exactly that dispatch, with the current or the resumed preimage; everything saved stays sound. |
| RepairProtocol.NextKeepsInv | app/backend/enrollment_repair_executor.py:582-882 | Every event on either side, in any order, keeps the invariant that ties the table, the journals, the messages in flight and the files together. |
| RepairProtocol.InitIsInv | app/backend/enrollment_repair_store.py:98-188 | A fleet with an empty table, no journals and no messages satisfies that invariant. |
| RepairProtocol.RunKeepsInv | app/backend/enrollment_repair_store.py:698-991 | The invariant holds in every reachable global state. |
| RepairProtocol.PendingIsNotApplied | app/backend/enrollment_repair_executor.py:767-837 | A claim an Agent still holds has not been applied before. |
| RepairProtocol.OnlyPendingIsApplied | app/backend/enrollment_repair_executor.py:767-837 | The only event that replaces a settings file is the Agent's own replacement step for a claim it holds. |
| RepairProtocol.PowerlessStaysPowerless | app/backend/enrollment_repair_store.py:892-991 | A request with no live claim and no redeemable ticket never regains the power to write, whatever is delivered or crashes. |
| RepairProtocol.PowerlessIsNeverApplied | app/backend/enrollment_repair_store.py:1095-1152 | Such a request replaces no settings file in any later run. |
| RepairProtocol.RetryableIsSafeToReissue | app/backend/enrollment_repair_store.py:892-991 | Once a row is retryable, no run of late or repeated messages, Agent crashes and superseding requests applies it. |
| RepairProtocol.OneWriterPerTarget | app/backend/enrollment_repair_store.py:98-188 | In every reachable state at most one request per target can still write that Agent's identity. |
| RepairProtocol.AppliedAtMostOnce | app/backend/enrollment_repair_store.py:698-854 | Over every run a request replaces its target's settings at most once. |
| RepairProtocol.CompleteMeansHeld | app/backend/enrollment_repair_store.py:892-991 | A row that is complete means the target's file has held exactly the identity its ticket was issued for. |
| RepairProtocol.RunKeepsUndisturbed | app/backend/enrollment_repair_executor.py:782-842 | With no foreign writer since an apply began, the file is the preimage or the staged bytes at every moment of every run. |
| RepairProtocol.UndisturbedRecoveryDecides | app/backend/enrollment_repair_executor.py:874-882 | Then a restart always decides, complete exactly when the file is the staged bytes. |
| RepairCoordinator.PreissuanceFailure | app/backend/enrollment_repair.py:318-343 | Every trouble before a ticket ends retryable, under review or as an outdated Hub, the last for exactly one reported code. |
| RepairCoordinator.PreissuanceFailureIs | app/backend/enrollment_repair.py:318-343 | Which troubles need a person, and under which code each trouble is recorded. |
| RepairCoordinator.PreclaimFails | app/backend/enrollment_repair_store.py:1020-1052 | A claimed request without a ticket can always be failed; it gives the slot back, gets no ticket, and no other row changes. |
| RepairCoordinator.EarlyRedemptionFinishesParked | app/backend/enrollment_repair.py:1293-1300 | When the Agent redeems before the delivery is answered, recording the delivery refuses, parking succeeds, and adopting the Agent's completion still finishes the request. |
| RepairCoordinator.ParkFrees | app/backend/enrollment_repair.py:1048-1058 | A live request can always be parked, which frees the slot and leaves its ticket alone. |
| RepairCoordinator.Coordinator.GiveUp | app/backend/enrollment_repair.py:1304-1316 | A failure before the ticket leaves the claimed row in the classified state under the classified code, without slot or ticket, and touches no other row. |
| RepairCoordinator.Coordinator.DispatchNext | app/backend/enrollment_repair.py:1193-1322 | Nothing happens if and only if repairs are off, the slot is held or nothing is claimable; without a fleet token it refuses untouched; otherwise exactly the first claimable request changes: failed as its trouble is classified, or delivered as Deliver says. |
| RepairCoordinator.Coordinator.Deliver | app/backend/enrollment_repair.py:1246-1303 | A binding for another machine fails the request; otherwise the row is bound as given, an answered delivery is recorded and reported, an unanswered one leaves the ticket out, and one the Agent has already redeemed is refused; only this row changes. |
| RepairCoordinator.Coordinator.Turn | app/backend/enrollment_repair.py:1013-1058 | A turn that finds the slot held changes nothing; any other ends with no slot held, having changed at most the first claimable request, which it leaves parked, resolved, under review or without redeemable authority. A delivered request ends retryable or under review exactly when the bound address reports so, and unconfirmed otherwise. |
| RepairCoordinator.Coordinator.Settle | app/backend/enrollment_repair.py:1111-1168 | A terminal answer the table accepts is adopted, and in every other case the request is parked as unconfirmed; either way the slot is free, no other row changes, and an issued ticket is never forgotten. |
| RepairCoordinator.Coordinator.Dispatchable | app/backend/enrollment_repair_store.py:657-669 | True exactly when the slot is free and some request is claimable. |
| RepairCoordinator.Coordinator.Holder | app/backend/enrollment_repair_store.py:1012-1018 | Finds the slot's holder if and only if the slot is held. |
| Fences.PrepareKeepsTables | app/backend/execution_identity.py:244-374 | Accepted or refused, the three tables still agree, no token falls and no attempt, key or payload is rebound. |
| Fences.RenewKeepsTables | app/backend/execution_identity.py:413-482 | Accepted or refused, a renewal keeps the tables in agreement and rebinds nothing. |
| Fences.BindKeepsTables | app/backend/execution_identity.py:390-399 | Naming a batch in an idempotency row keeps the tables in agreement, and a row that names a batch always will. |
| Fences.RefusalChangesNothing | app/backend/execution_identity.py:263-314 | A refused call of any of the three kinds leaves all three tables as they were. |
| Fences.RunKeepsTables | app/backend/execution_identity.py:263-470 | Over every run of accepted and refused calls the tables stay consistent and accepted facts are permanent. |
| Fences.AcceptedTokensNeverFall | app/backend/execution_identity.py:272-314 | For any two accepted assignments of one job in any run, the later token is not lower, and an equal token means the same attempt, key and payload. |
| Fences.OneKeyPerAttempt | app/backend/execution_identity.py:272-314 | Two idempotency rows name the same attempt if and only if they are the same row. |
| Fences.RenewIffOwner | app/backend/execution_identity.py:430-470 | A renewal succeeds if and only if the caller is the job's recorded owner with its token and both deadlines lie ahead; that token is the job's highest. |
| FenceRules.AcceptedIff | app/backend/execution_identity.py:263-330 | An assignment is accepted if and only if its token is positive, its key is 1 to 512 characters, its lease lies ahead, its token is newer than the job's or its row exactly this assignment, its attempt is its own, live and not ahead of it, and its key is unused or its own. |
| FenceRules.AcceptedWrites | app/backend/execution_identity.py:322-374 | What acceptance leaves in each of the three tables, and the batch it answers with. |
| FenceRules.DeadlineIs | app/backend/execution_identity.py:346-363 | A new attempt or a higher token takes the assignment's own deadline, given or not; a repeated token takes a given one and keeps the old one otherwise. |
| FenceRules.PrepareNamesFirstFailure | app/backend/execution_identity.py:263-322 | A refused assignment is answered with the first of nine conditions it fails, and nothing is written. |
| FenceRules.RenewNamesFirstFailure | app/backend/execution_identity.py:413-470 | A refused renewal is answered with the first of six conditions it fails, and nothing is written. |
| FenceRules.RenewedWrites | app/backend/execution_identity.py:430-482 | An accepted renewal moves its attempt's deadline only and names the batch of that attempt's one key. |
| Fences.ExpiredRefusesEverything | app/backend/execution_identity.py:263-314 | With the deadline past, every call for that attempt is refused, and no call of any other attempt changes its row. |
| Fences.ExpiredIsAbsorbing | app/backend/execution_identity.py:263-470 | Under a clock that never runs back, no later run revives the attempt: each of its calls is refused and its row never changes. |
| Fences.FenceStore.Prepare | app/backend/execution_identity.py:244-387 | The three upserts after the checks are the one atomic transition the run theorems are about; consistency is kept. |
| Fences.FenceStore.Refusal | app/backend/execution_identity.py:263-314 | Reports a reason exactly when the transition refuses, and the same one. |
| Fences.FenceStore.FindBatch | app/backend/execution_identity.py:449-470 | The lookup by attempt finds the one batch bound to it, because consistency leaves only one row to find. |
| Fences.FenceStore.Renew | app/backend/execution_identity.py:413-482 | Changes at most the attempt's deadline, exactly as the transition says, and keeps consistency. |
| Fences.FenceStore.Bind | app/backend/execution_identity.py:390-399 | Changes at most one idempotency row's batch and keeps consistency. |
| Submission.FindIsTheRow | app/backend/ledger.py:727-745 | Searching batches in memory first and the ledger second finds exactly the permanent request row. |
| Submission.SubmitKeepsInv | app/backend/broker.py:907-1039 | A submission keeps batches, permanent rows and fences in agreement, forgets no row, lowers no token, and an accepted one answers with exactly its row, replayed exactly when the row was there before. |
| Submission.NextKeepsInv | app/backend/broker.py:774-800 | Submissions whole or cut off after their first or second durable write, renewals whole or cut off, restarts, progress, clearings and fences raised for other work all keep that agreement. |
| Submission.RunKeepsInv | app/backend/broker.py:902-1039 | The agreement and every permanent row survive every such run. |
| Submission.AtMostOneBatchEver | app/backend/broker.py:907-1039 | Over every interleaving with crashes and restarts one client id creates work at most once, and never after its row exists, even when its batch has been cleared or its answer was never delivered. |
| Submission.SameIdSameBatch | app/backend/broker.py:907-1039 | Two accepted submissions of one client id, with any run between them, crashes included, answer with the same batch and item count, the second marked as a replay. |
| SubmissionEffects.SubmitIff | app/backend/broker.py:907-1039 | A submission is accepted if and only if it is admissible, the fences accept its execution, and its id is new or repeated with the same content, job, attempt, key and lease. |
| SubmissionEffects.CreatesExactly | app/backend/broker.py:1001-1036 | A new id makes one open batch with exactly the items asked for, its fingerprint and evidence, and its permanent row; every other batch and row is as it was. |
| SubmissionEffects.ReplaysExactly | app/backend/broker.py:967-1000 | A known id makes nothing: it is answered from its row, and its batch takes the new execution as evidence exactly when its token is newer. |
| Submission.CutOffIsResumed | app/backend/broker.py:950-1039 | A submission cut off after its ledger save and sent again with the same lease, after any run, is answered with the batch that was saved, which its idempotency row then names. |
| Submission.ReplayIffSameFingerprint | app/backend/broker.py:950-1000 | A fenced replay is accepted if and only if the fingerprints agree; it creates nothing, touches only its batch's evidence, which then carries the newest fence, and its idempotency row names the batch. |
| Submission.ReplayIffSameLease | app/backend/broker.py:950-966 | Of everything the fences let through, a replay is accepted if and only if job, attempt and lease are those first submitted. |
| Submission.MovedLeaseIsRefused | app/backend/broker.py:950-966 | A concrete renewal-like replay is a conflict although its newer fence has been accepted, past the one its batch carries. |
| Submission.ClientIdsClashIff | app/backend/execution_identity.py:383-386 | Two executions share a client id if and only if the keys agree and the joined texts agree; jobs without colons cannot clash. |
| Submission.ColonsClash | app/backend/execution_identity.py:383-386 | Two different executions share a client id; submitted one after the other, the second is refused as a conflict after its fence was accepted. |
| Submission.RenewalReachesIff | app/backend/broker.py:774-800 | An accepted renewal moves the attempt's deadline, and moves its batch's lease if and only if the key row names the batch or the batch is in memory; no other batch changes. |
| Submission.UnfinishedIsRenewed | app/backend/broker.py:774-800 | In every reachable state, crashes and restarts included, an accepted renewal reaches the unfinished batch of its attempt. |
| Submission.AnsweredStaysNamed | app/backend/execution_identity.py:390-399 | Once a submission was answered, its idempotency row names its batch in every later state. |
| Submission.UnnamedFinishedIsMissed | app/backend/broker.py:774-800 | A crash before the binding, a finished batch and a restart: the renewal moves the attempt's deadline and the batch keeps the old lease. |
| Submission.Broker.Lookup | app/backend/ledger.py:727-745 | Answers exactly the permanent row of the id. |
| Submission.Broker.SubmitBatch | app/backend/broker.py:902-1039 | Fence, ledger save and binding, in that order, are together the transition the run theorems are about; each stopping point between them is an event of the same runs. |
| Submission.Broker.SaveBatch | app/backend/broker.py:967-1036 | The ledger write alone: replay, conflict or creation as the transition says, with nothing bound yet. |
| Submission.Broker.RenewLease | app/backend/broker.py:774-800 | A refused renewal changes nothing; an accepted one extends the attempt, and reports an update exactly when a batch that runs the attempt is named by the key row or in memory, changing that batch's lease only. |
| Scheduler.SortBySorts | app/backend/broker.py:1811-1832 | The sort behind queue and placement returns a sorted permutation of its input. |
| Scheduler.QueueIsOrdered | app/backend/broker.py:1811-1832 | The queue lists every batch with queued work exactly once, in full key order. |
| Scheduler.AudioBeforeImage | app/backend/broker.py:1811-1832 | A voice or music batch stands before every image or video batch. |
| Scheduler.EarlierIsBetter | app/backend/broker.py:1811-1832 | Of two queued batches the earlier is of no worse class, then of no smaller memory floor, then served no later, then no younger. |
| Scheduler.DueIff | app/backend/broker.py:1872-1882 | The items a pass may start are exactly the queued ones past their retry time in an uncancelled batch whose lease is not over. |
| Scheduler.MemoryGateIff | app/backend/broker.py:227-244 | A Mac is skipped if and only if it is smaller than asked; otherwise the item runs if and only if available less promised memory covers the floor, negative floors counting as zero, and else waits. |
| Scheduler.CanRunIff | app/backend/broker.py:1702-1982 | Condition by condition, everything a worker and its Mac must offer an item. |
| Scheduler.PassFits | app/backend/broker.py:227-244 | Every start of a pass fits its Mac's available memory above what was promised, promises exactly its need, and local promises that began within the available memory never exceed it. |
| Scheduler.PassIsApart | app/backend/broker.py:1866-1982 | No two starts of a pass share a Mac, none is on a Mac leased or in use before it, and each started item was due. |
| Scheduler.PlacementKeepsAll | app/backend/broker.py:1702-1770 | Workers stand by preference, equal ones in registration order, and none is dropped or added. |
| Scheduler.MorePromisedBlocksMore | app/backend/broker.py:227-244 | Memory promised to another item never opens a gate that was closed; what a gate computes, Scheduler.MemoryGateIff and CanRunIff say. |
| Scheduler.NoInversionAt | app/backend/broker.py:1872-1982 | A machine given to a later batch could not have run anything an exhausted earlier batch still has waiting, at the memory promised at that moment. |
| Scheduler.Scheduler.Eligible | app/backend/broker.py:1702-1770 | Exactly the workers that suit the batch and whose machine nobody holds. |
| Scheduler.Scheduler.StillQueued | app/backend/broker.py:1879-1882 | Lists exactly the batch's queued items that are due, in order, each once. |
| Scheduler.Scheduler.FirstFit | app/backend/broker.py:1902-1913 | The first listed item the worker may take, or proof that it may take none. |
| Scheduler.Scheduler.Offer | app/backend/broker.py:1899-1982 | Either nothing changes and a free worker could run nothing that waits, or exactly the first allowed item is started on it with every gate passed, the memory gate being that of Scheduler.MemoryGateIff. |
| Scheduler.Scheduler.ServeBatch | app/backend/broker.py:1878-1982 | Exactly the listed items are started, each legal after those before it and none overtaking an item its worker could take; afterwards no free machine could run anything still waiting in the batch. |
| Scheduler.Scheduler.TakeTurn | app/backend/broker.py:1872-1982 | A lapsed lease fences first, a cancelled batch gets nothing, otherwise the batch is served; only this batch changes. |
| Scheduler.Scheduler.DispatchPass | app/backend/broker.py:1866-1982 | The pass is maximal and free of inversion: at its end no free machine could run any waiting item of any queued batch, no later batch took a machine an earlier one could still use, and reservations only grew by what was dispatched. Every start fits the available memory of its Mac above what is promised, has the Mac to itself, and local promises that began within the available memory stay within it. |
| BrokerItems.FenceAll | app/backend/broker.py:733-771 | Fencing cancels exactly the queued, running and cancelling items, without a retry time, and rewrites no other. |
| Lifecycle.FinishIsSafe | app/backend/broker.py:2512-2529 | Giving a worker back subtracts exactly what its item reserved; the clip at zero never takes effect. |
| Lifecycle.DispatchIsSafe | app/backend/broker.py:1956-1981 | A dispatch keeps one holder per machine and one task per item, and the promised memory stays the sum over running items. |
| Lifecycle.NextIsSafe | app/backend/broker.py:1866-2529 | Every step of dispatcher, runner, other lanes, operator and restart keeps one holder per machine, one task per item and exact reservations. How an item ends, LifecycleEnds.EndsIff says. |
| Lifecycle.RunIsSafe | app/backend/broker.py:1866-2529 | The same over every interleaving. |
| Lifecycle.OneHolderPerMachine | app/backend/broker.py:1042-1068 | In every reachable state two tasks on one physical machine are the same task, and no other lane holds that machine. |
| Lifecycle.ReservationsAreConserved | app/backend/broker.py:2512-2529 | In every reachable state the promised memory is the sum over running items, and returning one reservation leaves the sum over the rest. |
| Lifecycle.ClassifyCounts | app/backend/broker.py:2462-2511 | The retry classifier requeues an item only while a generation or infrastructure retry is left, and counts it. |
| Lifecycle.NextCounts | app/backend/broker.py:1966-2511 | Every step keeps the books: tries are the unrefunded dispatches, and what is queued still has a retry left. |
| Lifecycle.RunCounts | app/backend/broker.py:1966-2511 | The same over every interleaving, restarts included. |
| Lifecycle.BoundedRetries | app/backend/broker.py:2462-2511 | Between restarts an item is dispatched at most 10 times beyond the refunded ones, and its tries have grown by exactly the unrefunded dispatches. |
| Lifecycle.UncertainStays | app/backend/broker.py:803-822 | At every step but a restart, an uncertain item goes back to queued or running if and only if the step is the capacity requeue of its own task; while uncertain it keeps its worker and job, except for a job id just accepted. |
| Lifecycle.TakenOverDuringHandoff | app/backend/broker.py:2465-2477 | A Voice item an operator takes over while its capacity requeue waits is put back on the queue by it. |
| Lifecycle.OwnedIsNotPosted | app/backend/broker.py:2248-2250 | No step posts an item that recovery owns or lets go of the ownership. |
| Lifecycle.OwnedIsNeverReplayed | app/backend/broker.py:803-822 | Over every run, restarts included, an owned Voice item is never posted to a worker again. |
| Lifecycle.RequeuedIff | app/backend/broker.py:2436-2511 | At every step but a restart, an item that is not queued becomes queued if and only if the step is one of four of its own task: the capacity requeue, the peer-authentication requeue, a failure without a job to reconcile, or the end of a reconciliation, the last two only unowned, uncancelled, with a retry of the failure's kind left and no Voice job lost to the connection. |
| Lifecycle.PostedAgainOnlyByRequeue | app/backend/broker.py:2436-2511 | Over every run without a restart and without such a step, an item past its post is never queued, listed or posted again. |
| Lifecycle.PostedAtMostOnce | app/backend/broker.py:1879-1981 | Over every run without a restart in which it is not listed anew, an item is posted at most once more, and only if it was listed or its task had yet to begin. |
| Lifecycle.LostVoiceJobIsUncertain | app/backend/broker.py:2436-2461 | At every step but a restart, an item becomes uncertain if and only if an operator takes over active Voice work, or an unowned Voice job with a known id is given up for a transport failure; it keeps its worker and job and is marked for recovery. |
| Lifecycle.LostPostIsRequeuedIff | app/backend/broker.py:2462-2511 | However a post failed that left no job id, by transport, status or an unreadable answer, the item is queued again if and only if the failure is retryable, no memory wait, the batch is not cancelled and retries of its kind are left; Voice or not. |
| Lifecycle.LostPostIsPostedAgain | app/backend/broker.py:2462-2511 | Such an item is then posted a second time by the same process, with no restart between. |
| Lifecycle.KnownJobIsPostedAgain | app/backend/broker.py:2447-2502 | A Voice job with a known id whose status request fails with a retryable error that is no transport failure, and whose reconciliation ends unknown, is posted a second time by the same process. |
| Lifecycle.RestartFencesVoice | app/backend/broker.py:871-899 | At a restart with the lease live, a saved active Voice item becomes uncertain with its worker and job, no other Voice item enters or leaves the queue, other running items are queued afresh, the rest is as saved. |
| Lifecycle.UnsavedAcceptanceIsReplayed | app/backend/broker.py:1966-1981 | A Voice item whose saved row still says queued is posted once more after a restart, whatever was accepted before it. |
| Lifecycle.ExpiryFencesOnlyUnfinished | app/backend/broker.py:733-771 | A lapsed lease leaves its batch nothing queued, running or being cancelled, rewrites nothing that had ended or is uncertain, and touches no other batch. |
| Lifecycle.StartsIff | app/backend/broker.py:1879-1981 | An item that does not run is started by a step other than a restart if and only if that step is the dispatcher's start of the listed item on a free worker, whatever its state or its batch's. |
| Lifecycle.CancelledStartsIff | app/backend/broker.py:1879-1967 | A cancelled item is made to run by exactly that start, so only while it is still on the dispatcher's list. |
| Lifecycle.UnlistedIsNeverStarted | app/backend/broker.py:1879-1967 | Over every run, restarts included, an item off the list does not run again unless the dispatcher lists it anew. |
| Lifecycle.OverIsFinal | app/backend/broker.py:1270-1305 | An item saved as ended, with no task and off the list, is never queued, started or posted again by any run, restarts included. |
| Lifecycle.CancelledBatchRequeues | app/backend/broker.py:2240-2246 | An item of a cancelled batch becomes queued if and only if the step is one of the two requeues that do not look at the batch. |
| LifecycleEnds.EndsIff | app/backend/broker.py:1616-2511 | At every step but a restart, an item becomes done if and only if its own unowned task reports success under a live lease outside Voice, completes its recording, or the operator adopts that end; becomes an error if and only if it is refused at the start, a failure is given up, or the operator adopts it; and is cancelled by exactly the listed steps. |
| LifecycleEnds.RequeueWrites | app/backend/broker.py:2436-2511 | Each of the four requeues writes exactly its refund, its wait (3 or 10 s, 30 or 3 s, or 5 to 300 s by earlier connection failures), the failed machine to avoid for 90 s, and gives the worker back. |
| LifecycleEnds.StartWrites | app/backend/broker.py:1956-1981 | A start takes the worker and the memory, counts one try and forgets the item's last job and wait. |
| LifecycleEnds.AcceptanceIsRecorded | app/backend/broker.py:2367-2410 | An accepted post records the worker's job id, and goes straight to cancellation exactly when the batch is cancelled or its lease is over. |
| LifecycleEnds.EntersIff | app/backend/broker.py:2248-2511 | A task goes on to its post, its polling, its recording, its reconciliation, its memory wait or its cancellation by exactly the listed steps, and by every other step of its own stays or is over. |
| LifecycleEnds.RestartIs | app/backend/broker.py:871-899 | A restart has nothing running or promised; each saved row is cancelled under a lapsed lease, uncertain if active Voice work, queued without worker and job if running otherwise, and else as saved. |
| BrokerState.Broker.AcquireMachine | app/backend/broker.py:1057-1068 | Succeeds exactly when no item and no lane holds the machine and no render waits for it; then the owner holds it. |
| BrokerState.Broker.ReleaseMachine | app/backend/broker.py:1122-1125 | Only the owner's own lease is given up; exclusion and reservations stay exact. |
| BrokerState.Broker.StartItem | app/backend/broker.py:1956-1981 | Starts the item exactly when it is listed and its worker's machine is free, without looking at its state again. |
| BrokerState.Broker.EndRun | app/backend/broker.py:2512-2529 | Frees the worker and returns the reservation without clipping. |
| BrokerState.Broker.HandleFailure | app/backend/broker.py:2431-2511 | Uncertain, capacity wait, infrastructure retry, generation retry or end: the same decision as the classifier the retry bound is proved about. |
| BrokerState.Broker.FenceBatch | app/backend/broker.py:733-771 | Fences exactly when the lease is over and something is unfinished, and then the whole batch. |
| BrokerState.Broker.RestoreBatches | app/backend/broker.py:871-899 | The reload loop yields exactly the restart the Voice theorems are about. |
| BrokerState.FenceItems | app/backend/broker.py:733-771 | The loop fences every unfinished item of the batch and no other, and reports whether there was one. |
| BrokerState.RestoreItems | app/backend/broker.py:871-899 | The loop over reloaded rows treats each as the restart does, dropping none. |
| LaneTurns.TokenWaits | app/backend/broker.py:1071-1101 | After a lane dispatched, and until the other dispatched or was memory-blocked, the token is the other's and the first lane cannot have passed a check against waiting work. |
| LaneTurns.NoLaneGoesTwice | app/backend/broker.py:1071-1101 | A lane that dispatches twice, having seen the other's work at its check, has let the other dispatch or be memory-blocked in between. |
| LaneTurns.LoneLaneIsNeverRefused | app/backend/broker.py:1071-1084 | In every reachable state a lane whose neighbour has nothing to dispatch passes its check. |
| LaneTurns.LaneTokens.DispatchAllowed | app/backend/broker.py:1071-1084 | Answers from this machine's token alone. |
| LaneTurns.LaneTokens.NoteDispatch | app/backend/broker.py:1087-1092 | The turn on this machine passes to the other lane; other machines keep theirs. |
| LaneTurns.LaneTokens.NoteMemoryBlock | app/backend/broker.py:1095-1101 | A memory block passes the turn on as a dispatch does; other machines keep theirs. |
| Updater.NextKeepsInv | app/backend/auto_update.py:974-1123 | Every durable step, crash and exception keeps HEAD at the stored rollback point or the target, and every recorded end truthful. |
| Updater.RunKeepsInv | app/backend/auto_update.py:974-1123 | The same over any sequence of crashes, resumes and retries. |
| Updater.NextKeepsRollbackPoint | app/backend/auto_update.py:986-1041 | One step keeps the stored point, ends its operation, or is a helper for another request, which always drops it without an end being recorded; ends are only appended. |
| Updater.RollbackPointSurvives | app/backend/auto_update.py:974-1123 | If no helper takes another operation's record, the point stored before the first stop is unchanged until the operation ends, is in its last record, and HEAD is that commit or the target throughout. |
| Updater.StopsOnlyWithRollbackPoint | app/backend/auto_update.py:1036-1074 | No phase after prepared is ever stored without a rollback point, and the first stop stores exactly HEAD as it then is. |
| Updater.EndsAreTruthful | app/backend/auto_update.py:951-1123 | In every run a recorded success had HEAD at the target, a recorded successful rollback had HEAD at the stored point, and any end with a stored point had HEAD at one of the two; which event earns which end, Updater.EndsIff says. |
| Updater.EndsIff | app/backend/auto_update.py:951-1123 | A step appends an end if and only if it is that end's own cause: success by the attestation, a rollback made by the restored version coming up healthy, a rollback failed by its not doing so or an exception during the rollback, a plain failure by an exception with nothing to undo. |
| Updater.EveryEndIsCaused | app/backend/auto_update.py:951-1123 | Over every run each end it records was caused so by one of its events. |
| Updater.HeadMovesIff | app/backend/auto_update.py:951-1078 | HEAD moves if and only if a merge takes it to the target over a clean tree or a rollback back to its base. |
| Updater.PhaseMovesIff | app/backend/auto_update.py:1042-1107 | Each durable phase is entered by exactly one kind of step, verified and restarting also by a resumed attempt. |
| Updater.TriggerAdmitsOnce | app/backend/auto_update.py:1230-1277 | A trigger admits exactly an operation id that is new, and only while none is active; otherwise it changes nothing. |
| Updater.StaleHelperErasesOperation | app/backend/auto_update.py:986-1004 | A helper for another request replaces an interrupted operation's record: its rollback point and its history are gone while HEAD stays where it was. |
| Updater.StaleHelperReruns | app/backend/auto_update.py:986-1004 | A late helper takes up an operation that has ended, which a trigger for the same request would not. |
| Updater.EndedRunsAgainIff | app/backend/auto_update.py:986-1004 | An operation whose end is in the history becomes active again if and only if a helper is started for it while none runs. |
| Updater.EachOperationEndsOnce | app/backend/auto_update.py:986-1118 | Over every run in which helpers are started only for the active record's own request, no operation id ends twice. |
| Updater.FailsWithoutRollbackIff | app/backend/auto_update.py:1110-1118 | An exception ends an operation with no rollback tried if and only if the preflight had not answered or no point was stored. |
| Updater.ResumedFailureKeepsTarget | app/backend/auto_update.py:1110-1118 | A run that ends failed, with no rollback tried, at the target commit, although a rollback point was stored. |
| Updater.OthersKeepsOrder | app/backend/auto_update.py:376-409 | Rewriting the history for an ended operation drops exactly that id's entries and keeps ids unique. |
| Updater.Updater.Update | app/backend/auto_update.py:974-1123 | One whole call under any script of faults: it ends once or is interrupted; success means HEAD is the target; it answers that a rollback was made if and only if a late failure was undone, the ref moved and the old version recovered without being cut off; a resumed operation's point is never replaced. |
| Updater.SucceedsIff | app/backend/auto_update.py:1042-1107 | A call succeeds if and only if its checks, its work and its attestation all go well and it is granted the durable steps that takes. |
| Updater.RolledBackIff | app/backend/auto_update.py:951-1123 | A call reports a rollback as made if and only if it failed with the target merged, there was a point to go back to, the tree and the ref went back, and the old version recovered. |
| Updater.RollbackFailedIff | app/backend/auto_update.py:951-1123 | A call reports a rollback as failed if and only if the stop or the merge failed, or the undoing of a late failure went wrong. |
| Updater.FailedPlainlyIff | app/backend/auto_update.py:1110-1118 | A call reports a failure without rollback if and only if the checks before the work fail, or a late failure has nothing to go back to. |
| Updater.Updater.Attempt | app/backend/auto_update.py:1005-1123 | What an admitted helper answers is the verdict those four equivalences are about, and the record is kept or ended once. |
| Updater.Updater.NoteBase | app/backend/auto_update.py:1027-1041 | The record takes the rollback point before any work, and the base is that point, or HEAD when none is needed. |
| Updater.Updater.AdmitRequest | app/backend/auto_update.py:987-1004 | The same request takes up its record with phase, mode and point; any other starts afresh over whatever is there. |
| Updater.Updater.Proceed | app/backend/auto_update.py:1027-1063 | The rollback point is stored before anything is stopped; the outcome is truthful. |
| Updater.Updater.Install | app/backend/auto_update.py:1064-1103 | Stop, merge, converge, restart and attest end truthfully for every fault at every durable phase. |
| Updater.Updater.MergeTarget | app/backend/auto_update.py:1075-1078 | A merge that succeeds, fails or dies half way leaves HEAD at the base or the target and the outcome truthful. |
| Updater.Updater.Land | app/backend/auto_update.py:1075-1092 | From the merge to the attestation the outcome is truthful. |
| Updater.Updater.Converged | app/backend/auto_update.py:1079-1092 | Dependencies, import check and restart on the merged tree end truthfully. |
| Updater.Updater.Reattest | app/backend/auto_update.py:1042-1063 | With HEAD at the target already, what an interrupted attempt left undone is finished and reported truthfully. |
| Updater.Updater.AttestOrUnwind | app/backend/auto_update.py:1089-1113 | Success is recorded only for an attested target; otherwise the failure path runs. |
| Updater.Updater.Unwind | app/backend/auto_update.py:1110-1118 | The failure path never reports success, and a rollback it reports successful leaves HEAD at the stored point. |
| Updater.Updater.RollBack | app/backend/auto_update.py:951-972 | A rollback reported successful means HEAD is the base and the tree clean. |
| Updater.Updater.MoveBack | app/backend/auto_update.py:951-972 | A crash between resetting the tree and moving the ref is survivable; reported success means HEAD is the base. |
| Updater.Updater.RestoreService | app/backend/auto_update.py:951-972 | The verdict on a rollback is exactly whether the old version recovered, and bringing it up never moves HEAD again. |
| Updater.Updater.Finish | app/backend/auto_update.py:399-409 | The terminal write appends exactly one end, clears the active record and leaves HEAD alone. |
| Updater.Updater.DropOp | app/backend/auto_update.py:376-409 | The history loop removes exactly the entries of one operation. |
| Stall.RunBacked | app/backend/automatic_recovery.py:91-167 | In every state reached from a fresh load, each row of the current process is backed by an unbroken stretch of the call history about that job and signature. |
| Stall.EligibleIsBacked | app/backend/automatic_recovery.py:91-150 | An eligible verdict implies such a stretch by this very process, ending now and spanning at least the modality's threshold. |
| StallRules.EligibleIff | app/backend/automatic_recovery.py:91-150 | One call finds a job stalled if and only if the state is trusted, the job is a named running image or voice job with sensible stage numbers, it has run and stood still for an hour or two hours by modality, was last looked at by this process within 300 s, and nothing was decided about it. |
| StallRules.SteadyWatchDecides | app/backend/automatic_recovery.py:91-150 | However often a job that reports nothing new is looked at, never more than 300 s apart, the next look finds it stalled if and only if the watch and the job have lasted the whole patience. |
| StallRules.ObservedRowIs | app/backend/automatic_recovery.py:119-150 | The row a look leaves: since when nothing moved, when and by whom it was seen, and a decided phase untouched. |
| StallRules.MarkedRowIs | app/backend/automatic_recovery.py:152-167 | A mark keeps what was observed of the same job, forgets any other, and counts as a look. |
| StallRules.ReloadedRowIs | app/backend/automatic_recovery.py:49-79 | A reload keeps every row of a sound file, handing a cancellation under way to a person, and none of any other file. |
| Stall.StrictIff | app/backend/automatic_recovery.py:152-167 | Every gap of the stretch is within 300 seconds if and only if no mark inside it came later than that. |
| Stall.LateMarkBridgesGap | app/backend/automatic_recovery.py:152-167 | A mark after an hour of silence makes a job eligible that would otherwise start over. |
| Stall.SettledForever | app/backend/automatic_recovery.py:152-167 | A protected row stays protected through every run that neither sees another job on the Studio, nor lifts the mark, nor loses the saved file. |
| Stall.SettledUnlessLifted | app/backend/automatic_recovery.py:49-79 | In a trusted state one call ends a row's protection if and only if it sees another job, lifts the mark or loads a lost file. |
| Stall.CancelledIsNeverEligible | app/backend/automatic_recovery.py:91-167 | After a cancellation was requested the job is never eligible again in any such run, reloads of an intact or damaged file included. |
| Stall.LoadedIsFresh | app/backend/automatic_recovery.py:49-79 | After a load of an intact, a damaged or a lost file, no row counts as observed by the new process. |
| Stall.AutomaticRecoveryState.constructor | app/backend/automatic_recovery.py:43-79 | A new process starts from exactly what the load makes of the saved file: its rows with requested cancellations handed to a person, nothing and no trust, or a trusted empty start when there is no file. |
| Stall.AutomaticRecoveryState.Observe | app/backend/automatic_recovery.py:91-150 | Verdict and rows are those of the transition the history theorems are about. |
| Stall.AutomaticRecoveryState.Mark | app/backend/automatic_recovery.py:152-167 | The rows are those of the transition the history theorems are about. |
| ChatParse.StripCleans | app/backend/chat_jobs.py:257-311 | Stripped text is empty or has no space at either end. |
| ChatParse.ParseIsOwn | app/backend/chat_jobs.py:264-311 | An answer yields only scenes it was asked for, each with a text that is not blank. |
| ChatParse.CompletionIsOpaque | app/backend/chat_jobs.py:264-275 | A completion's JSON is never read, and with other than one expected scene it yields nothing. |
| ChatParse.LastRowWins | app/backend/chat_jobs.py:276-311 | A scene has a text exactly when some row gives one, and it is the last such row's. |
| ChatRules.RowGivesIff | app/backend/chat_jobs.py:290-311 | A row gives a scene a text if and only if it names an asked scene by scene_id, or by id when that says nothing, and the first of its three text fields that is text at all is not blank. |
| ChatRules.ObjectAnswerIs | app/backend/chat_jobs.py:276-289 | An object answer, bare or wrapped, gives exactly the asked scenes it holds non-blank text for. |
| ChatRules.PlainAnswerIs | app/backend/chat_jobs.py:264-289 | A text that is no JSON answers a single scene whole, and of several only the objects in it that name a scene are read. |
| ChatParse.CollectRows | app/backend/chat_jobs.py:290-311 | The loop over rows agrees with that reading, including the row that makes it raise. |
| ChatParse.ParseSceneResults | app/backend/chat_jobs.py:264-311 | The whole reading of an answer, and that its texts are the asked scenes' own. |
| ChatPacks.CleanScenes | app/backend/chat_jobs.py:193-227 | Accepts a pack exactly when it is acceptable and then keeps its scene ids, cleaned, in order. |
| ChatPacks.CreatePacks | app/backend/chat_jobs.py:153-254 | Accepts exactly the acceptable submissions; the packs made are queued, empty, one per entry, and no two share a scene. |
| ChatRules.AcceptableIff | app/backend/chat_jobs.py:153-254 | A submission is acceptable if and only if it has 1 to 500 well-formed packs of 1 to 10 scenes, one for a completion, each named by 1 to 160 allowed characters, and no scene named twice. |
| ChatPacks.TotalLimitIsImplied | app/backend/chat_jobs.py:193-227 | Packs within the two smaller limits are always within the limit on the total. |
| ChatRuns.NextKeepsInv | app/backend/chat_jobs.py:528-856 | Every step keeps texts to the pack's own scenes, packs disjoint and done packs complete, and only ever adds texts. |
| ChatRuns.ResultsAreMonotone | app/backend/chat_jobs.py:633-856 | Over every run of answers, failures, cancellations, expiries, restarts and operator retries no text is lost or overwritten. |
| ChatRuns.CreatedIsInv | app/backend/chat_jobs.py:153-254 | A batch as it is accepted satisfies what every run then keeps. |
| ChatRuns.AsksOnlyForMissing | app/backend/chat_jobs.py:639-646 | A model is asked only when a task begins its call, and then for exactly the scenes without a text. |
| ChatRuns.AskedStaysMissing | app/backend/chat_jobs.py:639-694 | While a call is out, in every run, what it asked for is still exactly what is missing. |
| ChatRuns.AnswerIsOk | app/backend/chat_jobs.py:694-705 | An answer overwrites nothing and makes the pack done if and only if no scene is missing and its elapsed time can be read. |
| ChatRuns.UnreadableElapsedIsNotDone | app/backend/chat_jobs.py:696-726 | A good answer that completes its pack but whose elapsed time cannot be read leaves the complete pack queued again or partial. |
| ChatRuns.GoodAnswerIsDoneIff | app/backend/chat_jobs.py:694-705 | From any reachable waiting pack, a good answer ends it done if and only if old texts and the answer together cover it. |
| ChatRules.MovesIff | app/backend/chat_jobs.py:528-856 | For each of the six states, a pack comes into it by exactly the listed steps: done by a usable answer that completes it, queued by a shortfall that may be asked again, a peer change, a shutdown, a restart or a retry, partial or error by any other shortfall, cancelled by lease, batch or interruption. |
| ChatRules.TextsAre | app/backend/chat_jobs.py:664-705 | A pack's texts change only by a usable answer in time, and then by exactly what it brings. |
| ChatRules.TriesAre | app/backend/chat_jobs.py:614-726 | A start counts a try, a changed peer and a memory wait give one back, a retry forgets them all, and nothing else touches them. |
| ChatRuns.StrandsIff | app/backend/chat_jobs.py:633-732 | A pack that has a task or does not run is left running without one if and only if its task is cancelled before its first step or in its memory handoff. |
| ChatRuns.RunningHasTask | app/backend/chat_jobs.py:614-617 | Over every run without such a cancellation a running pack has a task. |
| ChatRuns.LeaksIff | app/backend/chat_jobs.py:727-732 | A pack keeps its worker and lease without a task if and only if the task was cancelled before its first step. |
| ChatRuns.StrandedStays | app/backend/chat_jobs.py:822-837 | No dispatch, cancellation, retry or other pack's task changes a stranded pack; only the end of its lease or a restart does. |
| ChatRuns.Requeue | app/backend/chat_jobs.py:840-856 | The retry loop puts exactly the failed and partial packs back, and counts none only if there are none. |
| ChatRuns.ChatBatch.ExpireLease | app/backend/chat_jobs.py:750-764 | Fences exactly when the lease is over, and loses no text. |
| ChatRuns.ChatBatch.RetryBatch | app/backend/chat_jobs.py:840-856 | An operator's retry keeps every text and reports nothing exactly when nothing could be retried. |
| ChatRuns.ChatBatch.TakeAnswer | app/backend/chat_jobs.py:664-731 | Taking an answer in is the step the monotonicity theorem is about. |
| ShadowQueue.EvictKeepsLongestTail | app/backend/control_plane.py:219-232 | Eviction keeps the longest newest part that leaves room, so it drops no snapshot it could keep. |
| ShadowQueue.QueuedIsBounded | app/backend/control_plane.py:210-232 | After an enqueue the new snapshot is last, one per job, and the total is within the limit or the new one is alone; other jobs' snapshots are unchanged ones. |
| ShadowQueue.SettledIs | app/backend/control_plane.py:424-443 | A sync removes exactly the snapshots it wrote that nobody replaced meanwhile. |
| ShadowQueue.NewerSurvives | app/backend/control_plane.py:424-443 | A newer snapshot queued while an older one of its job was being written survives the sync. |
| ShadowQueue.QueueStaysBounded | app/backend/control_plane.py:210-443 | Over every run of enqueues and overlapping, failed or committed syncs the bound and one snapshot per job hold. |
| ShadowQueue.PendingJobs.Pop | app/backend/control_plane.py:214-219 | Taking a job's snapshot out removes that one only and keeps the byte total exact. |
| ShadowQueue.PendingJobs.QueueShadowJob | app/backend/control_plane.py:210-232 | The eviction loop leaves exactly the longest tail and the new snapshot, with the byte total exact; while the shadow is off nothing happens. |
| ShadowQueue.PendingJobs.Settle | app/backend/control_plane.py:424-443 | Entry by entry the sync settles exactly what it wrote, with the byte total exact. |

## Left out

- RepairStore.RepairStore.Replay: which of several matching older batches answers is left open, because the source iterates a Python set.
- RepairStore.RepairStore.CreateOrAdopt: new ids are assumed fresh, as `uuid4` promises; machine names arrive stripped, sorted and distinct.
- Fences.ExpiredIsAbsorbing: the clock is assumed monotone in the order the transactions commit; the source reads it before it takes the write lock.
- Scheduler.Scheduler.DispatchPass: what the pass reads about the fleet is fixed while it runs; telemetry refreshes, memory handed over by idle siblings and runs ending between its awaits are not in it.
- Scheduler.PlacementKeepsAll: catalog contents and chip-speed scores are abstract ranks.
- Submission.SubmitKeepsInv: a ledger or fence write that raises, rather than a crash, is not modelled; nor is a batch finished in memory whose last save has not happened yet.
- Submission.NextKeepsInv: rows that the Chat and Transcription modules bind are left out beyond the fences they raise; new batch ids are assumed fresh.
- RepairProtocol.NextKeepsInv: a dispatch reaches only the machine it was issued for, machine addresses are fixed and unique, and admission up to the journal save is one step although the origin is resolved between the deadline check and that save.
- Lifecycle.NextIsSafe: the registry is fixed; whether a render waits for a machine is a parameter; awaits while a reference image is fetched, before the item is posted, are not separate steps, and the times a capacity wait sets count from the end of its await.
- Lifecycle.UncertainStays: a post rejected for its voice reference (`app/backend/broker.py:2347-2358`) ends the item in error without asking who owns it, and is not an event.
- Lifecycle.LostVoiceJobIsUncertain: a take-over always makes the item uncertain; the source leaves it running with only the recovery mark when its Studio is not registered.
- LaneTurns.NoLaneGoesTwice: each lane's answer to "has the other lane work" is a parameter; the lanes' own dispatch loops and their batch order are not modelled.
- ShadowQueue.SettledIs: snapshots are compared by content, so a byte-identical snapshot queued during the sync counts as the one written.
- Updater.Updater.MoveBack: the ref move ends with a clean tree even if somebody edited files between the tree reset and that move.
- Updater.Updater.Update: managed updates only; draining, the launchd schedule, notifications and unmanaged updates are not modelled.
- Stall.EligibleIsBacked: progress fields arrive as parsed numbers; the saved file is intact, damaged as a whole, or lost.
- ChatPacks.CreatePacks: the checks on messages and parameters are one given flag per pack.
- ChatParse.ParseSceneResults: JSON decoding and the regular expression that finds objects are given.
- ChatRuns.NextKeepsInv: usage evidence and the started, finished and duration fields are only a verdict on whether an answer is accepted.
- Sockets, DNS, TLS and HTTP of the repair transport: messages that arrive, are lost, or carry a classified answer.
- Batch counters, evidence and refusal trails, callback errors, journal history and error-length limits of enrollment repair: reporting only.
- Registry reloads during a repair (`note_registry_reload`, `flag_registry_changed`) and the white space and case rules of `database_mode`.
- Worker polling bodies, artifact metadata, webhooks, governor notes, machine and model protection.
- PostgreSQL writes, heartbeats and dashboards.
- Transcription jobs, peers, registry, authentication and enrollment codes.
