# Agent gateway: a verified model of its durable protocols

The agent gateway carries a chat message from a channel to the Hermes execution service and the answer back. Every
hand-over is a state machine over database rows that many processes advance at once: rows are claimed with a token,
changed by compare-and-swap and recovered after a crash. This project models those machines in Dafny and proves what
they promise over every interleaving.

How the model is built:

- **Tables and transactions.** A table is a sequence or a map, a transaction is a function from tables to tables, and
  an error is a value. Integers are unbounded, times are integers on the database clock.
- **Runs.** A protocol is a total `Step` function over actions; a disabled action changes nothing. A run is any
  sequence of actions. Processes are part of the state and take one statement per action, so all sequences together
  are all interleavings, and a crash is a process that takes no further action.
- **Stores.** The stores and workers are classes whose methods change fields statement by statement. Between two
  statements they call `Others`, whose contract lets every other process do anything the protocol allows. `Valid()`
  says that the tables are the result of a run, so each theorem about runs holds whenever a method returns.
- **The fence.** Three writes of the delivery outbox rely on an earlier read that their guards do not repeat: the
  insert of `start_attempt`, the update of `recover_stale_claims` and the update of `retry`. Reading and writing are
  separate actions, and nothing in the code keeps other sessions out in between. A run is fenced when each such write
  happens while what was read still holds (`DeliveryProtocol.FencedStep`). The delivery theorems are about fenced
  runs, and the methods of `DeliveryStore` assume the fence between these reads and writes (`OthersWhileHeld`,
  `OthersWhileLookHolds`, `OthersWhileStopHolds`). The first finding says exactly what goes wrong without it.

Assumptions stated where they are used: claim tokens and generated identifiers are fresh (`used`, `uuid`), SHA-256
does not collide on the two documents compared, a query returns rows in the order it asks for, a message's row and
channel address do not change, and values survive a JSON column.

## Findings

Properties that hold only under a condition. Each has a failing run, and the condition is proved to be exact.

- **Sending once.** One part can be sent twice without any manual retry if recovery and `start_attempt` overlap, in
  either order: recovery ends the claim after the checks and before the insert, or the insert lands after recovery
  looked for an attempt in flight and before its update (`DeliveryRaces.EitherWindowSendsTwice`). What the insert
  hands out is safe for all that can follow if and only if the claim still stands, or it is an attempt that its own
  worker gave up unsent (`DeliveryTheorems.InsertIsSafeIffHeld`, `DeliveryGuests.StartIsSafeIff`). A recovery that
  commits is safe if and only if it missed no attempt in flight, or one that was not sent and whose worker has failed
  (`DeliveryLateRecovery.RecoveryIsSafeIff`).
- **Tables in agreement.** A recovery that commits leaves the four tables in agreement if and only if what it saw
  still holds (`DeliveryInvariant.RecoveryAgreesIff`). Recovery and manual retry write a response status that depends
  on the part they read; if a part was delivered since, the status no longer follows the delivery
  (`DeliveryRaces.RecoveryOfAnEarlierPart`, `DeliveryRaces.RetryOfAnEarlierFailure`,
  `DeliveryInvariant.RetryAgreesIff`). By itself this leads to no second send (`DeliveryLateRecovery.RetryIsSafe`).
- **Who created it.** No delivery has two saves that are told they created it, and it has one if and only if the
  commit that wrote it reported back (`ResponseTheorems.OneCreatorIff`); a commit that lands and raises leaves none
  (`ResponseRuns.NobodyIsTold`). The same holds of operators' requests and audit rows
  (`DispatchRecovery.OneCreatorIff`, `DispatchRecoveryRuns.NobodyReportsCreation`).
- **Response identifiers.** An undisturbed save of a new response succeeds if and only if no other message's response
  has its identifier; two stored results claim one identifier only when a Hermes identifier imitates the legacy form
  (`ResponseTheorems.SaveSucceedsIff`, `ResponseTheorems.IdentifiersCollideIff`), and then a save raises
  (`ResponseRuns.ImitationMakesSaveRaise`).
- **Queue order.** A new dispatch keeps its thread first in, first out if and only if it does not sort before a record
  of that thread that has already been claimed (`DispatchQueue.InsertKeepsFifoIff`,
  `DispatchQueue.EarlierRecordBreaksFifo`).
- **Expiry.** `expire` leaves a READY artifact without its file if and only if the process is killed between the
  quarantine rename and the commit, and leaves a published file behind if and only if the artifact was published after
  `expire` read it (`ArtifactRepository.ArtifactRepository.ExpireLocked`, `ArtifactRepository.KilledExpiryLosesFile`,
  `ArtifactRepository.StaleExpiryLeavesFile`).
- **Reconciliation.** A record whose repair meets a database error is neither deferred nor quarantined. It stays in
  the backlog if and only if every attempt at it is lost that way (`Reconciliation.NoStarvation`,
  `Reconciliation.LostForEver`); an integrity error that `save_generated` re-raises, as in
  `ResponseRuns.ImitationMakesSaveRaise`, is such an error.
- **Audited errors.** The audit row of a decision carries the error its request read, and the update asks for the
  uncertain status only. If the dispatch was decided, run again and became uncertain again in between, the row names
  an error of an earlier attempt (`DispatchAudits.AuditCanNameAnOlderError`). A request decides the uncertainty it
  checked if and only if nobody has decided the dispatch since (`DispatchAudits.SameUncertaintyIff`), and the row then
  names the right error (`DispatchAudits.AuditNamesTheError`).
- **Operator twins.** A request that looked for its audit row before a twin wrote it can report a state conflict
  although the decision is recorded (`DispatchRecovery.EarlyTwinReplaysIff`,
  `DispatchRecoveryRuns.EarlyTwinCanConflict`).

One operation never succeeds: however requests, workers and saves interleave, no success is ever confirmed by an
operator (`OperatorEvidence.NoSuccessIsConfirmed`). `confirm_success` asks for the stored result of an uncertain
dispatch, which has none, so it refuses with `dispatch_response_missing`; if the dispatch is retried and succeeds
between its two reads, it finds the result and then meets a state conflict
(`OperatorEvidenceRuns.EvidenceCanComeTooLate`).

## Files

| component | files |
|---|---|
| shared | `Basics`, `SortedStrings`, `TextCoding` |
| delivery outbox and worker | `DeliveryOutbox`, `ChannelSend`, `DeliveryProtocol`, `DeliveryInvariant`, `DeliverySafety`, `DeliveryTheorems`, `DeliveryClaims`, `DeliveryProgress`, `DeliveryGuests`, `DeliveryMending`, `DeliveryStrays`, `DeliveryLateRecovery`, `DeliveryRaces`, `DeliveryStore`, `DeliveryWorker` |
| artifacts | `ArtifactRepository` |
| dispatch queue | `DispatchQueue`, `DispatchLeases` |
| context snapshots | `ContextTimeline`, `ContextContents`, `ContextStore` |
| admission and ingestion | `AdmissionOutcomes`, `AdmissionPolicy`, `AdmissionProtocol`, `AdmissionInvariant`, `AdmissionTheorems`, `AdmissionClearance`, `AdmissionProgress`, `AdmissionService` |
| response persistence | `ResponsePersistence`, `ResponseConvergence`, `ResponseTheorems`, `ResponseRuns`, `ResponseStore` |
| reconciliation | `Reconciliation` |
| operator recovery | `DispatchRecovery`, `DispatchRecoveryRuns`, `DispatchAudits`, `OperatorEvidence`, `OperatorEvidenceRuns` |
| thread keys | `ThreadKeys` |

## Model

| member | source | states |
|---|---|---|
| `DeliveryTheorems.AtMostOneEffect` | src/cf_agent_gateway/delivery/worker.py:178-257 | In every state that any number of workers, crashes, recoveries and manual retries can reach by a fenced run, a part has at most one POST that could have been accepted, plus one per manual retry out of quarantine. |
| `DeliveryTheorems.PostsGoToTheirAccount` | src/cf_agent_gateway/adapters/wechat/outbound_http.py:77-131 | Over every run, fenced or not, a message is posted only after the account of its delivery was observed to be signed in, just before the POST. |
| `DeliveryTheorems.TablesAgree` | src/cf_agent_gateway/delivery/outbox.py:105-162 | In every state reachable by a fenced run: delivering iff a token is held, delivered iff all parts are, receipts are exactly the parts below the counter and name the part's only delivered attempt, an in-flight attempt is unique, at the counter and under a claim, the response follows its delivery. |
| `DeliveryTheorems.ResponseGuardsNeverFire` | src/cf_agent_gateway/delivery/outbox.py:603-675 | Whoever passes the delivery guards of claim, recovery, receipt, closing or retry also passes the guards on the response row, however old the read it relies on. |
| `DeliveryTheorems.AttemptsAreBounded` | src/cf_agent_gateway/delivery/worker.py:338-376 | A delivery has at most part count times max_attempts attempts, plus one per manual retry. |
| `DeliveryTheorems.AttemptNumbersAreConsecutive` | src/cf_agent_gateway/delivery/outbox.py:309-331 | The attempts of a part carry the numbers 1 to k, each once, in order. |
| `DeliveryTheorems.EndedClaimIsFenced` | src/cf_agent_gateway/delivery/outbox.py:683-695 | Once a claim has ended, every check of its token fails, in every continuation, fenced or not. |
| `DeliveryTheorems.ClaimsEnd` | src/cf_agent_gateway/delivery/outbox.py:408-426 | Recovery, closing an attempt and the last receipt each end the claim; an earlier receipt does not. |
| `DeliveryTheorems.InsertIsSafeIffHeld` | src/cf_agent_gateway/delivery/outbox.py:303-343 | After an insert of start_attempt has landed, no fenced continuation sends an attempt twice, fails one that may have been sent or starts a second live one, iff the claim still stands. |
| `DeliveryGuests.StartIsSafeIff` | src/cf_agent_gateway/delivery/outbox.py:303-343 | The same for whatever the insert hands out, an attempt taken up after a collision included: iff the claim stands, or the attempt was given up unsent by its own worker. |
| `DeliveryLateRecovery.RecoveryIsSafeIff` | src/cf_agent_gateway/delivery/outbox.py:199-287 | After a recovery has committed, no fenced continuation sends an attempt twice, fails one that may have been sent or starts a second live one, iff it missed no attempt in flight or one that was not sent and whose worker has failed. |
| `DeliveryLateRecovery.RetryIsSafe` | src/cf_agent_gateway/delivery/outbox.py:519-585 | After a manual retry has committed, however old its read, no fenced continuation does any of this. |
| `DeliveryRaces.EitherWindowSendsTwice` | src/cf_agent_gateway/delivery/outbox.py:199-231 | Two runs from empty tables, one per order of insert and recovery, that send one part twice with no manual retry. |
| `DeliveryRaces.RecoveryOfAnEarlierPart` | src/cf_agent_gateway/delivery/outbox.py:258-280 | A run in which recovery puts a response with a delivered part back to generated. |
| `DeliveryRaces.RetryOfAnEarlierFailure` | src/cf_agent_gateway/delivery/outbox.py:519-575 | A run in which a manual retry that saw an earlier failure does the same. |
| `DeliverySafety.StepKeeps` | src/cf_agent_gateway/delivery/outbox.py:68-695 | Every fenced action of workers, recovery and operators preserves the joint invariant of tables, workers, open reads and POST history. |
| `DeliveryInvariant.ClaimKeeps` | src/cf_agent_gateway/delivery/outbox.py:68-163 | A claim preserves the table invariant. |
| `DeliveryInvariant.RecoverKeeps` | src/cf_agent_gateway/delivery/outbox.py:209-287 | A recovery whose look is current preserves the table invariant, meets no response conflict and leaves nothing of the delivery in flight. |
| `DeliveryInvariant.MarkKeeps` | src/cf_agent_gateway/delivery/outbox.py:356-454 | Recording a receipt preserves it, meets no response conflict and leaves nothing of the delivery in flight. |
| `DeliveryInvariant.FinishKeeps` | src/cf_agent_gateway/delivery/outbox.py:603-675 | Closing an attempt as retryable, failed or uncertain preserves it, meets no response conflict and leaves nothing in flight. |
| `DeliveryInvariant.RetryKeeps` | src/cf_agent_gateway/delivery/outbox.py:530-585 | A manual retry whose look is current preserves the table invariant. |
| `DeliveryInvariant.RecoveryAgreesIff` | src/cf_agent_gateway/delivery/outbox.py:199-287 | A recovery that commits leaves the four tables in agreement iff what it saw still holds: no attempt in flight that it missed, and not the first part taken for a later one. |
| `DeliveryInvariant.RetryAgreesIff` | src/cf_agent_gateway/delivery/outbox.py:519-585 | A manual retry that commits leaves the four tables in agreement iff it did not see the first part of a delivery that has moved on. |
| `DeliveryInvariant.InsertAgreesIff` | src/cf_agent_gateway/delivery/outbox.py:309-331 | An insert leaves the four tables in agreement iff some claim stands at its part with nothing in flight. |
| `DeliveryInvariant.MaxIsCount` | src/cf_agent_gateway/delivery/outbox.py:309-331 | The largest attempt number of a part is the number of its attempts, so the next number is fresh. |
| `ChannelSend.SendIsFenced` | src/cf_agent_gateway/adapters/wechat/outbound_http.py:77-131 | Nothing is posted for another account, and an error after a possible effect is never classified as retryable or failed. |
| `ChannelSend.FailureClass` | src/cf_agent_gateway/delivery/worker.py:379-404 | Before the POST a failure is retried iff the account could not be read; after it iff the answer is 429; it is quarantined iff the POST may have had an effect, and given up otherwise. |
| `ChannelSend.RaisedClass` | src/cf_agent_gateway/delivery/worker.py:379-404 | Errors raised under a class of their own are taken at their word, and unexpected ones are quarantined. |
| `DeliveryStore.NextClaimable` | src/cf_agent_gateway/delivery/outbox.py:80-104 | The candidate query returns a claimable row that no other claimable row precedes, and none only when there is none. |
| `DeliveryStore.StaleIds` | src/cf_agent_gateway/delivery/outbox.py:180-208 | The scan lists exactly the stale claims of the channel, each once, oldest first. |
| `DeliveryStore.OutboxStore.TryClaim` | src/cf_agent_gateway/delivery/outbox.py:105-162 | The compare-and-swap wins iff the row is still claimable, and then the claim is exactly the protocol's, dated `now`. |
| `DeliveryStore.OutboxStore.ClaimNext` | src/cf_agent_gateway/delivery/outbox.py:68-163 | With other sessions between its statements: claims a row that was first in queue order when it was scanned, under the given token and at the given time; none only if nothing is due or all eight tries were lost. |
| `DeliveryStore.OutboxStore.RecoverOne` | src/cf_agent_gateway/delivery/outbox.py:192-290 | One claim is looked at and, with other sessions in between that leave true what was seen, requeued or quarantined, or left alone. |
| `DeliveryStore.OutboxStore.CommitRecovery` | src/cf_agent_gateway/delivery/outbox.py:221-287 | The update commits iff the claim stands, is stale and the attempt that was seen is still in flight, and then does what a recovery that looks now would do. |
| `DeliveryStore.OutboxStore.RecoverStaleClaims` | src/cf_agent_gateway/delivery/outbox.py:165-294 | The loop looks at every claim of the channel that was stale when it started and tries to end it, with its own cutoff and time, and reports only such claims. |
| `DeliveryStore.OutboxStore.StartAttempt` | src/cf_agent_gateway/delivery/outbox.py:296-343 | Refused without change iff the claim is lost at the checks; otherwise, with other sessions in between that leave the claim standing, the new attempt is the last, the next in number and alone in flight for its delivery. |
| `DeliveryStore.OutboxStore.MarkPartDelivered` | src/cf_agent_gateway/delivery/outbox.py:345-454 | A held claim records the receipt and all rows it touches; a lost one changes nothing. |
| `DeliveryStore.OutboxStore.FinishAttempt` | src/cf_agent_gateway/delivery/outbox.py:591-681 | A held claim is closed as asked and released; a lost one changes nothing. |
| `DeliveryStore.OutboxStore.Retry` | src/cf_agent_gateway/delivery/outbox.py:512-589 | Requeues a failed or, when allowed, an uncertain delivery without going back behind its part, with other sessions in between that leave true what was seen; one that is not eligible is not touched. |
| `DeliveryStore.OutboxStore.CommitRetry` | src/cf_agent_gateway/delivery/outbox.py:542-585 | The update commits iff the status is the one that was seen, and then does what a retry that looks now would do. |
| `DeliveryStore.MarkAccepts` | src/cf_agent_gateway/delivery/outbox.py:356-407 | A worker whose claim stands and whose part was accepted passes every check of the receipt transaction. |
| `DeliveryClaims.YoungClaimIsKept` | src/cf_agent_gateway/delivery/outbox.py:105-231 | After a claim at `t`, in every continuation, no recovery with an earlier cutoff commits against it or ends it. |
| `DeliveryClaims.EndsOnlyOldClaims` | src/cf_agent_gateway/delivery/outbox.py:221-236 | Whatever claim a recovery ends is of its channel and no younger than its cutoff. |
| `DeliveryClaims.TimelyCallSpares` | src/cf_agent_gateway/delivery/worker.py:158-164 | A call whose recoveries use the cutoff `now - timeout` ends no claim made at `t` with `now < t + timeout`. |
| `DeliveryClaims.FailureEndsAs` | src/cf_agent_gateway/delivery/worker.py:338-376 | A recorded failure queues its delivery until retryAt if it is retryable and attempts are left, quarantines it if it is uncertain, and is final otherwise; the attempt and the response follow. |
| `DeliveryClaims.RequeuedDeliveryWaits` | src/cf_agent_gateway/delivery/outbox.py:81-117 | Over every run: a delivery that is queued is not touched before its available_at, whatever workers, recoveries and operators do. |
| `DeliveryProgress.PossibleEffectsCount` | src/cf_agent_gateway/adapters/wechat/outbound_http.py:77-131 | A POST counts as one that may have been accepted unless its answer is definite and neither 2xx nor 5xx. |
| `DeliveryProgress.QueuedDeliveryCompletes` | src/cf_agent_gateway/delivery/worker.py:158-263 | From every sound state a delivery that is due can be completed by an undisturbed worker: each remaining part is posted once, in order, to the delivery's account, and receipted, and nothing else changes. |
| `DeliveryProgress.EnqueuedDeliveryCompletes` | src/cf_agent_gateway/delivery/worker.py:158-263 | A new response is due at once and can be delivered whole, part by part. |
| `DeliveryProgress.StaleClaimIsRecovered` | src/cf_agent_gateway/delivery/outbox.py:192-290 | An undisturbed recovery of a claim as old as the cutoff frees its delivery at once if nothing is in flight, and otherwise quarantines delivery and attempt. |
| `DeliveryProgress.StoppedDeliveryIsRetried` | src/cf_agent_gateway/delivery/outbox.py:519-585 | An undisturbed manual retry puts a failed or, with leave, an uncertain delivery back in the queue with its progress kept. |
| `DeliveryProgress.OthersAreNotRetried` | src/cf_agent_gateway/delivery/outbox.py:519-541 | Any other delivery is left as it is. |
| `DeliveryWorker.RetryDelay` | src/cf_agent_gateway/delivery/worker.py:340-344 | The delay is the smaller of the cap and the base times two to the attempt number less one. |
| `DeliveryWorker.RetryDelayDoubles` | src/cf_agent_gateway/delivery/worker.py:340-344 | From one attempt to the next the delay doubles until it reaches the cap, and then it stays there. |
| `DeliveryWorker.ChannelDeliveryWorker.RunOnce` | src/cf_agent_gateway/delivery/worker.py:158-263 | One call terminates, is a stretch of a protocol run and leaves no claim of the worker in progress. It tries to end every claim of its channel that is older than the timeout and ends no claim made less than the timeout ago; it is idle only if nothing is due or eight claims were lost; it raises when its claim was lost, and a result without an error is of a delivery that is no longer delivering. |
| `DeliveryWorker.ChannelDeliveryWorker.DeliverParts` | src/cf_agent_gateway/delivery/worker.py:178-263 | The part loop terminates whatever happens, recording each part at a later clock than the call's. |
| `DeliveryWorker.ChannelDeliveryWorker.DeliverPart` | src/cf_agent_gateway/delivery/worker.py:180-257 | A turn of the part loop moves to a later part, ends or raises, including after an ambiguous receipt commit; it ends without an error only with the receipt in place and the delivery no longer delivering. |
| `DeliveryWorker.ChannelDeliveryWorker.Send` | src/cf_agent_gateway/delivery/worker.py:276-327 | The worker either fails before the sender is called, or the sender checks the account and posts; the recorded stage is what the sender reports. |
| `DeliveryWorker.ChannelDeliveryWorker.ResolveReceipt` | src/cf_agent_gateway/delivery/worker.py:214-257 | After a raised commit the worker goes on at the row's next part, which lies beyond the one it sent, or is done: without an error only if the receipt is there, otherwise as uncertain. |
| `DeliveryWorker.ChannelDeliveryWorker.RecordFailure` | src/cf_agent_gateway/delivery/worker.py:329-376 | The attempt is closed by the class of its error and its number, under the code the source records; without the claim this raises. |
| `ArtifactRepository.ChunkingIsInvisible` | src/cf_agent_gateway/artifact/repository.py:329-375 | However content is cut into chunks, it is too large iff it does not fit the limit, and otherwise the end of the stream decides: whole, unreadable or not bytes. |
| `ArtifactRepository.ArtifactRepository.StageContent` | src/cf_agent_gateway/artifact/repository.py:329-375 | Leaves exactly the content in a fresh file, or no file. |
| `ArtifactRepository.ArtifactRepository.MarkReady` | src/cf_agent_gateway/artifact/repository.py:123-212 | Under any single fault or kill point every READY row keeps a file of its recorded size and digest; success leaves exactly the given bytes under a fresh key. Each refusal has its exact condition, and whatever is refused after staging leaves the row FAILED unless its commit was lost. |
| `ArtifactRepository.ArtifactRepository.Offer` | src/cf_agent_gateway/artifact/repository.py:145-212 | Staged content is published iff the row is still CREATED, the content is whole and agrees with what was declared, and no fault intervenes; otherwise the staged file is gone and the result names the reason. |
| `ArtifactRepository.ArtifactRepository.CommitPublish` | src/cf_agent_gateway/artifact/repository.py:313-327 | After a raised commit the file stays iff the row points at it. |
| `ArtifactRepository.ArtifactRepository.MarkFailed` | src/cf_agent_gateway/artifact/repository.py:214-225 | Gives up a CREATED artifact and is idempotent. |
| `ArtifactRepository.ArtifactRepository.MarkFailedIfCreated` | src/cf_agent_gateway/artifact/repository.py:295-311 | Changes exactly a CREATED row. |
| `ArtifactRepository.ArtifactRepository.Expire` | src/cf_agent_gateway/artifact/repository.py:227-264 | With other sessions between its read and its update: expires the artifact unless a fault or a kill intervenes, removes the file of one that was already published, and can only leave a READY row unbacked if killed between rename and commit. |
| `ArtifactRepository.ArtifactRepository.ExpireLocked` | src/cf_agent_gateway/artifact/repository.py:233-264 | Every READY row stays backed iff the process is not killed between rename and commit of a row that is READY under the key that was read; a file is left behind iff the row was published since it was read. |
| `ArtifactRepository.KilledExpiryLosesFile` | src/cf_agent_gateway/artifact/repository.py:244-264 | A kill after the rename leaves a READY row without its file. |
| `ArtifactRepository.StaleExpiryLeavesFile` | src/cf_agent_gateway/artifact/repository.py:227-264 | An expire that read the row before it was published succeeds and leaves the published file behind. |
| `ArtifactRepository.ArtifactRepository.RecoverFailedExpiration` | src/cf_agent_gateway/artifact/repository.py:427-460 | After a raised commit a live row gets its file back and an expired one loses it. |
| `ArtifactRepository.ArtifactRepository.Read` | src/cf_agent_gateway/artifact/repository.py:266-276 | Returns content only of the recorded size and digest, whatever is in the files. |
| `DispatchQueue.ReachableTableIsConsistent` | src/cf_agent_gateway/task/model/models.py:55-168 | Every reachable table meets its constraints, runs one record per thread and holds one per message. |
| `DispatchQueue.DispatchIsFirstInFirstOut` | src/cf_agent_gateway/task/model/store.py:483-525 | Within a thread no record starts before every earlier one has finished, over every run in which no new record sorts before one already claimed. |
| `DispatchQueue.InsertKeepsFifoIff` | src/cf_agent_gateway/task/model/store.py:76-106 | An insert keeps that discipline iff it does not sort before a record already started. |
| `DispatchQueue.EarlierRecordBreaksFifo` | src/cf_agent_gateway/task/model/store.py:76-106 | A run of three actions that breaks the order: a record is claimed and an earlier one arrives. |
| `DispatchQueue.FinishedStaysFinished` | src/cf_agent_gateway/task/model/store.py:347-382 | success and dead are final in every continuation; no record changes its message or target. |
| `DispatchQueue.UncertainWaits` | src/cf_agent_gateway/task/model/store.py:384-419 | An uncertain record is untouched until an operator decides, and holds back its thread. |
| `DispatchQueue.DispatchAttemptsAreBounded` | src/cf_agent_gateway/task/model/store.py:282-309 | A dispatch runs at most retry_limit + 1 times plus once per approved retry. |
| `DispatchQueue.NextClaimable` | src/cf_agent_gateway/task/model/store.py:127-189 | The candidate is claimable and first by attempts, creation and identifier; none only when nothing is claimable. |
| `DispatchQueue.DispatchStore.FinalizeExhausted` | src/cf_agent_gateway/task/model/store.py:384-419 | After the two updates of the sweep no exhausted failure and no expired lease is left; the former are dead, the latter uncertain without claim, and every other record is unchanged. |
| `DispatchQueue.DispatchStore.ClaimNext` | src/cf_agent_gateway/task/model/store.py:127-189 | Claims a record that was first in claim order when it was scanned, with its token and lease; none only if nothing can be claimed or all 32 tries were lost. |
| `DispatchQueue.DispatchStore.ClaimRecord` | src/cf_agent_gateway/task/model/store.py:191-237 | Wins iff the record is claimable, first in its thread and the thread is idle. |
| `DispatchQueue.DispatchStore.CompleteRecord` | src/cf_agent_gateway/task/model/store.py:347-382 | Writes iff token and lease still stand. |
| `DispatchLeases.EnqueueIsIdempotent` | src/cf_agent_gateway/task/model/store.py:76-106 | A message is enqueued once, at the end of the queue: again for the same target it is found, for another it is refused. |
| `DispatchLeases.ClaimAndRenewalAreLeased` | src/cf_agent_gateway/task/model/store.py:191-270 | A claim and a renewal last exactly lease_seconds from their time; refused ones change nothing. |
| `DispatchLeases.LeaseProtects` | src/cf_agent_gateway/task/model/store.py:239-419 | In every continuation, until the lease runs out nobody but its holder touches the record and the holder can still end it; from then on the holder cannot, and a sweep makes it uncertain. |
| `DispatchLeases.EndingStays` | src/cf_agent_gateway/task/model/store.py:272-382 | A record ended as success or dead stays so for ever, one ended as uncertain until an operator decides, and it holds back its thread meanwhile. |
| `DispatchLeases.FailureIsRetriedIff` | src/cf_agent_gateway/task/model/store.py:282-309 | A definite failure can be claimed again iff it was at most its retry_limit-th attempt; otherwise it is dead. |
| `DispatchLeases.BudgetIsReached` | src/cf_agent_gateway/task/model/store.py:282-309 | The bound on attempts is tight: a record that keeps failing runs retry_limit + 1 times and is then dead. |
| `DispatchLeases.UnfinishedThreadMoves` | src/cf_agent_gateway/task/model/store.py:483-525 | After a sweep a thread with unfinished records has one that can be claimed, unless one of them is running or uncertain. |
| `ContextTimeline.BoundaryPartitionsTimeline` | src/cf_agent_gateway/context/storage.py:218-254 | Reading up to a boundary followed by reading from it is the full timeline. |
| `ContextTimeline.SnapshotPrefixIsFrozen` | src/cf_agent_gateway/context/storage.py:55-95 | Below the boundary of an existing snapshot the timeline reads the same in every later state. |
| `ContextTimeline.IncrementalAgreesWithFull` | src/cf_agent_gateway/context/storage.py:142-203 | Validating from the latest boundary accepts exactly what validating everything accepts. |
| `ContextTimeline.SnapshotsAreOrdered` | src/cf_agent_gateway/context/storage.py:72-86 | In every reachable state versions are 1 to n, boundaries never decrease and both validations agree. |
| `ContextContents.TimelineHolds` | src/cf_agent_gateway/context/storage.py:218-406 | A read holds exactly the messages answered between its bounds and the parts of their answers, each once: by dispatch, message first, parts by ordinal; it is refused iff its bounds are not positive or leave nothing between them. |
| `ContextContents.SnapshotTakenIff` | src/cf_agent_gateway/context/storage.py:55-203 | In every reachable state a snapshot is taken iff its summary is not empty, its boundary lies between the latest one and the end of history, and below it everything is finished and every reference owned; it is then the next version with that summary and boundary. |
| `ContextStore.OwnersDecide` | src/cf_agent_gateway/context/storage.py:164-203 | Comparing collected owners with the artifact table equals resolving every reference by itself. |
| `ContextStore.RecentIsASuffix` | src/cf_agent_gateway/context/storage.py:256-279 | The recent window is a suffix of whole turns, `limit` of them or all. |
| `ContextStore.ContextSnapshotStore.CollectReferences` | src/cf_agent_gateway/context/storage.py:164-186 | The loop collects, for each referenced artifact, exactly the responses that refer to it. |
| `ContextStore.ContextSnapshotStore.CheckOwners` | src/cf_agent_gateway/context/storage.py:187-203 | Looking artifacts up in batches of 500 accepts exactly what one pass accepts. |
| `ContextStore.ContextSnapshotStore.ValidateBoundary` | src/cf_agent_gateway/context/storage.py:124-203 | The boundary check accepts exactly the boundaries the specification accepts. |
| `ContextStore.ContextSnapshotStore.Create` | src/cf_agent_gateway/context/storage.py:55-95 | Appends the next version iff the boundary is valid, else changes nothing. |
| `ContextStore.ContextSnapshotStore.Read` | src/cf_agent_gateway/context/storage.py:218-254 | The reading loops return the specified timeline. |
| `ContextStore.ContextSnapshotStore.ReadTurn` | src/cf_agent_gateway/context/storage.py:341-406 | A turn holds its message and then, by ordinal, exactly the parts that are text or whose reference resolves to their own response, each once. |
| `ContextStore.ContextSnapshotStore.ReadRecent` | src/cf_agent_gateway/context/storage.py:256-279 | Reading newest first and reversing gives exactly the entries of the most recent turns, in order. |
| `AdmissionOutcomes.AdmissionRoundTrip` | src/cf_agent_gateway/admission/store.py:260-316 | Whatever an evaluation decides, completing its claim succeeds iff an allowed decision has non-empty identifiers, meets all CHECK constraints and reads back as the identical decision. |
| `AdmissionOutcomes.SnapshotRoundTrip` | src/cf_agent_gateway/admission/store.py:449-470 | An authorization survives its snapshot: sets through sorted lists, enumerations through their texts. |
| `AdmissionOutcomes.RequestRoundTrip` | src/cf_agent_gateway/admission/store.py:117-129 | The request frozen by the first claim is read back as given, from a row that meets its constraints. |
| `AdmissionOutcomes.RefusedRouteKeepsAuthorization` | src/cf_agent_gateway/admission/service.py:127-153 | A refused route is a denial without authorization whose policy snapshot holds the granted one. |
| `AdmissionPolicy.AccessIff` | src/cf_agent_gateway/access/evaluator.py:18-75 | Access is allowed iff every one of nine conditions on identity, conversation, gateway policy and request holds, and then grants exactly what user, gateway and request share. |
| `AdmissionPolicy.AdmittedIff` | src/cf_agent_gateway/admission/service.py:44-208 | A message is admitted iff it clears every hurdle, and then with its identity's place, authorization, policies and route. |
| `AdmissionPolicy.DeniedAtFirst` | src/cf_agent_gateway/admission/service.py:44-219 | A denied message is told of the first hurdle it does not clear, and is given no place, no route and no permission. |
| `AdmissionPolicy.RaisesIff` | src/cf_agent_gateway/admission/service.py:127-153 | An evaluation raises iff all but the route is cleared and the resolver fails. |
| `SortedStrings.Sorted` | src/cf_agent_gateway/access/policy_models.py:27-48 | The stored list is strictly increasing and holds exactly the set. |
| `AdmissionTheorems.OneDispatchPerAdmission` | src/cf_agent_gateway/ingestion/service.py:114-291 | Over every interleaving a message has a dispatch iff its outcome is completed and allowed, at most one, for the same target. |
| `AdmissionTheorems.AnswersAgree` | src/cf_agent_gateway/ingestion/service.py:293-330 | All deliveries of a message that answer give the identical, stored answer. |
| `AdmissionTheorems.ReplayAnswers` | src/cf_agent_gateway/ingestion/service.py:293-330 | In every reachable state a replay is answered at once from the stored outcome. |
| `AdmissionTheorems.CompletedNeverChanges` | src/cf_agent_gateway/admission/store.py:260-335 | A completed outcome is the same in every continuation. |
| `AdmissionTheorems.RequestIsFrozen` | src/cf_agent_gateway/ingestion/service.py:146-192 | Every evaluation of a message uses the request its first claim stored. |
| `AdmissionTheorems.AttemptsCountGrants` | src/cf_agent_gateway/admission/store.py:382-428 | The attempt counter is the number of claims granted along the run. |
| `AdmissionTheorems.LiveLeaseIsKept` | src/cf_agent_gateway/admission/store.py:392-410 | While a lease runs only its holder changes who holds the claim. |
| `AdmissionTheorems.StaleTokenIsPowerless` | src/cf_agent_gateway/admission/store.py:231-258 | A delivery whose claim was taken over changes no outcome and no dispatch. |
| `AdmissionTheorems.RetiredForEver` | src/cf_agent_gateway/admission/store.py:382-428 | A token that has left its row never returns. |
| `AdmissionTheorems.AdvanceEffect` | src/cf_agent_gateway/admission/store.py:58-428 | A statement leaves the outcome rows alone, is granted a claim that was free, or ends the claim it holds. |
| `AdmissionClearance.StoredWasDecided` | src/cf_agent_gateway/ingestion/service.py:175-266 | Over every run a stored outcome is what some evaluation of the message decided, on the request its first claim froze. |
| `AdmissionClearance.DispatchWasCleared` | src/cf_agent_gateway/ingestion/service.py:114-291 | Over every run each dispatch was admitted by an evaluation that clears every hurdle, for the target it names. |
| `AdmissionProgress.NewMessageIsDecided` | src/cf_agent_gateway/ingestion/service.py:114-266 | A message without an outcome that is delivered undisturbed is admitted with a dispatch iff it clears every hurdle, denied at the first it does not, and left open with a free claim iff the evaluation raises. |
| `AdmissionProgress.PendingMessageIsDecided` | src/cf_agent_gateway/ingestion/service.py:154-266 | The same for a pending outcome that nobody holds or whose lease has run out, on the request its first claim froze. |
| `AdmissionProgress.HeldMessageIsBusy` | src/cf_agent_gateway/admission/store.py:382-428 | A delivery of a pending message whose lease runs fails and changes nothing. |
| `AdmissionProgress.DecidedMessageIsAnswered` | src/cf_agent_gateway/ingestion/service.py:127-132 | A delivery of a decided message is answered from its row, without an evaluation or a dispatch. |
| `AdmissionProgress.FirstClaimIsTimed` | src/cf_agent_gateway/admission/store.py:58-100 | The first claim lasts until `now + lease`. |
| `AdmissionProgress.LaterClaimIsTimed` | src/cf_agent_gateway/admission/store.py:382-428 | So does every later one. |
| `AdmissionProgress.LeaseIsHonoured` | src/cf_agent_gateway/admission/store.py:392-410 | In every continuation, until its lease runs out a claim is left to its holder. |
| `AdmissionProgress.LoserIsAnswered` | src/cf_agent_gateway/admission/store.py:84-100 | A delivery that lost the insert or the claim to one that has answered gives the same answer. |
| `AdmissionProgress.LateCreatorDecides` | src/cf_agent_gateway/admission/store.py:84-100 | A delivery whose insert came second takes the pending row over as soon as it is free and decides it. |
| `AdmissionProgress.ReplayRepairs` | src/cf_agent_gateway/ingestion/service.py:293-330 | An admitted message whose dispatch is missing gets it when its outcome is answered again. |
| `AdmissionProgress.LegacyDispatchIsAdopted` | src/cf_agent_gateway/admission/store.py:131-161 | A dispatch without an outcome gets one from its own target, without an evaluation. |
| `AdmissionProgress.DispatchSettlesClaim` | src/cf_agent_gateway/admission/store.py:163-229 | A claim that meets a dispatch of its message is closed with the outcome the dispatch implies. |
| `AdmissionInvariant.StepKeeps` | src/cf_agent_gateway/ingestion/service.py:114-330 | Every action preserves the joint invariant of outcomes, dispatches, deliveries and tokens. |
| `AdmissionInvariant.LegacyKeeps` | src/cf_agent_gateway/admission/store.py:131-229 | A delivery that met a dispatch before its outcome finds the outcome in place: nothing is adopted or overwritten. |
| `AdmissionService.MessageAdmissionService.Ingest` | src/cf_agent_gateway/ingestion/service.py:114-266 | A delivery answers with the stored outcome, admitted iff the message has a dispatch; some evaluation of the message on its frozen request cleared every hurdle, or failed first at the one the answer names. |
| `AdmissionService.MessageAdmissionService.InsertPending` | src/cf_agent_gateway/admission/store.py:58-100 | The first claim inserts the row with its frozen request iff there is none. |
| `AdmissionService.MessageAdmissionService.ClaimExisting` | src/cf_agent_gateway/admission/store.py:382-428 | Comes back with a claim, with the completed row, or busy. |
| `AdmissionService.MessageAdmissionService.CommitAllowed` | src/cf_agent_gateway/ingestion/service.py:268-291 | Outcome and dispatch are written together or not at all. |
| `AdmissionService.MessageAdmissionService.CommitDenied` | src/cf_agent_gateway/admission/store.py:318-335 | Stores the denial under the claim, or changes nothing. |
| `AdmissionService.MessageAdmissionService.CloseFromDispatch` | src/cf_agent_gateway/admission/store.py:163-229 | The claim ends with the outcome an existing dispatch implies, or is released. |
| `AdmissionService.MessageAdmissionService.AdoptDispatch` | src/cf_agent_gateway/admission/store.py:131-161 | A dispatch without an outcome is given one; an outcome that came first must agree. |
| `AdmissionService.MessageAdmissionService.ReleaseClaim` | src/cf_agent_gateway/admission/store.py:231-258 | Gives back the claim iff it is still held. |
| `AdmissionService.MessageAdmissionService.ReplayStored` | src/cf_agent_gateway/ingestion/service.py:293-330 | Answers from the completed row, repairing a missing dispatch. |
| `ResponseTheorems.SavesConverge` | src/cf_agent_gateway/response/store.py:70-172 | However direct saves and reconciliation interleave, all saves of a message end with one response, the parts its stored result calls for and one delivery, and at most one is told it created it. |
| `ResponseTheorems.RowHoldsItsOutcome` | src/cf_agent_gateway/response/store.py:70-172 | Every response row of every run holds the outcome one successful dispatch stored: its envelope's parts, or its text alone under the message's own identifier. |
| `ResponseTheorems.SavedIsTheAnswer` | src/cf_agent_gateway/response/store.py:70-172 | A save that reports success names a row that holds its outcome and a delivery of it to the message's address. |
| `ResponseTheorems.OneCreatorIff` | src/cf_agent_gateway/response/store.py:132-172 | No delivery has two saves that are told they created it, and it has one iff the commit that wrote it reported back. |
| `ResponseRuns.NobodyIsTold` | src/cf_agent_gateway/response/store.py:165-167 | A run in which the commit lands and raises: all saves have ended and none was told that it created the delivery. |
| `ResponseTheorems.SavedStays` | src/cf_agent_gateway/response/store.py:70-172 | Nothing saved is changed or removed in any continuation. |
| `ResponseTheorems.SaveSucceedsIff` | src/cf_agent_gateway/response/store.py:70-172 | An undisturbed save succeeds iff its outcome can be saved and the response is there or its identifier is not another message's. |
| `ResponseTheorems.InsertRefusedIff` | src/cf_agent_gateway/response/store.py:132-164 | An insert is refused iff the message has a response or its identifier is taken by another message. |
| `ResponseTheorems.IdentifiersCollideIff` | src/cf_agent_gateway/response/store.py:376-386 | Two stored results claim one response identifier iff a Hermes identifier imitates the legacy form of the other message. |
| `ResponseRuns.ImitationMakesSaveRaise` | src/cf_agent_gateway/response/store.py:137-164 | A run in which a Hermes identifier that imitates a legacy one makes the save of another message raise. |
| `ResponseTheorems.UncertainHasNoResult` | src/cf_agent_gateway/hermes/result_store.py:33-107 | Over every run an uncertain dispatch has no stored result. |
| `ResponseTheorems.NoSaveFails` | src/cf_agent_gateway/hermes/worker.py:282-323 | Without such an imitation no interleaving makes any save conflict or raise. |
| `ResponseConvergence.StoredResultIsFaithful` | src/cf_agent_gateway/hermes/result_store.py:109-125 | The outcome rebuilt from storage is the one the worker had, in every reachable state. |
| `ResponseConvergence.StepKeeps` | src/cf_agent_gateway/response/store.py:70-353 | Every action preserves the joint invariant of stored results, responses, deliveries and saves. |
| `ResponseStore.Tables.CompleteSuccess` | src/cf_agent_gateway/hermes/result_store.py:33-107 | Dispatch, session rotation and stored result are written together iff the claim stands, the outcome matches, the session is where the call found it and neither dispatch nor Hermes identifier has a result; otherwise nothing is. |
| `ResponseStore.Tables.SaveGenerated` | src/cf_agent_gateway/response/store.py:70-172 | A save that succeeds leaves its response and its delivery in the tables; an outcome without content is refused. |
| `ResponseStore.Tables.InsertRows` | src/cf_agent_gateway/response/store.py:109-138 | Response and delivery are inserted together iff no unique constraint objects and the commit lands; the caller is told of acceptance, refusal or an error that leaves it unsure. |
| `ResponseStore.Tables.AddDelivery` | src/cf_agent_gateway/response/store.py:314-348 | The delivery of an existing response is inserted iff no unique constraint objects and the commit lands; the response is untouched. |
| `ResponseStore.Tables.CreateMissingDelivery` | src/cf_agent_gateway/response/store.py:293-353 | Adds the delivery of a response that has none, or answers with the one that came first. |
| `ResponseStore.Tables.SuccessEvidence` | src/cf_agent_gateway/admin/recovery.py:262-283 | A success is proven iff the dispatch has a stored result that can be saved; for an uncertain dispatch the answer is always dispatch_response_missing. |
| `Reconciliation.NoStarvation` | src/cf_agent_gateway/hermes/worker.py:206-280 | Whatever fails, database errors included, within as many passes as there are eligible records each is attempted, and those left are exactly those whose every attempt was lost to a database error. |
| `Reconciliation.LostForEver` | src/cf_agent_gateway/hermes/worker.py:225-228 | A record whose repair always meets a database error is the same after any number of passes: eligible, not deferred and not quarantined. |
| `Reconciliation.OncePerRotation` | src/cf_agent_gateway/hermes/worker.py:213-224 | Until the cursor wraps no record is attempted twice, and when nothing is ahead of it any more every record that was ahead has been attempted. |
| `Reconciliation.HandledExactlyOnce` | src/cf_agent_gateway/hermes/worker.py:206-280 | Without lost database errors each eligible record is handled exactly once within as many passes, and none is left. |
| `Reconciliation.PassShrinks` | src/cf_agent_gateway/hermes/worker.py:206-236 | A pass takes the records it handles out of the backlog, except one lost to a database error, and handles at least one if there is one. |
| `Reconciliation.Candidates` | src/cf_agent_gateway/hermes/worker.py:238-280 | The batch is increasing, eligible, beyond the cursor and within the limit, and empty only if nothing is left there. |
| `Reconciliation.QuarantineIsEarned` | src/cf_agent_gateway/hermes/worker.py:331-382 | In every history of failures and repairs by any workers the fields form one of the three tuples, and quarantine comes 450 s or more after the first of five unbroken failures. |
| `Reconciliation.CapBindsIff` | src/cf_agent_gateway/hermes/worker.py:342-350 | The 300 s cap binds iff the failure count has reached the quarantine threshold, so it never delays anything. |
| `Reconciliation.FailureIsPutOff` | src/cf_agent_gateway/hermes/worker.py:340-350 | A failure that counts puts the record off by 30, 60, 120 and 240 s, and the fifth quarantines it. |
| `Reconciliation.SteadyFailure` | src/cf_agent_gateway/hermes/worker.py:325-382 | The bound of 450 s is tight: a record that fails whenever it is due is quarantined exactly then. |
| `Reconciliation.RepairForgets` | src/cf_agent_gateway/hermes/worker.py:385-403 | A repaired record leaves the backlog as if it had never failed; one that raises stays with one failure more. |
| `Reconciliation.DispatchReconciler.ReconcileOnce` | src/cf_agent_gateway/hermes/worker.py:206-236 | The call performs exactly one pass and reports whether it repaired a record or raised a database error. |
| `Reconciliation.DispatchReconciler.Sweep` | src/cf_agent_gateway/hermes/worker.py:222-236 | The loop handles candidates in order up to the first one repaired or lost to a database error and leaves the cursor there. |
| `Reconciliation.DispatchReconciler.DeferCandidate` | src/cf_agent_gateway/hermes/worker.py:325-382 | A failure puts the next attempt off or quarantines the record. |
| `DispatchRecovery.ExitsEqualAudits` | src/cf_agent_gateway/admin/recovery.py:166-260 | With the status guard, over every interleaving of requests and workers a dispatch has left the uncertain status exactly as often as it has audit rows. |
| `DispatchRecovery.SameReferenceSameAudit` | src/cf_agent_gateway/admin/recovery.py:345-360 | Requests with one key that succeed are identical, name the same audit row, and at most one created it. |
| `DispatchRecovery.OneCreatorIff` | src/cf_agent_gateway/admin/recovery.py:233-260 | No audit row has two requests that report having created it, and it has one iff the commit that wrote it reported back. |
| `DispatchRecoveryRuns.NobodyReportsCreation` | src/cf_agent_gateway/admin/recovery.py:249-251 | A run from empty tables in which the commit lands and raises and a later identical request is told that the decision was there already. |
| `DispatchRecovery.ReplayChangesNothing` | src/cf_agent_gateway/admin/recovery.py:177-183 | No statement of a request whose decision is audited changes dispatches or audits. |
| `DispatchRecovery.LaterRequestReplays` | src/cf_agent_gateway/admin/recovery.py:345-360 | A request made after its decision was audited ends at once with that audit, or is refused if operator or reason differ. |
| `DispatchRecovery.EarlyTwinReplaysIff` | src/cf_agent_gateway/admin/recovery.py:185-193 | A request that looked before its twin wrote and runs undisturbed from there reaches the twin's audit iff the dispatch still reads as uncertain with its evidence. |
| `DispatchRecovery.HonestEvidenceConfirmsNothing` | src/cf_agent_gateway/admin/recovery.py:185-193 | With the dispatch and its evidence read in separate statements: if evidence is only shown of a dispatch that has succeeded, no run audits or reports a confirmed success. |
| `DispatchRecovery.DecisionIsFinal` | src/cf_agent_gateway/admin/recovery.py:114-164 | In every state after a mark_dead or confirm_success audit the dispatch is dead or done, and it can never be claimed again. |
| `DispatchRecovery.DecisionMovesItsDispatch` | src/cf_agent_gateway/admin/recovery.py:194-224 | A statement that adds an audit row moves exactly its dispatch, from uncertain to the status it names; a retry is approved by hand and keeps its error, a success forgets it. |
| `DispatchRecovery.UndisturbedRequestAnswers` | src/cf_agent_gateway/admin/recovery.py:166-260 | An undisturbed request ends within five statements with exactly the answer its situation calls for. |
| `DispatchAudits.CheckReads` | src/cf_agent_gateway/admin/recovery.py:185-193 | A request that finds its dispatch uncertain has read the error it has then. |
| `DispatchAudits.AuditIsTheRequests` | src/cf_agent_gateway/admin/recovery.py:212-222 | An audit row is its request's own, with the evidence it found and the error it read. |
| `DispatchAudits.AuditNamesTheError` | src/cf_agent_gateway/admin/recovery.py:185-222 | If nobody decides the dispatch between the check and the commit of a request, the audit row names the error the dispatch has when it is decided. |
| `DispatchAudits.SameUncertaintyIff` | src/cf_agent_gateway/admin/recovery.py:185-210 | A request decides the very uncertainty it checked iff nobody has decided the dispatch in between; otherwise the dispatch has run again. |
| `DispatchAudits.AuditCanNameAnOlderError` | src/cf_agent_gateway/admin/recovery.py:185-222 | A run from empty tables in which an audit row names an error of an earlier attempt. |
| `OperatorEvidence.NoSuccessIsConfirmed` | src/cf_agent_gateway/admin/recovery.py:262-283 | Over every interleaving of requests, workers and saves no success is confirmed, and the evidence of an uncertain dispatch is dispatch_response_missing. |
| `OperatorEvidence.StepKeeps` | src/cf_agent_gateway/admin/recovery.py:166-283 | Every action of requests, workers and saves over one dispatch table preserves both invariants. |
| `OperatorEvidenceRuns.EvidenceCanComeTooLate` | src/cf_agent_gateway/admin/recovery.py:185-193 | A run from empty tables in which a confirmation finds the evidence of a retry that succeeded since, and reports a state conflict. |
| `DispatchRecoveryRuns.EarlyTwinCanConflict` | src/cf_agent_gateway/admin/recovery.py:185-193 | A run from empty tables in which one of two identical requests succeeds and the other reports a state conflict. |
| `DispatchRecoveryRuns.CountLawNeedsStatusGuard` | src/cf_agent_gateway/admin/recovery.py:203-211 | Every run has one audit row per exit from uncertain iff decisions are guarded by the status. |
| `DispatchRecoveryRuns.UniqueKeysNeedKeyGuard` | src/cf_agent_gateway/task/model/models.py:231-237 | No run has two audit rows of one key iff the table refuses them. |
| `DispatchRecoveryRuns.WithoutStatusGuard` | src/cf_agent_gateway/admin/recovery.py:203-211 | Without the status guard: a run with two audit rows and one exit. |
| `DispatchRecoveryRuns.WithoutKeyGuard` | src/cf_agent_gateway/task/model/models.py:231-237 | Without the unique key: a run in which one reference approves two retries. |
| `DispatchRecovery.StepKeeps` | src/cf_agent_gateway/task/model/models.py:238-261 | Every action, a commit that lands and raises included, keeps audit keys unique, audit constraints met, answers true of their audit row, and a report of creation exactly where the writing commit reported back. |
| `DispatchRecovery.DispatchRecoveryStore.Resolve` | src/cf_agent_gateway/admin/recovery.py:166-260 | A request that succeeds answers with a valid audit row of its own key, operator and reason. |
| `DispatchRecovery.DispatchRecoveryStore.Decide` | src/cf_agent_gateway/admin/recovery.py:203-236 | Status and audit row change together, iff the dispatch is uncertain, the key is new, the constraints hold and the commit lands; the dispatch then has the status the audit row names, and the request learns of it iff the commit reports back. |
| `ThreadKeys.ReadableKeyDecodes` | src/cf_agent_gateway/workspace/thread_keys.py:40-48 | A readable key decodes to exactly the platform, type, account and conversation it was built from. |
| `ThreadKeys.KeysSeparatePlaces` | src/cf_agent_gateway/workspace/thread_keys.py:15-53 | Version 1 keys of two places are equal iff the places are, across the readable and the digest form, and fit in 96 characters. |
| `ThreadKeys.RequestsShareIff` | src/cf_agent_gateway/workspace/thread_keys.py:15-53 | Requests share a version 1 key iff they agree in type, case-folded platform, account and conversation after stripping. |
| `ThreadKeys.KeysSeparateScopes` | src/cf_agent_gateway/workspace/thread_keys.py:80-128 | Version 2 keys of two scopes are equal iff the scopes are, fit in 96 characters and are never version 1 keys. |
| `ThreadKeys.SendersShareIff` | src/cf_agent_gateway/workspace/thread_keys.py:97-128 | Requests that differ only in their sender share a key iff the policy is group_shared or the senders are the same. |
| `ThreadKeys.PlaceKeyIff` | src/cf_agent_gateway/workspace/thread_keys.py:15-26 | A version 1 key exists iff the type is known and platform, account and conversation are not blank; it is of the stripped and folded texts, and the first fault is reported. |
| `ThreadKeys.ReadableRequestDecodes` | src/cf_agent_gateway/workspace/thread_keys.py:40-50 | A readable key decodes to the platform, type, account and conversation that were asked for. |
| `ThreadKeys.ScopeKeyIff` | src/cf_agent_gateway/workspace/thread_keys.py:80-105 | A version 2 key exists iff type and policy are known and suit each other, no text is blank and a sender is given unless the policy is group_shared. |
| `ThreadKeys.ScopeRequestsShareIff` | src/cf_agent_gateway/workspace/thread_keys.py:80-128 | Complete requests share a version 2 key iff they agree in type, policy, case-folded platform, account, conversation, profile and revision after stripping, and in the sender unless the policy is group_shared. |
| `ThreadKeys.PlaceDocument` | src/cf_agent_gateway/workspace/thread_keys.py:27-33 | The hashed version 1 document gives each field the request's own value. |
| `ThreadKeys.ScopeDocument` | src/cf_agent_gateway/workspace/thread_keys.py:107-125 | So does the version 2 document. |
| `TextCoding.SegmentRoundTrip` | src/cf_agent_gateway/workspace/thread_keys.py:156-157 | A percent-encoded segment decodes to its text and holds no separator. |
| `TextCoding.OwnEncodingIff` | src/cf_agent_gateway/workspace/thread_keys.py:156-157 | A text is its own encoding iff it is made of letters, digits and `-._~@`, and no encoding is shorter. |
| `TextCoding.FieldsInjective` | src/cf_agent_gateway/workspace/thread_keys.py:34-39 | Canonical documents over the same keys are equal only when all their values are. |

## Left out

- HTTP clients, senders other than `send_text`, FastAPI routes, authentication, configuration, logging, health and
  polling.
- SQLAlchemy sessions, dialect locking and migrations; a transaction is one step, at its commit. Within a transaction
  a guarded update that finds its row changed is a refused step.
- The contents of provider receipts, response timestamps, and the validation of error-code texts.
- What `_deliver_part` does before it calls the sender: it either calls `send_text` or raises some error, chosen
  freely.
- Sorting the artifact identifiers in the boundary check: they are looked up in the order they are first seen.
- Two faults in one artifact call, and a kill inside compensation.
- `read_range` and `search` of the context store, `inspect` of the recovery store, `run_until_idle` of the worker.
- Policy snapshots are opaque documents except for the refused route and the authorization noted in them.
- `content_sha256` and `target_key` are compared through the values they are computed from.
- Dispatches older than the outcome table in runs: `LegacyDispatchIsAdopted` and `DispatchSettlesClaim` say how each is
  adopted, but the theorems about runs start without them.
- How the dispatch worker calls Hermes and renews its lease: it ends or renews its claim at any time and in any way.
- New arrivals while `NoStarvation` counts. A database error inside the deferral of a record counts as one that wrote
  nothing.
- Lone surrogates, which Python strings can hold and UTF-8 cannot.
- DeliveryTheorems.AtMostOneEffect: does not hold of runs in which an insert, a recovery or a retry acts on a read
  that has become false, because the code lets that happen; `EitherWindowSendsTwice` shows it.
- DeliveryTheorems.TablesAgree: does not hold of those runs either; `RecoveryAgreesIff`, `RetryAgreesIff` and
  `InsertAgreesIff` say exactly which writes keep it.
- DeliveryStore.OutboxStore.RecoverOne: assumes that other sessions leave true what it saw, because its contract is
  false otherwise.
- DeliveryStore.OutboxStore.RecoverStaleClaims: assumes the same for each claim it recovers.
- DeliveryStore.OutboxStore.StartAttempt: assumes that the claim stands until its insert lands, because its contract
  is false otherwise.
- DeliveryStore.OutboxStore.Retry: assumes that other sessions leave true what it saw.
- ArtifactRepository.ArtifactRepository.Expire: does not promise that the file of an artifact published meanwhile is
  removed, because it is not; other sessions are not modelled between its rename and its commit.
- DispatchRecovery.DispatchRecoveryStore.Resolve: does not promise that identical concurrent requests all return the
  audit, because an early twin can report a conflict; `EarlyTwinReplaysIff` says exactly when.
- AdmissionService.MessageAdmissionService.Ingest: does not promise an answer, because a live claim elsewhere makes
  the call fail; the lemmas of `AdmissionProgress` say what each delivery gets when it is not disturbed.
