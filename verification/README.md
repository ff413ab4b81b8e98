# Flick: a verified model

Flick delivers a text or a file once. This project models the state machines behind that promise and
proves what they guarantee in every interleaving of the actors that share its database, its object bucket
and its job queue.

How the model is built:

- **Request links** (`RequestProtocol`, `RequestInvariant`, `RequestTheorems`) are a machine whose moves are
  single committed transactions and single effects on the bucket. `RequestStore` is the code on tables:
  rows with the source's columns, transactions with their loops, conditional updates and error answers. Its
  methods are proved to make only moves of the machine, while an arbitrary environment acts between any two
  transactions or network calls. `ClientCancel` is the browser's half on top of that store.
- **The cleanup pipeline** (`CleanupPipeline`, `CleanupWorker`, `WorkerReceipts`, `JobEvents`) goes from the
  outbox to the broker, the worker's receipts, the acknowledgement and the end of the message.
- **Secrets** (`SecretInputs`, `SecretProtocol`, `SecretStore`, `SecretReaper`) are built like requests: a
  machine with its theorems, a class whose methods are the transactions, and the reaper's order and bound.
- **Reconciliation passes** (`ScanCoverage`, `ScanPages`, `RequestScans`, `SecretScans`) cover any number of
  concurrent scanners, for both reconcilers; `ClaimFlow` ties their claims to the cleanup pipeline.
- **Smaller cores**: `AgeSizes`, `TokenBucket`, `Timestamps`, `PipeRelay`.

A theorem about "every run" quantifies over every finite sequence of moves by anyone, through `Runs`. For
the classes without a separate machine (`PipeRelay`, `WorkerReceipts`) each method is one critical section
or transaction that may be called by anyone at any time, so what every method keeps holds in every
interleaving.

What the model takes for granted:

- One global clock that never goes back. Where the code reads the clock before its transaction begins
  (create, the reaper), the reading may be stale.
- Writers are serialized: the database has a single connection and a transaction is one atomic step. A
  failed commit changes nothing. Any actor may stop between steps and never continue.
- Random ids, keys and tokens are fresh, and ids are ordered as numbers. SHA-256 is an attribute of a body; only equality of digests is used.
- The bucket verifies before it writes, deletes idempotently, and lists its first keys after the cursor in
  key order. A presigned PUT may arrive at any time, with any body.
- Stored timestamps are compared exactly as the columns compare them; where SQL rounds (`julianday`,
  `datetime`), the rounding is written out.
- The broker keeps a message until it is acknowledged or terminated, and may deliver it many times. A
  failed publish may still have stored the message; a failed acknowledgement may still have been applied.
- Token bucket times and budgets are reals.

Some properties hold only under a condition, which is proved with an input outside it:

- The reaper claims a waiting secret within the expected number of ticks only if creates that read their
  clock too early are counted with the backlog (`SecretReaper.NoStarvation`, `SecretReaper.StaleCreateDelays`).
  Rows created on time never count, given a pending window of at least one second, which the default of
  fifteen minutes meets (`SecretReaper.NewRowsSortAfterIff`).
- Comparing formatted times with their Z left on, as the outbox does, is chronological only if neither is the
  other's prefix, and is never off by a whole second (`Timestamps.UntrimmedOrderIff`).
- The limiter reads the clock before it takes its lock, so times may come out of order. A window is then
  bounded by the seconds its times move forward, not by its length (`TokenBucket.AnyOrderBound`,
  `TokenBucket.BackwardTimesOverspend`), and eviction stays invisible up to a lag of nine minutes
  (`TokenBucket.LaggingCallTells`).
- The size search fits 64-bit integers up to a chunk below the largest (`AgeSizes.SearchFitsInt64Iff`).

## Model

| member | source | states |
|---|---|---|
| RequestTheorems.ProtectionLatch | internal/requests/cleanup.go:184-224 | In every interleaving, a request key that is unprotected once is never protected again. |
| RequestTheorems.QueuedMeansUnprotected | internal/requests/cleanup.go:23-65 | A queued delete job, however delayed, only ever concerns a key that nothing protects now or later. |
| RequestTheorems.SubmittedObjectSurvives | internal/requests/large.go:226-275 | A submitted, unexpired object request still has its final object in the bucket, with the reserved length, checksum and age header. |
| RequestTheorems.StreamingObjectSurvives | internal/requests/store.go:499-545 | An opened object stays in the bucket for the stream grace unless its own stream has ended. |
| RequestTheorems.FinalKeyIntegrity | internal/requests/large.go:285-316 | Whatever is re-PUT and however many finalizers race, every object ever stored under a final key matches its reservation. |
| RequestTheorems.ReleaseMatchesAcceptance | internal/requests/store.go:443-518 | What an owner was given is the one accepted submission: the same inline body, or an object matching the accepted length and checksum. |
| RequestTheorems.KeyConservation | internal/requests/cleanup.go:35-65 | Every upload or final key ever reserved is still named by its request row or already has a delete job. |
| RequestTheorems.AcceptanceIsFinal | internal/requests/store.go:356-403 | At most one submission is ever accepted and at most one body released per request; both survive everything later unchanged. |
| RequestTheorems.GenerationFence | internal/requests/cleanup.go:52-65 | The generation never falls, stays within 1..16, and no call of a generation that was passed is ever accepted. |
| RequestTheorems.OneReservationPerGeneration | internal/requests/large.go:113-135 | A generation is reserved at most once: a request still uploading in a generation has the reservation its keys were drawn for. |
| RequestTheorems.CancelledStaysUnaccepted | internal/requests/large.go:331-361 | A reservation that was cancelled without acceptance is never accepted later. |
| RequestTheorems.RunKeeps | internal/requests/store.go:263-327 | Every move of every actor keeps the invariant, and every run from a good state only moves forward. |
| RequestInvariant.MoveKeeps | internal/requests/cleanup.go:52-131 | Each committed transition and each bucket effect keeps the whole request invariant (rows, keys, objects, history). |
| RequestTables.SchemaHolds | internal/db/requests.go:9-33 | Every row the model produces meets the table CHECK constraints, and keeps no metadata of a finished body. |
| RequestTables.KeysAreUnique | internal/db/requests.go:77-78 | No two rows share an upload key or a final key. |
| RequestTables.RowProtectsSame | internal/requests/cleanup.go:190-201 | The scanner's SQL condition on the columns is the protocol's notion of protection. |
| RequestAnswers.SubmitRowSame | internal/requests/store.go:370-388 | What Submit decides from the columns is what it would decide from the request they encode. |
| RequestAnswers.AttemptRowSame | internal/requests/store.go:418-433 | The standing reported for an attempt, computed from columns, is the standing of the encoded request. |
| RequestAnswers.ReserveRowSame | internal/requests/large.go:96-113 | Reserve's branches on the columns agree with the encoded request. |
| RequestAnswers.FinalizeRowSame | internal/requests/large.go:239-256 | The conditional finalize commit judges the columns as it would judge the request. |
| RequestAnswers.AbandonRowSame | internal/requests/large.go:331-361 | Abandon's branches on the columns agree with the encoded request. |
| RequestTx.EnqueueObject | internal/requests/cleanup.go:23-33 | Appends one delete job for a managed key and refuses any other key. |
| RequestTx.EnqueueRequestKeys | internal/requests/cleanup.go:35-48 | Appends exactly one delete job for each key the row names, and changes nothing else. |
| RequestTx.EndReservationTx | internal/requests/cleanup.go:52-65 | Queues the reservation's keys and moves the row to the next generation, or to unavailable after the sixteenth. |
| RequestTx.ClearPayloadTx | internal/requests/store.go:562-574 | Drops the payload and the keys of a row in the expected state, queueing the keys; an accepted receipt stays, a mere reservation keeps none. |
| RequestTx.InsertSubmission | internal/requests/store.go:389-398 | Writes the accepted inline submission and its payload into a waiting row. |
| RequestTx.InsertReservation | internal/requests/large.go:113-135 | Writes a reservation with fresh keys and its deadline into a waiting row. |
| RequestTx.AcceptReservation | internal/requests/large.go:257-266 | Turns the reservation into the accepted submission, keeps the final key and queues the upload key. |
| RequestTx.ConsumeObjectTx | internal/requests/store.go:499-518 | Marks a submitted object request consumed, keeping its key for the stream. |
| RequestTx.FinishOpenTx | internal/requests/store.go:522-545 | Ends the stream of exactly the consumed row that names the key, queueing that key. |
| RequestTx.ClaimUnprotected | internal/requests/cleanup.go:186-224 | Over a listed page: one claim and one job for every unprotected, unclaimed key, and nothing for any other. |
| Batches.Pick | internal/requests/cleanup.go:75-121 | ORDER BY key, id LIMIT n: the first n in that order, and all of them if they fit. |
| RequestStore.Store.Authorized | internal/requests/store.go:181-215 | Refuses exactly unknown, expired and wrongly authorized requests, and otherwise hands out the live row. |
| RequestStore.Store.Begin | internal/requests/store.go:263-307 | Ends an overdue reservation and starts over; under any interference it restarts at most 16 times, and it returns with a row whose reservation is live. |
| RequestStore.BusyEnvironment | internal/requests/store.go:136-166 | The interference all these results allow includes other processes that create requests at every turn. |
| RequestStore.Store.Expire | internal/requests/cleanup.go:52-65 | Ending a reservation inside begin commits only before the request expires. |
| RequestStore.Store.CommitRow | internal/requests/store.go:309-327 | A transaction takes effect as one move exactly when the clock is still before the deadline at commit. |
| RequestStore.Store.Read | internal/requests/store.go:217-235 | A read answers from one committed state, for the right token, with a reservation that was live at a clock reading of the call. |
| RequestStore.Store.Instructions | internal/requests/store.go:237-243 | Reports the generation and whether it is open, from one committed state. |
| RequestStore.Store.Submit | internal/requests/store.go:356-403 | Accepts an inline body at most once; repeats of the accepted attempt get the same receipt, others the exact error. |
| RequestStore.SubmitIsHonest | internal/requests/store.go:384-402 | A submitted answer means that exactly this generation, attempt and body are the accepted ones. |
| RequestStore.Store.Attempt | internal/requests/store.go:405-438 | Reports where an attempt stands, exactly as the committed row shows it. |
| RequestStore.Store.Reserve | internal/requests/large.go:62-158 | Reserves fresh keys for a waiting request, re-answers the same attempt, and refuses the rest; signing fails exactly when the reservation ran out or the signer did. |
| RequestStore.Store.Snapshot | internal/requests/large.go:160-197 | Finalize's first step: each refusal with its cause, the receipt of an accepted attempt, or the reservation of exactly this request and generation. |
| RequestStore.Store.CopyVerified | internal/requests/large.go:285-316 | The copy reaches the final key only if length, checksum and header match the reservation, whatever is re-PUT meanwhile; an upload is called invalid only if some stored body did not match. |
| RequestStore.Store.PutStream | internal/storage/object.go:23-48 | The object is written only after the streamed body has been checked, and a body that does not match is never reported as written. |
| RequestStore.Store.FinalizeAttempt | internal/requests/large.go:226-275 | The conditional commit accepts only the snapshot's own generation and attempt, with its copy in place; it is refused for exactly the causes of its verdict or for a deadline that passed. |
| RequestStore.SameReservation | internal/requests/large.go:254-256 | In the snapshot's generation the second look at key and checksum cannot fail. |
| RequestStore.Store.Finalize | internal/requests/large.go:160-224 | A leader's answer is about its own attempt and each of its refusals has its cause, a storage refusal only for an attempt with an object to copy; a follower may get a receipt of a later generation, which that generation really earned. |
| RequestStore.Store.Follow | internal/requests/large.go:199-211 | A follower is answered with the leader's receipt for the same request id. |
| RequestStore.Store.Abandon | internal/requests/large.go:331-361 | Moves the caller's own reservation to the next generation and reports where it stands. |
| RequestStore.Store.Revoke | internal/requests/store.go:547-560 | Withdraws an unopened request and queues its keys; an accepted receipt survives. |
| RequestStore.Store.Open | internal/requests/store.go:443-497 | Only the owner's token opens; a successful open takes the request and hands out the accepted body; a refusal changes nothing and has its cause, a storage refusal only for an object. |
| RequestStore.Store.ConsumeObject | internal/requests/store.go:499-518 | The conditional consume takes only a request that is still submitted, whose object is then the one that was read. |
| RequestStore.Store.FinishOpen | internal/requests/store.go:522-545 | After streaming, exactly the opened row's key is queued; otherwise nothing changes. |
| RequestStore.Store.Create | internal/requests/store.go:136-166 | Creates a waiting row of generation 1 that expires exactly its lifetime after a clock reading of the call, or refuses a lifetime out of bounds. |
| RequestStore.PurgeTx | internal/requests/cleanup.go:70-131 | One purge fences exactly the reservations that ran out first and deletes exactly the requests that ran out first, up to the limit each, queueing their keys. |
| RequestStore.PurgeLeavesNothing | internal/requests/cleanup.go:75-121 | With room for all that are due, none remains; with room for all overdue reservations, none remains. |
| RequestStore.Store.PurgeExpired | internal/requests/cleanup.go:70-131 | The purge transaction as a step of the system, at a clock reading from before it. |
| RequestStore.Store.CommitPage | internal/requests/cleanup.go:173-229 | A page commits only for the generation it was listed under, and then claims exactly its unprotected, unclaimed keys. |
| RequestStore.Store.ReconcileOnce | internal/requests/cleanup.go:135-230 | One reconciliation: refused, reset, lost to another scanner or committed, each exactly under its condition, and judged against the rows as they are at commit. |
| RequestStore.Store.AcknowledgeObjectCleanup | internal/requests/cleanup.go:232-238 | Clears the claim of exactly this job; an old acknowledgement leaves a newer claim alone. |
| RequestStore.OpenedOnce | internal/requests/store.go:443-518 | Two successful opens of one request are impossible. |
| ClientCancel.DeadForever | web/src/lib/state/request-upload.ts:99-107 | An attempt that is dead stays unaccepted forever, even if its late reserve, submit or finalize messages arrive. |
| ClientCancel.AcceptedForever | web/src/lib/state/request-upload.ts:92-98 | An accepted attempt stays the accepted one. |
| ClientCancel.Inspect | web/src/lib/state/request-upload.ts:60-80 | What the inspection reports about the attempt is true of the server, now and later. |
| ClientCancel.CheckRenewed | web/src/lib/state/request-upload.ts:73-78 | Only a newer open generation counts as renewed. |
| ClientCancel.Establish | web/src/lib/state/request-upload.ts:99-107 | Re-reserving the same attempt reports acceptance only if it was accepted. |
| ClientCancel.GiveUp | web/src/lib/state/request-upload.ts:108-109 | An answered abandon leaves the attempt dead. |
| ClientCancel.Cancel | web/src/lib/state/request-upload.ts:82-115 | `renewed` and `unavailable` mean the attempt was never accepted and never can be; `accepted` means it was. |
| WorkerReceipts.ReceiptGuarantees | internal/worker/store.go:80-273 | Attempts are numbered without gaps, at most one runs, failures never exceed the limit, a dead letter exists exactly for dead jobs, and handler windows of two attempts do not overlap. |
| WorkerReceipts.OneRunning | internal/worker/store.go:131-145 | Only the last attempt of a processing job can be running. |
| WorkerReceipts.WindowsDisjoint | internal/worker/processor.go:16-19 | Under the 60 s lease, the 30 s handler window of an attempt, counted from its recorded start, ends before any later attempt starts. |
| WorkerReceipts.LaterTransitive | internal/worker/store.go:330-424 | Over any number of calls succeeded and dead are absorbing and ended attempts are never rewritten. |
| WorkerReceipts.ReceiptStore.Start | internal/worker/store.go:80-215 | Claims an attempt exactly when the job is new, failed below the limit or its lease ran out; every refusal says why. |
| WorkerReceipts.ReceiptStore.Resume | internal/worker/store.go:131-215 | A reclaimed attempt is closed as interrupted, and a job with no attempts left is buried instead of started. |
| WorkerReceipts.ReceiptStore.Bury | internal/worker/store.go:241-273 | A buried job is dead with a dead letter, once. |
| WorkerReceipts.ReceiptStore.FinishAttempt | internal/worker/store.go:330-424 | Finishes exactly a running attempt; a late finish of a reclaimed attempt changes nothing; the limit-th failure makes the job dead. |
| WorkerReceipts.ReceiptStore.constructor | internal/worker/store.go:66-74 | A new store has no receipts. |
| CleanupPipeline.ClaimNeverStuck | internal/requests/cleanup.go:202-224 | While a claim exists its job is unpublished in the outbox or unacknowledged in the broker. |
| CleanupPipeline.GoneMeansSettled | internal/worker/processor.go:86-176 | A valid event's message that has left the broker left a terminal receipt, and its own claim is released for good. |
| CleanupPipeline.ReleasedAfterEnd | internal/requests/cleanup.go:232-238 | A claim is released only after its own job ended; acknowledging another job never clears it. |
| CleanupPipeline.MoveKeeps | internal/events/publisher.go:48-74 | Scan, publish, mark, process, acknowledge and remove each keep the pipeline invariant. |
| CleanupWorker.Cleanup.PublishDue | internal/events/publisher.go:48-74 | The publisher's loop: every record counted as published had its message stored first; it stops when a record was already published. |
| CleanupWorker.Cleanup.PublishOne | internal/events/publisher.go:60-71 | A record is marked published only after the broker answered. |
| CleanupWorker.Cleanup.Process | internal/worker/processor.go:86-159 | Without an error the result names the receipt's terminal state and the event is settled, the acknowledgement included; an acknowledgement failure becomes the error. |
| CleanupWorker.Cleanup.RunAttempt | internal/worker/processor.go:138-159 | A handled attempt is recorded under its own id; shutdown, a reclaimed attempt or a failure below the limit is an error for redelivery, never an invalid job. |
| CleanupWorker.Cleanup.FinishJob | internal/worker/processor.go:178-198 | A failure below the limit leaves the job failed, the last one dead; a reclaimed attempt changes nothing. |
| CleanupWorker.Cleanup.AcknowledgeCleanup | internal/worker/processor.go:105-116 | A successful acknowledgement has released the event's own claim. |
| CleanupWorker.Cleanup.Decide | internal/worker/processor.go:161-176 | Acked means succeeded, terminated means dead or undecodable, and both mean settled: no decodable event is dropped as an invalid job; everything else is retried. |
| CleanupWorker.Cleanup.ConsumeMessages | internal/events/consumer.go:154-197 | The consumer's loop accounts for every message and removes only settled ones. |
| CleanupWorker.Cleanup.ApplyAction | internal/events/consumer.go:199-217 | Only an acknowledged or terminated message leaves the broker, and nothing else changes. |
| JobEvents.ValidEventsAreNeverRefused | internal/worker/cleanup.go:167-226 | An event that validates passes every later check, so it is never dropped as an invalid job. |
| JobEvents.RequiresAcknowledgement | internal/worker/cleanup.go:240-247 | True exactly for keys properly below one of the two managed prefixes. |
| ScanCoverage.CommittedPagesChain | internal/requests/cleanup.go:143-183 | With any number of concurrent scanners, a page that commits starts exactly where the last one ended. |
| ScanCoverage.PassCovers | internal/secrets/reconciliation.go:21-101 | A complete pass leaves claimed, at some committed page, every key present and unprotected throughout. |
| ScanPages.RequestPageIsCommit | internal/requests/cleanup.go:173-229 | The request reconciler's page transaction is the scan machine's commit. |
| ScanPages.SecretPageIsCommit | internal/secrets/reconciliation.go:51-101 | The secret reconciler's page transaction is the scan machine's commit. |
| ScanPages.ResetIsReset | internal/secrets/reconciliation.go:31-35 | A refused cursor is reset in both reconcilers as the scan machine resets it. |
| RequestScans.PassCovers | internal/requests/cleanup.go:135-230 | Over any run of any number of concurrent ReconcileOnce calls, a complete pass leaves claimed, at a committed page, every request key present and protected by no row throughout. |
| SecretScans.PassCovers | internal/secrets/reconciliation.go:17-102 | The same for the secret reconciler. |
| ClaimFlow.RequestPageIsScans | internal/requests/cleanup.go:202-224 | A committed page of request keys is a series of the pipeline's scans, one claim and one pending delete each. |
| ClaimFlow.RequestJobIsEnqueue | internal/requests/cleanup.go:23-33 | A queued delete that leaves the claims alone is the pipeline's enqueue. |
| ClaimFlow.RequestAckIsAcknowledge | internal/requests/cleanup.go:232-238 | Acknowledging an ended job in the tables is the pipeline's acknowledgement. |
| ClaimFlow.WorkersKeepRequests | internal/events/publisher.go:48-74 | Publishing, marking, ending and removing leave the claims and jobs of the tables as they are. |
| ClaimFlow.RequestClaimNeverStuck | internal/requests/cleanup.go:202-238 | While a claim is in the request tables, its job is unpublished in the outbox or its message is in the broker. |
| ClaimFlow.SecretPageIsScans | internal/secrets/reconciliation.go:77-95 | A committed page of secrets is a series of the pipeline's scans. |
| ClaimFlow.SecretClaimNeverStuck | internal/secrets/reconciliation.go:77-95 | The same for the secret reconciler's claims. |
| SecretProtocol.DeleteSafety | internal/secrets/reconciliation.go:104-142 | Once a delete job for a secret's object exists, the secret can never be opened again, and its body is not streaming inside its window: the only job for an opened body before its deadline is the one queued after its stream ended. |
| SecretProtocol.BodyIsThere | internal/secrets/store.go:546-644 | A secret that can be opened, or is still streaming, has its object in the bucket; an inline one has its payload. |
| SecretProtocol.PurgedIsSpent | internal/httpapi/secrets.go:377-385 | A payload cleanup is only ever queued for a secret that no longer needs its payload. |
| SecretProtocol.OneOutcome | internal/secrets/management.go:45-51 | At most one of opened, locked, cancelled, unavailable ever happens; the stored outcome is that one and never changes. |
| SecretProtocol.LockedAtFive | internal/secrets/store.go:646-714 | The failure count never exceeds 5, and is 5 exactly when the secret is locked. |
| SecretProtocol.OutcomeNeverMissing | internal/secrets/management.go:85-93 | Before the deadline a record has an outcome or its row still exists. |
| SecretProtocol.MoveKeeps | internal/secrets/store.go:546-714 | Every transaction on secrets and every bucket effect keeps the invariant. |
| SecretProtocol.ReachesLater | internal/secrets/management.go:45-199 | Along any run deadlines are fixed, consumption and outcomes are not undone, and a secret past opening stays so. |
| SecretStore.Store.Create | internal/secrets/store.go:185-359 | Refuses exactly what validation refuses, and otherwise creates an active inline secret or a pending upload with its management record and deadline. |
| SecretInputs.AdvertisedFilesPass | internal/secrets/store.go:859-887 | A file within the advertised limits, under any header of at most 4096 bytes, is never refused for its size or body. |
| SecretInputs.ValidContentType | internal/secrets/store.go:939-949 | True exactly for printable ASCII of at most 255 bytes. |
| SecretStore.Store.Finalize | internal/secrets/store.go:364-461 | Activates a pending upload only before its deadline and with an object of the declared length; each refusal has its cause and leaves the tables unchanged. |
| SecretStore.Store.Open | internal/secrets/store.go:546-621 | Releases only an unconsumed, unexpired secret to a matching proof, recording it in the same transaction; each error is exact and leaves the secret as it was. |
| SecretStore.Store.OpenBody | internal/secrets/store.go:627-644 | A bucket that cannot serve the declared length leaves the secret reopenable. |
| SecretStore.Store.MarkOpened | internal/httpapi/secrets.go:345-393 | Consumption, outcome and payload cleanup job are one step; an object's stream gets its deadline. |
| SecretStore.Store.RecordFailedAccess | internal/secrets/store.go:646-714 | Counts a wrong proof; the fifth locks, drops the inline payload or queues the object delete. |
| SecretStore.Store.StopStreaming | internal/httpapi/secrets.go:335-341 | The stream is over, at its end, an error or the deadline. |
| SecretStore.Store.EnqueueOpenedObjectCleanup | internal/httpapi/secrets.go:399-421 | The delete job after the stream. |
| SecretStore.Store.Cleanup | internal/secrets/store.go:716-746 | Deletes the payload of any id; for its own jobs nothing still needed goes. |
| SecretStore.Store.ManagementStatus | internal/secrets/management.go:57-106 | Answers exactly for the right token before the deadline, never without an outcome or a row; cancellable means still openable. |
| SecretStore.Store.Revoke | internal/secrets/management.go:110-177 | Cancels only what nobody can have opened, removes row and body, queues the object; every refusal changes nothing. |
| SecretStore.Store.ClaimExpired | internal/secrets/reaper.go:139-252 | Claims the longest-reclaimable rows up to the batch size and deletes exactly those, queueing their objects. |
| SecretStore.Store.ReclaimRow | internal/secrets/reaper.go:222-252 | A claimed pending upload becomes unavailable; a claimed row goes with its payload and leaves a delete job for its object. |
| SecretStore.Store.PurgeManagement | internal/secrets/management.go:184-199 | Forgets the first expired records in order of expiry and id with their consumed rows, never a row whose object may still be streaming. |
| SecretStore.Store.ReconcilePage | internal/secrets/reconciliation.go:64-96 | Every listed object that no row protects is claimed, and those not claimed before get one delete job. |
| SecretStore.Store.CommitPage | internal/secrets/reconciliation.go:51-101 | The page commits only for the generation it was listed under. |
| SecretStore.Store.AcknowledgeObjectCleanup | internal/secrets/reconciliation.go:146-155 | Releases the claim of exactly this job. |
| SecretReaper.NoStarvation | internal/secrets/reaper.go:31-60 | A reclaimable secret is gone once the ticks since then have room for the live rows ordered no later than it and for the creates that came late, whatever anyone does in between. |
| SecretReaper.OnTimeIsNotLate | internal/secrets/reaper.go:41-54 | Creates that read their clock no earlier than the secret became reclaimable do not count as late. |
| SecretReaper.StaleCreateDelays | internal/secrets/store.go:204-215 | Late creates do count: one that read its clock five seconds early is claimed first. |
| SecretReaper.NewRowsSortAfter | internal/secrets/reaper.go:50-53 | Rows created once a secret is reclaimable are ordered after it. |
| SecretReaper.NewRowsSortAfterIff | internal/secrets/reaper.go:143-147 | That holds exactly when the pending window is at least one second. |
| SecretReaper.FinalizingRaises | internal/secrets/reaper.go:50-53 | Finalizing only moves a row back in the claim order. |
| SecretReaper.BacklogShrinks | internal/secrets/reaper.go:41-60 | Each tick that leaves the secret behind takes a full batch from those ahead of it, and only late creates add to them. |
| AgeSizes.MaxPlaintextBytes | internal/secrets/age.go:52-63 | For c of at least an empty file, n <= result iff the largest file of n bytes fits in c; the search takes at most 16 steps per overcounted tag. |
| AgeSizes.SearchFitsInt64Iff | internal/secrets/age.go:45-63 | No intermediate value of the search leaves a 64-bit integer exactly when c is at least a chunk minus one below the largest. |
| AgeSizes.Increasing | internal/secrets/age.go:45-48 | The largest file grows strictly with the plaintext. |
| AgeSizes.EffectivePayloadInlineMaxBytes | internal/config/config.go:189-191 | The advertised inline limit is the exact inverse of the configured file limit. |
| AgeSizes.EffectiveMaxFileBytes | internal/config/config.go:199-204 | The advertised file limit is the configured one, capped by the inline limit when there is no object storage. |
| AgeSizes.AdvertisedLimitsHold | internal/secrets/store.go:859-887 | Any plaintext within the advertised limits, under any header of at most 4096 bytes, passes the size check of its path. |
| AgeSizes.InlineLimitHoldsIff | internal/config/config.go:109-111 | The inline limit holds for every header exactly when an empty file fits, the guard the configuration enforces. |
| TokenBucket.RateLimiter.Allow | internal/httpapi/ratelimit.go:50-71 | Admits exactly when the refilled budget holds a token, and spends it. |
| TokenBucket.RateLimiter.EvictIdle | internal/httpapi/ratelimit.go:75-87 | Removes exactly the buckets idle for more than ten minutes. |
| TokenBucket.EvictionIsInvisible | internal/httpapi/ratelimit.go:73-87 | Eviction never changes a later decision as long as no call carries a time more than nine minutes before an earlier sweep; calls may be out of order. |
| TokenBucket.FreshEvictionIsInvisible | internal/httpapi/ratelimit.go:73-87 | The same from a new limiter. |
| TokenBucket.OrderedLagsLittle | internal/httpapi/ratelimit.go:73-87 | Nondecreasing times meet that condition. |
| TokenBucket.LaggingCallTells | internal/httpapi/ratelimit.go:73-87 | Nine minutes is exact: for any longer lag some run can tell. |
| TokenBucket.SpendingBound | internal/httpapi/ratelimit.go:49-71 | For any sequence of times, calls are paid for by the budget at the start and the seconds the times move forward. |
| TokenBucket.AnyOrderBound | internal/httpapi/ratelimit.go:49-71 | In whatever order times come, a window admits at most burst + rate * (seconds moved forward) calls of one client, with or without eviction. |
| TokenBucket.WindowBound | internal/httpapi/ratelimit.go:49-71 | With nondecreasing times, any window of length d admits at most burst + rate * d calls of one client, whatever happened before. |
| TokenBucket.BackwardTimesOverspend | internal/httpapi/ratelimit.go:59-65 | Out of order the length of the window is not enough: seconds are refilled twice. |
| Timestamps.TrimmedOrderIsTimeOrder | internal/secrets/reaper.go:28-48 | With the final Z trimmed, text order is exactly chronological order. |
| Timestamps.TrimmingDropsTheZ | internal/secrets/reaper.go:46-47 | Trimming removes exactly the Z. |
| Timestamps.UntrimmedOrderIff | internal/events/outbox.go:114-125 | With the Z left on, the comparison is chronological exactly when neither trimmed time is a proper prefix of the other. |
| Timestamps.WholeSecondsSortLate | internal/events/outbox.go:267-269 | A whole second sorts after every fraction that follows it. |
| Timestamps.DueWithinASecond | internal/events/outbox.go:109-125 | ListDue never lists an event a full second early nor misses one a full second overdue. |
| PipeRelay.RendezvousGuarantees | internal/piperelay/coordinator.go:153-461 | Every session grants at most one receiver and one sender, is closed exactly once after leaving the table, and while in it is neither burned nor out of attempts. |
| PipeRelay.Coordinator.Init | internal/piperelay/coordinator.go:153-200 | Adds one session under a free code, never beyond the cap; refusals are exact and change nothing. |
| PipeRelay.Coordinator.ConnectReceiver | internal/piperelay/coordinator.go:237-261 | The first receiver gets the session, every other is refused, and a burned session is never met. |
| PipeRelay.Coordinator.ConnectSender | internal/piperelay/coordinator.go:302-328 | The first sender gets the session; a refused sender has still replaced the metadata. |
| PipeRelay.Coordinator.CloseSession | internal/piperelay/coordinator.go:263-270 | A leaving receiver closes its own session, once. |
| PipeRelay.Coordinator.BurnSession | internal/piperelay/coordinator.go:397-401 | Takes out whatever session the code names now. |
| PipeRelay.Coordinator.Remove | internal/piperelay/coordinator.go:403-415 | A removed session is closed, by this removal unless already. |
| PipeRelay.Coordinator.RecordFailedAttempt | internal/piperelay/coordinator.go:363-388 | The third failure burns and removes the session at once. |
| PipeRelay.Coordinator.Burn | internal/piperelay/coordinator.go:378-384 | A burned session is closed and out of the table in the same critical section. |
| PipeRelay.Coordinator.CleanExpired | internal/piperelay/coordinator.go:432-441 | Removes and closes exactly the expired sessions. |
| PipeRelay.Coordinator.Close | internal/piperelay/coordinator.go:444-461 | The first call empties the table, and every session ever created has then been closed exactly once; a later call leaves the table alone. |
| PipeRelay.RemovalKeepsCap | internal/piperelay/coordinator.go:403-415 | Removals keep the table within the cap. |

## Left out

- HTTP routing, JSON and base64 decoding, error mapping: plumbing; inputs arrive decoded, and whether an envelope or an age field is well formed is given.
- S3, NATS and SQLite drivers, presigning and spool files: foreign calls, kept only as the contracts above.
- Cryptography and key generation: outside the repository.
- Telemetry, tracing and their counters; `view_count` and `updated_at`, which nothing decides on.
- Schema migrations and rows written by older versions (secrets without a management record, receipts of other worker versions).
- CLI, terminal, file placement and the Svelte interface; of the web client only attempt inspection and cancellation.
- The copies semaphore and the timeouts of single network calls: they delay steps and decide nothing.
- The byte contents streamed through the relay, its waiting and timing out: they end in the modelled close and burn steps.
- `NormalizeCode`, `WaitReceiver`, client address selection for the limiter: local and easy.
- RequestStore.Store.Create: takes the fresh id as a parameter instead of drawing it.
- TokenBucket.WindowBound: does not model floating-point rounding of the budget.
