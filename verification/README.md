# Verification model of SINEDIS Bitrix24 Automation

The application keeps three transactional protocols in one PostgreSQL database. This project models each of them as
atomic steps, one per database transaction, one per remote reply and one per clock movement, taken by any number of
actors in any order, and proves what holds over whole runs.

* **The durable job queue** (`JobModel`, `JobChange`, `JobRepository`, `JobIntake`, `JobProcessor`, `JobOutcome`, `JobQueue`, `JobLedger`,
  `JobLease`, `JobPolling`, `JobCheckpoint`, `JobDelivery`, `JobWorker`). Callbacks become rows; workers claim due rows
  in batches under a lease, load them, talk to the portal and write the outcome back; stale leases are recovered. The
  table and its transactions are a class with loops (`JobRepository.AutomationJobRepository`), specified by functions on
  tables; the transition system `JobQueue` is built from the same functions, and `Projection` reduces every event to at
  most one guarded move of each row. `JobChange` and `JobOutcome` say the same column by column: what each transaction
  does to its row, and what a `process` call leaves in it, reply by reply. `JobWorker` holds the processor and the worker loop in their own imperative form and shows that an
  uninterrupted `process` call, a turn of the loop and a whole log of turns are runs of the transition system.
* **Button launches** (`LaunchStore`, `LaunchProtocol`). A launch is reserved under the portal lock, committed, started
  remotely outside any lock, and its result committed later, while administrators release and reconfigure.
* **The portal's OAuth tokens** (`PortalStore`, `PortalProtocol`). Refreshes are coalesced by a row lock and a re-check
  and interleave with forced refreshes, installs, uninstalls and authentication errors. The refresh grant is section 6
  of RFC 6749.

Around them: retry delays (`Backoff`), response classification and Retry-After (`RestClient`, section 10.2.3 of
RFC 9110), and the two parsers of bracket notation (`BracketNotation`).

`dafny verify dfyconfig.toml` checks the whole project.

## Hypotheses

Every write-back of the original is guarded only by `status == "processing"`, not by the lease owner. The modules keep
the resulting split visible.

* `JobLedger` and `JobPolling` assume nothing about the workers: their theorems hold for stale workers, crashes and
  recoveries at any point. That includes the termination of all three robots.
* `JobLease` assumes `Leased`, for the one job in question: what a worker writes to the row, it writes as the row's
  holder. Workers that lost the row may still load it, make their remote calls and report without effect. Under it a
  field wait has a tenfold smaller bound and no job is stranded; `DeadEndArises` says exactly which event strands a job
  without it, and `DeadEndExists` gives such a run of the original's guards.
* `JobCheckpoint` records every application call when it goes out and when it ends. Its theorems assume `Prompt`, which
  looks at the state before each event: no call goes out or settles while a result is stored or about to be, the worker
  about to store it does not crash, and it saves while the row is processing. `NeverBrokenIffPrompt` shows that the
  checkpoint is kept exactly in those runs; `HeldCallsArePrompt` shows that a lease kept from the call to its checkpoint
  is enough. Write-backs under the lease alone are not: `CrashRepeatsTheCall` and `QueuedJobRepeatsTheCall` issue the call
  again after it settled, and in `SlowCallSettlesTwice` two calls settle.
* `JobDelivery` does the same for bizproc.event.send of all three robots, from the confirmation to the completed row;
  `CrashRepeatsTheSend` is a run that sends a confirmed event again.
* `LaunchProtocol` assumes `Attentive` for exclusion: no reservation overlooks an open launch. `NeverTwoOpenIffAttentive`
  shows that this is exactly when at most one launch per button and deal is open. It holds when `created_at` is assigned
  in reservation order (`OrderedIsAttentive`). The column defaults to the start time of the transaction, which the
  original opens before it takes the portal lock, so the order can be lost. Then two timely starts can be in flight at
  once, the earlier hidden behind a record created later: `OverlapIsHidden` says that every overlap has this form, and
  `DisorderBreaksExclusion` for which created_at of the two it occurs. This is weaker than the protection that
  docs/WORKFLOW_BUTTONS.md describes.
* `Timely` says that a remote start is over within 300 seconds of `created_at`. Counted from the reservation the same 300
  seconds are not enough, exactly when the record's transaction was older than its reservation
  (`ReservationTimingCanOverlap`); the cooldown between reservations fails under the same condition
  (`ReservationsCanCrowd`).
* `PortalProtocol` assumes for coalescing that no token is rejected and that every stored grant lives longer than the skew.
* All clocks are one non-decreasing clock. Instants are real numbers of seconds.

## Model

| member | source | states |
|---|---|---|
| Backoff.DelayBounds | app/jobs/processor.py:42-47 | every retry delay lies between the base and the maximum, for any attempt number and any random value |
| Backoff.DelayMonotone | app/jobs/processor.py:42-47 | for one random value a later attempt never waits less |
| Backoff.WaitsDouble | app/jobs/processor.py:46-47 | without jitter the first wait is the base and each later one base * 2^n, twice the one before, up to the maximum |
| Backoff.JitterAdds | app/jobs/processor.py:47 | the random value, clamped to [0, 1], adds its share of the jitter, up to the maximum |
| Backoff.RetryDelayIsWait | app/jobs/processor.py:42-47 | every delay is the closed formula min(max, min(max, base * 2^(attempts - 1)) + share * jitter) |
| Backoff.DoubledIsPower | app/jobs/processor.py:46 | the doubling used in the bounds is multiplication by a power of two |
| Backoff.TotalDelayLinear | app/jobs/processor.py:42-47 | n retries wait at least n bases and at most n maxima in total |
| Backoff.TotalDelayGeometric | app/jobs/processor.py:42-47 | n retries wait at most base * (2^n - 1) + n * jitter in total |
| Backoff.RetryAtIsLeast | app/jobs/processor.py:50-72 | the retry time is the least instant that honours the exact wait, a non-negative Retry-After and the operating reset |
| Backoff.RetryAtWaits | app/jobs/processor.py:50-72 | it is one of those three, the latest |
| JobModel.MoveKeepsRow | app/jobs/repository.py:66-71 | every legal row change keeps lease coupling, the attempt bounds, the due time, the job's identity and its first start, and none applies to an ended row |
| JobModel.MoveLedger | app/jobs/repository.py:106-124 | attempts moves by one on a claim and back by one on a poll; attempts less the current holding counts retries and recoveries |
| JobModel.MoveRank | app/jobs/repository.py:159-190 | a measure on rows that every status change but a poll strictly lowers |
| JobRepository.AutomationJobRepository.CreateIdempotent | app/jobs/repository.py:25-46 | inserts exactly the given row, and only when no row has the same portal and token; either way the returned job is the only holder of the key |
| JobRepository.AutomationJobRepository.ClaimDueJobs | app/jobs/repository.py:48-72 | the batch is the first `limit` due rows that nobody holds, by run_at and then created_at, each once; exactly those rows are leased, with every column stated |
| JobRepository.AutomationJobRepository.RecoverStaleJobs | app/jobs/repository.py:159-190 | exactly the processing rows whose lease is older than the timeout go back to the queue at once, or fail without budget, and are counted |
| JobRepository.AutomationJobRepository.SchedulePoll | app/jobs/repository.py:106-124 | reschedules a processing row, gives the attempt back, clears the error and stores the payload; touches nothing else |
| JobRepository.AutomationJobRepository.ScheduleRetry | app/jobs/repository.py:96-104 | reschedules a processing row with its error and keeps the attempt; touches nothing else |
| JobRepository.AutomationJobRepository.MarkCompleted | app/jobs/repository.py:83-94 | completes a processing row with its time and return values and clears the error; touches nothing else |
| JobRepository.AutomationJobRepository.MarkFailed | app/jobs/repository.py:132-139 | fails a processing row with its error; touches nothing else |
| JobRepository.AutomationJobRepository.MarkExpired | app/jobs/repository.py:141-148 | expires a processing row with its error; touches nothing else |
| JobRepository.AutomationJobRepository.SaveProcessingResult | app/jobs/repository.py:126-130 | stores payload and return values of a processing row and keeps its lease; touches nothing else |
| JobRepository.AutomationJobRepository.Write | app/jobs/repository.py:150-157 | a write-back takes effect exactly when the row is processing, and says so |
| JobRepository.AutomationJobRepository.GetProcessingJob | app/jobs/repository.py:74-81 | returns the row exactly when it is processing |
| JobIntake.IntakeService.Create | app/jobs/service.py:29-69 | refuses callbacks whose own portal is unknown, inactive or unproven, without effect; otherwise inserts one pending job per event token, with payload, due time and budget stated for each robot |
| JobProcessor.ResumeIsReportable | app/jobs/processor.py:466-477 | a pause that resumes after its due time reports at least the requested delay |
| JobProcessor.RetryMoveOk | app/jobs/processor.py:436-455 | a retry is scheduled only with budget left in the snapshot, and not before the lease or the due time |
| JobProcessor.AfterRequestOk | app/jobs/processor.py:176-223 | the application call reaches the checkpoint exactly when its reply settles it, is retried exactly on throttling or a temporary OAuth failure within budget, and otherwise escapes |
| JobOutcome.SettledValuesMean | app/jobs/processor.py:181-223 | which replies settle the call, and with which values each |
| JobProcessor.AfterCheckOk | app/jobs/processor.py:244-324 | a poll is scheduled exactly when the field is empty before the deadline, a full interval on; a timeout or the field's value is delivered exactly otherwise |
| JobProcessor.AfterSubscriptionOk | app/jobs/processor.py:335-365 | a subscription job completes exactly when its event was confirmed, with the values sent, and is retried exactly on the five passing failures within budget |
| JobProcessor.AfterPauseOk | app/jobs/processor.py:118-167 | a pause completes exactly when its event was confirmed, is retried exactly on the five passing failures within budget, and expires exactly on ACCESS_DENIED without an earlier unknown outcome |
| JobQueue.Projection | app/jobs/repository.py:150-157 | every event acts on an existing row as at most one guarded move and removes no row |
| JobQueue.MoveIsLegal | app/jobs/processor.py:436-463 | whatever a worker writes, stale or not, fits the row it is written to |
| JobQueue.RunIsSound | app/models/job.py:46-60 | every interleaving keeps every row and every worker's snapshot sound |
| JobLedger.AttemptLedger | app/jobs/repository.py:48-72 | attempts equals retries plus recoveries plus the current or final holding, and claims less polls; it stays within 0 and max_attempts |
| JobLedger.PollNeverClips | app/jobs/repository.py:119 | the clip of attempts at zero never takes effect |
| JobLedger.StatusChangesAreBounded | app/jobs/repository.py:150-190 | a row changes status at most 21 times plus twice per poll, in any run |
| JobLedger.PauseAndRestTerminate | app/jobs/service.py:53-69 | pauses and REST requests are claimed at most ten times and change status at most 21 times, in any run |
| JobLedger.PauseIsNeverShort | app/jobs/processor.py:116-117 | in every run a pause neither becomes due, nor is held, nor resumes before its due time, and reports at least the requested delay |
| JobLedger.LeaseCoupling | app/jobs/repository.py:66-71 | locked_at and locked_by are set exactly while the row is processing; started_at is set once it left pending |
| JobLedger.EndedRowsAreFinal | app/jobs/repository.py:150-157 | rows persist, started_at never changes once set, and ended rows never change again |
| JobLedger.CompletedMeansConfirmed | app/jobs/processor.py:335-365 | a completed row stores the return values of a delivery that the portal confirmed |
| JobLedger.OneClaimer | app/jobs/repository.py:63-71 | a processing row is leased to the one worker that made the latest claim on it |
| JobLedger.KeysStayUnique | app/models/job.py:55-57 | in every run each (portal, event token) key belongs to at most one job |
| JobLedger.DuplicateIntake | app/jobs/repository.py:25-46 | a repeated callback, however late, changes nothing and finds the same job |
| JobLedger.OneProcessPerClaim | app/jobs/worker.py:52-71 | a worker processes a job at most once per claim it made |
| JobLease.RunIsLeaseSound | app/jobs/processor.py:395-405 | when write-backs take effect only under the lease, a holder's snapshot agrees with the row, and no waiting row is out of budget |
| JobLease.NoDeadEnds | app/jobs/repository.py:56-60 | under the lease a free worker can claim a waiting job exactly from run_at on, and a recovery takes a processing job out of processing exactly once its lease is stale |
| JobLease.DeadEndArises | app/jobs/processor.py:436-455 | exactly when an event strands a row: a retry reported on a row whose budget has been used up meanwhile |
| JobLease.DeadEndNeedsStaleSnapshot | app/jobs/processor.py:439 | the worker that strands a row acts on a snapshot from an earlier claim |
| JobLease.DeadEndIsForever | app/jobs/repository.py:56-60 | a stranded row never changes again |
| JobLease.DeadEndExists | app/jobs/repository.py:154 | a concrete run of the original's guards strands a job |
| JobLease.PollsStaySpaced | app/jobs/processor.py:266-274 | under the lease each poll pushes run_at a whole interval on, none is scheduled past the deadline, and checks_count counts them |
| JobLease.FieldWaitTerminates | app/jobs/processor.py:244-283 | under the lease a field wait polls at most ceil(timeout / interval) times and is claimed at most ten times more |
| JobPolling.FieldWaitTerminatesAnyway | app/jobs/processor.py:244-283 | in every run, stale workers included, a field wait polls at most 10 * ceil(timeout / interval) times and is claimed at most ten times more |
| JobPolling.PollFits | app/jobs/processor.py:266-274 | whoever polls has made fewer polls in a row than fit before the deadline, counted from the last fresh start of the job |
| JobPolling.TokensAreHeld | app/jobs/worker.py:58-71 | a worker has a job queued or in hand at most once, and only for a claim on which it has not polled yet |
| JobCheckpoint.CallsOnlyWhileUnsettled | app/jobs/processor.py:175-181 | unless an event cuts in, an application call goes out only before any has settled and before anything was sent |
| JobCheckpoint.CheckpointHolds | app/jobs/processor.py:175-242 | when no event cuts in, after a call has settled none is issued and none settles; every delivery that goes out, or is in a worker's hands, and the completed row carry the one settled result |
| JobCheckpoint.CheckpointBreaks | app/jobs/repository.py:126-130 | one event loses a settled result for good, or issues or settles a call after a settled one, if and only if it cuts in |
| JobCheckpoint.NeverBrokenIffPrompt | app/jobs/processor.py:175-242 | over whole runs the checkpoint is kept if and only if no event cuts in |
| JobCheckpoint.HeldCallsArePrompt | app/jobs/processor.py:175-210 | a lease kept from the call to its checkpoint, without a crash in between, keeps every event from cutting in |
| JobCheckpoint.CrashRepeatsTheCall | app/jobs/processor.py:206-210 | after a crash between the settled call and its checkpoint a later claim issues the call again |
| JobCheckpoint.QueuedJobRepeatsTheCall | app/jobs/processor.py:395-405 | without any crash, a worker whose lease ran out while the job was queued loads the row before the next holder's checkpoint and issues the call again |
| JobCheckpoint.SlowCallSettlesTwice | app/jobs/processor.py:181-205 | a call that outlives its lease can settle after the call of the next claim has settled |
| JobDelivery.DeliveredOnce | app/jobs/processor.py:335-365 | when no event cuts in, nothing is sent and nothing else is confirmed after a confirmed delivery, and a completed job was confirmed exactly once |
| JobDelivery.DeliveryBreaks | app/jobs/repository.py:83-94 | one event sends or confirms again after a confirmation, or loses it for good, if and only if it cuts in |
| JobDelivery.NeverBrokenIffPrompt | app/jobs/processor.py:335-365 | over whole runs a delivery is neither repeated nor lost if and only if no event cuts in |
| JobDelivery.HeldSendsArePrompt | app/jobs/processor.py:118-167 | a lease kept from the send to its report, without a crash in between, keeps every event from cutting in |
| JobDelivery.CrashRepeatsTheSend | app/jobs/processor.py:362-365 | after a crash between a confirmed delivery and its report a later claim sends the event again |
| JobWorker.EpisodeIsRun | app/jobs/processor.py:99-167 | an uninterrupted process call is a run of the transition system with the same final table |
| JobWorker.ProcessIsRun | app/jobs/processor.py:395-405 | so is a whole process call from the load of the row on |
| JobWorker.AutomationJobProcessor.RetryJob | app/jobs/processor.py:436-455 | with budget left in the loaded row the job comes back after exactly the wait and the hints, with its error; without, it fails |
| JobWorker.AutomationJobProcessor.DeliverSubscription | app/jobs/processor.py:335-365 | completes on a confirmed event, backs off on the five passing failures and fails on all others, column by column; also the table of the delivery events |
| JobWorker.AutomationJobProcessor.DeliverPause | app/jobs/processor.py:118-167 | the outcome of a pause's delivery for each reply, column by column |
| JobWorker.AutomationJobProcessor.ProcessRestRequest | app/jobs/processor.py:169-242 | a checkpointed job is only delivered; otherwise a settled call is saved with its values and delivered, a passing failure backs off and any other leaves the row alone |
| JobWorker.AutomationJobProcessor.ProcessWaitField | app/jobs/processor.py:244-324 | an empty field before the deadline is polled again an interval later, with one more check and the attempt back; after it a timeout is delivered; a filled field delivers its value; each failure backs off, fails or delivers an error |
| JobWorker.AutomationJobProcessor.ProcessPause | app/jobs/processor.py:99-167 | delivers the requested and the really passed seconds |
| JobWorker.AutomationJobProcessor.Process | app/jobs/processor.py:99-167 | runs the robot of a processing row, fails unusable data, and leaves every other row alone |
| JobWorker.HandleBatch | app/jobs/worker.py:58-71 | claimed jobs are processed in order, once each, up to the point where a shutdown is noticed |
| JobWorker.WorkerLoop | app/jobs/worker.py:41-75 | each turn recovers if due and, unless a shutdown is noticed, claims and processes; recovery keeps its pace; only the last batch can be cut short; `once` is one turn |
| JobWorker.RecoveriesAreSpaced | app/jobs/worker.py:44-49 | any two recoveries of one worker are at least the interval apart |
| JobWorker.RecoveryComesInTime | app/jobs/worker.py:44-49 | a turn without recovery comes less than the interval after a turn with one |
| JobWorker.TurnIsRun | app/jobs/worker.py:41-75 | a turn of a free worker is a run of the transition system with the same final table |
| JobWorker.LogIsRun | app/jobs/worker.py:41-75 | so is everything the loop logs, turn after turn |
| LaunchStore.WorkflowTables.Reserve | app/api/workflow_buttons.py:290-342 | refuses exactly without a button, without permission (enabled, and administrator or on the list), for a foreign use of the request id, and for a launch that still blocks; otherwise returns the earlier record or appends exactly the reserved one |
| LaunchStore.WorkflowTables.CommitOutcome | app/api/workflow_buttons.py:353-365 | a workflow id of 1 to 100 characters makes the launch blocked or started as configured, anything else unknown; nothing else changes, whatever was released meanwhile |
| LaunchStore.WorkflowTables.Release | app/api/workflow_buttons.py:399-416 | refuses exactly non-administrators, unknown or foreign records, and records younger than five minutes; otherwise stamps the release |
| LaunchStore.WorkflowTables.Save | app/api/workflow_buttons.py:258-276 | only administrators configure a field, and only one that the validation found to be the application's; every refusal leaves the buttons alone |
| LaunchStore.VerdictMeans | app/api/workflow_buttons.py:165-191 | which lists of fields make a field the application's, with and without an answering registry |
| LaunchStore.SaveThenFind | app/api/workflow_buttons.py:266-276 | saving configures exactly the named field and leaves every other lookup unchanged |
| LaunchProtocol.OpenPairArises | app/api/workflow_buttons.py:319-341 | one event opens a second launch of a button and deal if and only if it is a reservation that overlooks an open one |
| LaunchProtocol.OverlookedIsHidden | app/api/workflow_buttons.py:319-330 | an open launch is overlooked only behind a settled one that was created no earlier |
| LaunchProtocol.NeverTwoOpenIffAttentive | app/api/workflow_buttons.py:319-341 | over whole runs two launches are never open at once if and only if no reservation overlooks an open one |
| LaunchProtocol.OrderedIsAttentive | app/models/base.py:26-28 | created_at in reservation order is enough for that |
| LaunchProtocol.AtMostOneOpenLaunch | app/api/workflow_buttons.py:319-341 | then for each button and deal every launch but the newest is started or released, so at most one is open |
| LaunchProtocol.OverlapMeansReleased | app/api/workflow_buttons.py:403-415 | with no hypothesis on timing, a start in flight beside a later launch was released at least 300 s after its record was created |
| LaunchProtocol.StartsExclude | app/api/workflow_buttons.py:319-366 | with starts over within 300 s of created_at no two remote starts are in flight for one button and deal |
| LaunchProtocol.StartsExcludeSinceReservation | app/api/workflow_buttons.py:410-415 | with starts over within 300 s of their reservation two overlap only if the earlier transaction began before its reservation |
| LaunchProtocol.ReservationTimingCanOverlap | app/api/workflow_buttons.py:410-415 | for a record created and reserved at given instants some ordered run, with all starts over within 300 s of their reservation, has two in flight if and only if it was created before it was reserved |
| LaunchProtocol.OverlapIsHidden | app/api/workflow_buttons.py:319-330 | of two timely starts in flight for one target, in any order of creation, the earlier is hidden behind a record created no earlier and less than 290 s later |
| LaunchProtocol.DisorderBreaksExclusion | app/models/base.py:26-28 | some run with timely starts has two in flight, the earlier created at one instant and hidden behind a record created at another, if and only if the first is no later and its 300 s are not over when the other has cooled down for the least cooldown |
| LaunchProtocol.LaunchesAreSpaced | app/api/workflow_buttons.py:319-330 | in every run, with no order assumed, every launch is reserved at least its own cooldown, never under 10 s, after the creation of every earlier launch of its button and deal |
| LaunchProtocol.ReservationsCanCrowd | app/api/workflow_buttons.py:325-329 | for a record created and reserved at given instants some ordered, timely run reserves the next within the cooldown of that reservation if and only if it was created before it was reserved |
| LaunchProtocol.OneStartPerRecord | app/api/workflow_buttons.py:340-352 | each record gets at most one remote start, none before it is committed |
| LaunchProtocol.LaunchesArePermitted | app/api/workflow_buttons.py:160-162 | in every run each record's user was an administrator or on the list in force when it was reserved, and template and blocking are those of that moment |
| LaunchProtocol.StampIsCurrent | app/api/workflow_buttons.py:290-304 | what is kept beside a record are the settings that its button had |
| LaunchProtocol.RecordsPersist | app/api/workflow_buttons.py:342-366 | records are never lost and a committed result is final |
| LaunchProtocol.RepeatReturnsTheRecord | app/api/workflow_buttons.py:306-318 | a used request id never reserves again: the same use returns the record, any other is refused, nothing changes |
| PortalStore.ValidGrantExpires | app/bitrix/oauth.py:72-78 | a validated grant expires at its absolute instant if it names one, otherwise its lifetime after now |
| PortalStore.PortalRow.RefreshAccessToken | app/bitrix/oauth.py:259-310 | unforced, a good token is handed out unasked; forced, or without one, the server is asked and the whole pair replaced, the error marked, or the transaction rolled back, each case with every column |
| PortalStore.PortalRow.GetAccessToken | app/bitrix/oauth.py:244-257 | hands out a good token as it is and asks the server only when it is not good, neither before nor under the lock |
| PortalStore.PortalRow.RepeatCall | app/bitrix/oauth.py:312-326 | the repeat after a rejected token uses the token that a forced refresh brought, and marks the portal when that is rejected too |
| PortalStore.PortalRow.MarkAuthError | app/bitrix/oauth.py:343-347 | marks an existing portal |
| PortalStore.PortalRow.Install | app/api/installation.py:69-105 | every column of the portal comes from the installed grant, and it is active |
| PortalStore.PortalRow.Uninstall | app/api/installation.py:120-139 | deactivates only with the stored application token |
| PortalProtocol.RunKeepsLineage | app/bitrix/oauth.py:263-305 | tokens, expiry and both endpoints always come from one grant; each refresh spends the refresh token of the grant it replaces; one caller at a time holds the row |
| PortalProtocol.NeverMissing | app/bitrix/oauth.py:279-281 | the branch for missing refresh credentials is never reached |
| PortalProtocol.StatusChanges | app/bitrix/oauth.py:290-304 | which event may change the status to what |
| PortalProtocol.OnlyInstallReactivates | app/api/installation.py:88-105 | between a non-active and a later active state there is an install |
| PortalProtocol.RepeatUsesNewToken | app/bitrix/oauth.py:312-326 | in every run the repeat after a rejected token uses one that a refresh has stored since the rejection |
| PortalProtocol.RepeatHappens | app/bitrix/oauth.py:312-326 | a run in which a forced caller gets a new token although the stored one was still good |
| PortalProtocol.RejectionForces | app/bitrix/oauth.py:316-326 | a first rejection asks for a forced refresh, the rejection of what that brought marks the portal |
| PortalProtocol.ForcedCallerSpends | app/bitrix/oauth.py:272-286 | a forced caller of an active portal always spends the refresh token |
| PortalProtocol.LookMeans | app/bitrix/oauth.py:244-257 | the unlocked look hands out a good token and sends everybody else to the lock |
| PortalProtocol.RefreshIsLate | app/bitrix/oauth.py:269-278 | a refresh is stored only after the previous grant has come within the skew of its expiry |
| PortalProtocol.RefreshesCoalesce | app/bitrix/oauth.py:244-305 | with any number of callers, successful refreshes are at least the least lifetime less the skew apart, over any number of them |
| PortalProtocol.RefreshesInWindow | app/bitrix/oauth.py:244-305 | at most floor(W / (L - skew)) + 1 successful refreshes fall into a window W |
| PortalProtocol.HandedTokensAreFresh | app/bitrix/oauth.py:244-257 | every token that get_access_token returns outlives its check by more than the skew |
| RestClient.WhichResponsesRepeat | app/bitrix/client.py:226-338 | exactly which responses leave an application call unsettled, so that a later claim may issue it again |
| RestClient.WhichResponsesAnswer | app/bitrix/client.py:226-253 | exactly which responses answer a call |
| RestClient.ClassificationIsExact | app/bitrix/client.py:226-338 | which response becomes which reply: the listed codes in any letter case, then the status, then the content |
| RestClient.HintIsExact | app/bitrix/client.py:279-316 | a throttled or temporary reply carries the parsed header and the reset that its error names |
| RestClient.RetryAfterIsExact | app/bitrix/client.py:93-107 | seconds are taken as they are, a past date is zero, a future one is never early and less than a second late, and garbage is no hint |
| RestClient.HintedJobWaits | app/jobs/processor.py:50-72 | a job rescheduled after a throttled or temporary failure runs neither before what Retry-After asks, in seconds or as a date, nor before the named reset |
| BracketNotation.ParseJoin | app/robots/payload.py:183-184 | splitting a joined key gives group and child back, even when the child contains brackets |
| BracketNotation.CopyRobot | app/robots/payload.py:176-191 | the robot parser's loop, with its recursion into nested mappings |
| BracketNotation.RobotAppend | app/robots/payload.py:176-191 | bracket keys nest inside nested mappings too, and a mapping's own key stands as it is |
| BracketNotation.PutBracketed | app/robots/payload.py:183-189 | a key group[child] files its text under an accepted group, unless a text has taken the name, and stays a plain key otherwise |
| BracketNotation.CopyLifecycle | app/bitrix/payload.py:46-59 | the lifecycle parser's loop |
| BracketNotation.LifecycleBracketed | app/bitrix/payload.py:46-59 | any value under a non-empty group and child is filed there, a mapping as it is |
| BracketNotation.ParsersOnFlatBodies | app/robots/payload.py:176-191 | on flat bodies both parsers agree up to the groups they accept |
| BracketNotation.CopyIsExpressible | app/bitrix/payload.py:46-59 | whatever the flat body, the result has only non-empty accepted groups and no text key that reads as one |
| BracketNotation.RoundTrip | app/robots/payload.py:176-191 | nesting the flat pairs of a two-level document in any order gives it back if and only if the document is expressible |

## Left out

- HTTP transport, routing, SQL text and sessions: each transaction is its atomic effect and guard.
- JobWorker.WorkerLoop: has the table to itself, because a method cannot be interrupted; what other workers do in between is in `JobQueue`, and `LogIsRun` connects the two.
- Row locks of the job table: other transactions appear as the set of rows a claim skips; a whole claim is one step.
- Encryption, HMAC and hashing: tokens are in the clear and the event-token fingerprint is the token.
- JSONPath evaluation and JSON text: a REST result is an uninterpreted value; job ids inside return values are not repeated.
- Notifications: best effort and without effect on any row; a field wait may notify again on a delivery retry.
- Reading an HTTP-date or a number out of header text, and non-ASCII upper-casing of error codes.
- Microsecond rounding of timestamps and floating-point rounding of delays.
- `call_portal` as seen from a job: one call in the queue model stands for the whole `call_portal`, whose single repeat after a rejected token is in `PortalProtocol`.
- The domain column, labels, colours and parameters of buttons, and the journal.
- The `cancelled` job status, which no code enters.
- Normalizers of single payload fields, recipients, registration, health checks, logging and the web pages.
