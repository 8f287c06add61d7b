# IoT backend: verified models of its stateful cores

Five parts of the system keep state that no single function sees whole. Each is modelled here as the
code does it, and what it promises is proved for every run.

- **Home MQTT jobs** (`HomeNames`, `Dynsec`, `DynsecClient`, `HomeJobs`, `HomeJobsInvariant`,
  `HomeJobsSteps`, `HomeJobsRuns`, `HomeExamples`, `FairClaims`, `HomeProgress`, `HomeTopics`, `HomeLaws`, `JobWorker`). A database queue gives homes
  their broker account and takes it away again. Each database transaction and each broker call is one step, so a
  deletion can arrive between any two of them; messages may be refused, half carried out or unanswered,
  transactions may fail, and the server may crash. One worker process: it waits for its batch before it
  claims again.
- **Staged OTA rollouts** (`BatchAssignment`, `Rollout`, `RolloutWorld`, `RolloutRuns`, `RolloutReports`,
  `RolloutHistory`, `RolloutStall`, `RolloutExamples`, `RolloutLaws`, `OtaService`). Batches, timed
  dispatches, device reports, cancellation and manual triggers, with retained commands that may fail to be
  published or cleared. Each handler is one step.
- **BLE provisioning** (`ChunkPacket`, `Primitives`, `Envelope`, `ChunkReceiver`, `PublicKeyPull`, `SecureBle`,
  `Provisioning`, `BleLaws`). The web page's chunker, the firmware's reassembly, the envelope's writer and
  reader, and the public-key pull, with the 16-bit and 32-bit arithmetic written out.
- **OAuth token cache** (`TokenExpiry`, `TokenStore`, `TokenFinality`, `TokenExamples`,
  `TokenLaws`, `PostgresTokenStore`). Rows with a cache in front that checks nothing and is safe only because
  of its lifetimes.
- **Load pacer** (`PhasePacer`). A piecewise quadratic hit curve and the search that inverts it.

In each part a value model says what every operation does and carries the proofs over runs; a class or
method in the form of the source (`JobWorker.Worker`, `DynsecClient.Client`, `OtaService.Service`,
`SecureBle.SecureBle`, `PostgresTokenStore.PostgresTokenStore`, `PhasePacer.Pacer`) is proved to do exactly that.
The `Laws` modules and `HomeTopics` say what each operation does in terms of rows, entries, topics and octets
alone, so that the definitions the other theorems speak of are tied to what an observer sees. `Arithmetic`,
`Sets`, `Strings` and `Wrappers` hold what several parts share. Fields called history (`requested`, `issued`,
`latest`, `stranded`, `requeues`, `exposed`, `dispatches`, `lastBatch`, `firstDispatch`, the receiver's `log`)
record the past so that properties can speak of it; no decision reads them.

What becomes of a message, a publish, a read or a transaction is a parameter of the step, and every
theorem holds for all its values. Random suffixes, passwords, keys and nonces, the clock, the sort key and
the cryptographic primitives are parameters too. `dafny verify dfyconfig.toml` checks the project.

Eight expectations one might have of the code are false. For each, the condition under which it fails is
proved in both directions, and a run or input is given that meets it:

- A rollout that still has pending devices is not always dispatched again. In every reachable state a step takes
  it off the schedule exactly if it is a report of the target version by a device that is open in it
  (`RolloutStall.StuckByReportOnly`, over runs `RolloutStall.ScheduledUntilTargetReport`; reached in
  `RolloutExamples.StuckIsReachable`), and nothing puts it back (`RolloutStall.OffScheduleForGood`).
- A rollout's command at the broker does not always have a row that is sent or updated. It has a pending one
  exactly after a publish that took effect although it was reported as failed
  (`RolloutHistory.LeavesPendingExactly`, over runs `RolloutHistory.PendingCommands`; reached in
  `RolloutExamples.PendingCommandIsReachable`).
- A created token is not always what a lookup returns: an older one is, if the cache write was lost
  (`TokenFinality.CreateThenGet`; reached in `TokenExamples.StaleEntryIsServed`).
- A removed token can be found again, in three ways (`TokenFinality.RemovalIsFinalUnless`; reached in
  `TokenExamples.RemovedTokenReturns`, `TokenExamples.RemovedTokenStaysCached` and
  `TokenExamples.UnreadRemovalKeepsToken`), and so can its other credentials
  (`TokenFinality.CredentialsAfterRemoval`, over runs `TokenFinality.RemovedRowsAreGone`; reached in
  `TokenExamples.OtherCredentialReturns`).
- A purged user's token can be found again (`TokenFinality.PurgeIsFinalUnless`, over runs
  `TokenFinality.PurgedUsersAreServed`; reached in `TokenExamples.PurgedUserIsServed`).
- The state "deleting" can be overwritten, by the outcome of a provision that was under way and by nothing else
  (`HomeJobsRuns.LeavesDeleting`; reached in `HomeExamples.ReadyAfterRequestIsReachable`). The deletion itself is
  not lost (`HomeJobsRuns.DeletionIsNeverLost`).
- A provision that has failed for good does not always show at its home. It does not for exactly the
  stranded homes (`HomeJobsRuns.HomeLifeCycle`), and a home becomes stranded exactly if its last attempt could not
  read it (`HomeJobsRuns.StrandedExactly`; reached in `HomeExamples.StrandedIsReachable`).
- The pacer's search does not always end (`PhasePacer.EndsIff`, `PhasePacer.EndsIffPositive`; met by the unset
  configuration, `PhasePacer.UnsetNeverEnds`).

## Model

| member | source | states |
|---|---|---|
| HomeJobsRuns.DeletedHomesHaveNoAccess | internal/homejobs/homejobs.go:269-335 | In every reachable state a soft-deleted home has neither its client nor its role at the broker, however deletions, provisioning under way, lost replies, crashes and stale claims interleave |
| HomeJobsRuns.DeletionIsNeverLost | internal/deletion/deletion.go:17-40 | From the moment a deletion is requested, at every later state the home is soft-deleted or its one job row is a cleanup that is pending or running, whatever a stale provision still writes |
| HomeJobsRuns.HomeLifeCycle | internal/homejobs/homejobs.go:226-267 | A home nobody asked to delete is ready with no row and its client bound to exactly its role, failed with one failed provision row, or pending with one provision row that is pending or running; the one exception, a pending home with a failed row, is exactly a home stranded by an unreadable last attempt |
| HomeJobsRuns.ReadsKeepHomesHonest | internal/homejobs/homejobs.go:341-377 | If every read of a home is answered, no home is ever stranded, so the exception above does not occur |
| HomeJobsRuns.StrandedExactly | internal/homejobs/homejobs.go:341-377 | For every step of every kind: a home joins the stranded ones if and only if the step is the last transaction of a provision whose attempts are used up and which could not read the home |
| HomeJobsRuns.RowsAndAttempts | internal/homejobs/homejobs.go:69-106 | A home has at most one job row, and a provision row's attempts never exceed six plus its stale requeues (strictly less while it is pending) |
| HomeJobsRuns.SixAttempts | internal/homejobs/homejobs.go:341-377 | Without crashes and failing transactions a provision is attempted at most six times, and a pending one still has an attempt left |
| HomeJobsRuns.StaleProvisionOverwrites | internal/homejobs/homejobs.go:249-266 | "Deleting" is not final: exactly which state a provision that was under way writes over it (ready, pending, failed or nothing), and that the cleanup row is untouched by it |
| HomeJobsRuns.LeavesDeleting | internal/homejobs/homejobs.go:249-266 | In every reachable state and for every step: a home marked deleting leaves that state if and only if the step is the last transaction of a provision of that home which got access granted or failed otherwise than by not reading the home; no other step of any kind does it |
| HomeExamples.ReadyAfterRequestIsReachable | internal/homejobs/homejobs.go:226-267 | A run from the empty database - enrol, claim, read, delete, clear, grant, commit - after which the home is ready although its deletion was requested and its cleanup row is waiting |
| HomeExamples.StrandedIsReachable | internal/homejobs/homejobs.go:341-377 | A run from the empty database with six reads that fail, after which the provision row has failed for good and the home is still pending |
| HomeJobsRuns.ProvisionAttemptSucceeds | internal/homejobs/homejobs.go:226-267 | A claimed provision job of a live home, with a broker that answers and does not refuse, ends with the home ready, no row left and its access granted |
| HomeJobsRuns.CleanupAttemptSucceeds | internal/homejobs/homejobs.go:269-335 | A claimed cleanup job with a broker that answers ends with the home soft-deleted, its credentials wiped and its row gone |
| HomeProgress.DeletionCanFinish | internal/homejobs/homejobs.go:126-335 | From every reachable state in which a deletion is requested and not carried out, even if the server crashes right there: there is a run of time passing, stale claims being taken back and the worker's own steps, with at most one claim more than full batches of rows and with every other claimed job failing, after which the home is soft-deleted and wiped |
| HomeProgress.ProvisionCanFinish | internal/homejobs/homejobs.go:126-267 | The same for every reachable home that is pending, not to be deleted and not stranded: it can still become ready and granted |
| HomeProgress.GivenUpForGood | internal/homejobs/homejobs.go:341-377 | A failed or stranded home whose deletion is not requested is not ready at any later moment of any run |
| HomeJobsRuns.RequestsRecorded | internal/deletion/deletion.go:67-71 | Scheduling a list of homes adds exactly the homes in the list to those on record for deletion |
| HomeJobsRuns.DeletionsAreRecorded | internal/enrollment/enrollment.go:378-416 | Asking to delete a home puts it on record at that step; asking to delete a user puts every home of the user that is not soft-deleted on record |
| HomeLaws.UserDeletionExactly | internal/deletion/deletion.go:42-81 | Deleting a user marks every home with that user that is not soft-deleted as deleting, puts it on record and leaves it with exactly one row, a fresh cleanup due after the initial delay; every other home, its record and its rows stay as they are |
| HomeLaws.UserDeletionsOverRuns | internal/deletion/deletion.go:42-81 | The same from every reachable state |
| HomeLaws.HomeDeletionExactly | internal/deletion/deletion.go:17-40 | Deleting a home marks it as deleting unless it is soft-deleted, and leaves it with one fresh cleanup row; no other home or row changes |
| HomeLaws.EnrolmentExactly | internal/enrollment/enrollment.go:498-540 | A new home has its user, its account and one fresh provision row; no other home or row changes |
| HomeLaws.RequeueExactly | internal/homejobs/homejobs.go:157-167 | A row is taken back if and only if it has been running for more than 120 seconds; it is then pending, due now and keeps its attempts |
| HomeLaws.ClaimExactly | internal/homejobs/homejobs.go:169-213 | A row is claimed if and only if it is pending and due and fewer than 128 such rows come before it by due time and id; its attempt is counted and every other row stays as it is |
| HomeLaws.ReadExactly | internal/homejobs/homejobs.go:226-240 | A provision goes on if and only if the home is neither soft-deleted nor deleting and neither credential is blank; it is dropped if and only if the home is one of the former; a cleanup goes on whenever the home was read |
| HomeLaws.ClearExactly | internal/homejobs/homejobs.go:269-300 | Clearing gets on if and only if the broker answers, unless there never was an account to clear, and for a cleanup the devices are cleared as well; then client and role are gone |
| HomeLaws.GrantExactly | internal/homejobs/homejobs.go:245-247 | Granting gets on if and only if the broker answers, refuses none of the six commands and knew neither the client nor the role |
| HomeLaws.HomeAfterAttempt | internal/homejobs/homejobs.go:249-376 | What the last transaction writes to the home: ready, wiped and soft-deleted, deleting, failed from the sixth attempt on, pending before it, or nothing, and that no other home changes |
| HomeLaws.JobAfterAttempt | internal/homejobs/homejobs.go:341-406 | A row is gone after the last transaction unless the attempt failed; a provision's row is then given up from the sixth attempt on, and any other is due again after the retry delay |
| HomeLaws.FailedCommitExactly | internal/homejobs/homejobs.go:301-328 | If that transaction fails, no home and no row changes, and a cleanup is left to be rescheduled |
| HomeJobsRuns.RunRequests | internal/deletion/deletion.go:17-40 | A requested deletion is never taken back in any run |
| FairClaims.BoundedWaiting | internal/homejobs/homejobs.go:169-213 | A due job with k pending rows in front of it: in every run, each claim that neither takes it nor finds it removed has taken 128 rows from in front of it, so there are at most k/128 such claims |
| FairClaims.FullBatchAhead | internal/homejobs/homejobs.go:173-201 | If a due job is passed over, the claim took exactly 128 rows and every one of them was ahead of it in (next_run_at, id) order |
| FairClaims.FirstNSize | internal/homejobs/homejobs.go:173-180 | Ordering the due rows and taking the first n yields exactly n rows whenever n are due |
| FairClaims.StepKeepsPlace | internal/homejobs/homejobs.go:157-167 | No step puts anything in front of a waiting row: reschedules, requeues and new rows all land behind it |
| FairClaims.RetryDelayPositive | internal/homejobs/homejobs.go:420-428 | The retry delay lies between the base delay and its highest multiple, and grows with the attempts |
| HomeLaws.RetryDelayExactly | internal/homejobs/homejobs.go:420-428 | The retry delay is one base delay per attempt, at least one and at most the highest multiple, and grows by one base delay with each attempt up to that |
| HomeJobsSteps.StepKeeps | internal/homejobs/homejobs.go:126-335 | Every step - enrolment, deletion, requeue, claim, read, broker call, commit, failed commit, crash - keeps the invariant on homes, rows, tasks and broker |
| HomeJobsSteps.EnrollKeeps | internal/enrollment/enrollment.go:498-540 | Creating a home with its credentials and provision job in one transaction keeps the invariant |
| HomeJobsSteps.DeleteHomeKeeps | internal/homejobs/homejobs.go:73-78 | Replacing a home's rows by one cleanup row keeps the invariant, also with a task of that home under way |
| HomeJobsSteps.RequeueKeeps | internal/homejobs/homejobs.go:157-167 | Taking back claims older than two minutes keeps the invariant, given that nothing is under way |
| HomeJobsSteps.ClaimKeeps | internal/homejobs/homejobs.go:169-213 | Claiming a batch keeps the invariant: no two tasks of one home, every task's row is its own copy |
| HomeJobsSteps.ClearKeeps | internal/homejobs/homejobs.go:242-244 | Clearing a home's access keeps the invariant of every home, whatever becomes of the message |
| HomeJobsSteps.GrantKeeps | internal/homejobs/homejobs.go:245-247 | Granting a home's access keeps the invariant of every home, whatever becomes of the messages |
| HomeJobsSteps.FinishKeeps | internal/homejobs/homejobs.go:249-266 | The last transaction of a task - ready, deleted, rescheduled, given up or dropped - keeps the invariant |
| HomeJobsInvariant.OneHomeStep | internal/homejobs/homejobs.go:215-224 | A step that concerns one home leaves the invariant of every other home, row and task intact |
| HomeNames.UsernamesDiffer | internal/enrollment/enrollment.go:40-46 | Broker usernames are equal only for the same user, home and suffix, whatever the suffixes are |
| HomeNames.TopicsDiffer | internal/mqtt/dynsec.go:125-127 | Topic patterns are equal only for the same user and home |
| HomeTopics.PatternCoversHome | internal/models/models.go:219-233 | As section 4.7 of MQTT 3.1.1 matches filters: a home's pattern matches a topic of a device - any capability topic, the status topic, the firmware topic - if and only if the device is in this home of this user |
| HomeTopics.GrantedReaches | internal/mqtt/dynsec.go:129-189 | After access is granted the account may send to, receive from and subscribe to a device's topic if and only if the device is in this home of this user |
| HomeTopics.ReadyHomesReachTheirDevices | internal/homejobs/homejobs.go:226-267 | In every run the account of a ready home whose deletion is not requested reaches exactly the topics of the home's own devices, for each of the three kinds of access |
| HomeTopics.DeletedHomesReachNothing | internal/homejobs/homejobs.go:269-335 | In every run a soft-deleted home's account reaches no topic at all |
| HomeTopics.DecimalDenotes | internal/mqtt/dynsec.go:121-127 | Ids stand in names and topics as the decimal numerals of their values, without leading zeroes |
| HomeNames.RoleNamesDiffer | internal/mqtt/dynsec.go:121-123 | Role names are equal only for the same user and home |
| HomeNames.DecimalIsInjective | internal/mqtt/dynsec.go:121-123 | Different ids have different decimal renderings |
| Dynsec.GrantSucceeds | internal/mqtt/dynsec.go:129-189 | Access that is reported as granted is complete: the client has its password and exactly the home's role, the role exactly one rule of each kind, for the home's pattern |
| Dynsec.GrantSucceedsIff | internal/mqtt/dynsec.go:129-189 | Granting succeeds if and only if the broker answers, refuses none of the six commands and knew neither client nor role before |
| Dynsec.CleanupSucceeds | internal/mqtt/dynsec.go:191-212 | For every username, a blank one included: a clean-up succeeds if and only if it is answered, and then the role is gone, and with it the client unless its name is blank, in which case none was asked for |
| Dynsec.CleanupKeepsGone | internal/mqtt/dynsec.go:191-212 | A clean-up never brings a client or role back, answered or not |
| Dynsec.ProvisionTouches | internal/mqtt/dynsec.go:129-189 | Granting, with any part of it carried out or undone, touches only the home's own client and role |
| Dynsec.CleanupTouches | internal/mqtt/dynsec.go:191-212 | A clean-up touches only the home's own client and role |
| Dynsec.OthersUntouched | internal/mqtt/dynsec.go:121-127 | What is done for one home neither restores nor takes away another home's access |
| DynsecClient.Client.SendDynsecCommands | internal/mqtt/dynsec.go:70-107 | The reply is the first error among the responses, and silence if the broker does not answer; the broker's state is that of the commands carried out |
| DynsecClient.Client.ProvisionHomeAccess | internal/mqtt/dynsec.go:129-189 | Runs the grant and, if it fails, both undo messages, exactly as Dynsec describes |
| DynsecClient.Client.CleanupHomeAccess | internal/mqtt/dynsec.go:191-212 | Runs the clean-up, skipping the client if there is no username, and treats "not found" as success |
| JobWorker.Worker.RunOnce | internal/homejobs/homejobs.go:126-155 | A whole round - requeue, claim, process everything claimed - is a run of the modelled steps and leaves nothing under way |
| JobWorker.Worker.ProcessProvisionJob | internal/homejobs/homejobs.go:226-267 | Processing a provision job, through every early return, takes exactly its read, clear, grant and last-transaction steps |
| JobWorker.Worker.ProcessCleanupJob | internal/homejobs/homejobs.go:269-335 | Processing a cleanup job, including the reschedule after a failed commit, takes exactly its steps |
| JobWorker.Worker.RescheduleProvision | internal/homejobs/homejobs.go:341-377 | Six attempts give up on row and home, fewer put the row back in line; homes that are soft-deleted or were not read stay as they are |
| JobWorker.Worker.RescheduleCleanup | internal/homejobs/homejobs.go:379-406 | Puts the row back in line and marks the home deleting, without ever giving up |
| JobWorker.Worker.CommitDeleted | internal/homejobs/homejobs.go:301-334 | Wipes the credentials, soft-deletes the home and removes the row; if that fails, reschedules instead |
| JobWorker.Worker.CommitReady | internal/homejobs/homejobs.go:249-266 | Marks a home that is not soft-deleted ready and removes the row by its id |
| JobWorker.Worker.ClaimJobs | internal/homejobs/homejobs.go:169-213 | Marks the first due rows running, counts the attempt, and hands out copies of the updated rows |
| JobWorker.Worker.RequeueStaleClaims | internal/homejobs/homejobs.go:157-167 | Puts exactly the stale running rows back to pending, due now |
| JobWorker.Worker.UpsertJob | internal/homejobs/homejobs.go:80-106 | Inserts a fresh pending row, or resets the row that is there for the home and operation |
| JobWorker.Worker.ReplaceWithCleanupJob | internal/homejobs/homejobs.go:73-78 | Removes all rows of the home and inserts one cleanup row |
| JobWorker.Worker.EnrollHome | internal/enrollment/enrollment.go:498-540 | Creates the home pending with its credentials and its provision row, in one transaction |
| JobWorker.Worker.ScheduleHomeDeletion | internal/deletion/deletion.go:17-40 | Marks the home deleting unless it is soft-deleted, and replaces its rows by a cleanup row |
| JobWorker.Worker.ScheduleUserDeletion | internal/deletion/deletion.go:42-81 | Returns, in the order of their ids, exactly the homes with that user that are not soft-deleted; each is marked as deleting and left with one fresh cleanup row, and no other home or row changes |
| RolloutRuns.ExposureBound | internal/ota/rollout.go:269-279 | In every run the worker has sent a rollout's command to at most batchSize * (1 + floor((now - first dispatch) / interval)) devices, and to none before its first dispatch |
| RolloutRuns.RetainedCommands | internal/ota/rollout.go:122-152 | In every run a retained command of a rollout belongs to a device that is sent, updated without its command having been cleared, or pending in a failed rollout; never to a cancelled row or one with a recorded clearing time |
| RolloutHistory.LeavesPendingExactly | internal/ota/rollout.go:484-520 | In every reachable state and for every step: a device comes to have the rollout's command with its row still pending if and only if the step is a due dispatch of that rollout that publishes to it and whose publish takes effect although it is reported as failed - the first failure of that dispatch; the rollout has then ended |
| RolloutHistory.PendingCommands | internal/ota/rollout.go:484-520 | After every run, for a rollout's command at the broker: the row is pending, in a failed rollout, if and only if such a dispatch has occurred for this rollout and device; otherwise it is sent, or updated and not cleared |
| RolloutHistory.CertainCommands | internal/ota/rollout.go:484-520 | In particular, in every run in which no dispatch of that rollout left its command to that device unconfirmed, the row is sent, or updated and not cleared, whatever else was lost or unconfirmed |
| RolloutExamples.PendingCommandIsReachable | internal/ota/rollout.go:503-520 | A run with one publish that takes effect although it is reported as failed: the command stays at the broker for a pending row of a failed rollout |
| RolloutHistory.OtherStepsAreQuiet | internal/ota/rollout.go:415-435 | A step that is neither the rollout's own dispatch nor a device report adds nothing to its exposure, dispatches or batch number, and while the rollout stays active neither changes its schedule nor adds a pending row |
| RolloutRuns.LifeCycleOverRuns | internal/ota/rollout.go:154-176 | In every run an active rollout has an open row and is the only active one of its product, a completed one has every row updated, and dispatches never outnumber batches |
| RolloutRuns.RunKeeps | internal/ota/rollout.go:415-435 | Between any two points of a run rows are neither added nor lost, keep their batch and only move forward, an ended rollout never changes, and dispatches grow at most as fast as the batch number |
| RolloutRuns.DispatchesLeft | internal/ota/rollout.go:437-544 | Whatever happens from any reachable state, a rollout is dispatched at most as often again as it has batches above its last one |
| RolloutRuns.DispatchEmptiesBatch | internal/ota/rollout.go:437-544 | Each dispatch takes the lowest pending batch, which is above the last one; if it does not fail it leaves no pending row at or below it and strictly fewer pending rows |
| RolloutStall.StuckByReportOnly | internal/ota/rollout.go:553-566 | In every reachable state and for every step: an active rollout comes to have pending rows and no next batch time if and only if the step is a report of its target version by a device that is open in it, while another device is pending |
| RolloutStall.ScheduledUntilTargetReport | internal/ota/rollout.go:553-566 | After every run an active rollout with pending rows is on the worker's schedule if and only if none of its devices has reported the target version while open in it |
| RolloutExamples.StuckIsReachable | internal/ota/rollout.go:553-566 | A run with two devices and a batch of one - create, dispatch, report of the target version - after which the rollout is active with a pending row and no next batch time, whatever the sort key |
| RolloutStall.ReportEndsDispatching | internal/ota/rollout.go:553-566 | From every reachable state: after a report of the target version the rollout's other pending rows are still pending and it is active exactly if another row was open, yet in every later run the worker neither dispatches it nor exposes another of its devices |
| RolloutStall.OffScheduleForGood | internal/ota/rollout.go:415-435 | A rollout without a next batch time never gets one again, and its exposure and dispatch count are frozen, in every run |
| RolloutReports.SettledReports | internal/ota/rollout.go:569-652 | With a broker that clears, a report settles exactly the matching rollouts of that version as one simultaneous update |
| RolloutReports.ReportsCommute | internal/ota/rollout.go:617-651 | The order in which the database returns the matches makes no difference |
| RolloutReports.ReportAllNoted | internal/ota/rollout.go:608-652 | For any failing clears: every matching rollout notes the version in that device's row only; on the target version the row is updated, the rollout leaves the schedule and is completed exactly if no row is open; nothing else changes but this device's retained command |
| RolloutWorld.CreateKeeps | internal/ota/rollout.go:178-292 | Creating a rollout, cancelling what was active, keeps soundness, one active rollout per product, and the account of retained commands |
| RolloutWorld.CancelActiveKeeps | internal/ota/rollout.go:154-176 | Cancelling with any failing clears keeps the invariant and leaves no active rollout of the product |
| RolloutWorld.DispatchKeeps | internal/ota/rollout.go:437-545 | A dispatch with any failing publish keeps the invariant |
| RolloutWorld.HandleStatusKeeps | internal/ota/rollout.go:569-652 | A device report with any failing clears keeps the invariant |
| RolloutWorld.TriggerKeeps | internal/enrollment/enrollment.go:317-376 | A manual trigger, also one whose publish fails or is unconfirmed, keeps the invariant |
| RolloutWorld.MarkKeeps | internal/ota/rollout.go:390-413 | Marking the newest active rollout's pending row sent keeps the invariant, and there is a newest one whenever there is any |
| Rollout.DispatchSound | internal/ota/rollout.go:437-544 | Dispatching a due rollout keeps batches, life cycle, progress and pacing, and moves to a strictly higher batch |
| Rollout.DispatchWithinBatch | internal/ota/rollout.go:456-465 | A dispatch sends to at most a batch size of devices, in a batch between 1 and the last |
| Rollout.DispatchPaced | internal/ota/rollout.go:531-536 | A due dispatch comes at least an interval after the previous one, so the exposure stays within its budget |
| Rollout.ReportSound | internal/ota/rollout.go:617-651 | Noting a report and marking the row updated keep the rollout sound and only move it forward |
| Rollout.CancelSound | internal/ota/rollout.go:161-174 | Cancelling keeps the rollout sound, with rows left behind whose clear failed |
| Rollout.NewRolloutSound | internal/ota/rollout.go:234-285 | A new rollout is sound and active, and has at most ceil(100 / percentage) batches |
| BatchAssignment.RankIsIndex | internal/ota/rollout.go:255-279 | A device's position in the sorted list is the number of devices before it, so it depends on the rollout id and the set of devices only |
| BatchAssignment.SortDevices | internal/ota/rollout.go:255-267 | Sorting permutes the devices and orders them strictly by key, ties by id |
| BatchAssignment.BatchesPartition | internal/ota/rollout.go:269-279 | Every device is in exactly one batch between 1 and the last; all batches but the last hold exactly the batch size, the last at least one |
| BatchAssignment.BatchIsSlice | internal/ota/rollout.go:272-279 | Batch b is the b-th slice of the sorted devices |
| BatchAssignment.SizeCovers | internal/ota/rollout.go:105-120 | The batch size is the least number of devices that makes up the percentage, and never exceeds the total |
| BatchAssignment.BatchCountBound | internal/ota/rollout.go:105-120 | The batch size is positive and never leads to more than ceil(100 / percentage) batches |
| OtaService.Service.CreateRollout | internal/ota/rollout.go:178-292 | The loops over devices, old rollouts and rows amount to the described creation, whatever order the database lists them in; it succeeds if and only if the firmware is complete and some live device of the product is not known to run its version |
| RolloutLaws.CreatesExactly | internal/ota/rollout.go:178-292 | Nothing happens unless such a device exists; otherwise the new rollout has a pending row for exactly the live devices of the product whose known version is not the product's, and the product's version and settings |
| RolloutLaws.BatchesExactly | internal/ota/rollout.go:246-279 | A device's batch is one more than the number of devices with a smaller key (ties by id) divided by the batch size, which is the least that makes up the percentage |
| RolloutLaws.CancelsExactly | internal/ota/rollout.go:122-176 | A creation ends exactly the product's active rollouts; in these a row is cancelled if and only if it is open and its command could be cleared |
| RolloutLaws.CreationClearsExactly | internal/ota/rollout.go:122-176 | A creation clears the command of a device if and only if its message gets through and the device is open in an active rollout of the product |
| OtaService.Service.BuildRows | internal/ota/rollout.go:255-282 | Filling rows by index in the sorted list gives every device the batch of its rank |
| OtaService.Service.ClearRetainedForRollout | internal/ota/rollout.go:122-152 | Cancels exactly the open rows whose command could be cleared, in any order |
| OtaService.Service.CancelActiveRolloutsForProduct | internal/ota/rollout.go:154-176 | Cancels every active rollout of the product and no other |
| OtaService.Service.ProcessDueRollouts | internal/ota/rollout.go:415-435 | One round dispatches each due rollout once, in order; none stops being due because of another |
| OtaService.Service.DispatchNextBatch | internal/ota/rollout.go:437-545 | The device loop with its early exit on the first failing publish amounts to the described dispatch: each device of the lowest pending batch up to that exit is marked updated and sent nothing if it is known to run the target, and otherwise sent the command, marked sent if the publish is confirmed; all other rows and commands stay |
| RolloutLaws.DispatchesWholeBatch | internal/ota/rollout.go:480-520 | Without failing publishes: a row of the lowest pending batch is updated, without a publish, if and only if the device's known version is non-empty and the target; otherwise it is sent and the broker holds a command of this rollout with the target version for the device; every other row and command stays as it is |
| RolloutLaws.DispatchesExactly | internal/ota/rollout.go:480-520 | With failing publishes: the same for every device before the first failure, whose row stays pending; the devices after it are not touched |
| RolloutLaws.DispatchSettles | internal/ota/rollout.go:522-545 | After a failing publish the rollout has failed; otherwise it is due again an interval of its minutes later if and only if rows are pending, and with none pending it is off the schedule, completed if and only if none is sent; no other rollout changes |
| RolloutLaws.OtherwiseDispatched | internal/ota/rollout.go:415-476 | A rollout that is not active or not yet due is left alone, one without pending rows leaves the schedule, and one whose firmware is not complete fails |
| OtaService.Service.SendBatch | internal/ota/rollout.go:484-529 | Goes through the lowest pending batch in device order and stops at the first failure; what was reached, published and marked is exactly as described |
| OtaService.Service.RefreshRolloutCompletion | internal/ota/rollout.go:547-567 | Completed exactly if no row is pending or sent, and off the schedule either way |
| OtaService.Service.HandleDeviceStatusUpdate | internal/ota/rollout.go:569-652 | The loop over matches with its single successful clear amounts to the described report; with a broker that clears, the device's command is gone if it reports its live product's version or the target of a rollout in which it is open, and no other command changes |
| RolloutLaws.ReportsClearExactly | internal/ota/rollout.go:600-635 | With a broker that clears: after a report the device has no command if the version is non-empty and its live product's, or the target of an active rollout in which its row is pending or sent; in every other case its command, and in all cases every other device's, is unchanged |
| RolloutLaws.ReportsMarkExactly | internal/ota/rollout.go:617-651 | Whatever becomes of the clears: a report is noted in the device's row of exactly the active rollouts in which that row is open; where it is the target the row is updated, the rollout leaves the schedule and is completed if and only if no row is open |
| OtaService.Service.TriggerDeviceUpdate | internal/enrollment/enrollment.go:317-376 | Refuses incomplete firmware and up-to-date devices, replaces the retained command, and marks a row only after a confirmed publish |
| RolloutLaws.TriggersExactly | internal/enrollment/enrollment.go:336-365 | A manual trigger happens only for a live device that is not known to run its product's complete firmware; unless it is lost it leaves exactly the product's version as the device's command, and changes no other |
| RolloutLaws.TriggersMarkExactly | internal/ota/rollout.go:390-413 | A confirmed one marks the device's pending row in the newest active rollout sent, and no other row |
| OtaService.Service.MarkDeviceRolloutSent | internal/ota/rollout.go:390-413 | Marks the pending row of the newest active rollout, if there is one |
| OtaService.Service.FirstPendingBatch | internal/ota/rollout.go:449-454 | The lowest batch number among the pending rows |
| OtaService.Service.FinishDispatch | internal/ota/rollout.go:522-544 | Counts what is left: another batch is scheduled an interval later exactly if rows are pending, and with none pending or sent the rollout is completed |
| OtaService.Service.NoteReport | internal/ota/rollout.go:617-651 | One match: the version is noted, and on the target version the command is cleared unless that already succeeded, the row updated and the completion refreshed |
| OtaService.Service.PublishRetained | internal/mqtt/ota.go:36-49 | Replaces the device's retained command; a lost publish changes nothing, an unconfirmed one takes effect although it is reported as failed |
| OtaService.Service.ClearRetained | internal/mqtt/ota.go:51-60 | Removes the device's retained command, with the same two ways to fail |
| RolloutWorld.EffectiveRolloutPercentage | internal/models/models.go:106-111 | Always between 1 and 100, whatever is configured |
| RolloutWorld.EffectiveRolloutIntervalMinutes | internal/models/models.go:113-118 | Always at least one minute, whatever is configured |
| RolloutLaws.SettingsExactly | internal/models/models.go:106-118 | A configured percentage from 1 to 100 and a configured positive interval are taken as they are; anything else gives 20 percent and 60 minutes |
| Provisioning.EndToEnd | product_configs/secure_ble_provisioning.h:666-755 | Every plaintext of 1 to 1024 bytes, encrypted, chunked and sent to a receiver not busy with the same transfer id: every packet but the last is accepted, the last completes if and only if the plaintext is valid, and exactly its settings are pending |
| Provisioning.PayloadArrives | internal/crypto/provisioning.go:52-98 | What the server enrols arrives field by field on the device |
| Provisioning.RetryProvisions | product_configs/secure_ble_provisioning.h:666-755 | From every state the device can reach, sending a valid bundle twice ends with it provisioned |
| Provisioning.ChunksAreWholeTransfer | web/components/device-enrollment.js:107-142 | What the web page sends is a complete in-order transfer in the device's eyes and carries exactly the bundle |
| Provisioning.BuildProvisioningChunks | web/components/device-enrollment.js:107-142 | Succeeds exactly for bundles of 1 to 65535 bytes and yields all their packets |
| BleLaws.BundleOctets | web/components/device-enrollment.js:107-142 | The packets carry consecutive slices of 120 octets, all full but the last, after eight octets of header |
| ChunkReceiver.CompletesOnlyOnWholeTransfer | product_configs/secure_ble_provisioning.h:666-755 | In every run a packet completes only as the last of n consecutive packets with indices 0..n-1 of one transfer whose payloads make up exactly total_bytes, and the pending values are then those of the decrypted concatenation |
| ChunkReceiver.WholeTransferReceived | product_configs/secure_ble_provisioning.h:666-755 | A whole transfer to a free receiver is accepted packet by packet and completes if and only if its envelope opens; the receiver is idle afterwards |
| ChunkReceiver.OneSendSuffices | product_configs/secure_ble_provisioning.h:683-695 | Sent once, an openable envelope gets through if and only if the receiver was not in the middle of a transfer with the same id |
| ChunkReceiver.SendingTwiceProvisions | product_configs/secure_ble_provisioning.h:683-695 | From every valid state the second send gets through |
| ChunkReceiver.IngestExtendsOrResets | product_configs/secure_ble_provisioning.h:666-755 | The next packet of a transfer extends it, every other packet is an error that leaves the receiver idle |
| ChunkReceiver.IngestKeepsValid | product_configs/secure_ble_provisioning.h:172-184 | Active implies 0 < expected index < total chunks, buffer <= total bytes <= 2048 and nothing pending; idle implies an empty buffer; accepted means active |
| ChunkReceiver.IndexDoesNotWrap | product_configs/secure_ble_provisioning.h:720-727 | The 16-bit chunk counter is only incremented below the total and never wraps |
| ChunkReceiver.RefusalAddsNothing | product_configs/secure_ble_provisioning.h:666-755 | A refused packet never adds pending settings |
| BleLaws.ReceivesExactly | product_configs/secure_ble_provisioning.h:666-755 | Over raw octets: a packet is accepted if and only if its first octet is 1, its index, count and length fit the transfer under way or open one, at most 2048 octets are announced and not exceeded, and it is not the last; it completes if and only if it is the last such and the assembled envelope has the announced length and opens; every other packet leaves the receiver idle |
| BleLaws.OtherVersionsRefused | product_configs/secure_ble_provisioning.h:208-221 | A packet with another version octet is never accepted, by the firmware or by the web page |
| ChunkPacket.HeaderRoundTrip | product_configs/secure_ble_provisioning.h:208-234 | Reading a written header gives back its fields and payload, in both the firmware's and the web page's parser |
| BleLaws.PacketOctets | product_configs/secure_ble_provisioning.h:236-277 | A written packet is the octet 1, the transfer id, index, count and length in two octets each with the higher one first, and the chunk |
| ChunkPacket.TransferCarriesSource | product_configs/secure_ble_provisioning.h:236-277 | The payloads of all chunks concatenate to the source, those of the first n to its first n payload sizes |
| ChunkPacket.BuildChunkPacket | product_configs/secure_ble_provisioning.h:236-277 | With 32-bit sizes and 16-bit counts written out, the packet is exactly the chunk, or an error exactly when a limit is exceeded |
| ChunkPacket.TotalChunksExact | product_configs/secure_ble_provisioning.h:201-206 | The truncating count is exact, and zero exactly when the sizes overflow |
| BleLaws.CountExactly | product_configs/secure_ble_provisioning.h:201-206 | The count is the least number of chunks that hold the source |
| Primitives.OneBlockExpansion | product_configs/secure_ble_provisioning.h:511-546 | A 32-byte expansion (section 2.3 of RFC 5869) is one HMAC over the info and a single octet 1 |
| Primitives.HkdfSha25632 | product_configs/secure_ble_provisioning.h:511-546 | The firmware's key derivation equals the general extract (with no salt) and expand of sections 2.2 and 2.3 of RFC 5869 |
| Primitives.LawsAreSatisfiable | product_configs/secure_ble_provisioning.h:465-509 | The laws assumed of the cryptographic primitives can hold together |
| Envelope.EnvelopeRoundTrip | product_configs/secure_ble_provisioning.h:548-603 | The device decrypts what the server encrypted for it; an empty plaintext is the one the reader refuses |
| Envelope.EncryptProvisioningBundle | internal/crypto/provisioning.go:52-98 | Writes version, ephemeral key, nonce and sealed payload in that order, under the key both sides derive |
| Envelope.DecryptEnvelope | product_configs/secure_ble_provisioning.h:548-603 | Reads the same layout back, with every size and version check in its place |
| BleLaws.LabelOctets | product_configs/secure_ble_provisioning.h:22-34 | Both sides derive the key under the label iot-provisioning-v1 |
| BleLaws.EnvelopeOctets | internal/crypto/provisioning.go:52-98 | A written envelope is the octet 1, 32 octets of key, 12 of nonce and what was sealed, 61 octets more than the plaintext |
| BleLaws.EnvelopeExactly | product_configs/secure_ble_provisioning.h:548-603 | The device opens an envelope if and only if it has more than 61 octets, the first of them is 1, the keys agree and the tag in its last 16 octets fits; what it opens is exactly the octets between |
| BleLaws.OtherEnvelopesRefused | product_configs/secure_ble_provisioning.h:557-563 | An envelope with another version octet is never opened |
| Envelope.PayloadRoundTrip | product_configs/secure_ble_provisioning.h:605-664 | A marshalled payload is accepted if and only if it is at most 1024 bytes and its delay is a non-negative 32-bit number, and is then read field by field |
| BleLaws.PayloadExactly | product_configs/secure_ble_provisioning.h:605-664 | A payload is accepted if and only if it has 1 to 1024 octets, parses, has all nine texts and a delay that is missing, null or a 31-bit number; the device then holds exactly its values, with 15 seconds for a delay that is not given |
| PublicKeyPull.ReadChunkedDevicePublicKey | web/components/device-enrollment.js:152-201 | Against arbitrary replies a key is returned if and only if the replies are the in-order chunks of one 32-byte transfer, and it is their concatenation; the requests ask for chunks 1, 2, ... of that transfer |
| PublicKeyPull.PullYieldsKey | product_configs/secure_ble_provisioning.h:403-463 | Against a primed device the pull yields exactly the 32 key bytes |
| PublicKeyPull.BuildPublicKeyChunkRequest | web/components/device-enrollment.js:99-105 | The four request bytes carry version, transfer and a 16-bit index that reads back |
| BleLaws.RequestOctets | web/components/device-enrollment.js:99-105 | A request is the octet 1, the transfer id and the index in two octets with the higher one first |
| BleLaws.RepliesExactly | product_configs/secure_ble_provisioning.h:403-463 | The device answers exactly the requests of four octets with version 1, transfer 1 and an index below three, with 14, 14 and 4 octets of its key |
| BleLaws.PullsExactly | web/components/device-enrollment.js:152-201 | What the web page takes for a key is exactly consecutive chunks of one transfer, octet by octet, that carry 32 octets |
| SecureBle.SecureBle.IngestChunk | product_configs/secure_ble_provisioning.h:666-755 | The firmware's state, updated field by field, moves exactly as the receiver automaton says; without key material every packet is refused and nothing changes |
| SecureBle.SecureBle.ApplyPendingProvisioning | product_configs/secure_ble_provisioning.h:761-792 | Hands out the pending settings once and clears them |
| SecureBle.SecureBle.HandlePublicKeyChunkRequest | product_configs/secure_ble_provisioning.h:445-463 | Answers a well-formed request with the asked-for chunk of the public key, and refuses without key material |
| SecureBle.SecureBle.ResetTransferState | product_configs/secure_ble_provisioning.h:172-179 | Forgets the transfer and its buffer but not the pending settings |
| SecureBle.SecureBle.ClearRuntimeState | product_configs/secure_ble_provisioning.h:181-184 | Back to the initial receiver |
| SecureBle.SecureBle.ClearKeyCache | product_configs/secure_ble_provisioning.h:186-190 | No key is left to read: from then on every packet is refused and leaves the device as it is, and no key request is answered; the transfer and the pending settings stay |
| SecureBle.SecureBle.AppendChunk | product_configs/secure_ble_provisioning.h:700-733 | Checks the header against the transfer under way, appends the payload or resets |
| SecureBle.SecureBle.FinishChunk | product_configs/secure_ble_provisioning.h:733-755 | Accepts while chunks are missing; at the end decrypts, parses and completes, or resets |
| TokenExpiry.TtlIsExact | internal/oauth/token_store.go:400-480 | A lifetime set at time s is live at t >= s if and only if the token is not expired for that lookup at t |
| TokenExpiry.ExpiryIsFinal | internal/oauth/token_store.go:400-416 | What has expired for a lookup stays expired |
| TokenLaws.ExpiryExactly | internal/oauth/token_store.go:400-480 | A credential is good for a lookup if and only if it is set and either has no lifetime or its lifetime has begun and not ended, and for an access credential the same holds of its token's refresh credential, if there is one |
| TokenStore.LookupsAreSafe | internal/oauth/token_store.go:145-202 | In every run of creations, lookups, removals, purges, evictions and passing time, a token that a lookup returns carries the value and is unexpired for that lookup, although the cached path checks neither |
| TokenStore.RunKeeps | internal/oauth/token_store.go:48-186 | Every run keeps each cache entry faithful to its key and live only as long as its token, and no credential in two rows |
| TokenStore.KeysAreInjective | internal/oauth/token_store.go:303-312 | Cache keys of different kinds or values never coincide |
| TokenFinality.CreateThenGet | internal/oauth/token_store.go:48-83 | For every behaviour of the cache: a lookup by one of a created token's credentials returns it if and only if it has not expired, the cache can be read, and either the cache write for this credential got through, or no older entry under it is live, or that entry holds the same token; otherwise such an older entry's token is returned although its row is gone |
| TokenExamples.StaleEntryIsServed | internal/oauth/token_store.go:262-273 | A run in which a second token with the same access value is created and its cache write is lost: the first token's row is gone, and a lookup returns the first token |
| TokenFinality.RemovalIsFinalUnless | internal/oauth/token_store.go:121-143 | For every behaviour of the cache's reads, writes and deletions: a lookup after a removal still succeeds if and only if the cache could not be read for the removal and an entry or a row still serves the lookup; or the cache answered the removal, and the row, or the entry that could not be deleted, still serves it; or the removal missed the cache, wrote the token back to it on the way and could not delete it again |
| TokenExamples.RemovedTokenReturns | internal/oauth/token_store.go:121-143 | A run from the empty store with a cache that loses nothing: create, remove by access token, look up: the token is found |
| TokenExamples.RemovedTokenStaysCached | internal/oauth/token_store.go:275-294 | A run in which the removal misses the cache and the deletion of the written-back entry fails: no row is left, and the token is still served |
| TokenExamples.UnreadRemovalKeepsToken | internal/oauth/token_store.go:121-143 | A run in which the cache cannot be read for the removal: nothing is removed, and a lookup still finds the token |
| TokenFinality.CredentialsAfterRemoval | internal/oauth/token_store.go:121-143 | After a token was found and removed by one credential, a lookup by any of its credentials still succeeds if and only if the cache answered the removal and a row, or an entry that could not be deleted, serves it; or a row answered it and another row serves it, or deletions fail and this credential's entry, written back or older, is live |
| TokenFinality.RemovedRowsAreGone | internal/oauth/token_store.go:121-143 | In every run of a store whose rows are all its own: after a row answered the removal, a lookup by any of the token's credentials succeeds if and only if the cache's deletion failed and its entry for this credential, written back or older, is live |
| TokenExamples.OtherCredentialReturns | internal/oauth/token_store.go:121-143 | A run with a cache that loses nothing: a token removed by its access value is found by its refresh value |
| TokenFinality.ServedExactly | internal/oauth/token_store.go:145-186 | Without a cache hit a lookup succeeds if and only if some row serves it |
| TokenStore.PurgeKeeps | internal/oauth/token_store.go:482-523 | A purge leaves no row of the user and keeps the cache sound |
| TokenFinality.PurgeIsFinalUnless | internal/oauth/token_store.go:482-523 | For every behaviour of the cache: after a purge a lookup still returns a token of that user if and only if a live entry with one is under no trimmed credential of the user's rows, or could not be deleted, or, when the cache is left with no live entry for the lookup, a row of another owner serves a token that names the user |
| TokenFinality.PurgedUsersAreServed | internal/oauth/token_store.go:482-523 | In every run of a store whose rows are all its own, a purged user's token is returned if and only if such an entry holds it; no row ever serves it |
| TokenExamples.PurgedUserIsServed | internal/oauth/token_store.go:482-523 | A run with a cache that loses nothing: a token loses its row to another one with the same access value, its user is purged, and a lookup by its refresh value returns it |
| PostgresTokenStore.PostgresTokenStore.Create | internal/oauth/token_store.go:48-83 | Removes exactly the rows that share a non-empty code, access or refresh value with the token, whoever's they are, inserts the new one and fills the cache, keeping both sound |
| TokenLaws.CreationRowsExactly | internal/oauth/token_store.go:229-250 | After a creation an old row is there, unchanged, if and only if each of its three columns differs from the token's credential of that kind or that credential is empty, for any users; one row is added and mirrors the token |
| TokenLaws.OthersAfterCreation | internal/oauth/token_store.go:229-250 | A lookup by a value that is not one of the new token's answers the same before and after, unless the cache does not answer it and its row shared another credential with the new token; then it finds nothing |
| PostgresTokenStore.PostgresTokenStore.GetByLookup | internal/oauth/token_store.go:145-186 | Answers from the cache or from the newest row, dropping expired rows and refilling the cache, and what it returns matches and is unexpired |
| TokenLaws.LookupExactly | internal/oauth/token_store.go:145-227 | A live entry is returned as it is; failing that the newest row with the value decides: its token if it is good and carries the value, a failure if it cannot be read, and otherwise nothing; the row is removed if and only if its token has expired |
| PostgresTokenStore.PostgresTokenStore.RemoveByLookup | internal/oauth/token_store.go:121-143 | Removes the row it found, or only the cache keys after a cache hit |
| TokenLaws.RemovalRowsExactly | internal/oauth/token_store.go:121-186 | A removal removes a row if and only if the cache was read and does not answer, and it is the newest with the value, can be read and does not hold an unexpired token with another value |
| TokenLaws.OthersAfterRemoval | internal/oauth/token_store.go:275-294 | In a store whose rows are its own, removing a token changes no answer to a lookup by a value that is not one of the token's |
| PostgresTokenStore.PostgresTokenStore.PurgeTokensForUser | internal/oauth/token_store.go:482-523 | Collects all the user's keys row by row, and removes rows and keys |
| TokenLaws.PurgeRowsExactly | internal/oauth/token_store.go:482-503 | A purge removes exactly the rows whose user is the trimmed user, and nobody else's |
| TokenLaws.PurgeEntriesExactly | internal/oauth/token_store.go:505-523 | It removes exactly the entries under the trimmed credentials of those rows, if the cache deletes |
| Strings.TrimExactly | internal/oauth/token_store.go:482-484 | Trimming takes away exactly the white space at both ends |
| PostgresTokenStore.PostgresTokenStore.DeleteMatchingTokenRows | internal/oauth/token_store.go:229-250 | Keeps exactly the rows each of whose three columns differs from the token's credential of that kind or faces an empty one |
| PostgresTokenStore.PostgresTokenStore.CacheToken | internal/oauth/token_store.go:252-260 | Writes the token under each of its credentials, each with its own lifetime |
| PostgresTokenStore.PostgresTokenStore.CacheLookup | internal/oauth/token_store.go:262-273 | Writes nothing for an empty value or a lifetime that is over, and no deadline for a credential that never expires |
| PostgresTokenStore.PostgresTokenStore.DeleteCacheKeys | internal/oauth/token_store.go:275-294 | Drops the cache keys of all the token's credentials |
| PostgresTokenStore.PostgresTokenStore.FindTokenRecord | internal/oauth/token_store.go:204-227 | The newest row with the value in this lookup's column |
| PostgresTokenStore.PostgresTokenStore.GetCachedToken | internal/oauth/token_store.go:188-202 | The live entry under the lookup's key, with no further check |
| PhasePacer.Pacer.Pace | tests/vegeta/cmd/phase_runner/main.go:61-107 | For stages of any length, whenever its search ends at all: stops if and only if the schedule has a positive length and misses the target by more than the slack; otherwise the wait reaches the target within the slack and is shorter than any later moment that reaches it plus max(reach, 1ms)/2^24 + 1ns, where the reach is the total, or twice the curve's length if the total is not positive |
| PhasePacer.EndsIff | tests/vegeta/cmd/phase_runner/main.go:74-95 | For stages of any length the doubling meets one of its two exits if and only if the total is positive or the whole hit curve holds the target |
| PhasePacer.EndsIffPositive | tests/vegeta/cmd/phase_runner/main.go:74-95 | With no negative stage it does so, for any hit, if and only if the total is positive |
| PhasePacer.UnsetNeverEnds | tests/vegeta/cmd/phase_runner/env.go:218-228 | With all three stages unset, which the configuration turns into zeroes, the doubling never meets an exit |
| PhasePacer.Pacer.Hits | tests/vegeta/cmd/phase_runner/main.go:141-172 | The stage-by-stage accumulation is the area under the three lines, where a stage of no or negative length counts for nothing |
| PhasePacer.AreaMonotone | tests/vegeta/cmd/phase_runner/main.go:141-172 | The hit curve never falls |
| PhasePacer.TotalArea | tests/vegeta/cmd/phase_runner/main.go:141-172 | The whole curve holds the mean rate of each stage times its length, negative lengths counting as none |
| PhasePacer.AreaIntegratesRate | tests/vegeta/cmd/phase_runner/main.go:109-139 | With no negative stage: inside a stage, and after the last, the hits between two moments are the mean of the rates reported there times the time between them |
| PhasePacer.RateExactly | tests/vegeta/cmd/phase_runner/main.go:109-139 | With no negative stage the reported rate runs straight from the start rate to the peak, stays there, runs straight down to zero, and is zero from the end of the schedule on |

## Left out

- HomeJobs.FinishFails: the transaction of `rescheduleProvision` or `rescheduleCleanup` is one step that succeeds or fails as a whole; partial effects of a failed transaction do not occur.
- HomeJobs.DevicesUnread: a home's devices, their unsubscription and their soft deletion are reduced to whether they could be read and cleared.
- DynsecClient.Client.SendDynsecCommands: late replies that answer an earlier message, and replies with several errors of which a later one would matter for a deletion, are excluded; a delete command is answered with success, "not found" or not at all.
- JobWorker.Worker.RunOnce: processes its batch one job after the other, which is one of the orders the steps of HomeJobs allow; the theorems about runs cover every interleaving of the goroutines.
- Home states other than the four constants, for which `MQTTState` has a default, do not occur.
- Several worker processes at once, row locks and `SKIP LOCKED` are not modelled.
- Job and home error texts and the timestamps `updated_at`, `mqtt_provisioned_at` and `created_at` are not modelled.
- The user row and admin membership removed with a user, and the sessions that lead to a deletion, are plumbing around `ScheduleUserDeletion`.
- RolloutWorld.HandleStatus: takes the reported version as given; splitting the status text "online_<version>" and device presence are not modelled.
- RolloutWorld.DispatchNextBatch: each handler is one step and its database writes succeed; interleavings inside a handler are not modelled.
- Devices are only ever soft-deleted and keep their user and home, so joins with the devices table keep every row and a device has one command topic.
- Liveness of a rollout as a whole is not claimed, as `RolloutStall.ReportEndsDispatching` shows it does not hold.
- BatchAssignment.BatchSize: uses the exact integer ceiling in place of floating point; the quality of the SHA-256 sort key is a parameter.
- Envelope.ParsePlaintextPayload: its several error texts for fields are merged into one, and JSON, base64 and the primitives are functions with their laws assumed (`Lawful`, shown satisfiable).
- ChunkReceiver.Ingest: out-of-memory and Bluetooth stack errors are not modelled.
- TokenStore.Create: cache writes and deletions succeed or fail one by one; the cache's millisecond resolution and write latency are not modelled.
- TokenExpiry.RemainingTtl: durations are unbounded; the saturation of very long ones is not modelled.
- Strings.TrimSpace: trims ASCII white space only.
- PhasePacer.Pacer.Pace: hits are exact reals and times unbounded integers, so float rounding and the overflow branch's purpose are not modelled. It is stated for the inputs on which its search ends, which `PhasePacer.EndsIff` characterises; the relation of hits and rates is stated for stages of no negative length.
- HTTP handlers, the sessions kept in Redis, Google sign-in and fulfilment, the web interface, migrations, configuration, statistics and shell scripts are not modelled.
