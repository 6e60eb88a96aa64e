# Durable disk migration: a model and its proofs

The repository copies folders from a hosted disk (the *source*) to an on-premises disk (the *destination*), to a
local directory, or to a personal disk. What makes it hard is that requests may land late or get lost, the process
may die between any two writes, other threads stop, pause or reconfigure a job at any time, and all callers share one
request budget. This project models those protocols step by step and proves what they keep.

Verify everything with `dafny verify dfyconfig.toml`.

## What is modelled

* **The transfer protocol** of one job (`Rows`, `Transactions`, `Rules`, `World`, `Effects`, `Landing`, `Store`,
  `Destination`, `Session`, `Staging`, `Purge`, `Faults`, `Transfer`, `Runner`, `Safety`). A job has entries and
  attempts; an attempt walks through persisted phases and writes an intent before it uploads and before it moves.
  `World` holds everything a job can leave behind at an instant (rows, local copies, the remote disk, requests that
  may still land, the requests sent so far, the entries that were seen to be stuck) and the invariant `Inv`. `Rules`
  says what each transaction means for the rows. Every write and every request of the runner is a method of `Session`. Around each of them the process may die (the exception `Crashed`), other threads may stop, pause,
  switch retries or cancel a point retry, and requests sent earlier may land or get lost (`Interfere`); each
  method says exactly which change it made, and `Env` says what the others may have done since. `Runner.Run` puts any
  operations in any order, with a restart after every crash, and `Safety.WholeRun` states what holds at the end of any
  such run. Jobs that write to the final path and jobs that go through a private temporary path are both covered.
* **Runs of single effects** (`Runs`, `Scenarios`): the same writes and requests as a transition system. Each has the
  condition on the rows that the code tests before it, and its place in the code: in a step on the entry that is next,
  in a retry of the job, or between the two. `Scenarios` writes out the runs that reach a bad state, and `Safety` draws
  the exact conditions from them.
* **Publication** of source roots, a second intent with a token refresh and a memory that a restart loses
  (`Publication`).
* **The rate limiter**, with any number of callers interleaved and the three steps of a penalty taken apart
  (`Limiter`, with `Counting`). Time is in integer ticks.
* **The staging cache**: bytes on disk and bytes promised to running downloads (`Cache`).
* **Paths, selection and plan**: what string prefixes mean on canonical paths (`Paths`), the selection tree in the
  two stores (`Selection`), and the checks, mapping and order of the plan (`Plan`). Unicode
  normalisation is an arbitrary function there.
* **The paged walk** over the source tree (`Walk`), **the retry switch** (`Retry`), **the transfer of a local list**
  (`LocalTransfer`) and **the copy to a personal disk** (`DiskCopy`).

Time, the clock, remote answers, credentials and the outcome of every external call are arbitrary values. A read of
the destination may end in an outage, a refusal, a conflict, or with a malformed answer: an impossible path
(`invalid_disk_path`) or an exception that nobody classified (`internal_error`). Equal MD5 and equal size are read as
equal contents. A database transaction is one atomic step.

What a remote call or a comparison answered is handed up as a ghost result (`Answer`, `Look`, `Check`, `Route` and the
like), and so is the world in which the last write was made. The contracts say with them what each answer leads to, in
both directions: which answer makes an entry `done`, which one leaves which error, and in which state a job ends.
A stop or a shutdown ends work only if there is one (`Justified`, `CutShort`).

An attempt is *let go* when it ends as `failed` and open to a plain retry while its upload may still land. `World`
counts such attempts (`loose`). A run is *guarded* if neither of the two ways to get there occurs in it: no answer
read while an upload is awaited is malformed, and no planned entry whose attempt has failed is given up with the
directory above it. Results that need a guarded run say so; all others hold of every run.

### Assumptions

* Nobody but the job itself writes below its destination paths, and a request that the server rejects has no further
  effect. A late upload may or may not replace what is already there.
* Operations on one job (`step`, `retry`, a point retry, `stop_job`, `resume`) run one at a time under its guard, as in
  `app/migration/worker.py` and `app/migration/api.py`. Stop, pause and retry-switch requests are not guarded and come
  in anywhere.
* The plan of a job is complete and frozen when its run begins. A job that writes to the final path owns its namespace
  from the start, as `_create_job` makes it.
* Removing local copies after a success does not fail.

### Where the code differs from what one would expect

* A direct job is meant to have one upload of a file in the air, and one more per point retry. This holds in every run
  if and only if the run is guarded (`Safety.OnePerRetryExactly`). `Scenarios.MalformedTwice` is a run where a malformed
  answer ends the wait, `_failure` takes it for definite, and a plain retry sends a second upload. `Scenarios.SkippedTwice`
  is one where the process dies between the two writes of a conflict; the directory above the file is retried, retries
  are switched off, and when the directory fails again `_skip_dependants` gives up the file, which is still planned.
* A GET that is answered with 409 is read as a conflict, and a conflict counts as definite. So an attempt may be
  `failed` while its upload is still in the air (`Scenarios.ConflictRun`). `Runs.FailIsDefinite` says exactly when; a second
  upload is then prevented by the entry, which is in conflict and out of every retry.
* If the process dies between the two writes of `_failure`, an entry may be left with an abandoned attempt: in progress
  (`Scenarios.CutFailure`) or, if a retry had planned it again, still planned (`Scenarios.CutRetriedUpload`). It is stuck.
  Every step takes it up and does nothing (`Runs.StepIsStuck`), so that what is planned behind it waits. Only two things
  free it, whatever operations run: a stop, and for a planned one the failure of a directory above it while retries are
  off (`Runs.StuckUnmoved`, `Runner.Runner.Run`). Every other entry that a step takes up is moved (`Safety.StuckExactly`,
  `Runs.StepMoves`).
* If the process dies in `retry` between the new attempt and the new state of its entry, the entry stays failed with a
  prepared attempt (`Scenarios.CutRetry`). For a job that writes to the final path every later `retry` is refused:
  `Runner.Runner.Retry` states exactly when.
* A publication that is answered with a status from 201 to 399 counts as rejected, although it may have taken effect,
  and is requested again (`Publication.AcceptedTwice`). No request follows one that may have taken effect if and only if
  no response has such a status (`Publication.SafeExactly`).
* A call that begins while the retry switch is off may still be replayed once it is turned on (`Retry.BegunWhileOff`).
* The walk of the personal-disk copy advances by the page size it asked for. If the server serves smaller pages,
  entries are lost without an error: all are handled exactly when no page is cut short (`DiskCopy.AllHandled`).
* The two stores define a partly selected directory differently. The definitions agree on every directory exactly
  when the selection is closed upwards (`Selection.DefinitionsAgree`), which every operation keeps.
* A resource strictly below one whose publication failed gets no result at all in the personal-disk copy. One listing
  holds siblings only, so this does not happen (`DiskCopy.SiblingsAreNotHidden`).

## Model

| member | source | states |
|---|---|---|
| `Safety.WholeRun` | `app/migration/runner.py:680-868` | from any frozen plan, after any operations in any order with crashes, restarts, late effects and requests of other threads anywhere: uploads and moves are sent at most once per attempt, finished files are delivered, one entry is in work, completion is honest, a stop is final; the uploads in flight of one file in a direct job are one at most and one more per point retry in a guarded run, and one more per attempt that was let go otherwise |
| `Safety.InvariantIsSafe` | `app/migration/runner.py:1169-1373` | the invariant kept at every cut implies every safety property at once |
| `Safety.Requests` | `app/migration/runner.py:1204-1345` | per attempt at most one upload and one move; in a direct job the uploads of one entry in flight never exceed one plus its point retries plus the attempts that were let go |
| `Safety.Work` | `app/migration/store.py:1216-1281` | a done or verified entry is delivered with its planned content, at most one entry is active or point-retry-requested, and a completed job has only successes |
| `Safety.DeliveredForGood` | `app/migration/runner.py:1169-1373` | a delivered file keeps the planned content whatever earlier uploads land later, in any order |
| `Safety.ClearedSinceStop` | `app/migration/runner.py:370-375` | after a stop request no checkpoint passes and at most the one request already cleared is still sent |
| `Safety.OnePerRetryExactly` | `app/migration/runner.py:1095-1130` | in every run of a direct job the uploads of one file in the air are one at most and one more per point retry, if and only if no answer read during a wait is malformed and no planned entry whose attempt has failed is given up with its directory |
| `Scenarios.MalformedTwice` | `app/migration/destination.py:258-310` | the run on which a malformed answer ends the wait for an accepted upload, and a plain retry sends a second one |
| `Scenarios.SkippedTwice` | `app/migration/runner.py:1086-1093` | the run on which the process dies between the two writes of a conflict, and the file, still planned, is given up with the directory above it: a plain retry sends a second upload |
| `Safety.FailedInFlight` | `app/migration/runner.py:1095-1130` | an attempt only becomes `failed` by one of five writers, and of these only `_failure` leaves an upload in flight: exactly for a definite error that a read reported while the upload was awaited |
| `Runs.FailIsDefinite` | `app/migration/runner.py:1095-1130` | `_failure` leaves a failed attempt with its upload in flight exactly when it was in flight and the error is definite; the entry is then open to a plain retry exactly when the answer was malformed, and in conflict otherwise |
| `Scenarios.ConflictRun` | `app/migration/destination.py:149-168` | the run on which a read answered with 409 leaves a failed attempt with its upload in the air |
| `Safety.StuckExactly` | `app/migration/runner.py:802-831` | of the entries that a step takes up, in progress or planned, exactly those whose attempt was abandoned are moved by no action but a stop and the failure of a directory above while retries are off; every other one is moved (no point retry asked for, the namespace claimed) |
| `Runs.StuckUnmoved` | `app/migration/runner.py:1187-1221` | no other action of the runner, of another thread or of the service changes the state, the attempt or the phase of a stuck entry, in progress or planned |
| `Runs.StepMoves` | `app/migration/runner.py:719-867` | while the job runs, a step takes up the entry that is next and moves it, unless it is stuck |
| `Runs.StepIsStuck` | `app/migration/runner.py:1187-1221` | a step that takes up a stuck entry does nothing to it |
| `Runs.ReachedKeeps` | `app/migration/runner.py:680-868` | every state that a run of single effects reaches keeps the invariant, and lets no attempt go if the two rules are kept |
| `Scenarios.CutFailure` | `app/migration/runner.py:1117-1130` | the run on which the process dies between the two writes of `_failure` and the entry is stuck in progress |
| `Scenarios.CutRetriedUpload` | `app/migration/runner.py:1095-1130` | the run on which a retried upload is cut off by an outage and the process dies between the two writes of `_failure`: the file is planned, is taken up by every step, and nothing but a stop frees it |
| `Scenarios.CutRetry` | `app/migration/runner.py:1591-1607` | the run on which the process dies in `retry` between the new attempt and the row of the entry: the job may be retried by its state, but the entry makes every retry refuse |
| `Runs.ActKeeps` | `app/migration/runner.py:680-868` | every single effect a run is made of keeps the invariant |
| `Effects.NewAttemptKeeps` | `app/migration/store.py:1364-1425` | a new attempt keeps the invariant: the old one is failed and settled, or its entry is out of every retry, or it is paid for by a point retry or as one that was let go |
| `Effects.CountPoint` | `app/migration/store.py:1364-1425` | a point retry that leaves one more upload behind pays for it |
| `Effects.CountPlain` | `app/migration/store.py:1375-1390` | any other new attempt leaves no upload behind that was not paid for, by a point retry or by having been let go |
| `Effects.LoosenKeeps` | `app/migration/runner.py:853-867` | letting an attempt go keeps the invariant and takes no room from any entry |
| `Effects.EnvStuck` | `app/migration/runner.py:1187-1221` | requests of other threads and late effects keep every stuck entry stuck, in progress or planned |
| `Effects.OneStuck` | `app/migration/runner.py:1187-1221` | a stuck entry is a file, and while it is in progress nothing else is |
| `Effects.ConfirmPointCopyKeeps` | `app/migration/store.py:1283-1314` | accepting a copy that is already there keeps the invariant |
| `Effects.FinishPointRetryKeeps` | `app/migration/store.py:1316-1362` | the end of a point retry keeps the invariant and completes the job only when every entry succeeded |
| `Effects.ScheduleDownloadRetryKeeps` | `app/migration/store.py:1104-1129` | a scheduled download keeps the invariant, also against the retry switch and a stop |
| `Effects.SetRetryEnabledKeeps` | `app/migration/store.py:637-676` | the retry switch keeps the invariant; turned off, it leaves no current attempt waiting for a download |
| `Effects.StopKeeps` | `app/migration/store.py:678-717` | a stop request of either kind keeps the invariant, is recorded once, and takes nothing from whoever is at work but the permission to go on |
| `Effects.CancelLocalEntriesKeeps` | `app/migration/store.py:719-733` | cancelling the local work of a fully stopped job keeps the invariant |
| `Effects.QueuePointRetryKeeps` | `app/migration/store.py:1249-1281` | a point retry is queued only while nothing is in work, so that one entry stays in work |
| `Effects.SetAttemptKeeps` | `app/migration/store.py:1501-1533` | the condition under which a new row of an attempt keeps the invariant |
| `Effects.SetEntryKeeps` | `app/migration/store.py:1131-1165` | the condition under which a new row of an entry keeps the invariant |
| `Effects.SetJobKeeps` | `app/migration/store.py:807-841` | the condition under which a new row of the job keeps the invariant |
| `Landing.SendUploadKeeps` | `app/migration/destination.py:448-474` | an upload may leave once, from its saved intent, right behind a checkpoint, with the planned content |
| `Landing.SendCounted` | `app/migration/destination.py:448-474` | one more upload in the air stays within the bound |
| `Landing.SendMoveKeeps` | `app/migration/destination.py:478-493` | a move may leave once, from its saved intent, right behind a checkpoint |
| `Landing.LandUploadKeeps` | `app/migration/runner.py:1253-1274` | an upload that lands at any later time keeps the invariant and every delivered file |
| `Landing.LandCounted` | `app/migration/store.py:1375-1390` | a landing keeps the bound on uploads in flight, also when another file was in the way |
| `Landing.LandMoveKeeps` | `app/migration/runner.py:1338-1349` | a move that lands at any later time keeps the invariant and every delivered file |
| `Landing.ClearCacheReferencesKeeps` | `app/migration/store.py:1464-1499` | forgetting purged copies keeps the invariant, so whoever lost a verified copy has its download counter at 0 or a copy that the next look finds gone |
| `Store.MigrationStore.FirstEntry` | `app/migration/runner.py:803-812` | the first entry with a property in insertion order, or none has it |
| `Store.MigrationStore.UpdateJob` | `app/migration/store.py:807-841` | a stopped job only stays as it is or becomes stopped; any other write is refused and changes nothing |
| `Session.Session.Checkpoint` | `app/migration/runner.py:370-375` | passes exactly while no stop was requested and the process is not shutting down; behind a refusal nothing has changed |
| `Session.Session.Enter` | `app/migration/runner.py:238-343` | an action on the destination that changes something begins only after a checkpoint passed; an outage on record ends it as definite, not as uncertain |
| `Session.Session.Stat` | `app/migration/destination.py:269-310` | what is at a path when the request is answered; a matching file at a destination is a delivered one, and no file there means that an upload would not be one too many; it fails with an outage, a refusal, a conflict or a malformed answer |
| `Session.Session.SaveJob` | `app/migration/store.py:807-841` | the job row as written, or nothing when a stopped job would leave its state |
| `Session.Session.CreateAttempt` | `app/migration/store.py:1364-1425` | exactly the rows `new_attempt` writes, or a refusal that changes nothing |
| `Session.Session.ConfirmCopy` | `app/migration/store.py:1283-1314` | exactly the rows `confirm_point_copy` writes, or a refusal that changes nothing |
| `Session.Session.FinishPoint` | `app/migration/store.py:1316-1362` | exactly the rows `finish_point_retry` writes |
| `Session.Session.ScheduleRetry` | `app/migration/store.py:1104-1129` | exactly the rows of a scheduled download, or no change when the switch, a stop or a point retry forbids it |
| `Session.Session.QueuePoint` | `app/migration/store.py:1249-1281` | exactly the rows of a queued point retry, or a refusal that changes nothing |
| `Session.Session.CancelLocal` | `app/migration/store.py:719-733` | exactly the rows of a cancellation, refused unless the job is stopped in full |
| `Session.Session.Recover` | `app/migration/store.py:1609-1624` | a restart puts a live job on hold and forgets what was in memory |
| `Session.Session.EnsureDir` | `app/migration/destination.py:354-379` | on success every directory of the plan above the entry is there, and the entry itself if it is one; nothing else of the job changes |
| `Session.Session.PutFile` | `app/migration/destination.py:448-474` | one upload is sent, at most; it succeeds exactly on a 201 and on a 202 with an operation to poll, and any other answer ends it with the error the answer stands for; unless the answer is accepted or uncertain the upload can no longer land |
| `Session.Session.PostMove` | `app/migration/destination.py:478-493` | one move is sent, at most, and its answer decides the end as for an upload |
| `Session.AnswersExactly` | `app/migration/destination.py:149-168` | a submission succeeds exactly on a 201 or on a 202 that can be polled, and its failure is certain exactly if it was not sent or was answered with a 4xx |
| `Session.Session.Poll` | `app/migration/destination.py:495-511` | after an operation is reported as over no upload of the attempt can land |
| `Session.Session.CountDownload` | `app/migration/runner.py:1399-1407` | one more download is counted unless the budget is used up; an attempt whose verified copy was purged starts at 0 |
| `Rules.PointStateExactly` | `app/migration/store.py:1316-1362` | when the end of a point retry leaves each state, as five iffs: a stop counts first, then a pause, then work that is left, then an unknown entry, and a job is completed exactly with all successes |
| `Rules.PointEndsLikeStep` | `app/migration/store.py:1323-1345` | with nothing left to do, all entries selected and retries on, the end of a point retry and `step` decide the same final state |
| `Rules.FinishPointRows` | `app/migration/store.py:1316-1362` | the end of a point retry touches one flag and the job, once; a job that waits for credentials goes on waiting and takes the state when it resumes |
| `Rules.NewAttemptRows` | `app/migration/store.py:1364-1425` | a new attempt is refused exactly under the stated conditions and with which error; it is one more row with a private path of its own, every other row stays, and a point retry gives the old attempt up and hands its copy on or leaves it there |
| `Rules.ConfirmRows` | `app/migration/store.py:1283-1314` | an existing copy is accepted exactly while a point retry of a file with a settled attempt is requested; no other row changes, and only an attempt that uploads to the destination itself has succeeded |
| `Rules.ScheduleRows` | `app/migration/store.py:1104-1129` | a download is scheduled exactly while retries are on, no stop is requested and nobody asked for a point retry; it then waits for its time, its budget and its copy untouched |
| `Rules.SwitchRows` | `app/migration/store.py:637-676` | turning the retries off fails exactly the waiting downloads, and turning them on again does not bring one back |
| `Rules.StopRows` | `app/migration/store.py:678-717` | when a stop of either kind is accepted, that it is recorded once, and that a full one withdraws every point retry and nothing else |
| `Rules.CancelRows` | `app/migration/store.py:719-733` | after a full stop exactly the entries in work or unknown are cancelled, once |
| `Rules.QueueRows` | `app/migration/store.py:1193-1281` | a point retry is queued exactly for a selected file that failed or is unknown, of a job at rest with its namespace, with nothing in work and the attempt the caller knows |
| `Rules.RecoverRows` | `app/migration/store.py:1609-1624` | a restart puts exactly the live jobs on hold and touches no other row; a second one changes nothing |
| `Rules.RestartAndResume` | `app/migration/api.py:499-523` | a job that a restart put on hold resumes before its plan, at its plan or at work, where it was |
| `Rules.AtRestOnly` | `app/migration/store.py:1216-1222` | neither a retry nor a point retry starts while any entry is in work |
| `Rules.ClearRows` | `app/migration/store.py:1464-1499` | forgetting copies changes no phase and no state: a row keeps its copy exactly when it is not named, and a download counter is reset exactly for a verified current copy among the names |
| `Rules.ClearTwice` | `app/migration/store.py:1464-1499` | forgetting copies in two steps is forgetting all of them at once |
| `Staging.Stager.Current` | `app/migration/runner.py:1132-1145` | the work goes on exactly when the source still has the planned file and its hash is known; otherwise the entry takes the state that says which of the two is missing, and nothing else happens |
| `Staging.Stager.CurrentOrCache` | `app/migration/runner.py:941-946` | a point retry with a copy that still matches the plan goes on with it; anything else asks the source |
| `Staging.Stager.Stage` | `app/migration/runner.py:1471-1487` | on success a local copy with the planned content belongs to the attempt: the one that was there if it matched, else what one more counted stream brought; each error is explained by how the copy was got, and a download is counted exactly when a stream was begun |
| `Staging.Stager.Discard` | `app/migration/runner.py:1471-1487` | what does not match is unlinked, and the download budget is given back exactly for a verified copy that is gone and was not submitted |
| `Staging.Stager.Fill` | `app/migration/runner.py:1515-1558` | a stream that ends with the planned content becomes the staged copy, any other end is the stated error, and the budget stays as it is |
| `Staging.Stager.Receive` | `app/migration/runner.py:1515-1556` | the file holds exactly what the stream sent, chunk by chunk, each one written right behind a passed checkpoint |
| `Staging.Stager.DownloadFailure` | `app/migration/runner.py:1409-1469` | a failed download is scheduled again exactly when the source is to blame, an attempt is left, retries are on, no stop and no point retry is requested; the partial copy is gone by then, rejected credentials give the attempt back, and any other error changes nothing |
| `Purge.Purger.CleanupCache` | `app/migration/runner.py:1632-1683` | wherever it is cut, a counter is only reset for a download that had reached a verified copy; complete, it has reset all of those and left no copy |
| `Purge.Purger.Confirm` | `app/migration/runner.py:1609-1630` | every download that is complete but not recorded is recorded before any copy is unlinked |
| `Purge.Purger.Unlink` | `app/migration/runner.py:1638-1683` | the copies go one by one and their names in one transaction, with the same guarantee at every cut |
| `Purge.ResetExactly` | `app/migration/store.py:1464-1499` | forgetting copies resets the counters of verified downloads among them, and no other counter |
| `Purge.ForgotAll` | `app/migration/store.py:1464-1499` | forgetting every copy that a row names leaves no name, and resets exactly the counters of verified downloads |
| `Faults.FailureGuard` | `app/migration/runner.py:1095-1130` | `_failure` may record any error: an attempt with an upload in flight becomes failed only through a conflict, with its entry out of retries, or once it was let go |
| `Faults.PointFailureGuard` | `app/migration/runner.py:948-992` | `_point_failure` never makes an attempt failed while its upload is in flight |
| `Faults.FlightPhases` | `app/migration/runner.py:1204-1345` | the phases in which an upload of an unfinished entry can be in flight |
| `Faults.RoomOfPoint` | `app/migration/runner.py:928-939` | an unsubmitted attempt of a point retry may be submitted although an earlier upload may land |
| `Faults.Handler.FailFile` | `app/migration/runner.py:1095-1130` | the state of the entry and the phase of the attempt that `_failure` leaves, for every error and every phase; behind them the job row is written exactly when retries are on and the error is uncertain or an outage: it then needs attention, unless it was being stopped |
| `Faults.NotedState` | `app/migration/runner.py:1117-1130` | behind an uncertain error or an outage the job needs attention while retries are on, unless it was being stopped, as long as nobody had asked for a point retry |
| `Faults.Handler.PointFailure` | `app/migration/runner.py:948-992` | the state and phase `_point_failure` leaves; the retry is repeated exactly for a repeatable error with attempts left, is over otherwise, and under a full stop nothing more happens; an outage then stops the job if retries are on |
| `Faults.Handler.FailDirectory` | `app/migration/runner.py:1095-1130` | a directory takes the error, also a root that was done and could not be published; with retries off exactly its planned dependants are given up with it unless the credentials as such were rejected, and with retries on an unsettling error stops the job |
| `Faults.Handler.SkipDependants` | `app/migration/runner.py:1086-1093` | exactly the planned selected entries below the directory are given up, and every other entry keeps its state and its attempt |
| `Faults.Handler.JobError` | `app/migration/runner.py:377-382` | the job state is written unless the job was stopped meanwhile, and no row is touched |
| `Transfer.FileTransfer.File` | `app/migration/runner.py:1169-1373` | a pass without an error ends with a succeeded attempt and a done entry exactly when the last look at the destination found the planned content by its hash and the source still has it; what cannot be compared ends as `verification_unavailable`, a changed source as `source_changed`, both with a failed attempt; other content at the destination is reported as a mismatch; an abandoned attempt is left alone; after any other error, malformed answers included, the entry is fit for the failure handling |
| `Transfer.FileTransfer.CheckDestination` | `app/migration/runner.py:1180-1186` | found is exactly a file with the planned content by its hash; what else is there is in the way, with a conflict, unless it is a file that an earlier upload of this entry may have put there; if nothing is in the way, an upload would not be one too many |
| `Transfer.FileTransfer.PointOverwrite` | `app/migration/runner.py:928-939` | a file at the destination may be overwritten exactly if an unsettled upload of another attempt, or of the one the retry was asked for, may have put it there |
| `Transfer.FileTransfer.Begin` | `app/migration/runner.py:1187-1203` | a file without an attempt is given up exactly when the source check says so, accepted as already there exactly when the planned content is, and gets an attempt otherwise |
| `Transfer.FileTransfer.CheckSource` | `app/migration/runner.py:1228-1235` | the work goes on exactly with an unchanged source or a verified copy of a point retry; otherwise entry and attempt are given up with the reason |
| `Transfer.FileTransfer.Verify` | `app/migration/runner.py:1147-1154` | going on exactly with the planned content seen by its hash; `verification_unavailable` and a failed attempt exactly without a node or a hash; a mismatch exactly with a hash and other content; what was delivered is never taken for anything else |
| `Transfer.FileTransfer.SubmitStage` | `app/migration/runner.py:1222-1274` | an upload is sent only behind a passed check of the source, and in a direct job behind a look at the destination that did not find the planned content |
| `Transfer.FileTransfer.ReportAgain` | `app/migration/runner.py:1214-1218` | a failed attempt is reported with the error it failed with |
| `Transfer.FileTransfer.Prepare` | `app/migration/runner.py:1222-1237` | the checks before a download: a direct job goes to the final verification exactly when the planned content is at the destination already, and else a copy is fetched exactly when the source still has the file; the attempt then is unsubmitted with room for an upload |
| `Transfer.FileTransfer.Fetch` | `app/migration/runner.py:1238-1245` | a verified local copy, whatever way it was got; or a download scheduled for an error that repeats, or an error that does not, with nothing submitted |
| `Transfer.FileTransfer.SaveIntent` | `app/migration/runner.py:1253-1256` | the intent is saved and a checkpoint passed before anything is sent |
| `Transfer.FileTransfer.Submit` | `app/migration/destination.py:412-476` | on success exactly one upload of the verified copy was sent, behind the saved intent; the answer alone decides how it ends |
| `Transfer.FileTransfer.Upload` | `app/migration/runner.py:1258-1274` | the error of an upload fails the attempt exactly when it is certain, not about credentials and classified; any other leaves it at its intent |
| `Transfer.FileTransfer.PollStage` | `app/migration/runner.py:1275-1316` | an operation that is over leads to the verification of what it made, one in progress leaves the attempt waiting, and a failed one is an error, which under a full stop is recorded at once; a malformed answer ends the wait and lets the attempt go |
| `Transfer.FileTransfer.Move` | `app/migration/runner.py:1338-1349` | on success exactly one move was sent, behind the saved intent |
| `Transfer.FileTransfer.MoveStage` | `app/migration/runner.py:1320-1349` | the temporary file is moved only when the planned content was seen there and the source still has it; what cannot be compared is given up, other content is a mismatch, and the answer to the move decides whether it is awaited or verified |
| `Transfer.FileTransfer.FinalStage` | `app/migration/runner.py:1350-1373` | an entry is done exactly when the planned content was seen at its destination by its hash and the source still has it; no hash or no file ends as `verification_unavailable` with a failed attempt, other content as a mismatch; a delivered file with a known hash is never taken for anything else |
| `Transfer.FileTransfer.Finish` | `app/migration/runner.py:1366-1368` | the entry is done and delivered, its attempt succeeded |
| `Transfer.FileTransfer.Proceed` | `app/migration/runner.py:1204-1221` | which part of the pass each persisted phase resumes: an unknown attempt is reported as such and left as it is, a failed one is reported with its error again, an abandoned one is left alone, and any other ends as its evidence says |
| `Transfer.FileTransfer.Cleanup` | `app/migration/runner.py:1691-1714` | exactly the attempts that are over lose their local copies; no delivered file and no other row is touched |
| `Runner.Runner.Step` | `app/migration/runner.py:680-868` | a step waits or finds its credentials rejected exactly when that is given, and is cut short only by a stop or a shutdown; it does nothing exactly when the job does not run or is being stopped, pauses a job that is to pause with nothing in progress, looks after a requested point retry exactly if there is one, gives up a scheduled download when retries are off, and otherwise waits, reports rejected credentials or a namespace in doubt, claims the namespace, or works on the entry that is next; each way says what it leaves; only the death of the process ends a step early |
| `Runner.Runner.TakeUp` | `app/migration/runner.py:802-831` | the entry that is next is worked on, and there is none exactly when a job that is to pause pauses, or one with nothing left takes its final state |
| `Runner.Runner.PassOn` | `app/migration/runner.py:742-831` | which way a step goes once nothing is requested or cancelled, from what is given, and what each way leaves |
| `Runner.Runner.WorkOn` | `app/migration/runner.py:802-867` | the entry is done, given up, waits or takes its error, as its evidence and its error say |
| `Runner.Runner.Complete` | `app/migration/runner.py:813-824` | the job is completed exactly when every selected entry succeeded, and needs attention exactly when one is unknown and retries are on |
| `Runner.Runner.WorkOnFile` | `app/migration/runner.py:831-867` | a pass over a file ends as its evidence says, or `_failure` records the error, whether classified or not; an abandoned file is left exactly as it was |
| `Runner.Runner.FileCaught` | `app/migration/runner.py:851-867` | what the handlers of `step` make of an error: an exception that nobody classified is uncertain exactly behind an intent; `_failure` records the error unless the credentials were rejected, which stops the job instead, and an outage with rejected credentials does both |
| `Runner.Runner.MakeEntryDirectory` | `app/migration/runner.py:825-850` | a directory entry is done once its directory is there, or takes the error as the handlers of `step` say |
| `Runner.Runner.DirectoryCaught` | `app/migration/runner.py:839-850` | what the handlers of `step` make of the error of a directory |
| `Runner.Runner.PointFile` | `app/migration/runner.py:879-914` | a point retry looks at the destination exactly when its attempt is to be replaced; the entry is then confirmed exactly when the planned content is there, and otherwise a pass over a new or continued attempt ends as its evidence says |
| `Runner.Runner.Replace` | `app/migration/runner.py:887-913` | an attempt is replaced by a new one exactly when the planned content is not at the destination yet; a conflict is reported exactly for a directory or a file that no upload of ours may have put there |
| `Runner.Runner.InTheWay` | `app/migration/runner.py:902-905` | what may not be replaced: a directory, or a file that no upload of this entry may have put there |
| `Runner.Runner.AlreadyThere` | `app/migration/runner.py:894-901` | the entry is verified, its attempt has succeeded if it uploads to the destination itself and is given up otherwise, and its local copy is gone |
| `Runner.Runner.MakePointAttempt` | `app/migration/runner.py:905-913` | the new attempt takes over the copy of the old one exactly when that matches the plan; a copy that does not, after anything but a failed download, is an error and nothing changes |
| `Runner.Runner.PointPass` | `app/migration/runner.py:711-782` | what a pass over a requested entry finds, and which way it goes: a job that is to pause pauses, a retry that starts over with no attempt left is over, any other one that starts over is counted once before the work; after a pass without an error it stays requested only while its entry is in work or unknown; after an error the entry and its attempt end as `_point_failure` leaves them; a full stop aside |
| `Runner.Runner.Normalise` | `app/migration/runner.py:709-723` | the state and phase that a pass finds: an attempt of an older build is unknown, and so is the entry of an unknown attempt |
| `Runner.Runner.TakeRoute` | `app/migration/runner.py:724-782` | which way a pass over a requested entry goes, and what each way leaves |
| `Runner.Runner.TryPoint` | `app/migration/runner.py:777-782` | how the work of a point retry settles the entry: confirmed, ended as the evidence says, or with its error; the request is then over unless the entry is in work or unknown |
| `Runner.Runner.PointCaught` | `app/migration/runner.py:755-782` | the same for the handlers of a point retry: `_point_failure` unless the credentials were rejected, which stops the job; the retry stays requested only with attempts left |
| `Runner.Runner.FinishUnlessActive` | `app/migration/runner.py:994-1000` | exactly the rows of `finish_point_retry`, unless the entry is in work or unknown or the job is being stopped in full: then nothing changes |
| `Runner.Runner.ClaimNamespace` | `app/migration/runner.py:783-801` | where the namespace column ends for every outcome: unclaimed only if a stop came before it or the claim was rejected for certain, at its intent only behind a stop or an answer that could not be read, unknown after an uncertain one, owned exactly after a success |
| `Runner.Runner.Claim` | `app/migration/runner.py:783-801` | the same for a claim that is sent, from the answer to it: it never ends unclaimed unless it was rejected for certain, also if the process dies; every failure is handled |
| `Runner.ClaimsExactly` | `app/migration/destination.py:381-394` | the namespace belongs to the job exactly after a 201, and is free again exactly if nothing was made for certain |
| `Runner.Runner.ClaimFailed` | `app/migration/runner.py:839-850` | a refused claim is recorded against the entry in progress, or against the job if there is none, and rejected credentials stop the job |
| `Runner.Runner.Retry` | `app/migration/runner.py:1560-1607` | every selected failed entry is planned again with a fresh budget and, if a file, a new attempt that takes over a matching copy; no other entry is touched; of a job at rest it is refused exactly when a selected failed file of a direct job has a current attempt that is not `failed`; a job not at rest is refused unchanged; a known outage is checked first and its error ends the retry, and the job then runs |
| `Runner.Runner.RetryFile` | `app/migration/runner.py:1592-1601` | the new attempt is unsubmitted and uses the old copy exactly when that still matches the plan |
| `Runner.Runner.StopJob` | `app/migration/runner.py:351-361` | the job is stopped, and after a full stop no entry is in work or unknown |
| `Runner.Runner.ResumeJob` | `app/migration/api.py:483-527` | a job resumes exactly when it is on hold, its namespace is certain and not all that is left is unknown; otherwise nothing changes |
| `Runner.Runner.Run` | `app/migration/worker.py:150-293` | any sequence of operations with crashes anywhere keeps the invariant, and without a stop every stuck entry stays stuck in the same state, unless it is a planned one that is given up with a directory above it |
| `Runner.Runner.Operate` | `app/migration/worker.py:150-293` | one operation of a run keeps the invariant and, stops aside, every stuck entry, with the same exception |
| `Publication.WholeRun` | `app/migration/source.py:513-586` | whatever the publisher does is a run of single steps; a request follows one that may have taken effect exactly when it follows one answered with 201 to 399, and never if no response is such; a root with a request that the code does not take for rejected stays at its intent or published; a root whose requests were all rejected is open again or published, unless a pass was cut short at it |
| `Publication.SafeExactly` | `app/migration/source.py:513-586` | over all runs, no request follows one that may have taken effect if and only if no response lies in 201 to 399 |
| `Publication.AcceptedTwice` | `app/migration/source.py:549-571` | the run in which a publication is accepted with 202 and then requested again |
| `Publication.Publisher.Update` | `app/migration/store.py:1071-1102` | which transitions are allowed; a root is reopened only when the code takes all its requests for rejected |
| `Publication.Publisher.BeforePublish` | `app/migration/runner.py:1032-1037` | the intent is saved between two checkpoints |
| `Publication.Publisher.Send` | `app/migration/source.py:532-543` | one request, recorded as it leaves together with the status of its response, if one came |
| `Publication.Publisher.Submit` | `app/migration/source.py:530-548` | one request, or two of which the first was answered with 401; the last answer is handed on, and an error is either a missing answer, uncertain, or a rejected token behind a 401, certain |
| `Publication.Publisher.Request` | `app/migration/source.py:531-541` | one request behind a saved intent, with a checkpoint on either side |
| `Publication.Publisher.Judge` | `app/migration/source.py:549-571` | the outcome is uncertain exactly without a response or with a server error, and is then remembered |
| `Publication.Publisher.EnsurePublication` | `app/migration/source.py:513-586` | nothing is sent for a root with an intent or a publication on record; a published root was answered with 200; an error behind a request is uncertain exactly if the last answer is missing, a 200 or a server error; a definite error leaves only requests that the code takes for rejected |
| `Publication.Publisher.PublishOne` | `app/migration/runner.py:1028-1067` | a root that could be requested and ends with a definite error has its failure on record and is open again, tolerated or not; the error is tolerated exactly with retries off and unless the credentials as such were rejected; a success is on record as published; only an unsettled request leaves an intent |
| `Publication.Publisher.Prepare` | `app/migration/runner.py:1008-1067` | it passes for a download, or with retries on, only when every wanted root is published; no other root is touched or requested; unless the pass is cut short at a root, none is newly left with an intent whose requests were all rejected |
| `Publication.Publisher.Run` | `app/migration/runner.py:1008-1067` | over any passes with crashes and restarts, a root whose requests were all rejected is left with an intent only where a pass was cut short |
| `Limiter.WholeRun` | `app/throttle.py:230-290` | in every interleaving lane slots and all slots keep their intervals, no window holds more than its share, nobody passes a barrier it could see, a caller queues at most once more than its barriers were raised during its call, a slot lies at most one interval of the slowest gate per queued caller past the clock or the latest barrier, and no barrier lies further ahead than the longest pause; without aborts the queue is exactly the callers whose slot lies ahead |
| `Limiter.WindowBound` | `app/throttle.py:261-284` | a window of a given width holds at most width over interval slots, rounded up |
| `Limiter.SpacedApart` | `app/throttle.py:184-207` | slots that keep the interval pairwise keep it over any distance |
| `Limiter.QueueBound` | `app/throttle.py:184-207` | the last slot lies at most one interval per reserved slot still ahead past the clock or the barrier |
| `Limiter.NewSlotBound` | `app/throttle.py:184-207` | a new slot lies at most one interval per reserved slot still ahead, and one more, past the clock or the barrier |
| `Limiter.AheadIsQueue` | `app/throttle.py:269-284` | every reserved slot still ahead is one that a caller waits for, or that a caller gave up |
| `Limiter.RateLimiter.Reserve` | `app/throttle.py:193-197` | the slot is exactly the first one that the clock, the barrier and the interval past the last slot leave; it lies at most one interval per reserved slot still ahead, and one more, past the clock or the barrier |
| `Limiter.RateLimiter.Penalize` | `app/throttle.py:209-222` | the barrier moves to the capped delay past the clock and never back |
| `Limiter.RateLimiter.Acquire` | `app/throttle.py:184-207` | it loops at most once per raise of the barrier during the call, and the slot it returns with is not overtaken |
| `Limiter.SplitRateLimiter.Reserve` | `app/throttle.py:269-276` | lane and parent are reserved together, at exactly the first tick that the clock, the two barriers in sight, the last slot of the lane and the last slot of all leave; with the same bound at the interval of the slowest gate |
| `Limiter.OtherLane` | `app/throttle.py:269-276` | a reservation of the other lane holds a caller up until one total interval behind it, and no longer |
| `Limiter.SplitRateLimiter.NotPushed` | `app/throttle.py:269-276` | the next slot lies at most one interval of the slowest gate past the last one, whichever lanes the earlier ones were in |
| `Limiter.SplitRateLimiter.PenalizeGate` | `app/throttle.py:286-290` | one of the three steps of a penalty raises one barrier to its capped delay and leaves the others |
| `Limiter.Traffic.Bounded` | `app/throttle.py:269-284` | the slot of every caller lies at most one interval of the slowest gate per caller in the queue past the clock or the latest barrier |
| `Limiter.Traffic.BarriersBounded` | `app/throttle.py:286-290` | no barrier lies further ahead than the longest pause |
| `Limiter.Traffic.TurnsBounded` | `app/throttle.py:261-284` | a caller of the split limiter queues again at most once per raise of its lane's barrier or the total barrier during its call |
| `Limiter.Traffic.Enqueue` | `app/throttle.py:269-276` | the slot of a new caller is exactly the first one left for its lane, and lies at most one interval of the slowest gate per caller in the queue, and one more, past the clock or the barriers |
| `Limiter.Traffic.Wake` | `app/throttle.py:277-284` | a caller passes exactly when no barrier it can see lies behind its slot; otherwise it queues again, and one of its barriers was raised since it queued last |
| `Cache.WholeRun` | `app/migration/runner.py:1489-1513` | from a start within the budget, staged bytes and unwritten promised bytes stay within it in every interleaving |
| `Cache.StagingCache.Admit` | `app/migration/runner.py:1489-1498` | a download is admitted exactly when disk and budget have room for everything promised |
| `Cache.StagingCache.Append` | `app/migration/runner.py:1535-1548` | an admitted download never trips the budget check, and a chunk moves bytes from promised to staged |
| `Cache.StagingCache.Release` | `app/migration/runner.py:1499-1503` | the promise of exactly that download ends |
| `Cache.StagingCache.Purge` | `app/migration/runner.py:1632-1636` | a purge is refused exactly while a promise is live; otherwise files go and none changes |
| `Cache.Admitted` | `app/migration/runner.py:1505-1513` | an admission adds exactly its size to what is committed |
| `Cache.Moved` | `app/migration/runner.py:1535-1548` | a chunk within its promise leaves the committed bytes as they are |
| `Cache.ChunkFits` | `app/migration/runner.py:1535-1548` | staged bytes and the next chunk stay within what is committed |
| `Paths.JoinPrefix` | `app/migration/store.py:950-974` | a joined path carries the prefix of another exactly when it lies below it |
| `Paths.DiskPrefix` | `app/migration/store.py:950-974` | the prefix of a directory is carried by exactly the paths below it |
| `Paths.DiskInjective` | `app/migration/runner.py:89-104` | canonical paths of different name lists differ |
| `Paths.ParentPaths` | `app/migration/store.py:78-84` | the paths above a path, nearest first, the root last |
| `Paths.ParentsAreAbove` | `app/migration/store.py:78-84` | a path is among the parents exactly when the other lies below it |
| `Selection.LastOperationDecides` | `app/migration/store.py:950-974` | an entry is selected exactly when the last operation that covers it selected it |
| `Selection.AlwaysClosed` | `app/migration/store.py:950-974` | every directory above a selected entry is selected, after any operations |
| `Selection.DefinitionsAgree` | `app/source_batches/store.py:271-283` | the two definitions of a partly selected directory agree everywhere exactly when the selection is closed upwards |
| `Selection.StoresAgree` | `app/migration/store.py:430-451` | after any operations the two stores call the same directories partly selected |
| `Selection.EntryTable.SetSelection` | `app/migration/store.py:950-974` | the update by prefix and by parent paths is the update on the tree |
| `Selection.EntryTable.Partial` | `app/migration/store.py:430-451` | partial means being above an entry that is not selected |
| `Selection.BatchTable.SetSelection` | `app/source_batches/store.py:285-300` | the two updates by pattern are the same update on the tree |
| `Selection.BatchTable.Partial` | `app/source_batches/store.py:271-283` | partial means being a directory above both a selected and an unselected entry, by its definition |
| `Selection.SameSelections` | `app/source_batches/store.py:285-300` | trees of the same shape have the same selections after the same operations |
| `Selection.BothStores` | `app/source_batches/store.py:271-300` | the two stores, one on source paths and one on destination paths, end with the same selection and the same partial marks |
| `Plan.DiskPathIsCanonical` | `app/migration/runner.py:89-104` | whatever is accepted comes out canonical |
| `Plan.DiskPathOfCanonical` | `app/migration/runner.py:89-104` | a canonical path is accepted exactly when its names are allowed, and left as it is |
| `Plan.DiskPathIdempotent` | `app/migration/runner.py:89-104` | normalising twice is normalising once |
| `Plan.TargetIsPlaced` | `app/migration/runner.py:506-517` | the target computed on strings is the destination followed by what remains of the source path |
| `Plan.PlacingPreserves` | `app/migration/runner.py:506-517` | the mapping of source to destination is injective and keeps the ancestor relation both ways |
| `Plan.InTreeIsWithin` | `app/migration/runner.py:513-516` | the tree check on strings accepts exactly the paths within the root |
| `Plan.CollidesIsOverlap` | `app/migration/runner.py:518-521` | the collision check on strings finds exactly the paths of which one contains the other |
| `Plan.PlanNode` | `app/migration/runner.py:506-535` | the path and the target of a node in terms of names; the node is refused as an invalid path, as outside of the tree or as a collision with the technical namespace exactly when its path is none, it does not lie within the root, its target is not allowed, or target and namespace contain one another |
| `Plan.MakePlan` | `app/migration/runner.py:506-542` | a plan is made exactly when nothing is wrong with any node and no two have the same normalised target, and otherwise refused for the first node with something wrong; it holds exactly the items of the nodes, each once, at different targets, in order |
| `Plan.SamePlaceExactly` | `app/migration/runner.py:522-525` | where the normalisation keeps targets apart, exactly nodes with the same canonical path have the same place |
| `Plan.PlannedExactly` | `app/migration/runner.py:506-537` | the items are exactly those of the nodes that have a place |
| `Plan.PlannedItems` | `app/migration/runner.py:506-537` | with nothing wrong every item stands for its node, at a target of its own |
| `Plan.PlanOrder` | `app/migration/runner.py:538-542` | in the sorted plan a directory precedes all its descendants |
| `Plan.SameTrees` | `app/migration/runner.py:500-542` | the source tree and the destination tree of a plan have the same shape |
| `Walk.WalkTree` | `app/migration/source.py:401-459` | on any server no path twice and parents first; on one that pages a fixed tree it ends within one request per node and folder and has yielded exactly the tree |
| `Walk.ListFolder` | `app/migration/source.py:410-459` | whatever the server answers, the pages up to the first one that is malformed, unacceptable or last are taken over and no other; under a fixed tree they hold exactly the listing, at one request per entry and one more |
| `Walk.ReadPage` | `app/migration/source.py:410-459` | one page is asked for and taken over, refused, or found changed |
| `Walk.TakePage` | `app/migration/source.py:435-456` | a page is taken over in full exactly when it holds new children of the folder only; otherwise up to the first item that does not fit, which is refused if it is no entry of the folder and a change of the tree if it is one that cannot be there |
| `Walk.AllReached` | `app/migration/source.py:401-459` | when no folder is left to list, every node of the tree was yielded |
| `Walk.NextUnlisted` | `app/migration/source.py:401-459` | nothing in the next folder was yielded before |
| `Walk.Affordable` | `app/migration/source.py:401-459` | the requests made so far stay below one per node and one per folder |
| `Retry.DisablesGrow` | `app/retry_policy.py:30-37` | two generations are equal exactly when the switch was not turned off in between |
| `Retry.RetryPolicy.SetEnabled` | `app/retry_policy.py:30-37` | every turn off, and no turn on, starts a new generation |
| `Retry.RetryPolicy.GenerationTells` | `app/retry_policy.py:21-28` | comparing generations tells exactly whether the switch is on and stayed on |
| `Retry.RetryPolicy.Wait` | `app/retry_policy.py:39-55` | a wait passes only if the switch was never turned off during it, and is cut short only if it was |
| `Retry.Source.Request` | `app/migration/source.py:86-165` | a GET is sent at most the given number of times and anything else once; a request is repeated only if it was not answered or answered with 429, 500, 502, 503 or 504, and then it is, unless the attempts are used up or the switch was turned off; no replay follows a turn off |
| `Retry.Source.SendUnlessCancelled` | `app/migration/source.py:95-118` | a replay is sent unless the switch was off or turned off since the call began; nothing is sent after a stop; otherwise what comes back is the answer |
| `Retry.BegunWhileOff` | `app/migration/source.py:86-165` | a run of two sends: a call begun while the switch is off repeats its request once the switch is turned on |
| `LocalTransfer.LocalList.Transfer` | `app/source_batches/service.py:982-1037` | the loop ends; each selected entry is saved, verified or failed, the first two with the planned file in place; no file that existed was changed and nothing that existed was downloaded; at most five downloads each |
| `LocalTransfer.LocalList.Work` | `app/source_batches/service.py:990-1017` | what is at the target already is verified exactly when it is the planned file, in the way otherwise, and never downloaded; what is not there is downloaded or made; one turn leaves all other entries |
| `LocalTransfer.LocalList.Turn` | `app/source_batches/service.py:984-1037` | exactly a stop and rejected credentials, unless access to the file is denied with retries off, leave the entry pending and end the transfer; any other error is its result; what was there is verified or failed, what was not is saved or failed |
| `LocalTransfer.LocalList.Download` | `app/source_batches/service.py:1056-1132` | at most five downloads, each repeated only after a retryable error of the source; it succeeds exactly with the last one, and no try follows one that found retries off; a retryable error is given up only after the fifth or with retries off |
| `LocalTransfer.LocalList.Try` | `app/source_batches/service.py:1060-1103` | a try is begun unless there is a stop or no space; it is counted exactly when it was begun and ends saved exactly when it passes |
| `LocalTransfer.LocalList.DownloadOnce` | `app/source_batches/service.py:1068-1101` | how each end of a stream ends the download: a complete stream with the planned content is linked into place, and never over another file |
| `LocalTransfer.LocalList.MakeFolder` | `app/source_batches/service.py:1004-1008` | a directory is made only where nothing is, and one that is there already counts |
| `LocalTransfer.LocalList.NextEntry` | `app/source_batches/store.py:319-322` | the first pending entry, or there is none |
| `LocalTransfer.OneLess` | `app/source_batches/store.py:319-328` | finishing one pending entry leaves one fewer |
| `DiskCopy.AllHandled` | `app/disk_copy.py:1152-1177` | every entry is handled exactly when the server cuts no page short |
| `DiskCopy.FullPages` | `app/disk_copy.py:1152-1177` | full pages add up to the listing |
| `DiskCopy.LastPage` | `app/disk_copy.py:1166-1175` | the page count computed from the total stops exactly at the end of the listing |
| `DiskCopy.Walk` | `app/disk_copy.py:1152-1177` | the loop over page numbers handles what the pages in steps of the limit hold |
| `DiskCopy.Copier.MakeLinks` | `app/disk_copy.py:1192-1207` | it passes exactly when nothing refused ends the copy, which with retries on or for refused access any refusal does; exactly the refused resources are then failures, in order |
| `DiskCopy.Copier.GetLinks` | `app/disk_copy.py:1209-1242` | of what is not blocked exactly the resources with a key become links and those without failures, in order |
| `DiskCopy.Copier.SaveLinks` | `app/disk_copy.py:1244-1270` | every collected link goes to the list of its outcome, in order; it passes exactly if access is never refused |
| `DiskCopy.EndingAll` | `app/disk_copy.py:1244-1270` | the lists of the outcomes hold every collected link exactly once |
| `DiskCopy.KeyedAll` | `app/disk_copy.py:1209-1242` | links and failures of the collection hold exactly what is not blocked |
| `DiskCopy.Copier.RecordResult` | `app/disk_copy.py:526-533` | which list a saved, skipped or unconfirmed resource goes to |
| `DiskCopy.Copier.Copy` | `app/disk_copy.py:1192-1270` | when the copy of a stable listing passes and what is then in each list; a resource has exactly one result, or none exactly when it lies strictly below one whose publication failed |
| `DiskCopy.Copier.OneResult` | `app/disk_copy.py:1192-1242` | publishing and collecting together give each resource one result or none, by the same condition |
| `DiskCopy.BlockedMeans` | `app/disk_copy.py:1213-1217` | the prefix test of the collection blocks exactly the failed resources and what lies below them |
| `DiskCopy.SiblingsAreNotHidden` | `app/disk_copy.py:1192-1242` | in the listing of one folder every resource has exactly one result |

## Left out

- HTTP, TLS, sessions, OAuth, JSON and response diagnostics: a remote call is its classified outcome.
- SQLite, schemas, file permissions and internal store errors: a transaction is one atomic step that only a crash prevents.
- The file system below a file with content (fsync, symbolic links, unlink failures), and stream buffering.
- The `url` strategy: new work is refused for it, and polling of its old operations is not modelled.
- Runner.Runner.Step: planning and publication inside the step are left out. `Plan` and `Publication` model them apart, and a queued job is left alone.
- Freezing the selection, `revalidate_verified_files` and the start of a job: runs begin with a frozen plan.
- Building clients: a stored configuration is usable, and only rejected credentials stop a step there.
- Cooldowns, transfer rates, poll pacing, source slots and the pause between files: a step is told whether it is not time yet (`later`).
- Journals, events, CSV export, redaction, routes, access checks and the user interface.
- Real MD5, and Unicode normalisation itself: it is an arbitrary function wherever the plan uses it.
- Plan.MakePlan: the checks before the walk (identity, type of the root, a namespace that exists already), the quota and `_full_plan` are left out.
- Overwrite permission of a point retry as a claim about earlier submissions: phases that allow it are reached without a sent upload.
- The completion of a child job that `app/source_batches/service.py` forces for an empty selection.
- `ThrottledSession.send`, which replays requests under the same switch and limiter as the modelled `_request`.
- `save_to_shared` and `save_local` of the personal-disk copy, and how one link is saved: only its outcome is modelled.
- Rows carry no paths: which entries lie below a directory is a fixed but arbitrary relation of the job (`below`).
- Moves, purges, scheduled downloads and the end of a point retry in `Runs`: they are covered by the methods and by `Safety.WholeRun` only.
- A proof that an execution of `Runner` is a run of `Runs`: both are built on the same effects and the same conditions (`NextUp`, `Retryable`, `Resumable`, `FinalState`, `NewAttempt` and the like), and both keep `Inv`.
- Session.Session.EnsureDir: levels that are no entry of the plan have no effect on the model.
- Runner.Runner.ResumeJob: a complete plan that was not started yet keeps its state in the source; such jobs are outside the model.
- The directory that a namespace claim makes on the server: only the answer and the column are modelled.
- Publication.WholeRun: the property is per job; a job planned anew has publication rows of its own.
- Walk.WalkTree: a consumer that stops asking is a walk that is cut.
- Cache.StagingCache.Admit: adding up the staging directory is one atomic read.
- LocalTransfer.LocalList.DownloadOnce: creating the parent directories of the target is left out.
- LocalTransfer.LocalList.Transfer: reserving local space and the journal are left out; other programs may add files but not change them.
- Retry.Source.Request: a client without a retry switch, whose looks at the switch all pass, and the length of the delays.
- Session.Session.Enter: which outage is on record is arbitrary; callers promise nothing about an action that an outage on record ends.
