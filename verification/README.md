# PiHerder: worker protocol, copy follow-ups, and five smaller cores

PiHerder runs host backups, Moves of compose projects between hosts, and copies of
backups to remote destinations as Celery tasks. Several workers share Job rows, a
per-host backup mutex, and a broker that redelivers. This project models that
protocol as step systems and proves what every run of them keeps. It also models the
push denylist scan, the version order of the update check, the cron builder, the
audit of admin reads, and the rule that there is always an admin.

| file | models |
|---|---|
| Life.dfy | status, start and finish stamp of a Job row, and the rules that change them |
| JobRow.dfy | the whole row with its details (log and keys), and a class that changes it in place |
| ServerLocks.dfy | the per-host mutex, single and dual, as values and as a class |
| Workers.dfy | backups, Moves, undo and recover tasks as one step system |
| WorkerSafety.dfy | the invariant of that system |
| WorkerRuns.dfy | results about its runs: exclusion, conservation, counts, rank, termination |
| Tasks.dfy | the two task bodies as imperative methods, and the proof that they refine the steps |
| Redelivery.dfy | one broker message over time |
| Copies.dfy, CopyRuns.dfy | copy jobs with their direct follow-up, and results about their runs |
| DiffScan.dfy | pattern list, diff scanner, diff printer, match |
| Version.dfy | tag parser, update order, printer |
| CronForm.dfy | the cron builder |
| ReadAudit.dfy | the five-minute dedupe of admin reads |
| AdminUsers.dfy | create, change of role and delete over the user table |
| Text.dfy, Wrappers.dfy | strip, split, join, decimal numbers; an option type |

## How the worker system is read

A state is a clock, a lock table and a map of jobs. A job is its task (a backup on one
host, or a Move, undo or recover on two), its row status, its one broker message with
the retry count, and a record of its past. One step is one database call, one lock
call or one broker call of one live delivery. Around the workers there are time, user
cancels, the stop request for a backup, failures set by the job service, worker deaths
with and without acknowledgement, redelivery, and the broker dropping a revoked
message. Any number of jobs interleave in any order.

Assumptions:

- Each database call, lock call and broker call is atomic and succeeds.
- Publishing a retry and acknowledging the delivery are one step. In Workers.dfy
  receipt and start are one step; Redelivery.dfy separates them by a wait of at most `hold`.
- A delivery ends before its hard time limit; a hard limit acknowledges the message.
- A key counts while its expiry lies strictly ahead, as in the process-local table; Redis
  expiry is taken to agree.
- Each job has one message, and a task has a job id.
- Source and destination of a Move differ where a lemma says so (app/routers/api_v1.py:1209).
- The foreign work of a task is any return or exception, chosen by the run.

## Where the code departs from what it promises

- A Move, undo or recover writes "running" without looking at the row
  (app/services/jobs_migrate.py:375-384, 649-655, 868-879). A cancel that lands between its first
  read and that write is overwritten, although `cancel_job` (app/services/jobs/service.py:629-631)
  says a cancel is kept. `WorkerRuns.CancelledMoveStillRuns` is the run, and
  `WorkerRuns.RankNeverFallsIff` says exactly when a status rank never falls.
- A backup whose worker died can go from "running" back to "pending" when it is redelivered
  while its own old key is in force (`WorkerRuns.KilledBackupFallsBack`).
- The stop request for a given backup job does not look at its status
  (app/services/jobs/service.py:592-599), so it turns a finished row into a cancelled one.
  `Life.TerminalChanges` says that nothing else does.
- The lock's time to live is configurable on its own (app/services/server_job_lock.py:23, 153-154), apart
  from the task time limit. Mutual exclusion holds exactly when it is at least that limit
  (`WorkerRuns.MutualExclusionIff`). Run counts, ranks, termination and the keys left behind do not
  depend on it.
- A direct copy can be asked for twice. An error that leaves the copy task past its handler, because
  `except Exception` (app/tasks.py:1053) does not catch it or because the handler itself raises, runs
  the finally block with the row still open; the failure signal then closes the row and asks again
  (`CopyRuns.EscapedErrorFollowsTwice`). `CopyRuns.FollowedAtMostOnceIff` says exactly when, and that
  a job no error left asks at most once.
- A death between the terminal write of a folder copy and its finally block loses the direct copy:
  the failure signal leaves a closed row alone (app/tasks.py:1145-1146; `CopyRuns.DeathLosesTheDirectCopy`).
- The diff scanner takes an inserted line that starts with "++ " for a file header. It strips the
  path, so a path that ends in whitespace, which git prints unquoted, is misread: for a file whose
  name is one blank nothing is reported (`DiffScan.BlankNameHidesInsertions`), and a denied insertion
  there passes as clean (`DiffScan.BlankNameHidesDenied`). It also splits at breaks that are no line
  feed, such as a form feed: the rest of an inserted line is not seen (`DiffScan.BreakHidesTheRest`,
  `DiffScan.LiteralBehindBreakIsMissed`), and the rest of a removed line can be reported as inserted
  (`DiffScan.BreakReportsTheRemoved`). When nothing around the inserted texts has such a break, the
  scan is exact if and only if no inserted text has one or starts with "++ " and no file with an
  insertion has a path that ends in whitespace (`DiffScan.TextScanInvertsPrintIff`). An exact scan
  makes the whole check right (`DiffScan.ScanReports`). The converse is false, because a break at the
  end of a line does no harm (`DiffScan.TrailingBreakIsHarmless`); for each folding
  `DiffScan.ReportsDeniedIff` and `DiffScan.CleanIfNoneDeniedIff` say exactly when the check is right
  for every pattern text.
- The cron builder drops fields after the fifth exactly when it rebuilds the schedule
  (`CronForm.BuilderKeepsFields`; `CronForm.SixthFieldIsLost` is an input); its documentation
  mentions only what the selects cannot show.
- "One read row per token and path every 5 minutes" (app/routers/api_admin.py:67) fails when two
  reads query before either writes (`ReadAudit.OverlappingReadsRepeat`; the routes are plain
  functions and run in threads). Over every run it holds exactly when no write meets a row of its
  own token and label that is at most 300 seconds old (`ReadAudit.RunStaysSpacedIff`).
- `bad_role` (app/routers/auth_users.py:393-394) cannot be reached: an unknown role is a viewer
  (`AdminUsers.RoleIsTakenUnlessLastAdmin`).
- "Always keep at least one admin" (app/routers/auth_users.py:395) holds over every run of
  overlapping requests exactly when no commit finds its target to be the only active admin and takes
  its role or its row (`AdminUsers.AdminKeptIff`); a check that would pass again at the commit is
  enough (`AdminUsers.RecheckedKeepsAdmin`). Two overlaps break it. With several web processes two
  admins can check each other before either commits (`AdminUsers.CheckedTogetherLeavesNoAdmin`). The
  shipped setup runs one process (docker-compose.yml:87), in which the handlers check and commit
  without a pause; there the requester's own row, read earlier in the same session by
  `get_current_user` (app/security/auth.py:560), can be stale
  (`AdminUsers.StaleRequesterLeavesNoAdmin`), and nothing else can
  (`AdminUsers.LostOnlyByStaleRequester`, `AdminUsers.OneProcessKeepsAdmin`).

## Model

| member | source | states |
|---|---|---|
| `Life.WritesOfAnOpenRow` | app/tasks.py:1219-1265 | what each rule writes on an open row: the update and the finish the status they are called with, the failure Failed, the cancel Cancelled, each with its stamps |
| `Life.WritesOfAClosedRow` | app/services/jobs/service.py:1949-1958 | on a closed row only a stop and a second terminal update write anything |
| `Life.TerminalClosure` | app/tasks.py:1219-1265 | under every interleaving of row writes a terminal row never reopens, a cancelled row stays cancelled (unchanged unless stopped again), the start stamp is written once, and the finish stamp is there exactly when the row is terminal |
| `Life.TerminalChanges` | app/services/jobs/service.py:592-599 | a terminal row becomes cancelled exactly when a stop request hits it; success and failed may otherwise only turn into each other |
| `Life.BegunKeepsSettledIff` | app/services/jobs_migrate.py:375-384 | the first write of a Move keeps the row's rules exactly when the row was open |
| `JobRow.CappedKeepsTheLast` | app/tasks.py:1245 | a cap of 15 keeps the end: entry k of the result is entry n - m + k of n lines cut to m |
| `JobRow.LogRefinesHistory` | app/tasks.py:1237-1245 | capping after every batch equals capping the whole deduplicated history once |
| `JobRow.LogIsLastFifteenDistinct` | app/tasks.py:1242-1245 | the stored log is the suffix of length at most 15 of the history without adjacent repeats |
| `JobRow.NotedLineIsLast` | app/tasks.py:1240-1245 | after a noted line the stored log ends with that line |
| `JobRow.RepeatedWaitIsIdempotent` | app/tasks.py:1229-1249 | repeating a waiting update changes nothing, and the log stays within 15 lines |
| `JobRow.UpdateSetsItsKeys` | app/tasks.py:1253-1261 | an update sets exactly the keys it brings, or none when it is refused |
| `JobRow.UpdateWrites` | app/tasks.py:1229-1265 | an update of an open row writes its status and, when terminal, its stamp; a waiting update ends the log with its line, any other replaces the log it brings |
| `JobRow.SignalWrites` | app/tasks.py:1155-1166 | the failure signal on an open row: Failed, the stored texts, and the log ends with the text |
| `JobRow.MarkWrites` | app/services/jobs/service.py:228-246 | a cancel or sweep sets status and stamp, and the log ends with the message, cut at 240 |
| `JobRow.MarkWritesKeys` | app/services/jobs/service.py:228-242 | every key it leaves, with its text |
| `JobRow.CancelTextIs` | app/services/jobs/service.py:638 | the message a cancel stores: stripped, cut at 240, and "Cancelled by user" for a blank one |
| `JobRow.PipedKeepsTheLast` | app/services/jobs/service.py:1697-1714 | the pipeline log is the suffix of length at most 40, and each key it brings is stored |
| `JobRow.FinishWrites` | app/services/jobs/service.py:1949-1966 | the finish of an open row writes the status it is called with, its stamp, its keys, and its line last |
| `JobRow.UpdateKeepsControls` | app/tasks.py:1253-1261 | no worker update changes a key the dispatch reads |
| `JobRow.SignalKeepsControls` | app/tasks.py:1156-1163 | neither does the failure signal |
| `JobRow.MarkKeepsControls` | app/services/jobs/service.py:228-246 | neither does a cancel or a failure set by the job service |
| `JobRow.Job.Note` | app/tasks.py:1240-1245 | the loop over new lines computes the log of which `CappedKeepsTheLast` and `NotedLineIsLast` say what it keeps |
| `JobRow.Job.UpdateStatus` | app/tasks.py:1214-1265 | the in-place update leaves the row the specification gives, in every branch |
| `JobRow.Job.FailReplicate` | app/tasks.py:1138-1172 | it answers true exactly for an open copy row, closes that row as failed with the text as last log line, and leaves any other alone |
| `JobRow.Job.Begin` | app/services/jobs_migrate.py:375-384 | the pipeline's first write: running since now, whatever the row was, with its line and keys |
| `JobRow.Job.Finish` | app/services/jobs/service.py:1913-1966 | the pipeline's finish gives an open row the status it is called with and the stamp, and keeps a terminal row |
| `JobRow.Job.AppendPiped` | app/services/jobs/service.py:1697-1714 | the pipeline's merge of one line or a whole log, with its own cap of 40 lines |
| `JobRow.Job.Cancel` | app/services/jobs/service.py:634-664 | a cancel is refused on a terminal row; otherwise the row is cancelled now and its log ends with the cleaned message |
| `JobRow.Job.MarkTerminal` | app/services/jobs/service.py:217-246 | the write shared by cancels, stops and sweeps: status, stamp, keys, and the message last in the log |
| `ServerLocks.EffectiveIsAtLeastThirty` | app/services/server_job_lock.py:153-154 | a lock lives as long as it is asked to, and 30 seconds at least |
| `ServerLocks.FreeIffNotInForce` | app/services/server_job_lock.py:91-101 | a host is free exactly when no key for it is in force, so from the second its expiry is reached |
| `ServerLocks.AscendingIsSorted` | app/services/server_job_lock.py:193-197 | hosts are taken once each, the lower id first |
| `ServerLocks.ReleaseUndoesAcquire` | app/services/server_job_lock.py:227-249 | release with the right token restores the keys in force before the acquire |
| `ServerLocks.DualReleaseUndoesAcquire` | app/services/server_job_lock.py:209-224 | the same for two hosts, and for a pair on one host |
| `ServerLocks.ForeignReleaseIsNoOp` | app/services/server_job_lock.py:104-113 | a release with another token changes nothing |
| `ServerLocks.LockStore.TryAcquire` | app/services/server_job_lock.py:139-174 | a token exactly when the host is free, and then the key with its expiry, at least 30 seconds ahead |
| `ServerLocks.LockStore.Release` | app/services/server_job_lock.py:227-249 | true exactly for the stored token, and then the key is gone |
| `ServerLocks.LockStore.TryAcquireDual` | app/services/server_job_lock.py:177-206 | both keys exactly when both hosts are free, the lower id drawn first, tokens in the caller's order, and otherwise no change to the keys in force |
| `ServerLocks.LockStore.ReleaseDual` | app/services/server_job_lock.py:209-224 | both keys back, one key once |
| `WorkerSafety.StepKeepsInv` | app/tasks.py:187-454 | every step of every job and every event around it keeps the invariant of the worker system |
| `WorkerSafety.RunKeepsInv` | app/tasks.py:463-701 | so does every run, when locks last as long as tasks |
| `WorkerSafety.RunKeepsJobs` | app/tasks.py:463-701 | every run keeps its job part and the account of the keys, however long a lock lasts |
| `WorkerSafety.StepKeepsLedger` | app/tasks.py:448-453 | keys taken are keys given back, left by a death, or held, after every step |
| `WorkerRuns.MutualExclusionIff` | app/tasks.py:190-196 | no two deliveries in a work section share a host, over every run, exactly when a lock lasts as long as a task may run |
| `WorkerRuns.LongTaskOverlaps` | app/services/server_job_lock.py:153-154 | the run of two backups on one host when the lock is shorter |
| `WorkerRuns.DefaultsAreSound` | app/celery_app.py:25 | the shipped limits, 7200 seconds for the task and for the lock, meet the condition, and no shorter lock does |
| `WorkerRuns.LockConservation` | app/tasks.py:448-454 | keys in the table belong to live deliveries under their own token or to deliveries that died, and every job's ledger balances; when locks last as long as tasks, a holder's key is also in force |
| `WorkerRuns.ExitLeavesNoKey` | app/tasks.py:437-454 | a delivery that ended in any way but a death left no key, so nobody waits while holding |
| `WorkerRuns.QuietMeansFree` | app/tasks.py:587-604 | with no live delivery and no death every host is free |
| `WorkerRuns.AcquireRefinesDualLock` | app/services/server_job_lock.py:196-206 | the key-by-key acquire does what the dual lock promises |
| `WorkerRuns.BackupBounds` | app/tasks.py:45-48 | runs at most 1 plus redeliveries, deliveries at most 182 plus redeliveries, countdowns at most 3630 seconds |
| `WorkerRuns.WaitsAnHour` | app/tasks.py:229-254 | the run that attains the bound on waits: 180 lock waits, 3600 seconds of countdown, the row still pending |
| `WorkerRuns.BackupBoundsAreAttained` | app/tasks.py:437-444 | the run that attains all of them: 182 deliveries and 3630 seconds without a redelivery |
| `WorkerRuns.SuccessIsEarned` | app/tasks.py:285-310 | a row shows success only after work that returned with success |
| `WorkerRuns.EarnedSuccessIsShown` | app/tasks.py:285-310 | the converse over all runs: where the terminal status is written after the work, an open row gets Success if the work returned with success, else Failed |
| `WorkerRuns.ReturnedWorkIsRecorded` | app/tasks.py:285-310 | from the return of the work a delivery goes to that write, a backup unless it was cancelled |
| `WorkerRuns.EventsWriteOneRow` | app/services/jobs/service.py:217-246 | a cancel and a stop make a row cancelled, the job service makes it failed, a flush makes a pending one running, and nothing else changes |
| `WorkerRuns.ClosedWaiterMayLeave` | app/tasks.py:222-228 | a backup that finds its host taken and its row closed meanwhile leaves without a retry |
| `WorkerRuns.LateErrorFailsTheRow` | app/tasks.py:382-444 | an error after the terminal write fails the row of a backup, a successful one included, unless it was cancelled |
| `WorkerRuns.RetryAfterWorkIsSkipped` | app/tasks.py:437-444 | the retry after work finds a terminal row and does not work again |
| `WorkerRuns.MoveRunsAtMostOnce` | app/tasks.py:500-505 | a Move, undo or recover works at most once, deaths included, and never while its row is pending |
| `WorkerRuns.RankFallsIff` | app/tasks.py:1220-1228 | a step lowers the status rank exactly in the two named cases, and only they end a cancel |
| `WorkerRuns.RankNeverFallsIff` | app/tasks.py:493-505 | over a whole run the rank never falls exactly when neither case occurs |
| `WorkerRuns.CancelledMoveStillRuns` | app/services/jobs_migrate.py:375-384 | the run in which a Move overrides a cancel |
| `WorkerRuns.KilledBackupFallsBack` | app/tasks.py:239-249 | the run in which a backup row goes from running to pending |
| `WorkerRuns.StepMeasure` | app/tasks.py:229-254 | each own step lowers the measure, no other step raises it, a redelivery raises it by at most 21 |
| `WorkerRuns.OwnStepsBounded` | app/tasks.py:229-254 | own steps in a run are bounded by the measure plus 21 for each redelivery |
| `WorkerRuns.NewJobTerminates` | app/tasks.py:45-48 | a new job takes at most 4546 own steps plus 21 for each redelivery |
| `WorkerRuns.DrainsAlone` | app/tasks.py:221-254 | from every reachable state a queued or live job gets to its acknowledgement by its own steps alone |
| `Tasks.BackupServer` | app/tasks.py:187-454 | one delivery of a backup, with or without a cancel while it works: its whole row with log and keys, the same keys in force as before, and for an open row which status it shows and how the delivery ends, in numbers |
| `Tasks.MigrateTask` | app/tasks.py:607-701 | the same for a Move, undo or recover, with the update that records an exception when the finish fails; a pending row shows Success exactly when its pipeline ended with success and nobody cancelled |
| `Tasks.BackupWaitsOrFails` | app/tasks.py:220-254 | an open row whose host is taken stays pending and is retried in 20 seconds if retries < 180, and is failed and ended otherwise, with the stored texts |
| `Tasks.BackupEndsAtOnce` | app/tasks.py:203-214 | a missing server fails an open row, and a closed row is skipped; neither is retried |
| `Tasks.BackupShowsItsOutcome` | app/tasks.py:285-310 | a backup that works shows Success exactly when its work returned with success, and is retried after 30 seconds exactly when that work raised a transient error |
| `Tasks.BackupStoresItsOutcome` | app/tasks.py:285-310 | the keys and the log it leaves, with their texts and cuts |
| `Tasks.CancelledBackupStaysCancelled` | app/tasks.py:287-294 | a cancel while it works is what the row shows, and the delivery is not retried |
| `Tasks.MoveWaitsOrFails` | app/tasks.py:512-548 | a pending row with a host taken is retried in 20 seconds if retries < 180, and is failed and ended otherwise |
| `Tasks.MoveIsNotWorkedAgain` | app/tasks.py:491-505 | a row found running is failed with the restart message, a closed one is left alone |
| `Tasks.MoveShowsItsOutcome` | app/services/jobs/service.py:1949-1966 | a pipeline that works shows Success exactly when it finished with success, and is not retried |
| `Tasks.MoveStoresItsOutcome` | app/services/jobs/service.py:1926-1966 | the keys and the last log line that its finish leaves |
| `Tasks.MoveStoresItsError` | app/tasks.py:558-586 | an exception is stored, cut at 800, by the finish or by the update in its place |
| `Tasks.PipelineStarts` | app/services/jobs_migrate.py:375-384 | what the first write leaves: running since now, what it is doing, not done, and its line last in the log |
| `Tasks.CancelledMoveStaysCancelled` | app/services/jobs/service.py:1949-1951 | a cancel after the first write is what the row shows, whatever the pipeline still writes |
| `Tasks.BackupServerRefines` | app/tasks.py:187-454 | that body is a run of the worker's own steps, and of the cancel if one arrives, with the same effect on status, broker message and keys |
| `Tasks.MigrateTaskRefines` | app/tasks.py:463-604 | the same for the Move body |
| `Redelivery.NoOverlapIff` | app/celery_app.py:25-30 | a message has at most one open execution, over all timed runs, exactly when its task acknowledges on receipt or wait and limit fit under the visibility timeout |
| `Redelivery.LateTaskOverlaps` | app/celery_app.py:26-28 | the run with two executions otherwise |
| `Redelivery.ConfiguredTasksDoNotOverlapIff` | app/celery_app.py:25-30 | with the shipped numbers a host job may be held for 3600 seconds before it starts, and no second longer; the copy task for any time |
| `Redelivery.CopyNeedsItsEarlyAck` | app/tasks.py:970-976 | with its limit of 7 days the copy task would overlap itself if it acknowledged late |
| `Redelivery.ReceivedOnceIff` | app/celery_app.py:26-28 | over every run a message is received at most once exactly when it is acknowledged on receipt |
| `Redelivery.LateMessageIsNotLost` | app/celery_app.py:26-28 | a message that is acknowledged late is queued or will be handed out again until an execution ends, over every run with deaths |
| `Redelivery.EndedTaskStaysEnded` | app/celery_app.py:26-30 | once an execution of a task within the limits has ended, its message is never received again |
| `CopyRuns.TestsAgree` | app/tasks.py:1104-1121 | the failure signal's test equals the body's test wherever the destination exists |
| `CopyRuns.WhoFollows` | app/tasks.py:1012-1018 | who gets a direct copy: a row that asks for it, names no archive and is not itself direct; for the signal also only while its destination exists |
| `CopyRuns.ArchiveIsBlankIff` | app/tasks.py:1012 | the archive key counts as blank exactly when absent, empty, zero, false or only whitespace |
| `CopyRuns.DirectNeverFollows` | app/services/backup_replicate.py:2008-2016 | a row made for a direct copy of any parent asks for no further copy |
| `CopyRuns.RunKeepsInv` | app/tasks.py:977-1082 | every run keeps the invariant of the copy system |
| `CopyRuns.FollowedExactlyOnce` | app/tasks.py:1074-1082 | a finished job that no error left asked for its direct copy exactly once if it wanted one and no recorded reason stopped it, else never, whatever happens to other jobs |
| `CopyRuns.ReasonsAreReal` | app/tasks.py:956-962 | each recorded reason holds at the step that records it: skipped, seen cancelled, destination gone, cut short by a death, or already closed |
| `CopyRuns.CancelledRowIsNotFollowed` | app/tasks.py:957-959 | from a state in which a row is cancelled and not yet read for the follow-up, no run makes a call for it, and it stays cancelled |
| `CopyRuns.ChainsHaveLengthTwo` | app/services/backup_replicate.py:1992-2016 | the parent of a direct copy has no parent, and the copy has no child |
| `CopyRuns.DirectCopiesItsParent` | app/services/backup_replicate.py:1992-2016 | over every run: the row of a direct copy always reads the destination, scope and user of its parent, as its parent was created and as it reads now, with direct_host true, no direct_after and no archive |
| `CopyRuns.MadeCopyIsShown` | app/tasks.py:1028-1050 | where the terminal status is written, an open row gets Success if the copy returned with success, else Failed |
| `CopyRuns.StartedCopyIsStored` | app/tasks.py:1007-1008 | a copy that starts is shown as running and copying |
| `CopyRuns.CallCreatesDirect` | app/services/backup_replicate.py:1992-2016 | the call creates a fresh row with the parent's destination, scope and user, linked both ways |
| `CopyRuns.EventsWriteOneJob` | app/services/jobs/service.py:217-246 | a cancel makes one open row cancelled, a failure by the job service makes it failed, each with its message last in the log; a removed destination is gone and no row changes |
| `CopyRuns.CopyStoresItsOutcome` | app/tasks.py:1028-1072 | the texts that each outcome of a copy leaves in its row |
| `CopyRuns.MissingDestinationIsStored` | app/tasks.py:1007-1011 | a copy without its destination is failed and says so |
| `CopyRuns.DispatchIsStable` | app/tasks.py:1012-1018 | the dispatch keys read the same at every point of a row's life |
| `CopyRuns.EscapedErrorFollowsTwice` | app/tasks.py:1053-1082 | the run with two follow-ups, for an error the handler does not catch and for one of the handler |
| `CopyRuns.DeathLosesTheDirectCopy` | app/tasks.py:1145-1146 | the run in which a death after the success is written and before the finally block asks leaves a copy without its direct half |
| `CopyRuns.FollowedAtMostOnceIff` | app/tasks.py:1138-1172 | over every run a job asks at most once exactly when no failure signal that closed its open row asks again after the finally block did; never twice without an escaped error, never three times |
| `DiffScan.ParsePatterns` | scripts/check_push_denylist.py:22-34 | the loop's patterns, and patterns plus short lines are the lines that are neither blank nor comments |
| `DiffScan.PatternsAre` | scripts/check_push_denylist.py:26-33 | what is a pattern: a stripped line of at least four characters that is no comment |
| `DiffScan.AddedLines` | scripts/check_push_denylist.py:51-79 | the loop equals the fold of the scanner's step, with the error of a bad hunk header |
| `DiffScan.OtherPaths` | scripts/check_push_denylist.py:57-64 | a path without the prefix is taken as it stands, the null device as none |
| `DiffScan.NullDeviceIsNotReported` | scripts/check_push_denylist.py:71-75 | lines added to no path are counted and not reported |
| `DiffScan.OtherHeaders` | scripts/check_push_denylist.py:66-70 | what any hunk header sets the number to: the text after the first plus up to a comma, zero without one, and an error when it is no number |
| `DiffScan.ScanInvertsPrintIff` | scripts/check_push_denylist.py:51-79 | scanning any printed diff gives exactly the inserted lines with path and number, if and only if none starts with "++ " and no file with an insertion has a path that ends in whitespace |
| `DiffScan.TextScanInvertsPrintIff` | scripts/check_push_denylist.py:56-79 | on the text, through splitlines: an exact scan always needs inserted texts without a break and without "++ " in front and paths that do not end in whitespace, and this is also enough when nothing around the texts has a break |
| `DiffScan.BreakHidesTheRest` | scripts/check_push_denylist.py:56-78 | the run in which the part of an inserted line after another break is not reported |
| `DiffScan.BreakReportsTheRemoved` | scripts/check_push_denylist.py:56-75 | the run in which a removed line is reported although nothing is inserted |
| `DiffScan.TextScanTells` | scripts/check_push_denylist.py:56-75 | whatever is printed, only unbroken texts that do not start with "++ " are reported, under paths that are not empty and do not end in whitespace |
| `DiffScan.BlankNameHidesInsertions` | scripts/check_push_denylist.py:58-73 | the run in which no insertion of a file named by one blank is reported |
| `DiffScan.BlankNameHidesDenied` | scripts/check_push_denylist.py:121-124 | so a denied insertion of such a file passes as clean, for every folding |
| `DiffScan.LiteralBehindBreakIsMissed` | scripts/check_push_denylist.py:121-124 | a denied insertion passes as clean when its literal sits behind a break, for every folding |
| `DiffScan.TrailingBreakIsHarmless` | scripts/check_push_denylist.py:121-124 | a break at the end of an inserted line leaves the check right for every pattern text |
| `DiffScan.NumbersIndexNewFile` | scripts/check_push_denylist.py:66-75 | every reported number indexes that very text in the new file |
| `DiffScan.InsertedAreAddedTexts` | scripts/check_push_denylist.py:71-75 | nothing is missed, nothing added, in order |
| `DiffScan.MatchingLocations` | scripts/check_push_denylist.py:82-91 | the loop equals its specification, for any folding |
| `DiffScan.MatchesIff` | scripts/check_push_denylist.py:86-90 | a text matches exactly when some pattern stands in it, both folded |
| `DiffScan.MatchingIs` | scripts/check_push_denylist.py:87-91 | a place is reported exactly when some line there matches |
| `DiffScan.ScanReports` | scripts/check_push_denylist.py:121-127 | end to end, for every pattern text and folding: under the conditions of an exact scan the check reports exactly the places of denied insertions, and is clean exactly when there is none |
| `DiffScan.ReportsDeniedIff` | scripts/check_push_denylist.py:121-127 | for each folding: the reported places are right for every pattern text if and only if the scan does not crash and each possible literal hits the same places in reported and inserted lines |
| `DiffScan.CleanIfNoneDeniedIff` | scripts/check_push_denylist.py:121-124 | for each folding: the verdict is right for every pattern text if and only if the scan does not crash and each possible literal occurs in a reported text exactly when it occurs in an inserted one |
| `DiffScan.ExactScanReports` | scripts/check_push_denylist.py:82-91 | after an exact scan the reported places are those of inserted lines that contain, after folding, a kept literal, and no others |
| `Version.IsStrictWeakOrder` | app/version_info.py:64-80 | irreflexive, asymmetric, transitive on all strings; level exactly when both parse to the same pair |
| `Version.NewerMeans` | app/version_info.py:68-80 | newer by the first differing number, else a release over a suffix, else the first differing character |
| `Version.ParseUndoesRender` | app/version_info.py:52-61 | parsing undoes rendering of every number list and every suffix on one line, the suffix in lower case, whatever marks stand between or after them, under whitespace and a leading v |
| `Version.ParseOfNoNumber` | app/version_info.py:53-58 | a tag that starts with no digit is version zero with its whole text, in lower case, as suffix |
| `Version.ParseOfBrokenTag` | app/version_info.py:56-58 | so is a tag with a line feed after its numbers |
| `CronForm.BuilderPrintsWhatItShows` | app/services/backup_cron_form.py:10-38 | a schedule that shows one minute and hour and at most one of a day of the month and a day of the week, each in range, is printed as just those numbers; every other text is only stripped |
| `CronForm.BuilderIsIdempotent` | app/services/backup_cron_form.py:18-38 | saving a saved schedule changes nothing, for every string |
| `CronForm.BuilderKeepsFields` | app/services/backup_cron_form.py:25-38 | the first five fields keep their text or number; fields after them are lost exactly when the schedule is rebuilt |
| `CronForm.SixthFieldIsLost` | app/services/backup_cron_form.py:29-33 | the input "0 3 * * * x" is saved as "0 3 * * *" |
| `CronForm.BuilderKeepsMeaning` | app/services/backup_cron_form.py:19-24 | under every reading of fields in which digits stand for their number, the schedule fires at the same times |
| `CronForm.EqualSchedulesPrintAlike` | app/services/backup_cron_form.py:32-37 | schedules with equal fields are saved as one text |
| `ReadAudit.ReadWritesIff` | app/routers/api_admin.py:75-96 | a read writes exactly when the flag is on and no row of its token and label is from the last 300 seconds; its row comes last, stamped at the write |
| `ReadAudit.LabelOfARead` | app/services/api_read_audit.py:45-50 | the label: single blanks, at most 200 characters, "read" for an empty text and for one that holds a token in any case |
| `ReadAudit.AuditTable.AuditAdminGet` | app/routers/api_admin.py:66-96 | the new table, and a row that covers the read |
| `ReadAudit.SerialReadsStaySpaced` | app/routers/api_admin.py:78-88 | over every serial run rows of one token and path are more than 300 seconds apart |
| `ReadAudit.WindowBound` | app/routers/api_admin.py:27 | any window of L seconds holds at most L / 300 rounded down, plus one, of them |
| `ReadAudit.EveryReadIsCovered` | app/routers/api_admin.py:79-96 | every read with the flag on has a row at most 300 seconds old |
| `ReadAudit.RunStaysSpacedIff` | app/routers/api_admin.py:78-96 | over every run of overlapping reads the rows of a token and label stay spaced exactly when no write of theirs meets a row of theirs at most 300 seconds old |
| `ReadAudit.AloneIsRecorded` | app/routers/api_admin.py:75-96 | query and write of one read, alone, are the read |
| `ReadAudit.WriteStaysSpacedIff` | app/routers/api_admin.py:79-88 | the step of that result: an appended row keeps the spacing exactly when the query would still be empty then |
| `ReadAudit.OverlappingReadsRepeat` | app/routers/api_admin.py:67 | the run of two reads that both query first and both write |
| `AdminUsers.UserTable.CountAdmins` | app/security/auth.py:491-494 | the loop counts the active admins |
| `AdminUsers.UserTable.IsSoleAdmin` | app/security/auth.py:497-501 | true exactly for an admin when at most one active admin is left |
| `AdminUsers.UserTable.SetUserRole` | app/routers/auth_users.py:382-421 | outcome and table of a role change, and an active admin remains |
| `AdminUsers.UserTable.DeleteUser` | app/routers/auth_users.py:425-460 | outcome and table of a delete, and an active admin remains |
| `AdminUsers.UserTable.CreateUser` | app/routers/auth_users.py:158-206 | outcome and table of a create, and an active admin remains |
| `AdminUsers.AlwaysAnAdmin` | app/routers/auth_users.py:395-398 | every sequence of requests keeps an active admin once there is one |
| `AdminUsers.RoleIsTakenUnlessLastAdmin` | app/routers/auth_users.py:392-405 | a change is refused exactly for the last admin's role, otherwise that user alone gets the normalized role |
| `AdminUsers.RolesAreRead` | app/security/auth.py:477-480 | a role text is admin, operator or viewer in any case and between blanks; every other text is viewer |
| `AdminUsers.DemotionIsRefusedIff` | app/routers/auth_users.py:392-401 | a role change is refused exactly for an admin, when no two active admins exist, by a role that is not admin |
| `AdminUsers.DeleteTakesPlaceIff` | app/routers/auth_users.py:425-447 | a delete takes place exactly when the target is not the requester, not the last admin, and confirmed by one of the five texts; then that row alone goes; otherwise nothing changes and the answer names the first failing test |
| `AdminUsers.CreateTakesPlaceIff` | app/routers/auth_users.py:158-206 | a create takes place exactly for an address with an at sign, an accepted password and a free address; the row comes last, active, with its role normalized; otherwise nothing changes and the answer names the first failing test |
| `AdminUsers.MissingUserIsNotFound` | app/routers/auth_users.py:389-391 | a request about nobody changes nothing |
| `AdminUsers.AddressesStayDifferent` | app/models.py:10 | however requests overlap, no address is stored twice |
| `AdminUsers.AdminKeptIff` | app/routers/auth_users.py:395-405 | every state of every run of overlapping requests keeps an active admin exactly when no commit takes the last one |
| `AdminUsers.CommitKeepsAdminIff` | app/routers/auth_users.py:402-405 | the step of that result, for role change, delete and create |
| `AdminUsers.CommittedIsHandled` | app/routers/auth_users.py:441-447 | a check on the table itself followed by its commit is the handler |
| `AdminUsers.RecheckedKeepsAdmin` | app/routers/auth_users.py:396-398 | runs in which each check would pass again at its commit keep an active admin |
| `AdminUsers.LostOnlyByStaleRequester` | app/security/auth.py:560-561 | when a commit directly follows its check, the last admin is lost only if the requester was demoted after its own row was read |
| `AdminUsers.OneProcessKeepsAdmin` | app/routers/auth_users.py:395-405 | over every run in which each commit directly follows its check an active admin remains, unless a requester was demoted between the read of its own row and its check |
| `AdminUsers.CheckedTogetherLeavesNoAdmin` | app/routers/auth_users.py:396-405 | the run in which two admins check each other before either commits, by role change and by delete |
| `AdminUsers.StaleRequesterLeavesNoAdmin` | app/security/auth.py:491-494 | the run in one process in which a demoted requester's kept row still counts as an admin |

## Left out

- The work itself (rsync, rclone, Docker, SSH, HTTP): any return or exception.
- Direct copies that take and refresh the backup key of their hosts inside that work.
- Lost updates inside one transaction, database errors that are logged and ignored, malformed JSON in details.
- A backup without a job id: it has no row to stop its retries.
- The write of recovery details before a restarted Move is failed (app/services/jobs_migrate.py:188-258).
- Exclusive jobs, housekeeping and nmap tasks, and the sweep of web-process jobs.
- Scope, credentials and the lookup of an active direct copy inside the follow-up enqueue: a call may or may not create the row.
- A destination id stored as text, and details rows written by hand.
- Choice of the diff range, quoted paths in diffs, and spellings that Python's int() takes besides plain digits: a hunk header with those is the error case.
- Digits, letter case and case folding beyond ASCII; the scan takes any folding function.
- The role sync at an OIDC login (app/services/oidc_svc.py:692-716), which demotes by the same check and write, as one more overlapping request.
- Demo mode, e-mail of alerts, audit rows of admin requests, and the host command that may delete the last admin on purpose.
- Tasks.BackupServer: one delivery in which at most a cancel interferes, after the row was marked running; any other interleaving is a run of the step system. Progress lines flushed while the backup works are not part of its row.
- Tasks.MigrateTask: likewise; the details that the pipeline itself writes between its start and its end, and the navigation keys that a finish takes from a JSON snippet, are not part of its row.
- CopyRuns.FollowedExactlyOnce: the follow-up call itself succeeds; an error there is logged and the copy is not started.
- ReadAudit.RunStaysSpacedIff: a row is stamped at the step that makes it visible, and its write is not lost to an error.
- DiffScan.TextScanInvertsPrintIff: whether a break in a path, a heading, a kept or a removed text does harm in a given diff; `DiffScan.BreakReportsTheRemoved` shows that it can.
