# jobd, verified

A Dafny model of jobd: a controller that keeps a job queue, the worker daemons that take jobs
from it, the daemons' own local queues, and three codecs that these depend on (worker tokens,
shell quoting of shown commands, worker labels). `dafny verify dfyconfig.toml` checks it.

## What is modelled

**The controller's scheduler.** `SchedulerModel` has one function per operation on the two
tables (jobs and workers); `Scheduler` (in module `SchedulerObject`) is the object that updates
the tables statement by statement, proved equal to those functions, with both unique indexes
holding after each statement that touches them. `SchedulerInvariant` proves what every
operation keeps, `SchedulerQueue` what each does to the queued order, `SchedulerEffects` which
rows and columns each may change, when it succeeds and with which error it fails, `SchedulerCancel`
what sets and clears a cancellation.

**The protocol.** `ProtocolModel` puts the scheduler and any number of daemons into one state
machine whose clients retry over a network that loses requests and replies; `ProtocolProofs`
carries an invariant through every step and draws the safety theorems from it; `ProtocolProgress`
shows what is achieved when messages get through. `Execution` is
one job on a daemon, `ActiveJob` the cancellation race inside a daemon, `ControllerClient` the
retry loop of one request.

The protocol rests on three assumptions, which the source also makes: one live daemon per
worker id (the daemon's file lock); a daemon's crash ends its job process; and the controller
executes no request after its client has given up on it. Without the third, a late duplicate
report could meet a later assignment of the same job to the same worker, and the two theorems
about records and about executing jobs would be false.

**The queue as a list.** `QueueOrder` relates rows sorted by (queue_position, sequence) to a plain
list; `LocalModel`, `LocalProofs`, `LocalEffects`, `LocalBatch` and the class `LocalQueue` do for the daemon's queue
what the scheduler modules do for the controller. `EntryOrder` is the first-in-first-out
argument on lists, `BatchLists` the list part of batches.

**Codecs.** `Base64Url` and `WorkerTokens` for tokens; `Bash` (a parser of simple commands) and
`ShellQuote` for shown commands; `WorkerLabels` and `WorkerLookup` for labels and the
lookup that reads them back. HMAC (RFC 2104) over a key derived by HKDF (RFC 5869) is one
uninterpreted function of secret and payload.

## Where the code falls short of what one would expect

The model follows the code in each case.

- Controller `submit` places a job at its sequence number, `retry` one past the largest position.
  After retries a new job can tie with or overtake a retried one, and swapping a tied pair
  changes nothing. `OperationIsListOpIff` gives the exact condition under which an operation
  still does what its list operation says, `SubmitAppendsIff` and `SwapExchangesIff` say it for the two
  operations concerned, and `RetriedJobIsOvertaken` is a concrete run. The local queue uses
  the largest position in both places and has no such gap.
- The daemon never forgets the last cancellation request. A cancelled job that is retried and
  claimed by the same daemon is cancelled again at once (`OldRequestCancelsAgain`,
  `RetriedJobCancelledAgain`).
- A terminal report leaves the cancellation flag of the row set; only retry and expiry clear it
  (`FlagChanges`).
- `tooling/e2e/test_cancellation.py:59-60` expects a cancellation to stop further remote claims.
  `worker/worker.go:105` exempts cancelled results, so it does not, and the model does not either
  (`OnlyCleanExitSucceeds`, last clause).
- An error text is truncated before the exit code is put in front of it, so it can exceed the 4096
  characters that a report may carry. `ErrorFitsIff` says exactly when.
- A label can name the wrong worker if another worker's whole id equals it. `LabelAmongMore` gives
  the exact condition, `LabelCanMislead` an example; with ids of one length it cannot happen.

## Model

| member | source | states |
|---|---|---|
| ProtocolProofs.LaunchedAtMostOnce | worker/worker.go:22-90 | In every run with lost requests, lost replies, retries, crashes and restarts, the command of each assignment is launched at most once. |
| ProtocolProofs.RestartNeverReruns | worker/worker.go:82-90 | A daemon is about to run, or runs, only assignments made after it started; one it finds at its restart it never runs. |
| ProtocolProofs.ExecutingJobIsAssigned | worker/worker.go:92-128 | While a daemon executes a remote job the controller shows it running, assigned to that daemon and current there, unless that assignment expired. |
| ProtocolProofs.NoTwoExecuteWithoutExpiry | controller/src/jobs/scheduler.ts:75-92 | Two daemons execute one job at once only as two assignments of which the earlier has expired. |
| ProtocolProofs.RecordsTellTheOutcome | controller/src/jobs/scheduler.ts:397-428 | A job recorded succeeded was launched exactly once in its newest assignment, by the worker the record names, and exited with code 0 and no error; one recorded failed was expired, or carries that worker's restart report, or that worker's own unsuccessful result, with the exit code of its own command if that ran. |
| ProtocolProgress.LostClaimRepeats | controller/src/jobs/scheduler.ts:366-367 | From every reachable state in which a daemon may get work: after a claim whose reply is lost, the repeated claim hands out the one assignment that the first made. |
| ProtocolProgress.LostReportRepeats | controller/src/jobs/scheduler.ts:407-408 | A report repeated after a lost reply is accepted and changes nothing further. |
| ProtocolProgress.JobGetsDone | worker/worker.go:45-110 | From every reachable state in which a daemon is idle and may get work, for every ending there is a run in which it claims the head of the queue, launches its own command once and has that ending recorded with its exit code and output path. |
| ProtocolProgress.DisabledGainsNothing | worker/client.go:195-200 | In any run, a daemon whose remote work is off, and that is not inside a claim, is given no assignment until it is started again. |
| ProtocolProgress.DisabledStillRuns | worker/job_execution.go:36-39 | A job claimed before remote work was turned off is still launched. |
| ProtocolProofs.StepOk | controller/src/jobs/scheduler.ts:358-428 | Every step of the protocol keeps the invariant tying tables, assignment log and daemons together. |
| Execution.OnlyCleanExitSucceeds | worker/client.go:99-102 | A result is reported as a success exactly if the command exited by itself with code 0 and no error; every result fits what the controller accepts in a report; after which endings remote work stops. |
| Execution.ResultTellsEnding | worker/executor_linux.go:62-93 | A result carries the command's own exit code (none for an interrupted command that exits zero), an error exactly if the command did not exit cleanly, and the reason of an interruption. |
| Execution.ErrorFitsIff | worker/executor_linux.go:87-108 | The error of a result keeps within 4096 characters unless a failed wait had a text too long for the prefix in front of it. |
| Execution.ExecuteJob | worker/job_execution.go:18-45 | The command is launched exactly if the context is alive at both checks, the argv is not empty, the output file exists, and the output path was accepted or remote work is off; otherwise the result is a failure without an exit code; when the result counts as cancelled by the user. |
| Execution.Execute | worker/executor_linux.go:30-74 | The result of a launched command is the one its ending gives, with its own exit code; a failed start gives its error. |
| SchedulerInvariant.RunningJobsMatchBusyWorkers | controller/src/jobs/scheduler.ts:49-58 | In every reachable state running jobs and busy workers correspond one to one, both unique indexes hold, and no claim or heartbeat of a registered worker misses a job. |
| SchedulerInvariant.ApplyConsistent | controller/src/jobs/scheduler.ts:75-428 | Every operation keeps the agreement of the two tables. |
| SchedulerInvariant.HeldClaim | controller/src/jobs/scheduler.ts:358-388 | A claim creates an assignment only of the head of the queue to a worker that holds nothing and is not paused; a repeated claim returns the job held and changes no job and no assignment. |
| SchedulerInvariant.HeldOther | controller/src/jobs/scheduler.ts:75-356 | No operation other than claim and finish gives or takes an assignment, except that expiry ends those of silent workers. |
| SchedulerInvariant.ReportEndsOnlyOwnAssignment | controller/src/jobs/scheduler.ts:390-428 | A terminal report ends exactly the job its worker holds, or changes nothing at all; and exactly when an unchanged report is accepted. |
| SchedulerInvariant.ExpiryIsExact | controller/src/jobs/scheduler.ts:75-92 | Expiry fails exactly the running jobs of workers silent for two minutes, clears their flags, frees the workers, and touches no other row. |
| SchedulerInvariant.RefreshProtects | controller/src/jobs/scheduler.ts:322-372 | A worker heard from less than two minutes ago, through registration, heartbeat or claim, keeps its assignment through an expiry. |
| SchedulerEffects.RowsKept | controller/src/jobs/scheduler.ts:75-428 | Every operation leaves every surviving row as it was, except the columns it is for, in the rows it concerns. |
| SchedulerEffects.CommandNeverChanges | controller/src/jobs/scheduler.ts:75-428 | Over any run, for as long as a job exists, its command and creation time stay. |
| SchedulerEffects.OutputOnlyFromHolder | controller/src/jobs/scheduler.ts:269-278 | An output path is accepted exactly from the worker that holds the job, and changes that column only; any other report is refused, with which error, and changes nothing. |
| SchedulerEffects.ReorderWritesPositions | controller/src/jobs/scheduler.ts:221-254 | When a reorder succeeds, with which error it fails, and that it writes nothing but positions: one below the smallest queued one, or two crosswise. |
| SchedulerEffects.SubmitWrites | controller/src/jobs/scheduler.ts:116-134 | The whole new row, and that nothing else changes. |
| SchedulerEffects.CancelOnlyRunning | controller/src/jobs/scheduler.ts:256-267 | Exactly a running job can be cancelled, and only its flag is written. |
| SchedulerEffects.RetryCounts | controller/src/jobs/scheduler.ts:197-219 | When a retry fails, and that it counts what it requeued. |
| SchedulerEffects.RemoveTakesOne | controller/src/jobs/scheduler.ts:188-195 | After expiry a removal takes exactly one row that is not running, or none. |
| SchedulerEffects.ClearTakesFinished | controller/src/jobs/scheduler.ts:160-170 | After expiry exactly the finished rows go; ids restart exactly if no row is left. |
| SchedulerEffects.RemoveAllKeepsRunning | controller/src/jobs/scheduler.ts:172-186 | After expiry exactly the running rows stay, and each count is right. |
| SchedulerEffects.RegisterWrites | controller/src/jobs/scheduler.ts:322-334 | Registering again writes host name and time and no other column; a new worker starts idle and unpaused. |
| SchedulerEffects.HeartbeatWrites | controller/src/jobs/scheduler.ts:336-356 | A heartbeat writes the time, and the token's expiry only if it comes with one. |
| SchedulerEffects.PauseWrites | controller/src/jobs/scheduler.ts:280-312 | Pausing and resuming write one flag of the one worker found. |
| SchedulerEffects.ClaimWrites | controller/src/jobs/scheduler.ts:358-388 | A claim writes the claimed row and the claiming worker's, returns the row as it then is, and finds nothing only for a paused worker or an empty queue. |
| SchedulerEffects.FinishWrites | controller/src/jobs/scheduler.ts:390-428 | A holder's report writes the outcome it carries and frees the worker; any other is refused, with which error, or repeats what is recorded, and changes nothing. |
| SchedulerEffects.ExpiryWrites | controller/src/jobs/scheduler.ts:75-92 | Every row and worker after an expiry, written out. |
| SchedulerInvariant.OutputPathSurvives | controller/src/jobs/scheduler.ts:269-278 | The holder's output path is accepted and is still recorded after the job ended by report or by expiry. |
| SchedulerInvariant.FinishedRowIsFinal | controller/src/jobs/scheduler.ts:397-428 | Over any run without retry or removal, a finished or expired record is never altered, late reports included. |
| SchedulerInvariant.PausedWorkerGainsNothing | controller/src/jobs/scheduler.ts:280-388 | From a pause until a resume, over any operations, a worker holds only what it held before. |
| SchedulerCancel.FlagChanges | controller/src/jobs/scheduler.ts:256-267 | For every operation and surviving row: only cancelling the running job sets the flag; only its retry or expiry clears it. |
| SchedulerCancel.HeartbeatNames | controller/src/jobs/scheduler.ts:336-356 | A heartbeat names a job exactly if its worker holds it and its cancellation was requested. |
| SchedulerCancel.CancellationReachesHolder | controller/src/jobs/scheduler.ts:256-356 | After a cancellation every heartbeat names the job, over any run in which the worker keeps holding it. |
| SchedulerCancel.FlaggedClaimIsRepeated | controller/src/jobs/scheduler.ts:358-388 | A claim that returns a job with the flag set repeats an assignment made before; a new assignment never starts cancelled. |
| SchedulerQueue.OperationIsListOpIff | controller/src/jobs/scheduler.ts:116-254 | An operation changes the queued order as its list operation does if and only if it is faithful: a submission meets no larger position, a swap no tie in its way. |
| SchedulerQueue.SubmitAppendsIff | controller/src/jobs/scheduler.ts:116-134 | A submission goes last if and only if no queued position exceeds the new sequence number. |
| SchedulerQueue.SwapExchangesIff | controller/src/jobs/scheduler.ts:221-246 | A swap exchanges two places and nothing else if and only if their positions differ and no third job tied with either has a number between theirs; swapping a tied pair changes nothing. |
| SchedulerQueue.UrgentMovesToFront | controller/src/jobs/scheduler.ts:247-252 | In all runs urgent puts its target strictly first and keeps the others' order. |
| SchedulerQueue.RetryAppends | controller/src/jobs/scheduler.ts:197-219 | In all runs retry puts its targets strictly last, a retry of all in (position, sequence) order, and keeps the others' order. |
| SchedulerQueue.FaithfulRunIsListRun | controller/src/jobs/scheduler.ts:116-388 | Over a run of faithful operations the table refines a plain list. |
| SchedulerQueue.RunWithoutRetryIsListRun | controller/src/jobs/scheduler.ts:116-388 | In every run without retry the queued order is what the list operations make of the empty list. |
| SchedulerQueue.RetriedJobIsOvertaken | controller/src/jobs/scheduler.ts:127-129 | A concrete run after which a new submission overtakes a retried job. |
| SchedulerObject.Scheduler.ExpireWorkers | controller/src/jobs/scheduler.ts:75-92 | The tables after the two updates are those of the expiry function, and the indexes hold between them. |
| SchedulerObject.Scheduler.SubmitJob | controller/src/jobs/scheduler.ts:116-134 | Inserts one new queued row with a fresh id. |
| SchedulerObject.Scheduler.ClearFinished | controller/src/jobs/scheduler.ts:160-170 | Expires, drops finished rows, and restarts the ids only if no row is left. |
| SchedulerObject.Scheduler.RemoveAllJobs | controller/src/jobs/scheduler.ts:172-186 | Keeps exactly the running rows; the counts are those of the kept rows and of the rest. |
| SchedulerObject.Scheduler.RemoveOne | controller/src/jobs/scheduler.ts:188-195 | Removes one row that is not running, after expiry. |
| SchedulerObject.Scheduler.RetryJobs | controller/src/jobs/scheduler.ts:197-219 | The loop requeues its targets one by one and leaves the tables of the retry function. |
| SchedulerObject.Scheduler.ReorderJob | controller/src/jobs/scheduler.ts:221-254 | Checks every target first, then writes positions of its one or two targets and nothing else. |
| SchedulerObject.Scheduler.RecordOutput | controller/src/jobs/scheduler.ts:269-278 | Succeeds exactly for the holder, and writes the path of that row only. |
| SchedulerObject.Scheduler.SetWorkerPaused | controller/src/jobs/scheduler.ts:280-312 | Exact ids win, then a unique prefix; otherwise an error and no change. |
| SchedulerObject.Scheduler.RegisterWorker | controller/src/jobs/scheduler.ts:322-334 | Registering again writes host name and time only. |
| SchedulerObject.Scheduler.RecordHeartbeat | controller/src/jobs/scheduler.ts:336-356 | Refreshes the worker and never meets a missing job. |
| SchedulerObject.Scheduler.ClaimJob | controller/src/jobs/scheduler.ts:358-388 | The tables of the claim function, the indexes holding between its two updates; it fails only for an unknown worker. |
| SchedulerObject.Scheduler.FinishJob | controller/src/jobs/scheduler.ts:397-428 | The tables of the finish function, the indexes holding between its two updates. |
| SchedulerObject.Scheduler.Batch | controller/src/api/batch.ts:4-29 | A batch is a run of single operations on the distinct targets, backwards for urgent; successes and failures split them in argument order, each failure with the error its target met; urgent and retry accept exactly the targets whose status admitted it at the start, removal exactly those that were there and are gone; urgent leaves the accepted targets first in argument order ahead of the rest in its old order, retry leaves them last, removal takes them out. |
| BatchLists.UrgentEnd | controller/src/api/batch.ts:12-27 | Targets moved to the front one by one, last argument first, end up ahead of all others in argument order. |
| BatchLists.DistinctsOk | controller/src/api/batch.ts:9 | Deduplication keeps every target once. |
| BatchLists.SplitsReversed | controller/src/api/batch.ts:24-27 | Reversing the results of a batch handled backwards gives the split of the targets in argument order. |
| QueueOrder.OrderPushBack | worker/local_queue.go:195-197 | A row placed after all others joins the list at its end and moves nothing else. |
| QueueOrder.OrderPushFront | worker/local_queue.go:279-280 | A row placed below all others moves to the head and moves nothing else. |
| QueueOrder.SwapExchangesIffClean | worker/local_queue.go:282-289 | Writing two positions crosswise exchanges two places of the list if and only if the swap is clean. |
| LocalModel.LocalSequenceInvertsId | worker/local_queue.go:100-109 | Exactly the printed forms local-N with N from 1 to the largest int64 are ids, each of its own row. |
| LocalProofs.OperationIsListOp | worker/local_queue.go:177-403 | Every operation of the local queue keeps queued positions distinct and does to the queue exactly what its list operation does: append, pop, move to front, exchange, drop. |
| LocalProofs.RunIsListRun | worker/local_queue.go:177-403 | In every run the local queue is a plain list. |
| LocalProofs.ClaimPops | worker/local_queue.go:201-209 | Claim takes the head of the list, or nothing from an empty one. |
| LocalProofs.RequeuedRows | worker/local_queue.go:387-396 | The retry loop appends its targets in the order in which it takes them. |
| LocalProofs.RequeueTouchesOnly | worker/local_queue.go:387-396 | Retry makes exactly its targets fresh again, flag included, and touches no other row. |
| LocalProofs.LocalOutcomeAgrees | worker/local_queue.go:234-240 | The local queue records success exactly when the same result would be reported to the controller as one. |
| LocalProofs.NotesSurviveEnd | worker/local_queue.go:211-253 | Output path and cancellation flag of a running row survive its end, no other row is touched, and a second report is rejected. |
| LocalEffects.RowsKept | worker/local_queue.go:177-403 | Every operation leaves every surviving row as it was, except the columns it is for, in the rows it concerns. |
| LocalEffects.CommandNeverChanges | worker/local_queue.go:177-403 | Over any run, for as long as a local job exists, its command and creation time stay. |
| LocalEffects.SubmitWrites | worker/local_queue.go:177-200 | For exactly which reasons, in which order, a command is refused; otherwise the whole new row, and nothing else changes. |
| LocalEffects.ClaimWrites | worker/local_queue.go:201-209 | A claim writes status, time, worker and host of one row, and finds nothing only if none is queued. |
| LocalEffects.RunningOnly | worker/local_queue.go:211-253 | Finish, output and cancel succeed exactly for the id of a running row; otherwise which error, and nothing changes. |
| LocalEffects.ReorderWritesPositions | worker/local_queue.go:255-295 | When a reorder succeeds, with which error it fails, and that it writes only positions. |
| LocalEffects.RetryCounts | worker/local_queue.go:346-398 | When a retry fails, with which error, and that it counts what it requeued. |
| LocalEffects.RetryAllTakesFailed | worker/local_queue.go:353-386 | A retry of all takes exactly the failed rows. |
| LocalEffects.RemoveTakesOne | worker/local_queue.go:297-314 | A removal takes exactly one row that is not running, or none. |
| LocalEffects.RemoveAllKeepsRunning | worker/local_queue.go:321-340 | Exactly the running rows stay, and each count is right. |
| LocalEffects.ClearTakesFinished | worker/local_queue.go:400-403 | Exactly the finished rows go, and numbers are never used again. |
| LocalProofs.RecoverFailsRunning | worker/local_queue.go:241-244 | Recovery fails exactly the running rows and keeps their places and output paths. |
| LocalProofs.ClaimsFollowEntryOrder | worker/local_queue.go:177-209 | In any run without urgent or swap, jobs are claimed in the order in which they last entered the queue. |
| EntryOrder.ClaimsInOrder | worker/local_queue.go:201-209 | The same on plain lists: entry numbers increase strictly along the claims. |
| LocalQueueObject.LocalQueue.SubmitJob | worker/local_queue.go:177-200 | Checks the command in the source's order, then inserts a row that is queued last. |
| LocalQueueObject.LocalQueue.ClaimJob | worker/local_queue.go:201-209 | Marks the head of the queue running and returns it. |
| LocalQueueObject.LocalQueue.FinishJob | worker/local_queue.go:211-240 | Ends a running row with the result's status; rejects any other id. |
| LocalQueueObject.LocalQueue.SetOutput | worker/local_queue.go:211-233 | Writes the output path of a running row only. |
| LocalQueueObject.LocalQueue.RecoverJobs | worker/local_queue.go:241-244 | No row is left running. |
| LocalQueueObject.LocalQueue.CancelJob | worker/local_queue.go:245-253 | Sets the flag of a running row only. |
| LocalQueueObject.LocalQueue.ReorderJob | worker/local_queue.go:255-295 | Moves a queued job to the front or exchanges two queued jobs, or changes nothing. |
| LocalQueueObject.LocalQueue.RemoveJob | worker/local_queue.go:297-314 | Removes a row that is not running; says so exactly if a row went. |
| LocalQueueObject.LocalQueue.RemoveAllJobs | worker/local_queue.go:321-340 | Keeps exactly the running rows, counts both parts, and leaves the queue empty. |
| LocalQueueObject.LocalQueue.RetryJobs | worker/local_queue.go:346-398 | Appends its failed targets to the queue, all of them in (position, sequence) order without an id. |
| LocalQueueObject.LocalQueue.ClearFinished | worker/local_queue.go:400-403 | Drops exactly the finished rows. |
| LocalQueueObject.LocalQueue.UniqueTargets | worker/local_batch.go:23-37 | The validation loop rejects a bad count or id, and otherwise keeps the first of each trimmed target in argument order. |
| LocalQueueObject.LocalQueue.BatchJobs | worker/local_batch.go:20-64 | A bad list or action changes nothing; otherwise distinct targets split into successes and failures in argument order, a target succeeds exactly if its row admitted the action when the batch began and otherwise carries the error it met, and urgent, retry and remove leave the queue that a list reader expects. |
| LocalBatch.TrimmedCuts | worker/local_batch.go:29 | Trimming cuts white space and nothing else from both ends. |
| Base64Url.RegroupKeepsBits | controller/src/api/worker-tokens.ts:21-26 | The six-bit numbers spelled by the encoder hold the bits of the bytes in order, then fewer than six zero bits. |
| Base64Url.EncodedText | controller/src/api/worker-tokens.ts:21-26 | Every byte string of length n has one text of ceil(4n/3) characters of the url alphabet, without padding. |
| Base64Url.EncodedSpelling | controller/src/api/worker-tokens.ts:21-26 | Each six-bit number is spelled by its character of the alphabet of section 5 of RFC 4648. |
| Base64Url.DecodeAcceptsExactlyEncodings | controller/src/api/worker-tokens.ts:28-36 | The decoder accepts exactly the non-empty outputs of the encoder and returns the bytes that produced them. |
| Base64Url.CodecIsInjective | controller/src/api/worker-tokens.ts:21-36 | No two accepted texts share bytes, no two byte strings share a text. |
| WorkerTokens.VerifyAcceptsExactly | controller/src/api/worker-tokens.ts:122-170 | A token is accepted as certain claims exactly if it is the printed form of those claims and the time is from issue up to but excluding expiry, within the longest lifetime. |
| WorkerTokens.PrintedVerifies | controller/src/api/worker-tokens.ts:77-170 | A printed token verifies to its own claims while in force and to nothing otherwise. |
| WorkerTokens.AcceptedIsPrinted | controller/src/api/worker-tokens.ts:122-170 | Re-printing the claims of an accepted token gives that token back. |
| WorkerTokens.TokenLength | controller/src/api/worker-tokens.ts:128 | Queue names of 1 to 63 characters give tokens of 80 to 163 characters, both bounds met. |
| WorkerTokens.LimitMeetsLayout | controller/src/api/worker-tokens.ts:128-134 | No text within the 163 limit decodes past the layout. |
| WorkerTokens.IssueWorkerToken | controller/src/api/worker-tokens.ts:77-120 | Which inputs give which error; and an issued token verifies to its own queue, id and times for exactly the seconds from issue up to but excluding expiry. |
| WorkerTokens.Uint32IsBigEndian | controller/src/api/worker-tokens.ts:100-102 | Times are printed most significant byte first. |
| WorkerTokens.FillPayload | controller/src/api/worker-tokens.ts:101-107 | Filling the byte array at its offsets gives the payload of the layout. |
| ShellQuote.ShellQuote | cli/format.go:46-85 | The printer writes what the quoting function says, and no control or format character. |
| ShellQuote.DisplayCommand | cli/format.go:87-93 | The shown line of a non-empty NUL-free argv is one simple Bash command with exactly that argv, and holds no control or format character. |
| ShellQuote.DisplayReadsBack | cli/format.go:46-93 | For every such argv, and whatever characters count as format characters, Bash reads the line back unchanged, the first word neither as an assignment nor as a reserved word. |
| ShellQuote.DisplayIsVisible | cli/format.go:46-93 | For every argv the shown line stays on one line and holds no control or format character, given that no printable ASCII character is a format character. |
| ShellQuote.QuoteForms | cli/format.go:46-85 | Which of the three forms an argument takes: as it is exactly if it is a bare word that needs no quotes there, `$'...'` exactly if it holds a control or format character. |
| ShellQuote.AnsiTextPlain | cli/format.go:52-76 | Inside `$'...'` text without such characters, backslashes and quotes is shown as it is. |
| ShellQuote.DisplayInjective | cli/format.go:87-93 | Different commands are shown differently. |
| ShellQuote.KeywordsCoverBash | cli/format.go:79-82 | The source's list of keywords covers every Bash keyword that needs no quotes otherwise. |
| WorkerLabels.WorkerLabels | cli/list.go:72-101 | The neighbour loop gives each listed id its shortest prefix of at least eight characters (or all of it) that tells it from every other listed id. |
| WorkerLabels.NeighboursSuffice | cli/list.go:70-99 | No id shares more with a given id than one of its sorted neighbours does. |
| WorkerLabels.LabelsDistinct | cli/list.go:70-101 | Different workers have different labels. |
| WorkerLabels.LabelFindsWorker | controller/src/jobs/scheduler.ts:280-304 | Over the listed workers, or any of them, looking a label up by exact id and then by unique prefix finds its worker. |
| WorkerLabels.LabelPausesItsWorker | controller/src/jobs/scheduler.ts:280-312 | Pausing by label pauses the worker it was shown for. |
| WorkerLabels.LabelAmongMore | controller/src/jobs/scheduler.ts:280-304 | Over any larger set the lookup gives that worker or reports ambiguity if and only if the label is not another worker's whole id. |
| WorkerLabels.EqualLengthsNeverMislead | cli/list.go:70-101 | With ids of one length a label never names another worker. |
| WorkerLabels.LabelCanMislead | cli/list.go:84-99 | With ids of different lengths it can. |
| WorkerLookup.LookupFinds | controller/src/jobs/scheduler.ts:283-304 | A worker is found exactly when the key is its id, or a prefix of its id alone and nobody's whole id. |
| WorkerLookup.LookupElse | controller/src/jobs/scheduler.ts:283-304 | Nothing is found exactly if the key begins no id; a lookup is ambiguous exactly if the key is nobody's whole id and begins several, and then names all of them. |
| ActiveJob.CancelledExactlyIfAsked | worker/active_job.go:14-45 | For every order of calls, a job's context is cancelled by the user exactly when it was claimed with the flag set, the last request before its activation named it, or a request named it while active. |
| ActiveJob.StaleDeactivate | worker/active_job.go:30-36 | A deactivation of another id changes nothing. |
| ActiveJob.OldRequestCancelsAgain | worker/active_job.go:21-28 | An activation of the last requested id is cancelled although nobody asked again. |
| ActiveJob.RetriedJobCancelledAgain | worker/active_job.go:25-41 | A concrete trace of that. |
| ActiveJob.ActiveJobState.ActivateJob | worker/active_job.go:21-28 | One locked activation is one step of the trace. |
| ActiveJob.ActiveJobState.DeactivateJob | worker/active_job.go:30-36 | One locked deactivation is one step of the trace. |
| ActiveJob.ActiveJobState.RequestCancellation | worker/active_job.go:38-45 | One locked request is one step of the trace. |
| ControllerClient.Client.Post | worker/client.go:117-156 | An attempt is made exactly if there is a token, remote work is on and the context lasts; the first reply that is not retryable decides, an accepted one gives success, and without one the operation ends only when no further attempt could start or remote work was turned off; at most ceil(timeout / interval) attempts, exactly that many in an outage, over by the deadline; remote work is turned off only by 401 or 403, the operation's own deadline or another goroutine, never because the caller's context ended first; and never on again. |
| ControllerClient.Client.Attempts | worker/client.go:139-155 | The retry loop: every attempt but the last met a retryable reply, each starts when the model's schedule says, and what the last one met decides the result, in both directions. |
| ControllerClient.Client.PostOnce | worker/client.go:158-193 | The one meaning of every reply, which may be retried, and that exactly 401 and 403 turn remote work off. |

## Left out

- HTTP routing, JSON and its schemas, body limits and the texts of HTTP errors: plumbing around the cores. So are authentication and route permissions.
- SQL text, SQLite settings, migrations and file permissions: each transaction is one atomic method. Positions and sequence numbers are unbounded; overflow of 64-bit positions is not modelled.
- Job ids of the controller are the sequence numbers themselves; the source stores their decimal text. Local ids are modelled as text.
- Listing, paging (`fetchJobs`), latest job, table layout, elapsed times and timestamp texts: display only. A listing appears as the expiry it triggers.
- Timestamps are numbers of one clock per operation; the controller's text comparison of ISO times is taken as comparison of those numbers.
- The pause and resume batches of the router: the same loop over `setWorkerPaused`.
- Report texts are counted in characters, not in UTF-16 units, and the trimming by the body schema is not modelled.
- Processes, signals, files and sockets: a command's ending, an interruption, and each failure of the outside world are free choices. That a finished command is preferred over a cancellation arriving at the same time is part of that choice.
- Local jobs inside the protocol: `ProtocolModel` shows a daemon only while it is concerned with remote work. A heartbeat's answer does not steer the protocol; the ending of a command is free, interruption included.
- A daemon's shutdown is a last report, perhaps, and then a crash; the shutdown timeout is one more series of attempts.
- The local queue's memory-only mode, which loses its table at a restart, and the callback by which a local cancellation reaches the running job.
- `ExecuteJob`: does not carry the output path of the result or the queue's environment variables, since no report depends on them.
- `WorkerTokens.IssueWorkerToken`: does not cover a non-finite number of seconds or a fractional clock; the id is any id text in lower case that the schema admits, as the random UUID is.
- `WorkerTokens.VerifyAcceptsExactly`: does not model UTF-8 decoding of the queue name beyond ASCII, because the name's pattern admits nothing else; tokens are texts of whole characters.
- `Base64Url.DecodeAcceptsExactlyEncodings`: does not reach white space or padding in `atob`'s input, because the decoder's pattern refuses both first.
- `ShellQuote.DisplayReadsBack`: does not cover aliases, zsh, or Bash in a locale that is not UTF-8; `Bash.Command` refuses double quotes, expansions, operators, patterns, `\c` escapes and bytes of 128 and above in `\x` and octal escapes, none of which the printer writes. Arguments are Unicode text; invalid UTF-8 is not modelled.
- `WorkerLabels.WorkerLabels`: does not cover ids beyond ASCII, where Go counts bytes; a daemon's own id is a UUID. The standard sort is an insertion sort here.
- `ControllerClient.Client.Post`: does not model marshalling errors or the time a computation takes; other goroutines appear as one moment at which they turn remote work off.
- Secrets, random UUIDs and other cryptography, installers, packaging and test harnesses.
