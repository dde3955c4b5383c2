/**
 What each scheduler operation changes and what it leaves alone, column by column, and
 exactly when it succeeds.
 */
module SchedulerEffects {
  import opened Wrappers
  import opened QueueOrder
  import opened WorkerLookup
  import opened SchedulerModel
  import opened SchedulerInvariant

  // ---------- Which rows, which columns ----------

  /** The rows an operation is about. */
  predicate Concerns(db: Db, now: Time, op: Op, id: JobId)
    requires id in db.jobs
  {
    match op
    case OpReorder(x, other) => id == x || other == Some(id)
    case OpCancel(x) => id == x
    case OpOutput(x, w, _) => id == x && w in Held(db) && Held(db)[w] == id
    case OpFinish(x, w, _, _, _) => id == x && w in Held(db) && Held(db)[w] == id
    case OpClaim(w) => w !in Held(db) && db.jobs[id].status == Queued && Queue(db) != [] && Queue(db)[0] == id
    case OpRetry(which) => db.jobs[id].status == Failed && (which.None? || which == Some(id))
    case OpSubmit(_) => false
    case OpSetPaused(_, _) => false
    case OpRegister(_, _) => false
    case OpHeartbeat(_, _) => false
    case _ => Expires(db.jobs[id], Stale(db, now))
  }

  /** The columns an operation may write; a requeued row forgets everything but what was asked for. */
  predicate WritesOnly(op: Op, a: Job, b: Job) {
    match op
    case OpReorder(_, _) => b == a.(position := b.position)
    case OpCancel(_) => b == a.(cancelRequested := true)
    case OpOutput(_, _, path) => b == a.(outputPath := Some(path))
    case OpFinish(_, _, _, _, _) => b == a.(status := b.status, exitCode := b.exitCode, error := b.error, finishedAt := b.finishedAt)
    case OpClaim(w) => b == a.(status := Running, startedAt := b.startedAt, workerId := Some(w))
    case OpRetry(_) => b == Job(a.id, Queued, a.command, a.createdAt, None, None, None, None, None, None, false, b.position)
    case _ => b == a.(status := Failed, exitCode := None, error := b.error, finishedAt := b.finishedAt, cancelRequested := false)
  }

  predicate Kept(db: Db, now: Time, op: Op, id: JobId, a: Job, b: Job)
    requires id in db.jobs
  {
    b == a || (Concerns(db, now, op, id) && WritesOnly(op, a, b))
  }

  lemma ExpiryKept(db: Db, now: Time, op: Op, id: JobId, other: JobId)
    requires Consistent(db) && id in db.jobs && RunsExpiry(op)
    ensures Kept(db, now, op, id, db.jobs[id], Expire(db, now).jobs[id])
    ensures id in Clear(db, now).jobs ==> Clear(db, now).jobs[id] == Expire(db, now).jobs[id]
    ensures id in RemoveAll(db, now).0.jobs ==> RemoveAll(db, now).0.jobs[id] == Expire(db, now).jobs[id]
    ensures id in Remove(db, now, other).0.jobs ==> Remove(db, now, other).0.jobs[id] == Expire(db, now).jobs[id]
  {
  }

  lemma RetryKept(db: Db, now: Time, which: Option<JobId>, id: JobId)
    requires Consistent(db) && id in db.jobs
    ensures id in Retry(db, which).0.jobs && Kept(db, now, OpRetry(which), id, db.jobs[id], Retry(db, which).0.jobs[id])
  {
    RetryRows(db, which);
  }

  lemma ClaimKept(db: Db, now: Time, w: WorkerId, id: JobId)
    requires Consistent(db) && id in db.jobs
    ensures id in Claim(db, now, w).0.jobs && Kept(db, now, OpClaim(w), id, db.jobs[id], Claim(db, now, w).0.jobs[id])
  {
    HeldClaim(db, now, w);
    if Pending(db.jobs) != map[] {
      FirstIsFirst(Pending(db.jobs));
      OrderHead(Pending(db.jobs));
    }
  }

  lemma SmallKept(db: Db, now: Time, op: Op, id: JobId)
    requires Consistent(db) && id in db.jobs
    requires op.OpSubmit? || op.OpCancel? || op.OpOutput? || op.OpSetPaused? || op.OpRegister? || op.OpHeartbeat?
    ensures id in Apply(db, now, op).jobs && Kept(db, now, op, id, db.jobs[id], Apply(db, now, op).jobs[id])
  {
  }

  lemma ReorderKept(db: Db, now: Time, x: JobId, other: Option<JobId>, id: JobId)
    requires Consistent(db) && id in db.jobs
    ensures id in Reorder(db, x, other).0.jobs &&
            Kept(db, now, OpReorder(x, other), id, db.jobs[id], Reorder(db, x, other).0.jobs[id])
  {
  }

  lemma FinishKept(db: Db, now: Time, op: Op, id: JobId)
    requires Consistent(db) && id in db.jobs && op.OpFinish?
    ensures id in Apply(db, now, op).jobs && Kept(db, now, op, id, db.jobs[id], Apply(db, now, op).jobs[id])
  {
    ReportEndsOnlyOwnAssignment(db, now, op.id, op.w, op.succeeded, op.exitCode, op.error);
  }

  /** Every operation leaves every surviving row as it was, except the columns it is for, in the rows it concerns. */
  lemma RowsKept(db: Db, now: Time, op: Op, id: JobId)
    requires Consistent(db) && id in db.jobs && id in Apply(db, now, op).jobs
    ensures Kept(db, now, op, id, db.jobs[id], Apply(db, now, op).jobs[id])
  {
    match op
    case OpList => ExpiryKept(db, now, op, id, 0);
    case OpClear => ExpiryKept(db, now, op, id, 0);
    case OpRemoveAll => ExpiryKept(db, now, op, id, 0);
    case OpRemove(x) => ExpiryKept(db, now, op, id, x);
    case OpRetry(which) => RetryKept(db, now, which, id);
    case OpReorder(x, other) => ReorderKept(db, now, x, other, id);
    case OpClaim(w) => ClaimKept(db, now, w, id);
    case OpFinish(_, _, _, _, _) => FinishKept(db, now, op, id);
    case _ => SmallKept(db, now, op, id);
  }

  /** The job exists in every state of the run. */
  ghost predicate ExistsThroughout(db: Db, run: Run, id: JobId)
    decreases |run|
  {
    id in db.jobs && (run == [] || ExistsThroughout(Apply(db, run[0].0, run[0].1), run[1..], id))
  }

  /** For as long as a job exists, whatever happens to it, its command and creation time stay. */
  lemma {:induction false} CommandNeverChanges(db: Db, run: Run, id: JobId)
    requires Consistent(db) && ExistsThroughout(db, run, id)
    ensures var db' := Execute(db, run);
            id in db'.jobs && db'.jobs[id].command == db.jobs[id].command &&
            db'.jobs[id].createdAt == db.jobs[id].createdAt && db'.jobs[id].id == id
    decreases |run|
  {
    if run != [] {
      var next := Apply(db, run[0].0, run[0].1);
      RowsKept(db, run[0].0, run[0].1, id);
      KeptCommand(db, run[0].0, run[0].1, id, db.jobs[id], next.jobs[id]);
      ApplyConsistent(db, run[0].0, run[0].1);
      CommandNeverChanges(next, run[1..], id);
    }
  }

  lemma KeptCommand(db: Db, now: Time, op: Op, id: JobId, a: Job, b: Job)
    requires id in db.jobs && Kept(db, now, op, id, a, b)
    ensures b.command == a.command && b.createdAt == a.createdAt && b.id == a.id
  {
  }

  // ---------- What each operation writes, and when it succeeds ----------

  lemma SubmitWrites(db: Db, now: Time, command: seq<string>)
    requires Consistent(db)
    ensures var (db', job) := Submit(db, now, command); var id := db.lastSequence + 1;
            && id !in db.jobs && db'.lastSequence == id
            && job == Job(id, Queued, command, now, None, None, None, None, None, None, false, id)
            && db'.jobs == db.jobs[id := job] && db'.workers == db.workers
  {
  }

  /** An output path is accepted exactly from the worker that holds the job; anyone else changes nothing. */
  lemma OutputOnlyFromHolder(db: Db, id: JobId, w: WorkerId, path: string)
    requires Consistent(db)
    ensures var (db', r) := Output(db, id, w, path);
            && (r.Ok? <==> w in Held(db) && Held(db)[w] == id)
            && (r.Err? ==> db' == db)
            && (r.Ok? ==> r.value == db.jobs[id].(outputPath := Some(path)) && db' == db.(jobs := db.jobs[id := r.value]))
            && (r.Err? ==> r.error == if id !in db.jobs then JobNotFound
                                      else if db.jobs[id].workerId != Some(w) then NotAssignedToWorker
                                      else NotRunning)
  {
  }

  lemma CancelOnlyRunning(db: Db, id: JobId)
    ensures var (db', r) := Cancel(db, id);
            && (r.Ok? <==> id in db.jobs && db.jobs[id].status == Running)
            && (r.Err? ==> db' == db && r.error == if id in db.jobs then OnlyRunningCancelled else JobNotFound)
            && (r.Ok? ==> r.value == db.jobs[id].(cancelRequested := true) && db' == db.(jobs := db.jobs[id := r.value]))
  {
  }

  /** A reorder writes positions: one below the smallest queued one, or the two positions crosswise. */
  lemma ReorderWritesPositions(db: Db, id: JobId, other: Option<JobId>)
    ensures var (db', r) := Reorder(db, id, other); var pending := Pending(db.jobs);
            && (r.Ok? <==> id in pending && (other.Some? ==> other.value in pending))
            && (r.Err? ==> db' == db)
            && (r.Err? ==> r.error == if id in pending
                                      then (if other.value in db.jobs then OnlyQueuedReordered else JobNotFound)
                                      else (if id in db.jobs then OnlyQueuedReordered else JobNotFound))
            && db'.workers == db.workers && db'.lastSequence == db.lastSequence && db'.jobs.Keys == db.jobs.Keys
            && (forall x :: x in db.jobs ==> db'.jobs[x] == db.jobs[x].(position := db'.jobs[x].position))
            && (r.Ok? && other.Some? ==> db'.jobs[id].position == db.jobs[other.value].position &&
                                         db'.jobs[other.value].position == db.jobs[id].position)
            && (r.Ok? && other.None? ==> forall x :: x in pending ==> db'.jobs[id].position < pending[x])
            && (forall x :: x in db.jobs && x != id && other != Some(x) ==> db'.jobs[x] == db.jobs[x])
  {
    if id in Pending(db.jobs) {
      forall x | x in Pending(db.jobs) ensures Pending(db.jobs)[x] in Pending(db.jobs).Values { }
    }
  }

  /** Retry fails only for a job that is missing or not failed, and counts what it requeued. */
  lemma RetryCounts(db: Db, which: Option<JobId>)
    ensures var (db', r) := Retry(db, which);
            && (r.Ok? <==> which.None? || (which.value in db.jobs && db.jobs[which.value].status == Failed))
            && (r.Ok? ==> r.value == |RetryTargets(db, which)| && db'.workers == db.workers && db'.lastSequence == db.lastSequence)
            && (r.Err? ==> db' == db && r.error == if which.value in db.jobs then OnlyFailedRetried else JobNotFound)
  {
  }

  /** After the expiry, a removal takes away exactly one row that is not running. */
  lemma RemoveTakesOne(db: Db, now: Time, id: JobId)
    ensures var (db', r) := Remove(db, now, id); var e := Expire(db, now);
            && (r.Ok? <==> id in e.jobs && e.jobs[id].status != Running)
            && (r.Err? ==> db' == e && r.error == if id in e.jobs then CannotRemoveRunning else JobNotFound)
            && (r.Ok? ==> db' == e.(jobs := e.jobs - {id}))
  {
  }

  /** After the expiry, clearing takes away exactly the finished rows, and ids restart exactly if none is left. */
  lemma ClearTakesFinished(db: Db, now: Time)
    ensures var db' := Clear(db, now); var e := Expire(db, now);
            && db'.jobs.Keys <= e.jobs.Keys && db'.workers == e.workers
            && (forall id :: id in e.jobs ==>
                  (id in db'.jobs <==> e.jobs[id].status == Queued || e.jobs[id].status == Running))
            && (forall id :: id in db'.jobs ==> db'.jobs[id] == e.jobs[id])
            && db'.lastSequence == if db'.jobs == map[] then 0 else db.lastSequence
  {
  }

  /** After the expiry, exactly the running rows stay; both counts are right. */
  lemma RemoveAllKeepsRunning(db: Db, now: Time)
    ensures var (db', removed, kept) := RemoveAll(db, now); var e := Expire(db, now);
            && db'.jobs.Keys <= e.jobs.Keys && db'.workers == e.workers && db'.lastSequence == db.lastSequence
            && (forall id :: id in e.jobs ==> (id in db'.jobs <==> e.jobs[id].status == Running))
            && (forall id :: id in db'.jobs ==> db'.jobs[id] == e.jobs[id])
            && kept == |db'.jobs| && removed == |db.jobs.Keys - db'.jobs.Keys|
  {
    var (db', removed, kept) := RemoveAll(db, now);
    assert Expire(db, now).jobs.Keys == db.jobs.Keys;
    assert |db'.jobs| == |db'.jobs.Keys|;
  }

  /** Registering writes the host name and the time, and of a new worker an idle, unpaused row. */
  lemma RegisterWrites(db: Db, now: Time, w: WorkerId, hostname: string)
    ensures var (db', row) := Register(db, now, w, hostname);
            && db' == db.(workers := db.workers[w := row])
            && row.hostname == hostname && row.lastHeartbeat == now
            && (w in db.workers ==> row == db.workers[w].(hostname := hostname, lastHeartbeat := now))
            && (w !in db.workers ==> !row.busy && !row.paused && row.currentJob.None? && row.tokenExpiry.None?)
  {
  }

  /** A heartbeat writes the time, and the token's expiry if it comes with one. */
  lemma HeartbeatWrites(db: Db, now: Time, w: WorkerId, expiry: Option<string>)
    requires Consistent(db)
    ensures var (db', r) := Heartbeat(db, now, w, expiry);
            && (r.Ok? <==> w in db.workers)
            && (r.Err? ==> db' == db && r.error == WorkerNotFound)
            && (r.Ok? ==> var row := db.workers[w].(lastHeartbeat := now);
                          db' == db.(workers := db.workers[w := if expiry.Some? then row.(tokenExpiry := expiry) else row]))
  {
  }

  /** Pausing and resuming write one flag of one worker. */
  lemma PauseWrites(db: Db, key: string, paused: bool)
    ensures var (db', r) := SetPaused(db, key, paused); var found := Lookup(db.workers.Keys, key);
            && (r.Ok? <==> found.Unique?)
            && (r.Ok? ==> r.value == found.id && r.value in db.workers &&
                          db' == db.(workers := db.workers[r.value := db.workers[r.value].(paused := paused)]))
            && (r.Err? ==> db' == db)
            && (r == Err(WorkerNotFound) <==> forall w :: w in db.workers ==> !(key <= w))
            && (r.Err? && r.error != WorkerNotFound ==> r.error == AmbiguousPrefix(set w | w in db.workers && key <= w))
  {
    LookupElse(db.workers.Keys, key);
    assert (set w | w in db.workers.Keys && key <= w) == (set w | w in db.workers && key <= w);
    var found := Lookup(db.workers.Keys, key);
    if found.Unique? { LookupFinds(db.workers.Keys, key, found.id); }
  }

  /** A claim writes the claimed row and the claiming worker's, and returns the row as it then is. */
  lemma ClaimWrites(db: Db, now: Time, w: WorkerId)
    requires Consistent(db)
    ensures var (db', r) := Claim(db, now, w);
            && (r.Ok? <==> w in db.workers)
            && (r.Err? ==> db' == db && r.error == WorkerNotFound)
            && db'.lastSequence == db.lastSequence && db'.workers.Keys == db.workers.Keys
            && (r.Ok? && r.value.Some? ==> r.value.value.id in db'.jobs && r.value.value == db'.jobs[r.value.value.id])
            && (r.Ok? && r.value.Some? && w !in Held(db) ==>
                  var job := r.value.value;
                  && job.id in db.jobs
                  && job == db.jobs[job.id].(status := Running, startedAt := Some(now), workerId := Some(w))
                  && db'.jobs == db.jobs[job.id := job]
                  && db'.workers == db.workers[w := db.workers[w].(busy := true, currentJob := Some(job.id), lastHeartbeat := now)])
            && (r.Ok? && !(r.value.Some? && w !in Held(db)) ==>
                  db' == db.(workers := db.workers[w := db.workers[w].(lastHeartbeat := now)]))
            && (r.Ok? && r.value.None? ==> w !in Held(db) && (db.workers[w].paused || Queue(db) == []))
  {
    HeldClaim(db, now, w);
    if Pending(db.jobs) != map[] { FirstIsFirst(Pending(db.jobs)); }
    OrderLists(Pending(db.jobs));
  }

  /** A report of the holder writes the outcome it carries and frees the worker; the error of every refusal. */
  lemma FinishWrites(db: Db, now: Time, id: JobId, w: WorkerId, succeeded: bool, exitCode: Option<int>, error: Option<string>)
    requires Consistent(db)
    ensures var (db', r) := Finish(db, now, id, w, succeeded, exitCode, error);
            && (w in Held(db) && Held(db)[w] == id ==>
                  && r == Ok(db.jobs[id].(status := if succeeded then Succeeded else Failed, exitCode := exitCode,
                                          error := if succeeded then None else error, finishedAt := Some(now)))
                  && db' == db.(jobs := db.jobs[id := r.value],
                                workers := db.workers[w := db.workers[w].(busy := false, currentJob := None)]))
            && (r.Ok? && !(w in Held(db) && Held(db)[w] == id) ==> db' == db && id in db.jobs && r.value == db.jobs[id])
            && (r.Err? ==> db' == db &&
                           r.error == if id !in db.jobs then JobNotFound
                                      else if db.jobs[id].workerId != Some(w) then NotAssignedToWorker
                                      else if db.jobs[id].error == Some(DISCONNECTED_ERROR) && db.jobs[id].status == Failed then OutcomeUnknown
                                      else NotRunning)
  {
  }

  /** Expiry writes the failure and nothing else into the rows it ends, and frees their workers. */
  lemma ExpiryWrites(db: Db, now: Time)
    requires Consistent(db)
    ensures var db' := Expire(db, now);
            && db'.jobs.Keys == db.jobs.Keys && db'.workers.Keys == db.workers.Keys && db'.lastSequence == db.lastSequence
            && (forall id :: id in db.jobs ==>
                  db'.jobs[id] ==
                  if db.jobs[id].status == Running && db.workers[db.jobs[id].workerId.value].lastHeartbeat + 120_000 <= now
                  then db.jobs[id].(status := Failed, exitCode := None, finishedAt := Some(now), cancelRequested := false,
                                    error := Some("Worker disconnected; outcome unknown"))
                  else db.jobs[id])
            && (forall w :: w in db.workers ==>
                  db'.workers[w] ==
                  if db.workers[w].lastHeartbeat + 120_000 <= now
                  then db.workers[w].(busy := false, currentJob := None)
                  else db.workers[w])
  {
  }
}
