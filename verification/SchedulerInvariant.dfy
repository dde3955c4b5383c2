/**
 What every scheduler operation keeps, and what reports, expiry and pausing
 do to assignments.
 */
module SchedulerInvariant {
  import opened Wrappers
  import opened QueueOrder
  import opened WorkerLookup
  import opened SchedulerModel

  // ---------- The invariant ----------

  predicate RowOk(job: Job) {
    match job.status
    case Queued =>
      job.workerId.None? && job.startedAt.None? && job.finishedAt.None? && job.exitCode.None? &&
      job.error.None? && job.outputPath.None? && !job.cancelRequested
    case Running =>
      job.workerId.Some? && job.startedAt.Some? && job.finishedAt.None? && job.exitCode.None? && job.error.None?
    case _ =>
      job.workerId.Some? && job.startedAt.Some? && job.finishedAt.Some?
  }

  ghost predicate JobsOk(db: Db) {
    && 0 <= db.lastSequence
    && (forall id :: id in db.jobs ==> 1 <= id <= db.lastSequence && db.jobs[id].id == id && RowOk(db.jobs[id]))
  }

  /** A running job's worker names that job as its current one. */
  ghost predicate RunningJobsAreHeld(db: Db) {
    forall id :: id in db.jobs && db.jobs[id].status == Running ==>
      db.jobs[id].workerId.Some? && db.jobs[id].workerId.value in db.workers &&
      db.workers[db.jobs[id].workerId.value].currentJob == Some(id)
  }

  /** A worker is busy when it has a current job, and that job is running for it. */
  ghost predicate BusyWorkersHold(db: Db) {
    forall w :: w in db.workers ==>
      && db.workers[w].busy == db.workers[w].currentJob.Some?
      && (db.workers[w].currentJob.Some? ==>
            var id := db.workers[w].currentJob.value;
            id in db.jobs && db.jobs[id].status == Running && db.jobs[id].workerId == Some(w))
  }

  ghost predicate Consistent(db: Db) {
    JobsOk(db) && RunningJobsAreHeld(db) && BusyWorkersHold(db)
  }

  /** The unique indexes: one running job per worker id, one worker per current job. */
  ghost predicate IndexesHold(jobs: map<JobId, Job>, workers: map<WorkerId, Worker>) {
    && (forall i, j :: i in jobs && j in jobs && i != j && jobs[i].status == Running && jobs[j].status == Running ==>
          jobs[i].workerId.None? || jobs[i].workerId != jobs[j].workerId)
    && (forall v, w :: v in workers && w in workers && v != w && workers[v].currentJob.Some? ==>
          workers[v].currentJob != workers[w].currentJob)
  }

  lemma ConsistentIndexes(db: Db)
    requires Consistent(db)
    ensures IndexesHold(db.jobs, db.workers)
  {
  }

  // ---------- Requeueing several rows ----------

  /** RequeueAll changes the listed rows only, and leaves each of them requeued. */
  lemma {:induction false} RequeueAllRows(jobs: map<JobId, Job>, ids: seq<JobId>)
    requires forall i :: 0 <= i < |ids| ==> ids[i] in jobs
    ensures RequeueAll(jobs, ids).Keys == jobs.Keys
    ensures forall id :: id in jobs && id !in ids ==> RequeueAll(jobs, ids)[id] == jobs[id]
    ensures forall id :: id in jobs && id in ids ==>
              RequeueAll(jobs, ids)[id] == Requeued(jobs[id], RequeueAll(jobs, ids)[id].position)
    decreases |ids|
  {
    if ids != [] {
      var next := RequeueOne(jobs, ids[0]);
      RequeueAllRows(next, ids[1..]);
      forall id | id in jobs && id in ids
        ensures RequeueAll(jobs, ids)[id] == Requeued(jobs[id], RequeueAll(jobs, ids)[id].position)
      {
        if id !in ids[1..] { assert id == ids[0]; }
      }
      forall id | id in jobs && id !in ids
        ensures RequeueAll(jobs, ids)[id] == jobs[id]
      {
        assert id != ids[0] && id !in ids[1..];
      }
    }
  }

  /** The rows a retry requeues. */
  function RetryTargets(db: Db, which: Option<JobId>): seq<JobId> {
    if which.None? then Order(FailedPositions(db.jobs))
    else if which.value in db.jobs && db.jobs[which.value].status == Failed then [which.value]
    else []
  }

  lemma RetryTargetsFailed(db: Db, which: Option<JobId>)
    ensures var ids := RetryTargets(db, which);
            && Distinct(ids)
            && (forall i :: 0 <= i < |ids| ==> ids[i] in db.jobs && db.jobs[ids[i]].status == Failed)
            && Retry(db, which).0 == db.(jobs := RequeueAll(db.jobs, ids))
    ensures which.None? ==> forall id :: id in db.jobs && db.jobs[id].status == Failed ==> id in RetryTargets(db, which)
  {
    var ids := RetryTargets(db, which);
    if which.None? {
      var failed := FailedPositions(db.jobs);
      OrderDistinct(failed);
      forall i | 0 <= i < |ids| ensures ids[i] in db.jobs && db.jobs[ids[i]].status == Failed {
        assert ids[i] in failed;
      }
      forall id | id in db.jobs && db.jobs[id].status == Failed ensures id in ids {
        assert id in failed;
      }
    }
  }

  lemma RetryRows(db: Db, which: Option<JobId>)
    ensures var jobs := Retry(db, which).0.jobs; var ids := RetryTargets(db, which);
            && Retry(db, which).0 == db.(jobs := jobs)
            && jobs.Keys == db.jobs.Keys
            && (forall id :: id in db.jobs && id !in ids ==> jobs[id] == db.jobs[id])
            && (forall id :: id in db.jobs && id in ids ==>
                  db.jobs[id].status == Failed && jobs[id] == Requeued(db.jobs[id], jobs[id].position))
  {
    RetryTargetsFailed(db, which);
    RequeueAllRows(db.jobs, RetryTargets(db, which));
  }

  // ---------- Every operation keeps the invariant ----------

  lemma ExpireConsistent(db: Db, now: Time)
    requires Consistent(db)
    ensures Consistent(Expire(db, now))
  {
  }

  lemma RetryConsistent(db: Db, which: Option<JobId>)
    requires Consistent(db)
    ensures Consistent(Retry(db, which).0)
  {
    RetryRows(db, which);
  }

  lemma ReorderConsistent(db: Db, id: JobId, other: Option<JobId>)
    requires Consistent(db)
    ensures Consistent(Reorder(db, id, other).0)
  {
  }

  lemma ClaimConsistent(db: Db, now: Time, w: WorkerId)
    requires Consistent(db)
    ensures Consistent(Claim(db, now, w).0)
  {
    if w in db.workers && db.workers[w].currentJob.None? && !db.workers[w].paused && Pending(db.jobs) != map[] {
      FirstIsFirst(Pending(db.jobs));
    }
  }

  lemma FinishConsistent(db: Db, now: Time, id: JobId, w: WorkerId, succeeded: bool, exitCode: Option<int>, error: Option<string>)
    requires Consistent(db)
    ensures Consistent(Finish(db, now, id, w, succeeded, exitCode, error).0)
  {
  }

  lemma ClearConsistent(db: Db, now: Time)
    requires Consistent(db)
    ensures Consistent(Clear(db, now))
  {
    ExpireConsistent(db, now);
  }

  lemma RemoveAllConsistent(db: Db, now: Time)
    requires Consistent(db)
    ensures Consistent(RemoveAll(db, now).0)
  {
    ExpireConsistent(db, now);
  }

  lemma RemoveConsistent(db: Db, now: Time, id: JobId)
    requires Consistent(db)
    ensures Consistent(Remove(db, now, id).0)
  {
    ExpireConsistent(db, now);
  }

  lemma RegisterConsistent(db: Db, now: Time, w: WorkerId, hostname: string)
    requires Consistent(db)
    ensures Consistent(Register(db, now, w, hostname).0)
  {
  }

  lemma SetPausedConsistent(db: Db, key: string, paused: bool)
    requires Consistent(db)
    ensures Consistent(SetPaused(db, key, paused).0)
  {
    if Lookup(db.workers.Keys, key).Unique? { LookupFinds(db.workers.Keys, key, Lookup(db.workers.Keys, key).id); }
  }

  lemma SmallUpdatesConsistent(db: Db, now: Time, op: Op)
    requires Consistent(db) && (op.OpSubmit? || op.OpCancel? || op.OpOutput? || op.OpHeartbeat?)
    ensures Consistent(Apply(db, now, op))
  {
  }

  /** Every operation, successful or rejected, keeps the two tables in agreement. */
  lemma ApplyConsistent(db: Db, now: Time, op: Op)
    requires Consistent(db)
    ensures Consistent(Apply(db, now, op))
  {
    match op
    case OpSubmit(_) => SmallUpdatesConsistent(db, now, op);
    case OpList => ExpireConsistent(db, now);
    case OpClear => ClearConsistent(db, now);
    case OpRemoveAll => RemoveAllConsistent(db, now);
    case OpRemove(id) => RemoveConsistent(db, now, id);
    case OpRetry(which) => RetryConsistent(db, which);
    case OpReorder(id, other) => ReorderConsistent(db, id, other);
    case OpCancel(_) => SmallUpdatesConsistent(db, now, op);
    case OpOutput(_, _, _) => SmallUpdatesConsistent(db, now, op);
    case OpSetPaused(key, paused) => SetPausedConsistent(db, key, paused);
    case OpRegister(w, hostname) => RegisterConsistent(db, now, w, hostname);
    case OpHeartbeat(_, _) => SmallUpdatesConsistent(db, now, op);
    case OpClaim(w) => ClaimConsistent(db, now, w);
    case OpFinish(id, w, succeeded, exitCode, error) => FinishConsistent(db, now, id, w, succeeded, exitCode, error);
  }

  lemma {:induction false} ExecuteConsistent(db: Db, run: Run)
    requires Consistent(db)
    ensures Consistent(Execute(db, run))
    decreases |run|
  {
    if run != [] {
      ApplyConsistent(db, run[0].0, run[0].1);
      ExecuteConsistent(Apply(db, run[0].0, run[0].1), run[1..]);
    }
  }

  function RunningIds(db: Db): set<JobId> {
    set id | id in db.jobs && db.jobs[id].status == Running
  }

  function BusyWorkers(db: Db): set<WorkerId> {
    set w | w in db.workers && db.workers[w].busy
  }

  lemma LookupsNeverFail(db: Db, now: Time, w: WorkerId, expiry: Option<string>)
    requires Consistent(db) && w in db.workers
    ensures Claim(db, now, w).1.Ok? && Heartbeat(db, now, w, expiry).1.Ok?
  {
  }

  /**
   In every state the controller reaches, "worker of" and "current job of" are inverse
   to each other between the running jobs and the busy workers, both unique indexes
   hold, and no claim or heartbeat of a registered worker meets a missing job.
   */
  lemma RunningJobsMatchBusyWorkers(run: Run)
    ensures var db := Execute(EMPTY, run);
            && IndexesHold(db.jobs, db.workers)
            && (forall id :: id in RunningIds(db) ==>
                  db.jobs[id].workerId.Some? && db.jobs[id].workerId.value in BusyWorkers(db) &&
                  db.workers[db.jobs[id].workerId.value].currentJob == Some(id))
            && (forall w :: w in BusyWorkers(db) ==>
                  db.workers[w].currentJob.Some? && db.workers[w].currentJob.value in RunningIds(db) &&
                  db.jobs[db.workers[w].currentJob.value].workerId == Some(w))
            && (forall w, now :: w in db.workers ==> Claim(db, now, w).1.Ok?)
            && (forall w, now, expiry :: w in db.workers ==> Heartbeat(db, now, w, expiry).1.Ok?)
  {
    ExecuteConsistent(EMPTY, run);
    var db := Execute(EMPTY, run);
    ConsistentIndexes(db);
    forall w, now | w in db.workers ensures Claim(db, now, w).1.Ok? {
      LookupsNeverFail(db, now, w, None);
    }
    forall w, now, expiry | w in db.workers ensures Heartbeat(db, now, w, expiry).1.Ok? {
      LookupsNeverFail(db, now, w, expiry);
    }
  }

  // ---------- Who holds what ----------

  lemma HeldExpire(db: Db, now: Time)
    ensures Held(Expire(db, now)) == Held(db) - Stale(db, now)
  {
  }

  /** A claim assigns only the queue's first job, and only to a worker that holds nothing and is not paused. */
  lemma HeldClaim(db: Db, now: Time, w: WorkerId)
    requires Consistent(db)
    ensures var (db', r) := Claim(db, now, w);
            if r.Ok? && r.value.Some? && w !in Held(db) then
              && Held(db') == Held(db)[w := r.value.value.id]
              && Queue(db) != [] && r.value.value.id == Queue(db)[0]
              && !db.workers[w].paused
              && db.jobs[r.value.value.id].status == Queued
            else
              && Held(db') == Held(db) && db'.jobs == db.jobs
              && (r.Ok? && r.value.Some? ==> w in Held(db) && r.value.value.id == Held(db)[w])
              && (r.Ok? && r.value.None? ==> w !in Held(db))
  {
    var r := Claim(db, now, w).1;
    if r.Ok? && r.value.Some? && w !in Held(db) {
      NewClaimHeld(db, now, w);
    } else {
      OldClaimHeld(db, now, w);
    }
  }

  lemma NewClaimHeld(db: Db, now: Time, w: WorkerId)
    requires Consistent(db)
    requires var r := Claim(db, now, w).1; r.Ok? && r.value.Some? && w !in Held(db)
    ensures var (db', r) := Claim(db, now, w);
            && Held(db') == Held(db)[w := r.value.value.id]
            && Queue(db) != [] && r.value.value.id == Queue(db)[0]
            && !db.workers[w].paused
            && db.jobs[r.value.value.id].status == Queued
  {
    OrderHead(Pending(db.jobs));
    FirstIsFirst(Pending(db.jobs));
  }

  lemma OldClaimHeld(db: Db, now: Time, w: WorkerId)
    requires Consistent(db)
    requires var r := Claim(db, now, w).1; !(r.Ok? && r.value.Some? && w !in Held(db))
    ensures var (db', r) := Claim(db, now, w);
            && Held(db') == Held(db) && db'.jobs == db.jobs
            && (r.Ok? && r.value.Some? ==> w in Held(db) && r.value.value.id == Held(db)[w])
            && (r.Ok? && r.value.None? ==> w !in Held(db))
  {
  }

  /**
   A terminal report either changes nothing at all, or it ends exactly the job its worker
   holds: that job takes the reported outcome, the worker is released, and no other row moves.
   It is accepted without a change only when the same outcome is already recorded for that
   worker and the record is not an expiry.
   */
  lemma ReportEndsOnlyOwnAssignment(db: Db, now: Time, id: JobId, w: WorkerId, succeeded: bool,
                                    exitCode: Option<int>, error: Option<string>)
    requires Consistent(db)
    ensures var (db', r) := Finish(db, now, id, w, succeeded, exitCode, error);
            && (w in Held(db) && Held(db)[w] == id ==>
                  && r.Ok?
                  && Held(db') == Held(db) - {w}
                  && id in db'.jobs && db'.jobs[id].status == Outcome(succeeded) && db'.jobs[id].workerId == Some(w)
                  && db'.jobs - {id} == db.jobs - {id}
                  && db'.workers - {w} == db.workers - {w})
            && (!(w in Held(db) && Held(db)[w] == id) ==>
                  && db' == db
                  && (r.Ok? <==> id in db.jobs && db.jobs[id].workerId == Some(w) &&
                                 db.jobs[id].status == Outcome(succeeded) &&
                                 !(db.jobs[id].status == Failed && db.jobs[id].error == Some(DISCONNECTED_ERROR))))
  {
  }

  predicate RunsExpiry(op: Op) {
    op.OpList? || op.OpClear? || op.OpRemoveAll? || op.OpRemove?
  }

  lemma HeldDependsOnWorkers(db: Db, db': Db)
    requires db'.workers == db.workers
    ensures Held(db') == Held(db)
  {
  }

  /** Changing a worker's row without its current job changes no assignment. */
  lemma HeldRowUpdate(db: Db, w: WorkerId, row: Worker)
    requires row.currentJob == (if w in db.workers then db.workers[w].currentJob else None)
    ensures Held(db.(workers := db.workers[w := row])) == Held(db)
  {
  }

  lemma HeldSetPaused(db: Db, key: string, paused: bool)
    ensures Held(SetPaused(db, key, paused).0) == Held(db)
  {
    var found := Lookup(db.workers.Keys, key);
    if found.Unique? {
      LookupFinds(db.workers.Keys, key, found.id);
      HeldRowUpdate(db, found.id, db.workers[found.id].(paused := paused));
    }
  }

  lemma HeldHeartbeat(db: Db, now: Time, w: WorkerId, expiry: Option<string>)
    ensures Held(Heartbeat(db, now, w, expiry).0) == Held(db)
  {
    var db' := Heartbeat(db, now, w, expiry).0;
    if db' != db { HeldRowUpdate(db, w, db'.workers[w]); }
  }

  lemma HeldAfterExpiring(db: Db, now: Time, id: JobId)
    ensures Held(Clear(db, now)) == Held(db) - Stale(db, now)
    ensures Held(RemoveAll(db, now).0) == Held(db) - Stale(db, now)
    ensures Held(Remove(db, now, id).0) == Held(db) - Stale(db, now)
  {
    HeldExpire(db, now);
    HeldDependsOnWorkers(Expire(db, now), Clear(db, now));
    HeldDependsOnWorkers(Expire(db, now), RemoveAll(db, now).0);
    HeldDependsOnWorkers(Expire(db, now), Remove(db, now, id).0);
  }

  lemma HeldKept(db: Db, now: Time, op: Op)
    requires !op.OpClaim? && !op.OpFinish? && !RunsExpiry(op)
    ensures Held(Apply(db, now, op)) == Held(db)
  {
    match op
    case OpSetPaused(key, paused) => HeldSetPaused(db, key, paused);
    case OpRegister(w, hostname) => HeldRowUpdate(db, w, Register(db, now, w, hostname).1);
    case OpHeartbeat(w, expiry) => HeldHeartbeat(db, now, w, expiry);
    case _ => HeldDependsOnWorkers(db, Apply(db, now, op));
  }

  /** Every other operation leaves the assignments as they are, except that expiry may end some. */
  lemma HeldOther(db: Db, now: Time, op: Op)
    requires !op.OpClaim? && !op.OpFinish?
    ensures RunsExpiry(op) ==> Held(Apply(db, now, op)) == Held(db) - Stale(db, now)
    ensures !RunsExpiry(op) ==> Held(Apply(db, now, op)) == Held(db)
  {
    match op
    case OpList => HeldExpire(db, now);
    case OpClear => HeldAfterExpiring(db, now, 0);
    case OpRemoveAll => HeldAfterExpiring(db, now, 0);
    case OpRemove(id) => HeldAfterExpiring(db, now, id);
    case _ => HeldKept(db, now, op);
  }

  /** Expiry fails exactly the running jobs of workers silent for two minutes, and touches no other row. */
  lemma ExpiryIsExact(db: Db, now: Time)
    requires Consistent(db)
    ensures var db' := Expire(db, now);
            && db'.jobs.Keys == db.jobs.Keys && db'.workers.Keys == db.workers.Keys
            && (forall id :: id in db.jobs ==>
                  if db.jobs[id].status == Running &&
                     db.workers[db.jobs[id].workerId.value].lastHeartbeat + WORKER_TIMEOUT_MS <= now
                  then db'.jobs[id].status == Failed && db'.jobs[id].error == Some(DISCONNECTED_ERROR) &&
                       db'.jobs[id].workerId == db.jobs[id].workerId && db'.jobs[id].outputPath == db.jobs[id].outputPath &&
                       !db'.jobs[id].cancelRequested &&
                       db'.workers[db.jobs[id].workerId.value].currentJob.None?
                  else db'.jobs[id] == db.jobs[id])
            && (forall w :: w in db.workers && (now < db.workers[w].lastHeartbeat + WORKER_TIMEOUT_MS || !db.workers[w].busy) ==>
                  db'.workers[w] == db.workers[w])
  {
  }

  /** A worker heard from less than two minutes ago is not expired, whichever of its requests was heard. */
  lemma RefreshProtects(db: Db, heard: Time, now: Time, w: WorkerId, op: Op)
    requires Consistent(db) && w in Apply(db, heard, op).workers && now < heard + WORKER_TIMEOUT_MS
    requires (op.OpRegister? || op.OpHeartbeat? || op.OpClaim?) && op.w == w
    ensures w !in Stale(Apply(db, heard, op), now)
    ensures w in Held(Apply(db, heard, op)) ==> w in Held(Expire(Apply(db, heard, op), now))
  {
    if op.OpClaim? && w in db.workers && Pending(db.jobs) != map[] { FirstIsFirst(Pending(db.jobs)); }
  }

  /** The output path a worker reports for its job is accepted and survives the job's end, however it ends. */
  lemma OutputPathSurvives(db: Db, now: Time, id: JobId, w: WorkerId, path: string, succeeded: bool,
                           exitCode: Option<int>, error: Option<string>)
    requires Consistent(db) && w in Held(db) && Held(db)[w] == id
    ensures var (db', r) := Output(db, id, w, path);
            && r.Ok? && db'.jobs - {id} == db.jobs - {id} && db'.workers == db.workers
            && Finish(db', now, id, w, succeeded, exitCode, error).0.jobs[id].outputPath == Some(path)
            && Expire(db', now).jobs[id].outputPath == Some(path)
  {
    var job := db.jobs[id].(outputPath := Some(path));
    assert db.jobs[id := job] - {id} == db.jobs - {id};
  }

  /** Operations that may take a finished row away or queue it again. */
  predicate DisturbsFinished(op: Op) {
    op.OpRetry? || op.OpClear? || op.OpRemove? || op.OpRemoveAll?
  }

  lemma FinishedRowStays(db: Db, now: Time, op: Op, id: JobId)
    requires Consistent(db) && id in db.jobs && Finished(db.jobs[id]) && !DisturbsFinished(op)
    ensures id in Apply(db, now, op).jobs && Apply(db, now, op).jobs[id] == db.jobs[id]
  {
    if op.OpClaim? && op.w in db.workers && Pending(db.jobs) != map[] {
      FirstIsFirst(Pending(db.jobs));
    }
  }

  /** Once a job is finished or expired, nothing but retry or removal ever alters its record. */
  lemma {:induction false} FinishedRowIsFinal(db: Db, run: Run, id: JobId)
    requires Consistent(db) && id in db.jobs && Finished(db.jobs[id])
    requires forall i :: 0 <= i < |run| ==> !DisturbsFinished(run[i].1)
    ensures id in Execute(db, run).jobs && Execute(db, run).jobs[id] == db.jobs[id]
    decreases |run|
  {
    if run != [] {
      FinishedRowStays(db, run[0].0, run[0].1, id);
      ApplyConsistent(db, run[0].0, run[0].1);
      FinishedRowIsFinal(Apply(db, run[0].0, run[0].1), run[1..], id);
    }
  }

  // ---------- Pausing ----------

  /** No operation of the run resumes w, as each key resolves when its turn comes. */
  ghost predicate NeverResumes(db: Db, run: Run, w: WorkerId)
    decreases |run|
  {
    run == [] ||
    (&& !(run[0].1.OpSetPaused? && !run[0].1.paused && Lookup(db.workers.Keys, run[0].1.key) == Unique(w))
     && NeverResumes(Apply(db, run[0].0, run[0].1), run[1..], w))
  }

  ghost predicate Paused(db: Db, w: WorkerId) {
    w in db.workers && db.workers[w].paused
  }

  lemma PausedAfterSet(db: Db, key: string, paused: bool, w: WorkerId)
    requires Paused(db, w) && (paused || Lookup(db.workers.Keys, key) != Unique(w))
    ensures Paused(SetPaused(db, key, paused).0, w)
  {
    var found := Lookup(db.workers.Keys, key);
    if found.Unique? { LookupFinds(db.workers.Keys, key, found.id); }
  }

  lemma PausedAfterExpiry(db: Db, now: Time, id: JobId, w: WorkerId)
    requires Paused(db, w)
    ensures Paused(Expire(db, now), w) && Paused(Clear(db, now), w)
    ensures Paused(RemoveAll(db, now).0, w) && Paused(Remove(db, now, id).0, w)
  {
  }

  lemma PauseStaysSet(db: Db, now: Time, op: Op, w: WorkerId)
    requires Paused(db, w)
    requires !(op.OpSetPaused? && !op.paused && Lookup(db.workers.Keys, op.key) == Unique(w))
    ensures Paused(Apply(db, now, op), w)
  {
    match op
    case OpList => PausedAfterExpiry(db, now, 0, w);
    case OpClear => PausedAfterExpiry(db, now, 0, w);
    case OpRemoveAll => PausedAfterExpiry(db, now, 0, w);
    case OpRemove(id) => PausedAfterExpiry(db, now, id, w);
    case OpSetPaused(key, paused) => PausedAfterSet(db, key, paused, w);
    case OpSubmit(_) =>
    case OpRetry(_) =>
    case OpReorder(_, _) =>
    case OpCancel(_) =>
    case OpOutput(_, _, _) =>
    case OpRegister(_, _) =>
    case OpHeartbeat(_, _) =>
    case OpClaim(_) =>
    case OpFinish(_, _, _, _, _) =>
  }

  lemma PauseStep(db: Db, now: Time, op: Op, w: WorkerId)
    requires Consistent(db) && Paused(db, w)
    ensures w in Held(Apply(db, now, op)) ==> w in Held(db) && Held(Apply(db, now, op))[w] == Held(db)[w]
  {
    if op.OpClaim? {
      HeldClaim(db, now, op.w);
    } else if op.OpFinish? {
      ReportEndsOnlyOwnAssignment(db, now, op.id, op.w, op.succeeded, op.exitCode, op.error);
    } else {
      HeldOther(db, now, op);
    }
  }

  /**
   From a pause until a resume the worker gains no assignment: whatever it holds at the end
   it held at the start. Applied to any two moments of the paused stretch, this says the
   worker keeps the assignment it has or drops to none and stays there.
   */
  lemma {:induction false} PausedWorkerGainsNothing(db: Db, run: Run, w: WorkerId)
    requires Consistent(db) && Paused(db, w) && NeverResumes(db, run, w)
    ensures Paused(Execute(db, run), w)
    ensures w in Held(Execute(db, run)) ==> w in Held(db) && Held(Execute(db, run))[w] == Held(db)[w]
    decreases |run|
  {
    if run != [] {
      PauseStaysSet(db, run[0].0, run[0].1, w);
      PauseStep(db, run[0].0, run[0].1, w);
      ApplyConsistent(db, run[0].0, run[0].1);
      PausedWorkerGainsNothing(Apply(db, run[0].0, run[0].1), run[1..], w);
    }
  }
}
