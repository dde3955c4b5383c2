/**
 The scheduler as an object that updates its two tables in place, statement by
 statement, inside each transaction. Every method is proved to produce the tables
 that SchedulerModel says, to keep Valid, and to satisfy both unique indexes after
 each statement and not just at the end.
 */
module SchedulerObject {
  import opened Wrappers
  import opened QueueOrder
  import opened BatchLists
  import opened WorkerLookup
  import opened SchedulerModel
  import opened SchedulerInvariant
  import opened SchedulerQueue
  import opened SchedulerEffects

  function OpFor(action: Action, id: JobId): Op {
    match action
    case Urgent => OpReorder(id, None)
    case RetryJob => OpRetry(Some(id))
    case RemoveJob => OpRemove(id)
  }

  /** What one target's transaction does. */
  function Act(db: Db, now: Time, action: Action, id: JobId): Db {
    match action
    case Urgent => Reorder(db, id, None).0
    case RetryJob => Retry(db, Some(id)).0
    case RemoveJob => Remove(db, now, id).0
  }

  /** The targets in the order a batch handles them: urgent batches run backwards. */
  function Todo(ids: seq<JobId>, action: Action): seq<JobId> {
    if action.Urgent? then Reversed(Distincts(ids)) else Distincts(ids)
  }

  function BatchRun(todo: seq<JobId>, action: Action, clock: nat -> Time): Run {
    seq(|todo|, i requires 0 <= i < |todo| => (clock(i), OpFor(action, todo[i])))
  }

  /** Whether the job's status admits the action. */
  predicate Admits(jobs: map<JobId, Job>, action: Action, id: JobId) {
    id in jobs &&
    match action
    case Urgent => jobs[id].status == Queued
    case RetryJob => jobs[id].status == Failed
    case RemoveJob => jobs[id].status != Running
  }

  lemma BatchRunSnoc(todo: seq<JobId>, action: Action, clock: nat -> Time, i: nat)
    requires i < |todo|
    ensures BatchRun(todo[..i + 1], action, clock) == BatchRun(todo[..i], action, clock) + [(clock(i), OpFor(action, todo[i]))]
  {
    assert todo[..i + 1] == todo[..i] + [todo[i]];
  }

  lemma ExecuteSnoc(db: Db, run: Run, now: Time, op: Op)
    ensures Execute(db, run + [(now, op)]) == Apply(Execute(db, run), now, op)
  {
    ExecuteConcat(db, run, [(now, op)]);
    assert [(now, op)][1..] == [];
  }

  predicate SameStatus(db: Db, db': Db, id: JobId) {
    (id in db.jobs <==> id in db'.jobs) && (id in db.jobs && id in db'.jobs ==> db'.jobs[id].status == db.jobs[id].status)
  }

  /** The error with which the action refuses a target, judged by the tables at the start of the batch. */
  predicate Refuses(db: Db, action: Action, id: JobId, e: Error) {
    match action
    case Urgent => Reorder(db, id, None).1 == Err(e)
    case RetryJob => Retry(db, Some(id)).1 == Err(e)
    case RemoveJob => e == if id in db.jobs then CannotRemoveRunning else JobNotFound
  }

  lemma StatusDecides(db: Db, db': Db, action: Action, id: JobId, e: Error)
    requires SameStatus(db, db', id) && !action.RemoveJob?
    ensures Admits(db.jobs, action, id) <==> Admits(db'.jobs, action, id)
    ensures Refuses(db, action, id, e) <==> Refuses(db', action, id, e)
  {
    if action.Urgent? {
      ReorderWritesPositions(db, id, None);
      ReorderWritesPositions(db', id, None);
    } else {
      RetryCounts(db, Some(id));
      RetryCounts(db', Some(id));
    }
  }

  /** Urgent and retry change no other target's status, so each target is judged as it stood at the start. */
  lemma StatusOfOthers(db: Db, action: Action, id: JobId, other: JobId, now: Time)
    requires other != id && !action.RemoveJob?
    ensures SameStatus(db, Act(db, now, action, id), other)
  {
    if action.RetryJob? { RetryRows(db, Some(id)); }
  }

  /** Whether the target's transaction succeeds. */
  predicate Accepts(db: Db, now: Time, action: Action, id: JobId) {
    if action.RemoveJob? then Remove(db, now, id).1.Ok? else Admits(db.jobs, action, id)
  }

  /** What a batch has achieved when the targets in done are handled and those in rest are not. */
  ghost predicate Progress(db0: Db, db: Db, done: seq<JobId>, rest: seq<JobId>, action: Action,
                           succeeded: seq<JobId>, failed: seq<JobId>) {
    && Splits(done, succeeded, failed)
    && (!action.RemoveJob? ==> forall id :: id in done ==> (id in succeeded <==> Admits(db0.jobs, action, id)))
    && (!action.RemoveJob? ==> forall id :: id in rest ==> SameStatus(db0, db, id))
    && (action.RemoveJob? ==> Removed(db0, db, succeeded))
    && Queue(db) == ListAfter(Queue(db0), action, succeeded)
  }

  /** Exactly these jobs, each of them there before, are gone. */
  ghost predicate Removed(db0: Db, db: Db, removed: seq<JobId>) {
    Members(removed) <= db0.jobs.Keys && db.jobs.Keys == db0.jobs.Keys - Members(removed)
  }

  lemma ProgressStart(db: Db, todo: seq<JobId>, action: Action)
    ensures Progress(db, db, [], todo, action, [], [])
  {
    SplitsEmpty<JobId>();
    ListAfterNothing(Queue(db), action);
  }

  lemma QueueStep(db: Db, now: Time, action: Action, id: JobId, db': Db)
    requires db' == Act(db, now, action, id)
    ensures Accepts(db, now, action, id) ==> Queue(db') == ListStep(Queue(db), action, id)
    ensures !Accepts(db, now, action, id) ==> Queue(db') == Queue(db)
  {
    match action
    case Urgent => if IsQueued(db, id) { UrgentMovesToFront(db, id); }
    case RetryJob => RetryAppends(db, Some(id));
    case RemoveJob => RemoveStep(db, now, id);
  }

  lemma RemoveStep(db: Db, now: Time, id: JobId)
    ensures var (db', r) := Remove(db, now, id);
            && (r.Ok? ==> id in db.jobs && Queue(db') == Reject(Queue(db), {id}) && db'.jobs.Keys == db.jobs.Keys - {id})
            && (r.Err? ==> Queue(db') == Queue(db) && db'.jobs.Keys == db.jobs.Keys)
  {
    RemoveDrops(db, now, id);
    if !IsQueued(db, id) {
      OrderDistinct(Pending(db.jobs));
      forall i | 0 <= i < |Queue(db)| ensures Queue(db)[i] != id { assert Queue(db)[i] in Pending(db.jobs); }
      RejectNothing(Queue(db), {id});
    }
  }

  lemma ProgressStep(db0: Db, db: Db, db': Db, now: Time, done: seq<JobId>, id: JobId, rest: seq<JobId>, action: Action,
                     succeeded: seq<JobId>, failed: seq<JobId>, ok: bool, succeeded': seq<JobId>, failed': seq<JobId>)
    requires Progress(db0, db, done, [id] + rest, action, succeeded, failed) && db' == Act(db, now, action, id)
    requires id !in done && id !in rest
    requires ok <==> Accepts(db, now, action, id)
    requires ok ==> succeeded' == succeeded + [id] && failed' == failed
    requires !ok ==> succeeded' == succeeded && failed' == failed + [id]
    ensures Progress(db0, db', done + [id], rest, action, succeeded', failed')
  {
    SplitsSnoc(done, id, succeeded, failed);
    SucceededDone(done, succeeded, failed);
    if action.RemoveJob? {
      RemoveStep(db, now, id);
      MembersSnoc(succeeded, id);
    } else {
      assert id in [id] + rest;
      StatusDecides(db0, db, action, id, JobNotFound);
      forall x | x in rest ensures SameStatus(db0, db', x) {
        assert x in [id] + rest;
        StatusOfOthers(db, action, id, x, now);
      }
    }
    QueueStep(db, now, action, id, db');
    if ok { ListAfterSnoc(Queue(db0), action, succeeded, id); }
  }

  /** The loop invariant of a batch: i targets handled. */
  ghost predicate BatchAt(db0: Db, db: Db, todo: seq<JobId>, i: nat, action: Action,
                          succeeded: seq<JobId>, failed: seq<(JobId, Error)>)
    requires i <= |todo|
  {
    Progress(db0, db, todo[..i], todo[i..], action, succeeded, Firsts(failed)) && AllRefused(db0, action, failed)
  }

  /** Each failure carries the error that its target met. */
  ghost predicate AllRefused(db0: Db, action: Action, failed: seq<(JobId, Error)>) {
    forall f :: f in failed ==> Refuses(db0, action, f.0, f.1)
  }

  lemma StillRefused(db0: Db, db: Db, todo: seq<JobId>, i: nat, action: Action, succeeded: seq<JobId>,
                     failed: seq<JobId>, e: Error)
    requires i < |todo| && Distinct(todo) && Progress(db0, db, todo[..i], todo[i..], action, succeeded, failed)
    requires Refuses(db, action, todo[i], e)
    ensures Refuses(db0, action, todo[i], e)
  {
    NotDoneYet(todo, i);
    assert todo[i] in todo[i..];
    if action.RemoveJob? {
      SucceededDone(todo[..i], succeeded, failed);
      assert todo[i] !in Members(succeeded);
    } else {
      StatusDecides(db0, db, action, todo[i], e);
    }
  }

  lemma BatchStart(db0: Db, todo: seq<JobId>, action: Action)
    ensures BatchAt(db0, db0, todo, 0, action, [], [])
  {
    ProgressStart(db0, todo, action);
    assert todo[..0] == [] && todo[0..] == todo && Firsts<JobId, Error>([]) == [];
  }

  lemma RunStep(db0: Db, db: Db, todo: seq<JobId>, i: nat, action: Action, clock: nat -> Time)
    requires i < |todo| && db == Execute(db0, BatchRun(todo[..i], action, clock))
    ensures Act(db, clock(i), action, todo[i]) == Execute(db0, BatchRun(todo[..i + 1], action, clock))
  {
    BatchRunSnoc(todo, action, clock, i);
    ExecuteSnoc(db0, BatchRun(todo[..i], action, clock), clock(i), OpFor(action, todo[i]));
  }

  lemma BatchStep(db0: Db, db: Db, db': Db, now: Time, todo: seq<JobId>, i: nat, action: Action,
                  succeeded: seq<JobId>, failed: seq<(JobId, Error)>, r: Result<(), Error>,
                  succeeded': seq<JobId>, failed': seq<(JobId, Error)>)
    requires i < |todo| && Distinct(todo) && BatchAt(db0, db, todo, i, action, succeeded, failed)
    requires db' == Act(db, now, action, todo[i])
    requires r.Ok? <==> Accepts(db, now, action, todo[i])
    requires if r.Ok? then succeeded' == succeeded + [todo[i]] && failed' == failed
             else succeeded' == succeeded && failed' == failed + [(todo[i], r.error)] && Refuses(db, action, todo[i], r.error)
    ensures BatchAt(db0, db', todo, i + 1, action, succeeded', failed')
  {
    var id := todo[i];
    NotDoneYet(todo, i);
    if r.Err? {
      FirstsSnoc(failed, (id, r.error));
      StillRefused(db0, db, todo, i, action, succeeded, Firsts(failed), r.error);
    }
    ProgressStep(db0, db, db', now, todo[..i], id, todo[i + 1..], action, succeeded, Firsts(failed), r.Ok?,
                 succeeded', Firsts(failed'));
  }

  /** Reversing the results of an urgent batch brings them back into argument order. */
  lemma BatchEnd(db0: Db, db: Db, ids: seq<JobId>, action: Action, succeeded: seq<JobId>, failed: seq<(JobId, Error)>,
                 succeeded': seq<JobId>, failed': seq<(JobId, Error)>)
    requires BatchAt(db0, db, Todo(ids, action), |Todo(ids, action)|, action, succeeded, failed)
    requires action.Urgent? ==> succeeded' == Reversed(succeeded) && failed' == Reversed(failed)
    requires !action.Urgent? ==> succeeded' == succeeded && failed' == failed
    ensures BatchResult(db0, db, ids, action, succeeded', failed')
  {
    var unique, todo := Distincts(ids), Todo(ids, action);
    assert todo[..|todo|] == todo;
    DistinctsOk(ids);
    ReversedOk(unique);
    if action.Urgent? {
      SplitsReversed(unique, succeeded, Firsts(failed));
      FirstsReversed(failed);
      ReversedOk(failed);
      ReversedOk(succeeded);
      UrgentEnd(Queue(db0), succeeded);
    }
  }

  /**
   Successes and failures split the distinct targets in argument order. Urgent and retry accept
   exactly the targets whose status admitted it at the start; a removal accepts exactly the
   targets that were there and are gone, and no other job goes. The queue is what BatchQueue says.
   */
  ghost predicate BatchResult(db0: Db, db: Db, ids: seq<JobId>, action: Action,
                              succeeded: seq<JobId>, failed: seq<(JobId, Error)>) {
    && Splits(Distincts(ids), succeeded, Firsts(failed))
    && (!action.RemoveJob? ==> forall id :: id in ids ==> (id in succeeded <==> Admits(db0.jobs, action, id)))
    && (action.RemoveJob? ==> Removed(db0, db, succeeded))
    && AllRefused(db0, action, failed)
    && Queue(db) == BatchQueue(Queue(db0), action, succeeded)
  }

  class Scheduler {
    var jobs: map<JobId, Job>
    var workers: map<WorkerId, Worker>
    var lastSequence: int

    ghost function State(): Db
      reads this
    {
      Db(jobs, workers, lastSequence)
    }

    ghost predicate Valid()
      reads this
    {
      Consistent(State())
    }

    constructor ()
      ensures State() == EMPTY && Valid()
    {
      jobs, workers, lastSequence := map[], map[], 0;
    }

    method ExpireWorkers(now: Time)
      requires Valid()
      modifies this
      ensures Valid() && State() == Expire(old(State()), now)
    {
      var cutoff := now - WORKER_TIMEOUT_MS;
      var silent := set w | w in workers && workers[w].lastHeartbeat <= cutoff;
      ExpireConsistent(State(), now);
      jobs := ExpiredJobs(jobs, silent, now);
      assert IndexesHold(jobs, workers);
      workers := ReleasedWorkers(workers, silent);
      assert IndexesHold(jobs, workers);
    }

    method SubmitJob(now: Time, command: seq<string>) returns (job: Job)
      requires Valid()
      modifies this
      ensures Valid() && (State(), job) == Submit(old(State()), now, command)
      ensures job.id !in old(jobs) && job.status == Queued && job.command == command
    {
      SmallUpdatesConsistent(State(), now, OpSubmit(command));
      lastSequence := lastSequence + 1;
      var id := lastSequence;
      jobs := jobs[id := NewJob(id, command, now, 0)];
      jobs := jobs[id := jobs[id].(position := id)];
      job := jobs[id];
      assert jobs == old(jobs)[id := NewJob(id, command, now, id)];
    }

    method ClearFinished(now: Time)
      requires Valid()
      modifies this
      ensures Valid() && State() == Clear(old(State()), now)
      ensures forall id :: id in jobs ==> !Finished(jobs[id])
    {
      ClearConsistent(State(), now);
      ExpireWorkers(now);
      jobs := Unfinished(jobs);
      if jobs == map[] {
        lastSequence := 0;
      }
    }

    method RemoveAllJobs(now: Time) returns (removed: nat, keptRunning: nat)
      requires Valid()
      modifies this
      ensures Valid() && (State(), removed, keptRunning) == RemoveAll(old(State()), now)
      ensures removed + keptRunning == |old(jobs)| && keptRunning == |jobs|
      ensures forall id :: id in jobs ==> jobs[id].status == Running
    {
      RemoveAllConsistent(State(), now);
      ExpiryKeepsJobs(State(), now);
      ExpireWorkers(now);
      var left := RunningRows(jobs);
      removed, keptRunning := |jobs.Keys - left.Keys|, |left.Keys|;
      CountsAdd(old(jobs), left.Keys);
      jobs := left;
    }

    method RemoveOne(now: Time, id: JobId) returns (r: Result<(), Error>)
      requires Valid()
      modifies this
      ensures Valid() && (State(), r) == Remove(old(State()), now, id)
    {
      RemoveConsistent(State(), now, id);
      ExpireWorkers(now);
      if id !in jobs {
        return Err(JobNotFound);
      }
      if jobs[id].status == Running {
        return Err(CannotRemoveRunning);
      }
      jobs := jobs - {id};
      r := Ok(());
    }

    method RetryJobs(which: Option<JobId>) returns (r: Result<nat, Error>)
      requires Valid()
      modifies this
      ensures Valid() && (State(), r) == Retry(old(State()), which)
    {
      RetryConsistent(State(), which);
      if which.Some? {
        if which.value !in jobs {
          return Err(JobNotFound);
        }
        if jobs[which.value].status != Failed {
          return Err(OnlyFailedRetried);
        }
      }
      var targets := if which.Some? then [which.value] else Order(FailedPositions(jobs));
      RetryTargetsFailed(State(), which);
      RequeueRows(targets);
      r := Ok(|targets|);
    }

    /** The loop of a retry: each row in turn goes one past the largest position. */
    method RequeueRows(targets: seq<JobId>)
      requires forall i :: 0 <= i < |targets| ==> targets[i] in jobs
      modifies `jobs
      ensures jobs == RequeueAll(old(jobs), targets)
    {
      var i := 0;
      while i < |targets|
        invariant 0 <= i <= |targets| && jobs.Keys == old(jobs).Keys
        invariant RequeueAll(jobs, targets[i..]) == RequeueAll(old(jobs), targets)
      {
        var id := targets[i];
        var last := MaxOrZero(AllPositions(jobs));
        assert targets[i..][0] == id && targets[i..][1..] == targets[i + 1..];
        jobs := jobs[id := Requeued(jobs[id], last + 1)];
        i := i + 1;
      }
    }

    method ReorderJob(id: JobId, other: Option<JobId>) returns (r: Result<(), Error>)
      requires Valid()
      modifies this
      ensures Valid() && (State(), r) == Reorder(old(State()), id, other)
      ensures r.Err? ==> State() == old(State())
      ensures jobs.Keys == old(jobs).Keys && workers == old(workers)
      ensures forall x :: x in jobs ==> jobs[x] == old(jobs)[x].(position := jobs[x].position)
      ensures forall x :: x in jobs && x != id && other != Some(x) ==> jobs[x] == old(jobs)[x]
    {
      ReorderConsistent(State(), id, other);
      ReorderWritesPositions(State(), id, other);
      var targets := [id];
      if other.Some? {
        targets := [id, other.value];
      }
      assert targets[0] == id && targets[|targets| - 1] == if other.Some? then other.value else id;
      r := CheckQueued(targets);
      if r.Err? {
        RefusedResult(State(), id, other, r.error);
        return;
      }
      ghost var db := State();
      if other.Some? {
        SwapPositions(id, other.value);
        SwapResult(db, id, other.value, jobs);
      } else {
        MoveFirst(id);
        FrontResult(db, id, jobs);
      }
      r := Ok(());
    }

    method SwapPositions(id: JobId, other: JobId)
      requires id in jobs && other in jobs
      modifies this`jobs
      ensures jobs == MoveTo(MoveTo(old(jobs), id, old(jobs)[other].position), other, old(jobs)[id].position)
    {
      var first, second := jobs[id].position, jobs[other].position;
      jobs := jobs[id := jobs[id].(position := second)];
      jobs := jobs[other := jobs[other].(position := first)];
    }

    method MoveFirst(id: JobId)
      requires IsQueued(State(), id)
      modifies this`jobs
      ensures Pending(old(jobs)).Values != {}
      ensures jobs == MoveTo(old(jobs), id, Min(Pending(old(jobs)).Values) - 1)
    {
      var queued := Pending(jobs);
      assert queued[id] in queued.Values;
      jobs := jobs[id := jobs[id].(position := Min(queued.Values) - 1)];
    }

    /** Checks the targets in order, up to the first that is not queued. */
    method CheckQueued(targets: seq<JobId>) returns (r: Result<(), Error>)
      requires 1 <= |targets| <= 2
      ensures r.Ok? <==> IsQueued(State(), targets[0]) && IsQueued(State(), targets[|targets| - 1])
      ensures r.Err? ==> var first := if IsQueued(State(), targets[0]) then targets[|targets| - 1] else targets[0];
                         r.error == if first in jobs then OnlyQueuedReordered else JobNotFound
    {
      var i := 0;
      while i < |targets|
        invariant 0 <= i <= |targets|
        invariant forall k :: 0 <= k < i ==> IsQueued(State(), targets[k])
      {
        if targets[i] !in jobs {
          return Err(JobNotFound);
        }
        if jobs[targets[i]].status != Queued {
          return Err(OnlyQueuedReordered);
        }
        i := i + 1;
      }
      r := Ok(());
    }

    method CancelJob(id: JobId) returns (r: Result<Job, Error>)
      requires Valid()
      modifies this
      ensures Valid() && (State(), r) == Cancel(old(State()), id)
    {
      SmallUpdatesConsistent(State(), 0, OpCancel(id));
      if id !in jobs {
        return Err(JobNotFound);
      }
      if jobs[id].status != Running {
        return Err(OnlyRunningCancelled);
      }
      jobs := jobs[id := jobs[id].(cancelRequested := true)];
      r := Ok(jobs[id]);
    }

    method OwnedJob(id: JobId, w: WorkerId) returns (r: Result<Job, Error>)
      ensures r == if id !in jobs then Err(JobNotFound)
                   else if jobs[id].workerId != Some(w) then Err(NotAssignedToWorker)
                   else Ok(jobs[id])
    {
      if id !in jobs {
        return Err(JobNotFound);
      }
      r := if jobs[id].workerId != Some(w) then Err(NotAssignedToWorker) else Ok(jobs[id]);
    }

    method RecordOutput(id: JobId, w: WorkerId, path: string) returns (r: Result<Job, Error>)
      requires Valid()
      modifies this
      ensures Valid() && (State(), r) == Output(old(State()), id, w, path)
      ensures r.Ok? <==> w in Held(old(State())) && Held(old(State()))[w] == id
      ensures r.Err? ==> State() == old(State())
      ensures r.Ok? ==> jobs == old(jobs)[id := old(jobs)[id].(outputPath := Some(path))] && workers == old(workers)
    {
      OutputOnlyFromHolder(State(), id, w, path);
      SmallUpdatesConsistent(State(), 0, OpOutput(id, w, path));
      r := OwnedJob(id, w);
      if r.Err? {
        return;
      }
      if r.value.status != Running {
        return Err(NotRunning);
      }
      jobs := jobs[id := jobs[id].(outputPath := Some(path))];
      r := Ok(jobs[id]);
    }

    method SetWorkerPaused(key: string, paused: bool) returns (r: Result<WorkerId, Error>)
      requires Valid()
      modifies this
      ensures Valid() && (State(), r) == SetPaused(old(State()), key, paused)
    {
      SetPausedConsistent(State(), key, paused);
      var exact := set w | w in workers && w == key;
      var matches := if exact != {} then exact else set w | w in workers && key <= w;
      if key in workers {
        assert key in exact && exact == {key};
      } else {
        assert exact == {};
        assert matches == set w | w in workers.Keys && key <= w;
      }
      if matches == {} {
        return Err(WorkerNotFound);
      }
      if !exists w :: w in matches && matches == {w} {
        return Err(AmbiguousPrefix(matches));
      }
      var w :| w in matches && matches == {w};
      workers := workers[w := workers[w].(paused := paused)];
      r := Ok(w);
    }

    method RegisterWorker(now: Time, w: WorkerId, hostname: string) returns (row: Worker)
      requires Valid()
      modifies this
      ensures Valid() && (State(), row) == Register(old(State()), now, w, hostname)
      ensures jobs == old(jobs) && lastSequence == old(lastSequence) && workers == old(workers)[w := row]
      ensures row.hostname == hostname && row.lastHeartbeat == now
      ensures w in old(workers) ==> row == old(workers)[w].(hostname := hostname, lastHeartbeat := now)
    {
      RegisterConsistent(State(), now, w, hostname);
      if w in workers {
        workers := workers[w := workers[w].(hostname := hostname, lastHeartbeat := now)];
      } else {
        workers := workers[w := Worker(hostname, false, now, None, false, None)];
      }
      row := workers[w];
    }

    method RecordHeartbeat(now: Time, w: WorkerId, tokenExpiry: Option<string>) returns (r: Result<Option<JobId>, Error>)
      requires Valid()
      modifies this
      ensures Valid() && (State(), r) == Heartbeat(old(State()), now, w, tokenExpiry)
      ensures r.Ok? <==> w in old(workers)
    {
      SmallUpdatesConsistent(State(), now, OpHeartbeat(w, tokenExpiry));
      if w !in workers {
        return Err(WorkerNotFound);
      }
      var expiry := if tokenExpiry.Some? then tokenExpiry else workers[w].tokenExpiry;
      workers := workers[w := workers[w].(lastHeartbeat := now, tokenExpiry := expiry)];
      var current := workers[w].currentJob;
      r := Ok(if current.Some? && jobs[current.value].cancelRequested then current else None);
    }

    method ClaimJob(now: Time, w: WorkerId) returns (r: Result<Option<Job>, Error>)
      requires Valid()
      modifies this
      ensures Valid() && (State(), r) == Claim(old(State()), now, w)
      ensures r.Ok? <==> w in old(workers)
    {
      ClaimConsistent(State(), now, w);
      if w !in workers {
        return Err(WorkerNotFound);
      }
      var worker := workers[w];
      workers := workers[w := worker.(lastHeartbeat := now)];
      if worker.currentJob.Some? {
        return Ok(Some(jobs[worker.currentJob.value]));
      }
      if worker.paused {
        return Ok(None);
      }
      var queued := Pending(jobs);
      if queued == map[] {
        return Ok(None);
      }
      var next := First(queued);
      FirstIsFirst(queued);
      jobs := jobs[next := Assigned(jobs[next], w, now)];
      assert IndexesHold(jobs, workers);
      workers := workers[w := workers[w].(busy := true, currentJob := Some(next))];
      assert IndexesHold(jobs, workers);
      r := Ok(Some(jobs[next]));
    }

    method FinishJob(now: Time, id: JobId, w: WorkerId, succeeded: bool, exitCode: Option<int>, error: Option<string>)
      returns (r: Result<Job, Error>)
      requires Valid()
      modifies this
      ensures Valid() && (State(), r) == Finish(old(State()), now, id, w, succeeded, exitCode, error)
    {
      FinishConsistent(State(), now, id, w, succeeded, exitCode, error);
      var owned := OwnedJob(id, w);
      if owned.Err? {
        return owned;
      }
      var job := owned.value;
      if job.status == Failed && job.error == Some(DISCONNECTED_ERROR) {
        return Err(OutcomeUnknown);
      }
      if job.status == Outcome(succeeded) {
        return Ok(job);
      }
      if job.status != Running {
        return Err(NotRunning);
      }
      if w !in workers {
        return Err(WorkerNotFound);
      }
      jobs := jobs[id := Ended(job, now, succeeded, exitCode, error)];
      assert IndexesHold(jobs, workers);
      workers := workers[w := Released(workers[w])];
      assert IndexesHold(jobs, workers);
      r := Ok(jobs[id]);
    }

    /** One operation of a batch, on one target. */
    method ActOn(now: Time, action: Action, id: JobId) returns (r: Result<(), Error>)
      requires Valid()
      modifies this
      ensures Valid() && State() == Act(old(State()), now, action, id)
      ensures r.Ok? <==> Accepts(old(State()), now, action, id)
      ensures r.Err? ==> Refuses(old(State()), action, id, r.error)
    {
      match action {
        case Urgent =>
          r := ReorderJob(id, None);
        case RetryJob =>
          var counted := RetryJobs(Some(id));
          r := if counted.Ok? then Ok(()) else Err(counted.error);
        case RemoveJob =>
          r := RemoveOne(now, id);
      }
    }

    /** A batch of job targets: each distinct target is one transaction and a rejected target stops nothing. */
    method Batch(ids: seq<JobId>, action: Action, clock: nat -> Time)
      returns (succeeded: seq<JobId>, failed: seq<(JobId, Error)>)
      requires Valid()
      modifies this
      ensures Valid() && State() == Execute(old(State()), BatchRun(Todo(ids, action), action, clock))
      ensures BatchResult(old(State()), State(), ids, action, succeeded, failed)
    {
      var unique := Distincts(ids);
      DistinctsOk(ids);
      ReversedOk(unique);
      var todo := if action.Urgent? then Reversed(unique) else unique;
      succeeded, failed := [], [];
      ghost var db0 := State();
      BatchStart(db0, todo, action);
      var i := 0;
      while i < |todo|
        invariant 0 <= i <= |todo| && Valid()
        invariant State() == Execute(db0, BatchRun(todo[..i], action, clock))
        invariant BatchAt(db0, State(), todo, i, action, succeeded, failed)
      {
        ghost var before, succeeded0, failed0 := State(), succeeded, failed;
        var r := ActOn(clock(i), action, todo[i]);
        RunStep(db0, before, todo, i, action, clock);
        if r.Ok? {
          succeeded := succeeded + [todo[i]];
        } else {
          failed := failed + [(todo[i], r.error)];
        }
        BatchStep(db0, before, State(), clock(i), todo, i, action, succeeded0, failed0, r, succeeded, failed);
        i := i + 1;
      }
      assert todo[..i] == todo;
      ghost var succeeded1, failed1 := succeeded, failed;
      if action.Urgent? {
        succeeded, failed := Reversed(succeeded), Reversed(failed);
      }
      BatchEnd(db0, State(), ids, action, succeeded1, failed1, succeeded, failed);
    }
  }

  lemma RefusedResult(db: Db, id: JobId, other: Option<JobId>, e: Error)
    requires !(IsQueued(db, id) && (other.Some? ==> IsQueued(db, other.value)))
    requires var first := if IsQueued(db, id) then other.value else id;
             e == if first in db.jobs then OnlyQueuedReordered else JobNotFound
    ensures Reorder(db, id, other) == (db, Err(e))
  {
  }

  lemma SwapResult(db: Db, id: JobId, other: JobId, jobs: map<JobId, Job>)
    requires IsQueued(db, id) && IsQueued(db, other)
    requires jobs == MoveTo(MoveTo(db.jobs, id, db.jobs[other].position), other, db.jobs[id].position)
    ensures Reorder(db, id, Some(other)) == (db.(jobs := jobs), Ok(()))
  {
  }

  lemma FrontResult(db: Db, id: JobId, jobs: map<JobId, Job>)
    requires IsQueued(db, id) && Pending(db.jobs).Values != {} && jobs == MoveTo(db.jobs, id, Min(Pending(db.jobs).Values) - 1)
    ensures Reorder(db, id, None) == (db.(jobs := jobs), Ok(()))
  {
  }

  lemma ExpiryKeepsJobs(db: Db, now: Time)
    ensures Expire(db, now).jobs.Keys == db.jobs.Keys
  {
  }

  lemma CountsAdd(jobs: map<JobId, Job>, left: set<JobId>)
    requires left <= jobs.Keys
    ensures |jobs.Keys - left| + |left| == |jobs|
  {
    assert jobs.Keys == (jobs.Keys - left) + left;
  }
}
