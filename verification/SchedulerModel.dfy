/**
 The controller's two tables and what each scheduler operation does to them.

 Every operation is one transaction of controller/src/jobs/scheduler.ts, written as
 a function from tables to tables. A transaction that throws leaves the tables as
 they were, except for the expiry that clear, remove and remove-all run first.
 */
module SchedulerModel {
  import opened Wrappers
  import opened QueueOrder
  import opened WorkerLookup

  type JobId = int
  type WorkerId = string
  type Time = int

  datatype Status = Queued | Running | Succeeded | Failed

  datatype Job = Job(
    id: JobId,
    status: Status,
    command: seq<string>,
    createdAt: Time,
    startedAt: Option<Time>,
    finishedAt: Option<Time>,
    workerId: Option<WorkerId>,
    exitCode: Option<int>,
    error: Option<string>,
    outputPath: Option<string>,
    cancelRequested: bool,
    position: int)

  datatype Worker = Worker(
    hostname: string,
    busy: bool,
    lastHeartbeat: Time,
    currentJob: Option<JobId>,
    paused: bool,
    tokenExpiry: Option<string>)

  /** jobs is keyed by sequence; lastSequence is SQLite's AUTOINCREMENT counter. */
  datatype Db = Db(jobs: map<JobId, Job>, workers: map<WorkerId, Worker>, lastSequence: int)

  datatype Error =
    | JobNotFound
    | WorkerNotFound
    | AmbiguousPrefix(matches: set<WorkerId>)
    | CannotRemoveRunning
    | OnlyFailedRetried
    | OnlyQueuedReordered
    | OnlyRunningCancelled
    | NotAssignedToWorker
    | NotRunning
    | OutcomeUnknown

  const WORKER_TIMEOUT_MS := 2 * 60 * 1000
  const DISCONNECTED_ERROR := "Worker disconnected; outcome unknown"

  const EMPTY := Db(map[], map[], 0)

  // ---------- Views of the tables ----------

  /** Positions of the queued rows. */
  function Pending(jobs: map<JobId, Job>): Positions {
    map id | id in jobs && jobs[id].status == Queued :: jobs[id].position
  }

  function FailedPositions(jobs: map<JobId, Job>): Positions {
    map id | id in jobs && jobs[id].status == Failed :: jobs[id].position
  }

  function AllPositions(jobs: map<JobId, Job>): set<int> {
    set id | id in jobs :: jobs[id].position
  }

  /** The queued jobs in the order in which claims take them. */
  function Queue(db: Db): seq<JobId> {
    Order(Pending(db.jobs))
  }

  /** The job each busy worker holds. */
  function Held(db: Db): map<WorkerId, JobId> {
    map w | w in db.workers && db.workers[w].currentJob.Some? :: db.workers[w].currentJob.value
  }

  function Stale(db: Db, now: Time): set<WorkerId> {
    set w | w in db.workers && db.workers[w].lastHeartbeat <= now - WORKER_TIMEOUT_MS
  }

  // ---------- Operations ----------

  predicate Expires(job: Job, stale: set<WorkerId>) {
    job.status == Running && job.workerId.Some? && job.workerId.value in stale
  }

  function Disconnected(job: Job, now: Time): Job {
    job.(status := Failed, error := Some(DISCONNECTED_ERROR), exitCode := None,
         finishedAt := Some(now), cancelRequested := false)
  }

  function Released(worker: Worker): Worker {
    worker.(busy := false, currentJob := None)
  }

  function ExpiredJobs(jobs: map<JobId, Job>, stale: set<WorkerId>, now: Time): map<JobId, Job> {
    map id | id in jobs :: if Expires(jobs[id], stale) then Disconnected(jobs[id], now) else jobs[id]
  }

  function ReleasedWorkers(workers: map<WorkerId, Worker>, stale: set<WorkerId>): map<WorkerId, Worker> {
    map w | w in workers :: if w in stale then Released(workers[w]) else workers[w]
  }

  function Expire(db: Db, now: Time): Db {
    var stale := Stale(db, now);
    db.(jobs := ExpiredJobs(db.jobs, stale, now), workers := ReleasedWorkers(db.workers, stale))
  }

  function NewJob(id: JobId, command: seq<string>, now: Time, position: int): Job {
    Job(id, Queued, command, now, None, None, None, None, None, None, false, position)
  }

  /** A new job's position is its own sequence number. */
  function Submit(db: Db, now: Time, command: seq<string>): (Db, Job) {
    var id := db.lastSequence + 1;
    var job := NewJob(id, command, now, id);
    (db.(jobs := db.jobs[id := job], lastSequence := id), job)
  }

  predicate Finished(job: Job) {
    job.status == Succeeded || job.status == Failed
  }

  function Unfinished(jobs: map<JobId, Job>): map<JobId, Job> {
    map id | id in jobs && !Finished(jobs[id]) :: jobs[id]
  }

  function RunningRows(jobs: map<JobId, Job>): map<JobId, Job> {
    map id | id in jobs && jobs[id].status == Running :: jobs[id]
  }

  /** Ids start again from 1 only when no job remains. */
  function Clear(db: Db, now: Time): Db {
    var e := Expire(db, now);
    var left := Unfinished(e.jobs);
    e.(jobs := left, lastSequence := if left == map[] then 0 else e.lastSequence)
  }

  function RemoveAll(db: Db, now: Time): (Db, nat, nat) {
    var e := Expire(db, now);
    var left := RunningRows(e.jobs);
    (e.(jobs := left), |e.jobs.Keys - left.Keys|, |left.Keys|)
  }

  function Remove(db: Db, now: Time, id: JobId): (Db, Result<(), Error>) {
    var e := Expire(db, now);
    if id !in e.jobs then (e, Err(JobNotFound))
    else if e.jobs[id].status == Running then (e, Err(CannotRemoveRunning))
    else (e.(jobs := e.jobs - {id}), Ok(()))
  }

  function Requeued(job: Job, position: int): Job {
    job.(status := Queued, startedAt := None, finishedAt := None, workerId := None,
         outputPath := None, exitCode := None, error := None, cancelRequested := false,
         position := position)
  }

  function RequeueOne(jobs: map<JobId, Job>, id: JobId): map<JobId, Job>
    requires id in jobs
  {
    jobs[id := Requeued(jobs[id], MaxOrZero(AllPositions(jobs)) + 1)]
  }

  function RequeueAll(jobs: map<JobId, Job>, ids: seq<JobId>): map<JobId, Job>
    requires forall i :: 0 <= i < |ids| ==> ids[i] in jobs
    decreases |ids|
  {
    if ids == [] then jobs else RequeueAll(RequeueOne(jobs, ids[0]), ids[1..])
  }

  /** Without an id, every failed job in (position, sequence) order. */
  function Retry(db: Db, which: Option<JobId>): (Db, Result<nat, Error>) {
    if which.Some? && which.value !in db.jobs then (db, Err(JobNotFound))
    else if which.Some? && db.jobs[which.value].status != Failed then (db, Err(OnlyFailedRetried))
    else
      var ids := if which.Some? then [which.value] else Order(FailedPositions(db.jobs));
      assert forall i :: 0 <= i < |ids| ==> ids[i] in db.jobs by {
        OrderLists(FailedPositions(db.jobs));
      }
      (db.(jobs := RequeueAll(db.jobs, ids)), Ok(|ids|))
  }

  function MoveTo(jobs: map<JobId, Job>, id: JobId, position: int): map<JobId, Job>
    requires id in jobs
  {
    jobs[id := jobs[id].(position := position)]
  }

  function Reorder(db: Db, id: JobId, other: Option<JobId>): (Db, Result<(), Error>) {
    if id !in db.jobs then (db, Err(JobNotFound))
    else if db.jobs[id].status != Queued then (db, Err(OnlyQueuedReordered))
    else if other.None? then
      assert id in Pending(db.jobs) && Pending(db.jobs)[id] in Pending(db.jobs).Values;
      (db.(jobs := MoveTo(db.jobs, id, Min(Pending(db.jobs).Values) - 1)), Ok(()))
    else if other.value !in db.jobs then (db, Err(JobNotFound))
    else if db.jobs[other.value].status != Queued then (db, Err(OnlyQueuedReordered))
    else
      var first, second := db.jobs[id].position, db.jobs[other.value].position;
      (db.(jobs := MoveTo(MoveTo(db.jobs, id, second), other.value, first)), Ok(()))
  }

  function Cancel(db: Db, id: JobId): (Db, Result<Job, Error>) {
    if id !in db.jobs then (db, Err(JobNotFound))
    else if db.jobs[id].status != Running then (db, Err(OnlyRunningCancelled))
    else
      var job := db.jobs[id].(cancelRequested := true);
      (db.(jobs := db.jobs[id := job]), Ok(job))
  }

  function Output(db: Db, id: JobId, w: WorkerId, path: string): (Db, Result<Job, Error>) {
    if id !in db.jobs then (db, Err(JobNotFound))
    else if db.jobs[id].workerId != Some(w) then (db, Err(NotAssignedToWorker))
    else if db.jobs[id].status != Running then (db, Err(NotRunning))
    else
      var job := db.jobs[id].(outputPath := Some(path));
      (db.(jobs := db.jobs[id := job]), Ok(job))
  }

  function SetPaused(db: Db, key: string, paused: bool): (Db, Result<WorkerId, Error>) {
    match Lookup(db.workers.Keys, key)
    case Missing => (db, Err(WorkerNotFound))
    case Ambiguous(ids) => (db, Err(AmbiguousPrefix(ids)))
    case Unique(w) =>
      LookupFinds(db.workers.Keys, key, w);
      (db.(workers := db.workers[w := db.workers[w].(paused := paused)]), Ok(w))
  }

  /** Registering again keeps an existing assignment. */
  function Register(db: Db, now: Time, w: WorkerId, hostname: string): (Db, Worker) {
    var row :=
      if w in db.workers then db.workers[w].(hostname := hostname, lastHeartbeat := now)
      else Worker(hostname, false, now, None, false, None);
    (db.(workers := db.workers[w := row]), row)
  }

  /** Returns the worker's current job if its cancellation is requested. */
  function Heartbeat(db: Db, now: Time, w: WorkerId, tokenExpiry: Option<string>): (Db, Result<Option<JobId>, Error>) {
    if w !in db.workers then (db, Err(WorkerNotFound))
    else
      var worker := db.workers[w].(lastHeartbeat := now,
                                   tokenExpiry := if tokenExpiry.Some? then tokenExpiry else db.workers[w].tokenExpiry);
      if worker.currentJob.Some? && worker.currentJob.value !in db.jobs then (db, Err(JobNotFound))
      else
        (db.(workers := db.workers[w := worker]),
         Ok(if worker.currentJob.Some? && db.jobs[worker.currentJob.value].cancelRequested
            then worker.currentJob else None))
  }

  function Touched(db: Db, now: Time, w: WorkerId): Db
    requires w in db.workers
  {
    db.(workers := db.workers[w := db.workers[w].(lastHeartbeat := now)])
  }

  function Assigned(job: Job, w: WorkerId, now: Time): Job {
    job.(status := Running, startedAt := Some(now), workerId := Some(w))
  }

  /** Hands the first queued job to an idle, unpaused worker. */
  function Assign(db: Db, now: Time, w: WorkerId): Db
    requires w in db.workers && Pending(db.jobs) != map[]
  {
    var id := First(Pending(db.jobs));
    FirstIsFirst(Pending(db.jobs));
    db.(jobs := db.jobs[id := Assigned(db.jobs[id], w, now)],
        workers := db.workers[w := db.workers[w].(busy := true, currentJob := Some(id))])
  }

  function Claim(db: Db, now: Time, w: WorkerId): (Db, Result<Option<Job>, Error>) {
    if w !in db.workers then (db, Err(WorkerNotFound))
    else
      var worker := db.workers[w];
      if worker.currentJob.Some? then
        // A lost claim response must not assign a second job to the same worker.
        if worker.currentJob.value !in db.jobs then (db, Err(JobNotFound))
        else (Touched(db, now, w), Ok(Some(db.jobs[worker.currentJob.value])))
      else if worker.paused || Pending(db.jobs) == map[] then (Touched(db, now, w), Ok(None))
      else
        FirstIsFirst(Pending(db.jobs));
        var claimed := Assign(Touched(db, now, w), now, w);
        (claimed, Ok(Some(claimed.jobs[First(Pending(db.jobs))])))
  }

  function Outcome(succeeded: bool): Status {
    if succeeded then Succeeded else Failed
  }

  function Ended(job: Job, now: Time, succeeded: bool, exitCode: Option<int>, error: Option<string>): Job {
    job.(status := Outcome(succeeded), exitCode := exitCode,
         error := if succeeded then None else error, finishedAt := Some(now))
  }

  function Finish(db: Db, now: Time, id: JobId, w: WorkerId, succeeded: bool, exitCode: Option<int>,
                  error: Option<string>): (Db, Result<Job, Error>) {
    if id !in db.jobs then (db, Err(JobNotFound))
    else
      var job := db.jobs[id];
      if job.workerId != Some(w) then (db, Err(NotAssignedToWorker))
      else if job.status == Failed && job.error == Some(DISCONNECTED_ERROR) then (db, Err(OutcomeUnknown))
      else if job.status == Outcome(succeeded) then (db, Ok(job))
      else if job.status != Running then (db, Err(NotRunning))
      else if w !in db.workers then (db, Err(WorkerNotFound))
      else
        var ended := Ended(job, now, succeeded, exitCode, error);
        (db.(jobs := db.jobs[id := ended], workers := db.workers[w := Released(db.workers[w])]), Ok(ended))
  }

  // ---------- Operations as data, and runs ----------

  datatype Op =
    | OpSubmit(command: seq<string>)
    | OpList
    | OpClear
    | OpRemoveAll
    | OpRemove(id: JobId)
    | OpRetry(which: Option<JobId>)
    | OpReorder(id: JobId, other: Option<JobId>)
    | OpCancel(id: JobId)
    | OpOutput(id: JobId, w: WorkerId, path: string)
    | OpSetPaused(key: string, paused: bool)
    | OpRegister(w: WorkerId, hostname: string)
    | OpHeartbeat(w: WorkerId, tokenExpiry: Option<string>)
    | OpClaim(w: WorkerId)
    | OpFinish(id: JobId, w: WorkerId, succeeded: bool, exitCode: Option<int>, error: Option<string>)

  function Apply(db: Db, now: Time, op: Op): Db {
    match op
    case OpSubmit(command) => Submit(db, now, command).0
    case OpList => Expire(db, now)
    case OpClear => Clear(db, now)
    case OpRemoveAll => RemoveAll(db, now).0
    case OpRemove(id) => Remove(db, now, id).0
    case OpRetry(which) => Retry(db, which).0
    case OpReorder(id, other) => Reorder(db, id, other).0
    case OpCancel(id) => Cancel(db, id).0
    case OpOutput(id, w, path) => Output(db, id, w, path).0
    case OpSetPaused(key, paused) => SetPaused(db, key, paused).0
    case OpRegister(w, hostname) => Register(db, now, w, hostname).0
    case OpHeartbeat(w, expiry) => Heartbeat(db, now, w, expiry).0
    case OpClaim(w) => Claim(db, now, w).0
    case OpFinish(id, w, succeeded, exitCode, error) => Finish(db, now, id, w, succeeded, exitCode, error).0
  }

  /** A run: operations with the clock reading each one saw. Clocks may go backwards. */
  type Run = seq<(Time, Op)>

  function Execute(db: Db, run: Run): Db
    decreases |run|
  {
    if run == [] then db else Execute(Apply(db, run[0].0, run[0].1), run[1..])
  }
}
