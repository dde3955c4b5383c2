/** What every step of the protocol keeps, and what holds in every run of it. */
module ProtocolProofs {
  import opened Wrappers
  import opened ProtocolModel
  import S = SchedulerModel
  import I = SchedulerInvariant
  import Q = QueueOrder
  import E = Execution

  // ---------- The invariant ----------

  /** Open assignments and busy workers are the same thing, seen from two sides. */
  ghost predicate Numbered(s: State) {
    && s.number.Keys == S.Held(s.db).Keys
    && (forall w :: w in s.number ==>
          s.number[w] < |s.log| && s.log[s.number[w]].worker == w && s.log[s.number[w]].fate.Open? &&
          s.log[s.number[w]].job == S.Held(s.db)[w])
    && (forall n :: 0 <= n < |s.log| && s.log[n].fate.Open? ==>
          s.log[n].worker in s.number && s.number[s.log[n].worker] == n)
  }

  predicate RecordOk(a: Assignment) {
    && a.launches <= 1
    && (a.ending.Some? ==> a.launches == 1 && E.Possible(a.ending.value) && a.result == Some(E.ResultOf(a.ending.value)))
    && (a.result.Some? && a.ending.None? ==> a.launches == 0 && E.NotLaunched(a.result.value))
    && (a.fate.Reported? ==> a.fate.report == E.RECOVERY || a.result == Some(a.fate.report))
  }

  ghost predicate RecordsOk(s: State) {
    forall n :: 0 <= n < |s.log| ==> RecordOk(s.log[n])
  }

  /** A job is assigned again only after its earlier assignments have ended. */
  ghost predicate EarlierClosed(s: State) {
    forall a, b :: 0 <= a < b < |s.log| && s.log[a].job == s.log[b].job ==> !s.log[a].fate.Open?
  }

  /** What the controller's row of a job says about its newest assignment. */
  predicate RowMatches(job: S.Job, a: Assignment) {
    && a.job == job.id && job.workerId == Some(a.worker)
    && match job.status
       case Queued => true
       case Running => a.fate.Open?
       case Succeeded => a.fate.Reported? && E.ReportsSuccess(a.fate.report) && job.exitCode == Some(0) && job.error.None?
       case Failed =>
         if a.fate.Expired? then job.error == Some(S.DISCONNECTED_ERROR) && job.exitCode.None?
         else a.fate.Reported? && !E.ReportsSuccess(a.fate.report) &&
              job.error == Some(a.fate.report.error) && job.exitCode == a.fate.report.exitCode
  }

  ghost predicate RowsMatch(s: State) {
    forall j :: j in s.db.jobs && s.db.jobs[j].status != S.Queued ==>
      j in s.latest && s.latest[j] < |s.log| && RowMatches(s.db.jobs[j], s.log[s.latest[j]])
  }

  /** The assignment is this worker's, and if the worker holds any assignment it is this one. */
  predicate Owns(s: State, w: WorkerId, h: Hold) {
    && h.n < |s.log| && s.log[h.n].worker == w && s.log[h.n].job == h.job
    && (w in s.number ==> s.number[w] == h.n)
  }

  predicate StillOpenOrExpired(a: Assignment) {
    a.fate.Open? || a.fate.Expired?
  }

  predicate Untouched(a: Assignment) {
    a.launches == 0 && a.ending.None? && a.result.None? && StillOpenOrExpired(a)
  }

  /** An assignment made since this daemon started, and not yet run. */
  predicate Fresh(s: State, w: WorkerId, h: Hold, since: nat) {
    Owns(s, w, h) && since <= h.n && Untouched(s.log[h.n])
  }

  /** A report in flight: once accepted, the worker holds nothing. */
  predicate ReportReply(s: State, w: WorkerId, net: Net) {
    net.Replied? ==> net.response.Rejected? || (net.response.Accepted? && w !in s.number)
  }

  ghost predicate DaemonOk(s: State, w: WorkerId, d: Daemon) {
    d.Up? ==>
      && d.since <= |s.log|
      && match d.phase
         case Registering =>
           d.net.Replied? ==>
             && d.net.response.RegisteredAs?
             && (d.net.response.current.None? ==> w !in s.number)
             && (d.net.response.current.Some? ==> Owns(s, w, d.net.response.current.value))
         case Recovering(h) => Owns(s, w, h) && ReportReply(s, w, d.net)
         case Idle => d.net.Silent? && (!d.disabled ==> w !in s.number)
         case Claiming =>
           && (w in s.number ==> s.number[w] < |s.log| && d.since <= s.number[w] && Untouched(s.log[s.number[w]]))
           && (d.net.Replied? && !d.net.response.Rejected? ==>
                 && d.net.response.Claimed?
                 && (d.net.response.got.None? ==> w !in s.number)
                 && (d.net.response.got.Some? ==> Fresh(s, w, d.net.response.got.value, d.since)))
         case Preparing(h) => Fresh(s, w, h, d.since)
         case Ready(h) => Fresh(s, w, h, d.since) && d.net.Silent?
         case Executing(h) =>
           Owns(s, w, h) && d.since <= h.n && s.log[h.n].launches == 1 && s.log[h.n].ending.None? && s.log[h.n].result.None? &&
           StillOpenOrExpired(s.log[h.n]) && d.net.Silent?
         case Reporting(h, r) =>
           Owns(s, w, h) && s.log[h.n].result == Some(r) &&
           (StillOpenOrExpired(s.log[h.n]) || s.log[h.n].fate == Reported(r)) && ReportReply(s, w, d.net)
  }

  ghost predicate DaemonsOk(s: State) {
    forall w :: w in s.daemons ==> DaemonOk(s, w, s.daemons[w])
  }

  /** The part of the invariant about the log and how the controller's rows agree with it. */
  ghost predicate BooksOk(s: State) {
    Numbered(s) && RecordsOk(s) && EarlierClosed(s) && RowsMatch(s)
  }

  ghost predicate Inv(s: State) {
    I.Consistent(s.db) && BooksOk(s) && DaemonsOk(s)
  }

  // ---------- What a step must not disturb ----------

  /** For worker v, nothing happened except perhaps the expiry of its assignment. */
  ghost predicate Frame(s: State, s': State, v: WorkerId) {
    && |s.log| <= |s'.log|
    && (forall n :: 0 <= n < |s.log| && s.log[n].worker == v ==>
          s'.log[n] == s.log[n] || (s.log[n].fate.Open? && s'.log[n] == s.log[n].(fate := Expired)))
    && (v in s'.number ==> v in s.number && s'.number[v] == s.number[v])
  }

  lemma FrameKeepsOwns(s: State, s': State, v: WorkerId, h: Hold)
    requires Frame(s, s', v) && Owns(s, v, h)
    ensures Owns(s', v, h)
    ensures Untouched(s.log[h.n]) ==> Untouched(s'.log[h.n])
    ensures s'.log[h.n].launches == s.log[h.n].launches && s'.log[h.n].ending == s.log[h.n].ending
    ensures s'.log[h.n].result == s.log[h.n].result
    ensures StillOpenOrExpired(s.log[h.n]) ==> StillOpenOrExpired(s'.log[h.n])
    ensures s.log[h.n].fate.Reported? ==> s'.log[h.n].fate == s.log[h.n].fate
  {
  }

  lemma FrameKeepsDaemon(s: State, s': State, v: WorkerId, d: Daemon)
    requires Frame(s, s', v) && DaemonOk(s, v, d) && Numbered(s)
    ensures DaemonOk(s', v, d)
  {
    if d.Up? {
      match d.phase
      case Registering =>
        if d.net.Replied? && d.net.response.current.Some? { FrameKeepsOwns(s, s', v, d.net.response.current.value); }
      case Recovering(h) => FrameKeepsOwns(s, s', v, h);
      case Idle =>
      case Claiming =>
        if d.net.Replied? && d.net.response.Claimed? && d.net.response.got.Some? {
          FrameKeepsOwns(s, s', v, d.net.response.got.value);
        }
        if v in s'.number { assert s.log[s.number[v]].worker == v; }
      case Preparing(h) => FrameKeepsOwns(s, s', v, h);
      case Ready(h) => FrameKeepsOwns(s, s', v, h);
      case Executing(h) => FrameKeepsOwns(s, s', v, h);
      case Reporting(h, r) => FrameKeepsOwns(s, s', v, h);
    }
  }

  /** The daemons other than w are undisturbed, and w's new state is in order. */
  lemma DaemonsAfter(s: State, s': State, w: WorkerId, d: Daemon)
    requires DaemonsOk(s) && Numbered(s)
    requires forall v :: v in s.daemons && v != w ==> Frame(s, s', v)
    requires s'.daemons == s.daemons[w := d] && DaemonOk(s', w, d)
    ensures DaemonsOk(s')
  {
    forall v | v in s'.daemons ensures DaemonOk(s', v, s'.daemons[v]) {
      if v != w { FrameKeepsDaemon(s, s', v, s.daemons[v]); }
    }
  }

  lemma DaemonOfOk(s: State, w: WorkerId)
    requires DaemonsOk(s)
    ensures DaemonOk(s, w, DaemonOf(s, w))
  {
  }

  // ---------- Expiry and administration ----------

  /** How one row may change in an operation that is neither a claim nor a report. */
  ghost predicate RowStep(db: S.Db, db': S.Db, j: JobId) {
    && j in db'.jobs
    && (db'.jobs[j].status == S.Queued
        || (&& j in db.jobs && db.jobs[j].status == db'.jobs[j].status && db.jobs[j].workerId == db'.jobs[j].workerId
            && db.jobs[j].error == db'.jobs[j].error && db.jobs[j].exitCode == db'.jobs[j].exitCode
            && db.jobs[j].id == db'.jobs[j].id
            && (db'.jobs[j].status == S.Running ==> db'.jobs[j].workerId.Some? && db'.jobs[j].workerId.value in S.Held(db')))
        || (&& j in db.jobs && db.jobs[j].status == S.Running && db'.jobs[j].status == S.Failed
            && db'.jobs[j].error == Some(S.DISCONNECTED_ERROR) && db'.jobs[j].exitCode.None?
            && db'.jobs[j].workerId == db.jobs[j].workerId && db'.jobs[j].id == db.jobs[j].id
            && db.jobs[j].workerId.Some? && db.jobs[j].workerId.value !in S.Held(db')))
  }

  ghost predicate OnlyExpires(db: S.Db, db': S.Db) {
    && (forall j :: j in db'.jobs ==> RowStep(db, db', j))
    && (forall w :: w in S.Held(db') ==> w in S.Held(db) && S.Held(db')[w] == S.Held(db)[w])
  }

  lemma ExpireOnlyExpires(db: S.Db, now: S.Time)
    requires I.Consistent(db)
    ensures OnlyExpires(db, S.Expire(db, now))
  {
    I.ExpireConsistent(db, now);
  }

  lemma RemovingOnlyExpires(db: S.Db, now: S.Time, id: JobId)
    requires I.Consistent(db)
    ensures OnlyExpires(db, S.Clear(db, now)) && OnlyExpires(db, S.RemoveAll(db, now).0)
    ensures OnlyExpires(db, S.Remove(db, now, id).0)
  {
    ExpireOnlyExpires(db, now);
    var e := S.Expire(db, now);
    FewerRows(db, e, S.Clear(db, now));
    FewerRows(db, e, S.RemoveAll(db, now).0);
    FewerRows(db, e, S.Remove(db, now, id).0);
  }

  lemma FewerRows(db: S.Db, e: S.Db, db': S.Db)
    requires OnlyExpires(db, e) && db'.workers == e.workers
    requires forall j :: j in db'.jobs ==> j in e.jobs && db'.jobs[j] == e.jobs[j]
    ensures OnlyExpires(db, db')
  {
    assert S.Held(db') == S.Held(e);
    forall j | j in db'.jobs ensures RowStep(db, db', j) { assert RowStep(db, e, j); }
  }

  lemma RowsKeptOnlyExpires(db: S.Db, db': S.Db)
    requires I.Consistent(db') && S.Held(db') == S.Held(db)
    requires forall j :: j in db'.jobs && db'.jobs[j].status != S.Queued ==>
               j in db.jobs && db.jobs[j].status == db'.jobs[j].status && db.jobs[j].workerId == db'.jobs[j].workerId &&
               db.jobs[j].error == db'.jobs[j].error && db.jobs[j].exitCode == db'.jobs[j].exitCode &&
               db.jobs[j].id == db'.jobs[j].id
    ensures OnlyExpires(db, db')
  {
  }

  lemma RetryOnlyExpires(db: S.Db, which: Option<JobId>)
    requires I.Consistent(db)
    ensures OnlyExpires(db, S.Retry(db, which).0)
  {
    I.RetryRows(db, which);
    I.RetryConsistent(db, which);
    I.HeldDependsOnWorkers(db, S.Retry(db, which).0);
    RowsKeptOnlyExpires(db, S.Retry(db, which).0);
  }

  lemma AdminOnlyExpires(db: S.Db, now: S.Time, op: S.Op)
    requires I.Consistent(db) && IsAdmin(op)
    ensures OnlyExpires(db, S.Apply(db, now, op))
  {
    match op
    case OpList => ExpireOnlyExpires(db, now);
    case OpClear => RemovingOnlyExpires(db, now, 0);
    case OpRemoveAll => RemovingOnlyExpires(db, now, 0);
    case OpRemove(id) => RemovingOnlyExpires(db, now, id);
    case OpRetry(which) => RetryOnlyExpires(db, which);
    case OpSubmit(command) => SubmitOnlyExpires(db, now, command);
    case OpReorder(id, other) => ReorderOnlyExpires(db, id, other);
    case OpCancel(id) => CancelOnlyExpires(db, id);
    case OpSetPaused(key, paused) => SetPausedOnlyExpires(db, key, paused);
  }

  lemma SubmitOnlyExpires(db: S.Db, now: S.Time, command: seq<string>)
    requires I.Consistent(db)
    ensures OnlyExpires(db, S.Submit(db, now, command).0)
  {
    I.SmallUpdatesConsistent(db, now, S.OpSubmit(command));
    I.HeldDependsOnWorkers(db, S.Submit(db, now, command).0);
    RowsKeptOnlyExpires(db, S.Submit(db, now, command).0);
  }

  lemma ReorderOnlyExpires(db: S.Db, id: JobId, other: Option<JobId>)
    requires I.Consistent(db)
    ensures OnlyExpires(db, S.Reorder(db, id, other).0)
  {
    I.ReorderConsistent(db, id, other);
    I.HeldDependsOnWorkers(db, S.Reorder(db, id, other).0);
    RowsKeptOnlyExpires(db, S.Reorder(db, id, other).0);
  }

  lemma CancelOnlyExpires(db: S.Db, id: JobId)
    requires I.Consistent(db)
    ensures OnlyExpires(db, S.Cancel(db, id).0)
  {
    I.SmallUpdatesConsistent(db, 0, S.OpCancel(id));
    I.HeldDependsOnWorkers(db, S.Cancel(db, id).0);
    RowsKeptOnlyExpires(db, S.Cancel(db, id).0);
  }

  lemma SetPausedOnlyExpires(db: S.Db, key: string, paused: bool)
    requires I.Consistent(db)
    ensures OnlyExpires(db, S.SetPaused(db, key, paused).0)
  {
    I.SetPausedConsistent(db, key, paused);
    I.HeldSetPaused(db, key, paused);
    assert S.SetPaused(db, key, paused).0.jobs == db.jobs;
    RowsKeptOnlyExpires(db, S.SetPaused(db, key, paused).0);
  }

  /** Requests that leave every assignment and every record as they are. */
  ghost predicate Quiet(db: S.Db, db': S.Db) {
    OnlyExpires(db, db') && S.Held(db') == S.Held(db)
  }

  lemma RegisterQuiet(db: S.Db, now: S.Time, w: WorkerId, hostname: string)
    requires I.Consistent(db)
    ensures Quiet(db, S.Register(db, now, w, hostname).0) && I.Consistent(S.Register(db, now, w, hostname).0)
  {
    I.RegisterConsistent(db, now, w, hostname);
    I.HeldRowUpdate(db, w, S.Register(db, now, w, hostname).1);
    RowsKeptOnlyExpires(db, S.Register(db, now, w, hostname).0);
  }

  lemma OutputQuiet(db: S.Db, job: JobId, w: WorkerId, path: string)
    requires I.Consistent(db)
    ensures Quiet(db, S.Output(db, job, w, path).0) && I.Consistent(S.Output(db, job, w, path).0)
  {
    I.SmallUpdatesConsistent(db, 0, S.OpOutput(job, w, path));
    I.HeldDependsOnWorkers(db, S.Output(db, job, w, path).0);
    RowsKeptOnlyExpires(db, S.Output(db, job, w, path).0);
  }

  lemma HeartbeatQuiet(db: S.Db, now: S.Time, w: WorkerId, expiry: Option<string>)
    requires I.Consistent(db)
    ensures Quiet(db, S.Heartbeat(db, now, w, expiry).0) && I.Consistent(S.Heartbeat(db, now, w, expiry).0)
  {
    I.SmallUpdatesConsistent(db, now, S.OpHeartbeat(w, expiry));
    I.HeldHeartbeat(db, now, w, expiry);
    RowsKeptOnlyExpires(db, S.Heartbeat(db, now, w, expiry).0);
  }

  lemma OldClaimQuiet(db: S.Db, now: S.Time, w: WorkerId)
    requires I.Consistent(db)
    requires var r := S.Claim(db, now, w).1; r.Err? || r.value.None? || w in S.Held(db)
    ensures Quiet(db, S.Claim(db, now, w).0) && I.Consistent(S.Claim(db, now, w).0)
  {
    I.HeldClaim(db, now, w);
    I.ClaimConsistent(db, now, w);
    RowsKeptOnlyExpires(db, S.Claim(db, now, w).0);
  }

  lemma SettleNumbered(s: State, db': S.Db)
    requires Numbered(s) && OnlyExpires(s.db, db')
    ensures Numbered(Settle(s, db'))
  {
    var s' := Settle(s, db');
    forall w ensures w in s'.number.Keys <==> w in S.Held(db').Keys {
      if w in S.Held(db') { assert w in S.Held(s.db).Keys; }
    }
    assert s'.number.Keys == S.Held(db').Keys;
  }

  lemma SettleFrames(s: State, db': S.Db, v: WorkerId)
    requires Numbered(s)
    ensures Frame(s, Settle(s, db'), v)
  {
  }

  lemma SettleRows(s: State, db': S.Db)
    requires Numbered(s) && RowsMatch(s) && OnlyExpires(s.db, db')
    ensures RowsMatch(Settle(s, db'))
  {
    var s' := Settle(s, db');
    forall j | j in s'.db.jobs && s'.db.jobs[j].status != S.Queued
      ensures j in s'.latest && s'.latest[j] < |s'.log| && RowMatches(s'.db.jobs[j], s'.log[s'.latest[j]])
    {
      assert RowStep(s.db, db', j);
      assert RowMatches(s.db.jobs[j], s.log[s.latest[j]]);
    }
  }

  lemma SettleBooks(s: State, db': S.Db)
    requires BooksOk(s) && OnlyExpires(s.db, db')
    ensures BooksOk(Settle(s, db'))
  {
    SettleNumbered(s, db');
    SettleRows(s, db');
    SettleRecords(s, db');
  }

  lemma SettleRecords(s: State, db': S.Db)
    requires RecordsOk(s) && EarlierClosed(s)
    ensures RecordsOk(Settle(s, db')) && EarlierClosed(Settle(s, db'))
  {
  }

  /** An operation that ends nothing leaves log and numbers alone. */
  lemma SettleNothing(s: State, db': S.Db)
    requires Numbered(s) && S.Held(db') == S.Held(s.db)
    ensures Settle(s, db') == s.(db := db')
  {
    var numbers := map w | w in s.number && w in S.Held(db') :: s.number[w];
    assert ExpireLog(s.log, db') == s.log;
    assert numbers == s.number;
  }

  lemma QuietBooks(s: State, db': S.Db)
    requires BooksOk(s) && Quiet(s.db, db')
    ensures BooksOk(s.(db := db'))
  {
    SettleNothing(s, db');
    SettleBooks(s, db');
  }

  /** Replacing the tables alone disturbs no daemon. */
  lemma DbFrames(s: State, db': S.Db, v: WorkerId)
    ensures Frame(s, s.(db := db'), v)
  {
  }

  // ---------- Requests served ----------

  lemma NumberIffHeld(s: State, w: WorkerId)
    requires Numbered(s)
    ensures w in s.number <==> w in S.Held(s.db)
    ensures w in s.number ==> Owns(s, w, Hold(S.Held(s.db)[w], s.number[w]))
  {
    assert w in s.number.Keys <==> w in S.Held(s.db).Keys;
  }

  lemma RegisterReply(s: State, w: WorkerId, now: S.Time, hostname: string)
    requires Numbered(s)
    ensures var (s', r) := ServeRegister(s, w, now, hostname);
            && s' == s.(db := S.Register(s.db, now, w, hostname).0)
            && r.RegisteredAs?
            && (r.current.None? ==> w !in s.number)
            && (r.current.Some? ==> Owns(s, w, r.current.value))
  {
    NumberIffHeld(s, w);
  }

  /** A claim that assigns nothing new repeats the assignment held, or says there is none. */
  lemma OldClaimReply(s: State, w: WorkerId, now: S.Time)
    requires I.Consistent(s.db) && Numbered(s)
    requires var r := S.Claim(s.db, now, w).1; r.Err? || r.value.None? || w in S.Held(s.db)
    ensures var (s', r) := ServeClaim(s, w, now);
            && s' == s.(db := S.Claim(s.db, now, w).0)
            && (r.Rejected? || r.Claimed?)
            && (r.Claimed? && r.got.None? ==> w !in s.number)
            && (r.Claimed? && r.got.Some? ==> w in s.number && r.got.value.n == s.number[w] && Owns(s, w, r.got.value))
  {
    NumberIffHeld(s, w);
    I.HeldClaim(s.db, now, w);
  }

  /** The log after a claim that assigns job to w. */
  function WithAssignment(s: State, db': S.Db, w: WorkerId, job: JobId): State {
    s.(db := db', log := s.log + [Assignment(job, w, 0, None, None, Open)],
       number := s.number[w := |s.log|], latest := s.latest[job := |s.log|])
  }

  lemma NewClaimFacts(s: State, w: WorkerId, now: S.Time)
    requires I.Consistent(s.db)
    requires var r := S.Claim(s.db, now, w).1; r.Ok? && r.value.Some? && w !in S.Held(s.db)
    ensures var (db', r) := S.Claim(s.db, now, w); var job := r.value.value.id;
            && I.Consistent(db')
            && ServeClaim(s, w, now) == (WithAssignment(s, db', w, job), Claimed(Some(Hold(job, |s.log|))))
            && S.Held(db') == S.Held(s.db)[w := job]
            && job in s.db.jobs && s.db.jobs[job].status == S.Queued
            && job in db'.jobs && db'.jobs[job].status == S.Running && db'.jobs[job].workerId == Some(w) && db'.jobs[job].id == job
            && (forall j :: j in db'.jobs && j != job ==> j in s.db.jobs && db'.jobs[j] == s.db.jobs[j])
  {
    I.HeldClaim(s.db, now, w);
    I.ClaimConsistent(s.db, now, w);
    Q.FirstIsFirst(S.Pending(s.db.jobs));
  }

  /** No open assignment is of a queued job. */
  lemma QueuedJobIsClosed(s: State, job: JobId)
    requires I.Consistent(s.db) && Numbered(s) && job in s.db.jobs && s.db.jobs[job].status == S.Queued
    ensures forall a :: 0 <= a < |s.log| && s.log[a].job == job ==> !s.log[a].fate.Open?
  {
    forall a | 0 <= a < |s.log| && s.log[a].job == job ensures !s.log[a].fate.Open? {
      if s.log[a].fate.Open? {
        NumberIffHeld(s, s.log[a].worker);
        HeldIsRunning(s.db, s.log[a].worker);
        assert false;
      }
    }
  }

  lemma HeldIsRunning(db: S.Db, w: WorkerId)
    requires I.Consistent(db) && w in S.Held(db)
    ensures S.Held(db)[w] in db.jobs && db.jobs[S.Held(db)[w]].status == S.Running
  {
  }

  lemma NewNumbered(s: State, db': S.Db, w: WorkerId, job: JobId)
    requires Numbered(s) && w !in S.Held(s.db) && S.Held(db') == S.Held(s.db)[w := job]
    ensures Numbered(WithAssignment(s, db', w, job))
  {
    var s' := WithAssignment(s, db', w, job);
    NumberIffHeld(s, w);
    assert s'.number.Keys == s.number.Keys + {w};
    assert S.Held(db').Keys == S.Held(s.db).Keys + {w};
    forall m | 0 <= m < |s'.log| && s'.log[m].fate.Open?
      ensures s'.log[m].worker in s'.number && s'.number[s'.log[m].worker] == m
    {
      if m < |s.log| { assert s'.log[m] == s.log[m]; }
    }
  }

  lemma NewRowsMatch(s: State, db': S.Db, w: WorkerId, job: JobId)
    requires RowsMatch(s)
    requires job in db'.jobs && db'.jobs[job].status == S.Running && db'.jobs[job].workerId == Some(w) && db'.jobs[job].id == job
    requires forall j :: j in db'.jobs && j != job ==> j in s.db.jobs && db'.jobs[j] == s.db.jobs[j]
    ensures RowsMatch(WithAssignment(s, db', w, job))
  {
  }

  lemma NewBooks(s: State, db': S.Db, w: WorkerId, job: JobId)
    requires BooksOk(s) && w !in S.Held(s.db) && S.Held(db') == S.Held(s.db)[w := job]
    requires forall a :: 0 <= a < |s.log| && s.log[a].job == job ==> !s.log[a].fate.Open?
    requires job in db'.jobs && db'.jobs[job].status == S.Running && db'.jobs[job].workerId == Some(w) && db'.jobs[job].id == job
    requires forall j :: j in db'.jobs && j != job ==> j in s.db.jobs && db'.jobs[j] == s.db.jobs[j]
    ensures BooksOk(WithAssignment(s, db', w, job))
  {
    NewNumbered(s, db', w, job);
    NewRowsMatch(s, db', w, job);
  }

  lemma NewFrames(s: State, db': S.Db, w: WorkerId, job: JobId, v: WorkerId)
    requires v != w
    ensures Frame(s, WithAssignment(s, db', w, job), v)
  {
  }

  /** The state after a report that ends assignment n of worker w. */
  function WithReport(s: State, db': S.Db, w: WorkerId, n: nat, report: E.Result): State
    requires n < |s.log|
  {
    s.(db := db', log := s.log[n := s.log[n].(fate := Reported(report))], number := s.number - {w})
  }

  lemma FinishFacts(s: State, w: WorkerId, now: S.Time, h: Hold, report: E.Result)
    requires I.Consistent(s.db) && Numbered(s) && Owns(s, w, h)
    ensures var db' := FinishRequest(s.db, now, h.job, w, report).0; var (s', r) := ServeFinish(s, w, now, h.job, report);
            && I.Consistent(db') && (r.Rejected? || r.Accepted?)
            && (w !in s.number ==> s' == s)
            && (w in s.number ==>
                  && r.Accepted? && s' == WithReport(s, db', w, h.n, report)
                  && S.Held(db') == S.Held(s.db) - {w}
                  && h.job in s.db.jobs && s.db.jobs[h.job].status == S.Running
                  && db'.jobs == s.db.jobs[h.job := S.Ended(s.db.jobs[h.job], now, E.ReportsSuccess(report), report.exitCode, Some(report.error))])
  {
    NumberIffHeld(s, w);
    I.ReportEndsOnlyOwnAssignment(s.db, now, h.job, w, E.ReportsSuccess(report), report.exitCode, Some(report.error));
    I.FinishConsistent(s.db, now, h.job, w, E.ReportsSuccess(report), report.exitCode, Some(report.error));
    if w in s.number { HeldIsRunning(s.db, w); }
  }

  lemma ReportNumbered(s: State, db': S.Db, w: WorkerId, n: nat, report: E.Result)
    requires Numbered(s) && w in s.number && s.number[w] == n && n < |s.log| && S.Held(db') == S.Held(s.db) - {w}
    ensures Numbered(WithReport(s, db', w, n, report))
  {
    var s' := WithReport(s, db', w, n, report);
    assert s'.number.Keys == s.number.Keys - {w};
    assert S.Held(db').Keys == S.Held(s.db).Keys - {w};
  }

  lemma ReportRowsMatch(s: State, db': S.Db, w: WorkerId, now: S.Time, h: Hold, report: E.Result)
    requires Numbered(s) && RowsMatch(s) && EarlierClosed(s) && Owns(s, w, h) && w in s.number
    requires h.job in s.db.jobs && s.db.jobs[h.job].status == S.Running
    requires db'.jobs == s.db.jobs[h.job := S.Ended(s.db.jobs[h.job], now, E.ReportsSuccess(report), report.exitCode, Some(report.error))]
    requires forall j :: j in s.db.jobs ==> s.db.jobs[j].id == j
    ensures RowsMatch(WithReport(s, db', w, h.n, report))
  {
    var s' := WithReport(s, db', w, h.n, report);
    assert RowMatches(s.db.jobs[h.job], s.log[s.latest[h.job]]);
    LatestIsOwn(s, w, h);
    forall j | j in s'.db.jobs && s'.db.jobs[j].status != S.Queued
      ensures j in s'.latest && s'.latest[j] < |s'.log| && RowMatches(s'.db.jobs[j], s'.log[s'.latest[j]])
    {
      if j != h.job {
        assert s'.db.jobs[j] == s.db.jobs[j];
        assert RowMatches(s.db.jobs[j], s.log[s.latest[j]]);
      }
    }
  }

  /** The newest assignment of a held job is the one held. */
  lemma LatestIsOwn(s: State, w: WorkerId, h: Hold)
    requires Numbered(s) && Owns(s, w, h) && w in s.number && h.job in s.latest && s.latest[h.job] < |s.log|
    requires h.job in s.db.jobs && s.db.jobs[h.job].status == S.Running && s.db.jobs[h.job].id == h.job
    requires RowMatches(s.db.jobs[h.job], s.log[s.latest[h.job]])
    requires EarlierClosed(s)
    ensures s.latest[h.job] == h.n
  {
    var m := s.latest[h.job];
    assert s.log[m].fate.Open? && s.log[h.n].fate.Open? && s.log[m].job == s.log[h.n].job;
  }

  lemma ReportBooks(s: State, db': S.Db, w: WorkerId, now: S.Time, h: Hold, report: E.Result)
    requires BooksOk(s) && Owns(s, w, h) && w in s.number && S.Held(db') == S.Held(s.db) - {w}
    requires report == E.RECOVERY || s.log[h.n].result == Some(report)
    requires h.job in s.db.jobs && s.db.jobs[h.job].status == S.Running
    requires db'.jobs == s.db.jobs[h.job := S.Ended(s.db.jobs[h.job], now, E.ReportsSuccess(report), report.exitCode, Some(report.error))]
    requires forall j :: j in s.db.jobs ==> s.db.jobs[j].id == j
    ensures BooksOk(WithReport(s, db', w, h.n, report))
  {
    ReportNumbered(s, db', w, h.n, report);
    ReportRowsMatch(s, db', w, now, h, report);
  }

  lemma ReportFrames(s: State, db': S.Db, w: WorkerId, n: nat, report: E.Result, v: WorkerId)
    requires n < |s.log| && s.log[n].worker == w && v != w
    ensures Frame(s, WithReport(s, db', w, n, report), v)
  {
  }

  // ---------- Each step keeps the invariant ----------

  lemma QuietStep(s: State, db': S.Db, w: WorkerId, d: Daemon)
    requires Inv(s) && Quiet(s.db, db') && I.Consistent(db') && DaemonOk(s, w, d)
    ensures Inv(WithDaemon(s.(db := db'), w, d))
  {
    QuietBooks(s, db');
    SameBooksSameDaemon(s, s.(db := db'), w, d);
    forall v ensures Frame(s, s.(db := db'), v) { DbFrames(s, db', v); }
    BooksIgnoreDaemons(s.(db := db'), w, d);
    DaemonsAfter(s, WithDaemon(s.(db := db'), w, d), w, d);
  }

  lemma SameBooksSameDaemon(s: State, s': State, w: WorkerId, d: Daemon)
    requires DaemonOk(s, w, d) && s'.log == s.log && s'.number == s.number
    ensures DaemonOk(s', w, d)
  {
  }

  lemma BooksIgnoreDaemons(s: State, w: WorkerId, d: Daemon)
    requires BooksOk(s)
    ensures BooksOk(WithDaemon(s, w, d))
  {
  }

  lemma ServeRegisterStep(s: State, w: WorkerId, now: S.Time, hostname: string)
    requires Inv(s) && DaemonOf(s, w).Up? && DaemonOf(s, w).phase.Registering?
    ensures var (s1, r) := ServeRegister(s, w, now, hostname); Inv(WithDaemon(s1, w, DaemonOf(s, w).(net := Replied(r))))
  {
    DaemonOfOk(s, w);
    RegisterReply(s, w, now, hostname);
    RegisterQuiet(s.db, now, w, hostname);
    var r := ServeRegister(s, w, now, hostname).1;
    QuietStep(s, S.Register(s.db, now, w, hostname).0, w, DaemonOf(s, w).(net := Replied(r)));
  }

  lemma ServeOutputStep(s: State, w: WorkerId, h: Hold, path: string)
    requires Inv(s) && DaemonOf(s, w).Up? && DaemonOf(s, w).phase == Preparing(h)
    ensures var (s1, r) := ServeOutput(s, w, h.job, path); Inv(WithDaemon(s1, w, DaemonOf(s, w).(net := Replied(r))))
  {
    DaemonOfOk(s, w);
    OutputQuiet(s.db, h.job, w, path);
    var r := ServeOutput(s, w, h.job, path).1;
    QuietStep(s, S.Output(s.db, h.job, w, path).0, w, DaemonOf(s, w).(net := Replied(r)));
  }

  lemma OldClaimDaemon(s: State, w: WorkerId, d: Daemon, r: Response)
    requires DaemonOk(s, w, d) && d.Up? && d.phase.Claiming? && Numbered(s)
    requires r.Rejected? || r.Claimed?
    requires r.Claimed? && r.got.None? ==> w !in s.number
    requires r.Claimed? && r.got.Some? ==> w in s.number && r.got.value.n == s.number[w] && Owns(s, w, r.got.value)
    ensures DaemonOk(s, w, d.(net := Replied(r)))
  {
  }

  lemma ServeOldClaimStep(s: State, w: WorkerId, now: S.Time)
    requires Inv(s) && DaemonOf(s, w).Up? && DaemonOf(s, w).phase.Claiming?
    requires var r := S.Claim(s.db, now, w).1; r.Err? || r.value.None? || w in S.Held(s.db)
    ensures var (s1, r) := ServeClaim(s, w, now); Inv(WithDaemon(s1, w, DaemonOf(s, w).(net := Replied(r))))
  {
    DaemonOfOk(s, w);
    OldClaimReply(s, w, now);
    OldClaimQuiet(s.db, now, w);
    var r := ServeClaim(s, w, now).1;
    OldClaimDaemon(s, w, DaemonOf(s, w), r);
    QuietStep(s, S.Claim(s.db, now, w).0, w, DaemonOf(s, w).(net := Replied(r)));
  }

  lemma NewClaimInv(s: State, db': S.Db, w: WorkerId, job: JobId, d: Daemon)
    requires Inv(s) && I.Consistent(db') && BooksOk(WithAssignment(s, db', w, job))
    requires d.Up? && d.phase.Claiming? && d.since <= |s.log| && d.net == Replied(Claimed(Some(Hold(job, |s.log|))))
    ensures Inv(WithDaemon(WithAssignment(s, db', w, job), w, d))
  {
    var s1 := WithAssignment(s, db', w, job);
    forall v | v != w ensures Frame(s, s1, v) { NewFrames(s, db', w, job, v); }
    BooksIgnoreDaemons(s1, w, d);
    DaemonsAfter(s, WithDaemon(s1, w, d), w, d);
  }

  lemma ServeNewClaimStep(s: State, w: WorkerId, now: S.Time)
    requires Inv(s) && DaemonOf(s, w).Up? && DaemonOf(s, w).phase.Claiming?
    requires var r := S.Claim(s.db, now, w).1; r.Ok? && r.value.Some? && w !in S.Held(s.db)
    ensures var (s1, r) := ServeClaim(s, w, now); Inv(WithDaemon(s1, w, DaemonOf(s, w).(net := Replied(r))))
  {
    DaemonOfOk(s, w);
    NewClaimFacts(s, w, now);
    var (db', r) := S.Claim(s.db, now, w);
    var job := r.value.value.id;
    QueuedJobIsClosed(s, job);
    NewBooks(s, db', w, job);
    NewClaimInv(s, db', w, job, DaemonOf(s, w).(net := Replied(Claimed(Some(Hold(job, |s.log|))))));
  }

  lemma ReportInv(s: State, db': S.Db, w: WorkerId, n: nat, report: E.Result, d: Daemon)
    requires Inv(s) && I.Consistent(db') && n < |s.log| && s.log[n].worker == w && BooksOk(WithReport(s, db', w, n, report))
    requires DaemonOk(WithReport(s, db', w, n, report), w, d)
    ensures Inv(WithDaemon(WithReport(s, db', w, n, report), w, d))
  {
    var s1 := WithReport(s, db', w, n, report);
    forall v | v != w ensures Frame(s, s1, v) { ReportFrames(s, db', w, n, report, v); }
    BooksIgnoreDaemons(s1, w, d);
    DaemonsAfter(s, WithDaemon(s1, w, d), w, d);
  }

  /** The phases that report: the assignment they are about, and the payload. */
  predicate Reports(p: Phase, h: Hold, report: E.Result) {
    (p == Recovering(h) && report == E.RECOVERY) || p == Reporting(h, report)
  }

  lemma ServeFinishStep(s: State, w: WorkerId, now: S.Time, h: Hold, report: E.Result)
    requires Inv(s) && DaemonOf(s, w).Up? && Reports(DaemonOf(s, w).phase, h, report)
    ensures var (s1, r) := ServeFinish(s, w, now, h.job, report); Inv(WithDaemon(s1, w, DaemonOf(s, w).(net := Replied(r))))
  {
    DaemonOfOk(s, w);
    FinishFacts(s, w, now, h, report);
    var db' := FinishRequest(s.db, now, h.job, w, report).0;
    var (s1, r) := ServeFinish(s, w, now, h.job, report);
    var d := DaemonOf(s, w).(net := Replied(r));
    if w in s.number {
      ReportBooks(s, db', w, now, h, report);
      ReportInv(s, db', w, h.n, report, d);
    } else {
      DaemonStepOk(s, w, d);
    }
  }

  lemma ServeOk(s: State, w: WorkerId, now: S.Time, text: string)
    requires Inv(s) && DaemonOf(s, w).Up? && DaemonOf(s, w).net.Sent?
    ensures var (s1, r) := ServePhase(s, w, DaemonOf(s, w).phase, now, text);
            Inv(WithDaemon(s1, w, DaemonOf(s, w).(net := Replied(r))))
  {
    DaemonOfOk(s, w);
    match DaemonOf(s, w).phase
    case Registering => ServeRegisterStep(s, w, now, text);
    case Recovering(h) => ServeFinishStep(s, w, now, h, E.RECOVERY);
    case Claiming =>
      var r := S.Claim(s.db, now, w).1;
      if r.Err? || r.value.None? || w in S.Held(s.db) {
        ServeOldClaimStep(s, w, now);
      } else {
        ServeNewClaimStep(s, w, now);
      }
    case Preparing(h) => ServeOutputStep(s, w, h, text);
    case Reporting(h, r) => ServeFinishStep(s, w, now, h, r);
    case Idle =>
    case Ready(_) =>
    case Executing(_) =>
  }

  /** A step of the daemon alone: the controller is untouched. */
  lemma DaemonStepOk(s: State, w: WorkerId, d: Daemon)
    requires Inv(s) && DaemonOk(s, w, d)
    ensures Inv(WithDaemon(s, w, d))
  {
    BooksIgnoreDaemons(s, w, d);
    DaemonsAfter(s, WithDaemon(s, w, d), w, d);
  }

  lemma NoteBooks(s: State, n: nat, a: Assignment)
    requires BooksOk(s) && n < |s.log| && RecordOk(a)
    requires a.job == s.log[n].job && a.worker == s.log[n].worker && a.fate == s.log[n].fate
    ensures BooksOk(LogAt(s, n, a))
  {
    var s1 := LogAt(s, n, a);
    forall j | j in s1.db.jobs && s1.db.jobs[j].status != S.Queued
      ensures j in s1.latest && s1.latest[j] < |s1.log| && RowMatches(s1.db.jobs[j], s1.log[s1.latest[j]])
    {
      assert RowMatches(s.db.jobs[j], s.log[s.latest[j]]);
    }
  }

  /** A step that also notes something about the daemon's own assignment in the log. */
  lemma NoteOk(s: State, w: WorkerId, n: nat, a: Assignment, d: Daemon)
    requires Inv(s) && n < |s.log| && s.log[n].worker == w && RecordOk(a)
    requires a.job == s.log[n].job && a.worker == w && a.fate == s.log[n].fate
    requires DaemonOk(LogAt(s, n, a), w, d)
    ensures Inv(WithDaemon(LogAt(s, n, a), w, d))
  {
    NoteBooks(s, n, a);
    BooksIgnoreDaemons(LogAt(s, n, a), w, d);
    NoteDaemons(s, w, n, a, d);
  }

  lemma NoteDaemons(s: State, w: WorkerId, n: nat, a: Assignment, d: Daemon)
    requires DaemonsOk(s) && Numbered(s) && n < |s.log| && s.log[n].worker == w && DaemonOk(LogAt(s, n, a), w, d)
    ensures DaemonsOk(WithDaemon(LogAt(s, n, a), w, d))
  {
    var s1 := LogAt(s, n, a);
    forall v | v != w ensures Frame(s, s1, v) { NoteFrames(s, n, a, v); }
    DaemonsAfter(s, WithDaemon(s1, w, d), w, d);
  }

  lemma NoteFrames(s: State, n: nat, a: Assignment, v: WorkerId)
    requires n < |s.log| && s.log[n].worker != v
    ensures Frame(s, LogAt(s, n, a), v)
  {
  }

  lemma ReceivedOk(s: State, w: WorkerId, d: Daemon)
    requires DaemonOk(s, w, d) && d.Up? && d.net.Replied?
    ensures DaemonOk(s, w, Received(d))
  {
  }

  lemma GivenUpOk(s: State, w: WorkerId, d: Daemon)
    requires DaemonOk(s, w, d) && d.Up? && d.disabled && HasRequest(d.phase)
    ensures DaemonOk(s, w, GivenUp(d))
  {
  }

  lemma RefuseOk(s: State, w: WorkerId, r: E.Result)
    requires Inv(s) && Enabled(s, Refuse(w, r))
    ensures Inv(Do(s, Refuse(w, r)))
  {
    DaemonOfOk(s, w);
    var d := DaemonOf(s, w);
    var h := HoldOf(d);
    assert RecordOk(s.log[h.n]);
    NoteOk(s, w, h.n, s.log[h.n].(result := Some(r)), d.(phase := Reporting(h, r), net := Silent));
  }

  lemma LaunchOk(s: State, w: WorkerId)
    requires Inv(s) && Enabled(s, Launch(w))
    ensures Inv(Do(s, Launch(w)))
  {
    DaemonOfOk(s, w);
    var d := DaemonOf(s, w);
    var h := HoldOf(d);
    assert RecordOk(s.log[h.n]);
    NoteOk(s, w, h.n, s.log[h.n].(launches := s.log[h.n].launches + 1), d.(phase := Executing(h)));
  }

  lemma EndCommandOk(s: State, w: WorkerId, ending: E.Ending)
    requires Inv(s) && Enabled(s, EndCommand(w, ending))
    ensures Inv(Do(s, EndCommand(w, ending)))
  {
    DaemonOfOk(s, w);
    var d, r := DaemonOf(s, w), E.ResultOf(ending);
    var h := HoldOf(d);
    assert RecordOk(s.log[h.n]);
    NoteOk(s, w, h.n, s.log[h.n].(ending := Some(ending), result := Some(r)), d.(phase := Reporting(h, r)));
  }

  lemma SettleInv(s: State, db': S.Db)
    requires Inv(s) && OnlyExpires(s.db, db') && I.Consistent(db')
    ensures Inv(Settle(s, db'))
  {
    var s' := Settle(s, db');
    SettleBooks(s, db');
    forall v | v in s'.daemons ensures DaemonOk(s', v, s'.daemons[v]) {
      SettleFrames(s, db', v);
      FrameKeepsDaemon(s, s', v, s.daemons[v]);
    }
  }

  lemma AdminOk(s: State, now: S.Time, op: S.Op)
    requires Inv(s) && IsAdmin(op)
    ensures Inv(Settle(s, S.Apply(s.db, now, op)))
  {
    AdminOnlyExpires(s.db, now, op);
    I.ApplyConsistent(s.db, now, op);
    SettleInv(s, S.Apply(s.db, now, op));
  }

  lemma BeatOk(s: State, now: S.Time, w: WorkerId, expiry: Option<string>)
    requires Inv(s)
    ensures Inv(s.(db := S.Heartbeat(s.db, now, w, expiry).0))
  {
    HeartbeatQuiet(s.db, now, w, expiry);
    SettleNothing(s, S.Heartbeat(s.db, now, w, expiry).0);
    SettleInv(s, S.Heartbeat(s.db, now, w, expiry).0);
  }

  /** The daemon's state after a step of its own that notes nothing in the log. */
  lemma OwnStepOk(s: State, step: Step)
    requires DaemonsOk(s) && Enabled(s, step)
    requires step.Boot? || step.Crash? || step.Disable? || step.Send? || step.Lose? || step.Deliver? || step.GiveUp? || step.BeginClaim?
    ensures Do(s, step) == WithDaemon(s, step.w, DaemonOf(Do(s, step), step.w))
    ensures DaemonOk(s, step.w, DaemonOf(Do(s, step), step.w))
  {
    DaemonOfOk(s, step.w);
    match step
    case Deliver(w) => ReceivedOk(s, w, DaemonOf(s, w));
    case GiveUp(w) => GivenUpOk(s, w, DaemonOf(s, w));
    case Boot(_) =>
    case Crash(_) =>
    case Disable(_) =>
    case Send(_) =>
    case Lose(_) =>
    case BeginClaim(_) =>
  }

  lemma StepOk(s: State, step: Step)
    requires Inv(s) && Enabled(s, step)
    ensures Inv(Do(s, step))
  {
    match step
    case Admin(now, op) => AdminOk(s, now, op);
    case Beat(now, w, expiry) => BeatOk(s, now, w, expiry);
    case Serve(w, now, text) => ServeOk(s, w, now, text);
    case Refuse(w, r) => RefuseOk(s, w, r);
    case Launch(w) => LaunchOk(s, w);
    case EndCommand(w, ending) => EndCommandOk(s, w, ending);
    case _ =>
      OwnStepOk(s, step);
      DaemonStepOk(s, step.w, DaemonOf(Do(s, step), step.w));
  }

  lemma {:induction false} RunOk(s: State, run: seq<Step>)
    requires Inv(s) && Possible(s, run)
    ensures Inv(After(s, run))
    decreases |run|
  {
    if run != [] {
      StepOk(s, run[0]);
      RunOk(Do(s, run[0]), run[1..]);
    }
  }

  lemma InitialOk()
    ensures Inv(INITIAL)
  {
    assert S.Held(S.EMPTY).Keys == {};
  }

  lemma ReachableOk(run: seq<Step>)
    requires Possible(INITIAL, run)
    ensures Inv(After(INITIAL, run))
  {
    InitialOk();
    RunOk(INITIAL, run);
  }

  // ---------- What holds in every run ----------

  /** The command of each assignment is launched at most once. */
  lemma LaunchedAtMostOnce(run: seq<Step>, n: nat)
    requires Possible(INITIAL, run) && n < |After(INITIAL, run).log|
    ensures After(INITIAL, run).log[n].launches <= 1
  {
    ReachableOk(run);
  }

  /** A daemon runs only assignments made after it started: whatever it finds at its restart it never runs. */
  lemma RestartNeverReruns(run: seq<Step>, w: WorkerId)
    requires Possible(INITIAL, run)
    requires var d := DaemonOf(After(INITIAL, run), w); d.Up? && (d.phase.Ready? || d.phase.Executing?)
    ensures var d := DaemonOf(After(INITIAL, run), w); d.since <= HoldOf(d).n
  {
    ReachableOk(run);
    DaemonOfOk(After(INITIAL, run), w);
  }

  ghost predicate Runs(s: State, w: WorkerId, h: Hold) {
    DaemonOf(s, w).Up? && DaemonOf(s, w).phase == Executing(h)
  }

  /**
   While a daemon executes a remote job, the controller shows that job running and assigned to
   that daemon, unless the assignment was expired.
   */
  lemma ExecutingJobIsAssigned(run: seq<Step>, w: WorkerId, h: Hold)
    requires Possible(INITIAL, run) && Runs(After(INITIAL, run), w, h)
    ensures var s := After(INITIAL, run);
            && h.n < |s.log|
            && (s.log[h.n].fate.Expired? ||
                (&& h.job in s.db.jobs && s.db.jobs[h.job].status == S.Running && s.db.jobs[h.job].workerId == Some(w)
                 && w in s.db.workers && s.db.workers[w].currentJob == Some(h.job)))
  {
    ReachableOk(run);
    var s := After(INITIAL, run);
    DaemonOfOk(s, w);
    if s.log[h.n].fate.Open? {
      assert w in s.number.Keys;
      HeldIsRunning(s.db, w);
    }
  }

  /** Two daemons execute the same job at once only if the earlier assignment was expired first. */
  lemma NoTwoExecuteWithoutExpiry(run: seq<Step>, v: WorkerId, w: WorkerId, g: Hold, h: Hold)
    requires Possible(INITIAL, run) && v != w && g.job == h.job
    requires Runs(After(INITIAL, run), v, g) && Runs(After(INITIAL, run), w, h)
    ensures var s := After(INITIAL, run);
            && g.n != h.n && g.n < |s.log| && h.n < |s.log|
            && s.log[if g.n < h.n then g.n else h.n].fate.Expired?
  {
    ReachableOk(run);
    var s := After(INITIAL, run);
    DaemonOfOk(s, v);
    DaemonOfOk(s, w);
  }

  /**
   A job recorded as succeeded was run once, by the worker the record names, to exit code 0 without
   an error; that is its newest assignment. A job recorded as failed was expired, or failed by the
   result of that worker's execution, or by that worker's restart.
   */
  lemma RecordsTellTheOutcome(run: seq<Step>, j: JobId)
    requires Possible(INITIAL, run)
    ensures var s := After(INITIAL, run);
            j in s.db.jobs && (s.db.jobs[j].status == S.Succeeded || s.db.jobs[j].status == S.Failed) ==>
              var job := s.db.jobs[j];
              j in s.latest && s.latest[j] < |s.log| &&
              var a := s.log[s.latest[j]];
              && a.job == j && job.workerId == Some(a.worker)
              && (job.status == S.Succeeded ==> a.launches == 1 && a.ending == Some(E.Exited(0, None)))
              && (job.status == S.Failed ==>
                    || (a.fate.Expired? && job.error == Some(S.DISCONNECTED_ERROR))
                    || (a.fate == Reported(E.RECOVERY) && job.error == Some(E.RESTARTED) && job.exitCode.None?)
                    || (a.result.Some? && !E.ReportsSuccess(a.result.value) &&
                        job.error == Some(a.result.value.error) && job.exitCode == a.result.value.exitCode &&
                        (a.launches == 0 ==> job.exitCode.None?) &&
                        (a.ending.Some? ==> E.CodeOf(a.ending.value, job.exitCode))))
  {
    ReachableOk(run);
    var s := After(INITIAL, run);
    if j in s.db.jobs && s.db.jobs[j].status == S.Succeeded {
      var a := s.log[s.latest[j]];
      assert RowMatches(s.db.jobs[j], a) && RecordOk(a);
      if a.ending.Some? { E.OnlyCleanExitSucceeds(a.ending.value); }
    } else if j in s.db.jobs && s.db.jobs[j].status == S.Failed {
      var a := s.log[s.latest[j]];
      assert RowMatches(s.db.jobs[j], a) && RecordOk(a);
      if a.ending.Some? { E.ResultTellsEnding(a.ending.value); }
    }
  }
}
