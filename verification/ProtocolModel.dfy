/**
 The controller and its daemons as one state machine over lossy requests.

 Each daemon is the loop of worker/worker.go: register, recover an old assignment, then
 claim, run and report. A client operation is a run of attempts: an attempt is sent, may be
 executed by the controller at most once, and its request or its reply may be lost, after
 which the next attempt carries the same payload. Clocks, losses, crashes, shutdowns, the
 endings of commands and all administrative requests are free.

 Assignments are numbered in the order in which claims create them. The numbers and the log
 exist only to state what happens to each assignment; no decision looks at them.

 Assumed, as the source does: one live daemon per worker id (its file lock), a daemon's crash
 ends its job process, and no request is executed after its client has given up on it.
 */
module ProtocolModel {
  import opened Wrappers
  import S = SchedulerModel
  import E = Execution

  type WorkerId = S.WorkerId
  type JobId = S.JobId

  /** A job together with the number of the assignment it belongs to. */
  datatype Hold = Hold(job: JobId, n: nat)

  datatype Response =
    | Rejected
    | RegisteredAs(current: Option<Hold>)
    | Claimed(got: Option<Hold>)
    | Accepted

  /** The attempt in flight, if any. */
  datatype Net = Silent | Sent | Replied(response: Response)

  datatype Phase =
    | Registering
    | Recovering(hold: Hold)
    | Idle
    | Claiming
    | Preparing(hold: Hold)
    | Ready(hold: Hold)
    | Executing(hold: Hold)
    | Reporting(hold: Hold, result: E.Result)

  /** since is the number of assignments made before this daemon started. */
  datatype Daemon = Down | Up(phase: Phase, net: Net, disabled: bool, since: nat)

  /** What ended an assignment on the controller. */
  datatype Fate = Open | Expired | Reported(report: E.Result)

  datatype Assignment = Assignment(
    job: JobId,
    worker: WorkerId,
    launches: nat,
    ending: Option<E.Ending>,
    result: Option<E.Result>,
    fate: Fate)

  /** number gives each busy worker's current assignment, latest each job's newest one. */
  datatype State = State(
    db: S.Db,
    daemons: map<WorkerId, Daemon>,
    log: seq<Assignment>,
    number: map<WorkerId, nat>,
    latest: map<JobId, nat>)

  const INITIAL := State(S.EMPTY, map[], [], map[], map[])

  function DaemonOf(s: State, w: WorkerId): Daemon {
    if w in s.daemons then s.daemons[w] else Down
  }

  function WithDaemon(s: State, w: WorkerId, d: Daemon): State {
    s.(daemons := s.daemons[w := d])
  }

  // ---------- Steps ----------

  datatype Step =
    | Admin(now: S.Time, op: S.Op)
    | Beat(now: S.Time, w: WorkerId, tokenExpiry: Option<string>)
    | Boot(w: WorkerId)
    | Crash(w: WorkerId)
    | Disable(w: WorkerId)
    | Send(w: WorkerId)
    | Lose(w: WorkerId)
    | Serve(w: WorkerId, now: S.Time, text: string)
    | Deliver(w: WorkerId)
    | GiveUp(w: WorkerId)
    | BeginClaim(w: WorkerId)
    | Refuse(w: WorkerId, result: E.Result)
    | Launch(w: WorkerId)
    | EndCommand(w: WorkerId, ending: E.Ending)

  predicate IsAdmin(op: S.Op) {
    op.OpSubmit? || op.OpList? || op.OpClear? || op.OpRemoveAll? || op.OpRemove? || op.OpRetry? ||
    op.OpReorder? || op.OpCancel? || op.OpSetPaused?
  }

  /** Phases in which the daemon is inside a controller operation. */
  predicate HasRequest(p: Phase) {
    p.Registering? || p.Recovering? || p.Claiming? || p.Preparing? || p.Reporting?
  }

  predicate Enabled(s: State, step: Step) {
    match step
    case Admin(_, op) => IsAdmin(op)
    case Beat(_, w, _) => DaemonOf(s, w).Up?
    case Boot(w) => DaemonOf(s, w).Down?
    case Crash(w) => DaemonOf(s, w).Up?
    case Disable(w) => DaemonOf(s, w).Up?
    case Send(w) =>
      var d := DaemonOf(s, w);
      d.Up? && HasRequest(d.phase) && d.net.Silent? && !d.disabled
    case Lose(w) => DaemonOf(s, w).Up? && !DaemonOf(s, w).net.Silent?
    case Serve(w, _, _) => DaemonOf(s, w).Up? && DaemonOf(s, w).net.Sent?
    case Deliver(w) => DaemonOf(s, w).Up? && DaemonOf(s, w).net.Replied?
    case GiveUp(w) => DaemonOf(s, w).Up? && DaemonOf(s, w).disabled && HasRequest(DaemonOf(s, w).phase)
    case BeginClaim(w) => DaemonOf(s, w).Up? && DaemonOf(s, w).phase.Idle? && !DaemonOf(s, w).disabled
    case Refuse(w, r) =>
      DaemonOf(s, w).Up? && (DaemonOf(s, w).phase.Preparing? || DaemonOf(s, w).phase.Ready?) && E.NotLaunched(r)
    case Launch(w) => DaemonOf(s, w).Up? && DaemonOf(s, w).phase.Ready?
    case EndCommand(w, ending) => DaemonOf(s, w).Up? && DaemonOf(s, w).phase.Executing? && E.Possible(ending)
  }

  // ---------- The controller's side ----------

  predicate LostIn(a: Assignment, db': S.Db) {
    a.fate.Open? && a.worker !in S.Held(db')
  }

  /** The log after an operation that can only end assignments, by expiry. */
  function ExpireLog(log: seq<Assignment>, db': S.Db): seq<Assignment> {
    seq(|log|, i requires 0 <= i < |log| => if LostIn(log[i], db') then log[i].(fate := Expired) else log[i])
  }

  function Settle(s: State, db': S.Db): State {
    s.(db := db', log := ExpireLog(s.log, db'),
       number := map w | w in s.number && w in S.Held(db') :: s.number[w])
  }

  /** The worker's current job with its assignment number. */
  function CurrentHold(s: State, w: WorkerId, job: JobId): Hold {
    Hold(job, if w in s.number then s.number[w] else 0)
  }

  function ServeRegister(s: State, w: WorkerId, now: S.Time, hostname: string): (State, Response) {
    var (db', row) := S.Register(s.db, now, w, hostname);
    (s.(db := db'),
     RegisteredAs(if row.currentJob.Some? then Some(CurrentHold(s, w, row.currentJob.value)) else None))
  }

  function ServeClaim(s: State, w: WorkerId, now: S.Time): (State, Response) {
    var (db', r) := S.Claim(s.db, now, w);
    if r.Err? then (s, Rejected)
    else if r.value.None? then (s.(db := db'), Claimed(None))
    else if w in S.Held(s.db) then (s.(db := db'), Claimed(Some(CurrentHold(s, w, r.value.value.id))))
    else
      var job, n := r.value.value.id, |s.log|;
      (s.(db := db', log := s.log + [Assignment(job, w, 0, None, None, Open)],
          number := s.number[w := n], latest := s.latest[job := n]),
       Claimed(Some(Hold(job, n))))
  }

  function ServeOutput(s: State, w: WorkerId, job: JobId, path: string): (State, Response) {
    var (db', r) := S.Output(s.db, job, w, path);
    (s.(db := db'), if r.Ok? then Accepted else Rejected)
  }

  function FinishRequest(db: S.Db, now: S.Time, job: JobId, w: WorkerId, r: E.Result): (S.Db, Result<S.Job, S.Error>) {
    S.Finish(db, now, job, w, E.ReportsSuccess(r), r.exitCode, Some(r.error))
  }

  function ServeFinish(s: State, w: WorkerId, now: S.Time, job: JobId, report: E.Result): (State, Response) {
    var (db', r) := FinishRequest(s.db, now, job, w, report);
    var response := if r.Ok? then Accepted else Rejected;
    if w in s.number && w !in S.Held(db') && s.number[w] < |s.log| then
      var n := s.number[w];
      (s.(db := db', log := s.log[n := s.log[n].(fate := Reported(report))], number := s.number - {w}), response)
    else (s.(db := db'), response)
  }

  /** What the controller does with the request of a phase. */
  function ServePhase(s: State, w: WorkerId, phase: Phase, now: S.Time, text: string): (State, Response) {
    match phase
    case Registering => ServeRegister(s, w, now, text)
    case Claiming => ServeClaim(s, w, now)
    case Preparing(h) => ServeOutput(s, w, h.job, text)
    case Recovering(h) => ServeFinish(s, w, now, h.job, E.RECOVERY)
    case Reporting(h, r) => ServeFinish(s, w, now, h.job, r)
    case _ => (s, Rejected)
  }

  // ---------- The daemon's side ----------

  /** The daemon after it receives a reply. A rejection ends it, except while reporting the output path. */
  function Received(d: Daemon): Daemon
    requires d.Up? && d.net.Replied?
  {
    match d.phase
    case Registering =>
      if d.net.response.RegisteredAs? then
        match d.net.response.current
        case None => d.(phase := Idle, net := Silent)
        case Some(h) => d.(phase := Recovering(h), net := Silent)
      else Down
    case Recovering(_) =>
      if d.net.response.Accepted? then d.(phase := Idle, net := Silent) else Down
    case Claiming =>
      if d.net.response.Claimed? then
        match d.net.response.got
        case None => d.(phase := Idle, net := Silent)
        case Some(h) => d.(phase := Preparing(h), net := Silent)
      else Down
    case Preparing(h) =>
      // A rejected output path makes the job fail without being launched; Refuse does that.
      if d.net.response.Accepted? then d.(phase := Ready(h), net := Silent) else d.(net := Silent)
    case Reporting(_, r) =>
      if d.net.response.Accepted? then d.(phase := Idle, net := Silent, disabled := d.disabled || E.PausesRemote(r))
      else Down
    case _ => d.(net := Silent)
  }

  /** Remote work is disabled during an operation: a claimed job still runs, everything else goes back to the loop. */
  function GivenUp(d: Daemon): Daemon
    requires d.Up?
  {
    if d.phase.Preparing? then d.(phase := Ready(d.phase.hold), net := Silent)
    else d.(phase := Idle, net := Silent)
  }

  function HoldOf(d: Daemon): Hold
    requires d.Up? && (d.phase.Preparing? || d.phase.Ready? || d.phase.Executing?)
  {
    d.phase.hold
  }

  function LogAt(s: State, n: nat, a: Assignment): State {
    if n < |s.log| then s.(log := s.log[n := a]) else s
  }

  function Do(s: State, step: Step): State
    requires Enabled(s, step)
  {
    match step
    case Admin(now, op) => Settle(s, S.Apply(s.db, now, op))
    case Beat(now, w, expiry) => s.(db := S.Heartbeat(s.db, now, w, expiry).0)
    case Boot(w) => WithDaemon(s, w, Up(Registering, Silent, false, |s.log|))
    case Crash(w) => WithDaemon(s, w, Down)
    case Disable(w) => WithDaemon(s, w, DaemonOf(s, w).(disabled := true))
    case Send(w) => WithDaemon(s, w, DaemonOf(s, w).(net := Sent))
    case Lose(w) => WithDaemon(s, w, DaemonOf(s, w).(net := Silent))
    case Serve(w, now, text) =>
      var d := DaemonOf(s, w);
      var (s', response) := ServePhase(s, w, d.phase, now, text);
      WithDaemon(s', w, d.(net := Replied(response)))
    case Deliver(w) => WithDaemon(s, w, Received(DaemonOf(s, w)))
    case GiveUp(w) => WithDaemon(s, w, GivenUp(DaemonOf(s, w)))
    case BeginClaim(w) => WithDaemon(s, w, DaemonOf(s, w).(phase := Claiming))
    case Refuse(w, r) =>
      var d := DaemonOf(s, w);
      var h := HoldOf(d);
      var s' := if h.n < |s.log| then LogAt(s, h.n, s.log[h.n].(result := Some(r))) else s;
      WithDaemon(s', w, d.(phase := Reporting(h, r), net := Silent))
    case Launch(w) =>
      var d := DaemonOf(s, w);
      var h := HoldOf(d);
      var s' := if h.n < |s.log| then LogAt(s, h.n, s.log[h.n].(launches := s.log[h.n].launches + 1)) else s;
      WithDaemon(s', w, d.(phase := Executing(h)))
    case EndCommand(w, ending) =>
      var d := DaemonOf(s, w);
      var h := HoldOf(d);
      var r := E.ResultOf(ending);
      var s' := if h.n < |s.log| then LogAt(s, h.n, s.log[h.n].(ending := Some(ending), result := Some(r))) else s;
      WithDaemon(s', w, d.(phase := Reporting(h, r)))
  }

  /** Every step of the run is possible when its turn comes. */
  predicate Possible(s: State, run: seq<Step>)
    decreases |run|
  {
    run == [] || (Enabled(s, run[0]) && Possible(Do(s, run[0]), run[1..]))
  }

  function After(s: State, run: seq<Step>): State
    requires Possible(s, run)
    decreases |run|
  {
    if run == [] then s else After(Do(s, run[0]), run[1..])
  }
}
