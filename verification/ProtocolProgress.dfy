/**
 What the protocol achieves when messages get through: from any reachable state a claim hands
 out the head of the queue, a claim repeated after a lost reply hands out the same assignment,
 and a job claimed is launched, run and recorded with its own outcome.
 */
module ProtocolProgress {
  import opened Wrappers
  import S = SchedulerModel
  import I = SchedulerInvariant
  import F = SchedulerEffects
  import E = Execution
  import opened ProtocolModel
  import opened ProtocolProofs

  // ---------- One attempt ----------

  function RoundTrip(w: WorkerId, now: S.Time, text: string): seq<Step> {
    [Send(w), Serve(w, now, text), Deliver(w)]
  }

  function LostReply(w: WorkerId, now: S.Time, text: string): seq<Step> {
    [Send(w), Serve(w, now, text), Lose(w)]
  }

  lemma ServeIgnoresDaemons(s: State, w: WorkerId, d: Daemon, phase: Phase, now: S.Time, text: string)
    ensures ServePhase(WithDaemon(s, w, d), w, phase, now, text).1 == ServePhase(s, w, phase, now, text).1
    ensures ServePhase(WithDaemon(s, w, d), w, phase, now, text).0 == WithDaemon(ServePhase(s, w, phase, now, text).0, w, d)
  {
  }

  lemma ThreeSteps(s: State, a: Step, b: Step, c: Step)
    requires Enabled(s, a) && Enabled(Do(s, a), b) && Enabled(Do(Do(s, a), b), c)
    ensures Possible(s, [a, b, c]) && After(s, [a, b, c]) == Do(Do(Do(s, a), b), c)
  {
    assert [a, b, c][1..] == [b, c] && [b, c][1..] == [c] && [c][1..] == [];
    var s1 := Do(s, a);
    var s2 := Do(s1, b);
    assert Possible(Do(s2, c), []);
    assert Possible(s2, [c]) && After(s2, [c]) == Do(s2, c);
    assert Possible(s1, [b, c]) && After(s1, [b, c]) == After(s2, [c]);
  }

  /** The state after an attempt that is served, for the daemon then made of the served reply. */
  lemma ServedState(s: State, w: WorkerId, now: S.Time, text: string)
    requires Enabled(s, Send(w))
    ensures Enabled(Do(s, Send(w)), Serve(w, now, text))
    ensures var d := DaemonOf(s, w); var (s1, r) := ServePhase(s, w, d.phase, now, text);
            Do(Do(s, Send(w)), Serve(w, now, text)) == WithDaemon(s1, w, d.(net := Replied(r)))
  {
    var d := DaemonOf(s, w);
    ServeIgnoresDaemons(s, w, d.(net := Sent), d.phase, now, text);
  }

  lemma RoundTripIs(s: State, w: WorkerId, now: S.Time, text: string)
    requires Enabled(s, Send(w))
    ensures Possible(s, RoundTrip(w, now, text))
    ensures var d := DaemonOf(s, w); var (s1, r) := ServePhase(s, w, d.phase, now, text);
            After(s, RoundTrip(w, now, text)) == WithDaemon(s1, w, Received(d.(net := Replied(r))))
  {
    ServedState(s, w, now, text);
    ThreeSteps(s, Send(w), Serve(w, now, text), Deliver(w));
  }

  lemma LostReplyIs(s: State, w: WorkerId, now: S.Time, text: string)
    requires Enabled(s, Send(w))
    ensures Possible(s, LostReply(w, now, text))
    ensures After(s, LostReply(w, now, text)) == WithDaemon(ServePhase(s, w, DaemonOf(s, w).phase, now, text).0, w, DaemonOf(s, w))
  {
    ServedState(s, w, now, text);
    ThreeSteps(s, Send(w), Serve(w, now, text), Lose(w));
  }

  // ---------- Claiming ----------

  /** The daemon may send, in this phase. */
  predicate At(s: State, w: WorkerId, phase: Phase) {
    DaemonOf(s, w).Up? && DaemonOf(s, w).phase == phase && DaemonOf(s, w).net.Silent? && !DaemonOf(s, w).disabled
  }

  predicate MayGet(s: State, w: WorkerId) {
    w in s.db.workers && w !in S.Held(s.db) && !s.db.workers[w].paused && S.Queue(s.db) != []
  }

  lemma ClaimServed(s: State, w: WorkerId, now: S.Time)
    requires Inv(s) && MayGet(s, w)
    ensures var db' := S.Claim(s.db, now, w).0; var job := S.Queue(s.db)[0];
            ServeClaim(s, w, now) == (WithAssignment(s, db', w, job), Claimed(Some(Hold(job, |s.log|))))
  {
    F.ClaimWrites(s.db, now, w);
    I.HeldClaim(s.db, now, w);
    NewClaimFacts(s, w, now);
  }

  /** A claim that gets through assigns the head of the queue to the daemon, as a new assignment. */
  lemma ClaimGetsThrough(s: State, w: WorkerId, now: S.Time, text: string)
    requires Inv(s) && At(s, w, Claiming) && MayGet(s, w)
    ensures Possible(s, RoundTrip(w, now, text))
    ensures var s' := After(s, RoundTrip(w, now, text)); var job := S.Queue(s.db)[0];
            && Inv(s') && At(s', w, Preparing(Hold(job, |s.log|)))
            && s'.log == s.log + [Assignment(job, w, 0, None, None, Open)]
            && w in s'.number && s'.number[w] == |s.log|
            && s'.db == S.Claim(s.db, now, w).0
            && job in s.db.jobs && job in s'.db.jobs && s'.db.jobs[job].command == s.db.jobs[job].command
  {
    ClaimServed(s, w, now);
    F.ClaimWrites(s.db, now, w);
    I.HeldClaim(s.db, now, w);
    RoundTripIs(s, w, now, text);
    RunOk(s, RoundTrip(w, now, text));
  }

  /** A claim of a daemon that holds an assignment, as when a reply was lost, hands out that assignment again. */
  lemma RepeatedClaimSame(s: State, w: WorkerId, now: S.Time, text: string)
    requires Inv(s) && At(s, w, Claiming) && w in s.number
    ensures Possible(s, RoundTrip(w, now, text))
    ensures var s' := After(s, RoundTrip(w, now, text));
            Inv(s') && At(s', w, Preparing(Hold(s.log[s.number[w]].job, s.number[w]))) && s'.log == s.log && s'.number == s.number
  {
    RoundTripIs(s, w, now, text);
    RunOk(s, RoundTrip(w, now, text));
    NumberIffHeld(s, w);
    F.ClaimWrites(s.db, now, w);
    I.HeldClaim(s.db, now, w);
    OldClaimReply(s, w, now);
  }

  /** However often the reply to a claim is lost, the daemon gets the one assignment the first claim made. */
  lemma LostClaimRepeats(s: State, w: WorkerId, now: S.Time, later: S.Time, text: string)
    requires Inv(s) && At(s, w, Claiming) && MayGet(s, w)
    ensures var job := S.Queue(s.db)[0];
            && Possible(s, LostReply(w, now, text))
            && var s1 := After(s, LostReply(w, now, text));
            && At(s1, w, Claiming) && Possible(s1, RoundTrip(w, later, text))
            && var s2 := After(s1, RoundTrip(w, later, text));
            && At(s2, w, Preparing(Hold(job, |s.log|)))
            && s2.log == s.log + [Assignment(job, w, 0, None, None, Open)]
  {
    ClaimServed(s, w, now);
    LostReplyIs(s, w, now, text);
    RunOk(s, LostReply(w, now, text));
    RepeatedClaimSame(After(s, LostReply(w, now, text)), w, later, text);
  }

  // ---------- Running and reporting ----------

  /** The assignment is the daemon's current one. */
  predicate Current(s: State, w: WorkerId, h: Hold) {
    w in s.number && s.number[w] == h.n && h.n < |s.log| && s.log[h.n].job == h.job
  }

  /** An output path that gets through makes the job ready for launching. */
  lemma OutputGetsThrough(s: State, w: WorkerId, h: Hold, now: S.Time, text: string)
    requires Inv(s) && At(s, w, Preparing(h)) && Current(s, w, h)
    ensures Possible(s, RoundTrip(w, now, text))
    ensures var s' := After(s, RoundTrip(w, now, text));
            && Inv(s') && At(s', w, Ready(h)) && Current(s', w, h) && s'.log == s.log
            && s'.db == S.Output(s.db, h.job, w, text).0 && h.job in s'.db.jobs
            && s'.db.jobs[h.job].outputPath == Some(text)
            && h.job in s.db.jobs && s'.db.jobs[h.job].command == s.db.jobs[h.job].command
  {
    NumberIffHeld(s, w);
    F.OutputOnlyFromHolder(s.db, h.job, w, text);
    RoundTripIs(s, w, now, text);
    RunOk(s, RoundTrip(w, now, text));
  }

  lemma LaunchState(s: State, w: WorkerId, h: Hold)
    requires At(s, w, Ready(h)) && Current(s, w, h) && s.log[h.n].launches == 0
    ensures Enabled(s, Launch(w))
    ensures var s' := Do(s, Launch(w));
            && At(s', w, Executing(h)) && Current(s', w, h) && s'.db == s.db
            && s'.log == s.log[h.n := s.log[h.n].(launches := 1)]
  {
  }

  lemma NotYetLaunched(s: State, w: WorkerId, h: Hold)
    requires Inv(s) && At(s, w, Ready(h)) && h.n < |s.log|
    ensures s.log[h.n].launches == 0
  {
    DaemonOfOk(s, w);
  }

  lemma LaunchRuns(s: State, w: WorkerId, h: Hold)
    requires Inv(s) && At(s, w, Ready(h)) && Current(s, w, h)
    ensures Enabled(s, Launch(w))
    ensures var s' := Do(s, Launch(w));
            && Inv(s') && At(s', w, Executing(h)) && Current(s', w, h) && s'.db == s.db
            && s'.log == s.log[h.n := s.log[h.n].(launches := 1)]
  {
    NotYetLaunched(s, w, h);
    LaunchState(s, w, h);
    StepOk(s, Launch(w));
  }

  lemma EndReports(s: State, w: WorkerId, h: Hold, ending: E.Ending)
    requires Inv(s) && At(s, w, Executing(h)) && Current(s, w, h) && E.Possible(ending)
    ensures Enabled(s, EndCommand(w, ending))
    ensures var s' := Do(s, EndCommand(w, ending));
            && Inv(s') && At(s', w, Reporting(h, E.ResultOf(ending))) && Current(s', w, h) && s'.db == s.db
            && s'.log == s.log[h.n := s.log[h.n].(ending := Some(ending), result := Some(E.ResultOf(ending)))]
  {
    StepOk(s, EndCommand(w, ending));
  }

  /** A report that gets through is recorded and frees the daemon, which goes on unless the result says otherwise. */
  lemma ReportGetsThrough(s: State, w: WorkerId, h: Hold, r: E.Result, now: S.Time, text: string)
    requires Inv(s) && At(s, w, Reporting(h, r)) && Current(s, w, h)
    ensures Possible(s, RoundTrip(w, now, text))
    ensures var s' := After(s, RoundTrip(w, now, text)); var d := DaemonOf(s', w);
            && Inv(s') && d.Up? && d.phase.Idle? && (d.disabled <==> E.PausesRemote(r))
            && s'.log == s.log[h.n := s.log[h.n].(fate := Reported(r))] && w !in s'.number
            && h.job in s.db.jobs && h.job in s'.db.jobs && s'.db.jobs[h.job].exitCode == r.exitCode
            && s'.db.jobs[h.job].outputPath == s.db.jobs[h.job].outputPath
            && s'.db.jobs[h.job].command == s.db.jobs[h.job].command && s'.db.jobs[h.job].workerId == Some(w)
            && (s'.db.jobs[h.job].status == S.Succeeded <==> E.ReportsSuccess(r))
            && (s'.db.jobs[h.job].status == S.Failed <==> !E.ReportsSuccess(r))
  {
    NumberIffHeld(s, w);
    FinishFacts(s, w, now, h, r);
    RoundTripIs(s, w, now, text);
    RunOk(s, RoundTrip(w, now, text));
  }

  /** A report repeated after a lost reply is accepted and changes nothing further. */
  lemma LostReportRepeats(s: State, w: WorkerId, h: Hold, r: E.Result, now: S.Time, later: S.Time, text: string)
    requires Inv(s) && At(s, w, Reporting(h, r)) && Current(s, w, h) && r.error != S.DISCONNECTED_ERROR
    ensures && Possible(s, LostReply(w, now, text))
            && var s1 := After(s, LostReply(w, now, text));
            && At(s1, w, Reporting(h, r)) && h.n < |s1.log| && s1.log[h.n].fate == Reported(r) && Possible(s1, RoundTrip(w, later, text))
            && var s2 := After(s1, RoundTrip(w, later, text));
            && s2.db == s1.db && s2.log == s1.log && DaemonOf(s2, w).Up? && DaemonOf(s2, w).phase.Idle?
  {
    NumberIffHeld(s, w);
    FinishFacts(s, w, now, h, r);
    LostReplyIs(s, w, now, text);
    RunOk(s, LostReply(w, now, text));
    var s1 := After(s, LostReply(w, now, text));
    RepeatAccepted(s1, w, h, r, later, s.db.jobs[h.job]);
    RoundTripIs(s1, w, later, text);
  }

  lemma RepeatAccepted(s: State, w: WorkerId, h: Hold, r: E.Result, now: S.Time, was: S.Job)
    requires h.job in s.db.jobs && w !in s.number && was.workerId == Some(w) && r.error != S.DISCONNECTED_ERROR
    requires exists t :: s.db.jobs[h.job] == S.Ended(was, t, E.ReportsSuccess(r), r.exitCode, Some(r.error))
    ensures ServeFinish(s, w, now, h.job, r) == (s, Accepted)
  {
  }

  // ---------- A whole job ----------

  lemma {:induction false} RunsConcat(s: State, a: seq<Step>, b: seq<Step>)
    requires Possible(s, a) && Possible(After(s, a), b)
    ensures Possible(s, a + b) && After(s, a + b) == After(After(s, a), b)
    decreases |a|
  {
    if a == [] {
      assert a + b == b;
    } else {
      assert (a + b)[1..] == a[1..] + b;
      RunsConcat(Do(s, a[0]), a[1..], b);
    }
  }

  lemma OneStep(s: State, a: Step)
    requires Enabled(s, a)
    ensures Possible(s, [a]) && After(s, [a]) == Do(s, a)
  {
    assert [a][1..] == [];
  }

  /** What the record of a job says after it was claimed from s by w, run to this ending, and reported. */
  predicate Recorded(s: State, s': State, w: WorkerId, path: string, ending: E.Ending)
    requires S.Queue(s.db) != []
  {
    var job, n := S.Queue(s.db)[0], |s.log|;
    && job in s.db.jobs && job in s'.db.jobs && n < |s'.log|
    && s'.log[n].job == job && s'.log[n].worker == w && s'.log[n].launches == 1
    && var row := s'.db.jobs[job];
    && row.workerId == Some(w) && row.command == s.db.jobs[job].command && row.outputPath == Some(path)
    && row.exitCode == E.ResultOf(ending).exitCode
    && row.status == if ending == E.Exited(0, None) then S.Succeeded else S.Failed
  }

  lemma ClaimToReady(s: State, w: WorkerId, now: S.Time, path: string) returns (run: seq<Step>)
    requires Inv(s) && At(s, w, Idle) && MayGet(s, w)
    ensures Possible(s, run)
    ensures var s' := After(s, run); var h := Hold(S.Queue(s.db)[0], |s.log|);
            && Inv(s') && At(s', w, Ready(h)) && Current(s', w, h)
            && s'.log == s.log + [Assignment(h.job, w, 0, None, None, Open)]
            && h.job in s.db.jobs && h.job in s'.db.jobs && s'.db.jobs[h.job].command == s.db.jobs[h.job].command
            && s'.db.jobs[h.job].outputPath == Some(path)
  {
    var h := Hold(S.Queue(s.db)[0], |s.log|);
    OneStep(s, BeginClaim(w));
    RunOk(s, [BeginClaim(w)]);
    var s1 := After(s, [BeginClaim(w)]);
    ClaimGetsThrough(s1, w, now, path);
    var s2 := After(s1, RoundTrip(w, now, path));
    OutputGetsThrough(s2, w, h, now, path);
    RunsConcat(s1, RoundTrip(w, now, path), RoundTrip(w, now, path));
    RunsConcat(s, [BeginClaim(w)], RoundTrip(w, now, path) + RoundTrip(w, now, path));
    run := [BeginClaim(w)] + (RoundTrip(w, now, path) + RoundTrip(w, now, path));
  }

  lemma ReadyToRecord(s: State, w: WorkerId, h: Hold, now: S.Time, ending: E.Ending) returns (run: seq<Step>)
    requires Inv(s) && At(s, w, Ready(h)) && Current(s, w, h) && E.Possible(ending)
    ensures Possible(s, run)
    ensures var s' := After(s, run);
            && |s'.log| == |s.log| && s'.log[h.n].job == h.job && s'.log[h.n].worker == s.log[h.n].worker && s'.log[h.n].launches == 1
            && h.job in s.db.jobs && h.job in s'.db.jobs
            && var row := s'.db.jobs[h.job];
            && row.workerId == Some(w) && row.command == s.db.jobs[h.job].command && row.outputPath == s.db.jobs[h.job].outputPath
            && row.exitCode == E.ResultOf(ending).exitCode
            && row.status == if ending == E.Exited(0, None) then S.Succeeded else S.Failed
  {
    var r := E.ResultOf(ending);
    LaunchRuns(s, w, h);
    OneStep(s, Launch(w));
    var s1 := Do(s, Launch(w));
    EndReports(s1, w, h, ending);
    OneStep(s1, EndCommand(w, ending));
    var s2 := Do(s1, EndCommand(w, ending));
    ReportGetsThrough(s2, w, h, r, now, "");
    E.OnlyCleanExitSucceeds(ending);
    RunsConcat(s1, [EndCommand(w, ending)], RoundTrip(w, now, ""));
    RunsConcat(s, [Launch(w)], [EndCommand(w, ending)] + RoundTrip(w, now, ""));
    run := [Launch(w)] + ([EndCommand(w, ending)] + RoundTrip(w, now, ""));
  }

  /**
   From every reachable state in which a daemon is idle and may get work, there is a run in which it
   claims the head of the queue, launches its command once, and has its outcome recorded, for
   every way in which the command may end.
   */
  lemma JobGetsDone(s: State, w: WorkerId, now: S.Time, path: string, ending: E.Ending) returns (run: seq<Step>)
    requires Inv(s) && At(s, w, Idle) && MayGet(s, w) && E.Possible(ending)
    ensures Possible(s, run) && Recorded(s, After(s, run), w, path, ending)
  {
    var h := Hold(S.Queue(s.db)[0], |s.log|);
    var first := ClaimToReady(s, w, now, path);
    var second := ReadyToRecord(After(s, first), w, h, now, ending);
    RunsConcat(s, first, second);
    run := first + second;
  }

  // ---------- Remote work turned off ----------

  /** A job already claimed still runs after remote work was turned off. */
  lemma DisabledStillRuns(s: State, w: WorkerId, h: Hold)
    requires DaemonOf(s, w).Up? && DaemonOf(s, w).phase == Preparing(h) && DaemonOf(s, w).disabled
    ensures Enabled(s, GiveUp(w)) && Enabled(Do(s, GiveUp(w)), Launch(w))
    ensures var s' := Do(Do(s, GiveUp(w)), Launch(w)); DaemonOf(s', w).Up? && DaemonOf(s', w).phase == Executing(h)
  {
  }

  /** The daemon is down, or its remote work is off and it is not inside a claim. */
  predicate TakesNoMore(s: State, w: WorkerId) {
    DaemonOf(s, w).Up? ==> DaemonOf(s, w).disabled && !DaemonOf(s, w).phase.Claiming?
  }

  /** No assignment of w was added. */
  ghost predicate NoneAdded(s: State, s': State, w: WorkerId) {
    && |s.log| <= |s'.log|
    && (forall n :: 0 <= n < |s.log| ==> s'.log[n].worker == s.log[n].worker)
    && (forall n :: |s.log| <= n < |s'.log| ==> s'.log[n].worker != w)
  }

  lemma ServeAddsNone(s: State, v: WorkerId, phase: Phase, now: S.Time, text: string, w: WorkerId)
    requires v != w || !phase.Claiming?
    ensures NoneAdded(s, ServePhase(s, v, phase, now, text).0, w)
    ensures ServePhase(s, v, phase, now, text).0.daemons == s.daemons
  {
  }

  lemma OthersStep(s: State, step: Step, w: WorkerId)
    requires Enabled(s, step) && TakesNoMore(s, w) && step != Boot(w) && !step.Serve?
    ensures TakesNoMore(Do(s, step), w) && NoneAdded(s, Do(s, step), w)
  {
  }

  lemma TakesNoMoreStep(s: State, step: Step, w: WorkerId)
    requires Enabled(s, step) && TakesNoMore(s, w) && step != Boot(w)
    ensures TakesNoMore(Do(s, step), w) && NoneAdded(s, Do(s, step), w)
  {
    if step.Serve? {
      ServeAddsNone(s, step.w, DaemonOf(s, step.w).phase, step.now, step.text, w);
    } else {
      OthersStep(s, step, w);
    }
  }

  /** Until it is started again, a daemon whose remote work is off is given no assignment, in any run. */
  lemma {:induction false} DisabledGainsNothing(s: State, run: seq<Step>, w: WorkerId)
    requires Possible(s, run) && TakesNoMore(s, w) && forall i :: 0 <= i < |run| ==> run[i] != Boot(w)
    ensures TakesNoMore(After(s, run), w) && NoneAdded(s, After(s, run), w)
    decreases |run|
  {
    if run != [] {
      TakesNoMoreStep(s, run[0], w);
      DisabledGainsNothing(Do(s, run[0]), run[1..], w);
    }
  }
}
