/**
 The controller's queued order as a plain list.

 Which list operation each scheduler operation amounts to, in all runs or with the
 exact condition under which it does; and runs without retry, where the table
 behaves as a plain list throughout.
 */
module SchedulerQueue {
  import opened Wrappers
  import opened QueueOrder
  import opened SchedulerModel
  import opened SchedulerInvariant

  predicate IsQueued(db: Db, id: JobId) {
    id in db.jobs && db.jobs[id].status == Queued
  }

  /** The list operation that an operation stands for, in the state it meets. */
  function Effect(db: Db, now: Time, op: Op): ListOp {
    match op
    case OpSubmit(_) => Push(db.lastSequence + 1)
    case OpRemoveAll => DropAll
    case OpRemove(id) => if IsQueued(db, id) then Drop(id) else Keep
    case OpRetry(which) => PushAll(RetryTargets(db, which))
    case OpReorder(id, other) =>
      if !IsQueued(db, id) then Keep
      else if other.None? then Front(id)
      else if IsQueued(db, other.value) then Swap(id, other.value)
      else Keep
    case OpClaim(w) =>
      if w in db.workers && w !in Held(db) && !db.workers[w].paused then Pop else Keep
    case _ => Keep
  }

  // ---------- One operation ----------

  lemma SamePending(jobs: map<JobId, Job>, jobs': map<JobId, Job>)
    requires forall id :: id in jobs && jobs[id].status == Queued ==>
               id in jobs' && jobs'[id].status == Queued && jobs'[id].position == jobs[id].position
    requires forall id :: id in jobs' && jobs'[id].status == Queued ==> id in jobs && jobs[id].status == Queued
    ensures Pending(jobs) == Pending(jobs')
  {
    forall id ensures id in Pending(jobs) <==> id in Pending(jobs') {
      if id in jobs && jobs[id].status == Queued { assert id in jobs'; }
      if id in jobs' && jobs'[id].status == Queued { assert id in jobs; }
    }
    forall id | id in Pending(jobs) ensures Pending(jobs)[id] == Pending(jobs')[id] {
      assert id in jobs;
    }
  }

  lemma PendingExpire(db: Db, now: Time)
    ensures Pending(Expire(db, now).jobs) == Pending(db.jobs)
  {
    SamePending(db.jobs, Expire(db, now).jobs);
  }

  lemma PendingClear(db: Db, now: Time)
    ensures Pending(Clear(db, now).jobs) == Pending(db.jobs)
  {
    PendingExpire(db, now);
    SamePending(Expire(db, now).jobs, Clear(db, now).jobs);
  }

  lemma PendingRemove(db: Db, now: Time, id: JobId)
    ensures Pending(Remove(db, now, id).0.jobs) == if IsQueued(db, id) then Pending(db.jobs) - {id} else Pending(db.jobs)
  {
    var e := Expire(db, now);
    PendingExpire(db, now);
    PendingRemoved(e.jobs, id);
    assert IsQueued(db, id) <==> id in Pending(db.jobs);
    assert IsQueued(e, id) <==> id in Pending(e.jobs);
  }

  lemma RemoveAllDrops(db: Db, now: Time)
    ensures Pending(RemoveAll(db, now).0.jobs) == map[] && Queue(RemoveAll(db, now).0) == []
  {
    NoPending(RemoveAll(db, now).0.jobs);
  }

  lemma RemoveDrops(db: Db, now: Time, id: JobId)
    ensures Queue(Remove(db, now, id).0) == if IsQueued(db, id) then Reject(Queue(db), {id}) else Queue(db)
  {
    PendingRemove(db, now, id);
    OrderRemove(Pending(db.jobs), id);
  }

  lemma NoPending(jobs: map<JobId, Job>)
    requires forall id :: id in jobs ==> jobs[id].status != Queued
    ensures Pending(jobs) == map[]
  {
    assert forall id :: id !in Pending(jobs);
  }

  lemma PendingRemoved(jobs: map<JobId, Job>, id: JobId)
    ensures Pending(jobs - {id}) == Pending(jobs) - {id}
    ensures !(id in jobs && jobs[id].status == Queued) ==> Pending(jobs) - {id} == Pending(jobs)
  {
  }

  /** Each requeued job joins at the end, behind every job already queued. */
  lemma {:induction false} QueueAfterRequeue(jobs: map<JobId, Job>, ids: seq<JobId>)
    requires Distinct(ids)
    requires forall i :: 0 <= i < |ids| ==> ids[i] in jobs && jobs[ids[i]].status != Queued
    ensures Order(Pending(RequeueAll(jobs, ids))) == Order(Pending(jobs)) + ids
    decreases |ids|
  {
    if ids == [] {
      assert RequeueAll(jobs, ids) == jobs;
    } else {
      var id, tail := ids[0], ids[1..];
      var next := RequeueOne(jobs, id);
      RequeueOneAppends(jobs, id);
      QueueAfterRequeue(next, tail);
      assert Order(Pending(jobs)) + [id] + tail == Order(Pending(jobs)) + ids;
    }
  }

  lemma RequeueOneAppends(jobs: map<JobId, Job>, id: JobId)
    requires id in jobs && jobs[id].status != Queued
    ensures Order(Pending(RequeueOne(jobs, id))) == Order(Pending(jobs)) + [id]
  {
    var pending := Pending(jobs);
    var p := MaxOrZero(AllPositions(jobs)) + 1;
    assert Pending(RequeueOne(jobs, id)) == pending[id := p];
    forall x | x in pending ensures pending[x] < p { assert jobs[x].position in AllPositions(jobs); }
    OrderPushBack(pending, id, p);
    OrderRemove(pending, id);
    assert pending - {id} == pending;
  }

  /** Retry, of one job or of all failed ones, appends its targets strictly last. */
  lemma RetryAppends(db: Db, which: Option<JobId>)
    ensures Queue(Retry(db, which).0) == Queue(db) + RetryTargets(db, which)
  {
    RetryTargetsFailed(db, which);
    QueueAfterRequeue(db.jobs, RetryTargets(db, which));
  }

  /** Urgent moves its target strictly first and keeps the others in order. */
  lemma UrgentMovesToFront(db: Db, id: JobId)
    requires IsQueued(db, id)
    ensures Queue(Reorder(db, id, None).0) == ToFront(Queue(db), id)
    ensures Reorder(db, id, None).1.Ok?
  {
    var pending := Pending(db.jobs);
    assert pending[id] in pending.Values;
    var p := Min(pending.Values) - 1;
    assert Pending(Reorder(db, id, None).0.jobs) == pending[id := p];
    forall x | x in pending ensures p < pending[x] { assert pending[x] in pending.Values; }
    OrderPushFront(pending, id, p);
  }

  lemma PendingSwap(db: Db, a: JobId, b: JobId)
    requires IsQueued(db, a) && IsQueued(db, b)
    ensures Pending(Reorder(db, a, Some(b)).0.jobs) == Swapped(Pending(db.jobs), a, b)
  {
  }

  /** Swap exchanges exactly two places if and only if the swap is clean. */
  lemma SwapExchangesIff(db: Db, a: JobId, b: JobId)
    requires IsQueued(db, a) && IsQueued(db, b)
    ensures Queue(Reorder(db, a, Some(b)).0) == Exchange(Queue(db), a, b) <==> SwapIsClean(Pending(db.jobs), a, b)
    ensures db.jobs[a].position == db.jobs[b].position ==> Queue(Reorder(db, a, Some(b)).0) == Queue(db)
  {
    PendingSwap(db, a, b);
    if db.jobs[a].position == db.jobs[b].position {
      assert Swapped(Pending(db.jobs), a, b) == Pending(db.jobs);
    }
    SwapExchangesIffClean(Pending(db.jobs), a, b);
  }

  /** Submit appends if and only if no queued position exceeds the new sequence number. */
  lemma SubmitAppendsIff(db: Db, now: Time, command: seq<string>)
    requires JobsOk(db)
    ensures Queue(Submit(db, now, command).0) == Queue(db) + [db.lastSequence + 1] <==>
            forall id :: id in Pending(db.jobs) ==> Pending(db.jobs)[id] <= db.lastSequence + 1
  {
    var pending, id := Pending(db.jobs), db.lastSequence + 1;
    var pending' := pending[id := id];
    assert Pending(Submit(db, now, command).0.jobs) == pending';
    if forall x :: x in pending ==> pending[x] <= id {
      OrderPushBack(pending, id, id);
      OrderRemove(pending, id);
      assert pending - {id} == pending;
    }
    if Order(pending') == Order(pending) + [id] {
      OrderLists(pending');
      forall x | x in pending ensures pending[x] <= id {
        LastIsLast(pending', Order(pending), id, x);
      }
    }
  }

  lemma LastIsLast(pos: Positions, q: seq<int>, id: int, x: int)
    requires Lists(pos, q + [id]) && x in pos && x != id
    ensures id in pos && Before(pos, x, id)
  {
    var i :| 0 <= i < |q + [id]| && (q + [id])[i] == x;
    assert Before(pos, (q + [id])[i], (q + [id])[|q|]);
  }

  lemma ClaimPops(db: Db, now: Time, w: WorkerId)
    requires Consistent(db)
    ensures Queue(Claim(db, now, w).0) == ApplyList(Queue(db), Effect(db, now, OpClaim(w)))
  {
    var pending := Pending(db.jobs);
    if w in db.workers && w !in Held(db) && !db.workers[w].paused && pending != map[] {
      OrderHead(pending);
      assert Pending(Claim(db, now, w).0.jobs) == pending - {First(pending)};
    }
  }

  lemma FinishKeepsPending(db: Db, now: Time, id: JobId, w: WorkerId, succeeded: bool, exitCode: Option<int>, error: Option<string>)
    requires Consistent(db)
    ensures Pending(Finish(db, now, id, w, succeeded, exitCode, error).0.jobs) == Pending(db.jobs)
  {
    SamePending(db.jobs, Finish(db, now, id, w, succeeded, exitCode, error).0.jobs);
  }

  /** The only two operations whose list effect depends on positions left behind by retries. */
  ghost predicate Faithful(db: Db, op: Op) {
    && (op.OpSubmit? ==> forall id :: id in Pending(db.jobs) ==> Pending(db.jobs)[id] <= db.lastSequence + 1)
    && (op.OpReorder? && op.other.Some? && IsQueued(db, op.id) && IsQueued(db, op.other.value) ==>
          SwapIsClean(Pending(db.jobs), op.id, op.other.value))
  }

  /** Operations that neither queue nor dequeue anything. */
  predicate LeavesQueueAlone(op: Op) {
    op.OpList? || op.OpClear? || op.OpCancel? || op.OpOutput? || op.OpSetPaused? || op.OpRegister? ||
    op.OpHeartbeat? || op.OpFinish?
  }

  lemma PendingUnchanged(db: Db, now: Time, op: Op)
    requires Consistent(db) && LeavesQueueAlone(op)
    ensures Pending(Apply(db, now, op).jobs) == Pending(db.jobs)
  {
    match op
    case OpList => PendingExpire(db, now);
    case OpClear => PendingClear(db, now);
    case OpCancel(id) => SamePending(db.jobs, Cancel(db, id).0.jobs);
    case OpOutput(id, w, path) => SamePending(db.jobs, Output(db, id, w, path).0.jobs);
    case OpSetPaused(key, paused) => assert SetPaused(db, key, paused).0.jobs == db.jobs;
    case OpRegister(w, hostname) => assert Register(db, now, w, hostname).0.jobs == db.jobs;
    case OpHeartbeat(w, expiry) => assert Heartbeat(db, now, w, expiry).0.jobs == db.jobs;
    case OpFinish(id, w, succeeded, exitCode, error) => FinishKeepsPending(db, now, id, w, succeeded, exitCode, error);
  }

  /** An operation changes the queued order as its list operation says if and only if it is faithful. */
  lemma OperationIsListOpIff(db: Db, now: Time, op: Op)
    requires Consistent(db)
    ensures Queue(Apply(db, now, op)) == ApplyList(Queue(db), Effect(db, now, op)) <==> Faithful(db, op)
  {
    match op
    case OpSubmit(command) => SubmitIsListOpIff(db, now, command);
    case OpReorder(id, other) => ReorderIsListOpIff(db, now, id, other);
    case OpClaim(w) => ClaimIsListOp(db, now, w);
    case OpRemoveAll => RemoveAllIsListOp(db, now);
    case OpRemove(id) => RemoveIsListOp(db, now, id);
    case OpRetry(which) => RetryIsListOp(db, now, which);
    case _ => QuietIsListOp(db, now, op);
  }

  lemma SubmitIsListOpIff(db: Db, now: Time, command: seq<string>)
    requires Consistent(db)
    ensures var op := OpSubmit(command);
            Queue(Apply(db, now, op)) == ApplyList(Queue(db), Effect(db, now, op)) <==> Faithful(db, op)
  {
    SubmitAppendsIff(db, now, command);
  }

  lemma ClaimIsListOp(db: Db, now: Time, w: WorkerId)
    requires Consistent(db)
    ensures var op := OpClaim(w);
            Queue(Apply(db, now, op)) == ApplyList(Queue(db), Effect(db, now, op)) && Faithful(db, op)
  {
    ClaimPops(db, now, w);
  }

  lemma RemoveAllIsListOp(db: Db, now: Time)
    ensures Queue(Apply(db, now, OpRemoveAll)) == ApplyList(Queue(db), Effect(db, now, OpRemoveAll)) && Faithful(db, OpRemoveAll)
  {
    RemoveAllDrops(db, now);
  }

  lemma RetryIsListOp(db: Db, now: Time, which: Option<JobId>)
    ensures var op := OpRetry(which);
            Queue(Apply(db, now, op)) == ApplyList(Queue(db), Effect(db, now, op)) && Faithful(db, op)
  {
    RetryAppends(db, which);
  }

  lemma QuietIsListOp(db: Db, now: Time, op: Op)
    requires Consistent(db) && LeavesQueueAlone(op)
    ensures Queue(Apply(db, now, op)) == ApplyList(Queue(db), Effect(db, now, op)) && Faithful(db, op)
  {
    PendingUnchanged(db, now, op);
    assert Effect(db, now, op) == Keep;
  }

  lemma RemoveIsListOp(db: Db, now: Time, id: JobId)
    ensures var op := OpRemove(id);
            Queue(Apply(db, now, op)) == ApplyList(Queue(db), Effect(db, now, op)) && Faithful(db, op)
  {
    RemoveDrops(db, now, id);
  }

  lemma ReorderIsListOpIff(db: Db, now: Time, id: JobId, other: Option<JobId>)
    ensures var op := OpReorder(id, other);
            Queue(Apply(db, now, op)) == ApplyList(Queue(db), Effect(db, now, op)) <==> Faithful(db, op)
  {
    if IsQueued(db, id) {
      if other.None? {
        UrgentMovesToFront(db, id);
      } else if IsQueued(db, other.value) {
        SwapExchangesIff(db, id, other.value);
      }
    }
  }

  // ---------- Runs without retry ----------

  /** Queued positions are distinct and none exceeds the sequence counter. */
  ghost predicate Orderly(db: Db) {
    && DistinctPositions(Pending(db.jobs))
    && forall id :: id in Pending(db.jobs) ==> Pending(db.jobs)[id] <= db.lastSequence
  }

  lemma OrderlyFaithful(db: Db, op: Op)
    requires Orderly(db)
    ensures Faithful(db, op)
  {
    if op.OpReorder? && op.other.Some? && IsQueued(db, op.id) && IsQueued(db, op.other.value) {
      DistinctSwapIsClean(Pending(db.jobs), op.id, op.other.value);
    }
  }

  lemma OrderlySubset(db: Db, db': Db)
    requires Orderly(db) && db.lastSequence <= db'.lastSequence
    requires forall id :: id in Pending(db'.jobs) ==> id in Pending(db.jobs) && Pending(db'.jobs)[id] == Pending(db.jobs)[id]
    ensures Orderly(db')
  {
  }

  lemma OrderlySubmit(db: Db, now: Time, command: seq<string>)
    requires Orderly(db)
    ensures Orderly(Submit(db, now, command).0)
  {
    var id := db.lastSequence + 1;
    assert Pending(Submit(db, now, command).0.jobs) == Pending(db.jobs)[id := id];
  }

  lemma OrderlyUrgent(db: Db, id: JobId)
    requires Orderly(db) && IsQueued(db, id)
    ensures Orderly(Reorder(db, id, None).0)
  {
    var pending := Pending(db.jobs);
    assert pending[id] in pending.Values;
    var p := Min(pending.Values) - 1;
    assert Pending(Reorder(db, id, None).0.jobs) == pending[id := p];
    forall x | x in pending ensures p < pending[x] { assert pending[x] in pending.Values; }
  }

  lemma OrderlyReorder(db: Db, id: JobId, other: Option<JobId>)
    requires Orderly(db)
    ensures Orderly(Reorder(db, id, other).0)
  {
    if IsQueued(db, id) {
      if other.None? {
        OrderlyUrgent(db, id);
      } else if IsQueued(db, other.value) {
        PendingSwap(db, id, other.value);
        DistinctSwapIsClean(Pending(db.jobs), id, other.value);
      }
    }
  }

  /** An empty queue is orderly whatever the counter, so a counter reset does no harm. */
  lemma OrderlyClear(db: Db, now: Time)
    requires Orderly(db)
    ensures Orderly(Clear(db, now))
  {
    PendingClear(db, now);
    var e := Expire(db, now);
    var left := Unfinished(e.jobs);
    if left == map[] {
      assert Pending(Clear(db, now).jobs) == map[];
    }
  }

  lemma OrderlyStep(db: Db, now: Time, op: Op)
    requires Consistent(db) && Orderly(db) && !op.OpRetry?
    ensures Orderly(Apply(db, now, op))
  {
    if LeavesQueueAlone(op) && !op.OpClear? {
      PendingUnchanged(db, now, op);
    } else {
      match op
      case OpSubmit(command) => OrderlySubmit(db, now, command);
      case OpClear => OrderlyClear(db, now);
      case OpRemoveAll => RemoveAllDrops(db, now);
      case OpRemove(id) => PendingRemove(db, now, id); OrderlySubset(db, Remove(db, now, id).0);
      case OpReorder(id, other) => OrderlyReorder(db, id, other);
      case OpClaim(w) => OrderlySubset(db, Claim(db, now, w).0);
    }
  }

  function Effects(db: Db, run: Run): seq<ListOp>
    decreases |run|
  {
    if run == [] then []
    else [Effect(db, run[0].0, run[0].1)] + Effects(Apply(db, run[0].0, run[0].1), run[1..])
  }

  /** Every operation of the run is faithful in the state it meets. */
  ghost predicate FaithfulThroughout(db: Db, run: Run)
    decreases |run|
  {
    run == [] || (Faithful(db, run[0].1) && FaithfulThroughout(Apply(db, run[0].0, run[0].1), run[1..]))
  }

  /** A faithful run refines a plain list: its list operations make the order at the end of the order at the start. */
  lemma {:induction false} FaithfulRunIsListRun(db: Db, run: Run)
    requires Consistent(db) && FaithfulThroughout(db, run)
    ensures Queue(Execute(db, run)) == ApplyListAll(Queue(db), Effects(db, run))
    decreases |run|
  {
    if run != [] {
      var next := Apply(db, run[0].0, run[0].1);
      OperationIsListOpIff(db, run[0].0, run[0].1);
      ApplyConsistent(db, run[0].0, run[0].1);
      FaithfulRunIsListRun(next, run[1..]);
      assert Effects(db, run)[1..] == Effects(next, run[1..]);
    }
  }

  lemma {:induction false} RunWithoutRetryIsFaithful(db: Db, run: Run)
    requires Consistent(db) && Orderly(db)
    requires forall i :: 0 <= i < |run| ==> !run[i].1.OpRetry?
    ensures FaithfulThroughout(db, run) && Orderly(Execute(db, run))
    decreases |run|
  {
    if run != [] {
      OrderlyFaithful(db, run[0].1);
      OrderlyStep(db, run[0].0, run[0].1);
      ApplyConsistent(db, run[0].0, run[0].1);
      RunWithoutRetryIsFaithful(Apply(db, run[0].0, run[0].1), run[1..]);
    }
  }

  /** In every run without retry the positions in the table refine a plain list. */
  lemma RunWithoutRetryIsListRun(run: Run)
    requires forall i :: 0 <= i < |run| ==> !run[i].1.OpRetry?
    ensures Queue(Execute(EMPTY, run)) == ApplyListAll([], Effects(EMPTY, run))
  {
    RunWithoutRetryIsFaithful(EMPTY, run);
    FaithfulRunIsListRun(EMPTY, run);
  }

  // ---------- What retries break ----------

  const SETUP: Run := [(0, OpSubmit(["job"])), (0, OpRegister("w", "host"))]
  const RETRY_ONCE: Run := [(0, OpClaim("w")), (0, OpFinish(1, "w", false, Some(1), Some("failed"))), (0, OpRetry(Some(1)))]

  /** A job retried twice sits at position 3; the next submission gets position 2 and overtakes it. */
  lemma RetriedJobIsOvertaken()
    ensures var db := Execute(EMPTY, SETUP + RETRY_ONCE + RETRY_ONCE);
            Queue(Submit(db, 0, ["next"]).0) != Queue(db) + [db.lastSequence + 1]
  {
    LoneStart();
    var start := Execute(EMPTY, SETUP);
    RetryOnce(start, 1);
    ExecuteConcat(EMPTY, SETUP, RETRY_ONCE);
    var db1 := Execute(start, RETRY_ONCE);
    RetryOnce(db1, 2);
    ExecuteConcat(EMPTY, SETUP + RETRY_ONCE, RETRY_ONCE);
    LoneIsOvertaken(Execute(db1, RETRY_ONCE));
  }

  lemma LoneStart()
    ensures Lone(Execute(EMPTY, SETUP), NewJob(1, ["job"], 0, 1), None)
  {
    ExecuteTwo(EMPTY, SETUP[0], SETUP[1]);
    assert map[][1 := NewJob(1, ["job"], 0, 1)] == map[1 := NewJob(1, ["job"], 0, 1)];
  }

  lemma LoneIsOvertaken(db: Db)
    requires Lone(db, NewJob(1, ["job"], 0, 3), None)
    ensures Queue(Submit(db, 0, ["next"]).0) != Queue(db) + [db.lastSequence + 1]
  {
    assert 1 in Pending(db.jobs) && Pending(db.jobs)[1] == 3;
    SubmitAppendsIff(db, 0, ["next"]);
  }

  lemma {:induction false} ExecuteConcat(db: Db, a: Run, b: Run)
    ensures Execute(db, a + b) == Execute(Execute(db, a), b)
    decreases |a|
  {
    if a == [] {
      assert a + b == b;
    } else {
      assert (a + b)[1..] == a[1..] + b && (a + b)[0] == a[0];
      ExecuteConcat(Apply(db, a[0].0, a[0].1), a[1..], b);
    }
  }

  lemma ExecuteTwo(db: Db, x: (Time, Op), y: (Time, Op))
    ensures Execute(db, [x, y]) == Apply(Apply(db, x.0, x.1), y.0, y.1)
  {
    assert [x, y][1..] == [y] && [y][1..] == [];
    assert Execute(Apply(db, x.0, x.1), [y]) == Apply(Apply(db, x.0, x.1), y.0, y.1);
  }

  /** The table holds the one job row and an unpaused worker holding current. */
  ghost predicate Lone(db: Db, row: Job, current: Option<JobId>) {
    && db.jobs == map[1 := row] && db.lastSequence == 1
    && "w" in db.workers && db.workers["w"].currentJob == current && !db.workers["w"].paused
  }

  lemma LoneClaim(db: Db, row: Job)
    requires Lone(db, row, None) && row.id == 1 && row.status == Queued
    ensures Lone(Apply(db, 0, OpClaim("w")), Assigned(row, "w", 0), Some(1))
  {
    assert 1 in Pending(db.jobs);
    FirstIsFirst(Pending(db.jobs));
  }

  lemma LoneFail(db: Db, row: Job)
    requires Lone(db, row, Some(1)) && row.status == Running && row.workerId == Some("w")
    ensures Lone(Apply(db, 0, OpFinish(1, "w", false, Some(1), Some("failed"))),
                 Ended(row, 0, false, Some(1), Some("failed")), None)
  {
  }

  lemma LoneRetry(db: Db, row: Job)
    requires Lone(db, row, None) && row.status == Failed
    ensures Lone(Apply(db, 0, OpRetry(Some(1))), Requeued(row, row.position + 1), None)
  {
    assert 1 in db.jobs && db.jobs[1].position in AllPositions(db.jobs);
    assert AllPositions(db.jobs) == {row.position};
    assert RequeueAll(db.jobs, [1]) == RequeueOne(db.jobs, 1);
  }

  lemma RequeuedIsNew(row: Job, position: int)
    requires row == NewJob(row.id, row.command, row.createdAt, row.position)
    ensures Requeued(Ended(Assigned(row, "w", 0), 0, false, Some(1), Some("failed")), position) ==
            NewJob(row.id, row.command, row.createdAt, position)
  {
  }

  /** Claiming, failing and retrying the only job moves it one position further. */
  lemma RetryOnce(db: Db, position: int)
    requires Lone(db, NewJob(1, ["job"], 0, position), None)
    ensures Lone(Execute(db, RETRY_ONCE), NewJob(1, ["job"], 0, position + 1), None)
  {
    var claim, fail, retry := OpClaim("w"), OpFinish(1, "w", false, Some(1), Some("failed")), OpRetry(Some(1));
    var row := NewJob(1, ["job"], 0, position);
    LoneClaim(db, row);
    var claimed := Apply(db, 0, claim);
    LoneFail(claimed, Assigned(row, "w", 0));
    var failed := Apply(claimed, 0, fail);
    var ended := Ended(Assigned(row, "w", 0), 0, false, Some(1), Some("failed"));
    LoneRetry(failed, ended);
    RequeuedIsNew(row, position + 1);
    ExecuteThree(db, (0, claim), (0, fail), (0, retry));
  }

  lemma ExecuteThree(db: Db, x: (Time, Op), y: (Time, Op), z: (Time, Op))
    ensures Execute(db, [x, y, z]) == Apply(Apply(Apply(db, x.0, x.1), y.0, y.1), z.0, z.1)
  {
    assert [x, y, z][1..] == [y, z];
    ExecuteTwo(Apply(db, x.0, x.1), y, z);
  }
}
