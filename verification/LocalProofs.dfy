/** The local queue refines a plain list in every run, and without urgent and swap it is first in, first out. */
module LocalProofs {
  import opened Wrappers
  import opened QueueOrder
  import opened EntryOrder
  import opened LocalModel
  import Execution

  /** Rows carry numbers up to the counter, and no two queued rows share a position. */
  ghost predicate Valid(t: Table) {
    && 0 <= t.last
    && (forall n :: n in t.rows ==> 1 <= n <= t.last)
    && DistinctPositions(Pending(t.rows))
  }

  /** The list operation that an operation stands for, in the table it meets. */
  function Effect(t: Table, op: Op): ListOp {
    match op
    case OpSubmit(command) => if CommandError(command).None? then Push(t.last + 1) else Keep
    case OpClaim(_, _) => Pop
    case OpReorder(id, other) =>
      if QueuedRow(t, id).Err? then Keep
      else if other == "" then Front(QueuedRow(t, id).value)
      else if QueuedRow(t, other).Err? then Keep
      else Swap(QueuedRow(t, id).value, QueuedRow(t, other).value)
    case OpRemove(id) =>
      if LocalSequence(id).Some? && IsQueued(t, LocalSequence(id).value) then Drop(LocalSequence(id).value) else Keep
    case OpRemoveAll => DropAll
    case OpRetry(id) => if RetryTargets(t, id).Ok? then PushAll(RetryTargets(t, id).value) else Keep
    case _ => Keep
  }

  // ---------- One operation ----------

  lemma SamePending(rows: map<int, Row>, rows': map<int, Row>)
    requires forall n :: n in rows && rows[n].status == Queued ==>
               n in rows' && rows'[n].status == Queued && rows'[n].position == rows[n].position
    requires forall n :: n in rows' && rows'[n].status == Queued ==> n in rows && rows[n].status == Queued
    ensures Pending(rows) == Pending(rows')
  {
    forall n ensures n in Pending(rows) <==> n in Pending(rows') {
      if n in rows && rows[n].status == Queued { assert n in rows'; }
      if n in rows' && rows'[n].status == Queued { assert n in rows; }
    }
    forall n | n in Pending(rows) ensures Pending(rows)[n] == Pending(rows')[n] {
      assert n in rows;
    }
  }

  predicate LeavesQueueAlone(op: Op) {
    op.OpFinish? || op.OpOutput? || op.OpRequestCancel? || op.OpRecover? || op.OpClear?
  }

  lemma QuietOperation(t: Table, now: Time, op: Op)
    requires LeavesQueueAlone(op)
    ensures Pending(Apply(t, now, op).rows) == Pending(t.rows)
    ensures Apply(t, now, op).last == t.last && Apply(t, now, op).rows.Keys <= t.rows.Keys
  {
    SamePending(t.rows, Apply(t, now, op).rows);
  }

  /** A row placed one past every position is queued strictly last. */
  lemma AppendedRow(rows: map<int, Row>, n: int, row: Row)
    requires !(n in rows && rows[n].status == Queued) && row.status == Queued && row.position == NextPosition(rows)
    requires DistinctPositions(Pending(rows))
    ensures Order(Pending(rows[n := row])) == Order(Pending(rows)) + [n]
    ensures DistinctPositions(Pending(rows[n := row]))
  {
    AppendedPending(rows, n, row);
    OrderPushBack(Pending(rows), n, row.position);
    OrderRemove(Pending(rows), n);
    assert Pending(rows) - {n} == Pending(rows);
  }

  lemma AppendedPending(rows: map<int, Row>, n: int, row: Row)
    requires row.status == Queued && row.position == NextPosition(rows)
    ensures Pending(rows[n := row]) == Pending(rows)[n := row.position]
    ensures forall x :: x in Pending(rows) ==> Pending(rows)[x] < row.position
  {
    forall x | x in Pending(rows) ensures Pending(rows)[x] < row.position { assert rows[x].position in AllPositions(rows); }
  }

  lemma {:induction false} RequeuedRows(rows: map<int, Row>, ns: seq<int>)
    requires Distinct(ns) && DistinctPositions(Pending(rows))
    requires forall i :: 0 <= i < |ns| ==> ns[i] in rows && rows[ns[i]].status != Queued
    ensures Order(Pending(RequeueAll(rows, ns))) == Order(Pending(rows)) + ns
    ensures DistinctPositions(Pending(RequeueAll(rows, ns)))
    ensures RequeueAll(rows, ns).Keys == rows.Keys
    decreases |ns|
  {
    if ns == [] {
      assert Order(Pending(rows)) + ns == Order(Pending(rows));
    } else {
      var n := ns[0];
      var next := rows[n := Requeued(rows[n], NextPosition(rows))];
      AppendedRow(rows, n, next[n]);
      RequeuedRows(next, ns[1..]);
      OneMore(Order(Pending(rows)), ns);
    }
  }

  lemma OneMore(q: seq<int>, ns: seq<int>)
    requires ns != []
    ensures q + [ns[0]] + ns[1..] == q + ns
  {
  }

  lemma SubmitAppends(t: Table, now: Time, command: seq<string>)
    requires Valid(t)
    ensures Valid(Submit(t, now, command).0)
    ensures Queue(Submit(t, now, command).0) == ApplyList(Queue(t), Effect(t, OpSubmit(command)))
  {
    if CommandError(command).None? {
      AppendedRow(t.rows, t.last + 1, NewRow(command, now, NextPosition(t.rows)));
    }
  }

  lemma RetryAppends(t: Table, id: string)
    requires Valid(t)
    ensures Valid(Retry(t, id).0)
    ensures Queue(Retry(t, id).0) == ApplyList(Queue(t), Effect(t, OpRetry(id)))
  {
    RetryTargetsFailed(t, id);
    RetryEffect(t, id);
    if RetryTargets(t, id).Ok? {
      RequeueAppends(t, RetryTargets(t, id).value, Retry(t, id).0);
    }
  }

  lemma RetryEffect(t: Table, id: string)
    ensures Effect(t, OpRetry(id)) == if RetryTargets(t, id).Ok? then PushAll(RetryTargets(t, id).value) else Keep
    ensures RetryTargets(t, id).Err? ==> Retry(t, id).0 == t
  {
  }

  lemma RequeueAppends(t: Table, ns: seq<int>, t': Table)
    requires Valid(t) && Distinct(ns)
    requires forall i :: 0 <= i < |ns| ==> ns[i] in t.rows && t.rows[ns[i]].status != Queued
    requires t' == t.(rows := RequeueAll(t.rows, ns))
    ensures Valid(t') && Queue(t') == Queue(t) + ns
  {
    RequeuedRows(t.rows, ns);
  }

  /** Claim takes the head of the list. */
  lemma ClaimPops(t: Table, now: Time, worker: string, host: string)
    requires Valid(t)
    ensures Valid(Claim(t, now, worker, host).0)
    ensures Queue(Claim(t, now, worker, host).0) == ApplyList(Queue(t), Pop)
    ensures Claim(t, now, worker, host).1 == if Queue(t) == [] then None else Some(Queue(t)[0])
  {
    var pending := Pending(t.rows);
    if pending != map[] {
      OrderHead(pending);
      FirstIsFirst(pending);
      assert Pending(Claim(t, now, worker, host).0.rows) == pending - {First(pending)};
    }
  }

  lemma UrgentMovesToFront(t: Table, id: string)
    requires Valid(t) && QueuedRow(t, id).Ok?
    ensures Valid(Reorder(t, id, "").0)
    ensures Queue(Reorder(t, id, "").0) == ToFront(Queue(t), QueuedRow(t, id).value)
  {
    var pending, n := Pending(t.rows), QueuedRow(t, id).value;
    assert pending[n] in pending.Values;
    var p := Min(pending.Values) - 1;
    assert Pending(Reorder(t, id, "").0.rows) == pending[n := p];
    forall x | x in pending ensures p < pending[x] { assert pending[x] in pending.Values; }
    OrderPushFront(pending, n, p);
  }

  lemma PendingSwap(rows: map<int, Row>, a: int, b: int)
    requires a in rows && b in rows && rows[a].status == Queued && rows[b].status == Queued
    ensures Pending(MoveTo(MoveTo(rows, b, rows[a].position), a, rows[b].position)) == Swapped(Pending(rows), a, b)
  {
  }

  lemma SwapExchangesPlaces(t: Table, id: string, other: string)
    requires Valid(t) && other != "" && QueuedRow(t, id).Ok? && QueuedRow(t, other).Ok?
    ensures Valid(Reorder(t, id, other).0)
    ensures Queue(Reorder(t, id, other).0) == Exchange(Queue(t), QueuedRow(t, id).value, QueuedRow(t, other).value)
  {
    var pending, a, b := Pending(t.rows), QueuedRow(t, id).value, QueuedRow(t, other).value;
    PendingSwap(t.rows, a, b);
    DistinctSwapIsClean(pending, a, b);
    SwapExchanges(pending, a, b);
  }

  lemma ReorderIsListOp(t: Table, id: string, other: string)
    requires Valid(t)
    ensures Valid(Reorder(t, id, other).0)
    ensures Queue(Reorder(t, id, other).0) == ApplyList(Queue(t), Effect(t, OpReorder(id, other)))
  {
    if QueuedRow(t, id).Ok? {
      if other == "" {
        UrgentMovesToFront(t, id);
      } else if QueuedRow(t, other).Ok? {
        SwapExchangesPlaces(t, id, other);
      }
    }
  }

  lemma RemoveDrops(t: Table, id: string)
    requires Valid(t)
    ensures Valid(Remove(t, id).0)
    ensures Queue(Remove(t, id).0) == ApplyList(Queue(t), Effect(t, OpRemove(id)))
  {
    var n := LocalSequence(id);
    if n.Some? && n.value in t.rows && t.rows[n.value].status != Running {
      DeleteDrops(t, n.value, t.(rows := t.rows - {n.value}));
    }
  }

  lemma DeleteDrops(t: Table, n: int, t': Table)
    requires Valid(t) && t' == t.(rows := t.rows - {n})
    ensures Valid(t') && Queue(t') == if IsQueued(t, n) then Reject(Queue(t), {n}) else Queue(t)
  {
    assert Pending(t.rows - {n}) == Pending(t.rows) - {n};
    OrderRemove(Pending(t.rows), n);
    if !IsQueued(t, n) { assert Pending(t.rows) - {n} == Pending(t.rows); }
  }

  lemma NoPending(rows: map<int, Row>)
    requires forall n :: n in rows ==> rows[n].status != Queued
    ensures Pending(rows) == map[]
  {
    assert forall n :: n !in Pending(rows);
  }

  lemma RemoveAllDrops(t: Table)
    requires Valid(t)
    ensures Valid(RemoveAll(t).0) && Queue(RemoveAll(t).0) == []
  {
    NoPending(RunningRows(t.rows));
  }

  /** Every operation keeps queued positions distinct and changes the queue exactly as its list operation says. */
  lemma OperationIsListOp(t: Table, now: Time, op: Op)
    requires Valid(t)
    ensures Valid(Apply(t, now, op))
    ensures Queue(Apply(t, now, op)) == ApplyList(Queue(t), Effect(t, op))
  {
    if LeavesQueueAlone(op) {
      QuietOperation(t, now, op);
    } else {
      match op
      case OpSubmit(command) => SubmitAppends(t, now, command);
      case OpClaim(worker, host) => ClaimPops(t, now, worker, host);
      case OpReorder(id, other) => ReorderIsListOp(t, id, other);
      case OpRemove(id) => RemoveDrops(t, id);
      case OpRemoveAll => RemoveAllDrops(t);
      case OpRetry(id) => RetryAppends(t, id);
    }
  }

  // ---------- Outcomes ----------

  /** The local queue and the report to the controller judge a result alike. */
  lemma LocalOutcomeAgrees(t: Table, now: Time, id: string, r: Execution.Result)
    requires RunningRow(t, id).Ok?
    ensures var n := LocalSequence(id).value; var (t', done) := Finish(t, now, id, r.exitCode, r.error);
            && done.Ok? && t'.last == t.last && t'.rows.Keys == t.rows.Keys && t'.rows - {n} == t.rows - {n}
            && (t'.rows[n].status == Succeeded <==> Execution.ReportsSuccess(r))
            && (t'.rows[n].status == Failed <==> !Execution.ReportsSuccess(r))
            && t'.rows[n].exitCode == r.exitCode && t'.rows[n].error == r.error && t'.rows[n].finishedAt == Some(now)
  {
  }

  /** What is noted of a running job while it runs is still there when it has ended, and no other row is touched. */
  lemma NotesSurviveEnd(t: Table, now: Time, id: string, path: string, exitCode: Option<int>, error: string)
    requires RunningRow(t, id).Ok?
    ensures var n := LocalSequence(id).value;
            var (noted, a) := Output(t, id, path);
            var (flagged, b) := RequestCancel(noted, id);
            var (ended, c) := Finish(flagged, now, id, exitCode, error);
            && a.Ok? && b.Ok? && c.Ok?
            && n in ended.rows && ended.rows[n].outputPath == path && ended.rows[n].cancelRequested
            && ended.rows[n].command == t.rows[n].command && ended.rows[n].workerId == t.rows[n].workerId
            && ended.rows - {n} == t.rows - {n}
            && Finish(ended, now, id, exitCode, error).1 == Err(NotRunning)
  {
  }

  /** A requeued row keeps its command and forgets its last run, including any request to cancel it. */
  predicate FreshAgain(row: Row, before: Row) {
    && row.status == Queued && row.command == before.command && row.createdAt == before.createdAt
    && row.startedAt.None? && row.finishedAt.None? && row.exitCode.None? && row.error == "" && row.outputPath == ""
    && row.workerId == "" && row.hostname == "" && !row.cancelRequested
  }

  /** Retry makes exactly its targets fresh again and touches no other row. */
  lemma {:induction false} RequeueTouchesOnly(rows: map<int, Row>, ns: seq<int>)
    requires forall i :: 0 <= i < |ns| ==> ns[i] in rows
    ensures RequeueAll(rows, ns).Keys == rows.Keys
    ensures forall n :: n in rows && n in ns ==> FreshAgain(RequeueAll(rows, ns)[n], rows[n])
    ensures forall n :: n in rows && n !in ns ==> RequeueAll(rows, ns)[n] == rows[n]
    decreases |ns|
  {
    if ns != [] {
      var next := rows[ns[0] := Requeued(rows[ns[0]], NextPosition(rows))];
      RequeueTouchesOnly(next, ns[1..]);
      forall n | n in rows && n in ns ensures FreshAgain(RequeueAll(rows, ns)[n], rows[n]) {
        if n !in ns[1..] { assert n == ns[0]; }
      }
      forall n | n in rows && n !in ns ensures RequeueAll(rows, ns)[n] == rows[n] {
        assert n != ns[0] && n !in ns[1..];
      }
    }
  }

  /** Recovery fails every running row, whose outcome nobody knows, and nothing else. */
  lemma RecoverFailsRunning(t: Table, now: Time)
    ensures var rows := Recover(t, now).rows;
            && rows.Keys == t.rows.Keys
            && (forall n :: n in t.rows && t.rows[n].status == Running ==>
                  rows[n].status == Failed && rows[n].error == RESTARTED && rows[n].finishedAt == Some(now) &&
                  rows[n].position == t.rows[n].position && rows[n].outputPath == t.rows[n].outputPath)
            && (forall n :: n in t.rows && t.rows[n].status != Running ==> rows[n] == t.rows[n])
  {
  }

  // ---------- Runs ----------

  function Effects(t: Table, run: Run): seq<ListOp>
    decreases |run|
  {
    if run == [] then [] else [Effect(t, run[0].1)] + Effects(Apply(t, run[0].0, run[0].1), run[1..])
  }

  /** In every run the table is a plain list. */
  lemma {:induction false} RunIsListRun(t: Table, run: Run)
    requires Valid(t)
    ensures Valid(Execute(t, run))
    ensures Queue(Execute(t, run)) == ApplyListAll(Queue(t), Effects(t, run))
    decreases |run|
  {
    if run != [] {
      OperationIsListOp(t, run[0].0, run[0].1);
      RunIsListRun(Apply(t, run[0].0, run[0].1), run[1..]);
      assert Effects(t, run)[1..] == Effects(Apply(t, run[0].0, run[0].1), run[1..]);
    }
  }

  // ---------- First in, first out ----------

  /** The job that an operation claims. */
  function Claimed(t: Table, now: Time, op: Op): Option<int> {
    if op.OpClaim? then Claim(t, now, op.worker, op.host).1 else None
  }

  /** What each operation of a run claims, if anything. */
  function ClaimedAll(t: Table, run: Run): (r: seq<Option<int>>)
    ensures |r| == |run|
    decreases |run|
  {
    if run == [] then []
    else [Claimed(t, run[0].0, run[0].1)] + ClaimedAll(Apply(t, run[0].0, run[0].1), run[1..])
  }

  predicate PlainOp(op: Op) {
    !op.OpReorder?
  }

  lemma PlainEffect(t: Table, now: Time, op: Op)
    requires Valid(t) && PlainOp(op)
    ensures !Effect(t, op).Front? && !Effect(t, op).Swap?
    ensures Valid(Apply(t, now, op)) && Queue(Apply(t, now, op)) == ApplyList(Queue(t), Effect(t, op))
    ensures Distinct(ApplyList(Queue(t), Effect(t, op)))
    ensures op.OpClaim? ==> Effect(t, op) == Pop
  {
    OperationIsListOp(t, now, op);
    OrderDistinct(Pending(Apply(t, now, op).rows));
  }

  lemma ClaimedIsHead(t: Table, now: Time, op: Op)
    requires Valid(t)
    ensures Claimed(t, now, op).None? || (Effect(t, op).Pop? && Queue(t) != [] && Claimed(t, now, op) == Some(Queue(t)[0]))
  {
    if op.OpClaim? { ClaimPops(t, now, op.worker, op.host); }
  }

  lemma OperationFits(t: Table, now: Time, op: Op, next: Table)
    requires Valid(t) && PlainOp(op) && next == Apply(t, now, op)
    ensures FitsOne(Queue(t), Effect(t, op), Claimed(t, now, op))
    ensures Valid(next) && Queue(next) == ApplyList(Queue(t), Effect(t, op))
  {
    PlainEffect(t, now, op);
    ClaimedIsHead(t, now, op);
  }

  lemma {:induction false} RunFits(t: Table, run: Run)
    requires Valid(t) && forall i :: 0 <= i < |run| ==> PlainOp(run[i].1)
    ensures |Effects(t, run)| == |run| && Fits(Queue(t), Effects(t, run), ClaimedAll(t, run))
    decreases |run|
  {
    if run != [] {
      var next := Apply(t, run[0].0, run[0].1);
      OperationFits(t, run[0].0, run[0].1, next);
      RunFits(next, run[1..]);
      assert Effects(t, run)[1..] == Effects(next, run[1..]);
      assert ClaimedAll(t, run)[1..] == ClaimedAll(next, run[1..]);
    }
  }

  /**
   Jobs are claimed in the order in which they last entered the queue, however submissions,
   retries, reports, removals, clears and recoveries are mixed in: entry numbers increase
   strictly along the claims, and the log leaves no claim out.
   */
  lemma ClaimsFollowEntryOrder(t: Table, run: Run, l: Ledger)
    requires Valid(t) && InEntryOrder(Queue(t), l)
    requires forall i :: 0 <= i < |run| ==> PlainOp(run[i].1)
    ensures |Effects(t, run)| == |run|
    ensures var log := ClaimLog(Effects(t, run), ClaimedAll(t, run), l);
            LogOf(Somes(ClaimedAll(t, run)), log) && Increasing(log)
  {
    RunFits(t, run);
    ClaimsInOrder(Queue(t), Effects(t, run), ClaimedAll(t, run), l);
    LogHoldsEveryClaim(Queue(t), Effects(t, run), ClaimedAll(t, run), l);
  }
}
