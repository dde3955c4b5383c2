/**
 What each operation of the local queue changes and what it leaves alone, column by column, and
 exactly when it succeeds.
 */
module LocalEffects {
  import opened Wrappers
  import opened QueueOrder
  import opened LocalModel
  import opened LocalProofs

  // ---------- Which rows, which columns ----------

  predicate Names(id: string, n: int) {
    LocalSequence(id) == Some(n)
  }

  /** The rows an operation is about. */
  predicate Concerns(t: Table, op: Op, n: int)
    requires n in t.rows
  {
    match op
    case OpSubmit(_) => false
    case OpClaim(_, _) => t.rows[n].status == Queued && Queue(t) != [] && Queue(t)[0] == n
    case OpFinish(id, _, _) => t.rows[n].status == Running && Names(id, n)
    case OpOutput(id, _) => t.rows[n].status == Running && Names(id, n)
    case OpRequestCancel(id) => t.rows[n].status == Running && Names(id, n)
    case OpRecover => t.rows[n].status == Running
    case OpReorder(id, other) => t.rows[n].status == Queued && (Names(id, n) || Names(other, n))
    case OpRetry(id) => t.rows[n].status == Failed && (id == "" || Names(id, n))
    case OpRemove(_) => false
    case OpRemoveAll => false
    case OpClear => false
  }

  /** The columns an operation may write; a requeued row forgets everything but what was asked for. */
  predicate WritesOnly(op: Op, a: Row, b: Row) {
    match op
    case OpClaim(worker, host) => b == a.(status := Running, startedAt := b.startedAt, workerId := worker, hostname := host)
    case OpFinish(_, exitCode, error) =>
      b == a.(status := b.status, finishedAt := b.finishedAt, exitCode := exitCode, error := error)
    case OpOutput(_, path) => b == a.(outputPath := path)
    case OpRequestCancel(_) => b == a.(cancelRequested := true)
    case OpRecover => b == a.(status := Failed, finishedAt := b.finishedAt, error := RESTARTED)
    case OpReorder(_, _) => b == a.(position := b.position)
    case OpRetry(_) => b == Row(Queued, a.command, a.createdAt, None, None, "", "", "", None, "", false, b.position)
    case _ => false
  }

  predicate Kept(t: Table, op: Op, n: int, a: Row, b: Row)
    requires n in t.rows
  {
    b == a || (Concerns(t, op, n) && WritesOnly(op, a, b))
  }

  lemma ClaimKept(t: Table, now: Time, worker: string, host: string, n: int)
    requires n in t.rows
    ensures var rows := Claim(t, now, worker, host).0.rows;
            n in rows && Kept(t, OpClaim(worker, host), n, t.rows[n], rows[n])
  {
    if Pending(t.rows) != map[] {
      FirstIsFirst(Pending(t.rows));
      OrderHead(Pending(t.rows));
    }
  }

  lemma {:induction false} RequeueAllKept(rows: map<int, Row>, ns: seq<int>, n: int)
    requires n in rows && forall i :: 0 <= i < |ns| ==> ns[i] in rows
    ensures n in RequeueAll(rows, ns)
    ensures n !in ns ==> RequeueAll(rows, ns)[n] == rows[n]
    ensures n in ns ==> WritesOnly(OpRetry(""), rows[n], RequeueAll(rows, ns)[n])
    decreases |ns|
  {
    if ns != [] {
      var next := rows[ns[0] := Requeued(rows[ns[0]], NextPosition(rows))];
      RequeueAllKept(next, ns[1..], n);
      assert n in ns <==> n == ns[0] || n in ns[1..];
    }
  }

  lemma RetryKept(t: Table, id: string, n: int)
    requires n in t.rows
    ensures n in Retry(t, id).0.rows && Kept(t, OpRetry(id), n, t.rows[n], Retry(t, id).0.rows[n])
  {
    RetryTargetsFailed(t, id);
    if RetryTargets(t, id).Ok? {
      var ns := RetryTargets(t, id).value;
      RequeueAllKept(t.rows, ns, n);
      if n in ns { RetryConcerns(t, id, n); }
    }
  }

  lemma RetryConcerns(t: Table, id: string, n: int)
    requires RetryTargets(t, id).Ok? && n in RetryTargets(t, id).value
    ensures n in t.rows && Concerns(t, OpRetry(id), n)
  {
    RetryTargetsFailed(t, id);
  }

  lemma RunningKept(t: Table, now: Time, op: Op, n: int)
    requires n in t.rows && (op.OpFinish? || op.OpOutput? || op.OpRequestCancel? || op.OpRecover?)
    ensures n in Apply(t, now, op).rows && Kept(t, op, n, t.rows[n], Apply(t, now, op).rows[n])
  {
  }

  lemma MoveKept(rows: map<int, Row>, n: int, position: int, x: int)
    requires n in rows && x in rows
    ensures x in MoveTo(rows, n, position)
    ensures MoveTo(rows, n, position)[x] == if x == n then rows[x].(position := position) else rows[x]
  {
  }

  lemma UrgentKept(t: Table, id: string, n: int)
    requires n in t.rows && QueuedRow(t, id).Ok?
    ensures n in Reorder(t, id, "").0.rows && Kept(t, OpReorder(id, ""), n, t.rows[n], Reorder(t, id, "").0.rows[n])
  {
    var first := QueuedRow(t, id).value;
    assert first in Pending(t.rows) && Pending(t.rows)[first] in Pending(t.rows).Values;
    MoveKept(t.rows, first, Min(Pending(t.rows).Values) - 1, n);
  }

  lemma SwapKept(t: Table, id: string, other: string, n: int)
    requires n in t.rows && other != "" && QueuedRow(t, id).Ok? && QueuedRow(t, other).Ok?
    ensures n in Reorder(t, id, other).0.rows && Kept(t, OpReorder(id, other), n, t.rows[n], Reorder(t, id, other).0.rows[n])
  {
    var first, second := QueuedRow(t, id).value, QueuedRow(t, other).value;
    var a, b := t.rows[first].position, t.rows[second].position;
    MoveKept(t.rows, second, a, n);
    MoveKept(MoveTo(t.rows, second, a), first, b, n);
  }

  lemma ReorderKept(t: Table, id: string, other: string, n: int)
    requires n in t.rows
    ensures n in Reorder(t, id, other).0.rows && Kept(t, OpReorder(id, other), n, t.rows[n], Reorder(t, id, other).0.rows[n])
  {
    if QueuedRow(t, id).Ok? {
      if other == "" {
        UrgentKept(t, id, n);
      } else if QueuedRow(t, other).Ok? {
        SwapKept(t, id, other, n);
      }
    }
  }

  lemma RestKept(t: Table, now: Time, op: Op, n: int)
    requires 0 <= t.last && (forall k :: k in t.rows ==> k <= t.last)
    requires n in t.rows && (op.OpSubmit? || op.OpRemove? || op.OpRemoveAll? || op.OpClear?)
    ensures n in Apply(t, now, op).rows ==> Apply(t, now, op).rows[n] == t.rows[n]
  {
  }

  /** Every operation leaves every surviving row as it was, except the columns it is for, in the rows it concerns. */
  lemma RowsKept(t: Table, now: Time, op: Op, n: int)
    requires Valid(t) && n in t.rows && n in Apply(t, now, op).rows
    ensures Kept(t, op, n, t.rows[n], Apply(t, now, op).rows[n])
  {
    match op
    case OpClaim(worker, host) => ClaimKept(t, now, worker, host, n);
    case OpRetry(id) => RetryKept(t, id, n);
    case OpReorder(id, other) => ReorderKept(t, id, other, n);
    case OpSubmit(_) => RestKept(t, now, op, n);
    case OpRemove(_) => RestKept(t, now, op, n);
    case OpRemoveAll => RestKept(t, now, op, n);
    case OpClear => RestKept(t, now, op, n);
    case _ => RunningKept(t, now, op, n);
  }

  /** The row exists in every state of the run. */
  ghost predicate ExistsThroughout(t: Table, run: Run, n: int)
    decreases |run|
  {
    n in t.rows && (run == [] || ExistsThroughout(Apply(t, run[0].0, run[0].1), run[1..], n))
  }

  lemma KeptCommand(t: Table, op: Op, n: int, a: Row, b: Row)
    requires n in t.rows && Kept(t, op, n, a, b)
    ensures b.command == a.command && b.createdAt == a.createdAt
  {
  }

  /** For as long as a local job exists, whatever happens to it, its command and creation time stay. */
  lemma {:induction false} CommandNeverChanges(t: Table, run: Run, n: int)
    requires Valid(t) && ExistsThroughout(t, run, n)
    ensures n in Execute(t, run).rows && Execute(t, run).rows[n].command == t.rows[n].command
    ensures Execute(t, run).rows[n].createdAt == t.rows[n].createdAt
    decreases |run|
  {
    if run != [] {
      var next := Apply(t, run[0].0, run[0].1);
      RowsKept(t, run[0].0, run[0].1, n);
      KeptCommand(t, run[0].1, n, t.rows[n], next.rows[n]);
      OperationIsListOp(t, run[0].0, run[0].1);
      CommandNeverChanges(next, run[1..], n);
    }
  }

  // ---------- What each operation writes, and when it succeeds ----------

  /** A command is refused for exactly these reasons, in this order; otherwise one fresh row is added. */
  lemma SubmitWrites(t: Table, now: Time, command: seq<string>)
    requires Valid(t)
    ensures var (t', r) := Submit(t, now, command);
            && (r == Err(EmptyCommand) <==> command == [] || Blank(command[0]))
            && (r == Err(NulInCommand) <==> command != [] && !Blank(command[0]) && HasNul(command))
            && (r == Err(CommandTooLarge) <==> command != [] && !Blank(command[0]) && !HasNul(command) && Large(command))
            && (r.Err? ==> t' == t && r.error in {EmptyCommand, NulInCommand, CommandTooLarge})
            && (r.Ok? ==> r.value == t.last + 1 && r.value !in t.rows && t'.last == r.value &&
                          t'.rows - {r.value} == t.rows - {r.value} && r.value in t'.rows &&
                          var row := t'.rows[r.value];
                          row == Row(Queued, command, now, None, None, "", "", "", None, "", false, row.position))
  {
  }

  predicate Large(command: seq<string>) {
    TotalLength(command) > 262_144 || |command| > 4096
  }

  predicate HasNul(command: seq<string>) {
    exists i :: 0 <= i < |command| && '\0' in command[i]
  }

  /** A claim marks one row running for this worker and touches no other. */
  lemma ClaimWrites(t: Table, now: Time, worker: string, host: string)
    ensures var (t', r) := Claim(t, now, worker, host);
            && (r.None? <==> Pending(t.rows) == map[]) && (r.None? ==> t' == t)
            && (r.Some? ==> r.value in t.rows &&
                            t' == t.(rows := t.rows[r.value := t.rows[r.value].(status := Running, startedAt := Some(now),
                                                                               workerId := worker, hostname := host)]))
  {
    if Pending(t.rows) != map[] { FirstIsFirst(Pending(t.rows)); }
  }

  /** An id that is not well formed, and one that names no running row, are told apart, and change nothing. */
  lemma RunningOnly(t: Table, now: Time, id: string, exitCode: Option<int>, error: string, path: string)
    ensures var running := exists n :: n in t.rows && t.rows[n].status == Running && Names(id, n);
            && (Finish(t, now, id, exitCode, error).1.Ok? <==> running)
            && (Output(t, id, path).1.Ok? <==> running)
            && (RequestCancel(t, id).1.Ok? <==> running)
            && (!running ==> Finish(t, now, id, exitCode, error).0 == t && Output(t, id, path).0 == t && RequestCancel(t, id).0 == t)
            && (!running ==> var e := if LocalSequence(id).None? then InvalidId else NotRunning;
                             Finish(t, now, id, exitCode, error).1 == Err(e) && Output(t, id, path).1 == Err(e) &&
                             RequestCancel(t, id).1 == Err(e))
  {
    var n := LocalSequence(id);
    if n.Some? && n.value in t.rows && t.rows[n.value].status == Running { assert Names(id, n.value); }
  }

  /** An id names a queued row, or the error says why not. */
  lemma QueuedRowTells(t: Table, id: string)
    ensures QueuedRow(t, id).Ok? <==> LocalSequence(id).Some? && LocalSequence(id).value in Pending(t.rows)
    ensures QueuedRow(t, id) == Err(InvalidId) <==> LocalSequence(id).None?
    ensures QueuedRow(t, id) == Err(NoSuchRow) <==> LocalSequence(id).Some? && LocalSequence(id).value !in t.rows
    ensures QueuedRow(t, id).Ok? || QueuedRow(t, id).error in {InvalidId, NoSuchRow, OnlyQueuedReordered}
  {
  }

  /** A reorder writes positions: one below the smallest queued one, or the two positions crosswise. */
  lemma ReorderWritesPositions(t: Table, id: string, other: string)
    ensures var (t', r) := Reorder(t, id, other); var a, b := QueuedRow(t, id), QueuedRow(t, other);
            && (r.Ok? <==> a.Ok? && (other != "" ==> b.Ok?))
            && (r.Err? ==> t' == t && r.error == if a.Err? then a.error else b.error)
            && t'.last == t.last && t'.rows.Keys == t.rows.Keys
            && (r.Ok? && other == "" ==> t'.rows - {a.value} == t.rows - {a.value} &&
                                         forall n :: n in Pending(t.rows) ==> t'.rows[a.value].position < t.rows[n].position)
            && (r.Ok? && other != "" ==> t'.rows - {a.value, b.value} == t.rows - {a.value, b.value} &&
                                         t'.rows[a.value].position == t.rows[b.value].position &&
                                         t'.rows[b.value].position == t.rows[a.value].position)
  {
    if QueuedRow(t, id).Ok? {
      forall n | n in Pending(t.rows) ensures Pending(t.rows)[n] in Pending(t.rows).Values { }
    }
  }

  /** Retry fails only for one id that is malformed, missing or not failed, and counts what it requeued. */
  lemma RetryCounts(t: Table, id: string)
    ensures var (t', r) := Retry(t, id); var n := LocalSequence(id);
            && (r.Ok? <==> id == "" || (n.Some? && n.value in t.rows && t.rows[n.value].status == Failed))
            && (r.Ok? ==> r.value == |RetryTargets(t, id).value| && t'.last == t.last)
            && (r.Ok? && id != "" ==> r.value == 1)
            && (r.Err? ==> t' == t && r.error == if n.None? then InvalidId
                                                 else if n.value in t.rows then OnlyFailedRetried else NoSuchRow)
  {
    if id == "" { assert RetryTargets(t, id).Ok?; }
  }

  /** A retry of all takes every failed row. */
  lemma RetryAllTakesFailed(t: Table, n: int)
    ensures RetryTargets(t, "").Ok?
    ensures n in RetryTargets(t, "").value <==> n in t.rows && t.rows[n].status == Failed
  {
    OrderDistinct(FailedPositions(t.rows));
  }

  lemma RemoveTakesOne(t: Table, id: string)
    ensures var (t', r) := Remove(t, id); var n := LocalSequence(id);
            && (r.Ok? <==> n.Some? && n.value in t.rows && t.rows[n.value].status != Running)
            && (r.Ok? ==> t' == t.(rows := t.rows - {n.value}))
            && (r.Err? ==> t' == t && r.error == if n.None? then InvalidId else NotFoundOrRunning)
  {
  }

  /** Exactly the running rows stay; both counts are right. */
  lemma RemoveAllKeepsRunning(t: Table)
    ensures var (t', removed, kept) := RemoveAll(t);
            && t'.last == t.last && t'.rows.Keys <= t.rows.Keys
            && (forall n :: n in t.rows ==> (n in t'.rows <==> t.rows[n].status == Running))
            && (forall n :: n in t'.rows ==> t'.rows[n] == t.rows[n])
            && kept == |t'.rows| && removed == |t.rows.Keys - t'.rows.Keys|
  {
    assert |RemoveAll(t).0.rows| == |RemoveAll(t).0.rows.Keys|;
  }

  /** Clearing takes away exactly the finished rows; numbers are never used again. */
  lemma ClearTakesFinished(t: Table)
    ensures var t' := Clear(t);
            && t'.last == t.last && t'.rows.Keys <= t.rows.Keys
            && (forall n :: n in t.rows ==> (n in t'.rows <==> t.rows[n].status == Queued || t.rows[n].status == Running))
            && (forall n :: n in t'.rows ==> t'.rows[n] == t.rows[n])
  {
  }
}
