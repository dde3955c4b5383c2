/**
 The daemon's local queue as an object that updates its table in place, statement by
 statement (worker/local_queue.go and worker/local_batch.go). Every method is proved to
 leave the table that LocalModel says and to keep Valid.
 */
module LocalQueueObject {
  import opened Wrappers
  import opened QueueOrder
  import opened BatchLists
  import opened LocalModel
  import opened LocalProofs
  import opened LocalBatch

  class LocalQueue {
    var rows: map<int, Row>
    var last: int
    const workerId: string
    const hostname: string

    ghost function State(): Table
      reads this
    {
      Table(rows, last)
    }

    ghost predicate IsValid()
      reads this
    {
      Valid(State())
    }

    constructor (workerId: string, hostname: string)
      ensures IsValid() && State() == Table(map[], 0)
      ensures this.workerId == workerId && this.hostname == hostname
    {
      rows, last := map[], 0;
      this.workerId, this.hostname := workerId, hostname;
    }

    method SubmitJob(now: Time, command: seq<string>) returns (r: Result<int, Error>)
      requires IsValid()
      modifies this
      ensures IsValid() && (State(), r) == Submit(old(State()), now, command)
      ensures r.Ok? ==> r.value !in old(rows) && Queue(State()) == Queue(old(State())) + [r.value]
    {
      SubmitAppends(State(), now, command);
      if |command| == 0 || Blank(command[0]) {
        return Err(EmptyCommand);
      }
      var size := 0;
      var i := 0;
      while i < |command|
        invariant 0 <= i <= |command|
        invariant forall k :: 0 <= k < i ==> '\0' !in command[k]
        invariant size + TotalLength(command[i..]) == TotalLength(command)
      {
        if '\0' in command[i] {
          return Err(NulInCommand);
        }
        assert command[i..][1..] == command[i + 1..];
        size := size + Utf8Length(command[i]);
        i := i + 1;
      }
      assert command[i..] == [];
      if size > 256 * 1024 || |command| > 4096 {
        return Err(CommandTooLarge);
      }
      last := last + 1;
      rows := rows[last := NewRow(command, now, MaxOrZero(AllPositions(rows)) + 1)];
      r := Ok(last);
    }

    method ClaimJob(now: Time) returns (r: Option<int>)
      requires IsValid()
      modifies this
      ensures IsValid() && (State(), r) == Claim(old(State()), now, workerId, hostname)
      ensures r == if Queue(old(State())) == [] then None else Some(Queue(old(State()))[0])
      ensures r.Some? ==> r.value in old(rows) && r.value in rows && rows[r.value].status == Running &&
                          rows[r.value].workerId == workerId && rows[r.value].hostname == hostname &&
                          rows[r.value].command == old(rows)[r.value].command
    {
      ClaimPops(State(), now, workerId, hostname);
      var queued := Pending(rows);
      if queued == map[] {
        return None;
      }
      var n := First(queued);
      FirstIsFirst(queued);
      rows := rows[n := rows[n].(status := Running, startedAt := Some(now), workerId := workerId, hostname := hostname)];
      r := Some(n);
    }

    /** The row that an update of a running job may change. */
    method FindRunning(id: string) returns (r: Result<int, Error>)
      ensures r == RunningRow(State(), id)
      ensures r.Ok? ==> r.value in rows && rows[r.value].status == Running && LocalSequence(id) == Some(r.value)
    {
      var n := LocalSequence(id);
      if n.None? {
        return Err(InvalidId);
      }
      if n.value in rows && rows[n.value].status == Running {
        r := Ok(n.value);
      } else {
        r := Err(NotRunning);
      }
    }

    method SetOutput(id: string, path: string) returns (r: Result<(), Error>)
      requires IsValid()
      modifies this
      ensures IsValid() && (State(), r) == Output(old(State()), id, path)
    {
      QuietOperation(State(), 0, OpOutput(id, path));
      var found := FindRunning(id);
      if found.Err? {
        return Err(found.error);
      }
      rows := rows[found.value := rows[found.value].(outputPath := path)];
      r := Ok(());
    }

    method FinishJob(now: Time, id: string, exitCode: Option<int>, error: string) returns (r: Result<(), Error>)
      requires IsValid()
      modifies this
      ensures IsValid() && (State(), r) == Finish(old(State()), now, id, exitCode, error)
    {
      QuietOperation(State(), now, OpFinish(id, exitCode, error));
      var status := Failed;
      if exitCode.Some? && exitCode.value == 0 && error == "" {
        status := Succeeded;
      }
      var found := FindRunning(id);
      if found.Err? {
        return Err(found.error);
      }
      rows := rows[found.value := rows[found.value].(status := status, finishedAt := Some(now), exitCode := exitCode, error := error)];
      r := Ok(());
    }

    method RecoverJobs(now: Time)
      requires IsValid()
      modifies this
      ensures IsValid() && State() == Recover(old(State()), now)
      ensures forall n :: n in rows ==> rows[n].status != Running
    {
      QuietOperation(State(), now, OpRecover);
      rows := RecoveredRows(rows, now);
    }

    method CancelJob(id: string) returns (r: Result<(), Error>)
      requires IsValid()
      modifies this
      ensures IsValid() && (State(), r) == RequestCancel(old(State()), id)
    {
      QuietOperation(State(), 0, OpRequestCancel(id));
      var found := FindRunning(id);
      if found.Err? {
        return Err(found.error);
      }
      rows := rows[found.value := rows[found.value].(cancelRequested := true)];
      r := Ok(());
    }

    /** The position of a queued row, and the errors of asking for any other. */
    method QueuedPosition(n: int) returns (r: Result<int, Error>)
      ensures r.Ok? <==> IsQueued(State(), n)
      ensures r.Ok? ==> n in rows && r.value == rows[n].position
      ensures r.Err? ==> r.error == if n in rows then OnlyQueuedReordered else NoSuchRow
    {
      if n !in rows {
        return Err(NoSuchRow);
      }
      if rows[n].status != Queued {
        return Err(OnlyQueuedReordered);
      }
      r := Ok(rows[n].position);
    }

    method ReorderJob(id: string, other: string) returns (r: Result<(), Error>)
      requires IsValid()
      modifies this
      ensures IsValid() && (State(), r) == Reorder(old(State()), id, other)
      ensures Queue(State()) == ApplyList(Queue(old(State())), Effect(old(State()), OpReorder(id, other)))
    {
      ReorderIsListOp(State(), id, other);
      var first := LocalSequence(id);
      if first.None? {
        return Err(InvalidId);
      }
      var a := QueuedPosition(first.value);
      if a.Err? {
        return Err(a.error);
      }
      if other == "" {
        assert first.value in Pending(rows) && Pending(rows)[first.value] in Pending(rows).Values;
        rows := rows[first.value := rows[first.value].(position := Min(Pending(rows).Values) - 1)];
      } else {
        var second := LocalSequence(other);
        if second.None? {
          return Err(InvalidId);
        }
        var b := QueuedPosition(second.value);
        if b.Err? {
          return Err(b.error);
        }
        rows := rows[second.value := rows[second.value].(position := a.value)];
        rows := rows[first.value := rows[first.value].(position := b.value)];
      }
      r := Ok(());
    }

    method RemoveJob(id: string) returns (r: Result<(), Error>)
      requires IsValid()
      modifies this
      ensures IsValid() && (State(), r) == Remove(old(State()), id)
      ensures r.Ok? <==> LocalSequence(id).Some? && LocalSequence(id).value in old(rows) && LocalSequence(id).value !in rows
    {
      RemoveDrops(State(), id);
      var n := LocalSequence(id);
      if n.None? {
        return Err(InvalidId);
      }
      if n.value in rows && rows[n.value].status != Running {
        rows := rows - {n.value};
        r := Ok(());
      } else {
        r := Err(NotFoundOrRunning);
      }
    }

    method RemoveAllJobs() returns (removed: nat, keptRunning: nat)
      requires IsValid()
      modifies this
      ensures IsValid() && (State(), removed, keptRunning) == RemoveAll(old(State()))
      ensures removed + keptRunning == |old(rows)| && keptRunning == |rows| && Queue(State()) == []
    {
      RemoveAllDrops(State());
      var left := RunningRows(rows);
      removed, keptRunning := |rows.Keys - left.Keys|, |left.Keys|;
      assert rows.Keys == (rows.Keys - left.Keys) + left.Keys;
      rows := left;
    }

    /** The rows a retry requeues, in the order in which it does. */
    method FailedTargets(id: string) returns (r: Result<seq<int>, Error>)
      ensures r == RetryTargets(State(), id)
    {
      if id == "" {
        return Ok(Order(FailedPositions(rows)));
      }
      var n := LocalSequence(id);
      if n.None? {
        return Err(InvalidId);
      }
      if n.value !in rows {
        return Err(NoSuchRow);
      }
      if rows[n.value].status != Failed {
        return Err(OnlyFailedRetried);
      }
      r := Ok([n.value]);
    }

    /** Requeues rows one statement at a time, each one past the largest position of the moment. */
    method Requeue(targets: seq<int>)
      requires forall i :: 0 <= i < |targets| ==> targets[i] in rows
      modifies this
      ensures State() == old(State()).(rows := RequeueAll(old(rows), targets))
    {
      var i := 0;
      while i < |targets|
        invariant 0 <= i <= |targets| && last == old(last) && rows.Keys == old(rows).Keys
        invariant RequeueAll(rows, targets[i..]) == RequeueAll(old(rows), targets)
      {
        var n := targets[i];
        assert targets[i..][0] == n && targets[i..][1..] == targets[i + 1..];
        rows := rows[n := Requeued(rows[n], NextPosition(rows))];
        i := i + 1;
      }
      assert targets[i..] == [];
    }

    method RetryJobs(id: string) returns (r: Result<nat, Error>)
      requires IsValid()
      modifies this
      ensures IsValid() && (State(), r) == Retry(old(State()), id)
      ensures r.Ok? ==> Queue(State()) == Queue(old(State())) + RetryTargets(old(State()), id).value
    {
      RetryAppends(State(), id);
      RetryTargetsFailed(State(), id);
      var targets := FailedTargets(id);
      if targets.Err? {
        return Err(targets.error);
      }
      Requeue(targets.value);
      r := Ok(|targets.value|);
    }

    method ClearFinished()
      requires IsValid()
      modifies this
      ensures IsValid() && State() == Clear(old(State()))
    {
      QuietOperation(State(), 0, OpClear);
      rows := Unfinished(rows);
    }

    /** One operation of a batch, on one target. */
    method ActOn(now: Time, action: Action, id: string) returns (r: Result<(), Error>)
      requires IsValid() && id != ""
      modifies this
      ensures IsValid() && State() == Apply(old(State()), now, OpFor(action, id))
      ensures r.Ok? <==> Admits(old(State()), action, id)
      ensures r.Err? ==> Refuses(old(State()), action, id, r.error)
    {
      match action {
        case Urgent =>
          UrgentOutcome(State(), now, id);
          r := ReorderJob(id, "");
        case RetryJob =>
          RetryOutcome(State(), now, id);
          var counted := RetryJobs(id);
          r := if counted.Ok? then Ok(()) else Err(counted.error);
        case RemoveJob =>
          RemoveOutcome(State(), now, id);
          r := RemoveJob(id);
      }
    }

    /** Checks the targets and keeps the first of each, in argument order. */
    method UniqueTargets(ids: seq<string>) returns (r: Result<seq<string>, Error>)
      ensures r == if TargetsError(ids).Some? then Err(TargetsError(ids).value) else Ok(Distincts(TrimmedAll(ids)))
    {
      if |ids| == 0 || |ids| > 100 {
        return Err(BadTargetCount);
      }
      var unique: seq<string> := [];
      var seen: set<string> := {};
      var i := 0;
      while i < |ids|
        invariant 0 <= i <= |ids|
        invariant forall k :: 0 <= k < i ==> !BadId(ids[k])
        invariant unique == Distincts(TrimmedAll(ids[..i]))
        invariant forall id :: id in seen <==> id in TrimmedAll(ids[..i])
      {
        var id := Trimmed(ids[i]);
        if id == "" || Utf8Length(id) > 4096 {
          assert BadId(ids[i]);
          return Err(BadTarget);
        }
        assert TrimmedAll(ids[..i + 1]) == TrimmedAll(ids[..i]) + [id];
        DistinctsSnoc(TrimmedAll(ids[..i]), id);
        if id !in seen {
          seen := seen + {id};
          unique := unique + [id];
        }
        i := i + 1;
      }
      assert ids[..i] == ids;
      r := Ok(unique);
    }

    /**
     A batch of targets: a bad list or action changes nothing; otherwise each distinct
     target is one transaction, and a rejected target stops nothing.
     */
    method BatchJobs(ids: seq<string>, name: string, clock: nat -> Time)
      returns (r: Result<(seq<string>, seq<(string, Error)>), Error>)
      requires IsValid()
      modifies this
      ensures IsValid()
      ensures r.Err? <==> TargetsError(ids).Some? || ActionNamed(name).None?
      ensures r.Err? ==> State() == old(State()) &&
                         r.error == if TargetsError(ids).Some? then TargetsError(ids).value else UnknownAction
      ensures r.Ok? ==> BatchResult(old(State()), State(), ids, ActionNamed(name).value, r.value.0, r.value.1)
    {
      var checked := UniqueTargets(ids);
      if checked.Err? {
        return Err(checked.error);
      }
      var action := ActionNamed(name);
      if action.None? {
        return Err(UnknownAction);
      }
      var todo := checked.value;
      TodoFacts(ids, action.value);
      if action.value.Urgent? {
        todo := Reversed(todo);
      }
      var succeeded, failed := ActOnAll(todo, action.value, clock);
      ghost var succeeded1, failed1 := succeeded, failed;
      if action.value.Urgent? {
        succeeded, failed := Reversed(succeeded), Reversed(failed);
      }
      BatchEnd(old(State()), State(), ids, action.value, succeeded1, failed1, succeeded, failed);
      r := Ok((succeeded, failed));
    }

    method ActOnAll(todo: seq<string>, action: Action, clock: nat -> Time)
      returns (succeeded: seq<string>, failed: seq<(string, Error)>)
      requires IsValid() && Distinct(todo) && forall i :: 0 <= i < |todo| ==> todo[i] != ""
      modifies this
      ensures IsValid() && BatchAt(old(State()), State(), todo, |todo|, action, succeeded, failed)
    {
      succeeded, failed := [], [];
      ghost var t0 := State();
      BatchStart(t0, todo, action);
      var i := 0;
      while i < |todo|
        invariant 0 <= i <= |todo|
        invariant BatchAt(t0, State(), todo, i, action, succeeded, failed)
      {
        succeeded, failed := ActOnNext(t0, todo, i, action, clock(i), succeeded, failed);
        i := i + 1;
      }
    }

    /** One round of the batch loop. */
    method ActOnNext(ghost t0: Table, todo: seq<string>, i: nat, action: Action, now: Time,
                     done: seq<string>, rejected: seq<(string, Error)>)
      returns (succeeded: seq<string>, failed: seq<(string, Error)>)
      requires i < |todo| && Distinct(todo) && todo[i] != "" && BatchAt(t0, State(), todo, i, action, done, rejected)
      modifies this
      ensures BatchAt(t0, State(), todo, i + 1, action, succeeded, failed)
    {
      var r := ActOn(now, action, todo[i]);
      succeeded, failed := done, rejected;
      if r.Ok? {
        succeeded := done + [todo[i]];
      } else {
        failed := rejected + [(todo[i], r.error)];
      }
      BatchStep(t0, old(State()), State(), now, todo, i, action, done, rejected, r, succeeded, failed);
    }
  }

  lemma TodoFacts(ids: seq<string>, action: Action)
    requires TargetsError(ids).None?
    ensures Distinct(Todo(ids, action)) && forall i :: 0 <= i < |Todo(ids, action)| ==> Todo(ids, action)[i] != ""
  {
    DistinctsOk(TrimmedAll(ids));
    ReversedOk(Distincts(TrimmedAll(ids)));
    forall i | 0 <= i < |Todo(ids, action)| ensures Todo(ids, action)[i] != "" {
      var id := Todo(ids, action)[i];
      assert id in Todo(ids, action) && id in TrimmedAll(ids);
      var k :| 0 <= k < |ids| && TrimmedAll(ids)[k] == id;
      assert !BadId(ids[k]);
    }
  }
}
