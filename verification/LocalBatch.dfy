/** One local operation applied to many job ids (worker/local_batch.go), as a change of the table. */
module LocalBatch {
  import opened Wrappers
  import opened QueueOrder
  import opened BatchLists
  import opened LocalModel
  import opened LocalProofs

  function ActionNamed(name: string): Option<Action> {
    if name == "urgent" then Some(Urgent)
    else if name == "retry" then Some(RetryJob)
    else if name == "remove" then Some(RemoveJob)
    else None
  }

  function OpFor(action: Action, id: string): Op {
    match action
    case Urgent => OpReorder(id, "")
    case RetryJob => OpRetry(id)
    case RemoveJob => OpRemove(id)
  }

  // ---------- Checking the targets ----------

  function TrimLeft(s: string): string {
    if s != "" && IsSpace(s[0]) then TrimLeft(s[1..]) else s
  }

  function TrimRight(s: string): string
    decreases |s|
  {
    if s != "" && IsSpace(s[|s| - 1]) then TrimRight(s[..|s| - 1]) else s
  }

  function Trimmed(s: string): string {
    TrimRight(TrimLeft(s))
  }

  lemma {:induction false} TrimLeftCuts(s: string) returns (cut: string)
    ensures Blank(cut) && s == cut + TrimLeft(s)
    ensures TrimLeft(s) == "" || !IsSpace(TrimLeft(s)[0])
  {
    cut := "";
    if s != "" && IsSpace(s[0]) {
      var rest := TrimLeftCuts(s[1..]);
      cut := [s[0]] + rest;
    }
  }

  lemma {:induction false} TrimRightCuts(s: string) returns (cut: string)
    ensures Blank(cut) && s == TrimRight(s) + cut
    ensures TrimRight(s) == "" || !IsSpace(TrimRight(s)[|TrimRight(s)| - 1])
    decreases |s|
  {
    cut := "";
    if s != "" && IsSpace(s[|s| - 1]) {
      var rest := TrimRightCuts(s[..|s| - 1]);
      cut := rest + [s[|s| - 1]];
    }
  }

  ghost predicate NoSpaceAtEnds(s: string) {
    s == "" || (!IsSpace(s[0]) && !IsSpace(s[|s| - 1]))
  }

  /** Trimming cuts white space and nothing else from both ends, and leaves none there. */
  lemma TrimmedCuts(s: string) returns (front: string, back: string)
    ensures Blank(front) && Blank(back) && s == front + Trimmed(s) + back && NoSpaceAtEnds(Trimmed(s))
  {
    front := TrimLeftCuts(s);
    back := TrimRightCuts(TrimLeft(s));
    if Trimmed(s) != "" { assert TrimLeft(s)[0] == Trimmed(s)[0]; }
  }

  predicate BadId(id: string) {
    Trimmed(id) == "" || Utf8Length(Trimmed(id)) > 4096
  }

  function TrimmedAll(ids: seq<string>): (r: seq<string>)
    ensures |r| == |ids|
  {
    seq(|ids|, i requires 0 <= i < |ids| => Trimmed(ids[i]))
  }

  function TargetsError(ids: seq<string>): Option<Error> {
    if |ids| == 0 || |ids| > 100 then Some(BadTargetCount)
    else if exists i :: 0 <= i < |ids| && BadId(ids[i]) then Some(BadTarget)
    else None
  }

  // ---------- One target ----------

  predicate Admits(t: Table, action: Action, id: string) {
    LocalSequence(id).Some? && LocalSequence(id).value in t.rows &&
    var status := t.rows[LocalSequence(id).value].status;
    match action
    case Urgent => status == Queued
    case RetryJob => status == Failed
    case RemoveJob => status != Running
  }

  /** The row an id names; 0 is no row's number. */
  function RowOf(id: string): int {
    match LocalSequence(id)
    case None => 0
    case Some(n) => n
  }

  function RowsOf(ids: seq<string>): (r: seq<int>)
    ensures |r| == |ids|
  {
    seq(|ids|, i requires 0 <= i < |ids| => RowOf(ids[i]))
  }

  lemma RowsOfSnoc(ids: seq<string>, id: string)
    ensures RowsOf(ids + [id]) == RowsOf(ids) + [RowOf(id)]
  {
  }

  lemma {:induction false} RowsOfReversed(ids: seq<string>)
    ensures RowsOf(Reversed(ids)) == Reversed(RowsOf(ids))
  {
    if ids != [] {
      RowsOfReversed(ids[1..]);
      RowsOfSnoc(Reversed(ids[1..]), ids[0]);
      assert RowsOf(ids)[1..] == RowsOf(ids[1..]);
    }
  }

  /** Every target the queue accepts names a row, and different ones name different rows. */
  lemma NewRowOf(ids: seq<string>, id: string)
    requires LocalSequence(id).Some? && id !in ids
    ensures RowOf(id) !in RowsOf(ids)
  {
    LocalSequenceInvertsId(id, RowOf(id));
    forall i | 0 <= i < |ids| ensures RowsOf(ids)[i] != RowOf(id) {
      if RowsOf(ids)[i] == RowOf(id) { LocalSequenceInjective(ids[i], id); }
    }
  }

  /** An operation accepts a target exactly if the row's status admits it. */
  lemma UrgentOutcome(t: Table, now: Time, id: string)
    ensures Apply(t, now, OpFor(Urgent, id)) == Reorder(t, id, "").0
    ensures Reorder(t, id, "").1.Ok? <==> Admits(t, Urgent, id)
  {
  }

  lemma RetryOutcome(t: Table, now: Time, id: string)
    requires id != ""
    ensures Apply(t, now, OpFor(RetryJob, id)) == Retry(t, id).0
    ensures Retry(t, id).1.Ok? <==> Admits(t, RetryJob, id)
  {
    OneTarget(t, id);
  }

  lemma OneTarget(t: Table, id: string)
    requires id != ""
    ensures if Admits(t, RetryJob, id) then RetryTargets(t, id) == Ok([RowOf(id)]) else RetryTargets(t, id).Err?
  {
  }

  lemma RemoveOutcome(t: Table, now: Time, id: string)
    ensures Apply(t, now, OpFor(RemoveJob, id)) == Remove(t, id).0
    ensures Remove(t, id).1.Ok? <==> Admits(t, RemoveJob, id)
  {
  }

  lemma RejectedUnchanged(t: Table, now: Time, action: Action, id: string)
    requires !Admits(t, action, id) && id != ""
    ensures Apply(t, now, OpFor(action, id)) == t
  {
  }

  lemma RetryOne(t: Table, now: Time, id: string)
    requires id != "" && Admits(t, RetryJob, id)
    ensures Apply(t, now, OpRetry(id)).rows == t.rows[RowOf(id) := Requeued(t.rows[RowOf(id)], NextPosition(t.rows))]
  {
    var n := RowOf(id);
    OneTarget(t, id);
    assert [n][1..] == [];
    assert RequeueAll(t.rows, [n]) == t.rows[n := Requeued(t.rows[n], NextPosition(t.rows))];
  }

  /** An operation on one target changes no other row's status. */
  lemma OthersUntouched(t: Table, now: Time, action: Action, id: string, n: int)
    requires id != "" && LocalSequence(id) != Some(n)
    ensures var rows' := Apply(t, now, OpFor(action, id)).rows;
            (n in rows' <==> n in t.rows) && (n in t.rows ==> rows'[n].status == t.rows[n].status)
  {
    if !Admits(t, action, id) {
      RejectedUnchanged(t, now, action, id);
    } else {
      match action
      case Urgent => UrgentOutcome(t, now, id);
      case RetryJob => RetryOne(t, now, id);
      case RemoveJob => RemoveOutcome(t, now, id);
    }
  }

  /** The error with which an operation refuses a target. */
  predicate Refuses(t: Table, action: Action, id: string, e: Error) {
    match action
    case Urgent => Reorder(t, id, "").1 == Err(e)
    case RetryJob => Retry(t, id).1 == Err(e)
    case RemoveJob => Remove(t, id).1 == Err(e)
  }

  /** The row an id names, if any, has the same status in both tables. */
  predicate SameStatus(t: Table, t': Table, id: string) {
    LocalSequence(id).Some? ==>
      var n := LocalSequence(id).value;
      (n in t.rows <==> n in t'.rows) && (n in t.rows && n in t'.rows ==> t'.rows[n].status == t.rows[n].status)
  }

  lemma UrgentRefusal(t: Table, t': Table, id: string, e: Error)
    requires SameStatus(t, t', id)
    ensures Reorder(t, id, "").1 == Err(e) <==> Reorder(t', id, "").1 == Err(e)
  {
    assert Reorder(t, id, "").1.Err? <==> QueuedRow(t, id).Err?;
    assert Reorder(t', id, "").1.Err? <==> QueuedRow(t', id).Err?;
    assert QueuedRow(t, id) == QueuedRow(t', id);
  }

  lemma RetryRefusal(t: Table, t': Table, id: string, e: Error)
    requires SameStatus(t, t', id) && id != ""
    ensures Retry(t, id).1 == Err(e) <==> Retry(t', id).1 == Err(e)
  {
    assert Retry(t, id).1.Err? <==> RetryTargets(t, id).Err?;
    assert Retry(t', id).1.Err? <==> RetryTargets(t', id).Err?;
    assert RetryTargets(t, id) == RetryTargets(t', id);
  }

  /** What an operation makes of a target depends on the row's status alone. */
  lemma StatusDecides(t: Table, t': Table, action: Action, id: string, e: Error)
    requires SameStatus(t, t', id) && id != ""
    ensures Admits(t, action, id) <==> Admits(t', action, id)
    ensures Refuses(t, action, id, e) <==> Refuses(t', action, id, e)
  {
    match action
    case Urgent => UrgentRefusal(t, t', id, e);
    case RetryJob => RetryRefusal(t, t', id, e);
    case RemoveJob =>
  }

  lemma StatusOfOthers(t: Table, t': Table, now: Time, action: Action, id: string, other: string)
    requires id != "" && other != id && t' == Apply(t, now, OpFor(action, id))
    ensures SameStatus(t, t', other)
  {
    if LocalSequence(other).Some? {
      if LocalSequence(id) == LocalSequence(other) { LocalSequenceInjective(id, other); }
      OthersUntouched(t, now, action, id, RowOf(other));
    }
  }

  lemma QueueStep(t: Table, now: Time, action: Action, id: string, t': Table)
    requires Valid(t) && id != "" && Admits(t, action, id) && t' == Apply(t, now, OpFor(action, id))
    ensures Valid(t') && Queue(t') == ListStep(Queue(t), action, RowOf(id))
  {
    match action
    case Urgent =>
      UrgentOutcome(t, now, id);
      UrgentMovesToFront(t, id);
    case RetryJob =>
      RetryOutcome(t, now, id);
      RetryStep(t, id);
    case RemoveJob =>
      RemoveOutcome(t, now, id);
      RemoveStep(t, id);
  }

  lemma RetryStep(t: Table, id: string)
    requires Valid(t) && id != "" && Admits(t, RetryJob, id)
    ensures Valid(Retry(t, id).0) && Queue(Retry(t, id).0) == Queue(t) + [RowOf(id)]
  {
    OneTarget(t, id);
    RetryAppends(t, id);
  }

  lemma RemoveStep(t: Table, id: string)
    requires Valid(t) && Admits(t, RemoveJob, id)
    ensures Valid(Remove(t, id).0) && Queue(Remove(t, id).0) == Reject(Queue(t), {RowOf(id)})
  {
    RemoveDrops(t, id);
    AbsentRejected(t, RowOf(id));
  }

  lemma AbsentRejected(t: Table, n: int)
    ensures IsQueued(t, n) || Reject(Queue(t), {n}) == Queue(t)
  {
    if !IsQueued(t, n) {
      OrderDistinct(Pending(t.rows));
      forall i | 0 <= i < |Queue(t)| ensures Queue(t)[i] != n { assert Queue(t)[i] in Pending(t.rows); }
      RejectNothing(Queue(t), {n});
    }
  }

  // ---------- Many targets ----------

  /** The targets in the order a batch handles them: urgent batches run backwards. */
  function Todo(ids: seq<string>, action: Action): seq<string> {
    if action.Urgent? then Reversed(Distincts(TrimmedAll(ids))) else Distincts(TrimmedAll(ids))
  }

  /** What a batch has achieved when the targets in done are handled and those in rest are not. */
  ghost predicate Progress(t0: Table, t: Table, done: seq<string>, rest: seq<string>, action: Action,
                           succeeded: seq<string>, failed: seq<string>) {
    && Splits(done, succeeded, failed)
    && (forall id :: id in done ==> (id in succeeded <==> Admits(t0, action, id)))
    && (forall id :: id in rest ==> id != "" && SameStatus(t0, t, id))
    && Queue(t) == ListAfter(Queue(t0), action, RowsOf(succeeded))
  }

  lemma SucceededQueue(t0: Table, t: Table, t': Table, now: Time, action: Action, id: string, succeeded: seq<string>, ok: bool)
    requires Valid(t) && id != "" && t' == Apply(t, now, OpFor(action, id)) && id !in succeeded
    requires ok <==> Admits(t, action, id)
    requires Queue(t) == ListAfter(Queue(t0), action, RowsOf(succeeded))
    ensures Valid(t')
    ensures ok ==> Queue(t') == ListAfter(Queue(t0), action, RowsOf(succeeded + [id]))
    ensures !ok ==> Queue(t') == ListAfter(Queue(t0), action, RowsOf(succeeded))
  {
    if ok {
      QueueStep(t, now, action, id, t');
      NewRowOf(succeeded, id);
      ListAfterSnoc(Queue(t0), action, RowsOf(succeeded), RowOf(id));
      RowsOfSnoc(succeeded, id);
    } else {
      RejectedUnchanged(t, now, action, id);
    }
  }

  lemma ProgressStep(t0: Table, t: Table, t': Table, now: Time, done: seq<string>, id: string, rest: seq<string>,
                     action: Action, succeeded: seq<string>, failed: seq<string>, ok: bool,
                     succeeded': seq<string>, failed': seq<string>)
    requires Valid(t) && Progress(t0, t, done, [id] + rest, action, succeeded, failed)
    requires id !in done && id !in rest && id != "" && t' == Apply(t, now, OpFor(action, id))
    requires ok <==> Admits(t, action, id)
    requires ok ==> succeeded' == succeeded + [id] && failed' == failed
    requires !ok ==> succeeded' == succeeded && failed' == failed + [id]
    ensures Valid(t') && Progress(t0, t', done + [id], rest, action, succeeded', failed')
  {
    SplitsSnoc(done, id, succeeded, failed);
    SucceededDone(done, succeeded, failed);
    assert id in [id] + rest;
    StatusDecides(t0, t, action, id, BadTarget);
    forall x | x in rest ensures x != "" && SameStatus(t0, t', x) {
      assert x in [id] + rest;
      StatusOfOthers(t, t', now, action, id, x);
    }
    SucceededQueue(t0, t, t', now, action, id, succeeded, ok);
  }

  /** Each failure carries the error that its target met at the start. */
  ghost predicate AllRefused(t0: Table, action: Action, failed: seq<(string, Error)>) {
    forall f :: f in failed ==> Refuses(t0, action, f.0, f.1)
  }

  ghost predicate BatchAt(t0: Table, t: Table, todo: seq<string>, i: nat, action: Action,
                          succeeded: seq<string>, failed: seq<(string, Error)>)
    requires i <= |todo|
  {
    && Valid(t) && Progress(t0, t, todo[..i], todo[i..], action, succeeded, Firsts(failed))
    && AllRefused(t0, action, failed)
  }

  lemma BatchStart(t: Table, todo: seq<string>, action: Action)
    requires Valid(t) && forall i :: 0 <= i < |todo| ==> todo[i] != ""
    ensures BatchAt(t, t, todo, 0, action, [], [])
  {
    SplitsEmpty<string>();
    ListAfterNothing(Queue(t), action);
    assert todo[..0] == [] && todo[0..] == todo && Firsts<string, Error>([]) == [] && RowsOf([]) == [];
  }

  lemma BatchStep(t0: Table, t: Table, t': Table, now: Time, todo: seq<string>, i: nat, action: Action,
                  succeeded: seq<string>, failed: seq<(string, Error)>, r: Result<(), Error>,
                  succeeded': seq<string>, failed': seq<(string, Error)>)
    requires i < |todo| && Distinct(todo) && todo[i] != "" && BatchAt(t0, t, todo, i, action, succeeded, failed)
    requires t' == Apply(t, now, OpFor(action, todo[i]))
    requires r.Ok? <==> Admits(t, action, todo[i])
    requires r.Ok? ==> succeeded' == succeeded + [todo[i]] && failed' == failed
    requires r.Err? ==> succeeded' == succeeded && failed' == failed + [(todo[i], r.error)] && Refuses(t, action, todo[i], r.error)
    ensures BatchAt(t0, t', todo, i + 1, action, succeeded', failed')
  {
    NotDoneYet(todo, i);
    if r.Err? {
      FirstsSnoc(failed, (todo[i], r.error));
      assert todo[i] in todo[i..];
      StatusDecides(t0, t, action, todo[i], r.error);
    }
    ProgressStep(t0, t, t', now, todo[..i], todo[i], todo[i + 1..], action, succeeded, Firsts(failed), r.Ok?,
                 succeeded', Firsts(failed'));
  }

  /**
   The distinct trimmed targets split into successes and failures, both in argument order;
   a target succeeds exactly if its row's status admitted the action when the batch began;
   and the queue is what BatchQueue says.
   */
  ghost predicate BatchResult(t0: Table, t: Table, ids: seq<string>, action: Action,
                              succeeded: seq<string>, failed: seq<(string, Error)>) {
    && Splits(Distincts(TrimmedAll(ids)), succeeded, Firsts(failed))
    && (forall id :: id in TrimmedAll(ids) ==> (id in succeeded <==> Admits(t0, action, id)))
    && AllRefused(t0, action, failed)
    && Queue(t) == BatchQueue(Queue(t0), action, RowsOf(succeeded))
  }

  /** Reversing the results of an urgent batch brings them back into argument order. */
  lemma BatchEnd(t0: Table, t: Table, ids: seq<string>, action: Action, succeeded: seq<string>, failed: seq<(string, Error)>,
                 succeeded': seq<string>, failed': seq<(string, Error)>)
    requires BatchAt(t0, t, Todo(ids, action), |Todo(ids, action)|, action, succeeded, failed)
    requires action.Urgent? ==> succeeded' == Reversed(succeeded) && failed' == Reversed(failed)
    requires !action.Urgent? ==> succeeded' == succeeded && failed' == failed
    ensures BatchResult(t0, t, ids, action, succeeded', failed')
  {
    var unique, todo := Distincts(TrimmedAll(ids)), Todo(ids, action);
    assert todo[..|todo|] == todo;
    DistinctsOk(TrimmedAll(ids));
    ReversedOk(unique);
    if action.Urgent? {
      SplitsReversed(unique, succeeded, Firsts(failed));
      FirstsReversed(failed);
      ReversedOk(failed);
      ReversedOk(succeeded);
      UrgentEnd(Queue(t0), RowsOf(succeeded));
      RowsOfReversed(succeeded);
    }
  }
}
