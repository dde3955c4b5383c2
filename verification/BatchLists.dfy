/** Lists of batch targets: first occurrences, reversal, and splitting into successes and failures. */
module BatchLists {
  import opened QueueOrder

  function Members<T(==)>(q: seq<T>): set<T> {
    set i | 0 <= i < |q| :: q[i]
  }

  /** The first occurrence of each target, in argument order. */
  function Distincts<T(==)>(ids: seq<T>): seq<T> {
    if ids == [] then [] else [ids[0]] + Reject(Distincts(ids[1..]), {ids[0]})
  }

  function Reversed<T>(q: seq<T>): seq<T> {
    if q == [] then [] else Reversed(q[1..]) + [q[0]]
  }

  lemma {:induction false} RejectDistinct<T(!new)>(q: seq<T>, s: set<T>)
    requires Distinct(q)
    ensures Distinct(Reject(q, s))
  {
    if q != [] {
      var tail := q[1..];
      RejectDistinct(tail, s);
      RejectMembers(tail, s);
      assert q[0] !in tail;
      assert Reject(q, s) == (if q[0] in s then [] else [q[0]]) + Reject(tail, s);
      assert q[0] !in Reject(tail, s);
    }
  }

  lemma {:induction false} DistinctsOk<T(!new)>(ids: seq<T>)
    ensures Distinct(Distincts(ids))
    ensures forall x :: x in Distincts(ids) <==> x in ids
  {
    if ids != [] {
      var rest := Distincts(ids[1..]);
      DistinctsOk(ids[1..]);
      RejectDistinct(rest, {ids[0]});
      RejectMembers(rest, {ids[0]});
      assert ids[0] !in Reject(rest, {ids[0]});
      forall x ensures x in Distincts(ids) <==> x in ids {
        assert x in ids <==> x == ids[0] || x in ids[1..];
      }
    }
  }

  /** Appending to the list of targets those not seen before is how the loop builds them. */
  lemma {:induction false} DistinctsSnoc<T(!new)>(ids: seq<T>, x: T)
    ensures Distincts(ids + [x]) == if x in ids then Distincts(ids) else Distincts(ids) + [x]
  {
    if ids == [] {
      assert [x][1..] == [];
      assert Distincts([x]) == [x] + Reject([], {x});
    } else {
      var tail, h := ids[1..], ids[0];
      assert (ids + [x])[1..] == tail + [x];
      DistinctsSnoc(tail, x);
      RejectConcat(Distincts(tail), [x], {h});
      assert x in ids <==> x == h || x in tail;
      assert Reject([x], {h}) == if x == h then [] else [x] by { assert [x][1..] == []; }
    }
  }

  lemma {:induction false} SelectConcat<T>(q: seq<T>, r: seq<T>, s: set<T>)
    ensures Select(q + r, s) == Select(q, s) + Select(r, s)
  {
    if q == [] {
      assert q + r == r;
    } else {
      SelectConcat(q[1..], r, s);
      assert (q + r)[1..] == q[1..] + r && (q + r)[0] == q[0];
      var head := if q[0] in s then [q[0]] else [];
      assert head + (Select(q[1..], s) + Select(r, s)) == head + Select(q[1..], s) + Select(r, s);
    }
  }

  lemma SplitOne<T>(x: T, s: set<T>)
    ensures Select([x], s) == if x in s then [x] else []
    ensures Reject([x], s) == if x in s then [] else [x]
  {
    assert [x][1..] == [];
  }

  lemma {:induction false} SplitReversed<T>(q: seq<T>, s: set<T>)
    ensures Select(Reversed(q), s) == Reversed(Select(q, s))
    ensures Reject(Reversed(q), s) == Reversed(Reject(q, s))
  {
    if q != [] {
      SplitReversed(q[1..], s);
      SelectConcat(Reversed(q[1..]), [q[0]], s);
      RejectConcat(Reversed(q[1..]), [q[0]], s);
      SplitOne(q[0], s);
      ReversedConcat(if q[0] in s then [q[0]] else [], Select(q[1..], s));
      ReversedConcat(if q[0] in s then [] else [q[0]], Reject(q[1..], s));
      ReversedOne(q[0]);
    }
  }

  lemma ReversedOne<T>(x: T)
    ensures Reversed([x]) == [x]
  {
    assert [x][1..] == [];
  }

  lemma {:induction false} ReversedConcat<T>(q: seq<T>, r: seq<T>)
    ensures Reversed(q + r) == Reversed(r) + Reversed(q)
  {
    if q == [] {
      assert q + r == r;
    } else {
      assert (q + r)[1..] == q[1..] + r;
      ReversedConcat(q[1..], r);
    }
  }

  lemma {:induction false} ReversedOk<T(!new)>(q: seq<T>)
    ensures |Reversed(q)| == |q|
    ensures forall i :: 0 <= i < |q| ==> Reversed(q)[i] == q[|q| - 1 - i]
    ensures Distinct(q) ==> Distinct(Reversed(q))
    ensures forall x :: x in Reversed(q) <==> x in q
  {
    if q != [] {
      ReversedOk(q[1..]);
      forall x ensures x in Reversed(q) <==> x in q {
        assert x in q <==> x == q[0] || x in q[1..];
      }
    }
  }

  /** succeeded and failed split the targets done so far, both in the order they were done. */
  ghost predicate Splits<T>(done: seq<T>, succeeded: seq<T>, failed: seq<T>) {
    succeeded == Select(done, Members(succeeded)) && failed == Reject(done, Members(succeeded))
  }

  lemma SplitsEmpty<T>()
    ensures Splits<T>([], [], [])
  {
  }

  lemma SplitsSnoc<T(!new)>(done: seq<T>, x: T, succeeded: seq<T>, failed: seq<T>)
    requires Splits(done, succeeded, failed) && x !in done
    ensures Splits(done + [x], succeeded + [x], failed)
    ensures Splits(done + [x], succeeded, failed + [x])
  {
    var old_, new_ := Members(succeeded), Members(succeeded + [x]);
    SelectMembers(done, old_);
    forall y | y in old_ ensures y in done { assert y in succeeded; }
    assert (succeeded + [x])[|succeeded|] == x;
    forall y | y in old_ ensures y in new_ {
      var i :| 0 <= i < |succeeded| && succeeded[i] == y;
      assert (succeeded + [x])[i] == y;
    }
    assert new_ == old_ + {x};
    AbsentDoesNotMatter(done, old_, x);
    SelectConcat(done, [x], new_);
    RejectConcat(done, [x], new_);
    SelectConcat(done, [x], old_);
    RejectConcat(done, [x], old_);
    SplitOne(x, new_);
    SplitOne(x, old_);
  }

  lemma {:induction false} AbsentDoesNotMatter<T>(q: seq<T>, s: set<T>, x: T)
    requires x !in q
    ensures Select(q, s + {x}) == Select(q, s) && Reject(q, s + {x}) == Reject(q, s)
  {
    if q != [] {
      assert x != q[0] && x !in q[1..];
      AbsentDoesNotMatter(q[1..], s, x);
    }
  }

  lemma SplitsReversed<T>(done: seq<T>, succeeded: seq<T>, failed: seq<T>)
    requires Splits(Reversed(done), succeeded, failed)
    ensures Splits(done, Reversed(succeeded), Reversed(failed))
  {
    MembersReversed(succeeded);
    SplitReversed(done, Members(succeeded));
    ReversedTwice(Select(done, Members(succeeded)));
    ReversedTwice(Reject(done, Members(succeeded)));
  }

  lemma {:induction false} ReversedTwice<T>(q: seq<T>)
    ensures Reversed(Reversed(q)) == q
  {
    if q != [] {
      ReversedTwice(q[1..]);
      ReversedConcat(Reversed(q[1..]), [q[0]]);
      ReversedOne(q[0]);
    }
  }

  lemma {:induction false} MembersReversed<T>(q: seq<T>)
    ensures Members(Reversed(q)) == Members(q)
  {
    if q != [] {
      MembersReversed(q[1..]);
      MembersConcat(Reversed(q[1..]), [q[0]]);
      MembersConcat([q[0]], q[1..]);
      assert q == [q[0]] + q[1..];
    }
  }

  lemma MembersConcat<T>(q: seq<T>, r: seq<T>)
    ensures Members(q + r) == Members(q) + Members(r)
  {
    forall x | x in Members(q) + Members(r) ensures x in Members(q + r) {
      if x in Members(q) {
        var i :| 0 <= i < |q| && q[i] == x;
        assert (q + r)[i] == x;
      } else {
        var i :| 0 <= i < |r| && r[i] == x;
        assert (q + r)[|q| + i] == x;
      }
    }
  }

  lemma {:induction false} RejectLead(lead: seq<int>, rest: seq<int>, id: int)
    requires id !in lead
    ensures ToFront(lead + rest, id) == [id] + lead + Reject(rest, {id})
  {
    RejectConcat(lead, rest, {id});
    RejectNothing(lead, {id});
  }

  lemma MembersSnoc<T>(q: seq<T>, id: T)
    ensures Members(q + [id]) == Members(q) + {id}
  {
    MembersConcat(q, [id]);
    assert Members([id]) == {id} by { assert [id][0] in Members([id]); }
  }

  /** After an urgent target is handled, the targets accepted so far lead the queue. */
  lemma UrgentProgress(queue: seq<int>, id: int, first: seq<int>, succeeded: seq<int>)
    requires queue == Reversed(succeeded) + Reject(first, Members(succeeded)) && id !in succeeded
    ensures ToFront(queue, id) == Reversed(succeeded + [id]) + Reject(first, Members(succeeded + [id]))
  {
    ReversedOk(succeeded);
    RejectLead(Reversed(succeeded), Reject(first, Members(succeeded)), id);
    RejectTwice(first, Members(succeeded), {id});
    MembersSnoc(succeeded, id);
    ReversedConcat(succeeded, [id]);
    ReversedOne(id);
  }

  lemma NotDoneYet<T(!new)>(todo: seq<T>, i: nat)
    requires Distinct(todo) && i < |todo|
    ensures todo[i] !in todo[..i] && todo[i] !in todo[i + 1..]
    ensures todo[i..] == [todo[i]] + todo[i + 1..] && todo[..i + 1] == todo[..i] + [todo[i]]
  {
  }

  lemma SucceededDone<T(!new)>(done: seq<T>, succeeded: seq<T>, failed: seq<T>)
    requires Splits(done, succeeded, failed)
    ensures forall x :: x in succeeded ==> x in done
  {
    SelectMembers(done, Members(succeeded));
  }

  // ---------- What batches do to a queue ----------

  datatype Action = Urgent | RetryJob | RemoveJob

  function ListStep(q: seq<int>, action: Action, n: int): seq<int> {
    match action
    case Urgent => ToFront(q, n)
    case RetryJob => q + [n]
    case RemoveJob => Reject(q, {n})
  }

  /** The queue after these rows were handled in this order, each with success. */
  function ListAfter(q: seq<int>, action: Action, done: seq<int>): seq<int> {
    match action
    case Urgent => Reversed(done) + Reject(q, Members(done))
    case RetryJob => q + done
    case RemoveJob => Reject(q, Members(done))
  }

  lemma ListAfterNothing(q: seq<int>, action: Action)
    ensures ListAfter(q, action, []) == q
  {
    RejectNothing(q, Members<int>([]));
  }

  lemma ListAfterSnoc(q: seq<int>, action: Action, done: seq<int>, n: int)
    requires n !in done
    ensures ListStep(ListAfter(q, action, done), action, n) == ListAfter(q, action, done + [n])
  {
    match action
    case Urgent => UrgentProgress(ListAfter(q, action, done), n, q, done);
    case RetryJob => assert q + done + [n] == q + (done + [n]);
    case RemoveJob =>
      RejectTwice(q, Members(done), {n});
      MembersSnoc(done, n);
  }

  /** The queue after a batch whose accepted targets, in argument order, are these rows. */
  function BatchQueue(q: seq<int>, action: Action, accepted: seq<int>): seq<int> {
    match action
    case Urgent => accepted + Reject(q, Members(accepted))
    case RetryJob => q + accepted
    case RemoveJob => Reject(q, Members(accepted))
  }

  /** Urgent targets handled backwards end up in argument order. */
  lemma UrgentEnd(q: seq<int>, done: seq<int>)
    ensures ListAfter(q, Urgent, done) == BatchQueue(q, Urgent, Reversed(done))
  {
    MembersReversed(done);
  }

  /** The targets of a list of failures. */
  function Firsts<A, B>(failed: seq<(A, B)>): (r: seq<A>)
    ensures |r| == |failed|
  {
    seq(|failed|, i requires 0 <= i < |failed| => failed[i].0)
  }

  lemma FirstsSnoc<A, B>(failed: seq<(A, B)>, x: (A, B))
    ensures Firsts(failed + [x]) == Firsts(failed) + [x.0]
  {
  }

  lemma {:induction false} FirstsReversed<A(!new), B(!new)>(failed: seq<(A, B)>)
    ensures Firsts(Reversed(failed)) == Reversed(Firsts(failed))
  {
    ReversedOk(failed);
    ReversedOk(Firsts(failed));
  }
}
