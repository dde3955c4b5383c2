/**
 First in, first out, on plain lists: when nothing is moved to the front and nothing exchanged,
 jobs leave the head of the list in the order in which they last entered it.
 */
module EntryOrder {
  import opened Wrappers
  import opened QueueOrder

  /** The number under which each job last entered, and the next number. */
  datatype Ledger = Ledger(entered: map<int, nat>, count: nat)

  function Note(l: Ledger, n: int): Ledger {
    Ledger(l.entered[n := l.count], l.count + 1)
  }

  /** Jobs entering the queue take the next numbers, in the order in which they enter. */
  function Enter(l: Ledger, ns: seq<int>): (r: Ledger)
    ensures r.count == l.count + |ns|
    decreases |ns|
  {
    if ns == [] then l else Enter(Note(l, ns[0]), ns[1..])
  }

  function Entering(op: ListOp): seq<int> {
    match op
    case Push(n) => [n]
    case PushAll(ns) => ns
    case _ => []
  }

  /** The list is in the order of its entry numbers. */
  ghost predicate InEntryOrder(q: seq<int>, l: Ledger) {
    && (forall i :: 0 <= i < |q| ==> q[i] in l.entered && l.entered[q[i]] < l.count)
    && (forall i, j :: 0 <= i < j < |q| ==> l.entered[q[i]] < l.entered[q[j]])
  }

  lemma {:induction false} EnterAppends(q: seq<int>, l: Ledger, ns: seq<int>)
    requires InEntryOrder(q, l) && Distinct(q + ns)
    ensures InEntryOrder(q + ns, Enter(l, ns))
    decreases |ns|
  {
    if ns == [] {
      assert q + ns == q;
    } else {
      var n := ns[0];
      assert (q + ns)[|q|] == n;
      forall i | 0 <= i < |q| ensures q[i] != n { assert (q + ns)[i] == q[i]; }
      assert q + [n] + ns[1..] == q + ns;
      EnterAppends(q + [n], Note(l, n), ns[1..]);
    }
  }

  /** Leaving the queue, anywhere in it, keeps the rest in entry order. */
  lemma {:induction false} RejectKeepsOrder(q: seq<int>, s: set<int>, l: Ledger)
    requires InEntryOrder(q, l)
    ensures InEntryOrder(Reject(q, s), l)
  {
    if q != [] {
      assert InEntryOrder(q[1..], l);
      RejectKeepsOrder(q[1..], s, l);
      RejectMembers(q[1..], s);
      HeadEnteredFirst(q, l, Reject(q[1..], s));
      if q[0] !in s { assert Reject(q, s) == [q[0]] + Reject(q[1..], s); }
    }
  }

  lemma HeadEnteredFirst(q: seq<int>, l: Ledger, r: seq<int>)
    requires q != [] && InEntryOrder(q, l) && InEntryOrder(r, l)
    requires forall x :: x in r ==> x in q[1..]
    ensures InEntryOrder([q[0]] + r, l)
  {
    forall i | 0 <= i < |r| ensures l.entered[q[0]] < l.entered[r[i]] {
      assert r[i] in r;
      var k :| 0 <= k < |q[1..]| && q[1..][k] == r[i];
      assert q[k + 1] == r[i];
    }
  }

  // ---------- Runs of plain operations ----------

  /** An operation that moves nothing and exchanges nothing, and claims the head of the list or nothing. */
  ghost predicate FitsOne(q: seq<int>, op: ListOp, claimed: Option<int>) {
    && !op.Front? && !op.Swap? && Distinct(ApplyList(q, op))
    && (claimed.None? || (op.Pop? && q != [] && claimed == Some(q[0])))
  }

  ghost predicate Fits(q: seq<int>, ops: seq<ListOp>, claimed: seq<Option<int>>)
    requires |ops| == |claimed|
    decreases |ops|
  {
    ops == [] || (FitsOne(q, ops[0], claimed[0]) && Fits(ApplyList(q, ops[0]), ops[1..], claimed[1..]))
  }

  lemma FitKeepsEntryOrder(q: seq<int>, op: ListOp, claimed: Option<int>, l: Ledger)
    requires FitsOne(q, op, claimed) && InEntryOrder(q, l)
    ensures InEntryOrder(ApplyList(q, op), Enter(l, Entering(op)))
  {
    match op
    case Push(n) => EnterAppends(q, l, [n]);
    case PushAll(ns) => EnterAppends(q, l, ns);
    case Drop(n) => RejectKeepsOrder(q, {n}, l);
    case Keep =>
    case Pop =>
    case DropAll =>
  }

  // ---------- The log of claims ----------

  function Noted(claimed: Option<int>, l: Ledger, rest: seq<(int, nat)>): seq<(int, nat)> {
    if claimed.Some? && claimed.value in l.entered then [(claimed.value, l.entered[claimed.value])] + rest else rest
  }

  /** For each claim of a run, the job and the number under which it last entered. */
  function ClaimLog(ops: seq<ListOp>, claimed: seq<Option<int>>, l: Ledger): seq<(int, nat)>
    requires |ops| == |claimed|
    decreases |ops|
  {
    if ops == [] then []
    else Noted(claimed[0], l, ClaimLog(ops[1..], claimed[1..], Enter(l, Entering(ops[0]))))
  }

  /** x is the number of a job still in the queue, from the given place on, or of a later entry. */
  ghost predicate Awaits(q: seq<int>, l: Ledger, place: nat, x: nat) {
    l.count <= x || exists k :: place <= k < |q| && q[k] in l.entered && l.entered[q[k]] == x
  }

  ghost predicate Increasing(log: seq<(int, nat)>) {
    forall i, j :: 0 <= i < j < |log| ==> log[i].1 < log[j].1
  }

  /** Each number is of a job waiting from the given place on, or entering later. */
  ghost predicate AllAwait(q: seq<int>, l: Ledger, place: nat, log: seq<(int, nat)>) {
    forall i :: 0 <= i < |log| ==> Awaits(q, l, place, log[i].1)
  }

  /** What waits after a step waited before it (behind the head, if that was taken) or enters later. */
  lemma LaterEntry(q: seq<int>, op: ListOp, claimed: Option<int>, l: Ledger, x: nat)
    requires InEntryOrder(q, l) && FitsOne(q, op, claimed)
    requires Awaits(ApplyList(q, op), Enter(l, Entering(op)), 0, x)
    ensures Awaits(q, l, if claimed.Some? then 1 else 0, x)
  {
    var q', l' := ApplyList(q, op), Enter(l, Entering(op));
    if x < l.count {
      var k :| 0 <= k < |q'| && q'[k] in l'.entered && l'.entered[q'[k]] == x;
      match op
      case Keep =>
      case Push(n) => EnteredBefore(q, l, [n], k);
      case PushAll(ns) => EnteredBefore(q, l, ns, k);
      case Pop => assert q[k + 1] == q'[k];
      case Drop(n) =>
        RejectMembers(q, {n});
        assert q'[k] in q;
      case DropAll =>
    }
  }

  lemma LogStep(q: seq<int>, op: ListOp, claimed: Option<int>, l: Ledger, log: seq<(int, nat)>)
    requires FitsOne(q, op, claimed) && InEntryOrder(q, l)
    requires Increasing(log) && AllAwait(ApplyList(q, op), Enter(l, Entering(op)), 0, log)
    ensures Increasing(Noted(claimed, l, log)) && AllAwait(q, l, 0, Noted(claimed, l, log))
  {
    var place := if claimed.Some? then 1 else 0;
    forall i | 0 <= i < |log| ensures Awaits(q, l, place, log[i].1) && Awaits(q, l, 0, log[i].1) {
      LaterEntry(q, op, claimed, l, log[i].1);
    }
    if claimed.Some? {
      forall i | 0 <= i < |log| ensures l.entered[q[0]] < log[i].1 { assert Awaits(q, l, 1, log[i].1); }
    }
  }

  lemma {:induction false} ClaimsInOrder(q: seq<int>, ops: seq<ListOp>, claimed: seq<Option<int>>, l: Ledger)
    requires |ops| == |claimed| && Fits(q, ops, claimed) && InEntryOrder(q, l)
    ensures Increasing(ClaimLog(ops, claimed, l)) && AllAwait(q, l, 0, ClaimLog(ops, claimed, l))
    decreases |ops|
  {
    if ops != [] {
      var l' := Enter(l, Entering(ops[0]));
      FitKeepsEntryOrder(q, ops[0], claimed[0], l);
      ClaimsInOrder(ApplyList(q, ops[0]), ops[1..], claimed[1..], l');
      LogStep(q, ops[0], claimed[0], l, ClaimLog(ops[1..], claimed[1..], l'));
    }
  }

  /** The jobs claimed. */
  function Somes(claimed: seq<Option<int>>): seq<int> {
    if claimed == [] then [] else Listed(claimed[0], Somes(claimed[1..]))
  }

  function Listed(claimed: Option<int>, rest: seq<int>): seq<int> {
    if claimed.Some? then [claimed.value] + rest else rest
  }

  ghost predicate LogOf(claims: seq<int>, log: seq<(int, nat)>) {
    |log| == |claims| && forall i :: 0 <= i < |claims| ==> log[i].0 == claims[i]
  }

  lemma LogOfStep(q: seq<int>, op: ListOp, claimed: Option<int>, l: Ledger, rest: seq<int>, log: seq<(int, nat)>)
    requires FitsOne(q, op, claimed) && InEntryOrder(q, l) && LogOf(rest, log)
    ensures LogOf(Listed(claimed, rest), Noted(claimed, l, log))
  {
  }

  lemma {:induction false} LogHoldsEveryClaim(q: seq<int>, ops: seq<ListOp>, claimed: seq<Option<int>>, l: Ledger)
    requires |ops| == |claimed| && Fits(q, ops, claimed) && InEntryOrder(q, l)
    ensures LogOf(Somes(claimed), ClaimLog(ops, claimed, l))
    decreases |ops|
  {
    if ops != [] {
      var l' := Enter(l, Entering(ops[0]));
      FitKeepsEntryOrder(q, ops[0], claimed[0], l);
      LogHoldsEveryClaim(ApplyList(q, ops[0]), ops[1..], claimed[1..], l');
      LogOfStep(q, ops[0], claimed[0], l, Somes(claimed[1..]), ClaimLog(ops[1..], claimed[1..], l'));
    }
  }

  // ---------- Entry numbers ----------

  /** A number below the counter belongs to a job that was in the list before the newcomers. */
  lemma {:induction false} EnteredBefore(q: seq<int>, l: Ledger, ns: seq<int>, k: int)
    requires InEntryOrder(q, l) && Distinct(q + ns) && 0 <= k < |q + ns|
    requires (q + ns)[k] in Enter(l, ns).entered && Enter(l, ns).entered[(q + ns)[k]] < l.count
    ensures k < |q| && Enter(l, ns).entered[q[k]] == l.entered[q[k]]
    decreases |ns|
  {
    if ns == [] {
      assert q + ns == q;
    } else {
      var n := ns[0];
      assert (q + ns)[|q|] == n;
      forall i | 0 <= i < |q| ensures q[i] != n { assert (q + ns)[i] == q[i]; }
      assert q + [n] + ns[1..] == q + ns;
      EnterOthers(Note(l, n), ns[1..]);
      if k <= |q| {
        var x := (q + ns)[k];
        forall i | 0 <= i < |ns[1..]| ensures ns[1..][i] != x { assert (q + ns)[|q| + 1 + i] == ns[1..][i]; }
      } else {
        assert Distinct(ns[1..]) by {
          forall i, j | 0 <= i < j < |ns[1..]| ensures ns[1..][i] != ns[1..][j] {
            assert (q + ns)[|q| + 1 + i] == ns[1..][i] && (q + ns)[|q| + 1 + j] == ns[1..][j];
          }
        }
        assert (q + ns)[k] == ns[1..][k - |q| - 1];
        EnterHigh(Note(l, n), ns[1..], k - |q| - 1);
      }
    }
  }

  lemma {:induction false} EnterOthers(l: Ledger, ns: seq<int>)
    ensures forall x :: x in l.entered && x !in ns ==> x in Enter(l, ns).entered && Enter(l, ns).entered[x] == l.entered[x]
    decreases |ns|
  {
    if ns != [] { EnterOthers(Note(l, ns[0]), ns[1..]); }
  }

  lemma {:induction false} EnterHigh(l: Ledger, ns: seq<int>, k: int)
    requires 0 <= k < |ns| && Distinct(ns)
    ensures ns[k] in Enter(l, ns).entered && Enter(l, ns).entered[ns[k]] == l.count + k
    decreases |ns|
  {
    if k == 0 {
      EnterOthers(Note(l, ns[0]), ns[1..]);
      assert ns[0] !in ns[1..];
    } else {
      EnterHigh(Note(l, ns[0]), ns[1..], k - 1);
    }
  }
}
