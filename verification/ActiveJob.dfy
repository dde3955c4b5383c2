/**
 The job a daemon is executing and the requests to cancel it (worker/active_job.go). The job
 loop activates and deactivates; heartbeats bring requests; a mutex makes each call one step.
 A job's context is named by a number.
 */
module ActiveJob {
  import opened Wrappers

  type Context = nat

  /** cancelled holds the contexts cancelled on behalf of the user. */
  datatype State = State(id: string, cancel: Option<Context>, requestedId: string, cancelled: set<Context>)

  const IDLE := State("", None, "", {})

  datatype Event =
    | Activate(id: string, context: Context, requested: bool)
    | Deactivate(id: string)
    | Request(id: string)

  function Step(s: State, e: Event): State {
    match e
    case Activate(id, context, requested) =>
      State(id, Some(context), s.requestedId,
            if requested || s.requestedId == id then s.cancelled + {context} else s.cancelled)
    case Deactivate(id) =>
      if s.id == id then s.(id := "", cancel := None) else s
    case Request(id) =>
      s.(requestedId := id,
         cancelled := if s.id == id && s.cancel.Some? then s.cancelled + {s.cancel.value} else s.cancelled)
  }

  type Trace = seq<Event>

  function After(events: Trace): State {
    if events == [] then IDLE else Step(After(events[..|events| - 1]), events[|events| - 1])
  }

  // ---------- What a trace says, without the state ----------

  /** The id named by the last request of a trace, or the empty text. */
  function LastRequested(events: Trace): string {
    if events == [] then ""
    else
      var e := events[|events| - 1];
      if e.Request? then e.id else LastRequested(events[..|events| - 1])
  }

  /** The activation at k is in force: nothing was activated since, and its own id not deactivated. */
  ghost predicate InForce(events: Trace, k: int) {
    && 0 <= k < |events| && events[k].Activate?
    && forall m :: k < m < |events| ==> !events[m].Activate? && events[m] != Deactivate(events[k].id)
  }

  ghost predicate RequestedWhileActive(events: Trace, k: int)
    requires 0 <= k < |events| && events[k].Activate?
  {
    exists j :: k < j < |events| && events[j] == Request(events[k].id) && InForce(events[..j], k)
  }

  /** The reasons for which the context activated at k is cancelled. */
  ghost predicate AskedFor(events: Trace, k: int)
    requires 0 <= k < |events| && events[k].Activate?
  {
    events[k].requested || LastRequested(events[..k]) == events[k].id || RequestedWhileActive(events, k)
  }

  /** Every activation brings a context of its own. */
  ghost predicate OwnContexts(events: Trace) {
    forall i, j :: 0 <= i < j < |events| && events[i].Activate? && events[j].Activate? ==>
      events[i].context != events[j].context
  }

  // ---------- The state agrees with the trace ----------

  lemma ForceStep(events: Trace, e: Event, k: int)
    ensures InForce(events + [e], k) <==>
            if e.Activate? then k == |events| else InForce(events, k) && e != Deactivate(events[k].id)
  {
    var more := events + [e];
    assert more[|events|] == e;
    if InForce(events, k) && !e.Activate? && e != Deactivate(events[k].id) {
      forall m | k < m < |more| ensures !more[m].Activate? && more[m] != Deactivate(more[k].id) {
        if m < |events| { assert more[m] == events[m]; }
      }
    }
    if InForce(more, k) && k < |events| {
      forall m | k < m < |events| ensures !events[m].Activate? && events[m] != Deactivate(events[k].id) {
        assert more[m] == events[m];
      }
    }
  }

  ghost predicate Agrees(s: State, events: Trace) {
    && s.requestedId == LastRequested(events)
    && (s.cancel.None? ==> forall k :: !InForce(events, k))
    && (s.cancel.Some? ==> exists k :: InForce(events, k) && events[k].id == s.id && events[k].context == s.cancel.value)
  }

  lemma OneInForce(events: Trace, j: int, k: int)
    requires InForce(events, j) && InForce(events, k)
    ensures j == k
  {
  }

  lemma AgreesStep(s: State, events: Trace, e: Event)
    requires Agrees(s, events)
    ensures Agrees(Step(s, e), events + [e])
  {
    var more := events + [e];
    assert more[..|events|] == events;
    forall k ensures InForce(more, k) <==>
                     if e.Activate? then k == |events| else InForce(events, k) && e != Deactivate(events[k].id)
    {
      ForceStep(events, e, k);
    }
    if e.Activate? {
      assert InForce(more, |events|);
    } else if s.cancel.Some? {
      var k :| InForce(events, k) && events[k].id == s.id && events[k].context == s.cancel.value;
      if e == Deactivate(s.id) {
        forall j ensures !InForce(more, j) {
          if InForce(events, j) { OneInForce(events, j, k); }
        }
      } else {
        assert InForce(more, k);
      }
    }
  }

  lemma {:induction false} StateAgrees(events: Trace)
    ensures Agrees(After(events), events)
  {
    if events != [] {
      var before, e := events[..|events| - 1], events[|events| - 1];
      StateAgrees(before);
      AgreesStep(After(before), before, e);
      assert before + [e] == events;
    }
  }

  // ---------- Exactly who is cancelled ----------

  lemma RequestedStep(events: Trace, e: Event, k: int)
    requires 0 <= k < |events| && events[k].Activate?
    ensures RequestedWhileActive(events + [e], k) <==>
            RequestedWhileActive(events, k) || (e == Request(events[k].id) && InForce(events, k))
  {
    var more, n := events + [e], |events|;
    assert more[..n] == events && more[n] == e;
    forall j | k < j < n ensures more[..j] == events[..j] && more[j] == events[j] { }
    if RequestedWhileActive(events, k) {
      var j :| k < j < n && events[j] == Request(events[k].id) && InForce(events[..j], k);
      assert more[j] == Request(more[k].id) && InForce(more[..j], k);
    }
    if RequestedWhileActive(more, k) {
      var j :| k < j <= n && more[j] == Request(more[k].id) && InForce(more[..j], k);
      if j < n { assert events[j] == Request(events[k].id) && InForce(events[..j], k); }
    }
    if e == Request(events[k].id) && InForce(events, k) {
      assert more[n] == Request(more[k].id) && InForce(more[..n], k);
    }
  }

  /** One more event cancels the context activated at k exactly if it is a request for it while in force. */
  lemma OlderContextStep(events: Trace, e: Event, k: int)
    requires 0 <= k < |events| && events[k].Activate? && OwnContexts(events + [e])
    ensures var s := After(events);
            events[k].context in Step(s, e).cancelled <==>
            events[k].context in s.cancelled || (e == Request(events[k].id) && InForce(events, k))
  {
    var s, more := After(events), events + [e];
    StateAgrees(events);
    assert more[k] == events[k] && more[|events|] == e;
    if s.cancel.Some? {
      var j :| InForce(events, j) && events[j].id == s.id && events[j].context == s.cancel.value;
      assert more[j] == events[j];
      if InForce(events, k) { OneInForce(events, j, k); }
      assert events[j].context == events[k].context ==> j == k;
    }
  }

  lemma {:induction false} CancelledAreOld(events: Trace)
    ensures forall c :: c in After(events).cancelled ==> exists k :: 0 <= k < |events| && events[k].Activate? && events[k].context == c
    ensures After(events).cancel.Some? ==>
              exists k :: 0 <= k < |events| && events[k].Activate? && events[k].context == After(events).cancel.value
  {
    if events != [] {
      var before, n := events[..|events| - 1], |events| - 1;
      CancelledAreOld(before);
      forall c | c in After(events).cancelled || Some(c) == After(events).cancel
        ensures exists k :: 0 <= k < |events| && events[k].Activate? && events[k].context == c
      {
        if c in After(before).cancelled || Some(c) == After(before).cancel {
          var k :| 0 <= k < n && before[k].Activate? && before[k].context == c;
          assert events[k] == before[k];
        } else {
          assert events[n].Activate? && events[n].context == c;
        }
      }
    }
  }

  /**
   For every order of activations, deactivations and requests: a job's context is cancelled by the
   user exactly when it was claimed with the flag set, or the last request before its activation
   named it, or a request named it while it was active. So a request for another id never
   touches it, and a deactivation of another id never shields it.
   */
  lemma {:induction false} CancelledExactlyIfAsked(events: Trace, k: int)
    requires 0 <= k < |events| && events[k].Activate? && OwnContexts(events)
    ensures events[k].context in After(events).cancelled <==> AskedFor(events, k)
  {
    var n := |events| - 1;
    var before, e := events[..n], events[n];
    assert before + [e] == events;
    if k < n {
      forall i, j | 0 <= i < j < n && before[i].Activate? && before[j].Activate? ensures before[i].context != before[j].context {
        assert events[i] == before[i] && events[j] == before[j];
      }
      CancelledExactlyIfAsked(before, k);
      OlderContextStep(before, e, k);
      RequestedStep(before, e, k);
      assert before[..k] == events[..k];
    } else {
      StateAgrees(before);
      forall i | 0 <= i < n && before[i].Activate? ensures before[i].context != e.context { assert events[i] == before[i]; }
      CancelledAreOld(before);
    }
  }

  /** A deactivation of another id changes nothing at all. */
  lemma StaleDeactivate(events: Trace, id: string, k: int)
    requires InForce(events, k) && events[k].id != id
    ensures After(events + [Deactivate(id)]) == After(events)
    ensures InForce(events + [Deactivate(id)], k)
  {
    StateAgrees(events);
    ForceStep(events, Deactivate(id), k);
    var s := After(events);
    var j :| InForce(events, j) && events[j].id == s.id;
    OneInForce(events, j, k);
    assert (events + [Deactivate(id)])[..|events|] == events;
  }

  /**
   The last request is never forgotten: a cancelled job that comes back to the same daemon is
   cancelled again as soon as it is activated, though nobody asked a second time.
   */
  lemma OldRequestCancelsAgain(events: Trace, context: Context)
    requires LastRequested(events) != "" && forall k :: 0 <= k < |events| && events[k].Activate? ==> events[k].context != context
    ensures context in After(events + [Activate(LastRequested(events), context, false)]).cancelled
  {
    var more := events + [Activate(LastRequested(events), context, false)];
    assert more[..|events|] == events;
    StateAgrees(events);
  }

  lemma RetriedJobCancelledAgain() returns (events: Trace)
    ensures events == [Activate("1", 0, false), Request("1"), Deactivate("1"), Activate("1", 1, false)]
    ensures 1 in After(events).cancelled
  {
    var first: Trace := [Activate("1", 0, false), Request("1"), Deactivate("1")];
    assert first[..2][..1] == [Activate("1", 0, false)];
    assert LastRequested(first[..2]) == "1";
    OldRequestCancelsAgain(first, 1);
    events := first + [Activate("1", 1, false)];
  }

  // ---------- The object ----------

  class ActiveJobState {
    var id: string
    var cancel: Option<Context>
    var requestedId: string
    var cancelled: set<Context>

    ghost function Value(): State
      reads this
    {
      State(id, cancel, requestedId, cancelled)
    }

    constructor ()
      ensures Value() == After([])
    {
      id, cancel, requestedId, cancelled := "", None, "", {};
    }

    method CancelContext(context: Context)
      modifies this`cancelled
      ensures cancelled == old(cancelled) + {context}
    {
      cancelled := cancelled + {context};
    }

    method ActivateJob(job: string, context: Context, requested: bool)
      modifies this
      ensures Value() == Step(old(Value()), Activate(job, context, requested))
    {
      id, cancel := job, Some(context);
      if requested || requestedId == job {
        CancelContext(context);
      }
    }

    method DeactivateJob(job: string)
      modifies this
      ensures Value() == Step(old(Value()), Deactivate(job))
    {
      if id == job {
        id, cancel := "", None;
      }
    }

    method RequestCancellation(job: string)
      modifies this
      ensures Value() == Step(old(Value()), Request(job))
    {
      requestedId := job;
      if id == job && cancel.Some? {
        CancelContext(cancel.value);
      }
    }
  }
}
