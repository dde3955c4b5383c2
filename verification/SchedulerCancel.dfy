/** Cancellation requests on the controller: what sets and clears the flag, and whom a heartbeat tells. */
module SchedulerCancel {
  import opened Wrappers
  import opened QueueOrder
  import opened SchedulerModel
  import opened SchedulerInvariant

  /** The flag of a row that an operation leaves in place. */
  predicate FlagAfter(db: Db, now: Time, op: Op, id: JobId)
    requires id in db.jobs
  {
    if op == OpCancel(id) && db.jobs[id].status == Running then true
    else if op.OpRetry? && id in RetryTargets(db, op.which) then false
    else if RunsExpiry(op) && Expires(db.jobs[id], Stale(db, now)) then false
    else db.jobs[id].cancelRequested
  }

  lemma FlagAfterExpiry(db: Db, now: Time, id: JobId, other: JobId)
    requires id in db.jobs
    ensures var flag := if Expires(db.jobs[id], Stale(db, now)) then false else db.jobs[id].cancelRequested;
            && Expire(db, now).jobs[id].cancelRequested == flag
            && (id in Clear(db, now).jobs ==> Clear(db, now).jobs[id].cancelRequested == flag)
            && (id in RemoveAll(db, now).0.jobs ==> RemoveAll(db, now).0.jobs[id].cancelRequested == flag)
            && (id in Remove(db, now, other).0.jobs ==> Remove(db, now, other).0.jobs[id].cancelRequested == flag)
  {
  }

  /**
   Only a cancellation of the running job sets its flag, and only a retry or an expiry of the
   job clears it. In particular a terminal report leaves it set.
   */
  lemma FlagChanges(db: Db, now: Time, op: Op, id: JobId)
    requires Consistent(db) && id in db.jobs && id in Apply(db, now, op).jobs
    ensures Apply(db, now, op).jobs[id].cancelRequested <==> FlagAfter(db, now, op, id)
  {
    match op
    case OpList => FlagAfterExpiry(db, now, id, 0);
    case OpClear => FlagAfterExpiry(db, now, id, 0);
    case OpRemoveAll => FlagAfterExpiry(db, now, id, 0);
    case OpRemove(other) => FlagAfterExpiry(db, now, id, other);
    case OpRetry(which) => RetryRows(db, which);
    case OpClaim(_) => if Pending(db.jobs) != map[] { FirstIsFirst(Pending(db.jobs)); }
    case OpSubmit(_) =>
    case OpReorder(_, _) =>
    case OpCancel(_) =>
    case OpOutput(_, _, _) =>
    case OpSetPaused(_, _) =>
    case OpRegister(_, _) =>
    case OpHeartbeat(_, _) =>
    case OpFinish(_, _, _, _, _) =>
  }

  /** A heartbeat names a job exactly if its worker holds the job and the job's cancellation was requested. */
  lemma HeartbeatNames(db: Db, now: Time, w: WorkerId, expiry: Option<string>, id: JobId)
    requires Consistent(db) && w in db.workers
    ensures Heartbeat(db, now, w, expiry).1 == Ok(Some(id)) <==>
            w in Held(db) && Held(db)[w] == id && db.jobs[id].cancelRequested
  {
  }

  /** w holds id in every state of the run, from the first to the last. */
  ghost predicate HoldsThroughout(db: Db, run: Run, w: WorkerId, id: JobId)
    decreases |run|
  {
    && w in Held(db) && Held(db)[w] == id
    && (run == [] || HoldsThroughout(Apply(db, run[0].0, run[0].1), run[1..], w, id))
  }

  lemma FlagStaysWhileHeld(db: Db, now: Time, op: Op, w: WorkerId, id: JobId)
    requires Consistent(db) && w in Held(db) && Held(db)[w] == id && db.jobs[id].cancelRequested
    requires w in Held(Apply(db, now, op)) && Held(Apply(db, now, op))[w] == id
    ensures id in Apply(db, now, op).jobs && Apply(db, now, op).jobs[id].cancelRequested
  {
    ApplyConsistent(db, now, op);
    FlagChanges(db, now, op, id);
    if op.OpRetry? { RetryTargetsFailed(db, op.which); }
    if RunsExpiry(op) { HeldOther(db, now, op); }
  }

  /** After a cancellation, every heartbeat of the worker names the job for as long as it holds it. */
  lemma {:induction false} CancellationReachesHolder(db: Db, run: Run, w: WorkerId, id: JobId, now: Time, expiry: Option<string>)
    requires Consistent(db) && HoldsThroughout(db, run, w, id) && db.jobs[id].cancelRequested
    ensures Heartbeat(Execute(db, run), now, w, expiry).1 == Ok(Some(id))
    decreases |run|
  {
    if run == [] {
      HeartbeatNames(db, now, w, expiry, id);
    } else {
      var next := Apply(db, run[0].0, run[0].1);
      ApplyConsistent(db, run[0].0, run[0].1);
      FlagStaysWhileHeld(db, run[0].0, run[0].1, w, id);
      CancellationReachesHolder(next, run[1..], w, id, now, expiry);
    }
  }

  /** A claim that creates an assignment hands out no old request: one that carries the flag repeats an assignment. */
  lemma FlaggedClaimIsRepeated(db: Db, now: Time, w: WorkerId)
    requires Consistent(db)
    ensures var r := Claim(db, now, w).1;
            r.Ok? && r.value.Some? && r.value.value.cancelRequested ==>
              w in Held(db) && Held(db)[w] == r.value.value.id
  {
    HeldClaim(db, now, w);
    if Pending(db.jobs) != map[] { FirstIsFirst(Pending(db.jobs)); }
  }
}
