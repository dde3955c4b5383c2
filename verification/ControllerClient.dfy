/**
 One controller operation of the daemon (worker/client.go): attempts with the same payload
 until one is accepted or refused for good, the caller stops, or the retry deadline passes;
 and the flag that turns remote work off for the life of the daemon.

 Time is ideal: only attempts and waiting take any, and a context that has ended cuts off
 an attempt or a wait at once.
 */
module ControllerClient {
  import opened Wrappers

  type Time = int

  datatype Body = Unreadable | TooLong | Malformed | WellFormed

  datatype Reply = NoReply | Answer(status: int, body: Body)

  /**
   What is outside the operation: when the caller's context ends, when another goroutine turns
   remote work off, and how long each attempt takes and what comes of it.
   */
  datatype World = World(
    parentEnd: Option<Time>,
    disabledAt: Option<Time>,
    duration: nat -> nat,
    reply: nat -> Reply)

  datatype Error =
    | RemoteDisabled
    | NoToken
    | ContextEnded
    | Refused(status: int)
    | ResponseTooLong
    | InvalidJson
    | Unavailable

  predicate Passed(at: Option<Time>, t: Time) {
    at.Some? && at.value <= t
  }

  /** When the operation's own context ends. */
  function End(w: World, deadline: Time): Time {
    if w.parentEnd.Some? && w.parentEnd.value < deadline then w.parentEnd.value else deadline
  }

  predicate Successful(status: int) {
    200 <= status < 300
  }

  predicate Unauthorized(r: Reply) {
    r.Answer? && (r.status == 401 || r.status == 403)
  }

  predicate Accepted(r: Reply) {
    r.Answer? && Successful(r.status) && r.body.WellFormed?
  }

  /** Replies after which the next attempt may still succeed. */
  predicate Retryable(r: Reply) {
    r.NoReply? || r.status == 429 || r.status >= 500 || (Successful(r.status) && r.body.Unreadable?)
  }

  predicate Delivered(r: Reply) {
    r.Answer? && Successful(r.status)
  }

  /** What one reply means, in both directions: each reply has one meaning. */
  ghost predicate Means(r: Reply, e: Option<Error>) {
    && (e.None? <==> Accepted(r))
    && (e == Some(RemoteDisabled) <==> Unauthorized(r))
    && (e == Some(ResponseTooLong) <==> Delivered(r) && r.body.TooLong?)
    && (e == Some(InvalidJson) <==> Delivered(r) && r.body.Malformed?)
    && (e == Some(Unavailable) <==> r.NoReply? || (Delivered(r) && r.body.Unreadable?))
    && (e.Some? && e.value.Refused? <==> r.Answer? && !Successful(r.status) && !Unauthorized(r))
    && (e.Some? && e.value.Refused? ==> r.status == e.value.status)
  }

  lemma MeaningUnique(r: Reply, e: Option<Error>, f: Option<Error>)
    requires Means(r, e) && Means(r, f) && e != Some(ContextEnded) && e != Some(NoToken)
    ensures e == f
  {
    if e.Some? && e.value.Refused? { assert f.value.status == r.status; }
  }

  /** When the k-th attempt starts, if every one before it is retried. */
  function StartAt(w: World, interval: int, now: Time, k: nat): Time {
    if k == 0 then now else StartAt(w, interval, now, k - 1) + w.duration(k - 1) + interval
  }

  function Ceiling(a: int, b: int): int
    requires b > 0
  {
    (a + b - 1) / b
  }

  lemma TimesMonotone(a: int, b: int, c: int)
    requires a >= b && c > 0
    ensures a * c >= b * c
  {
  }

  lemma FitsUnderCeiling(attempts: int, timeout: int, interval: int)
    requires interval > 0 && (attempts - 1) * interval < timeout
    ensures attempts <= Ceiling(timeout, interval)
  {
    var c := Ceiling(timeout, interval);
    assert timeout <= c * interval;
    if attempts > c {
      TimesMonotone(attempts - 1, c, interval);
      assert false;
    }
  }

  lemma CeilingReached(attempts: int, timeout: int, interval: int)
    requires interval > 0 && (attempts - 1) * interval < timeout <= attempts * interval
    ensures attempts == Ceiling(timeout, interval)
  {
    FitsUnderCeiling(attempts, timeout, interval);
    var c := Ceiling(timeout, interval);
    assert (c - 1) * interval < timeout;
    if c > attempts {
      TimesMonotone(c - 1, attempts, interval);
      assert false;
    }
  }

  /** Nothing answers, attempts take no time, and neither the caller nor anyone else steps in. */
  ghost predicate Outage(w: World) {
    && w.parentEnd.None? && w.disabledAt.None?
    && forall k :: w.duration(k) == 0 && w.reply(k).NoReply?
  }

  lemma {:induction false} StartsApart(w: World, interval: int, now: Time, k: nat)
    ensures StartAt(w, interval, now, k) >= now + k * interval
  {
    if k > 0 {
      StartsApart(w, interval, now, k - 1);
      assert k * interval == (k - 1) * interval + interval;
    }
  }

  lemma {:induction false} OutageStarts(w: World, interval: int, now: Time, k: nat)
    requires Outage(w)
    ensures StartAt(w, interval, now, k) == now + k * interval
  {
    if k > 0 {
      OutageStarts(w, interval, now, k - 1);
      assert k * interval == (k - 1) * interval + interval;
    }
  }

  lemma AttemptsBounded(w: World, interval: int, timeout: int, now: Time, attempts: nat)
    requires interval > 0 && timeout > 0
    requires attempts > 0 ==> StartAt(w, interval, now, attempts - 1) < now + timeout
    ensures attempts <= Ceiling(timeout, interval)
  {
    if attempts > 0 {
      StartsApart(w, interval, now, attempts - 1);
      FitsUnderCeiling(attempts, timeout, interval);
    }
  }

  lemma OutageAttempts(w: World, interval: int, timeout: int, now: Time, attempts: nat)
    requires interval > 0 && timeout > 0 && Outage(w)
    requires attempts > 0 ==> StartAt(w, interval, now, attempts - 1) < now + timeout
    requires StartAt(w, interval, now, attempts) >= now + timeout
    ensures attempts == Ceiling(timeout, interval)
  {
    OutageStarts(w, interval, now, attempts);
    if attempts > 0 { OutageStarts(w, interval, now, attempts - 1); }
    CeilingReached(attempts, timeout, interval);
  }

  class Client {
    var remoteDisabled: bool
    const hasToken: bool
    const retryTimeout: int
    const retryInterval: int

    predicate Valid()
    {
      retryTimeout > 0 && retryInterval > 0
    }

    constructor (hasToken: bool, retryTimeout: int, retryInterval: int)
      requires retryTimeout > 0 && retryInterval > 0
      ensures Valid() && !remoteDisabled
      ensures this.hasToken == hasToken && this.retryTimeout == retryTimeout && this.retryInterval == retryInterval
    {
      remoteDisabled := false;
      this.hasToken, this.retryTimeout, this.retryInterval := hasToken, retryTimeout, retryInterval;
    }

    /** Reads the flag at a time, after what other goroutines wrote to it. */
    method LoadDisabled(w: World, t: Time) returns (disabled: bool)
      modifies this
      ensures disabled == remoteDisabled == (old(remoteDisabled) || Passed(w.disabledAt, t))
    {
      if w.disabledAt.Some? && w.disabledAt.value <= t {
        remoteDisabled := true;
      }
      disabled := remoteDisabled;
    }

    method DisableRemote() returns (error: Error)
      modifies this
      ensures remoteDisabled && error == RemoteDisabled
    {
      remoteDisabled := true;
      error := RemoteDisabled;
    }

    /** What the reply to one attempt means. */
    method PostOnce(reply: Reply) returns (retry: bool, error: Option<Error>)
      modifies this
      ensures Means(reply, error) && error != Some(ContextEnded) && error != Some(NoToken)
      ensures retry <==> Retryable(reply)
      ensures remoteDisabled == (old(remoteDisabled) || Unauthorized(reply))
    {
      if reply.NoReply? {
        return true, Some(Unavailable);
      }
      if reply.status == 401 || reply.status == 403 {
        var disabled := DisableRemote();
        return false, Some(disabled);
      }
      if reply.status < 200 || reply.status >= 300 {
        return reply.status == 429 || reply.status >= 500, Some(Refused(reply.status));
      }
      match reply.body {
        case Unreadable => return true, Some(Unavailable);
        case TooLong => return false, Some(ResponseTooLong);
        case Malformed => return false, Some(InvalidJson);
        case WellFormed => return false, None;
      }
    }

    /**
     The retry loop, under a context that ends with the caller's or at the deadline. While the
     context lasts, the first reply that is not retryable decides; the loop ends before that only
     if remote work is turned off meanwhile, and gives up only when no further attempt could start.
     */
    method Attempts(w: World, now: Time, deadline: Time) returns (error: Option<Error>, t: Time, attempts: nat)
      requires Valid() && deadline == now + retryTimeout
      modifies this
      ensures now <= t && (t <= End(w, deadline) || t == now)
      ensures attempts > 0 ==> StartAt(w, retryInterval, now, attempts - 1) < End(w, deadline)
      ensures attempts > 0 <==> now < End(w, deadline) && !(old(remoteDisabled) || Passed(w.disabledAt, now))
      ensures forall k :: 0 <= k < attempts - 1 ==> Retryable(w.reply(k))
      ensures error == Some(ContextEnded) <==> t >= End(w, deadline)
      ensures error == Some(ContextEnded) ==> StartAt(w, retryInterval, now, attempts) >= End(w, deadline)
      ensures attempts > 0 && t < End(w, deadline) && !Retryable(w.reply(attempts - 1)) ==>
                Means(w.reply(attempts - 1), error) && t == StartAt(w, retryInterval, now, attempts - 1) + w.duration(attempts - 1)
      ensures t < End(w, deadline) && (attempts == 0 || Retryable(w.reply(attempts - 1))) ==>
                error == Some(RemoteDisabled) && (old(remoteDisabled) || Passed(w.disabledAt, t))
      ensures old(remoteDisabled) ==> remoteDisabled
      ensures !old(remoteDisabled) ==> (remoteDisabled <==> error == Some(RemoteDisabled))
      ensures error.None? || error.value != NoToken
    {
      t, attempts := now, 0;
      while true
        invariant now <= t && (t <= End(w, deadline) || (t == now && attempts == 0))
        invariant attempts > 0 ==> StartAt(w, retryInterval, now, attempts - 1) < End(w, deadline) && t < End(w, deadline)
        invariant forall k :: 0 <= k < attempts ==> Retryable(w.reply(k))
        invariant old(remoteDisabled) ==> remoteDisabled
        invariant !old(remoteDisabled) ==> !remoteDisabled
        invariant attempts > 0 || t == now
        invariant attempts > 0 ==> now < End(w, deadline) && !(old(remoteDisabled) || Passed(w.disabledAt, now))
        invariant t == StartAt(w, retryInterval, now, attempts)
        decreases deadline - t
      {
        if t >= End(w, deadline) {
          return Some(ContextEnded), t, attempts;
        }
        var disabled := LoadDisabled(w, t);
        if disabled {
          return Some(RemoteDisabled), t, attempts;
        }
        var took := w.duration(attempts);
        var reply := if t + took < End(w, deadline) then w.reply(attempts) else NoReply;
        t := if t + took < End(w, deadline) then t + took else End(w, deadline);
        var retry: bool;
        retry, error := PostOnce(reply);
        attempts := attempts + 1;
        if error.None? || !retry {
          return error, t, attempts;
        }
        if t >= End(w, deadline) {
          return Some(ContextEnded), t, attempts;
        }
        if t + retryInterval >= End(w, deadline) {
          return Some(ContextEnded), End(w, deadline), attempts;
        }
        t := t + retryInterval;
      }
    }

    /**
     One operation. It makes at most ceil(timeout / interval) attempts, exactly as many in an
     outage, and is over by the deadline. The first reply that is not retryable decides, and an
     accepted one gives success. Remote work is turned off by a 401 or 403, by the operation's own
     deadline while the caller still waits, or by another goroutine: never because the caller's
     context ended first; and it is never turned on again.
     */
    method Post(w: World, now: Time) returns (error: Option<Error>, finished: Time, attempts: nat)
      requires Valid()
      modifies this
      ensures attempts <= Ceiling(retryTimeout, retryInterval)
      ensures now <= finished <= now + retryTimeout
      ensures old(remoteDisabled) || Passed(w.disabledAt, now) ==>
                error == Some(RemoteDisabled) && attempts == 0 && finished == now
      ensures !hasToken && !(old(remoteDisabled) || Passed(w.disabledAt, now)) ==>
                error == Some(NoToken) && attempts == 0 && finished == now
      ensures attempts > 0 <==>
                hasToken && !(old(remoteDisabled) || Passed(w.disabledAt, now)) && now < End(w, now + retryTimeout)
      ensures hasToken && attempts == 0 && !(old(remoteDisabled) || Passed(w.disabledAt, now)) ==>
                error == Some(ContextEnded) && finished == now
      ensures forall k :: 0 <= k < attempts - 1 ==> Retryable(w.reply(k))
      ensures attempts > 0 && finished < End(w, now + retryTimeout) && !Retryable(w.reply(attempts - 1)) ==>
                Means(w.reply(attempts - 1), error) &&
                finished == StartAt(w, retryInterval, now, attempts - 1) + w.duration(attempts - 1)
      ensures attempts > 0 && finished < End(w, now + retryTimeout) && Accepted(w.reply(attempts - 1)) ==> error.None?
      ensures error.None? ==> attempts > 0 && finished < End(w, now + retryTimeout) && Accepted(w.reply(attempts - 1))
      ensures attempts > 0 && finished < End(w, now + retryTimeout) && Retryable(w.reply(attempts - 1)) ==>
                error == Some(RemoteDisabled) && Passed(w.disabledAt, finished)
      ensures attempts > 0 && finished >= End(w, now + retryTimeout) ==>
                error == (if Passed(w.parentEnd, finished) then Some(ContextEnded) else Some(RemoteDisabled)) &&
                StartAt(w, retryInterval, now, attempts) >= End(w, now + retryTimeout)
      ensures error == Some(ContextEnded) ==> Passed(w.parentEnd, finished)
      ensures remoteDisabled <==> error == Some(RemoteDisabled)
      ensures remoteDisabled && !old(remoteDisabled) ==>
                || Passed(w.disabledAt, finished)
                || (attempts > 0 && Unauthorized(w.reply(attempts - 1)))
                || (finished == now + retryTimeout && !Passed(w.parentEnd, finished))
      ensures hasToken && !old(remoteDisabled) && Outage(w) ==>
                attempts == Ceiling(retryTimeout, retryInterval) && finished == now + retryTimeout && remoteDisabled
    {
      AttemptsBounded(w, retryInterval, retryTimeout, now, 0);
      var disabled := LoadDisabled(w, now);
      if disabled {
        return Some(RemoteDisabled), now, 0;
      }
      if !hasToken {
        return Some(NoToken), now, 0;
      }
      var deadline := now + retryTimeout;
      error, finished, attempts := Attempts(w, now, deadline);
      AttemptsBounded(w, retryInterval, retryTimeout, now, attempts);
      if Outage(w) && error == Some(ContextEnded) {
        OutageAttempts(w, retryInterval, retryTimeout, now, attempts);
      }
      // The deferred check: a caller's shorter deadline (including shutdown) is not an outage.
      if error.Some? && !Passed(w.parentEnd, finished) && finished >= deadline {
        var reason := DisableRemote();
        error := Some(reason);
      }
    }
  }
}
