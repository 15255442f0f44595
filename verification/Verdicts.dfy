/** What a verdict says about the messages heard: soundness of one record. */
module Verdicts {
  import opened Options
  import opened Acceptance
  import opened Protocol

  // ----- what a message means for a record

  predicate FromUs(e: Event)
    requires e.Control?
  {
    e.packet.from == 0 || e.packet.from == e.ownNode
  }

  /** A routing error about this record, from its own connection attempt. */
  predicate Refuses(e: Event, w: Waiter) {
    && e.Control? && FromUs(e) && e.packet.content.Routing?
    && e.packet.content.requestID == w.id && e.packet.content.requestID != 0
    && e.packet.content.decoded.Some? && e.packet.content.decoded.value != NoError
    && e.attempt == w.attempt
  }

  predicate Rejects(e: Event, w: Waiter) {
    (e.Status? && e.id == w.id && e.res != 0) || Refuses(e, w)
  }

  /** A Res-0 QueueStatus for this record. */
  predicate Confirms(e: Event, w: Waiter) { e.Status? && e.id == w.id && e.res == 0 }

  /** A valid local echo of this record. */
  predicate Echoes(e: Event, w: Waiter) {
    && e.Control? && FromUs(e) && e.packet.content.Payload? && e.packet.content.textEcho
    && e.packet.id == w.id && e.packet.dest == w.destination && e.attempt == w.attempt
  }

  predicate Fails(e: Event, w: Waiter) { e.Failure? && e.attempt == w.attempt }

  predicate IsQueueFull(e: Event, w: Waiter) {
    e.Status? && e.id == w.id && e.res == 32 && e.free == 0
  }

  predicate RefusesWith(e: Event, w: Waiter, reason: Reason) {
    Refuses(e, w) && e.packet.content.decoded == Some(reason)
  }

  // ----- the history of a record

  ghost predicate Confirmed(hist: seq<Event>, lo: nat, hi: nat, w: Waiter)
    requires hi <= |hist|
  {
    exists h | lo <= h < hi :: Confirms(hist[h], w)
  }

  ghost predicate Echoed(hist: seq<Event>, lo: nat, hi: nat, w: Waiter)
    requires hi <= |hist|
  {
    exists h | lo <= h < hi :: Echoes(hist[h], w)
  }

  ghost predicate Rejected(hist: seq<Event>, lo: nat, hi: nat, w: Waiter)
    requires hi <= |hist|
  {
    exists h | lo <= h < hi :: Rejects(hist[h], w)
  }

  /** The latest number of minutes reported for `id` in `hist[lo..hi]`, if any. */
  function Minutes(hist: seq<Event>, id: nat, lo: nat, hi: nat, none: Option<nat>): Option<nat>
    requires hi <= |hist|
    decreases hi
  {
    if hi <= lo then none
    else if hist[hi - 1].Notice? && hist[hi - 1].id == id then Some(hist[hi - 1].minutes)
    else Minutes(hist, id, lo, hi - 1, none)
  }

  lemma {:induction false} MinutesSame(hist: seq<Event>, more: seq<Event>, id: nat, lo: nat, hi: nat,
                                       none: Option<nat>)
    requires hi <= |hist|
    ensures Minutes(hist + more, id, lo, hi, none) == Minutes(hist, id, lo, hi, none)
    decreases hi
  {
    if hi > lo {
      MinutesSame(hist, more, id, lo, hi - 1, none);
    }
  }

  /** A Res-0 QueueStatus was handled at least the grace before `time`. */
  ghost predicate GraceOver(c: Config, hist: seq<Event>, lo: nat, hi: nat, w: Waiter, time: int)
    requires hi <= |hist|
  {
    exists h | lo <= h < hi :: Confirms(hist[h], w) && hist[h].time + c.grace <= time
  }

  ghost predicate ConfirmedAt(hist: seq<Event>, lo: nat, hi: nat, w: Waiter, time: int)
    requires hi <= |hist|
  {
    exists h | lo <= h < hi :: Confirms(hist[h], w) && hist[h].time == time
  }

  /** An undecided record has heard no rejection and no failure, and not both confirmations;
      its flags say which one it has heard. */
  ghost predicate PendingOK(hist: seq<Event>, w: Waiter, b: Submission) {
    && w.terminal == Pending && b.settled.None? && b.born <= |hist| && w.id != 0
    && (forall h | b.born <= h < |hist| :: !Rejects(hist[h], w) && !Fails(hist[h], w))
    && (w.queueOK <==> Confirmed(hist, b.born, |hist|, w))
    && (w.echoOK <==> Echoed(hist, b.born, |hist|, w))
    && (w.queueOK ==> ConfirmedAt(hist, b.born, |hist|, w, w.queueAt) && b.began <= w.queueAt)
    && !(w.queueOK && w.echoOK)
    && w.duty == Minutes(hist, w.id, b.born, |hist|, None)
  }

  /** What a verdict, given after `n` events and at `time`, says about them. */
  ghost predicate Justified(c: Config, hist: seq<Event>, w: Waiter, b: Submission, n: nat, time: int)
    requires b.born <= n <= |hist|
  {
    match w.terminal
    case Pending => false
    case Accepted =>
      && !Rejected(hist, b.born, n, w) && Confirmed(hist, b.born, n, w)
      && (Echoed(hist, b.born, n, w) || GraceOver(c, hist, b.born, n, w, time))
    case QueueFull =>
      b.born < n && IsQueueFull(hist[n - 1], w) && !Rejected(hist, b.born, n - 1, w)
    case Rate =>
      b.born < n && RefusesWith(hist[n - 1], w, RateLimitExceeded) && !Rejected(hist, b.born, n - 1, w)
    case Duty =>
      b.born < n && RefusesWith(hist[n - 1], w, DutyCycleLimit) && !Rejected(hist, b.born, n - 1, w)
    case Permanent =>
      && b.born < n && Rejects(hist[n - 1], w) && !Rejected(hist, b.born, n - 1, w)
      && !IsQueueFull(hist[n - 1], w) && !RefusesWith(hist[n - 1], w, RateLimitExceeded)
      && !RefusesWith(hist[n - 1], w, DutyCycleLimit)
    case Ambiguous =>
      && !Rejected(hist, b.born, n, w)
      && !(Confirmed(hist, b.born, n, w) && Echoed(hist, b.born, n, w))
  }

  ghost predicate SettledOK(c: Config, hist: seq<Event>, now: int, w: Waiter, b: Submission) {
    && b.settled.Some?
    && var (n, time) := b.settled.value;
       b.born <= n <= |hist| && b.began <= w.at <= time <= now && Justified(c, hist, w, b, n, time)
       && w.duty == Minutes(hist, w.id, b.born, n, None)
  }

  ghost predicate RecordOK(c: Config, hist: seq<Event>, now: int, w: Waiter, b: Submission) {
    if w.terminal == Pending then PendingOK(hist, w, b) else SettledOK(c, hist, now, w, b)
  }

  // ----- what an event does to a record

  function Effect(e: Event, w: Waiter): Waiter {
    if w.terminal != Pending then w
    else
      match e
      case Status(id, res, free, time) =>
        if id != 0 && id == w.id then StatusFor(w, res, free, time) else w
      case Control(attempt, own, p, time) =>
        if Refuses(e, w) then RejectionFor(w, p.content.decoded.value, time)
        else if FromUs(e) && p.content.Payload? && p.id == w.id && attempt == w.attempt
        then EchoFor(w, p.dest, p.content.textEcho, time) else w
      case Notice(id, minutes, _) => if id == w.id then w.(duty := Some(minutes)) else w
      case Failure(attempt, time) => if attempt == w.attempt then Finish(w, Ambiguous, time) else w
  }

  lemma SamePast(c: Config, hist: seq<Event>, more: seq<Event>, w: Waiter, b: Submission, n: nat, time: int)
    requires b.born <= n <= |hist| && Justified(c, hist, w, b, n, time)
    ensures Justified(c, hist + more, w, b, n, time)
  {
    var all := hist + more;
    assert forall h | 0 <= h < n :: all[h] == hist[h];
    assert Rejected(all, b.born, n, w) == Rejected(hist, b.born, n, w);
    assert Confirmed(all, b.born, n, w) == Confirmed(hist, b.born, n, w);
    assert Echoed(all, b.born, n, w) == Echoed(hist, b.born, n, w);
    assert GraceOver(c, all, b.born, n, w, time) == GraceOver(c, hist, b.born, n, w, time);
    if b.born < n {
      assert Rejected(all, b.born, n - 1, w) == Rejected(hist, b.born, n - 1, w);
    }
  }

  /** The facts of `Justified` only look at a part of the history that no longer changes. */
  lemma StaysSettled(c: Config, hist: seq<Event>, more: seq<Event>, now: int, later: int,
                     w: Waiter, b: Submission)
    requires SettledOK(c, hist, now, w, b) && now <= later
    ensures SettledOK(c, hist + more, later, w, b)
  {
    var (n, time) := b.settled.value;
    SamePast(c, hist, more, w, b, n, time);
    MinutesSame(hist, more, w.id, b.born, n, None);
  }

  predicate SameRecord(w: Waiter, v: Waiter) {
    w.id == v.id && w.destination == v.destination && w.attempt == v.attempt
  }

  lemma SameMeaning(e: Event, w: Waiter, v: Waiter)
    requires SameRecord(w, v)
    ensures Confirms(e, v) == Confirms(e, w) && Echoes(e, v) == Echoes(e, w)
    ensures Rejects(e, v) == Rejects(e, w) && Fails(e, v) == Fails(e, w)
    ensures IsQueueFull(e, v) == IsQueueFull(e, w)
    ensures forall r :: RefusesWith(e, v, r) == RefusesWith(e, w, r)
  {
  }

  /** One more event, seen by a record that may have changed its state. */
  lemma OneMore(hist: seq<Event>, e: Event, lo: nat, w: Waiter, v: Waiter)
    requires lo <= |hist| && SameRecord(w, v)
    ensures Confirmed(hist + [e], lo, |hist| + 1, v) <==> Confirmed(hist, lo, |hist|, w) || Confirms(e, w)
    ensures Echoed(hist + [e], lo, |hist| + 1, v) <==> Echoed(hist, lo, |hist|, w) || Echoes(e, w)
    ensures Rejected(hist + [e], lo, |hist| + 1, v) <==> Rejected(hist, lo, |hist|, w) || Rejects(e, w)
    ensures Rejected(hist + [e], lo, |hist|, v) <==> Rejected(hist, lo, |hist|, w)
  {
    hide Confirms, Echoes, Rejects;
    var all := hist + [e];
    SameMeaning(e, w, v);
    forall h | 0 <= h < |hist|
      ensures all[h] == hist[h] && Confirms(all[h], v) == Confirms(hist[h], w)
      ensures Echoes(all[h], v) == Echoes(hist[h], w) && Rejects(all[h], v) == Rejects(hist[h], w)
    {
      SameMeaning(hist[h], w, v);
    }
    assert all[|hist|] == e;
  }

  lemma OneMoreAt(hist: seq<Event>, e: Event, lo: nat, w: Waiter, v: Waiter, time: int)
    requires lo <= |hist| && SameRecord(w, v)
    requires ConfirmedAt(hist, lo, |hist|, w, time) || (Confirms(e, w) && e.time == time)
    ensures ConfirmedAt(hist + [e], lo, |hist| + 1, v, time)
  {
    var all := hist + [e];
    if ConfirmedAt(hist, lo, |hist|, w, time) {
      var h :| lo <= h < |hist| && Confirms(hist[h], w) && hist[h].time == time;
      SameMeaning(hist[h], w, v);
      assert all[h] == hist[h];
    } else {
      SameMeaning(e, w, v);
      assert all[|hist|] == e;
    }
  }

  /** The four ways an event can bear on an undecided record. */
  lemma EffectCases(e: Event, w: Waiter)
    requires w.terminal == Pending && w.id != 0 && !(w.queueOK && w.echoOK)
    ensures var v := Effect(e, w);
            && SameRecord(w, v)
            && v.duty == (if e.Notice? && e.id == w.id then Some(e.minutes) else w.duty)
            && (v.terminal == Pending ==>
                  && !Rejects(e, w) && !Fails(e, w)
                  && (v.queueOK <==> w.queueOK || Confirms(e, w))
                  && (v.echoOK <==> w.echoOK || Echoes(e, w))
                  && (v.queueOK ==> v.queueAt == if Confirms(e, w) then e.time else w.queueAt)
                  && !(v.queueOK && v.echoOK))
            && (v.terminal != Pending ==> v.at == e.time)
            && (v.terminal == Accepted ==>
                  && !Rejects(e, w) && (Confirms(e, w) || w.queueOK) && (Echoes(e, w) || w.echoOK))
            && (v.terminal == QueueFull ==> IsQueueFull(e, w))
            && (v.terminal == Rate ==> RefusesWith(e, w, RateLimitExceeded))
            && (v.terminal == Duty ==> RefusesWith(e, w, DutyCycleLimit))
            && (v.terminal == Permanent ==>
                  && Rejects(e, w) && !IsQueueFull(e, w) && !RefusesWith(e, w, RateLimitExceeded)
                  && !RefusesWith(e, w, DutyCycleLimit))
            && (v.terminal == Ambiguous ==> Fails(e, w) && !Rejects(e, w) && !Confirms(e, w) && !Echoes(e, w))
  {
  }

  /** Hearing one event keeps a record sound. */
  lemma EventKeeps(c: Config, hist: seq<Event>, now: int, w: Waiter, b: Submission, e: Event)
    requires PendingOK(hist, w, b) && e.time == now && b.began <= now
    ensures var v := Effect(e, w);
            var b' := if v.terminal == Pending then b else b.(settled := Some((|hist| + 1, now)));
            RecordOK(c, hist + [e], now, v, b')
  {
    hide Effect, Confirms, Echoes, Rejects, Fails, IsQueueFull, RefusesWith;
    var v := Effect(e, w);
    EffectCases(e, w);
    OneMore(hist, e, b.born, w, v);
    SameMeaning(e, w, v);
    assert (hist + [e])[|hist|] == e;
    MinutesSame(hist, [e], w.id, b.born, |hist|, None);
    assert v.id == w.id;
    if v.terminal == Pending {
      if v.queueOK {
        OneMoreAt(hist, e, b.born, w, v, v.queueAt);
      }
      forall h | b.born <= h < |hist| + 1
        ensures !Rejects((hist + [e])[h], v) && !Fails((hist + [e])[h], v)
      {
        if h < |hist| {
          SameMeaning(hist[h], w, v);
        }
      }
    }
  }

  lemma SamePastRecord(hist: seq<Event>, lo: nat, w: Waiter, v: Waiter)
    requires lo <= |hist| && SameRecord(w, v)
    ensures Confirmed(hist, lo, |hist|, v) == Confirmed(hist, lo, |hist|, w)
    ensures Echoed(hist, lo, |hist|, v) == Echoed(hist, lo, |hist|, w)
    ensures Rejected(hist, lo, |hist|, v) == Rejected(hist, lo, |hist|, w)
  {
    forall h | lo <= h < |hist|
      ensures Confirms(hist[h], v) == Confirms(hist[h], w) && Echoes(hist[h], v) == Echoes(hist[h], w)
      ensures Rejects(hist[h], v) == Rejects(hist[h], w)
    {
      SameMeaning(hist[h], w, v);
    }
  }

  /** The sender gives its own record up. */
  lemma GivingUpKeeps(c: Config, hist: seq<Event>, now: int, w: Waiter, b: Submission)
    requires PendingOK(hist, w, b) && b.began <= now
    ensures SettledOK(c, hist, now, Finish(w, Ambiguous, now), b.(settled := Some((|hist|, now))))
  {
    var v := Finish(w, Ambiguous, now);
    SamePastRecord(hist, b.born, w, v);
  }

  /** The sender accepts after a quiet window that it has seen run out. */
  lemma QuietKeeps(c: Config, hist: seq<Event>, now: int, w: Waiter, b: Submission, seenAt: int)
    requires PendingOK(hist, w, b) && w.queueOK && w.queueAt <= now
    requires ConfirmedAt(hist, b.born, |hist|, w, seenAt) && seenAt + c.grace <= now
    ensures SettledOK(c, hist, now, Finish(w, Accepted, w.queueAt), b.(settled := Some((|hist|, now))))
  {
    var v := Finish(w, Accepted, w.queueAt);
    SamePastRecord(hist, b.born, w, v);
    assert GraceOver(c, hist, b.born, |hist|, v, now) by {
      var h :| b.born <= h < |hist| && Confirms(hist[h], w) && hist[h].time == seenAt;
      SameMeaning(hist[h], w, v);
    }
  }
}
