/** When a chunk that the radio turned down may be tried again. */
module Recovery {
  import opened Options
  import opened Acceptance
  import opened Protocol
  import opened Verdicts
  import opened Soundness
  import opened Retries
  import opened PacingRules

  // ----- what was reported

  /** Nothing since event `h` has changed the free count: no other report, no failure. */
  predicate Current(hist: seq<Event>, h: nat, r: nat)
    requires r <= |hist|
  {
    forall k :: h < k < r ==> !hist[k].Status? && !hist[k].Failure?
  }

  /** At the end of this part of the history the free count is known and positive: a
      QueueStatus in the same part reported it, and none after it, nor a failed attempt, has
      made it out of date. */
  ghost predicate RoomKnown(hist: seq<Event>, lo: nat, hi: nat)
    requires hi <= |hist|
  {
    exists h: nat | lo <= h < hi :: hist[h].Status? && hist[h].free > 0 && Current(hist, h, hi)
  }

  lemma RoomWasKnown(hist: seq<Event>, more: seq<Event>, lo: nat, hi: nat)
    requires hi <= |hist| && RoomKnown(hist, lo, hi)
    ensures RoomKnown(hist + more, lo, hi)
  {
    var h: nat :| lo <= h < hi && hist[h].Status? && hist[h].free > 0 && Current(hist, h, hi);
    assert (hist + more)[h] == hist[h] && Current(hist + more, h, hi);
  }

  /** The time a duty-cycle rejection has to be waited out: the minutes reported last, one
      hour at most and the send delay at least. */
  lemma DeadlineMeaning(c: Config, at: int, mins: Option<nat>)
    ensures DutyDeadline(c, at, mins) ==
      at + Max(c.sendDelay, 60_000 * (if mins.Some? && mins.value < 60 then mins.value else 60))
  {
  }

  /** When the sender last looked, there was room in the queue. */
  ghost predicate SawRoom(hist: seq<Event>, b: Submission, upTo: nat)
    requires upTo <= |hist|
  {
    && b.settled.Some? && b.looked.Some? && b.looked.value <= upTo
    && RoomKnown(hist, b.settled.value.0, b.looked.value)
  }

  /** Duty recovery has begun, and the sender has looked at the minutes since. */
  predicate SawMinutes(b: Submission, upTo: nat) {
    && b.settled.Some? && b.armed.Some? && b.looked.Some?
    && b.settled.value.0 <= b.armed.value <= b.looked.value <= upTo
  }

  /** The minutes that the sender last saw. */
  function Seen(hist: seq<Event>, w: Waiter, b: Submission): Option<nat>
    requires SawMinutes(b, |hist|)
  {
    Minutes(hist, w.id, b.armed.value, b.looked.value, w.duty)
  }

  /** A rejected submission has been recovered from, by a time when `upTo` events were heard. */
  ghost predicate Recovered(c: Config, hist: seq<Event>, w: Waiter, b: Submission, upTo: nat, time: int)
    requires upTo <= |hist|
  {
    b.wire == AllBytes ==>
      && (w.terminal == QueueFull ==> SawRoom(hist, b, upTo))
      && (w.terminal == Duty ==> SawMinutes(b, upTo) && time >= DutyDeadline(c, w.at, Seen(hist, w, b)))
  }

  lemma RecoveredLater(c: Config, hist: seq<Event>, more: seq<Event>, w: Waiter, b: Submission,
                       upTo: nat, time: int, upTo': nat, time': int)
    requires upTo <= |hist| && upTo <= upTo' <= |hist + more| && time <= time'
    requires Recovered(c, hist, w, b, upTo, time)
    ensures Recovered(c, hist + more, w, b, upTo', time')
  {
    if b.wire == AllBytes {
      if w.terminal == QueueFull {
        RoomWasKnown(hist, more, b.settled.value.0, b.looked.value);
      }
      if w.terminal == Duty {
        MinutesSame(hist, more, w.id, b.armed.value, b.looked.value, w.duty);
      }
    }
  }

  // ----- the invariant

  /** `h` is the latest QueueStatus, and no attempt has failed since. */
  ghost predicate LatestStatus(hist: seq<Event>, h: nat) {
    h < |hist| && hist[h].Status? && Current(hist, h, |hist|)
  }

  /** The free count that is known is the one last reported, since an attempt failed last. */
  ghost predicate QueueTrue(s: Sys) {
    s.t.queueKnown ==> |s.hist| > 0 && exists h: nat :: LatestStatus(s.hist, h) && s.hist[h].free == s.t.queueFree
  }

  /** The minutes kept for recovery are those last reported since it began. */
  ghost predicate DutyTrue(s: Sys) {
    && |s.subs| == |s.t.waiters|
    && ((s.pc.DutyWait? || s.pc.DutySeen?) && s.subs != [] ==>
          var w, b := s.Cur(), s.subs[|s.subs| - 1];
          && s.t.dutyID == w.id && b.settled.Some? && b.armed.Some?
          && b.settled.value.0 <= b.armed.value <= |s.hist|
          && s.t.dutyMinutes == Minutes(s.hist, w.id, b.armed.value, |s.hist|, w.duty))
  }

  ghost predicate HasRead(pc: PC, w: Waiter, b: Submission, hist: seq<Event>) {
    && (pc.QueueSeen? && pc.known && pc.free > 0 ==> SawRoom(hist, b, |hist|))
    && (pc.DutySeen? ==> SawMinutes(b, |hist|) && pc.mins == Seen(hist, w, b))
  }

  /** What the sender has read of the queue or the minutes was so when it looked. */
  ghost predicate ReadTrue(s: Sys) {
    |s.subs| == |s.t.waiters| && (s.subs != [] ==> HasRead(s.pc, s.Cur(), s.subs[|s.subs| - 1], s.hist))
  }

  /** Every chunk tried again had been recovered from first. */
  ghost predicate AllRecovered(c: Config, s: Sys) {
    && |s.subs| == |s.t.waiters|
    && (forall i | 0 < i < |s.subs| ::
          SameJob(s.subs[i - 1], s.subs[i]) && s.subs[i].born <= |s.hist| ==>
            Recovered(c, s.hist, s.t.waiters[i - 1], s.subs[i - 1], s.subs[i].born, s.subs[i].began))
    && (Trying(s.pc) && s.subs != [] && s.subs[|s.subs| - 1].send == s.send
          && s.subs[|s.subs| - 1].chunk == |s.ids| ==>
            Recovered(c, s.hist, s.Cur(), s.subs[|s.subs| - 1], |s.hist|, s.now))
  }

  ghost predicate Recovering(c: Config, s: Sys) {
    QueueTrue(s) && DutyTrue(s) && ReadTrue(s) && AllRecovered(c, s)
  }

  lemma InitRecovering(c: Config, now: int)
    ensures Recovering(c, Init(now))
  {
  }

  // ----- hearing events

  /** The event that a hearing step handles. */
  function EventOf(s: Sys, a: Step): Event
    requires Hears(a)
  {
    match a
    case HearStatus(id, res, free) => Status(id, res, free, s.now)
    case HearPacket(attempt, own, p) => Control(attempt, own, p, s.now)
    case HearNotice(id, minutes) => Notice(id, minutes, s.now)
    case AttemptFails(attempt) => Failure(attempt, s.now)
  }

  /** What hearing does besides settling records. */
  lemma Hearing(c: Config, s: Sys, a: Step)
    requires Inv(c, s) && Enabled(c, s, a) && Hears(a)
    ensures var s', e := Do(c, s, a), EventOf(s, a);
            && s'.hist == s.hist + [e] && s'.pc == s.pc && s'.now == s.now
            && s'.ids == s.ids && s'.send == s.send
            && (e.Failure? ==> !s'.t.queueKnown)
            && (e.Status? ==> s'.t.queueKnown && s'.t.queueFree == e.free)
            && (!e.Status? ==> s'.t.queueKnown ==> s.t.queueKnown && s'.t.queueFree == s.t.queueFree)
            && s'.t.dutyID == s.t.dutyID
            && s'.t.dutyMinutes == (if e.Notice? && e.id == s.t.dutyID then Some(e.minutes) else s.t.dutyMinutes)
            && (!Registered(s.pc) ==> s'.subs == s.subs && s'.t.waiters == s.t.waiters)
  {
    hide Sound, Remembers;
    match a {
      case HearStatus(id, res, free) => StatusHeard(s, id, res, free);
      case HearPacket(attempt, own, p) => PacketHeard(s, attempt, own, p);
      case HearNotice(id, minutes) => NoticeHeard(s, id, minutes);
      case AttemptFails(attempt) => FailureHeard(s, attempt);
    }
  }

  lemma LatestGoesOn(hist: seq<Event>, e: Event, h: nat)
    ensures e.Status? ==> LatestStatus(hist + [e], |hist|)
    ensures !e.Status? && !e.Failure? && LatestStatus(hist, h) ==>
      LatestStatus(hist + [e], h) && (hist + [e])[h] == hist[h]
  {
  }

  lemma HearingQueue(c: Config, s: Sys, a: Step)
    requires Inv(c, s) && Enabled(c, s, a) && Hears(a) && QueueTrue(s)
    ensures QueueTrue(Do(c, s, a))
  {
    hide Inv, Do, Enabled;
    Hearing(c, s, a);
    var s', e := Do(c, s, a), EventOf(s, a);
    if e.Status? {
      LatestGoesOn(s.hist, e, 0);
      assert s'.hist[|s.hist|] == e;
    } else if s'.t.queueKnown {
      var h: nat :| LatestStatus(s.hist, h) && s.hist[h].free == s.t.queueFree;
      LatestGoesOn(s.hist, e, h);
    }
  }

  lemma HearingDuty(c: Config, s: Sys, a: Step)
    requires Inv(c, s) && Enabled(c, s, a) && Hears(a) && DutyTrue(s)
    ensures DutyTrue(Do(c, s, a))
  {
    hide Inv, Do, Enabled;
    Hearing(c, s, a);
    HearingKept(c, s, a);
    if (s.pc.DutyWait? || s.pc.DutySeen?) && s.subs != [] {
      var w, b := s.Cur(), s.subs[|s.subs| - 1];
      MinutesSame(s.hist, [EventOf(s, a)], w.id, b.armed.value, |s.hist|, w.duty);
    }
  }

  lemma HearingRead(c: Config, s: Sys, a: Step)
    requires Inv(c, s) && Enabled(c, s, a) && Hears(a) && ReadTrue(s)
    ensures ReadTrue(Do(c, s, a))
  {
    hide Inv, Do, Enabled;
    Hearing(c, s, a);
    HearingKept(c, s, a);
    var s', e := Do(c, s, a), EventOf(s, a);
    if s.pc.QueueSeen? && s.subs != [] && s.pc.known && s.pc.free > 0 {
      var b := s.subs[|s.subs| - 1];
      RoomWasKnown(s.hist, [e], b.settled.value.0, b.looked.value);
    }
    if s.pc.DutySeen? && s.subs != [] {
      var w, b := s.Cur(), s.subs[|s.subs| - 1];
      MinutesSame(s.hist, [e], w.id, b.armed.value, b.looked.value, w.duty);
    }
  }

  // ----- chunks tried again

  /** Steps that add nothing, seen from what has been recovered. */
  lemma RecoveredKept(c: Config, s: Sys, s': Sys)
    requires Kept(s, s') && AllRecovered(c, s)
    ensures forall i | 0 < i < |s'.subs| ::
      SameJob(s'.subs[i - 1], s'.subs[i]) && s'.subs[i].born <= |s.hist| ==>
        Recovered(c, s'.hist, s'.t.waiters[i - 1], s'.subs[i - 1], s'.subs[i].born, s'.subs[i].began)
  {
    hide Recovered;
    var more := s'.hist[|s.hist|..];
    assert s'.hist == s.hist + more;
    forall i | 0 < i < |s'.subs| && SameJob(s'.subs[i - 1], s'.subs[i]) && s'.subs[i].born <= |s.hist|
      ensures Recovered(c, s'.hist, s'.t.waiters[i - 1], s'.subs[i - 1], s'.subs[i].born, s'.subs[i].began)
    {
      assert SameJob(s.subs[i - 1], s.subs[i]);
      RecoveredLater(c, s.hist, more, s.t.waiters[i - 1], s.subs[i - 1],
                     s.subs[i].born, s.subs[i].began, s.subs[i].born, s.subs[i].began);
    }
  }

  // ----- every other step

  lemma MarkingPassive(c: Config, s: Sys, a: Step)
    requires Enabled(c, s, a) && Marks(a)
    ensures Do(c, s, a).hist == s.hist && Do(c, s, a).t == s.t
  {
  }

  lemma OtherPassive(c: Config, s: Sys, a: Step)
    requires Enabled(c, s, a) && Passive(a) && !Calling(a)
    ensures Do(c, s, a).hist == s.hist
    ensures Do(c, s, a).t.queueKnown == s.t.queueKnown && Do(c, s, a).t.queueFree == s.t.queueFree
  {
    hide DutyDeadline, Stamp, Registered, OnStatus, OnPacket, OnNotice, OnFail, OnFinish, OnQuiet, OnRegister,
      Table.Linked;
  }

  lemma ElsewherePassive(c: Config, s: Sys, a: Step)
    requires Enabled(c, s, a) && Passive(a)
    ensures Do(c, s, a).hist == s.hist
    ensures Do(c, s, a).t.queueKnown == s.t.queueKnown && Do(c, s, a).t.queueFree == s.t.queueFree
  {
    hide Do, Enabled;
    if Marks(a) {
      MarkingPassive(c, s, a);
    } else if Calling(a) {
      CallChangesNothing(c, s, a);
    } else {
      OtherPassive(c, s, a);
    }
  }

  lemma ElsewhereQueue(c: Config, s: Sys, a: Step)
    requires Enabled(c, s, a) && !Hears(a)
    ensures Do(c, s, a).hist == s.hist
    ensures Do(c, s, a).t.queueKnown == s.t.queueKnown && Do(c, s, a).t.queueFree == s.t.queueFree
  {
    hide DutyDeadline, Stamp, Registered;
    if Passive(a) {
      ElsewherePassive(c, s, a);
    }
  }

  lemma StepQueue(c: Config, s: Sys, a: Step)
    requires Inv(c, s) && Enabled(c, s, a) && QueueTrue(s)
    ensures QueueTrue(Do(c, s, a))
  {
    hide Inv, Do, Enabled;
    if Hears(a) {
      HearingQueue(c, s, a);
    } else {
      ElsewhereQueue(c, s, a);
    }
  }

  predicate OnDuty(pc: PC) { pc.DutyWait? || pc.DutySeen? }

  lemma NotOnDuty(c: Config, s: Sys, a: Step)
    requires Enabled(c, s, a) && !Hears(a) && !ByTheWorld(a) && !a.ArmDuty? && !a.SeeDuty? && !a.DutyAgain?
    ensures !OnDuty(Do(c, s, a).pc)
  {
    hide DutyDeadline, Stamp, OnFinish, OnRemove, OnQuiet, OnRegister, Disarmed;
  }

  lemma NoMinutes(hist: seq<Event>, id: nat, none: Option<nat>)
    ensures Minutes(hist, id, |hist|, |hist|, none) == none
  {
  }

  lemma LengthsAgree(c: Config, s: Sys)
    requires Inv(c, s)
    ensures |s.subs| == |s.t.waiters|
  {
  }

  lemma SameLengths(c: Config, s: Sys, a: Step)
    requires Inv(c, s) && Enabled(c, s, a)
    ensures |Do(c, s, a).subs| == |Do(c, s, a).t.waiters|
  {
    hide Inv, Do, Enabled, Shape;
    StepKeeps(c, s, a);
    LengthsAgree(c, Do(c, s, a));
  }

  lemma SettledBefore(c: Config, s: Sys)
    requires Inv(c, s) && s.subs != [] && !Registered(s.pc)
    ensures s.subs[|s.subs| - 1].settled.Some? && s.subs[|s.subs| - 1].settled.value.0 <= |s.hist|
  {
    hide Justified;
    assert RecordOK(c, s.hist, s.now, s.t.waiters[|s.subs| - 1], s.subs[|s.subs| - 1]);
  }

  lemma ElsewhereDuty(c: Config, s: Sys, a: Step)
    requires Inv(c, s) && Enabled(c, s, a) && !Hears(a) && DutyTrue(s)
    ensures DutyTrue(Do(c, s, a))
  {
    hide Sound, DutyDeadline, Minutes;
    SameLengths(c, s, a);
    if a.ArmDuty? {
      SettledBefore(c, s);
      NoMinutes(s.hist, s.Cur().id, s.Cur().duty);
    } else if !ByTheWorld(a) && !a.SeeDuty? && !a.DutyAgain? {
      NotOnDuty(c, s, a);
    }
  }

  lemma StepDuty(c: Config, s: Sys, a: Step)
    requires Inv(c, s) && Enabled(c, s, a) && DutyTrue(s)
    ensures DutyTrue(Do(c, s, a))
  {
    hide Sound;
    if Hears(a) {
      HearingDuty(c, s, a);
    } else {
      ElsewhereDuty(c, s, a);
    }
  }

  /** Reading the queue: if it shows a free slot, that was reported after the rejection and
      has not been overtaken. */
  lemma SeesRoom(c: Config, s: Sys)
    requires Inv(c, s) && Enabled(c, s, SeeQueue) && QueueTrue(s)
    ensures s.subs != [] && s.subs[|s.subs| - 1].settled.Some?
    ensures s.t.queueKnown && s.t.queueFree > 0 ==>
      RoomKnown(s.hist, s.subs[|s.subs| - 1].settled.value.0, |s.hist|)
  {
    var last := |s.subs| - 1;
    assert RecordOK(c, s.hist, s.now, s.t.waiters[last], s.subs[last]);
    var n := s.subs[last].settled.value.0;
    if s.t.queueKnown && s.t.queueFree > 0 {
      var h: nat :| LatestStatus(s.hist, h) && s.hist[h].free == s.t.queueFree;
      assert s.hist[n - 1].Status? && s.hist[n - 1].free == 0;
    }
  }

  lemma SeesMinutes(c: Config, s: Sys)
    requires DutyTrue(s) && s.pc.DutyWait? && s.subs != []
    ensures var w, b := s.Cur(), s.subs[|s.subs| - 1];
            && b.settled.Some? && b.armed.Some? && b.settled.value.0 <= b.armed.value <= |s.hist|
            && s.t.dutyMinutes == Minutes(s.hist, w.id, b.armed.value, |s.hist|, w.duty)
  {
  }

  lemma HasNotRead(c: Config, s: Sys, a: Step)
    requires Enabled(c, s, a) && !Hears(a) && !ByTheWorld(a) && !a.SeeQueue? && !a.SeeDuty?
    ensures !Do(c, s, a).pc.QueueSeen? && !Do(c, s, a).pc.DutySeen?
  {
    hide DutyDeadline, Stamp, OnFinish, OnRemove, OnQuiet, OnRegister, Disarmed;
  }

  lemma WorldRead(c: Config, s: Sys, a: Step)
    requires Enabled(c, s, a) && ByTheWorld(a) && ReadTrue(s)
    ensures ReadTrue(Do(c, s, a))
  {
    hide HasRead;
  }

  lemma SeeQueueRead(c: Config, s: Sys)
    requires Inv(c, s) && Enabled(c, s, SeeQueue) && QueueTrue(s)
    ensures ReadTrue(Do(c, s, SeeQueue))
  {
    hide Sound, Remembers, QueueTrue, RoomKnown;
    SeesRoom(c, s);
  }

  lemma SeeDutyRead(c: Config, s: Sys)
    requires Inv(c, s) && Enabled(c, s, SeeDuty) && DutyTrue(s)
    ensures ReadTrue(Do(c, s, SeeDuty))
  {
    hide Sound, Remembers, Minutes;
    SeesMinutes(c, s);
  }

  lemma ElsewhereRead(c: Config, s: Sys, a: Step)
    requires Inv(c, s) && Enabled(c, s, a) && !Hears(a) && QueueTrue(s) && DutyTrue(s) && ReadTrue(s)
    ensures ReadTrue(Do(c, s, a))
  {
    hide Inv, Do, Enabled, QueueTrue, DutyTrue;
    if ByTheWorld(a) {
      WorldRead(c, s, a);
    } else if a.SeeQueue? {
      SeeQueueRead(c, s);
    } else if a.SeeDuty? {
      SeeDutyRead(c, s);
    } else {
      SameLengths(c, s, a);
      HasNotRead(c, s, a);
    }
  }

  lemma StepRead(c: Config, s: Sys, a: Step)
    requires Inv(c, s) && Enabled(c, s, a) && QueueTrue(s) && DutyTrue(s) && ReadTrue(s)
    ensures ReadTrue(Do(c, s, a))
  {
    hide Inv, Do, Enabled, QueueTrue, DutyTrue, ReadTrue;
    if Hears(a) {
      HearingRead(c, s, a);
    } else {
      ElsewhereRead(c, s, a);
    }
  }

  /** Going back to the head of the loop: the rejection has been recovered from. */
  lemma GoesBackRecovered(c: Config, s: Sys, a: Step)
    requires Inv(c, s) && AtHand(s) && Enabled(c, s, a) && ReadTrue(s) && GoesBack(a)
    ensures s.subs != [] && |s.subs| == |s.t.waiters|
    ensures Recovered(c, s.hist, s.Cur(), s.subs[|s.subs| - 1], |s.hist|, s.now)
  {
    hide Sound, Minutes;
  }

  lemma BeginsOutside(c: Config, s: Sys, a: Step)
    requires Enabled(c, s, a) && !AddsOrCommits(a) && Trying(Do(c, s, a).pc) && (ByTheWorld(a) || Hears(a))
    ensures Do(c, s, a).ids == s.ids && Do(c, s, a).send == s.send
    ensures GoesBack(a) || s.pc.Between? || Trying(s.pc)
  {
    hide DutyDeadline, OnStatus, OnPacket, OnNotice, OnFail, OnQuiet, OnFinish, OnRemove, Stamp, Disarmed;
  }

  lemma BeginsInside(c: Config, s: Sys, a: Step)
    requires Enabled(c, s, a) && !AddsOrCommits(a) && Trying(Do(c, s, a).pc) && !ByTheWorld(a) && !Hears(a)
    ensures Do(c, s, a).ids == s.ids && Do(c, s, a).send == s.send
    ensures GoesBack(a) || s.pc.Between? || Trying(s.pc)
  {
    hide DutyDeadline, OnStatus, OnPacket, OnNotice, OnFail, OnQuiet, OnFinish, OnRemove, Stamp, Disarmed;
  }

  /** Which steps lead to trying a chunk, and from where. */
  lemma BeginsTrying(c: Config, s: Sys, a: Step)
    requires Enabled(c, s, a) && !AddsOrCommits(a) && Trying(Do(c, s, a).pc)
    ensures Do(c, s, a).ids == s.ids && Do(c, s, a).send == s.send
    ensures GoesBack(a) || s.pc.Between? || Trying(s.pc)
  {
    hide Do, Enabled;
    if ByTheWorld(a) || Hears(a) {
      BeginsOutside(c, s, a);
    } else {
      BeginsInside(c, s, a);
    }
  }

  lemma GoingBackOnly(c: Config, s: Sys, a: Step)
    requires Enabled(c, s, a) && GoesBack(a)
    ensures Do(c, s, a).subs == s.subs && Do(c, s, a).t.waiters == s.t.waiters
            && Do(c, s, a).hist == s.hist && Do(c, s, a).now == s.now
  {
    hide DutyDeadline;
  }

  lemma TryingPlain(c: Config, s: Sys, a: Step)
    requires Inv(c, s) && Enabled(c, s, a) && !AddsOrCommits(a) && Trying(s.pc) && !Hears(a)
    ensures Do(c, s, a).subs == s.subs && Do(c, s, a).t.waiters == s.t.waiters
  {
    hide Inv, Stamp, DutyDeadline, OnStatus, OnPacket, OnNotice, OnFail, OnFinish, OnRemove, OnQuiet, OnRegister,
      Table.Linked;
  }

  lemma TryingUnchanged(c: Config, s: Sys, a: Step)
    requires Inv(c, s) && Enabled(c, s, a) && !AddsOrCommits(a) && Trying(s.pc)
    ensures Do(c, s, a).subs == s.subs && Do(c, s, a).t.waiters == s.t.waiters
  {
    hide Inv, Do, Enabled, Kept, Shape;
    if Hears(a) {
      Hearing(c, s, a);
    } else {
      TryingPlain(c, s, a);
    }
  }

  lemma BornBefore(c: Config, s: Sys)
    requires Inv(c, s)
    ensures |s.subs| == |s.t.waiters| && forall i :: 0 <= i < |s.subs| ==> s.subs[i].born <= |s.hist|
  {
  }

  lemma TriedAgain(c: Config, s: Sys, a: Step)
    requires Inv(c, s) && Books(s) && Enabled(c, s, a) && !AddsOrCommits(a)
    requires ReadTrue(s) && AllRecovered(c, s)
    requires Trying(Do(c, s, a).pc) && Do(c, s, a).subs != []
    ensures var s' := Do(c, s, a);
            |s'.subs| == |s'.t.waiters| &&
            (s'.subs[|s'.subs| - 1].send == s'.send && s'.subs[|s'.subs| - 1].chunk == |s'.ids| ==>
               Recovered(c, s'.hist, s'.Cur(), s'.subs[|s'.subs| - 1], |s'.hist|, s'.now))
  {
    hide Inv, Do, Enabled, Recovered, ReadTrue, Ordered, SafeRetries, Preceded, Reported, NoneForgotten;
    var s' := Do(c, s, a);
    StepKept(c, s, a);
    BeginsTrying(c, s, a);
    if GoesBack(a) {
      GoesBackRecovered(c, s, a);
      GoingBackOnly(c, s, a);
    } else if Trying(s.pc) {
      TryingUnchanged(c, s, a);
      var last := |s.subs| - 1;
      if s.subs[last].send == s.send && s.subs[last].chunk == |s.ids| {
        var more := s'.hist[|s.hist|..];
        assert s'.hist == s.hist + more;
        RecoveredLater(c, s.hist, more, s.Cur(), s.subs[last], |s.hist|, s.now, |s'.hist|, s'.now);
      }
    }
  }

  lemma KeptRecovered(c: Config, s: Sys, a: Step)
    requires Inv(c, s) && Books(s) && Enabled(c, s, a) && !AddsOrCommits(a)
    requires ReadTrue(s) && AllRecovered(c, s)
    ensures AllRecovered(c, Do(c, s, a))
  {
    hide Inv, Books, Do, Enabled, Recovered, ReadTrue;
    var s' := Do(c, s, a);
    StepKept(c, s, a);
    RecoveredKept(c, s, s');
    BornBefore(c, s);
    if Trying(s'.pc) && s'.subs != [] {
      TriedAgain(c, s, a);
    }
  }

  lemma EnterRecovered(c: Config, s: Sys, dest: nat)
    requires Inv(c, s) && Enabled(c, s, Enter(dest)) && AllRecovered(c, s)
    ensures AllRecovered(c, Do(c, s, Enter(dest)))
  {
    hide Inv, Do, Recovered;
    var s' := Do(c, s, Enter(dest));
    Entered(c, s, dest);
    EnterPacing(c, s, dest);
    ElsewhereQueue(c, s, Enter(dest));
    BornBefore(c, s);
    forall i | 0 < i < |s'.subs| && SameJob(s'.subs[i - 1], s'.subs[i]) && s'.subs[i].born <= |s'.hist|
      ensures Recovered(c, s'.hist, s'.t.waiters[i - 1], s'.subs[i - 1], s'.subs[i].born, s'.subs[i].began)
    {
      if i < |s.subs| {
        assert SameJob(s.subs[i - 1], s.subs[i]);
      }
    }
  }

  lemma CommitRecovered(c: Config, s: Sys, a: Step)
    requires Inv(c, s) && Enabled(c, s, a) && (a.Commit? || a.CommitFailed?) && AllRecovered(c, s)
    ensures AllRecovered(c, Do(c, s, a))
  {
    hide Inv, Recovered;
    var s' := Do(c, s, a);
    forall i | 0 < i < |s'.subs| && SameJob(s'.subs[i - 1], s'.subs[i]) && s'.subs[i].born <= |s'.hist|
      ensures Recovered(c, s'.hist, s'.t.waiters[i - 1], s'.subs[i - 1], s'.subs[i].born, s'.subs[i].began)
    {
      assert SameJob(s.subs[i - 1], s.subs[i]);
    }
  }

  lemma StepRecovering(c: Config, s: Sys, a: Step)
    requires Inv(c, s) && Books(s) && Enabled(c, s, a) && Recovering(c, s)
    ensures Recovering(c, Do(c, s, a))
  {
    hide Inv, Books, Do, Enabled, QueueTrue, DutyTrue, ReadTrue, AllRecovered;
    StepQueue(c, s, a);
    StepDuty(c, s, a);
    StepRead(c, s, a);
    if a.Enter? {
      EnterRecovered(c, s, a.destination);
    } else if a.Commit? || a.CommitFailed? {
      CommitRecovered(c, s, a);
    } else {
      KeptRecovered(c, s, a);
    }
  }

  lemma {:induction false} RunRecovering(c: Config, s: Sys, steps: seq<Step>)
    requires Inv(c, s) && Books(s) && Recovering(c, s) && CanRun(c, s, steps)
    ensures Inv(c, Run(c, s, steps)) && Recovering(c, Run(c, s, steps))
    decreases |steps|
  {
    hide Inv, Books, Recovering;
    if steps != [] {
      StepKeeps(c, s, steps[0]);
      StepKeepsBooks(c, s, steps[0]);
      StepRecovering(c, s, steps[0]);
      RunRecovering(c, Do(c, s, steps[0]), steps[1..]);
    }
  }

  lemma ReachesRecovering(c: Config, now: int, steps: seq<Step>)
    requires CanRun(c, Init(now), steps)
    ensures var s := Run(c, Init(now), steps); Inv(c, s) && Recovering(c, s)
  {
    hide Inv, Books, Recovering;
    InitInv(c, now);
    InitBooks(now);
    InitRecovering(c, now);
    RunRecovering(c, Init(now), steps);
  }

  /** In every run, a chunk that was turned down is only tried again after recovery: after
      queue full, when the sender last looked the free count was known and positive, from a
      report since the rejection that no later report and no failed attempt had replaced; after
      a duty-cycle rejection, the minutes that it last saw had passed since the rejection, one
      hour at most and the send delay at least. */
  lemma RetriesWaitForRecovery(c: Config, now: int, steps: seq<Step>, i: nat)
    requires CanRun(c, Init(now), steps)
    ensures var s := Run(c, Init(now), steps);
            0 < i < |s.subs| && SameJob(s.subs[i - 1], s.subs[i]) ==>
              && |s.t.waiters| == |s.subs| && s.subs[i].born <= |s.hist|
              && Recovered(c, s.hist, s.t.waiters[i - 1], s.subs[i - 1], s.subs[i].born, s.subs[i].began)
  {
    hide Inv, Books, Recovered, QueueTrue, DutyTrue, ReadTrue;
    ReachesRecovering(c, now, steps);
    BornBefore(c, Run(c, Init(now), steps));
  }
}
