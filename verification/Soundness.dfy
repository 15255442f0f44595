/** Verdicts are sound and final in every run. */
module Soundness {
  import opened Options
  import opened Acceptance
  import opened Protocol
  import opened Verdicts

  // ----- the invariant

  /** At most the sender's own record is in the table, and it alone may be undecided. */
  ghost predicate Shape(s: Sys) {
    && |s.subs| == |s.t.waiters|
    && (HasCurrent(s.pc) ==> s.subs != [])
    && s.t.pending == (if Registered(s.pc) then map[s.Cur().id := |s.subs| - 1] else map[])
    && (forall i :: 0 <= i < |s.subs| && s.t.waiters[i].terminal == Pending ==>
          Registered(s.pc) && i == |s.subs| - 1)
    && (forall i :: 0 <= i < |s.subs| ==> s.t.waiters[i].id != 0)
    && (s.pc.Register? ==> s.pc.id != 0)
  }

  ghost predicate Sound(c: Config, s: Sys) {
    && |s.subs| == |s.t.waiters|
    && (forall i :: 0 <= i < |s.subs| ==> RecordOK(c, s.hist, s.now, s.t.waiters[i], s.subs[i]))
    && (forall i :: 0 <= i < |s.subs| ==> s.subs[i].born <= |s.hist| && s.subs[i].began <= s.now)
    && (forall h :: 0 <= h < |s.hist| ==> s.hist[h].time <= s.now)
  }

  /** What the sender remembers of its record is true. */
  ghost predicate Remembers(c: Config, s: Sys) {
    HasCurrent(s.pc) && |s.subs| == |s.t.waiters| > 0 ==>
      var w, b := s.Cur(), s.subs[|s.subs| - 1];
      && b.born <= |s.hist|
      && match s.pc
         case Looked(seenAt) => ConfirmedAt(s.hist, b.born, |s.hist|, w, seenAt)
         case QuietDue(seenAt) =>
           ConfirmedAt(s.hist, b.born, |s.hist|, w, seenAt) && seenAt + c.grace <= s.now
         case Judge(_, _, kind) => kind == w.terminal
         case Settled(kind, at, duty) => kind == w.terminal != Pending && at == w.at && duty == w.duty
         case Switch(kind, at, duty) => kind == w.terminal && at == w.at && duty == w.duty
         case QueueWait(at) => w.terminal == QueueFull && at == w.at
         case QueueSeen(at, _, _) => w.terminal == QueueFull && at == w.at
         case DutyArm(at, duty) => w.terminal == Duty && at == w.at && duty == w.duty
         case DutyWait(at) => w.terminal == Duty && at == w.at
         case DutySeen(at, _) => w.terminal == Duty && at == w.at
         case _ => true
  }

  ghost predicate Inv(c: Config, s: Sys) { Shape(s) && Sound(c, s) && Remembers(c, s) }

  lemma InitInv(c: Config, now: int)
    ensures Inv(c, Init(now))
  {
  }

  // ----- hearing an event

  /** The table after an event: only the record of the sender can have changed. */
  ghost predicate HeardBy(s: Sys, e: Event, t: Table) {
    && t.pending == s.t.pending
    && t.waiters == if Registered(s.pc) && s.t.waiters != []
                    then s.t.waiters[|s.t.waiters| - 1 := Effect(e, s.Cur())] else s.t.waiters
  }

  lemma StatusHeard(s: Sys, id: nat, res: int, free: nat)
    requires Shape(s)
    ensures s.t.Linked()
    ensures HeardBy(s, Status(id, res, free, s.now), OnStatus(s.t, id, res, free, s.now))
  {
  }

  lemma PacketHeard(s: Sys, attempt: nat, own: nat, p: Packet)
    requires Shape(s)
    ensures s.t.Linked()
    ensures HeardBy(s, Control(attempt, own, p, s.now), OnPacket(s.t, attempt, own, p, s.now))
  {
  }

  lemma NoticeHeard(s: Sys, id: nat, minutes: nat)
    requires Shape(s)
    ensures s.t.Linked()
    ensures HeardBy(s, Notice(id, minutes, s.now), OnNotice(s.t, id, minutes))
  {
  }

  lemma FailureHeard(s: Sys, attempt: nat)
    requires Shape(s)
    ensures HeardBy(s, Failure(attempt, s.now), OnFail(s.t, attempt, Ambiguous, s.now))
  {
    var t := OnFail(s.t, attempt, Ambiguous, s.now);
    forall i | 0 <= i < |s.t.waiters| && !(Registered(s.pc) && i == |s.t.waiters| - 1)
      ensures t.waiters[i] == s.t.waiters[i]
    {
    }
    assert Registered(s.pc) ==>
      t.waiters == s.t.waiters[|s.t.waiters| - 1 := Effect(Failure(attempt, s.now), s.Cur())];
    assert !Registered(s.pc) ==> t.waiters == s.t.waiters;
  }

  lemma SettledStays(c: Config, s: Sys, i: nat, more: seq<Event>, later: int)
    requires Inv(c, s) && i < |s.subs| && s.t.waiters[i].terminal != Pending && s.now <= later
    ensures RecordOK(c, s.hist + more, later, s.t.waiters[i], s.subs[i])
  {
    StaysSettled(c, s.hist, more, s.now, later, s.t.waiters[i], s.subs[i]);
  }

  lemma SeenStays(s: Sys, e: Event, v: Waiter, seenAt: int)
    requires Shape(s) && s.subs != [] && SameRecord(s.Cur(), v)
    requires s.subs[|s.subs| - 1].born <= |s.hist|
    requires ConfirmedAt(s.hist, s.subs[|s.subs| - 1].born, |s.hist|, s.Cur(), seenAt)
    ensures ConfirmedAt(s.hist + [e], s.subs[|s.subs| - 1].born, |s.hist| + 1, v, seenAt)
  {
    OneMoreAt(s.hist, e, s.subs[|s.subs| - 1].born, s.Cur(), v, seenAt);
  }

  lemma EffectOnCurrent(c: Config, s: Sys, e: Event)
    requires Inv(c, s) && Registered(s.pc) && e.time == s.now
    ensures SameRecord(s.Cur(), Effect(e, s.Cur()))
    ensures s.Cur().terminal != Pending ==> Effect(e, s.Cur()) == s.Cur()
    ensures var v := Effect(e, s.Cur());
            var b := s.subs[|s.subs| - 1];
            RecordOK(c, s.hist + [e], s.now, v,
              if s.Cur().terminal == Pending && v.terminal != Pending
              then b.(settled := Some((|s.hist| + 1, s.now))) else b)
  {
    var last := |s.subs| - 1;
    if s.Cur().terminal == Pending {
      assert RecordOK(c, s.hist, s.now, s.t.waiters[last], s.subs[last]);
      EffectCases(e, s.Cur());
      EventKeeps(c, s.hist, s.now, s.Cur(), s.subs[last], e);
    } else {
      SettledStays(c, s, last, [e], s.now);
    }
  }

  lemma SameFields(w: Waiter, v: Waiter)
    requires SameRecord(w, v)
    ensures w.id == v.id
  {
  }

  lemma HearSound(c: Config, s: Sys, e: Event, t: Table)
    requires Inv(c, s) && HeardBy(s, e, t) && e.time == s.now
    ensures Shape(Hear(s, e, t)) && Sound(c, Hear(s, e, t))
  {
    hide RecordOK, Effect, SameRecord, Remembers;
    var s' := Hear(s, e, t);
    var last := |s.subs| - 1;
    if Registered(s.pc) {
      EffectOnCurrent(c, s, e);
      assert SameRecord(s.Cur(), Effect(e, s.Cur()));
      SameFields(s.Cur(), Effect(e, s.Cur()));
    }
    forall i | 0 <= i < |s'.subs|
      ensures RecordOK(c, s'.hist, s'.now, s'.t.waiters[i], s'.subs[i])
    {
      if i < last || !Registered(s.pc) {
        SettledStays(c, s, i, [e], s.now);
      }
    }
  }

  lemma Itself(w: Waiter)
    ensures SameRecord(w, w)
  {
  }

  lemma HearRemembers(c: Config, s: Sys, e: Event, t: Table)
    requires Inv(c, s) && HeardBy(s, e, t) && e.time == s.now
    ensures Remembers(c, Hear(s, e, t))
  {
    hide RecordOK, Effect, SameRecord, Sound, ConfirmedAt;
    if HasCurrent(s.pc) {
      var v := if Registered(s.pc) then Effect(e, s.Cur()) else s.Cur();
      if Registered(s.pc) {
        EffectOnCurrent(c, s, e);
      } else {
        Itself(s.Cur());
      }
      match s.pc {
        case Looked(seenAt) => SeenStays(s, e, v, seenAt);
        case QuietDue(seenAt) => SeenStays(s, e, v, seenAt);
        case _ =>
      }
    }
  }

  // ----- the sender acts on its own record

  /** The record of the sender is settled by the sender itself, or left alone. */
  lemma OwnActionSound(c: Config, s: Sys, v: Waiter, t: Table)
    requires Inv(c, s) && Registered(s.pc)
    requires t.waiters == s.t.waiters[|s.subs| - 1 := v] && v.id == s.Cur().id
    requires s.Cur().terminal == Pending && v.terminal != Pending ==>
      SettledOK(c, s.hist, s.now, v, s.subs[|s.subs| - 1].(settled := Some((|s.hist|, s.now))))
    requires s.Cur().terminal == Pending && v.terminal == Pending ==> v == s.Cur()
    requires s.Cur().terminal != Pending ==> v == s.Cur()
    ensures Sound(c, s.(t := t, subs := Stamp(s, t, |s.hist|)))
  {
    hide Remembers, PendingOK, SettledOK;
    var s' := s.(t := t, subs := Stamp(s, t, |s.hist|));
    forall i | 0 <= i < |s'.subs|
      ensures RecordOK(c, s'.hist, s'.now, s'.t.waiters[i], s'.subs[i])
    {
      assert RecordOK(c, s.hist, s.now, s.t.waiters[i], s.subs[i]);
    }
  }

  lemma RemoveKeeps(c: Config, s: Sys)
    requires Inv(c, s) && Enabled(c, s, Remove)
    ensures Sound(c, Do(c, s, Remove))
  {
    hide PendingOK, SettledOK, ConfirmedAt;
    var last := |s.subs| - 1;
    var v := Finish(s.Cur(), Ambiguous, s.now);
    assert RecordOK(c, s.hist, s.now, s.t.waiters[last], s.subs[last]);
    if s.Cur().terminal == Pending {
      GivingUpKeeps(c, s.hist, s.now, s.Cur(), s.subs[last]);
    }
    OwnActionSound(c, s, v, OnRemove(OnFinish(s.t, last, Ambiguous, s.now), last));
  }

  lemma ExpireKeeps(c: Config, s: Sys)
    requires Inv(c, s) && Enabled(c, s, Expire)
    ensures Sound(c, Do(c, s, Expire))
  {
    hide PendingOK, SettledOK, ConfirmedAt;
    var last := |s.subs| - 1;
    var v := Finish(s.Cur(), Ambiguous, s.now);
    assert RecordOK(c, s.hist, s.now, s.t.waiters[last], s.subs[last]);
    if s.Cur().terminal == Pending {
      GivingUpKeeps(c, s.hist, s.now, s.Cur(), s.subs[last]);
    }
    OwnActionSound(c, s, v, OnFinish(s.t, last, Ambiguous, s.now));
  }

  lemma QueueAtPast(hist: seq<Event>, now: int, w: Waiter, b: Submission)
    requires PendingOK(hist, w, b) && w.queueOK
    requires forall h :: 0 <= h < |hist| ==> hist[h].time <= now
    ensures w.queueAt <= now
  {
  }

  lemma QuietStepKeeps(c: Config, s: Sys)
    requires Inv(c, s) && Enabled(c, s, Quiet)
    ensures Sound(c, Do(c, s, Quiet))
  {
    hide SettledOK, PendingOK;
    var last := |s.subs| - 1;
    assert RecordOK(c, s.hist, s.now, s.t.waiters[last], s.subs[last]);
    if s.Cur().terminal == Pending && s.Cur().queueOK {
      QueueAtPast(s.hist, s.now, s.Cur(), s.subs[last]);
      QuietKeeps(c, s.hist, s.now, s.Cur(), s.subs[last], s.pc.seenAt);
    }
    OwnActionSound(c, s, OnQuiet(s.t, last).waiters[last], OnQuiet(s.t, last));
  }

  lemma RemoveShape(c: Config, s: Sys)
    requires Inv(c, s) && Enabled(c, s, Remove)
    ensures Shape(Do(c, s, Remove)) && Remembers(c, Do(c, s, Remove))
  {
    hide Sound, ConfirmedAt;
  }

  /** The record may have been settled, by its own sender; the rest of the state follows. */
  lemma OwnActionShape(c: Config, s: Sys, a: Step)
    requires Inv(c, s) && Enabled(c, s, a) && (a.Remove? || a.Expire? || a.Quiet?)
    ensures Shape(Do(c, s, a)) && Remembers(c, Do(c, s, a))
  {
    hide Sound, ConfirmedAt;
    if a.Remove? {
      RemoveShape(c, s);
    }
  }

  // ----- every other step

  /** Steps that change no record, and of the history only what verdicts do not look at. */
  ghost predicate Untouched(s: Sys, s': Sys) {
    && s'.t.waiters == s.t.waiters && s'.hist == s.hist && s.now <= s'.now
    && |s'.subs| == |s.subs|
    && forall i :: 0 <= i < |s.subs| ==>
         && s'.subs[i].began == s.subs[i].began && s'.subs[i].born == s.subs[i].born
         && s'.subs[i].settled == s.subs[i].settled
  }

  lemma BookkeepingOnly(c: Config, hist: seq<Event>, w: Waiter, b: Submission, b': Submission)
    requires b'.born == b.born
    ensures forall n: nat, time | b.born <= n <= |hist| ::
      Justified(c, hist, w, b', n, time) == Justified(c, hist, w, b, n, time)
  {
  }

  lemma UntouchedSound(c: Config, s: Sys, s': Sys)
    requires Sound(c, s) && Untouched(s, s')
    ensures Sound(c, s')
  {
    hide Justified;
    forall i | 0 <= i < |s'.subs|
      ensures RecordOK(c, s'.hist, s'.now, s'.t.waiters[i], s'.subs[i])
    {
      assert RecordOK(c, s.hist, s.now, s.t.waiters[i], s.subs[i]);
      BookkeepingOnly(c, s.hist, s.t.waiters[i], s.subs[i], s'.subs[i]);
    }
  }

  /** Steps whose effect is not on the records. */
  predicate Passive(a: Step) {
    !a.HearStatus? && !a.HearPacket? && !a.HearNotice? && !a.AttemptFails? && !a.Enter?
    && !a.Remove? && !a.Quiet? && !a.Expire?
  }

  predicate ByTheWorld(a: Step) { a.Tick? || a.Cancel? || a.SetReady? }

  lemma WorldKeeps(c: Config, s: Sys, a: Step)
    requires Inv(c, s) && Enabled(c, s, a) && ByTheWorld(a)
    ensures Inv(c, Do(c, s, a))
  {
    hide Sound, ConfirmedAt;
    UntouchedSound(c, s, Do(c, s, a));
  }

  lemma LookKeeps(c: Config, s: Sys)
    requires Inv(c, s) && Enabled(c, s, Look)
    ensures Inv(c, Do(c, s, Look))
  {
    hide Justified;
    UntouchedSound(c, s, Do(c, s, Look));
    var last := |s.subs| - 1;
    assert RecordOK(c, s.hist, s.now, s.t.waiters[last], s.subs[last]);
  }

  lemma LeaveKeeps(c: Config, s: Sys)
    requires Inv(c, s) && Enabled(c, s, Leave)
    ensures Inv(c, Do(c, s, Leave))
  {
    hide Sound;
    UntouchedSound(c, s, Do(c, s, Leave));
  }

  /** Passive steps of the sender leave the records, the table and the history alone. */
  ghost predicate LeavesAlone(s: Sys, s': Sys) {
    && s'.t.waiters == s.t.waiters && s'.t.pending == s.t.pending
    && s'.hist == s.hist && s'.now == s.now && |s'.subs| == |s.subs|
    && (s.subs != [] ==>
          var b, b' := s.subs[|s.subs| - 1], s'.subs[|s.subs| - 1];
          && s'.subs == s.subs[|s.subs| - 1 := b']
          && b'.began == b.began && b'.born == b.born && b'.settled == b.settled)
  }

  lemma AloneIsUntouched(s: Sys, s': Sys)
    requires LeavesAlone(s, s')
    ensures Untouched(s, s')
  {
  }

  predicate Calling(a: Step) {
    a.CallOk? || a.CallError? || a.CommitFailed? || a.Retry? || a.FailCall? || a.Decide? || a.Wake?
    || a.Commit? || a.BackOffQueue? || a.BackOffRate? || a.BackOffDuty? || a.FailVerdict?
  }

  /** Steps that mark the latest submission. */
  predicate Marks(a: Step) { a.CallOk? || a.CallError? || a.CommitFailed? || a.Commit? }

  lemma MarkAlone(c: Config, s: Sys, a: Step)
    requires Enabled(c, s, a) && Marks(a)
    ensures LeavesAlone(s, Do(c, s, a))
  {
  }

  lemma UnmarkedAlone(c: Config, s: Sys, a: Step)
    requires Enabled(c, s, a) && Calling(a) && !Marks(a)
    ensures LeavesAlone(s, Do(c, s, a))
  {
    hide OnStatus, OnPacket, OnNotice, OnFail, OnFinish, OnQuiet, OnRegister, DutyDeadline, Stamp, Table.Linked;
  }

  lemma CallAlone(c: Config, s: Sys, a: Step)
    requires Enabled(c, s, a) && Calling(a)
    ensures LeavesAlone(s, Do(c, s, a))
  {
    hide Do, Enabled, LeavesAlone;
    if Marks(a) {
      MarkAlone(c, s, a);
    } else {
      UnmarkedAlone(c, s, a);
    }
  }

  lemma OtherAlone(c: Config, s: Sys, a: Step)
    requires Enabled(c, s, a) && Passive(a) && !ByTheWorld(a) && !Calling(a) && !a.Leave?
    ensures LeavesAlone(s, Do(c, s, a))
  {
    hide DutyDeadline;
  }

  /** Where passive steps lead. */
  lemma PassivePCs(c: Config, s: Sys, a: Step)
    requires Enabled(c, s, a) && Passive(a) && !ByTheWorld(a) && !a.Leave?
    ensures var pc' := Do(c, s, a).pc;
            && (Registered(pc') <==> Registered(s.pc)) && (HasCurrent(pc') ==> HasCurrent(s.pc))
            && (pc'.Register? ==> pc'.id != 0)
  {
    hide DutyDeadline, Disarmed, OnStatus, OnPacket, OnNotice, OnFail, OnFinish, OnRemove, OnQuiet, OnRegister, Stamp,
      Table.Linked;
  }

  lemma AloneShape(s: Sys, s': Sys)
    requires Shape(s) && LeavesAlone(s, s')
    requires Registered(s'.pc) <==> Registered(s.pc)
    requires HasCurrent(s'.pc) ==> HasCurrent(s.pc)
    requires s'.pc.Register? ==> s'.pc.id != 0
    ensures Shape(s')
  {
  }

  lemma CallRemembers(c: Config, s: Sys, a: Step)
    requires Remembers(c, s) && Enabled(c, s, a) && Calling(a)
    ensures Remembers(c, Do(c, s, a))
  {
    hide ConfirmedAt;
  }

  lemma OtherRemembers(c: Config, s: Sys, a: Step)
    requires Remembers(c, s) && Enabled(c, s, a) && Passive(a) && !ByTheWorld(a) && !Calling(a)
    requires !a.Leave? && !a.Look?
    ensures Remembers(c, Do(c, s, a))
  {
    hide ConfirmedAt, DutyDeadline;
  }

  lemma PassiveKeeps(c: Config, s: Sys, a: Step)
    requires Inv(c, s) && Enabled(c, s, a) && Passive(a) && !ByTheWorld(a) && !a.Look? && !a.Leave?
    ensures Inv(c, Do(c, s, a))
  {
    hide Shape, Sound, Remembers, Do, Enabled, Untouched;
    if Calling(a) {
      CallAlone(c, s, a);
      CallRemembers(c, s, a);
    } else {
      OtherAlone(c, s, a);
      OtherRemembers(c, s, a);
    }
    PassivePCs(c, s, a);
    AloneShape(s, Do(c, s, a));
    AloneIsUntouched(s, Do(c, s, a));
    UntouchedSound(c, s, Do(c, s, a));
  }

  lemma FreshOK(c: Config, s: Sys, dest: nat)
    requires s.pc.Register? && s.pc.id != 0
    ensures RecordOK(c, s.hist, s.now,
      Waiter(s.pc.id, dest, s.pc.attempt, false, false, 0, Pending, 0, None),
      Submission(s.send, |s.ids|, s.now, |s.hist|, InFlight, None, false, None, None))
  {
  }

  lemma EnterKeeps(c: Config, s: Sys, dest: nat)
    requires Inv(c, s) && Enabled(c, s, Enter(dest))
    ensures Inv(c, Do(c, s, Enter(dest)))
  {
    hide RecordOK, ConfirmedAt;
    var s' := Do(c, s, Enter(dest));
    FreshOK(c, s, dest);
    assert s.t.pending == map[];
    forall i | 0 <= i < |s.subs|
      ensures RecordOK(c, s'.hist, s'.now, s'.t.waiters[i], s'.subs[i])
    {
    }
  }

  lemma HearKeeps(c: Config, s: Sys, e: Event, t: Table)
    requires Inv(c, s) && HeardBy(s, e, t) && e.time == s.now
    ensures Inv(c, Hear(s, e, t))
  {
    hide Shape, Sound, Remembers, Hear;
    HearSound(c, s, e, t);
    HearRemembers(c, s, e, t);
  }

  /** Every step keeps the invariant. */
  lemma StepKeeps(c: Config, s: Sys, a: Step)
    requires Inv(c, s) && Enabled(c, s, a)
    ensures Inv(c, Do(c, s, a))
  {
    hide Shape, Sound, Remembers, Hear;
    match a {
      case HearStatus(id, res, free) =>
        StatusHeard(s, id, res, free);
        HearKeeps(c, s, Status(id, res, free, s.now), OnStatus(s.t, id, res, free, s.now));
      case HearPacket(attempt, own, p) =>
        PacketHeard(s, attempt, own, p);
        HearKeeps(c, s, Control(attempt, own, p, s.now), OnPacket(s.t, attempt, own, p, s.now));
      case HearNotice(id, minutes) =>
        NoticeHeard(s, id, minutes);
        HearKeeps(c, s, Notice(id, minutes, s.now), OnNotice(s.t, id, minutes));
      case AttemptFails(attempt) =>
        FailureHeard(s, attempt);
        HearKeeps(c, s, Failure(attempt, s.now), OnFail(s.t, attempt, Ambiguous, s.now));
      case Enter(dest) => EnterKeeps(c, s, dest);
      case Remove =>
        RemoveKeeps(c, s);
        OwnActionShape(c, s, a);
      case Quiet =>
        QuietStepKeeps(c, s);
        OwnActionShape(c, s, a);
      case Expire =>
        ExpireKeeps(c, s);
        OwnActionShape(c, s, a);
      case Look => LookKeeps(c, s);
      case Leave => LeaveKeeps(c, s);
      case _ =>
        if ByTheWorld(a) {
          WorldKeeps(c, s, a);
        } else {
          PassiveKeeps(c, s, a);
        }
    }
  }

  lemma {:induction false} RunKeeps(c: Config, s: Sys, steps: seq<Step>)
    requires Inv(c, s) && CanRun(c, s, steps)
    ensures Inv(c, Run(c, s, steps))
    decreases |steps|
  {
    hide Inv;
    if steps != [] {
      StepKeeps(c, s, steps[0]);
      RunKeeps(c, Do(c, s, steps[0]), steps[1..]);
    }
  }

  // ----- main results

  /** Every verdict in every run is justified by the messages heard: in particular an
      accepted submission was confirmed by a Res-0 QueueStatus, no rejection was heard first,
      and either a valid local echo was heard or the grace had elapsed since such a status. */
  lemma VerdictsAreSound(c: Config, now: int, steps: seq<Step>, i: nat)
    requires CanRun(c, Init(now), steps)
    ensures var s := Run(c, Init(now), steps);
            i < |s.subs| ==>
              && |s.t.waiters| == |s.subs|
              && (s.t.waiters[i].terminal != Pending ==>
                    SettledOK(c, s.hist, s.now, s.t.waiters[i], s.subs[i]))
  {
    hide SettledOK, PendingOK;
    InitInv(c, now);
    RunKeeps(c, Init(now), steps);
    var s := Run(c, Init(now), steps);
    if i < |s.subs| {
      assert RecordOK(c, s.hist, s.now, s.t.waiters[i], s.subs[i]);
    }
  }

  lemma HeardFinal(s: Sys, e: Event, t: Table, i: nat)
    requires HeardBy(s, e, t) && i < |s.t.waiters| && s.t.waiters[i].terminal != Pending
    ensures i < |t.waiters| && t.waiters[i] == s.t.waiters[i]
  {
  }

  lemma PassiveFinal(c: Config, s: Sys, a: Step)
    requires Enabled(c, s, a) && Passive(a)
    ensures Do(c, s, a).t.waiters == s.t.waiters
  {
    hide DutyDeadline, Stamp, Registered, HasCurrent;
  }

  lemma PlainFinal(c: Config, s: Sys, a: Step, i: nat)
    requires Enabled(c, s, a) && i < |s.t.waiters| && s.t.waiters[i].terminal != Pending
    requires !a.HearStatus? && !a.HearPacket? && !a.HearNotice? && !a.AttemptFails?
    ensures i < |Do(c, s, a).t.waiters| && Do(c, s, a).t.waiters[i] == s.t.waiters[i]
  {
    hide DutyDeadline, Stamp, Registered, HasCurrent;
    if Passive(a) {
      hide Do, Enabled;
      PassiveFinal(c, s, a);
    }
  }

  /** A decided record is never touched again by a step. */
  lemma StepFinal(c: Config, s: Sys, a: Step, i: nat)
    requires Inv(c, s) && Enabled(c, s, a) && i < |s.t.waiters| && s.t.waiters[i].terminal != Pending
    ensures i < |Do(c, s, a).t.waiters| && Do(c, s, a).t.waiters[i] == s.t.waiters[i]
  {
    hide Shape, Sound, Remembers, HeardBy, Stamp, OnStatus, OnPacket, OnNotice, OnFail;
    match a {
      case HearStatus(id, res, free) =>
        StatusHeard(s, id, res, free);
        HeardFinal(s, Status(id, res, free, s.now), OnStatus(s.t, id, res, free, s.now), i);
      case HearPacket(attempt, own, p) =>
        PacketHeard(s, attempt, own, p);
        HeardFinal(s, Control(attempt, own, p, s.now), OnPacket(s.t, attempt, own, p, s.now), i);
      case HearNotice(id, minutes) =>
        NoticeHeard(s, id, minutes);
        HeardFinal(s, Notice(id, minutes, s.now), OnNotice(s.t, id, minutes), i);
      case AttemptFails(attempt) =>
        FailureHeard(s, attempt);
        HeardFinal(s, Failure(attempt, s.now), OnFail(s.t, attempt, Ambiguous, s.now), i);
      case _ => PlainFinal(c, s, a, i);
    }
  }

  /** Verdicts are final: a decided record stays as it is for the rest of any run. */
  lemma {:induction false} VerdictsAreFinal(c: Config, s: Sys, steps: seq<Step>, i: nat)
    requires Inv(c, s) && CanRun(c, s, steps)
    requires i < |s.t.waiters| && s.t.waiters[i].terminal != Pending
    ensures i < |Run(c, s, steps).t.waiters| && Run(c, s, steps).t.waiters[i] == s.t.waiters[i]
    decreases |steps|
  {
    hide Inv;
    if steps != [] {
      StepFinal(c, s, steps[0], i);
      StepKeeps(c, s, steps[0]);
      VerdictsAreFinal(c, Do(c, s, steps[0]), steps[1..], i);
    }
  }

  /** The table holds at most the record of the sender, and nothing when no Send runs. */
  lemma AtMostOnePending(c: Config, now: int, steps: seq<Step>)
    requires CanRun(c, Init(now), steps)
    ensures var s := Run(c, Init(now), steps);
            |s.t.pending| <= 1 && (s.pc.Idle? || s.pc.Between? ==> s.t.pending == map[])
  {
    hide Sound, Remembers;
    InitInv(c, now);
    RunKeeps(c, Init(now), steps);
  }
}
