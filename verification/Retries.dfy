/** No chunk is submitted again unless that is safe, and Send reports what was accepted. */
module Retries {
  import opened Options
  import opened Acceptance
  import opened Protocol
  import opened Verdicts
  import opened Soundness

  /** The radio cannot have sent this submission: not a byte reached it, or it took the whole
      message and turned it down for a passing reason. */
  predicate Harmless(w: Waiter, b: Submission) {
    && !b.committed
    && (b.wire == NoBytes ||
        (b.wire == AllBytes && (w.terminal == QueueFull || w.terminal == Rate || w.terminal == Duty)))
  }

  predicate SameJob(b: Submission, d: Submission) { b.send == d.send && b.chunk == d.chunk }

  predicate Before(b: Submission, d: Submission) {
    b.send < d.send || (b.send == d.send && b.chunk <= d.chunk)
  }

  /** Submissions follow the order of Sends and of chunks. */
  ghost predicate Ordered(subs: seq<Submission>) {
    forall i, j :: 0 <= i < j < |subs| ==> Before(subs[i], subs[j])
  }

  /** All submissions of a chunk but the last are harmless. */
  ghost predicate SafeRetries(subs: seq<Submission>, ws: seq<Waiter>) {
    && |ws| == |subs|
    && forall i, j :: 0 <= i < j < |subs| && SameJob(subs[i], subs[j]) ==> Harmless(ws[i], subs[i])
  }

  predicate IsCommit(b: Submission, send: nat, chunk: nat) {
    b.committed && b.send == send && b.chunk == chunk
  }

  ghost predicate CommittedBefore(subs: seq<Submission>, j: nat, send: nat, k: nat)
    requires j <= |subs|
  {
    exists i :: 0 <= i < j && IsCommit(subs[i], send, k)
  }

  /** A chunk is only submitted after all chunks before it have been accepted. */
  ghost predicate Preceded(subs: seq<Submission>) {
    forall j: nat, k: nat :: j < |subs| && k < subs[j].chunk ==> CommittedBefore(subs, j, subs[j].send, k)
  }

  /** The result so far lists exactly the accepted submissions of this Send, by chunk. */
  ghost predicate Reported(s: Sys) {
    && |s.subs| == |s.t.waiters|
    && (forall k: nat :: k < |s.ids| ==> CommittedBefore(s.subs, |s.subs|, s.send, k))
    && (forall i :: 0 <= i < |s.subs| && s.subs[i].committed && s.subs[i].send == s.send ==>
          s.subs[i].chunk < |s.ids| && s.t.waiters[i].id == s.ids[s.subs[i].chunk])
    && (forall i :: 0 <= i < |s.subs| && s.subs[i].committed ==> s.t.waiters[i].terminal == Accepted)
  }

  /** Accepted submissions are committed, once the sender has had time to. */
  ghost predicate NoneForgotten(s: Sys) {
    && |s.subs| == |s.t.waiters|
    && forall i :: 0 <= i < |s.subs| && s.t.waiters[i].terminal == Accepted && !s.subs[i].committed ==>
         i == |s.subs| - 1 && (Registered(s.pc) || s.pc.Judge? || s.pc.Switch?)
  }

  predicate Trying(pc: PC) {
    pc.Top? || pc.AwaitReady? || pc.Pacing? || pc.PickID? || pc.Register?
  }

  predicate WireOK(pc: PC, wire: Wire) {
    if pc.InCall? then wire == InFlight
    else if pc.CallFailed? then wire == (if pc.zero then NoBytes else SomeBytes)
    else if pc.Judge? then wire == (if pc.zero then NoBytes else SomeBytes)
    else HasCurrent(pc) ==> wire == AllBytes
  }

  /** How the submissions so far relate to the chunk at hand. */
  ghost predicate AtHand(s: Sys) {
    && |s.subs| == |s.t.waiters|
    && (forall i :: 0 <= i < |s.subs| ==> s.subs[i].send <= s.send)
    && (s.pc.Between? ==> forall i :: 0 <= i < |s.subs| && s.subs[i].send == s.send ==> s.subs[i].chunk < |s.ids|)
    && (Trying(s.pc) ==> forall i :: 0 <= i < |s.subs| && s.subs[i].send == s.send ==>
          s.subs[i].chunk < |s.ids| || (s.subs[i].chunk == |s.ids| && Harmless(s.t.waiters[i], s.subs[i])))
    && (HasCurrent(s.pc) ==>
          && s.subs != [] && s.subs[|s.subs| - 1].send == s.send && s.subs[|s.subs| - 1].chunk == |s.ids|
          && !s.subs[|s.subs| - 1].committed
          && WireOK(s.pc, s.subs[|s.subs| - 1].wire))
  }

  /** A Send submits none but its own chunks, and stops after the last. */
  predicate WithinChunks(s: Sys) {
    |s.ids| <= s.chunks && (Trying(s.pc) || HasCurrent(s.pc) ==> |s.ids| < s.chunks)
  }

  predicate Hears(a: Step) { a.HearStatus? || a.HearPacket? || a.HearNotice? || a.AttemptFails? }

  lemma OutsideWithinChunks(c: Config, s: Sys, a: Step)
    requires Enabled(c, s, a) && WithinChunks(s) && (ByTheWorld(a) || Hears(a))
    ensures WithinChunks(Do(c, s, a))
  {
    hide DutyDeadline, Stamp, OnStatus, OnPacket, OnNotice, OnFail, OnFinish, OnRemove, OnQuiet, OnRegister, Disarmed;
  }

  lemma CallWithinChunks(c: Config, s: Sys, a: Step)
    requires Enabled(c, s, a) && WithinChunks(s) && Calling(a)
    ensures WithinChunks(Do(c, s, a))
  {
    hide DutyDeadline, Stamp, OnStatus, OnPacket, OnNotice, OnFail, OnFinish, OnRemove, OnQuiet, OnRegister, Disarmed;
  }

  lemma OwnWithinChunks(c: Config, s: Sys, a: Step)
    requires Enabled(c, s, a) && WithinChunks(s) && !ByTheWorld(a) && !Hears(a) && !Calling(a)
    ensures WithinChunks(Do(c, s, a))
  {
    hide DutyDeadline, Stamp, OnStatus, OnPacket, OnNotice, OnFail, OnFinish, OnRemove, OnQuiet, OnRegister, Disarmed;
  }

  lemma StepWithinChunks(c: Config, s: Sys, a: Step)
    requires Enabled(c, s, a) && WithinChunks(s)
    ensures WithinChunks(Do(c, s, a))
  {
    hide Do, Enabled, WithinChunks;
    if ByTheWorld(a) || Hears(a) {
      OutsideWithinChunks(c, s, a);
    } else if Calling(a) {
      CallWithinChunks(c, s, a);
    } else {
      OwnWithinChunks(c, s, a);
    }
  }

  ghost predicate Books(s: Sys) {
    && WithinChunks(s) && Ordered(s.subs) && SafeRetries(s.subs, s.t.waiters) && Preceded(s.subs)
    && Reported(s) && NoneForgotten(s) && AtHand(s)
  }

  lemma InitBooks(now: int)
    ensures Books(Init(now))
  {
  }

  // ----- what a step may leave alone

  /** The same submissions for the same jobs; decided records and all but the last wire are
      as before. */
  ghost predicate SameJobs(s: Sys, s': Sys) {
    && |s'.subs| == |s.subs| && |s'.t.waiters| == |s.t.waiters| == |s.subs|
    && forall i :: 0 <= i < |s.subs| ==>
         && SameJob(s.subs[i], s'.subs[i]) && s'.subs[i].committed == s.subs[i].committed
         && (i < |s.subs| - 1 ==> s'.subs[i].wire == s.subs[i].wire)
         && s'.t.waiters[i].id == s.t.waiters[i].id
         && (s.t.waiters[i].terminal != Pending ==> s'.t.waiters[i] == s.t.waiters[i])
  }

  lemma SameCommits(s: Sys, s': Sys, j: nat, send: nat, k: nat)
    requires SameJobs(s, s') && j <= |s.subs| && CommittedBefore(s.subs, j, send, k)
    ensures CommittedBefore(s'.subs, j, send, k)
  {
    var i :| 0 <= i < j && IsCommit(s.subs[i], send, k);
    assert IsCommit(s'.subs[i], send, k);
  }

  lemma SameJobsKeep(s: Sys, s': Sys)
    requires SameJobs(s, s')
    requires Ordered(s.subs) && SafeRetries(s.subs, s.t.waiters) && Preceded(s.subs)
    ensures Ordered(s'.subs) && SafeRetries(s'.subs, s'.t.waiters) && Preceded(s'.subs)
  {
    hide CommittedBefore;
    forall j: nat, k: nat | j < |s'.subs| && k < s'.subs[j].chunk
      ensures CommittedBefore(s'.subs, j, s'.subs[j].send, k)
    {
      SameCommits(s, s', j, s.subs[j].send, k);
    }
    forall i, j | 0 <= i < j < |s'.subs| && SameJob(s'.subs[i], s'.subs[j])
      ensures Harmless(s'.t.waiters[i], s'.subs[i])
    {
      assert SameJob(s.subs[i], s.subs[j]);
      assert Harmless(s.t.waiters[i], s.subs[i]);
    }
  }

  lemma ReportsKeep(s: Sys, s': Sys)
    requires SameJobs(s, s') && Reported(s) && s'.ids == s.ids && s'.send == s.send
    ensures Reported(s')
  {
    hide CommittedBefore;
    forall k: nat | k < |s'.ids|
      ensures CommittedBefore(s'.subs, |s'.subs|, s'.send, k)
    {
      SameCommits(s, s', |s.subs|, s.send, k);
    }
  }

  // ----- the steps

  /** Steps that add no submission, commit nothing, and stay in the same part of Send. */
  predicate Routine(a: Step) {
    !a.Enter? && !a.Commit? && !a.CommitFailed? && !a.StartSend? && !a.Retry?
    && !a.BackOffRate? && !a.QueueOver? && !a.DutyOver?
  }

  predicate SameWires(s: Sys, s': Sys) {
    |s.subs| == |s'.subs| && forall i :: 0 <= i < |s.subs| ==> s'.subs[i].wire == s.subs[i].wire
  }

  lemma HearJobs(c: Config, s: Sys, e: Event, t: Table)
    requires Inv(c, s) && HeardBy(s, e, t) && e.time == s.now
    ensures SameJobs(s, Hear(s, e, t)) && SameWires(s, Hear(s, e, t))
  {
    hide Sound, Remembers, Effect;
    if Registered(s.pc) {
      EffectOnCurrent(c, s, e);
    }
  }

  lemma HearingJobs(c: Config, s: Sys, a: Step)
    requires Inv(c, s) && Enabled(c, s, a) && Hears(a)
    ensures SameJobs(s, Do(c, s, a)) && SameWires(s, Do(c, s, a))
    ensures Do(c, s, a).ids == s.ids && Do(c, s, a).send == s.send && Do(c, s, a).pc == s.pc
  {
    hide Sound, Remembers, HeardBy, Shape, SameJobs, SameWires;
    match a {
      case HearStatus(id, res, free) =>
        StatusHeard(s, id, res, free);
        HearJobs(c, s, Status(id, res, free, s.now), OnStatus(s.t, id, res, free, s.now));
      case HearPacket(attempt, own, p) =>
        PacketHeard(s, attempt, own, p);
        HearJobs(c, s, Control(attempt, own, p, s.now), OnPacket(s.t, attempt, own, p, s.now));
      case HearNotice(id, minutes) =>
        NoticeHeard(s, id, minutes);
        HearJobs(c, s, Notice(id, minutes, s.now), OnNotice(s.t, id, minutes));
      case AttemptFails(attempt) =>
        FailureHeard(s, attempt);
        HearJobs(c, s, Failure(attempt, s.now), OnFail(s.t, attempt, Ambiguous, s.now));
    }
  }

  /** What settling one's own record changes. */
  lemma OwnActs(c: Config, s: Sys, a: Step) returns (v: Waiter)
    requires Inv(c, s) && Enabled(c, s, a) && (a.Remove? || a.Quiet? || a.Expire?)
    ensures |s.subs| == |s.t.waiters| > 0
    ensures var s' := Do(c, s, a);
            && s'.t.waiters == s.t.waiters[|s.subs| - 1 := v]
            && s'.subs == Stamp(s, s'.t, |s.hist|) && s'.hist == s.hist && s'.now == s.now
    ensures v.id == s.Cur().id && (s.Cur().terminal != Pending ==> v == s.Cur())
  {
    hide Sound, Remembers, Stamp;
    v := Do(c, s, a).t.waiters[|s.subs| - 1];
  }

  lemma OwnJobs(c: Config, s: Sys, a: Step)
    requires Inv(c, s) && Enabled(c, s, a) && (a.Remove? || a.Quiet? || a.Expire?)
    ensures SameJobs(s, Do(c, s, a)) && SameWires(s, Do(c, s, a))
  {
    hide Inv, Do, Enabled;
    var v := OwnActs(c, s, a);
  }

  lemma MarkJobs(c: Config, s: Sys, a: Step)
    requires Inv(c, s) && Enabled(c, s, a) && (a.CallOk? || a.CallError?)
    ensures SameJobs(s, Do(c, s, a))
  {
    hide Sound, Remembers;
  }

  lemma CallChangesNothing(c: Config, s: Sys, a: Step)
    requires Enabled(c, s, a) && Calling(a) && !Marks(a)
    ensures Do(c, s, a).subs == s.subs && Do(c, s, a).t == s.t && Do(c, s, a).hist == s.hist
  {
    hide OnStatus, OnPacket, OnNotice, OnFail, OnFinish, OnRemove, OnQuiet, OnRegister, DutyDeadline, Disarmed,
      Stamp, Table.Linked;
  }

  lemma CallJobs(c: Config, s: Sys, a: Step)
    requires Inv(c, s) && Enabled(c, s, a) && Calling(a) && !Marks(a)
    ensures SameJobs(s, Do(c, s, a)) && SameWires(s, Do(c, s, a))
  {
    hide Sound, Remembers, Do, Enabled;
    CallChangesNothing(c, s, a);
  }

  lemma OtherJobs(c: Config, s: Sys, a: Step)
    requires Inv(c, s) && Enabled(c, s, a) && Routine(a) && !Hears(a)
    requires !a.Remove? && !a.Quiet? && !a.Expire? && !Calling(a)
    ensures SameJobs(s, Do(c, s, a)) && (!a.CallOk? && !a.CallError? ==> SameWires(s, Do(c, s, a)))
  {
    hide Sound, Remembers, DutyDeadline, Stamp, Table.Linked;
  }

  lemma PlainJobs(c: Config, s: Sys, a: Step)
    requires Inv(c, s) && Enabled(c, s, a) && Routine(a) && !Hears(a) && !a.Remove? && !a.Quiet? && !a.Expire?
    ensures SameJobs(s, Do(c, s, a)) && (!a.CallOk? && !a.CallError? ==> SameWires(s, Do(c, s, a)))
  {
    hide Inv, Do, Enabled, SameJobs, SameWires;
    if Marks(a) {
      MarkJobs(c, s, a);
    } else if Calling(a) {
      CallJobs(c, s, a);
    } else {
      OtherJobs(c, s, a);
    }
  }

  lemma RoutineJobs(c: Config, s: Sys, a: Step)
    requires Inv(c, s) && Enabled(c, s, a) && Routine(a)
    ensures SameJobs(s, Do(c, s, a)) && Do(c, s, a).ids == s.ids && Do(c, s, a).send == s.send
    ensures !a.CallOk? && !a.CallError? ==> SameWires(s, Do(c, s, a))
  {
    hide Inv, SameJobs, SameWires;
    if Hears(a) {
      HearingJobs(c, s, a);
    } else if a.Remove? || a.Quiet? || a.Expire? {
      OwnJobs(c, s, a);
    } else {
      PlainJobs(c, s, a);
    }
  }

  lemma PlainPCs(c: Config, s: Sys, a: Step)
    requires Enabled(c, s, a) && Routine(a) && !Hears(a)
    ensures var pc' := Do(c, s, a).pc;
            && (Trying(pc') ==> Trying(s.pc) || s.pc.Between?)
            && (pc'.Between? ==> s.pc.Between?)
            && (HasCurrent(pc') ==> HasCurrent(s.pc))
  {
    hide DutyDeadline, OnQuiet, OnFinish, OnRemove, Stamp;
  }

  /** Where a routine step can lead. */
  lemma RoutinePCs(c: Config, s: Sys, a: Step)
    requires Inv(c, s) && Enabled(c, s, a) && Routine(a)
    ensures var pc' := Do(c, s, a).pc;
            && (Trying(pc') ==> Trying(s.pc) || s.pc.Between?)
            && (pc'.Between? ==> s.pc.Between?)
            && (HasCurrent(pc') ==> HasCurrent(s.pc))
  {
    hide Inv, Do, Enabled;
    if Hears(a) {
      HearingJobs(c, s, a);
    } else {
      PlainPCs(c, s, a);
    }
  }

  lemma CallWire(c: Config, s: Sys, a: Step)
    requires Enabled(c, s, a) && (a.CallOk? || a.CallError?)
    ensures |Do(c, s, a).subs| == |s.subs| > 0
    ensures WireOK(Do(c, s, a).pc, Do(c, s, a).subs[|s.subs| - 1].wire)
  {
  }

  lemma PlainWire(c: Config, s: Sys, a: Step, wire: Wire)
    requires Enabled(c, s, a) && Routine(a) && !Hears(a) && !a.CallOk? && !a.CallError?
    requires WireOK(s.pc, wire)
    requires HasCurrent(s.pc) && HasCurrent(Do(c, s, a).pc)
    ensures WireOK(Do(c, s, a).pc, wire)
  {
    hide DutyDeadline, OnQuiet, OnFinish, OnRemove, Stamp, Disarmed;
  }

  lemma RoutineWire(c: Config, s: Sys, a: Step)
    requires Inv(c, s) && Enabled(c, s, a) && Routine(a) && HasCurrent(Do(c, s, a).pc)
    requires s.subs != [] && WireOK(s.pc, s.subs[|s.subs| - 1].wire)
    ensures |Do(c, s, a).subs| == |s.subs|
    ensures WireOK(Do(c, s, a).pc, Do(c, s, a).subs[|s.subs| - 1].wire)
  {
    hide Inv, Do, Enabled, WireOK, HasCurrent;
    RoutineJobs(c, s, a);
    RoutinePCs(c, s, a);
    if a.CallOk? || a.CallError? {
      CallWire(c, s, a);
    } else {
      assert Do(c, s, a).subs[|s.subs| - 1].wire == s.subs[|s.subs| - 1].wire;
      if Hears(a) {
        HearingJobs(c, s, a);
      } else {
        PlainWire(c, s, a, s.subs[|s.subs| - 1].wire);
      }
    }
  }

  lemma HarmlessStays(s: Sys, s': Sys, i: nat)
    requires SameJobs(s, s') && SameWires(s, s') && i < |s.subs| && Harmless(s.t.waiters[i], s.subs[i])
    ensures Harmless(s'.t.waiters[i], s'.subs[i])
  {
  }

  lemma CallsNotTrying(c: Config, s: Sys, a: Step)
    requires Enabled(c, s, a)
    ensures Trying(Do(c, s, a).pc) ==> !a.CallOk? && !a.CallError?
  {
  }

  lemma RoutineAtHand(c: Config, s: Sys, a: Step)
    requires Inv(c, s) && Enabled(c, s, a) && Routine(a) && AtHand(s)
    ensures AtHand(Do(c, s, a))
  {
    hide Inv, WireOK, Do, Harmless;
    var s' := Do(c, s, a);
    RoutineJobs(c, s, a);
    RoutinePCs(c, s, a);
    if HasCurrent(s'.pc) {
      RoutineWire(c, s, a);
    }
    CallsNotTrying(c, s, a);
    if Trying(s'.pc) {
      forall i | 0 <= i < |s'.subs| && s'.subs[i].send == s'.send && s'.subs[i].chunk >= |s'.ids|
        ensures s'.subs[i].chunk == |s'.ids| && Harmless(s'.t.waiters[i], s'.subs[i])
      {
        assert SameJob(s.subs[i], s'.subs[i]);
        HarmlessStays(s, s', i);
      }
    }
  }

  lemma PlainVerdictStage(c: Config, s: Sys, a: Step)
    requires Inv(c, s) && Enabled(c, s, a) && Routine(a) && !Hears(a)
    requires Registered(s.pc) || s.pc.Judge? || s.pc.Switch?
    ensures var pc' := Do(c, s, a).pc;
            Registered(pc') || pc'.Judge? || pc'.Switch?
            || (!Registered(s.pc) && s.Cur().terminal != Accepted)
  {
    hide Sound, DutyDeadline, OnQuiet, OnFinish, OnRemove, Stamp;
  }

  lemma VerdictStage(c: Config, s: Sys, a: Step)
    requires Inv(c, s) && Enabled(c, s, a) && Routine(a)
    requires Registered(s.pc) || s.pc.Judge? || s.pc.Switch?
    ensures var pc' := Do(c, s, a).pc;
            Registered(pc') || pc'.Judge? || pc'.Switch?
            || (!Registered(s.pc) && s.Cur().terminal != Accepted)
  {
    hide Sound, Do, Enabled, Remembers;
    if Hears(a) {
      HearingJobs(c, s, a);
    } else {
      PlainVerdictStage(c, s, a);
    }
  }

  /** A routine step leaves the verdict stage only with a verdict that is not acceptance. */
  lemma RoutineNoneForgotten(c: Config, s: Sys, a: Step)
    requires Inv(c, s) && Enabled(c, s, a) && Routine(a) && NoneForgotten(s)
    ensures NoneForgotten(Do(c, s, a))
  {
    hide Sound, DutyDeadline, Do;
    var s' := Do(c, s, a);
    RoutineJobs(c, s, a);
    if Registered(s.pc) || s.pc.Judge? || s.pc.Switch? {
      VerdictStage(c, s, a);
    }
    forall i | 0 <= i < |s'.subs| && s'.t.waiters[i].terminal == Accepted && !s'.subs[i].committed
      ensures i == |s'.subs| - 1 && (Registered(s'.pc) || s'.pc.Judge? || s'.pc.Switch?)
    {
      assert s'.subs[i].committed == s.subs[i].committed;
    }
  }

  lemma RoutineKeeps(c: Config, s: Sys, a: Step)
    requires Inv(c, s) && Enabled(c, s, a) && Routine(a) && Books(s)
    ensures Books(Do(c, s, a))
  {
    hide Inv, Do, AtHand, NoneForgotten, Reported, Ordered, SafeRetries, Preceded, WithinChunks;
    StepWithinChunks(c, s, a);
    RoutineJobs(c, s, a);
    SameJobsKeep(s, Do(c, s, a));
    ReportsKeep(s, Do(c, s, a));
    RoutineAtHand(c, s, a);
    RoutineNoneForgotten(c, s, a);
  }

  // ----- the steps that begin, end or repeat a submission

  predicate GoesBack(a: Step) { a.Retry? || a.BackOffRate? || a.QueueOver? || a.DutyOver? }

  /** Going back to the head of the loop is only for submissions that are harmless. */
  lemma OnlyHarmlessAgain(c: Config, s: Sys, a: Step)
    requires Inv(c, s) && Enabled(c, s, a) && AtHand(s) && GoesBack(a)
    ensures HasCurrent(s.pc) && Harmless(s.Cur(), s.subs[|s.subs| - 1])
    ensures s.Cur().terminal != Accepted || a.Retry?
  {
    hide Sound, DutyDeadline;
  }

  lemma GoingBackJobs(c: Config, s: Sys, a: Step)
    requires Enabled(c, s, a) && GoesBack(a)
    ensures var s' := Do(c, s, a);
            && s'.ids == s.ids && s'.send == s.send
            && s'.subs == s.subs && s'.t.waiters == s.t.waiters && s'.pc.Top? && !Registered(s.pc)
            && (a.Retry? ==> s.pc.Judge? && s.pc.kind != Accepted)
  {
    hide DutyDeadline;
  }

  lemma IdenticalJobs(s: Sys, s': Sys)
    requires |s.subs| == |s.t.waiters| && s'.subs == s.subs && s'.t.waiters == s.t.waiters
    ensures SameJobs(s, s') && SameWires(s, s')
  {
  }

  lemma EarlierIsSafe(s: Sys, i: nat)
    requires Books(s) && HasCurrent(s.pc) && i < |s.subs| - 1 && s.subs[i].send == s.send
    ensures s.subs[i].chunk < |s.ids| || (s.subs[i].chunk == |s.ids| && Harmless(s.t.waiters[i], s.subs[i]))
  {
    var last := |s.subs| - 1;
    assert Before(s.subs[i], s.subs[last]);
    if s.subs[i].chunk == |s.ids| {
      assert SameJob(s.subs[i], s.subs[last]);
    }
  }

  lemma GoingBackKeeps(c: Config, s: Sys, a: Step)
    requires Inv(c, s) && Enabled(c, s, a) && Books(s) && GoesBack(a)
    ensures Books(Do(c, s, a))
  {
    hide Sound, Do, Enabled, Preceded, Ordered, CommittedBefore, Harmless, SameJobs, SafeRetries, Reported,
      WithinChunks;
    StepWithinChunks(c, s, a);
    var s' := Do(c, s, a);
    OnlyHarmlessAgain(c, s, a);
    GoingBackJobs(c, s, a);
    IdenticalJobs(s, s');
    SameJobsKeep(s, s');
    ReportsKeep(s, s');
    forall i | 0 <= i < |s.subs| && s.subs[i].send == s.send
      ensures s.subs[i].chunk < |s.ids| || (s.subs[i].chunk == |s.ids| && Harmless(s.t.waiters[i], s.subs[i]))
    {
      if i < |s.subs| - 1 {
        EarlierIsSafe(s, i);
      }
    }
  }

  lemma StartKeeps(c: Config, s: Sys, chunks: nat)
    requires Inv(c, s) && Enabled(c, s, StartSend(chunks)) && Books(s)
    ensures Books(Do(c, s, StartSend(chunks)))
  {
    hide Sound, Remembers, CommittedBefore;
  }

  lemma MoreCommits(subs: seq<Submission>, more: seq<Submission>, j: nat, send: nat, k: nat)
    requires j <= |subs| && CommittedBefore(subs, j, send, k)
    ensures CommittedBefore(subs + more, j, send, k)
    ensures CommittedBefore(subs + more, |subs + more|, send, k)
  {
    var i :| 0 <= i < j && IsCommit(subs[i], send, k);
    assert (subs + more)[i] == subs[i];
  }

  /** What `Enter` adds. */
  lemma Entered(c: Config, s: Sys, dest: nat)
    requires Inv(c, s) && Enabled(c, s, Enter(dest))
    ensures var s' := Do(c, s, Enter(dest));
            && |s.subs| == |s.t.waiters|
            && s'.subs == s.subs + [Submission(s.send, |s.ids|, s.now, |s.hist|, InFlight, None, false, None, None)]
            && s'.t.waiters == s.t.waiters
                 + [Waiter(s.pc.id, dest, s.pc.attempt, false, false, 0, Pending, 0, None)]
            && s'.pc.InCall? && s'.ids == s.ids && s'.send == s.send && s'.now == s.now
  {
    hide Sound, Remembers;
  }

  lemma EnterOrder(s: Sys, b: Submission)
    requires Ordered(s.subs) && AtHand(s) && Trying(s.pc) && b.send == s.send && b.chunk == |s.ids|
    ensures Ordered(s.subs + [b])
  {
  }

  lemma EnterSafe(s: Sys, b: Submission, w: Waiter)
    requires SafeRetries(s.subs, s.t.waiters) && AtHand(s) && Trying(s.pc)
    requires b.send == s.send && b.chunk == |s.ids|
    ensures SafeRetries(s.subs + [b], s.t.waiters + [w])
  {
  }

  lemma EnterPreceded(s: Sys, b: Submission)
    requires Preceded(s.subs) && Reported(s) && b.send == s.send && b.chunk == |s.ids|
    ensures Preceded(s.subs + [b])
  {
    hide CommittedBefore;
    var subs := s.subs + [b];
    forall j: nat, k: nat | j < |subs| && k < subs[j].chunk
      ensures CommittedBefore(subs, j, subs[j].send, k)
    {
      MoreCommits(s.subs, [b], j, subs[j].send, k);
    }
  }

  lemma NoneForgottenSettles(c: Config, s: Sys)
    requires NoneForgotten(s) && Trying(s.pc)
    ensures forall i :: 0 <= i < |s.subs| && s.t.waiters[i].terminal == Accepted ==> s.subs[i].committed
  {
  }

  lemma EnterKeepsBooks(c: Config, s: Sys, dest: nat)
    requires Inv(c, s) && Enabled(c, s, Enter(dest)) && Books(s)
    ensures Books(Do(c, s, Enter(dest)))
  {
    hide Inv, Do, Ordered, SafeRetries, Preceded, CommittedBefore, Harmless, WithinChunks;
    StepWithinChunks(c, s, Enter(dest));
    var s' := Do(c, s, Enter(dest));
    Entered(c, s, dest);
    var b, w := s'.subs[|s.subs|], s'.t.waiters[|s.subs|];
    EnterOrder(s, b);
    EnterSafe(s, b, w);
    EnterPreceded(s, b);
    forall k: nat | k < |s'.ids|
      ensures CommittedBefore(s'.subs, |s'.subs|, s'.send, k)
    {
      MoreCommits(s.subs, [b], |s.subs|, s.send, k);
    }
    NoneForgottenSettles(c, s);
  }

  /** What committing changes. */
  lemma Commits(c: Config, s: Sys, a: Step)
    requires Inv(c, s) && AtHand(s) && Enabled(c, s, a) && (a.Commit? || a.CommitFailed?)
    ensures var s' := Do(c, s, a);
            && |s.subs| == |s.t.waiters| > 0
            && s'.subs == s.subs[|s.subs| - 1 := s.subs[|s.subs| - 1].(committed := true)]
            && s'.t == s.t && s'.send == s.send && s'.ids == s.ids + [s.Cur().id]
            && s.Cur().terminal == Accepted
            && s.subs[|s.subs| - 1].send == s.send && s.subs[|s.subs| - 1].chunk == |s.ids|
            && !s.subs[|s.subs| - 1].committed
            && s'.pc.Between? && s'.lastPacing == Some(s.now) && s'.now == s.now && s'.hist == s.hist
            && (s.pc.Judge? || s.pc.Switch?)
  {
    hide Sound;
  }

  lemma CommitSafe(subs: seq<Submission>, ws: seq<Waiter>, b: Submission)
    requires Ordered(subs) && SafeRetries(subs, ws) && subs != []
    requires b == subs[|subs| - 1].(committed := true)
    ensures Ordered(subs[|subs| - 1 := b]) && SafeRetries(subs[|subs| - 1 := b], ws)
  {
  }

  lemma LastCommitted(subs: seq<Submission>, send: nat, k: nat)
    requires subs != [] && IsCommit(subs[|subs| - 1], send, k)
    ensures CommittedBefore(subs, |subs|, send, k)
  {
  }

  lemma CommitMore(subs: seq<Submission>, b: Submission, j: nat, send: nat, k: nat)
    requires subs != [] && b == subs[|subs| - 1].(committed := true)
    requires j <= |subs| && CommittedBefore(subs, j, send, k)
    ensures CommittedBefore(subs[|subs| - 1 := b], j, send, k)
  {
    var i :| 0 <= i < j && IsCommit(subs[i], send, k);
    assert IsCommit(subs[|subs| - 1 := b][i], send, k);
  }

  lemma CommitReported(c: Config, s: Sys, a: Step)
    requires Inv(c, s) && Enabled(c, s, a) && Books(s) && (a.Commit? || a.CommitFailed?)
    ensures Reported(Do(c, s, a))
  {
    hide Inv, Do, Enabled, CommittedBefore, Preceded, SafeRetries, NoneForgotten;
    var s' := Do(c, s, a);
    var last := |s.subs| - 1;
    Commits(c, s, a);
    forall k: nat | k < |s'.ids|
      ensures CommittedBefore(s'.subs, |s'.subs|, s'.send, k)
    {
      if k < |s.ids| {
        CommitMore(s.subs, s'.subs[last], |s.subs|, s.send, k);
      } else {
        LastCommitted(s'.subs, s'.send, k);
      }
    }
  }

  lemma CommitPreceded(subs: seq<Submission>, b: Submission)
    requires Preceded(subs) && subs != [] && b == subs[|subs| - 1].(committed := true)
    ensures Preceded(subs[|subs| - 1 := b])
  {
    hide CommittedBefore;
    var subs' := subs[|subs| - 1 := b];
    forall j: nat, k: nat | j < |subs'| && k < subs'[j].chunk
      ensures CommittedBefore(subs', j, subs'[j].send, k)
    {
      CommitMore(subs, b, j, subs[j].send, k);
    }
  }

  lemma CommitAtHand(c: Config, s: Sys, a: Step)
    requires Inv(c, s) && Enabled(c, s, a) && Books(s) && (a.Commit? || a.CommitFailed?)
    ensures AtHand(Do(c, s, a)) && NoneForgotten(Do(c, s, a))
  {
    hide Inv, Do, Enabled, CommittedBefore, Preceded, Harmless, SafeRetries, WithinChunks;
    var last := |s.subs| - 1;
    Commits(c, s, a);
    assert forall i :: 0 <= i < last ==> Before(s.subs[i], s.subs[last]);
  }

  lemma CommitKeeps(c: Config, s: Sys, a: Step)
    requires Inv(c, s) && Enabled(c, s, a) && Books(s) && (a.Commit? || a.CommitFailed?)
    ensures Books(Do(c, s, a))
  {
    hide Inv, Do, Enabled, CommittedBefore, Preceded, SafeRetries, NoneForgotten, Reported, Ordered, WithinChunks;
    Commits(c, s, a);
    var b := s.subs[|s.subs| - 1].(committed := true);
    StepWithinChunks(c, s, a);
    CommitPreceded(s.subs, b);
    CommitSafe(s.subs, s.t.waiters, b);
    CommitReported(c, s, a);
    CommitAtHand(c, s, a);
  }

  /** Every step keeps the books. */
  lemma StepKeepsBooks(c: Config, s: Sys, a: Step)
    requires Inv(c, s) && Enabled(c, s, a) && Books(s)
    ensures Books(Do(c, s, a))
  {
    hide Inv, Books, Do, Enabled;
    match a {
      case Enter(dest) => EnterKeepsBooks(c, s, dest);
      case Commit => CommitKeeps(c, s, a);
      case CommitFailed => CommitKeeps(c, s, a);
      case StartSend(chunks) => StartKeeps(c, s, chunks);
      case _ =>
        if GoesBack(a) {
          GoingBackKeeps(c, s, a);
        } else {
          RoutineKeeps(c, s, a);
        }
    }
  }

  lemma {:induction false} RunKeepsBooks(c: Config, s: Sys, steps: seq<Step>)
    requires Inv(c, s) && Books(s) && CanRun(c, s, steps)
    ensures Inv(c, Run(c, s, steps)) && Books(Run(c, s, steps))
    decreases |steps|
  {
    hide Inv, Books;
    if steps != [] {
      StepKeeps(c, s, steps[0]);
      StepKeepsBooks(c, s, steps[0]);
      RunKeepsBooks(c, Do(c, s, steps[0]), steps[1..]);
    }
  }

  // ----- main results

  /** No chunk is submitted again unless it is safe: in every run, of any two submissions of
      the same chunk the earlier one either put no byte on the wire or was turned down by the
      radio with queue full, rate limit or duty cycle. */
  lemma NoUnsafeResubmission(c: Config, now: int, steps: seq<Step>, i: nat, j: nat)
    requires CanRun(c, Init(now), steps)
    ensures var s := Run(c, Init(now), steps);
            i < j < |s.subs| && SameJob(s.subs[i], s.subs[j]) ==>
              |s.t.waiters| == |s.subs| && Harmless(s.t.waiters[i], s.subs[i])
  {
    hide Inv, Harmless;
    InitInv(c, now);
    InitBooks(now);
    RunKeepsBooks(c, Init(now), steps);
  }

  /** Send reports exactly what was accepted: when it returns, its result lists the ids of the
      accepted submissions of this Send, one for each of the first chunks, in order; and no
      chunk was submitted before all chunks in front of it were accepted. */
  lemma SendReportsAccepted(c: Config, now: int, steps: seq<Step>)
    requires CanRun(c, Init(now), steps)
    ensures var s := Run(c, Init(now), steps);
            && Reported(s) && Preceded(s.subs) && Ordered(s.subs) && |s.ids| <= s.chunks
            && (s.pc.Idle? ==> forall i :: 0 <= i < |s.subs| && s.t.waiters[i].terminal == Accepted ==>
                  s.subs[i].committed)
  {
    hide Inv, Reported, Preceded, Ordered;
    InitInv(c, now);
    InitBooks(now);
    RunKeepsBooks(c, Init(now), steps);
  }
}
