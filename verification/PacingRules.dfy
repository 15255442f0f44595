/** Pacing over whole runs: the send delay, and recovery from queue-full and duty-cycle
    rejections. */
module PacingRules {
  import opened Options
  import opened Acceptance
  import opened Protocol
  import opened Verdicts
  import opened Soundness
  import opened Retries

  function Max(a: int, b: int): int { if a >= b then a else b }

  // ----- what steps leave alone

  predicate KeptLast(w: Waiter, b: Submission, w': Waiter, b': Submission) {
    && SameJob(b, b') && b'.began == b.began && b'.born == b.born && b'.committed == b.committed
    && (w.terminal != Pending ==> w' == w && b'.settled == b.settled)
  }

  /** No submission is added or committed; all but the last are as before, and the last has
      at most been settled, or moved on in its bookkeeping. */
  ghost predicate Kept(s: Sys, s': Sys) {
    && |s.subs| == |s.t.waiters| == |s'.subs| == |s'.t.waiters|
    && s.hist <= s'.hist && s.now <= s'.now
    && (forall i :: 0 <= i < |s.subs| - 1 ==> s'.subs[i] == s.subs[i] && s'.t.waiters[i] == s.t.waiters[i])
    && (s.subs != [] ==>
          && KeptLast(s.Cur(), s.subs[|s.subs| - 1], s'.Cur(), s'.subs[|s.subs| - 1])
          && (!s.pc.InCall? ==> s'.subs[|s.subs| - 1].wire == s.subs[|s.subs| - 1].wire))
  }

  predicate AddsOrCommits(a: Step) { a.Enter? || a.Commit? || a.CommitFailed? }

  lemma HearKept(c: Config, s: Sys, e: Event, t: Table)
    requires Inv(c, s) && HeardBy(s, e, t) && e.time == s.now
    ensures Kept(s, Hear(s, e, t))
  {
    hide Sound, Remembers, Effect;
    if Registered(s.pc) {
      EffectOnCurrent(c, s, e);
    }
  }

  lemma HearingKept(c: Config, s: Sys, a: Step)
    requires Inv(c, s) && Enabled(c, s, a) && Hears(a)
    ensures Kept(s, Do(c, s, a))
  {
    hide Sound, Remembers, HeardBy, Shape, Kept, Hear;
    match a {
      case HearStatus(id, res, free) =>
        StatusHeard(s, id, res, free);
        HearKept(c, s, Status(id, res, free, s.now), OnStatus(s.t, id, res, free, s.now));
      case HearPacket(attempt, own, p) =>
        PacketHeard(s, attempt, own, p);
        HearKept(c, s, Control(attempt, own, p, s.now), OnPacket(s.t, attempt, own, p, s.now));
      case HearNotice(id, minutes) =>
        NoticeHeard(s, id, minutes);
        HearKept(c, s, Notice(id, minutes, s.now), OnNotice(s.t, id, minutes));
      case AttemptFails(attempt) =>
        FailureHeard(s, attempt);
        HearKept(c, s, Failure(attempt, s.now), OnFail(s.t, attempt, Ambiguous, s.now));
    }
  }

  lemma OwnKept(c: Config, s: Sys, a: Step)
    requires Inv(c, s) && Enabled(c, s, a) && (a.Remove? || a.Quiet? || a.Expire?)
    ensures Kept(s, Do(c, s, a))
  {
    hide Inv, Do, Enabled;
    var v := OwnActs(c, s, a);
  }

  lemma PlainKept(c: Config, s: Sys, a: Step)
    requires Inv(c, s) && Enabled(c, s, a) && !AddsOrCommits(a) && !Hears(a)
    requires !a.Remove? && !a.Quiet? && !a.Expire?
    ensures Kept(s, Do(c, s, a))
  {
    hide Sound, Remembers, DutyDeadline;
  }

  lemma StepKept(c: Config, s: Sys, a: Step)
    requires Inv(c, s) && Enabled(c, s, a) && !AddsOrCommits(a)
    ensures Kept(s, Do(c, s, a))
  {
    hide Inv, Kept, Do, Enabled;
    if Hears(a) {
      HearingKept(c, s, a);
    } else if a.Remove? || a.Quiet? || a.Expire? {
      OwnKept(c, s, a);
    } else {
      PlainKept(c, s, a);
    }
  }

  // ----- the send delay

  /** The outcomes that start a new send delay. */
  predicate Spaces(w: Waiter, b: Submission) {
    b.committed || (b.wire == AllBytes && (w.terminal == QueueFull || w.terminal == Rate || w.terminal == Duty))
  }

  /** When: an acceptance counts from when it was known, a rejection from when it was heard. */
  function SpacedFrom(w: Waiter, b: Submission): int {
    if b.committed && b.settled.Some? then b.settled.value.1 else w.at
  }

  /** The outcome of the latest submission is not yet acted upon. */
  predicate Undigested(pc: PC) { Registered(pc) || pc.Judge? || pc.Switch? }

  ghost predicate Spaced(c: Config, s: Sys) {
    && |s.subs| == |s.t.waiters|
    // every outcome acted upon lies at or before the pacing time
    && (forall i | 0 <= i < |s.subs| && !(Undigested(s.pc) && i == |s.subs| - 1) ::
          Spaces(s.t.waiters[i], s.subs[i]) ==>
            s.lastPacing.Some? && SpacedFrom(s.t.waiters[i], s.subs[i]) <= s.lastPacing.value)
    // every submission came at least the delay after every earlier outcome
    && (forall i, j :: 0 <= i < j < |s.subs| && Spaces(s.t.waiters[i], s.subs[i]) ==>
          SpacedFrom(s.t.waiters[i], s.subs[i]) + c.sendDelay <= s.subs[j].began)
    // the sender has waited
    && (s.lastPacing.Some? && (s.pc.PickID? || s.pc.Register?) ==>
          s.lastPacing.value + c.sendDelay <= s.now)
    && (s.lastPacing.Some? && Undigested(s.pc) && s.subs != [] ==>
          s.lastPacing.value + c.sendDelay <= s.subs[|s.subs| - 1].began)
    && (s.lastPacing.Some? ==> s.lastPacing.value <= s.now)
  }

  lemma InitSpaced(c: Config, now: int)
    ensures Spaced(c, Init(now))
  {
  }

  /** Only these steps move the pacing time. */
  predicate MovesPacing(a: Step) { a.Commit? || a.CommitFailed? || a.BackOffQueue? || a.BackOffRate? || a.BackOffDuty? }

  lemma OnlyFailures(c: Config, s: Sys, a: Step)
    requires Enabled(c, s, a) && !AddsOrCommits(a) && !MovesPacing(a)
    requires Undigested(s.pc) && !Undigested(Do(c, s, a).pc)
    ensures a.Retry? || a.FailCall? || a.FailVerdict?
  {
    hide OnStatus, OnPacket, OnNotice, OnFail, OnQuiet, OnFinish, OnRemove, Stamp, DutyDeadline, Disarmed;
  }

  /** A step that leaves the verdict stage without moving the pacing time leaves behind a
      submission that starts no delay. */
  lemma LeavesStage(c: Config, s: Sys, a: Step)
    requires Inv(c, s) && AtHand(s) && Enabled(c, s, a) && !AddsOrCommits(a) && !MovesPacing(a)
    requires Undigested(s.pc) && !Undigested(Do(c, s, a).pc)
    ensures Do(c, s, a).subs == s.subs && Do(c, s, a).t.waiters == s.t.waiters && s.subs != []
    ensures !Spaces(s.Cur(), s.subs[|s.subs| - 1])
  {
    hide Sound;
    OnlyFailures(c, s, a);
  }

  lemma AllDecided(c: Config, s: Sys)
    requires Inv(c, s) && !Registered(s.pc) && s.subs != []
    ensures |s.subs| == |s.t.waiters| && s.Cur().terminal != Pending
  {
  }

  lemma LastStays(c: Config, s: Sys, a: Step)
    requires Inv(c, s) && Books(s) && Enabled(c, s, a) && s.subs != []
    requires !AddsOrCommits(a) && !MovesPacing(a)
    requires !Undigested(Do(c, s, a).pc)
    ensures |Do(c, s, a).subs| == |Do(c, s, a).t.waiters| == |s.subs|
    ensures var w, b := Do(c, s, a).Cur(), Do(c, s, a).subs[|s.subs| - 1];
            && (Spaces(w, b) ==> Spaces(s.Cur(), s.subs[|s.subs| - 1]) && !Undigested(s.pc))
            && SpacedFrom(w, b) == SpacedFrom(s.Cur(), s.subs[|s.subs| - 1])
  {
    hide Inv, Do, Enabled, Ordered, SafeRetries, Preceded, Reported, NoneForgotten, AtHand;
    StepKept(c, s, a);
    if Undigested(s.pc) {
      LeavesStage(c, s, a);
    } else {
      AllDecided(c, s);
    }
  }

  lemma PlainPacingMoves(c: Config, s: Sys, a: Step)
    requires Enabled(c, s, a) && !AddsOrCommits(a) && !MovesPacing(a) && !ByTheWorld(a) && !Hears(a)
    ensures var s' := Do(c, s, a);
            && s'.lastPacing == s.lastPacing
            && ((s'.pc.PickID? || s'.pc.Register?) ==>
                 s.pc.PickID? || s.pc.Register?
                 || (s.lastPacing.Some? ==> s.now >= s.lastPacing.value + c.sendDelay))
            && (Undigested(s'.pc) ==> Undigested(s.pc))
  {
    hide DutyDeadline, OnQuiet, OnFinish, OnRemove, Stamp, Disarmed;
  }

  lemma PacingMoves(c: Config, s: Sys, a: Step)
    requires Inv(c, s) && Enabled(c, s, a) && !AddsOrCommits(a) && !MovesPacing(a)
    ensures var s' := Do(c, s, a);
            && s'.lastPacing == s.lastPacing
            && ((s'.pc.PickID? || s'.pc.Register?) ==>
                 s.pc.PickID? || s.pc.Register?
                 || (s.lastPacing.Some? ==> s.now >= s.lastPacing.value + c.sendDelay))
            && (Undigested(s'.pc) ==> Undigested(s.pc))
  {
    hide Inv, DutyDeadline, OnStatus, OnPacket, OnNotice, OnFail, OnQuiet, OnFinish, OnRemove, Stamp, Disarmed;
    if ByTheWorld(a) || Hears(a) {
      assert Do(c, s, a).pc == s.pc;
    } else {
      PlainPacingMoves(c, s, a);
    }
  }

  lemma QuietlySpaced(c: Config, s: Sys, a: Step)
    requires Inv(c, s) && Books(s) && Enabled(c, s, a) && Spaced(c, s) && c.sendDelay >= 0
    requires !AddsOrCommits(a) && !MovesPacing(a)
    ensures Spaced(c, Do(c, s, a))
  {
    hide Inv, Books, Do, Enabled, Spaces, SpacedFrom;
    var s' := Do(c, s, a);
    StepKept(c, s, a);
    PacingMoves(c, s, a);
    forall i | 0 <= i < |s'.subs| && !(Undigested(s'.pc) && i == |s'.subs| - 1)
        && Spaces(s'.t.waiters[i], s'.subs[i])
      ensures Spaces(s.t.waiters[i], s.subs[i]) && !(Undigested(s.pc) && i == |s.subs| - 1)
      ensures SpacedFrom(s'.t.waiters[i], s'.subs[i]) == SpacedFrom(s.t.waiters[i], s.subs[i])
    {
      if i == |s.subs| - 1 {
        LastStays(c, s, a);
      }
    }
  }

  lemma CurrentTimes(c: Config, s: Sys)
    requires Inv(c, s) && s.subs != [] && s.Cur().terminal != Pending
    ensures var b := s.subs[|s.subs| - 1];
            b.settled.Some? && b.began <= s.Cur().at <= b.settled.value.1 <= s.now
  {
    hide Justified;
    assert RecordOK(c, s.hist, s.now, s.t.waiters[|s.subs| - 1], s.subs[|s.subs| - 1]);
  }

  /** What backing off changes. */
  lemma BacksOff(c: Config, s: Sys, a: Step)
    requires Inv(c, s) && AtHand(s) && Enabled(c, s, a)
    requires a.BackOffQueue? || a.BackOffRate? || a.BackOffDuty?
    ensures var s' := Do(c, s, a);
            && s.subs != [] && s.Cur().terminal != Pending && !s.subs[|s.subs| - 1].committed
            && s'.subs == s.subs && s'.t.waiters == s.t.waiters && s'.now == s.now
            && s'.lastPacing == Some(s.Cur().at) && Undigested(s.pc) && !Undigested(s'.pc)
            && !s'.pc.PickID? && !s'.pc.Register?
  {
    hide Sound;
  }

  lemma BackOffSpaced(c: Config, s: Sys, a: Step)
    requires Inv(c, s) && Books(s) && Enabled(c, s, a) && Spaced(c, s) && c.sendDelay >= 0
    requires a.BackOffQueue? || a.BackOffRate? || a.BackOffDuty?
    ensures Spaced(c, Do(c, s, a))
  {
    hide Inv, Do, Enabled, Ordered, SafeRetries, Preceded, Reported, NoneForgotten;
    BacksOff(c, s, a);
    CurrentTimes(c, s);
    var last := |s.subs| - 1;
    assert SpacedFrom(s.t.waiters[last], s.subs[last]) == s.Cur().at;
  }

  lemma CommitSpaced(c: Config, s: Sys, a: Step)
    requires Inv(c, s) && Books(s) && Enabled(c, s, a) && Spaced(c, s) && c.sendDelay >= 0
    requires a.Commit? || a.CommitFailed?
    ensures Spaced(c, Do(c, s, a))
  {
    hide Inv, Do, Enabled, Ordered, SafeRetries, Preceded, Reported, NoneForgotten, WithinChunks, AtHand;
    Commits(c, s, a);
    CurrentTimes(c, s);
    var s' := Do(c, s, a);
    var last := |s.subs| - 1;
    assert forall i :: 0 <= i < last ==> s'.subs[i] == s.subs[i];
  }

  lemma EnterPacing(c: Config, s: Sys, dest: nat)
    requires Inv(c, s) && Enabled(c, s, Enter(dest))
    ensures Do(c, s, Enter(dest)).lastPacing == s.lastPacing && s.pc.Register?
  {
  }

  lemma EnterSpaced(c: Config, s: Sys, dest: nat)
    requires Inv(c, s) && Enabled(c, s, Enter(dest)) && Spaced(c, s) && c.sendDelay >= 0
    ensures Spaced(c, Do(c, s, Enter(dest)))
  {
    hide Inv, Do, Enabled, Spaces, SpacedFrom;
    Entered(c, s, dest);
    EnterPacing(c, s, dest);
  }

  lemma StepSpaced(c: Config, s: Sys, a: Step)
    requires Inv(c, s) && Books(s) && Enabled(c, s, a) && Spaced(c, s) && c.sendDelay >= 0
    ensures Spaced(c, Do(c, s, a))
  {
    hide Inv, Books, Spaced, Do, Enabled;
    if a.Enter? {
      EnterSpaced(c, s, a.destination);
    } else if a.Commit? || a.CommitFailed? {
      CommitSpaced(c, s, a);
    } else if MovesPacing(a) {
      BackOffSpaced(c, s, a);
    } else {
      QuietlySpaced(c, s, a);
    }
  }

  lemma {:induction false} RunSpaced(c: Config, s: Sys, steps: seq<Step>)
    requires Inv(c, s) && Books(s) && Spaced(c, s) && CanRun(c, s, steps) && c.sendDelay >= 0
    ensures Spaced(c, Run(c, s, steps))
    decreases |steps|
  {
    hide Inv, Books, Spaced;
    if steps != [] {
      StepKeeps(c, s, steps[0]);
      StepKeepsBooks(c, s, steps[0]);
      StepSpaced(c, s, steps[0]);
      RunSpaced(c, Do(c, s, steps[0]), steps[1..]);
    }
  }

  /** In every run, and across Sends, a packet reaches the transport no sooner than the send
      delay after any earlier acceptance, queue-full, rate or duty outcome. */
  lemma SendDelayIsKept(c: Config, now: int, steps: seq<Step>, i: nat, j: nat)
    requires CanRun(c, Init(now), steps) && c.sendDelay >= 0
    ensures var s := Run(c, Init(now), steps);
            i < j < |s.subs| ==>
              && |s.t.waiters| == |s.subs|
              && (Spaces(s.t.waiters[i], s.subs[i]) ==>
                    s.subs[j].began >= SpacedFrom(s.t.waiters[i], s.subs[i]) + c.sendDelay)
  {
    hide Inv, Books, Spaces, SpacedFrom;
    InitInv(c, now);
    InitBooks(now);
    InitSpaced(c, now);
    RunSpaced(c, Init(now), steps);
  }

  // ----- what the send delay does not cover

  lemma AllDecidedAtVerdict(c: Config, s: Sys)
    requires Inv(c, s) && (s.pc.Judge? || s.pc.Switch?)
    ensures s.subs != [] && |s.subs| == |s.t.waiters| && s.Cur().terminal != Pending
  {
  }

  lemma CommitMovesPacing(c: Config, s: Sys, a: Step)
    requires Inv(c, s) && Books(s) && Enabled(c, s, a) && (a.Commit? || a.CommitFailed?)
    ensures var s' := Do(c, s, a);
            && |s'.subs| == |s.subs| == |s'.t.waiters| > 0 && s'.lastPacing == Some(s.now)
            && Spaces(s'.Cur(), s'.subs[|s.subs| - 1])
  {
    hide Inv, Do, Enabled, Ordered, SafeRetries, Preceded, Reported, NoneForgotten, WithinChunks;
    Commits(c, s, a);
  }

  lemma BackOffMovesPacing(c: Config, s: Sys, a: Step)
    requires Inv(c, s) && Books(s) && Enabled(c, s, a)
    requires a.BackOffQueue? || a.BackOffRate? || a.BackOffDuty?
    ensures var s' := Do(c, s, a);
            && |s'.subs| == |s.subs| == |s'.t.waiters| > 0 && s'.lastPacing == Some(s.Cur().at)
            && Spaces(s'.Cur(), s'.subs[|s.subs| - 1])
  {
    hide Sound, Ordered, SafeRetries, Preceded, Reported, NoneForgotten, WithinChunks;
  }

  lemma NoEnter(c: Config, s: Sys, a: Step)
    requires Enabled(c, s, a) && (s.pc.Judge? || s.pc.Switch?) && !MovesPacing(a)
    ensures !AddsOrCommits(a)
  {
  }

  lemma LeavesUnspaced(c: Config, s: Sys, a: Step)
    requires Inv(c, s) && Books(s) && Enabled(c, s, a) && !MovesPacing(a)
    requires (s.pc.Judge? || s.pc.Switch?) && !Undigested(Do(c, s, a).pc)
    ensures var s' := Do(c, s, a);
            && |s'.subs| == |s.subs| == |s'.t.waiters| > 0 && s'.lastPacing == s.lastPacing
            && !Spaces(s'.Cur(), s'.subs[|s.subs| - 1])
  {
    hide Inv, Do, Enabled, Ordered, SafeRetries, Preceded, Reported, NoneForgotten, WithinChunks, AtHand;
    NoEnter(c, s, a);
    LeavesStage(c, s, a);
    PacingMoves(c, s, a);
    AllDecidedAtVerdict(c, s);
  }

  /** The pacing time lies at or after a submission exactly when that ended in one of the
      outcomes that start a delay. */
  lemma HeldBackIff(c: Config, s: Sys, a: Step)
    requires Inv(c, s) && Books(s) && Spaced(c, s) && Enabled(c, s, a) && c.sendDelay > 0
    requires (s.pc.Judge? || s.pc.Switch?) && !Undigested(Do(c, s, a).pc)
    ensures var s' := Do(c, s, a);
            && s.subs != [] && |s'.subs| == |s.subs| == |s'.t.waiters|
            && ((s'.lastPacing.Some? && s'.lastPacing.value >= s.subs[|s.subs| - 1].began)
                <==> Spaces(s'.Cur(), s'.subs[|s.subs| - 1]))
  {
    hide Inv, Books, Do, Enabled;
    AllDecidedAtVerdict(c, s);
    CurrentTimes(c, s);
    if a.Commit? || a.CommitFailed? {
      CommitMovesPacing(c, s, a);
    } else if MovesPacing(a) {
      BackOffMovesPacing(c, s, a);
    } else {
      LeavesUnspaced(c, s, a);
    }
  }

  /** Running one step more. */
  lemma {:induction false} RunOneMore(c: Config, s: Sys, steps: seq<Step>, a: Step)
    requires CanRun(c, s, steps) && Enabled(c, Run(c, s, steps), a)
    ensures CanRun(c, s, steps + [a])
    ensures Run(c, s, steps + [a]) == Do(c, Run(c, s, steps), a)
    decreases |steps|
  {
    hide Enabled, Do;
    if steps == [] {
      assert [] + [a] == [a];
      assert [a][1..] == [];
    } else {
      assert (steps + [a])[1..] == steps[1..] + [a];
      RunOneMore(c, Do(c, s, steps[0]), steps[1..], a);
    }
  }

  lemma BeginsSend(c: Config, s0: Sys, steps: seq<Step>) returns (more: seq<Step>)
    requires CanRun(c, s0, steps)
    requires Run(c, s0, steps).pc.Idle? && Run(c, s0, steps).ready.Some?
    ensures CanRun(c, s0, more)
    ensures var s := Run(c, s0, steps);
            Run(c, s0, more) ==
              s.(pc := PC.Pacing(0, None, s.ready.value), send := s.send + 1, chunks := 1, ids := [],
                 cancelled := false)
  {
    hide CanRun, Run;
    more := steps;
    RunOneMore(c, s0, more, StartSend(1));
    more := more + [StartSend(1)];
    RunOneMore(c, s0, more, NextChunk);
    more := more + [NextChunk];
    RunOneMore(c, s0, more, LeaveTop);
    more := more + [LeaveTop];
    RunOneMore(c, s0, more, SeeReady);
    more := more + [SeeReady];
  }

  /** From an idle sender, a Send of one chunk that nothing holds back. */
  lemma Submits(c: Config, s0: Sys, steps: seq<Step>, id: nat, dest: nat) returns (more: seq<Step>)
    requires CanRun(c, s0, steps) && id != 0
    requires var s := Run(c, s0, steps);
             && s.pc.Idle? && s.ready.Some? && s.t.pending == map[]
             && (s.lastPacing.Some? ==> s.now >= s.lastPacing.value + c.sendDelay)
    ensures CanRun(c, s0, more)
    ensures var s := Run(c, s0, steps);
            Run(c, s0, more) ==
              s.(pc := InCall(None), send := s.send + 1, chunks := 1, ids := [], cancelled := false,
                 t := OnRegister(s.t, id, dest, s.ready.value),
                 subs := s.subs + [Submission(s.send + 1, 0, s.now, |s.hist|, InFlight, None, false, None, None)])
  {
    hide CanRun, Run, OnRegister;
    more := BeginsSend(c, s0, steps);
    RunOneMore(c, s0, more, PacingOver);
    more := more + [PacingOver];
    RunOneMore(c, s0, more, Pick(id));
    more := more + [Pick(id)];
    RunOneMore(c, s0, more, Enter(dest));
    more := more + [Enter(dest)];
  }

  predicate Submitted(s: Sys, n: nat, limit: int) { n < |s.subs| && s.subs[n].began < limit }

  /** In some continuation from `s` the `n`-th submission is made before `limit`. */
  ghost predicate SubmitsBefore(c: Config, s: Sys, n: nat, limit: int) {
    exists more: seq<Step> :: CanRun(c, s, more) && Submitted(Run(c, s, more), n, limit)
  }

  /** The `n`-th submission, made or still to come, cannot be earlier than `limit`. */
  ghost predicate NotBefore(c: Config, s: Sys, n: nat, limit: int) {
    && n <= |s.subs|
    && (n < |s.subs| ==> s.subs[n].began >= limit)
    && (n == |s.subs| ==>
          s.now >= limit || (s.lastPacing.Some? && s.lastPacing.value + c.sendDelay >= limit))
  }

  lemma BackOffNotBefore(c: Config, s: Sys, a: Step, n: nat, limit: int)
    requires Inv(c, s) && Books(s) && Spaced(c, s) && Enabled(c, s, a) && c.sendDelay >= 0
    requires a.BackOffQueue? || a.BackOffRate? || a.BackOffDuty?
    requires NotBefore(c, s, n, limit)
    ensures NotBefore(c, Do(c, s, a), n, limit)
  {
    hide Inv, Do, Enabled, Ordered, SafeRetries, Preceded, Reported, NoneForgotten, WithinChunks, AtHand,
         Spaces, SpacedFrom;
    BacksOff(c, s, a);
    CurrentTimes(c, s);
  }

  lemma CommitNotBefore(c: Config, s: Sys, a: Step, n: nat, limit: int)
    requires Inv(c, s) && Books(s) && Spaced(c, s) && Enabled(c, s, a)
    requires a.Commit? || a.CommitFailed?
    requires NotBefore(c, s, n, limit)
    ensures NotBefore(c, Do(c, s, a), n, limit)
  {
    hide Inv, Do, Enabled, Ordered, SafeRetries, Preceded, Reported, NoneForgotten, WithinChunks, AtHand,
         Spaces, SpacedFrom;
    Commits(c, s, a);
  }

  lemma EnterNotBefore(c: Config, s: Sys, dest: nat, n: nat, limit: int)
    requires Inv(c, s) && Spaced(c, s) && Enabled(c, s, Enter(dest)) && NotBefore(c, s, n, limit)
    ensures NotBefore(c, Do(c, s, Enter(dest)), n, limit)
  {
    hide Inv, Do, Enabled, Spaces, SpacedFrom;
    Entered(c, s, dest);
    EnterPacing(c, s, dest);
  }

  lemma QuietNotBefore(c: Config, s: Sys, a: Step, n: nat, limit: int)
    requires Inv(c, s) && Enabled(c, s, a) && !AddsOrCommits(a) && !MovesPacing(a)
    requires NotBefore(c, s, n, limit)
    ensures NotBefore(c, Do(c, s, a), n, limit)
  {
    hide Inv, Do, Enabled;
    StepKept(c, s, a);
    PacingMoves(c, s, a);
  }

  lemma {:induction false} RunNotBefore(c: Config, s: Sys, steps: seq<Step>, n: nat, limit: int)
    requires Inv(c, s) && Books(s) && Spaced(c, s) && CanRun(c, s, steps) && c.sendDelay >= 0
    requires NotBefore(c, s, n, limit)
    ensures NotBefore(c, Run(c, s, steps), n, limit)
    decreases |steps|
  {
    hide Inv, Books, Spaced, NotBefore;
    if steps != [] {
      var a := steps[0];
      StepKeeps(c, s, a);
      StepKeepsBooks(c, s, a);
      StepSpaced(c, s, a);
      if a.Enter? {
        EnterNotBefore(c, s, a.destination, n, limit);
      } else if a.Commit? || a.CommitFailed? {
        CommitNotBefore(c, s, a, n, limit);
      } else if MovesPacing(a) {
        BackOffNotBefore(c, s, a, n, limit);
      } else {
        QuietNotBefore(c, s, a, n, limit);
      }
      RunNotBefore(c, Do(c, s, a), steps[1..], n, limit);
    }
  }

  lemma EndsWithTable(c: Config, s: Sys, a: Step)
    requires Inv(c, s) && Enabled(c, s, a) && !AddsOrCommits(a) && !MovesPacing(a)
    requires (s.pc.Judge? || s.pc.Switch?) && !Undigested(Do(c, s, a).pc)
    ensures var s' := Do(c, s, a);
            && (s'.pc.Idle? || s'.pc.Top?) && s'.t.pending == map[] && s'.now == s.now
            && s'.lastPacing == s.lastPacing
  {
    hide Sound;
    OnlyFailures(c, s, a);
  }

  lemma NoEnterHere(c: Config, s: Sys, a: Step)
    requires Enabled(c, s, a) && (s.pc.Judge? || s.pc.Switch?)
    ensures !a.Enter?
  {
  }

  /** After an outcome that starts no delay the sender is at the head of its loop or idle,
      and free of any delay. */
  lemma EndsUnspaced(c: Config, s: Sys, a: Step)
    requires Inv(c, s) && Books(s) && Spaced(c, s) && Enabled(c, s, a) && c.sendDelay >= 0
    requires (s.pc.Judge? || s.pc.Switch?) && !Undigested(Do(c, s, a).pc)
    requires !a.Commit? && !a.CommitFailed? && !MovesPacing(a)
    ensures var s' := Do(c, s, a);
            && (s'.pc.Idle? || s'.pc.Top?) && s'.t.pending == map[] && s'.now == s.now
            && (s'.lastPacing.Some? ==> s'.now >= s'.lastPacing.value + c.sendDelay)
  {
    hide Inv, Do, Enabled, Ordered, SafeRetries, Preceded, Reported, NoneForgotten, WithinChunks, AtHand,
         Spaces, SpacedFrom;
    AllDecidedAtVerdict(c, s);
    CurrentTimes(c, s);
    NoEnterHere(c, s, a);
    EndsWithTable(c, s, a);
  }

  lemma GivesUp(c: Config, s: Sys)
    requires s.pc.Top?
    ensures Enabled(c, s, GiveUp) && Do(c, s, GiveUp) == s.(pc := Idle)
  {
  }

  lemma ReadyAtOnce(c: Config, s: Sys)
    ensures Enabled(c, s, SetReady(Some(1))) && Do(c, s, SetReady(Some(1))) == s.(ready := Some(1))
  {
  }

  /** An idle sender that no delay holds back can submit at once, whatever it did before. */
  lemma SubmitsAtOnce(c: Config, s: Sys)
    requires (s.pc.Idle? || s.pc.Top?) && s.t.pending == map[]
    requires s.lastPacing.Some? ==> s.now >= s.lastPacing.value + c.sendDelay
    ensures SubmitsBefore(c, s, |s.subs|, s.now + 1)
  {
    hide Do, Enabled, OnRegister;
    var steps: seq<Step> := [];
    if s.pc.Top? {
      GivesUp(c, s);
      RunOneMore(c, s, steps, GiveUp);
      steps := steps + [GiveUp];
    }
    var before := Run(c, s, steps);
    ReadyAtOnce(c, before);
    RunOneMore(c, s, steps, SetReady(Some(1)));
    steps := steps + [SetReady(Some(1))];
    var more := Submits(c, s, steps, 7, 9);
    assert Submitted(Run(c, s, more), |s.subs|, s.now + 1);
  }

  lemma ReachesSpaced(c: Config, now: int, steps: seq<Step>)
    requires CanRun(c, Init(now), steps) && c.sendDelay >= 0
    ensures var s := Run(c, Init(now), steps); Inv(c, s) && Books(s) && Spaced(c, s)
  {
    hide Inv, Books, Spaced;
    InitInv(c, now);
    InitBooks(now);
    InitSpaced(c, now);
    RunKeepsBooks(c, Init(now), steps);
    RunSpaced(c, Init(now), steps);
  }

  lemma VerdictTime(c: Config, s: Sys, a: Step)
    requires Inv(c, s) && Books(s) && Enabled(c, s, a)
    requires (s.pc.Judge? || s.pc.Switch?) && !Undigested(Do(c, s, a).pc)
    ensures |Do(c, s, a).subs| == |Do(c, s, a).t.waiters| == |s.subs| > 0 && Do(c, s, a).now >= s.now
    ensures Do(c, s, a).subs[|s.subs| - 1].began == s.subs[|s.subs| - 1].began <= s.now
  {
    hide Inv, Do, Enabled, Ordered, SafeRetries, Preceded, Reported, NoneForgotten, WithinChunks, AtHand;
    AllDecidedAtVerdict(c, s);
    CurrentTimes(c, s);
    if a.Commit? || a.CommitFailed? {
      Commits(c, s, a);
    } else {
      NoEnterHere(c, s, a);
      StepKept(c, s, a);
    }
  }

  lemma NeverBefore(c: Config, s: Sys, n: nat, limit: int)
    requires Inv(c, s) && Books(s) && Spaced(c, s) && c.sendDelay >= 0 && NotBefore(c, s, n, limit)
    ensures !SubmitsBefore(c, s, n, limit)
  {
    hide Inv, Books, Spaced, Run, CanRun;
    if SubmitsBefore(c, s, n, limit) {
      var more: seq<Step> :| CanRun(c, s, more) && Submitted(Run(c, s, more), n, limit);
      RunNotBefore(c, s, more, n, limit);
      assert false;
    }
  }

  lemma UnspacedSteps(c: Config, s: Sys, a: Step)
    requires Inv(c, s) && Books(s) && Enabled(c, s, a)
    requires (s.pc.Judge? || s.pc.Switch?) && !Undigested(Do(c, s, a).pc)
    requires var s' := Do(c, s, a); |s'.subs| == |s'.t.waiters| > 0 && !Spaces(s'.Cur(), s'.subs[|s'.subs| - 1])
    ensures !a.Commit? && !a.CommitFailed? && !MovesPacing(a)
  {
    hide Inv, Books, Do, Enabled, Spaces;
    if a.Commit? || a.CommitFailed? {
      CommitMovesPacing(c, s, a);
      assert false;
    } else if MovesPacing(a) {
      BackOffMovesPacing(c, s, a);
      assert false;
    }
  }

  lemma Sooner(c: Config, s: Sys, n: nat, limit: int, later: int)
    requires SubmitsBefore(c, s, n, limit) && limit <= later
    ensures SubmitsBefore(c, s, n, later)
  {
    hide Run, CanRun;
    var more: seq<Step> :| CanRun(c, s, more) && Submitted(Run(c, s, more), n, limit);
    assert Submitted(Run(c, s, more), n, later);
  }

  lemma AfterVerdict(c: Config, s: Sys, a: Step)
    requires Inv(c, s) && Books(s) && Spaced(c, s) && Enabled(c, s, a) && c.sendDelay >= 0
    requires (s.pc.Judge? || s.pc.Switch?) && !Undigested(Do(c, s, a).pc)
    ensures var s' := Do(c, s, a);
            && |s'.subs| == |s'.t.waiters| > 0
            && var b := s'.subs[|s'.subs| - 1];
               SubmitsBefore(c, s', |s'.subs|, b.began + c.sendDelay)
               <==> !Spaces(s'.Cur(), b) && s.now < b.began + c.sendDelay
  {
    hide Inv, Books, Spaced, Do, Enabled, Spaces, SpacedFrom, SubmitsBefore;
    var s' := Do(c, s, a);
    VerdictTime(c, s, a);
    StepKeeps(c, s, a);
    StepKeepsBooks(c, s, a);
    StepSpaced(c, s, a);
    var n := |s'.subs|;
    var limit := s'.subs[n - 1].began + c.sendDelay;
    if s.now >= limit {
      NeverBefore(c, s', n, limit);
      return;
    }
    HeldBackIff(c, s, a);
    if Spaces(s'.Cur(), s'.subs[n - 1]) {
      NeverBefore(c, s', n, limit);
    } else {
      UnspacedSteps(c, s, a);
      EndsUnspaced(c, s, a);
      SubmitsAtOnce(c, s');
      Sooner(c, s', n, s.now + 1, limit);
    }
  }

  /** The configuration guide promises the delay between any two submissions.  For every
      reachable verdict: the next submission can come sooner than the delay after this one
      exactly when the outcome is none of those that start a delay, and the delay has not
      passed anyway. */
  lemma IntervalBrokenIff(c: Config, now: int, steps: seq<Step>, a: Step)
    requires CanRun(c, Init(now), steps) && c.sendDelay >= 0
    requires var s := Run(c, Init(now), steps);
             Enabled(c, s, a) && (s.pc.Judge? || s.pc.Switch?) && !Undigested(Do(c, s, a).pc)
    ensures var s := Run(c, Init(now), steps);
            var s' := Do(c, s, a);
            && |s'.subs| == |s'.t.waiters| > 0
            && var b := s'.subs[|s'.subs| - 1];
               SubmitsBefore(c, s', |s'.subs|, b.began + c.sendDelay)
               <==> !Spaces(s'.Cur(), b) && s.now < b.began + c.sendDelay
  {
    hide Inv, Books, Spaced, Do, Enabled, Spaces, SpacedFrom, NotBefore, SubmitsBefore, Undigested, Run, CanRun;
    var s := Run(c, Init(now), steps);
    ReachesSpaced(c, now, steps);
    AfterVerdict(c, s, a);
  }

  lemma IsRefused(c: Config, s0: Sys, steps: seq<Step>) returns (more: seq<Step>)
    requires CanRun(c, s0, steps)
    requires var s := Run(c, s0, steps);
             && s.pc.InCall? && |s.subs| == |s.t.waiters| > 0 && s.Cur().id != 0
             && s.t.pending == map[s.Cur().id := |s.subs| - 1] && s.Cur().terminal == Pending
    ensures CanRun(c, s0, more)
    ensures var s, s' := Run(c, s0, steps), Run(c, s0, more);
            && s'.pc.Waiting? && s'.ready == s.ready && s'.lastPacing == s.lastPacing && s'.now == s.now
            && s'.t.pending == s.t.pending && |s'.subs| == |s'.t.waiters| == |s.subs|
            && s'.Cur().id == s.Cur().id
            && s'.Cur().terminal == Permanent && s'.subs[|s.subs| - 1].wire == AllBytes
            && s'.subs[|s.subs| - 1].began == s.subs[|s.subs| - 1].began
  {
    hide CanRun, Run;
    var id := Run(c, s0, steps).Cur().id;
    RunOneMore(c, s0, steps, CallOk);
    more := steps + [CallOk];
    RunOneMore(c, s0, more, HearStatus(id, 1, 0));
    more := more + [HearStatus(id, 1, 0)];
  }

  /** A submission under way is taken by the transport and refused for good by the radio. */
  lemma IsRefusedForGood(c: Config, s0: Sys, steps: seq<Step>) returns (more: seq<Step>)
    requires CanRun(c, s0, steps)
    requires var s := Run(c, s0, steps);
             && s.pc.InCall? && |s.subs| == |s.t.waiters| > 0 && s.Cur().id != 0
             && s.t.pending == map[s.Cur().id := |s.subs| - 1] && s.Cur().terminal == Pending
    ensures CanRun(c, s0, more)
    ensures var s, s' := Run(c, s0, steps), Run(c, s0, more);
            && s'.pc.Idle? && s'.ready == s.ready && s'.lastPacing == s.lastPacing && s'.now == s.now
            && s'.t.pending == map[] && |s'.subs| == |s'.t.waiters| == |s.subs|
            && s'.Cur().terminal == Permanent && s'.subs[|s.subs| - 1].wire == AllBytes
            && s'.subs[|s.subs| - 1].began == s.subs[|s.subs| - 1].began
  {
    hide CanRun, Run;
    more := IsRefused(c, s0, steps);
    RunOneMore(c, s0, more, Look);
    more := more + [Look];
    RunOneMore(c, s0, more, Leave);
    more := more + [Leave];
    RunOneMore(c, s0, more, FailVerdict);
    more := more + [FailVerdict];
  }

  /** So the delay between any two submissions is not kept: a run in which the second comes
      at the very time of the first, which the radio took and refused. */
  lemma NoDelayAfterRefusal(c: Config, now: int) returns (steps: seq<Step>)
    ensures CanRun(c, Init(now), steps)
    ensures var s := Run(c, Init(now), steps);
            && |s.subs| == |s.t.waiters| == 2 && s.subs[0].wire == AllBytes
            && s.t.waiters[0].terminal == Permanent && s.subs[1].began == s.subs[0].began == now
  {
    hide Do, Enabled;
    ReadyAtOnce(c, Init(now));
    RunOneMore(c, Init(now), [], SetReady(Some(1)));
    var start := [] + [SetReady(Some(1))];
    var one := Submits(c, Init(now), start, 7, 9);
    var two := IsRefusedForGood(c, Init(now), one);
    steps := Submits(c, Init(now), two, 8, 9);
  }
}
