/** Duty-cycle notices that recovery does not wait for.

    A notice counts while its submission is undecided, and again once recovery has begun.  One
    that is handled in between finds neither an open record nor a recovery under way, and is
    dropped.  Here is exactly what that costs. */
module Notices {
  import opened Options
  import opened Acceptance
  import opened Protocol
  import opened Verdicts
  import opened Soundness
  import opened Retries
  import opened PacingRules
  import opened Progress
  import opened Recovery

  // ----- one history

  predicate IsNotice(e: Event, id: nat) { e.Notice? && e.id == id }

  /** `h` is the latest notice for `id` among the first `hi` events. */
  predicate LatestNotice(hist: seq<Event>, id: nat, h: nat, hi: nat)
    requires hi <= |hist|
  {
    h < hi && IsNotice(hist[h], id) && forall k :: h < k < hi ==> !IsNotice(hist[k], id)
  }

  lemma {:induction false} NoNotices(hist: seq<Event>, id: nat, lo: nat, hi: nat, none: Option<nat>)
    requires lo <= hi <= |hist| && forall k :: lo <= k < hi ==> !IsNotice(hist[k], id)
    ensures Minutes(hist, id, lo, hi, none) == none
    decreases hi
  {
    if lo < hi {
      NoNotices(hist, id, lo, hi - 1, none);
    }
  }

  lemma {:induction false} LatestMinutes(hist: seq<Event>, id: nat, lo: nat, hi: nat, h: nat, none: Option<nat>)
    requires hi <= |hist| && lo <= h && LatestNotice(hist, id, h, hi)
    ensures Minutes(hist, id, lo, hi, none) == Some(hist[h].minutes)
    decreases hi
  {
    if h < hi - 1 {
      LatestMinutes(hist, id, lo, hi - 1, h, none);
    }
  }

  /** The latest notice in a part of the history, if it has one. */
  lemma {:induction false} FindNotice(hist: seq<Event>, id: nat, lo: nat, hi: nat) returns (h: Option<nat>)
    requires lo <= hi <= |hist|
    ensures h.Some? ==> lo <= h.value && LatestNotice(hist, id, h.value, hi)
    ensures h.None? ==> forall k :: lo <= k < hi ==> !IsNotice(hist[k], id)
    decreases hi
  {
    if lo == hi {
      h := None;
    } else if IsNotice(hist[hi - 1], id) {
      h := Some(hi - 1);
    } else {
      h := FindNotice(hist, id, lo, hi - 1);
    }
  }

  /** What is lost when notices between `n` and `armed` are not looked at: the minutes come out
      as if all had been heard, unless the latest notice is one of them and says otherwise. */
  lemma SkippingIsHarmlessIff(hist: seq<Event>, id: nat, born: nat, n: nat, armed: nat, looked: nat)
    requires born <= n <= armed <= looked <= |hist|
    ensures var before := Minutes(hist, id, born, n, None);
            Minutes(hist, id, armed, looked, before) == Minutes(hist, id, born, looked, None)
            <==> !exists h: nat | n <= h < armed ::
                    LatestNotice(hist, id, h, looked) && Some(hist[h].minutes) != before
  {
    var before := Minutes(hist, id, born, n, None);
    var h := FindNotice(hist, id, born, looked);
    if h.None? {
      NoNotices(hist, id, born, looked, None);
      NoNotices(hist, id, born, n, None);
      NoNotices(hist, id, armed, looked, before);
    } else {
      LatestMinutes(hist, id, born, looked, h.value, None);
      if h.value >= armed {
        LatestMinutes(hist, id, armed, looked, h.value, before);
      } else {
        NoNotices(hist, id, armed, looked, before);
        if h.value < n {
          LatestMinutes(hist, id, born, n, h.value, None);
        }
      }
    }
  }

  // ----- one submission

  /** All that was reported for a submission by the time of the last look. */
  function AllReported(hist: seq<Event>, w: Waiter, b: Submission): Option<nat>
    requires SawMinutes(b, |hist|)
  {
    Minutes(hist, w.id, b.born, b.looked.value, None)
  }

  /** The latest notice at the last look had been dropped, and asked for a longer wait. */
  ghost predicate LongerNoticeDropped(c: Config, hist: seq<Event>, w: Waiter, b: Submission)
    requires SawMinutes(b, |hist|)
  {
    exists h: nat | b.settled.value.0 <= h < b.armed.value ::
      && LatestNotice(hist, w.id, h, b.looked.value)
      && DutyDeadline(c, w.at, Some(hist[h].minutes)) > DutyDeadline(c, w.at, w.duty)
  }

  lemma WaitIsShortIff(c: Config, hist: seq<Event>, now: int, w: Waiter, b: Submission)
    requires SawMinutes(b, |hist|) && SettledOK(c, hist, now, w, b)
    ensures DutyDeadline(c, w.at, Seen(hist, w, b)) < DutyDeadline(c, w.at, AllReported(hist, w, b))
       <==> LongerNoticeDropped(c, hist, w, b)
  {
    hide DutyDeadline, Justified, Minutes;
    var n := b.settled.value.0;
    SkippingIsHarmlessIff(hist, w.id, b.born, n, b.armed.value, b.looked.value);
    if h: nat :| n <= h < b.armed.value && LatestNotice(hist, w.id, h, b.looked.value) {
      LatestMinutes(hist, w.id, b.born, b.looked.value, h, None);
      NoNotices(hist, w.id, b.armed.value, b.looked.value, w.duty);
      forall k: nat | n <= k < b.armed.value && LatestNotice(hist, w.id, k, b.looked.value)
        ensures k == h
      {
      }
    }
  }

  // ----- every run

  /** The sender waits a duty-cycle rejection out from the time it paces by. */
  predicate DutyPaced(s: Sys) {
    s.pc.DutyArm? || s.pc.DutyWait? || s.pc.DutySeen? ==> s.lastPacing == Some(s.pc.at)
  }

  lemma CallDutyPaced(c: Config, s: Sys, a: Step)
    requires Enabled(c, s, a) && DutyPaced(s) && Calling(a)
    ensures DutyPaced(Do(c, s, a))
  {
    hide DutyDeadline, Disarmed, Stamp, Looking, SetLast, Table.Linked, OnStatus, OnPacket, OnNotice,
      OnFail, OnFinish, OnRemove, OnQuiet, OnRegister;
  }

  lemma OtherDutyPaced(c: Config, s: Sys, a: Step)
    requires Enabled(c, s, a) && DutyPaced(s) && !Calling(a)
    ensures DutyPaced(Do(c, s, a))
  {
    hide DutyDeadline, Disarmed, Stamp, Looking, SetLast, Table.Linked, OnStatus, OnPacket, OnNotice,
      OnFail, OnFinish, OnRemove, OnQuiet, OnRegister;
  }

  lemma StepDutyPaced(c: Config, s: Sys, a: Step)
    requires Enabled(c, s, a) && DutyPaced(s)
    ensures DutyPaced(Do(c, s, a))
  {
    hide Do, Enabled, DutyPaced;
    if Calling(a) {
      CallDutyPaced(c, s, a);
    } else {
      OtherDutyPaced(c, s, a);
    }
  }

  lemma {:induction false} RunDutyPaced(c: Config, s: Sys, steps: seq<Step>)
    requires DutyPaced(s) && CanRun(c, s, steps)
    ensures DutyPaced(Run(c, s, steps))
    decreases |steps|
  {
    hide DutyPaced, Do, Enabled;
    if steps != [] {
      StepDutyPaced(c, s, steps[0]);
      RunDutyPaced(c, Do(c, s, steps[0]), steps[1..]);
    }
  }

  predicate RetriedBefore(s: Sys, s': Sys, limit: int) {
    && 0 < |s.subs| < |s'.subs|
    && s'.subs[|s.subs| - 1] == s.subs[|s.subs| - 1]
    && SameJob(s'.subs[|s.subs| - 1], s'.subs[|s.subs|])
    && s'.subs[|s.subs|].began < limit
  }

  /** The latest submission can be retried within a continuation that begins before `limit`,
      without the sender looking at the minutes again. */
  ghost predicate RetriesBefore(c: Config, s: Sys, limit: int) {
    exists more: seq<Step> :: CanRun(c, s, more) && RetriedBefore(s, Run(c, s, more), limit)
  }

  lemma HistoryGrows(c: Config, s: Sys, a: Step)
    requires Inv(c, s) && Enabled(c, s, a)
    ensures s.hist <= Do(c, s, a).hist
  {
    hide Inv, Do, Enabled;
    if Hears(a) {
      Hearing(c, s, a);
    } else {
      ElsewhereQueue(c, s, a);
    }
  }

  lemma {:induction false} RunHistoryGrows(c: Config, s: Sys, steps: seq<Step>)
    requires Inv(c, s) && CanRun(c, s, steps)
    ensures s.hist <= Run(c, s, steps).hist
    decreases |steps|
  {
    hide Inv, Do, Enabled;
    if steps != [] {
      StepKeeps(c, s, steps[0]);
      HistoryGrows(c, s, steps[0]);
      RunHistoryGrows(c, Do(c, s, steps[0]), steps[1..]);
    }
  }

  lemma SettledRecord(c: Config, s: Sys, i: nat)
    requires Inv(c, s) && i < |s.subs|
    ensures |s.t.waiters| == |s.subs|
    ensures s.t.waiters[i].terminal != Pending ==> SettledOK(c, s.hist, s.now, s.t.waiters[i], s.subs[i])
  {
    hide SettledOK, PendingOK;
    assert RecordOK(c, s.hist, s.now, s.t.waiters[i], s.subs[i]);
  }

  lemma RetriedRecovered(c: Config, s: Sys, i: nat)
    requires Inv(c, s) && AllRecovered(c, s) && 0 < i < |s.subs| && SameJob(s.subs[i - 1], s.subs[i])
    ensures |s.t.waiters| == |s.subs| && s.subs[i].born <= |s.hist|
    ensures Recovered(c, s.hist, s.t.waiters[i - 1], s.subs[i - 1], s.subs[i].born, s.subs[i].began)
  {
    hide Inv, Recovered;
    BornBefore(c, s);
  }

  predicate DutyRefused(w: Waiter, b: Submission) { b.wire == AllBytes && w.terminal == Duty }

  /** In every run, a chunk that was turned down for the duty cycle is not tried again before
      all minutes reported for it have passed, by the sender's last look, unless a notice that
      asked for a longer wait came last and was dropped. */
  lemma AllReportedIsWaitedFor(c: Config, now: int, steps: seq<Step>, i: nat)
    requires CanRun(c, Init(now), steps)
    ensures var s := Run(c, Init(now), steps);
            0 < i < |s.subs| && SameJob(s.subs[i - 1], s.subs[i]) ==>
              && |s.t.waiters| == |s.subs|
              && var w, b := s.t.waiters[i - 1], s.subs[i - 1];
                 DutyRefused(w, b) ==>
                   && SawMinutes(b, |s.hist|)
                   && (s.subs[i].began >= DutyDeadline(c, w.at, AllReported(s.hist, w, b))
                       || LongerNoticeDropped(c, s.hist, w, b))
  {
    hide Inv, QueueTrue, DutyTrue, ReadTrue, AllRecovered, SettledOK, LongerNoticeDropped, DutyDeadline,
      Seen, AllReported, Run, CanRun;
    var s := Run(c, Init(now), steps);
    ReachesRecovering(c, now, steps);
    if 0 < i < |s.subs| && SameJob(s.subs[i - 1], s.subs[i]) {
      RetriedRecovered(c, s, i);
      SettledRecord(c, s, i - 1);
      if DutyRefused(s.t.waiters[i - 1], s.subs[i - 1]) {
        WaitIsShortIff(c, s.hist, s.now, s.t.waiters[i - 1], s.subs[i - 1]);
      }
    }
  }

  // ----- and exactly then it comes too soon

  /** From the end of duty recovery, the chunk can be submitted again at once. */
  lemma DutyPasses(c: Config, s0: Sys, steps: seq<Step>) returns (more: seq<Step>)
    requires CanRun(c, s0, steps)
    requires var s := Run(c, s0, steps);
             s.pc.DutySeen? && s.t.waiters != [] && s.lastPacing == Some(s.pc.at)
    ensures CanRun(c, s0, more)
    ensures var s := Run(c, s0, steps);
            Run(c, s0, more) ==
              s.(now := Max(s.now, DutyDeadline(c, s.pc.at, s.pc.mins)), t := Disarmed(s.t), ready := Some(1),
                 pc := AwaitReady(s.Cur().id, None))
  {
    hide CanRun, Run, Disarmed;
    var s := Run(c, s0, steps);
    var late := Max(s.now, DutyDeadline(c, s.pc.at, s.pc.mins));
    hide DutyDeadline;
    RunOneMore(c, s0, steps, Tick(late - s.now));
    more := steps + [Tick(late - s.now)];
    RunOneMore(c, s0, more, DutyOver);
    more := more + [DutyOver];
    RunOneMore(c, s0, more, LeaveTop);
    more := more + [LeaveTop];
    RunOneMore(c, s0, more, SetReady(Some(1)));
    more := more + [SetReady(Some(1))];
  }

  lemma DeadlinePaces(c: Config, at: int, mins: Option<nat>)
    ensures DutyDeadline(c, at, mins) >= at + c.sendDelay
  {
  }

  lemma TriesAgain(c: Config, s0: Sys, steps: seq<Step>, id: nat) returns (more: seq<Step>)
    requires CanRun(c, s0, steps) && id != 0
    requires var s := Run(c, s0, steps);
             && s.pc.DutySeen? && s.t.waiters != [] && s.lastPacing == Some(s.pc.at)
             && s.t.pending == map[] && s.Cur().id != id
    ensures CanRun(c, s0, more)
    ensures var s, s' := Run(c, s0, steps), Run(c, s0, more);
            && s'.subs == s.subs + [Submission(s.send, |s.ids|, Max(s.now, DutyDeadline(c, s.pc.at, s.pc.mins)),
                                               |s.hist|, InFlight, None, false, None, None)]
            && s'.hist == s.hist && |s'.t.waiters| == |s.t.waiters| + 1
            && s'.t.waiters[..|s.t.waiters|] == s.t.waiters
  {
    hide CanRun, Run, DutyDeadline;
    var s := Run(c, s0, steps);
    DeadlinePaces(c, s.pc.at, s.pc.mins);
    more := DutyPasses(c, s0, steps);
    more := SubmitsAgain(c, s0, more, id);
  }

  /** What the invariants say at the sender's last look. */
  lemma AtLastLook(c: Config, s: Sys)
    requires Inv(c, s) && Books(s) && ReadTrue(s) && s.pc.DutySeen?
    ensures |s.subs| == |s.t.waiters| > 0 && s.t.pending == map[] && DutyRefused(s.Cur(), s.subs[|s.subs| - 1])
    ensures s.pc.at == s.Cur().at && s.subs[|s.subs| - 1].send == s.send && s.subs[|s.subs| - 1].chunk == |s.ids|
    ensures SawMinutes(s.subs[|s.subs| - 1], |s.hist|)
    ensures s.pc.mins == Seen(s.hist, s.Cur(), s.subs[|s.subs| - 1])
  {
    hide Sound, Ordered, SafeRetries, Preceded, Reported, NoneForgotten, WithinChunks, Minutes;
  }

  lemma ReachesDuty(c: Config, now: int, steps: seq<Step>)
    requires CanRun(c, Init(now), steps) && c.sendDelay >= 0
    ensures var s := Run(c, Init(now), steps);
            Inv(c, s) && Books(s) && Spaced(c, s) && Recovering(c, s) && DutyPaced(s)
  {
    hide Inv, Books, Spaced, Recovering;
    ReachesSpaced(c, now, steps);
    ReachesRecovering(c, now, steps);
    RunDutyPaced(c, Init(now), steps);
  }

  /** A continuation in which the sender does not look again waits for what it saw. */
  lemma NeverRetriesBefore(c: Config, s: Sys, more: seq<Step>, limit: int)
    requires Inv(c, s) && Books(s) && Spaced(c, s) && Recovering(c, s) && c.sendDelay >= 0
    requires s.pc.DutySeen? && CanRun(c, s, more) && RetriedBefore(s, Run(c, s, more), limit)
    ensures limit > s.now && limit > DutyDeadline(c, s.pc.at, s.pc.mins)
  {
    hide Inv, Books, Spaced, QueueTrue, DutyTrue, ReadTrue, AllRecovered, Run, CanRun, DutyDeadline, Minutes,
      SawRoom;
    var s', n := Run(c, s, more), |s.subs|;
    AtLastLook(c, s);
    RunNotBefore(c, s, more, n, s.now);
    RunRecovering(c, s, more);
    RetriedRecovered(c, s', n);
    VerdictsAreFinal(c, s, more, n - 1);
    RunHistoryGrows(c, s, more);
    var b := s.subs[n - 1];
    assert s'.hist == s.hist + s'.hist[|s.hist|..];
    MinutesSame(s.hist, s'.hist[|s.hist|..], s.Cur().id, b.armed.value, b.looked.value, s.Cur().duty);
  }

  /** And it need not wait longer. */
  lemma RetriesInTime(c: Config, s: Sys, limit: int)
    requires Inv(c, s) && Books(s) && ReadTrue(s) && DutyPaced(s) && s.pc.DutySeen?
    requires limit > s.now && limit > DutyDeadline(c, s.pc.at, s.pc.mins)
    ensures RetriesBefore(c, s, limit)
  {
    hide Inv, Books, ReadTrue, DutyDeadline;
    AtLastLook(c, s);
    var more := TriesAgain(c, s, [], s.Cur().id + 1);
    assert RetriedBefore(s, Run(c, s, more), limit);
  }

  /** For every reachable last look during duty recovery: the chunk can be tried again before
      all minutes reported for it have passed exactly if they have not passed yet and the
      latest notice asked for a longer wait but was dropped. */
  lemma RetriesTooSoonIff(c: Config, now: int, steps: seq<Step>)
    requires CanRun(c, Init(now), steps) && c.sendDelay >= 0 && Run(c, Init(now), steps).pc.DutySeen?
    ensures var s := Run(c, Init(now), steps);
            && |s.subs| == |s.t.waiters| > 0 && SawMinutes(s.subs[|s.subs| - 1], |s.hist|)
            && var w, b := s.Cur(), s.subs[|s.subs| - 1];
               var limit := DutyDeadline(c, w.at, AllReported(s.hist, w, b));
               RetriesBefore(c, s, limit) <==> s.now < limit && LongerNoticeDropped(c, s.hist, w, b)
  {
    hide Inv, Books, Spaced, QueueTrue, DutyTrue, ReadTrue, AllRecovered, DutyPaced, RetriedBefore, SettledOK,
      DutyDeadline, LongerNoticeDropped, Seen, AllReported, SawMinutes, Run, CanRun;
    var s := Run(c, Init(now), steps);
    ReachesDuty(c, now, steps);
    AtLastLook(c, s);
    var w, b := s.Cur(), s.subs[|s.subs| - 1];
    var limit := DutyDeadline(c, w.at, AllReported(s.hist, w, b));
    SettledRecord(c, s, |s.subs| - 1);
    WaitIsShortIff(c, s.hist, s.now, w, b);
    if RetriesBefore(c, s, limit) {
      var more: seq<Step> :| CanRun(c, s, more) && RetriedBefore(s, Run(c, s, more), limit);
      NeverRetriesBefore(c, s, more, limit);
    } else if s.now < limit && LongerNoticeDropped(c, s.hist, w, b) {
      RetriesInTime(c, s, limit);
    }
  }

  // ----- an example

  /** The radio's word that `id` was refused for the duty cycle. */
  function DutyRefusal(id: nat, time: int): Event {
    Control(1, 0, Packet(0, 0, 0, Routing(id, Some(DutyCycleLimit))), time)
  }

  /** A submission under way is refused for the duty cycle, after a notice of five minutes. */
  lemma IsRefusedForDuty(c: Config, s0: Sys, steps: seq<Step>) returns (more: seq<Step>)
    requires CanRun(c, s0, steps)
    requires var s := Run(c, s0, steps);
             && s.pc.InCall? && |s.subs| == |s.t.waiters| > 0 && s.Cur().id != 0 && s.Cur().attempt == 1
             && s.t.pending == map[s.Cur().id := |s.subs| - 1] && s.Cur().terminal == Pending
             && s.subs[|s.subs| - 1].settled.None?
    ensures CanRun(c, s0, more)
    ensures var s, s' := Run(c, s0, steps), Run(c, s0, more);
            && s'.pc.Waiting? && s'.now == s.now && s'.t.pending == s.t.pending
            && s'.send == s.send && s'.ids == s.ids
            && s'.hist == s.hist + [Notice(s.Cur().id, 5, s.now), DutyRefusal(s.Cur().id, s.now)]
            && s'.t.waiters == s.t.waiters[|s.subs| - 1 := s.Cur().(duty := Some(5), terminal := Duty, at := s.now)]
            && s'.subs == s.subs[|s.subs| - 1 :=
                 s.subs[|s.subs| - 1].(wire := AllBytes, settled := Some((|s.hist| + 2, s.now)))]
  {
    hide CanRun, Run;
    var id := Run(c, s0, steps).Cur().id;
    RunOneMore(c, s0, steps, CallOk);
    more := steps + [CallOk];
    RunOneMore(c, s0, more, HearNotice(id, 5));
    more := more + [HearNotice(id, 5)];
    var refusal := HearPacket(1, 0, Packet(0, 0, 0, Routing(id, Some(DutyCycleLimit))));
    RunOneMore(c, s0, more, refusal);
    more := more + [refusal];
  }

  /** The sender learns of the refusal. */
  lemma LearnsOfRefusal(c: Config, s0: Sys, steps: seq<Step>) returns (more: seq<Step>)
    requires CanRun(c, s0, steps)
    requires var s := Run(c, s0, steps);
             && s.pc.Waiting? && |s.subs| == |s.t.waiters| > 0 && s.Cur().terminal == Duty
             && s.t.pending == map[s.Cur().id := |s.subs| - 1]
    ensures CanRun(c, s0, more)
    ensures var s := Run(c, s0, steps);
            Run(c, s0, more) ==
              s.(t := s.t.(pending := map[]), lastPacing := Some(s.Cur().at), pc := DutyArm(s.Cur().at, s.Cur().duty))
  {
    hide CanRun, Run;
    RunOneMore(c, s0, steps, Look);
    more := steps + [Look];
    RunOneMore(c, s0, more, Leave);
    more := more + [Leave];
    RunOneMore(c, s0, more, BackOffDuty);
    more := more + [BackOffDuty];
  }

  /** A notice of fifty minutes comes before recovery begins, and leaves the record alone. */
  lemma NoticeComesBetween(c: Config, s0: Sys, steps: seq<Step>) returns (more: seq<Step>)
    requires CanRun(c, s0, steps)
    requires var s := Run(c, s0, steps);
             s.pc.DutyArm? && |s.subs| == |s.t.waiters| > 0 && s.t.pending == map[] && s.Cur().terminal == Duty
    ensures CanRun(c, s0, more)
    ensures var s, s' := Run(c, s0, steps), Run(c, s0, more);
            && s'.pc == s.pc && s'.now == s.now && s'.lastPacing == s.lastPacing
            && s'.t.pending == map[] && s'.t.waiters == s.t.waiters && s'.subs == s.subs
            && s'.send == s.send && s'.ids == s.ids
            && s'.hist == s.hist + [Notice(s.Cur().id, 50, s.now)]
  {
    hide CanRun, Run;
    var id := Run(c, s0, steps).Cur().id;
    RunOneMore(c, s0, steps, HearNotice(id, 50));
    more := steps + [HearNotice(id, 50)];
  }

  lemma RecoveryBegins(c: Config, s0: Sys, steps: seq<Step>) returns (more: seq<Step>)
    requires CanRun(c, s0, steps)
    requires var s := Run(c, s0, steps); s.pc.DutyArm? && |s.subs| == |s.t.waiters| > 0
    ensures CanRun(c, s0, more)
    ensures var s, s' := Run(c, s0, steps), Run(c, s0, more);
            && s'.pc == DutySeen(s.pc.at, s.pc.duty) && s'.now == s.now && s'.lastPacing == s.lastPacing
            && s'.t.pending == s.t.pending && s'.t.waiters == s.t.waiters && s'.hist == s.hist
            && s'.send == s.send && s'.ids == s.ids
            && s'.subs == s.subs[|s.subs| - 1 :=
                 s.subs[|s.subs| - 1].(armed := Some(|s.hist|), looked := Some(|s.hist|))]
  {
    hide CanRun, Run;
    RunOneMore(c, s0, steps, ArmDuty);
    more := steps + [ArmDuty];
    RunOneMore(c, s0, more, SeeDuty);
    more := more + [SeeDuty];
  }

  lemma BecomesReady(c: Config, s: Sys) returns (steps: seq<Step>)
    ensures CanRun(c, s, steps) && Run(c, s, steps) == s.(ready := Some(1))
  {
    hide Do, Enabled;
    ReadyAtOnce(c, s);
    RunOneMore(c, s, [], SetReady(Some(1)));
    steps := [] + [SetReady(Some(1))];
  }

  /** A run in which the minutes reported last are not waited for: five minutes, the refusal,
      fifty minutes before recovery begins, and a retry after the five. */
  lemma NoticeIsDropped(c: Config, now: int) returns (steps: seq<Step>)
    ensures CanRun(c, Init(now), steps)
    ensures var s := Run(c, Init(now), steps);
            && |s.subs| == |s.t.waiters| == 2 && SameJob(s.subs[0], s.subs[1])
            && DutyRefused(s.t.waiters[0], s.subs[0]) && s.t.waiters[0].at == now
            && SawMinutes(s.subs[0], |s.hist|) && AllReported(s.hist, s.t.waiters[0], s.subs[0]) == Some(50)
            && s.subs[1].began == now + Max(c.sendDelay, 5 * MINUTE)
  {
    hide Do, Enabled, CanRun, Run;
    var s0 := Init(now);
    steps := BecomesReady(c, s0);
    steps := Submits(c, s0, steps, 7, 9);
    steps := IsRefusedForDuty(c, s0, steps);
    steps := LearnsOfRefusal(c, s0, steps);
    steps := NoticeComesBetween(c, s0, steps);
    steps := RecoveryBegins(c, s0, steps);
    steps := TriesAgain(c, s0, steps, 8);
    DeadlineMeaning(c, now, Some(5));
    var s := Run(c, s0, steps);
    assert s.hist == [Notice(7, 5, now), DutyRefusal(7, now), Notice(7, 50, now)];
    assert s.t.waiters[0] == s.t.waiters[..1][0];
    LatestMinutes(s.hist, 7, 0, 3, 2, None);
  }
}
