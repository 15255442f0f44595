/** What can always happen: from every reachable state of these kinds the sender gets on, with
    no further message from the radio.  A wait may end at any time, so each of these is a
    continuation of the run, not a promise about when it comes. */
module Progress {
  import opened Options
  import opened Acceptance
  import opened Protocol
  import opened Verdicts
  import opened Soundness
  import opened Retries
  import opened PacingRules

  /** The state of a sender that has a record and waits for its verdict. */
  predicate AwaitsVerdict(s: Sys) {
    && s.pc.Waiting? && |s.subs| == |s.t.waiters| > 0
    && s.t.pending == map[s.Cur().id := |s.subs| - 1]
  }

  lemma ReachableAwaits(c: Config, now: int, steps: seq<Step>)
    requires CanRun(c, Init(now), steps) && Run(c, Init(now), steps).pc.Waiting?
    ensures AwaitsVerdict(Run(c, Init(now), steps))
  {
    hide Sound, Remembers, Run, CanRun;
    InitInv(c, now);
    RunKeeps(c, Init(now), steps);
  }

  lemma ReachableFailed(c: Config, now: int, steps: seq<Step>)
    requires CanRun(c, Init(now), steps)
    requires Run(c, Init(now), steps).pc.CallFailed? || Run(c, Init(now), steps).pc.Select?
    ensures var s := Run(c, Init(now), steps);
            && |s.subs| == |s.t.waiters| > 0 && s.t.pending == map[s.Cur().id := |s.subs| - 1]
            && !s.subs[|s.subs| - 1].committed
  {
    hide Sound, Remembers, Ordered, SafeRetries, Preceded, Reported, NoneForgotten, WithinChunks, Run, CanRun;
    InitInv(c, now);
    InitBooks(now);
    RunKeepsBooks(c, Init(now), steps);
  }

  // ----- acceptance

  /** The sender takes note of a verdict: its record leaves the table. */
  lemma TakesVerdict(c: Config, s0: Sys, steps: seq<Step>) returns (more: seq<Step>)
    requires CanRun(c, s0, steps) && AwaitsVerdict(Run(c, s0, steps))
    requires Run(c, s0, steps).Cur().terminal != Pending
    ensures CanRun(c, s0, more)
    ensures var s := Run(c, s0, steps);
            Run(c, s0, more) ==
              s.(t := s.t.(pending := map[]), pc := Switch(s.Cur().terminal, s.Cur().at, s.Cur().duty))
  {
    hide CanRun, Run;
    RunOneMore(c, s0, steps, Look);
    more := steps + [Look];
    RunOneMore(c, s0, more, Leave);
    more := more + [Leave];
  }

  /** The id of the current record has joined the result, and nothing more was heard. */
  predicate Returned(s: Sys, s': Sys, at: int)
    requires |s.subs| == |s.t.waiters| > 0
  {
    && s'.pc.Between? && s'.ids == s.ids + [s.Cur().id] && s'.hist == s.hist && s'.now == s.now
    && s'.send == s.send && s'.t.pending == map[] && |s'.subs| == |s.subs|
    && |s'.t.waiters| == |s.t.waiters| && s'.Cur().id == s.Cur().id
    && s'.Cur().terminal == Kind.Accepted && s'.Cur().at == at && s'.subs[|s.subs| - 1].committed
  }

  lemma AcceptedIsReturned(c: Config, s0: Sys, steps: seq<Step>) returns (more: seq<Step>)
    requires CanRun(c, s0, steps) && AwaitsVerdict(Run(c, s0, steps))
    requires Run(c, s0, steps).Cur().terminal == Kind.Accepted
    ensures CanRun(c, s0, more)
    ensures var s := Run(c, s0, steps); Returned(s, Run(c, s0, more), s.Cur().at)
  {
    hide CanRun, Run;
    more := TakesVerdict(c, s0, steps);
    RunOneMore(c, s0, more, Commit);
    more := more + [Commit];
  }

  lemma QuietRunsOut(c: Config, s0: Sys, steps: seq<Step>) returns (more: seq<Step>)
    requires CanRun(c, s0, steps) && AwaitsVerdict(Run(c, s0, steps))
    requires var s := Run(c, s0, steps);
             s.Cur().terminal == Pending && s.Cur().queueOK && s.now >= s.Cur().queueAt + c.grace
    ensures CanRun(c, s0, more)
    ensures var s, s' := Run(c, s0, steps), Run(c, s0, more);
            && AwaitsVerdict(s') && s'.Cur() == s.Cur().(terminal := Kind.Accepted, at := s.Cur().queueAt)
            && s'.ids == s.ids && s'.hist == s.hist && s'.now == s.now && s'.send == s.send
            && |s'.subs| == |s.subs|
  {
    hide CanRun, Run;
    RunOneMore(c, s0, steps, Look);
    more := steps + [Look];
    RunOneMore(c, s0, more, Decide);
    more := more + [Decide];
    RunOneMore(c, s0, more, Quiet);
    more := more + [Quiet];
  }

  /** The rejection grace: a submission with a Res-0 status and no echo is accepted, as of that
      status, once the grace has passed without a rejection, and its id is returned. */
  lemma QuietWindowAccepts(c: Config, now: int, steps: seq<Step>) returns (more: seq<Step>)
    requires CanRun(c, Init(now), steps)
    requires var s := Run(c, Init(now), steps);
             && s.pc.Waiting? && s.t.waiters != []
             && s.Cur().terminal == Pending && s.Cur().queueOK && s.now >= s.Cur().queueAt + c.grace
    ensures CanRun(c, Init(now), more)
    ensures var s := Run(c, Init(now), steps);
            |s.subs| == |s.t.waiters| && Returned(s, Run(c, Init(now), more), s.Cur().queueAt)
  {
    hide CanRun, Run;
    ReachableAwaits(c, now, steps);
    more := QuietRunsOut(c, Init(now), steps);
    more := AcceptedIsReturned(c, Init(now), more);
  }

  /** With both confirmations the id is returned without any wait. */
  lemma ConfirmedIsReturned(c: Config, now: int, steps: seq<Step>) returns (more: seq<Step>)
    requires CanRun(c, Init(now), steps)
    requires var s := Run(c, Init(now), steps);
             s.pc.Waiting? && s.t.waiters != [] && s.Cur().terminal == Kind.Accepted
    ensures CanRun(c, Init(now), more)
    ensures var s := Run(c, Init(now), steps);
            |s.subs| == |s.t.waiters| && Returned(s, Run(c, Init(now), more), s.Cur().at)
  {
    hide CanRun, Run;
    ReachableAwaits(c, now, steps);
    more := AcceptedIsReturned(c, Init(now), steps);
  }

  /** A record that was accepted before the transport call failed counts as sent. */
  lemma AcceptedDespiteError(c: Config, now: int, steps: seq<Step>) returns (more: seq<Step>)
    requires CanRun(c, Init(now), steps)
    requires var s := Run(c, Init(now), steps);
             s.pc.CallFailed? && s.t.waiters != [] && s.Cur().terminal == Kind.Accepted
    ensures CanRun(c, Init(now), more)
    ensures var s := Run(c, Init(now), steps);
            |s.subs| == |s.t.waiters| && Returned(s, Run(c, Init(now), more), s.Cur().at)
  {
    hide CanRun, Run;
    ReachableFailed(c, now, steps);
    RunOneMore(c, Init(now), steps, Remove);
    more := steps + [Remove];
    RunOneMore(c, Init(now), more, CommitFailed);
    more := more + [CommitFailed];
  }

  // ----- giving up

  /** The Send has ended without this chunk, whose outcome is unknown. */
  predicate EndsAmbiguous(s: Sys, s': Sys)
    requires |s.subs| == |s.t.waiters| > 0
  {
    && s'.pc.Idle? && s'.ids == s.ids && s'.hist == s.hist && s'.t.pending == map[]
    && |s'.subs| == |s.subs| && |s'.t.waiters| == |s.t.waiters|
    && s'.Cur().terminal == Ambiguous && s'.Cur().at == s.now && !s'.subs[|s.subs| - 1].committed
  }

  lemma Expires(c: Config, s0: Sys, steps: seq<Step>) returns (more: seq<Step>)
    requires CanRun(c, s0, steps)
    requires var s := Run(c, s0, steps);
             && s.pc.Select? && |s.subs| == |s.t.waiters| > 0 && s.Cur().terminal == Pending
             && s.t.pending == map[s.Cur().id := |s.subs| - 1]
    ensures CanRun(c, s0, more)
    ensures var s, s' := Run(c, s0, steps), Run(c, s0, more);
            && AwaitsVerdict(s') && s'.Cur() == s.Cur().(terminal := Ambiguous, at := s.now)
            && s'.ids == s.ids && s'.hist == s.hist && |s'.subs| == |s.subs|
            && s'.subs[|s.subs| - 1].committed == s.subs[|s.subs| - 1].committed
  {
    hide CanRun, Run;
    RunOneMore(c, s0, steps, Expire);
    more := steps + [Expire];
  }

  /** A submission that hears nothing decisive until the wait is over ends the Send. */
  lemma SilenceEndsTheSend(c: Config, now: int, steps: seq<Step>) returns (more: seq<Step>)
    requires CanRun(c, Init(now), steps)
    requires var s := Run(c, Init(now), steps); s.pc.Select? && s.t.waiters != [] && s.Cur().terminal == Pending
    ensures CanRun(c, Init(now), more)
    ensures var s := Run(c, Init(now), steps);
            |s.subs| == |s.t.waiters| && EndsAmbiguous(s, Run(c, Init(now), more))
  {
    hide CanRun, Run;
    ReachableFailed(c, now, steps);
    more := Expires(c, Init(now), steps);
    more := TakesVerdict(c, Init(now), more);
    RunOneMore(c, Init(now), more, FailVerdict);
    more := more + [FailVerdict];
  }

  /** A transport call that failed with bytes out ends the Send, unless it was accepted. */
  lemma BytesOutEndTheSend(c: Config, now: int, steps: seq<Step>) returns (more: seq<Step>)
    requires CanRun(c, Init(now), steps)
    requires var s := Run(c, Init(now), steps);
             s.pc.CallFailed? && !s.pc.zero && s.t.waiters != [] && s.Cur().terminal == Pending
    ensures CanRun(c, Init(now), more)
    ensures var s := Run(c, Init(now), steps);
            |s.subs| == |s.t.waiters| && EndsAmbiguous(s, Run(c, Init(now), more))
  {
    hide CanRun, Run;
    ReachableFailed(c, now, steps);
    RunOneMore(c, Init(now), steps, Remove);
    more := steps + [Remove];
    RunOneMore(c, Init(now), more, FailCall);
    more := more + [FailCall];
  }

  // ----- retries

  /** The current chunk has been submitted once more, at `time`, and nothing more was heard. */
  predicate TriedAgainAt(s: Sys, s': Sys, time: int)
    requires |s.subs| > 0
  {
    && |s'.subs| == |s.subs| + 1 && SameJob(s.subs[|s.subs| - 1], s'.subs[|s.subs|])
    && s'.subs[|s.subs|].began == time && s'.hist == s.hist && s'.pc.InCall?
  }

  /** A sender that is ready and held back by nothing submits. */
  lemma SubmitsAgain(c: Config, s0: Sys, steps: seq<Step>, id: nat) returns (more: seq<Step>)
    requires CanRun(c, s0, steps) && id != 0
    requires var s := Run(c, s0, steps);
             && s.pc.AwaitReady? && s.pc.prev != id && s.ready == Some(1) && s.t.pending == map[]
             && (s.lastPacing.Some? ==> s.now >= s.lastPacing.value + c.sendDelay)
    ensures CanRun(c, s0, more)
    ensures var s, s' := Run(c, s0, steps), Run(c, s0, more);
            && s'.subs == s.subs + [Submission(s.send, |s.ids|, s.now, |s.hist|, InFlight, None, false, None, None)]
            && s'.t == OnRegister(s.t, id, 9, 1) && s'.hist == s.hist && s'.pc.InCall?
  {
    hide CanRun, Run, OnRegister;
    RunOneMore(c, s0, steps, SeeReady);
    more := steps + [SeeReady];
    RunOneMore(c, s0, more, PacingOver);
    more := more + [PacingOver];
    RunOneMore(c, s0, more, Pick(id));
    more := more + [Pick(id)];
    RunOneMore(c, s0, more, Enter(9));
    more := more + [Enter(9)];
  }

  /** From the head of the loop, after what it asks to wait for. */
  lemma LeavesTop(c: Config, s0: Sys, steps: seq<Step>, time: int) returns (more: seq<Step>)
    requires CanRun(c, s0, steps)
    requires var s := Run(c, s0, steps);
             && s.pc.Top? && time >= s.now && s.t.pending == map[]
             && (s.pc.notBefore.Some? ==> time >= s.pc.notBefore.value)
             && (s.lastPacing.Some? ==> time >= s.lastPacing.value + c.sendDelay)
    ensures CanRun(c, s0, more)
    ensures var s, s' := Run(c, s0, steps), Run(c, s0, more);
            && s'.subs == s.subs + [Submission(s.send, |s.ids|, time, |s.hist|, InFlight, None, false, None, None)]
            && s'.hist == s.hist && s'.pc.InCall?
  {
    hide CanRun, Run, OnRegister;
    var s := Run(c, s0, steps);
    RunOneMore(c, s0, steps, Tick(time - s.now));
    more := steps + [Tick(time - s.now)];
    RunOneMore(c, s0, more, LeaveTop);
    more := more + [LeaveTop];
    RunOneMore(c, s0, more, SetReady(Some(1)));
    more := more + [SetReady(Some(1))];
    more := SubmitsAgain(c, s0, more, s.pc.prev + 1);
  }

  /** The latest record belongs to the chunk at hand. */
  lemma ReachableAtHand(c: Config, now: int, steps: seq<Step>)
    requires CanRun(c, Init(now), steps) && HasCurrent(Run(c, Init(now), steps).pc)
    ensures var s := Run(c, Init(now), steps);
            && |s.subs| == |s.t.waiters| > 0
            && s.subs[|s.subs| - 1].send == s.send && s.subs[|s.subs| - 1].chunk == |s.ids|
  {
    hide Inv, Ordered, SafeRetries, Preceded, Reported, NoneForgotten, WithinChunks, Run, CanRun;
    InitInv(c, now);
    InitBooks(now);
    RunKeepsBooks(c, Init(now), steps);
  }

  lemma BacksOffRate(c: Config, s0: Sys, steps: seq<Step>) returns (more: seq<Step>)
    requires CanRun(c, s0, steps)
    requires var s := Run(c, s0, steps); s.pc.Switch? && s.pc.kind == Rate && s.t.waiters != []
    ensures CanRun(c, s0, more)
    ensures var s := Run(c, s0, steps);
            Run(c, s0, more) ==
              s.(lastPacing := Some(s.pc.at), pc := Top(s.Cur().id, Some(s.pc.at + c.sendDelay)))
  {
    hide CanRun, Run;
    RunOneMore(c, s0, steps, BackOffRate);
    more := steps + [BackOffRate];
  }

  /** A chunk refused for the rate limit is tried again, as soon as the send delay has passed. */
  lemma RateIsRetried(c: Config, now: int, steps: seq<Step>) returns (more: seq<Step>)
    requires CanRun(c, Init(now), steps)
    requires var s := Run(c, Init(now), steps); s.pc.Waiting? && s.t.waiters != [] && s.Cur().terminal == Rate
    ensures CanRun(c, Init(now), more)
    ensures var s := Run(c, Init(now), steps);
            && |s.subs| == |s.t.waiters|
            && TriedAgainAt(s, Run(c, Init(now), more), Max(s.now, s.Cur().at + c.sendDelay))
  {
    hide CanRun, Run;
    var s := Run(c, Init(now), steps);
    ReachableAwaits(c, now, steps);
    ReachableAtHand(c, now, steps);
    more := TakesVerdict(c, Init(now), steps);
    more := BacksOffRate(c, Init(now), more);
    more := LeavesTop(c, Init(now), more, Max(s.now, s.Cur().at + c.sendDelay));
  }

  lemma QueueEmpties(c: Config, s0: Sys, steps: seq<Step>) returns (more: seq<Step>)
    requires CanRun(c, s0, steps)
    requires var s := Run(c, s0, steps);
             && s.pc.Switch? && s.pc.kind == QueueFull && |s.subs| == |s.t.waiters| > 0
             && s.t.queueKnown && s.t.queueFree > 0
    ensures CanRun(c, s0, more)
    ensures var s, s' := Run(c, s0, steps), Run(c, s0, more);
            && s'.pc == Top(s.Cur().id, None) && s'.lastPacing == Some(s.pc.at)
            && s'.now == Max(s.now, s.pc.at + c.sendDelay)
            && s'.t == s.t && s'.hist == s.hist && s'.send == s.send && s'.ids == s.ids
            && s'.subs == s.subs[|s.subs| - 1 := s.subs[|s.subs| - 1].(looked := Some(|s.hist|))]
  {
    hide CanRun, Run;
    var s := Run(c, s0, steps);
    var wait := Max(s.now, s.pc.at + c.sendDelay) - s.now;
    RunOneMore(c, s0, steps, BackOffQueue);
    more := steps + [BackOffQueue];
    RunOneMore(c, s0, more, Tick(wait));
    more := more + [Tick(wait)];
    RunOneMore(c, s0, more, SeeQueue);
    more := more + [SeeQueue];
    RunOneMore(c, s0, more, QueueOver);
    more := more + [QueueOver];
  }

  /** A chunk refused for a full queue is tried again when the queue is known to have room, as
      soon as the send delay has passed. */
  lemma QueueFullIsRetried(c: Config, now: int, steps: seq<Step>) returns (more: seq<Step>)
    requires CanRun(c, Init(now), steps)
    requires var s := Run(c, Init(now), steps);
             && s.pc.Waiting? && s.t.waiters != [] && s.Cur().terminal == QueueFull
             && s.t.queueKnown && s.t.queueFree > 0
    ensures CanRun(c, Init(now), more)
    ensures var s := Run(c, Init(now), steps);
            && |s.subs| == |s.t.waiters|
            && TriedAgainAt(s, Run(c, Init(now), more), Max(s.now, s.Cur().at + c.sendDelay))
  {
    hide CanRun, Run;
    var s := Run(c, Init(now), steps);
    ReachableAwaits(c, now, steps);
    ReachableAtHand(c, now, steps);
    more := TakesVerdict(c, Init(now), steps);
    more := QueueEmpties(c, Init(now), more);
    more := LeavesTop(c, Init(now), more, Max(s.now, s.Cur().at + c.sendDelay));
  }

  lemma FailsWithoutBytes(c: Config, s0: Sys, steps: seq<Step>) returns (more: seq<Step>)
    requires CanRun(c, s0, steps)
    requires var s := Run(c, s0, steps);
             && s.pc.CallFailed? && s.pc.zero && !s.cancelled && |s.subs| == |s.t.waiters| > 0
             && s.t.pending == map[s.Cur().id := |s.subs| - 1] && s.Cur().terminal != Kind.Accepted
    ensures CanRun(c, s0, more)
    ensures var s, s' := Run(c, s0, steps), Run(c, s0, more);
            && s'.pc == Top(s.Cur().id, s.pc.notBefore) && s'.lastPacing == s.lastPacing && s'.now == s.now
            && s'.t.pending == map[] && s'.hist == s.hist && s'.send == s.send && s'.ids == s.ids
            && |s'.subs| == |s.subs| && SameJob(s.subs[|s.subs| - 1], s'.subs[|s.subs| - 1])
  {
    hide CanRun, Run;
    RunOneMore(c, s0, steps, Remove);
    more := steps + [Remove];
    RunOneMore(c, s0, more, Retry);
    more := more + [Retry];
  }

  lemma FailedState(c: Config, s: Sys)
    requires Inv(c, s) && Spaced(c, s) && s.pc.CallFailed?
    ensures |s.subs| == |s.t.waiters| > 0 && s.t.pending == map[s.Cur().id := |s.subs| - 1]
    ensures s.lastPacing.Some? ==> s.now >= s.lastPacing.value + c.sendDelay
  {
    hide Remembers, RecordOK, Spaces, SpacedFrom;
  }

  /** A chunk of which no byte went out is tried again, unless its record had already been
      accepted or the Send was cancelled. */
  lemma ZeroBytesAreRetried(c: Config, now: int, steps: seq<Step>) returns (more: seq<Step>)
    requires CanRun(c, Init(now), steps) && c.sendDelay >= 0
    requires var s := Run(c, Init(now), steps);
             && s.pc.CallFailed? && s.pc.zero && !s.cancelled
             && s.t.waiters != [] && s.Cur().terminal != Kind.Accepted
    ensures CanRun(c, Init(now), more)
    ensures var s := Run(c, Init(now), steps);
            && |s.subs| == |s.t.waiters|
            && TriedAgainAt(s, Run(c, Init(now), more),
                 if s.pc.notBefore.Some? then Max(s.now, s.pc.notBefore.value) else s.now)
  {
    hide CanRun, Run;
    var s := Run(c, Init(now), steps);
    ReachesSpaced(c, now, steps);
    ReachableAtHand(c, now, steps);
    FailedState(c, s);
    more := FailsWithoutBytes(c, Init(now), steps);
    more := LeavesTop(c, Init(now), more,
                      if s.pc.notBefore.Some? then Max(s.now, s.pc.notBefore.value) else s.now);
  }
}
