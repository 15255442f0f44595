/** Packet ids of retries: what the radio says about an earlier try names another packet. */
module FreshIds {
  import opened Acceptance
  import opened Protocol
  import opened Soundness
  import opened Retries
  import opened PacingRules

  /** The id that the next try of the chunk has to differ from. */
  function Previous(pc: PC): nat
    requires Trying(pc)
  {
    match pc
    case Top(prev, _) => prev
    case AwaitReady(prev, _) => prev
    case Pacing(prev, _, _) => prev
    case PickID(prev, _, _) => prev
    case Register(prev, _, _, _) => prev
  }

  predicate AtHandAgain(s: Sys) {
    |s.subs| > 0 && s.subs[|s.subs| - 1].send == s.send && s.subs[|s.subs| - 1].chunk == |s.ids|
  }

  ghost predicate Fresh(s: Sys) {
    && |s.subs| == |s.t.waiters|
    && (forall i | 0 < i < |s.subs| :: SameJob(s.subs[i - 1], s.subs[i]) ==>
          s.t.waiters[i - 1].id != s.t.waiters[i].id)
    && (Trying(s.pc) && AtHandAgain(s) ==> Previous(s.pc) == s.Cur().id)
    && (s.pc.Register? ==> s.pc.id != s.pc.prev)
  }

  // ----- ids stay

  predicate SameIds(s: Sys, s': Sys) {
    && |s'.subs| == |s.subs| == |s.t.waiters| == |s'.t.waiters|
    && forall i :: 0 <= i < |s.subs| ==>
         SameJob(s.subs[i], s'.subs[i]) && s'.t.waiters[i].id == s.t.waiters[i].id
  }

  lemma StartsClean(c: Config, s: Sys, chunks: nat)
    requires Enabled(c, s, StartSend(chunks))
    ensures Do(c, s, StartSend(chunks)).subs == s.subs && Do(c, s, StartSend(chunks)).t == s.t
    ensures Do(c, s, StartSend(chunks)).pc.Between?
  {
  }

  lemma IdsStay(c: Config, s: Sys, a: Step)
    requires Inv(c, s) && Books(s) && Enabled(c, s, a) && !a.Enter?
    ensures SameIds(s, Do(c, s, a))
  {
    hide Inv, Do, Enabled, Ordered, SafeRetries, Preceded, Reported, NoneForgotten, WithinChunks;
    if a.Commit? || a.CommitFailed? {
      Commits(c, s, a);
    } else if a.StartSend? {
      StartsClean(c, s, a.chunks);
    } else if GoesBack(a) {
      GoingBackJobs(c, s, a);
    } else {
      RoutineJobs(c, s, a);
    }
  }

  // ----- what is remembered

  lemma OutsideSteps(c: Config, s: Sys, a: Step)
    requires Inv(c, s) && Enabled(c, s, a) && (ByTheWorld(a) || Hears(a))
    ensures Do(c, s, a).pc == s.pc && Do(c, s, a).send == s.send && Do(c, s, a).ids == s.ids
  {
    hide Inv, Stamp, OnStatus, OnPacket, OnNotice, OnFail;
  }

  /** How the sender gets to where it tries a chunk, and what it then remembers. */
  lemma Remembering(c: Config, s: Sys, a: Step)
    requires Enabled(c, s, a) && !AddsOrCommits(a) && !ByTheWorld(a) && !Hears(a) && Trying(Do(c, s, a).pc)
    ensures var s' := Do(c, s, a);
            && s'.send == s.send && s'.ids == s.ids
            && (s'.pc.Register? ==> s'.pc.id != s'.pc.prev)
            && (GoesBack(a) ==> s.t.waiters != [] && Previous(s'.pc) == s.Cur().id)
            && (!GoesBack(a) ==> s.pc.Between? || (Trying(s.pc) && Previous(s'.pc) == Previous(s.pc)))
  {
    hide DutyDeadline, OnStatus, OnPacket, OnNotice, OnFail, OnQuiet, OnFinish, OnRemove, OnRegister, Stamp,
      Disarmed, Looking, Table.Linked;
  }

  lemma KeptFresh(c: Config, s: Sys, a: Step)
    requires Inv(c, s) && Books(s) && Enabled(c, s, a) && !AddsOrCommits(a) && Fresh(s)
    ensures Fresh(Do(c, s, a))
  {
    hide Inv, Do, Enabled, Ordered, SafeRetries, Preceded, Reported, NoneForgotten, WithinChunks;
    var s' := Do(c, s, a);
    IdsStay(c, s, a);
    if ByTheWorld(a) || Hears(a) {
      OutsideSteps(c, s, a);
    } else if Trying(s'.pc) {
      Remembering(c, s, a);
    }
  }

  lemma CommitFresh(c: Config, s: Sys, a: Step)
    requires Inv(c, s) && Books(s) && Enabled(c, s, a) && (a.Commit? || a.CommitFailed?) && Fresh(s)
    ensures Fresh(Do(c, s, a))
  {
    hide Inv, Do, Enabled, Ordered, SafeRetries, Preceded, Reported, NoneForgotten, WithinChunks;
    IdsStay(c, s, a);
    Commits(c, s, a);
  }

  lemma EnterFresh(c: Config, s: Sys, dest: nat)
    requires Inv(c, s) && Books(s) && Enabled(c, s, Enter(dest)) && Fresh(s)
    ensures Fresh(Do(c, s, Enter(dest)))
  {
    hide Inv, Do, Books;
    Entered(c, s, dest);
    assert s.pc.Register?;
  }

  lemma StepFresh(c: Config, s: Sys, a: Step)
    requires Inv(c, s) && Books(s) && Enabled(c, s, a) && Fresh(s)
    ensures Fresh(Do(c, s, a))
  {
    hide Inv, Books, Do, Enabled, Fresh;
    if a.Enter? {
      EnterFresh(c, s, a.destination);
    } else if a.Commit? || a.CommitFailed? {
      CommitFresh(c, s, a);
    } else {
      KeptFresh(c, s, a);
    }
  }

  lemma {:induction false} RunFresh(c: Config, s: Sys, steps: seq<Step>)
    requires Inv(c, s) && Books(s) && Fresh(s) && CanRun(c, s, steps)
    ensures Fresh(Run(c, s, steps))
    decreases |steps|
  {
    hide Inv, Books, Fresh;
    if steps != [] {
      StepKeeps(c, s, steps[0]);
      StepKeepsBooks(c, s, steps[0]);
      StepFresh(c, s, steps[0]);
      RunFresh(c, Do(c, s, steps[0]), steps[1..]);
    }
  }

  /** In every run, a chunk that is tried again goes out under another packet id than the time
      before, so feedback on the earlier try cannot be taken for feedback on the later one. */
  lemma RetriesHaveNewIds(c: Config, now: int, steps: seq<Step>, i: nat)
    requires CanRun(c, Init(now), steps)
    ensures var s := Run(c, Init(now), steps);
            0 < i < |s.subs| && SameJob(s.subs[i - 1], s.subs[i]) ==>
              |s.t.waiters| == |s.subs| && s.t.waiters[i - 1].id != s.t.waiters[i].id
  {
    hide Inv, Books;
    InitInv(c, now);
    InitBooks(now);
    RunFresh(c, Init(now), steps);
  }
}
