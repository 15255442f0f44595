/** What becomes of a whole message: the plan of the chunker, carried out by the protocol. */
module Delivery {
  import opened Options
  import opened Tokens
  import opened Chunker
  import opened Reassembly
  import opened Sending
  import opened Acceptance
  import opened Protocol
  import opened Soundness
  import opened Retries

  // ----- the chunks submitted by one Send

  /** The Send under way submits its chunks only, none beyond the first that is not accepted. */
  ghost predicate OwnChunks(s: Sys) {
    forall i :: 0 <= i < |s.subs| && s.subs[i].send == s.send ==>
      s.subs[i].chunk <= |s.ids| && s.subs[i].chunk < s.chunks
  }

  lemma KeepsWhileMoving(c: Config, s: Sys, a: Step)
    requires Enabled(c, s, a) && (a.StartSend? || GoesBack(a))
    ensures var s' := Do(c, s, a);
            && s'.subs == s.subs && s'.ids == (if a.StartSend? then [] else s.ids)
            && s'.send == (if a.StartSend? then s.send + 1 else s.send)
  {
    hide DutyDeadline, Disarmed;
  }

  lemma KeepsSubmissions(c: Config, s: Sys, a: Step)
    requires Inv(c, s) && Books(s) && Enabled(c, s, a) && !a.Enter?
    ensures var s' := Do(c, s, a);
            && |s'.subs| == |s.subs| && |s'.ids| >= (if a.StartSend? then 0 else |s.ids|)
            && s'.send == (if a.StartSend? then s.send + 1 else s.send)
            && forall i :: 0 <= i < |s.subs| ==> SameJob(s.subs[i], s'.subs[i])
  {
    hide Inv, Do, Enabled, Ordered, SafeRetries, Preceded, Reported, NoneForgotten, WithinChunks;
    if a.Commit? || a.CommitFailed? {
      Commits(c, s, a);
    } else if a.StartSend? || GoesBack(a) {
      KeepsWhileMoving(c, s, a);
    } else {
      RoutineJobs(c, s, a);
    }
  }

  lemma ChunksFixed(c: Config, s: Sys, a: Step)
    requires Enabled(c, s, a) && !a.StartSend?
    ensures Do(c, s, a).chunks == s.chunks
  {
    hide DutyDeadline, Stamp, OnStatus, OnPacket, OnNotice, OnFail, OnFinish, OnRemove, OnQuiet, OnRegister, Disarmed;
  }

  lemma Entering(c: Config, s: Sys, dest: nat)
    requires Enabled(c, s, Enter(dest))
    ensures Trying(s.pc)
  {
  }

  lemma StepOwnChunks(c: Config, s: Sys, a: Step)
    requires Inv(c, s) && Books(s) && Enabled(c, s, a) && OwnChunks(s)
    ensures OwnChunks(Do(c, s, a))
  {
    hide Inv, Do, Enabled, Ordered, SafeRetries, Preceded, Reported, NoneForgotten;
    if a.Enter? {
      Entered(c, s, a.destination);
      ChunksFixed(c, s, a);
      Entering(c, s, a.destination);
    } else {
      KeepsSubmissions(c, s, a);
      if !a.StartSend? {
        ChunksFixed(c, s, a);
      }
    }
  }

  lemma {:induction false} RunOwnChunks(c: Config, s: Sys, steps: seq<Step>)
    requires Inv(c, s) && Books(s) && OwnChunks(s) && CanRun(c, s, steps)
    ensures OwnChunks(Run(c, s, steps))
    decreases |steps|
  {
    hide Inv, Books, OwnChunks;
    if steps != [] {
      StepKeeps(c, s, steps[0]);
      StepKeepsBooks(c, s, steps[0]);
      StepOwnChunks(c, s, steps[0]);
      RunOwnChunks(c, Do(c, s, steps[0]), steps[1..]);
    }
  }

  // ----- the submissions that were accepted

  /** Among the first `m` submissions, those of this Send that were accepted, in order. */
  function Delivered(subs: seq<Submission>, send: nat, m: nat): (d: seq<nat>)
    requires m <= |subs|
    ensures forall k :: 0 <= k < |d| ==> d[k] < m
  {
    if m == 0 then []
    else
      var before := Delivered(subs, send, m - 1);
      if subs[m - 1].committed && subs[m - 1].send == send then before + [m - 1] else before
  }

  lemma NotTwice(subs: seq<Submission>, ws: seq<Waiter>, i: nat, j: nat)
    requires SafeRetries(subs, ws) && i < j < |subs| && SameJob(subs[i], subs[j])
    ensures !subs[i].committed
  {
  }

  /** The accepted submissions are those of chunk 0, 1, 2, ..., one each. */
  lemma {:induction false} DeliveredInOrder(subs: seq<Submission>, ws: seq<Waiter>, send: nat, m: nat)
    requires SafeRetries(subs, ws) && Preceded(subs) && m <= |subs|
    ensures var d := Delivered(subs, send, m);
            && (forall k :: 0 <= k < |d| ==> IsCommit(subs[d[k]], send, k))
            && (forall i :: 0 <= i < m && subs[i].committed && subs[i].send == send ==> subs[i].chunk < |d|)
  {
    hide SafeRetries;
    if m > 0 {
      DeliveredInOrder(subs, ws, send, m - 1);
      var before, b := Delivered(subs, send, m - 1), subs[m - 1];
      if b.committed && b.send == send {
        if b.chunk > 0 {
          assert CommittedBefore(subs, m - 1, send, b.chunk - 1);
        }
        if b.chunk < |before| {
          NotTwice(subs, ws, before[b.chunk], m - 1);
        }
      }
    }
  }

  /** The texts of these submissions. */
  function Texts(payloads: seq<string>, subs: seq<Submission>, d: seq<nat>): (texts: seq<string>)
    requires forall k :: 0 <= k < |d| ==> d[k] < |subs| && subs[d[k]].chunk < |payloads|
    ensures |texts| == |d|
  {
    seq(|d|, k requires 0 <= k < |d| => payloads[subs[d[k]].chunk])
  }

  /** What one run says of a message in `n` payloads. */
  ghost predicate Carried(s: Sys, payloads: seq<string>, d: seq<nat>) {
    && |s.subs| == |s.t.waiters| && |d| == |s.ids| <= |payloads|
    && (forall k :: 0 <= k < |d| ==>
          && d[k] < |s.subs| && s.subs[d[k]].chunk < |payloads|
          && s.t.waiters[d[k]].id == s.ids[k] && s.t.waiters[d[k]].terminal == Kind.Accepted)
    && Texts(payloads, s.subs, d) == payloads[..|s.ids|]
    && (forall i :: 0 <= i < |s.subs| && s.subs[i].send == s.send ==>
          s.subs[i].chunk < |payloads| && s.subs[i].chunk <= |s.ids|)
  }

  lemma BooksCarry(s: Sys, payloads: seq<string>)
    requires Books(s) && OwnChunks(s) && s.chunks == |payloads|
    ensures Carried(s, payloads, Delivered(s.subs, s.send, |s.subs|))
  {
    hide Ordered, AtHand, NoneForgotten, Preceded, SafeRetries;
    var d := Delivered(s.subs, s.send, |s.subs|);
    DeliveredInOrder(s.subs, s.t.waiters, s.send, |s.subs|);
    assert |d| < |s.ids| ==> CommittedBefore(s.subs, |s.subs|, s.send, |d|);
    assert d != [] ==> IsCommit(s.subs[d[|d| - 1]], s.send, |d| - 1);
    forall k | 0 <= k < |d|
      ensures s.subs[d[k]].chunk == k && s.t.waiters[d[k]].id == s.ids[k]
    {
      assert IsCommit(s.subs[d[k]], s.send, k);
    }
  }

  lemma IdsWithin(s: Sys)
    requires Books(s)
    ensures |s.ids| <= s.chunks
  {
  }

  lemma ReachesOwnChunks(c: Config, now: int, steps: seq<Step>)
    requires CanRun(c, Init(now), steps)
    ensures Books(Run(c, Init(now), steps)) && OwnChunks(Run(c, Init(now), steps))
    ensures |Run(c, Init(now), steps).ids| <= Run(c, Init(now), steps).chunks
  {
    hide Inv, Books;
    InitInv(c, now);
    InitBooks(now);
    RunKeepsBooks(c, Init(now), steps);
    RunOwnChunks(c, Init(now), steps);
    IdsWithin(Run(c, Init(now), steps));
  }

  /** From the text to the radio: in every run in which a Send works on a plan of `n` chunks,
      the texts that were accepted are the first payloads of the plan, each once, in order, and
      the ids are theirs; chunks that were submitted go at most one further.  Once as many ids
      are there as chunks, stripping and rejoining the accepted texts gives the whole message. */
  lemma MessageDelivered(c: Config, now: int, steps: seq<Step>, p: Plan, n: nat)
    requires CanRun(c, Init(now), steps) && p.Takes(n) && Run(c, Init(now), steps).chunks == n
    ensures var s := Run(c, Init(now), steps);
            var d := Delivered(s.subs, s.send, |s.subs|);
            && Carried(s, p.Payloads(n), d)
            && (|s.ids| == n ==>
                  (var texts := Texts(p.Payloads(n), s.subs, d);
                   && (forall k :: 0 <= k < n ==> SaysItIs(texts[k], k + 1, p.total))
                   && Rejoined(Stripped(texts, p.total), Gaps(p, n)) == Normalized(p.text)))
  {
    hide Books, Plan.Takes, Run, CanRun, Normalized;
    var s := Run(c, Init(now), steps);
    ReachesOwnChunks(c, now, steps);
    BooksCarry(s, p.Payloads(n));
    ChunksRejoin(p, n);
    assert p.Payloads(n)[..n] == p.Payloads(n);
  }

  // ----- the same, seen from Send

  /** The id under which chunk `k` of a Send was accepted, among the first `m` submissions. */
  function AcceptedAs(subs: seq<Submission>, ws: seq<Waiter>, send: nat, k: nat, m: nat): Option<nat>
    requires m <= |subs| == |ws|
  {
    if m == 0 then None
    else if subs[m - 1].send == send && subs[m - 1].chunk == k && ws[m - 1].terminal == Kind.Accepted
    then Some(ws[m - 1].id)
    else AcceptedAs(subs, ws, send, k, m - 1)
  }

  /** What the submissions of a run say of the payloads handed to `sendPhysical`: the last of
      them was accepted under some id, or it was not. */
  function Answers(s: Sys): seq<string> -> Option<nat>
    requires |s.subs| == |s.t.waiters|
  {
    (sent: seq<string>) =>
      if sent == [] then None else AcceptedAs(s.subs, s.t.waiters, s.send, |sent| - 1, |s.subs|)
  }

  lemma {:induction false} AcceptedAsFinds(subs: seq<Submission>, ws: seq<Waiter>, send: nat, k: nat, m: nat)
      returns (i: nat)
    requires m <= |subs| == |ws|
    ensures AcceptedAs(subs, ws, send, k, m).Some? ==>
      && i < m && subs[i].send == send && subs[i].chunk == k && ws[i].terminal == Kind.Accepted
      && AcceptedAs(subs, ws, send, k, m) == Some(ws[i].id)
    ensures AcceptedAs(subs, ws, send, k, m).None? ==>
      forall j :: 0 <= j < m && subs[j].send == send && subs[j].chunk == k ==> ws[j].terminal != Kind.Accepted
  {
    i := 0;
    if m > 0 {
      if subs[m - 1].send == send && subs[m - 1].chunk == k && ws[m - 1].terminal == Kind.Accepted {
        i := m - 1;
      } else {
        i := AcceptedAsFinds(subs, ws, send, k, m - 1);
      }
    }
  }

  /** When a Send is over, its result names the chunks that were accepted, and no others were. */
  lemma AcceptedIsReported(s: Sys, k: nat)
    requires Books(s) && s.pc.Idle?
    ensures |s.subs| == |s.t.waiters|
    ensures AcceptedAs(s.subs, s.t.waiters, s.send, k, |s.subs|) == if k < |s.ids| then Some(s.ids[k]) else None
  {
    hide Ordered, AtHand, Preceded, SafeRetries, WithinChunks;
    var i := AcceptedAsFinds(s.subs, s.t.waiters, s.send, k, |s.subs|);
    if k < |s.ids| {
      assert CommittedBefore(s.subs, |s.subs|, s.send, k);
    }
  }

  lemma AnswersDecide(p: Plan, n: nat, known: seq<nat>, submit: seq<string> -> Option<nat>,
                      ids: seq<nat>, failed: bool, offered: seq<string>)
    requires |known| <= n && Answered(p, n, submit, ids, failed, offered)
    requires forall sent :: submit(sent) == if 0 < |sent| <= |known| then Some(known[|sent| - 1]) else None
    ensures ids == known && (failed <==> |known| < n)
    ensures |offered| == if failed then |known| + 1 else n
  {
    hide Plan.Payloads;
    assert ids != [] ==> submit(offered[..|ids| - 1 + 1]) == Some(ids[|ids| - 1]);
    forall k | 0 <= k < |ids|
      ensures ids[k] == known[k]
    {
      assert submit(offered[..k + 1]) == Some(ids[k]);
    }
  }

  /** `Sending.Send` stands for the protocol: when a Send of `n` chunks is over, then with what
      its submissions met with for answers, it returns the ids of the run, it fails exactly
      when the run left a chunk unaccepted, and it offers every chunk that was submitted. */
  lemma SendAgrees(c: Config, now: int, steps: seq<Step>, p: Plan, n: nat,
                   ids: seq<nat>, failed: bool, offered: seq<string>)
    requires CanRun(c, Init(now), steps)
    requires var s := Run(c, Init(now), steps);
             && s.pc.Idle? && s.chunks == n && |s.subs| == |s.t.waiters|
             && Answered(p, n, Answers(s), ids, failed, offered)
    ensures var s := Run(c, Init(now), steps);
            && ids == s.ids && (failed <==> |s.ids| < n)
            && forall i :: 0 <= i < |s.subs| && s.subs[i].send == s.send ==> s.subs[i].chunk < |offered|
  {
    hide Run, CanRun, Books, Answered, AcceptedAs;
    var s := Run(c, Init(now), steps);
    ReachesOwnChunks(c, now, steps);
    forall sent: seq<string>
      ensures Answers(s)(sent) == if 0 < |sent| <= |s.ids| then Some(s.ids[|sent| - 1]) else None
    {
      if sent != [] {
        AcceptedIsReported(s, |sent| - 1);
      }
    }
    AnswersDecide(p, n, s.ids, Answers(s), ids, failed, offered);
  }
}
