/** `Send`: planning the chunks of a message and handing them out one by one. */
module Sending {
  import opened Text
  import opened Tokens
  import opened Options
  import opened Packing
  import opened Chunker
  import opened Scan
  import opened Numbering
  import opened Reassembly

  // ----- the scans agree

  lemma {:induction false} PayloadsPrefix(p: Plan, m: nat, n: nat)
    requires m <= n
    ensures p.Payloads(n)[..m] == p.Payloads(m)
  {
    if m < n {
      PayloadsPrefix(p, m, n - 1);
      assert p.Payloads(n)[..m] == p.Payloads(n - 1)[..m];
    }
  }

  /** Stopping after `max` chunks gives the first `max` chunks of the unlimited run. */
  lemma EarlyExitRefines(p: Plan, max: nat, emit: Emit, count: nat, sent: seq<string>, n: nat)
    requires Outcome(p, max, emit, count, None, sent) && p.Takes(n)
    ensures count == Min(n, max + 1)
    ensures emit.Each? ==> sent == p.Payloads(n)[..Min(n, max)]
  {
    if count <= max {
      TakesOnce(p, count, n);
    } else {
      if n <= max {
        EndIsFinal(p.Toks(), p.Lim(), n, max);
      }
      PayloadsPrefix(p, max, n);
    }
  }

  lemma AllOut(p: Plan, emit: Emit, count: nat, sent: seq<string>, n: nat)
    requires count == Min(n, MAX_TEXT_CHUNKS + 1) && n <= MAX_TEXT_CHUNKS && emit.Each?
    requires sent == p.Payloads(n)[..Min(n, MAX_TEXT_CHUNKS)]
    requires Outcome(p, MAX_TEXT_CHUNKS, emit, count, None, sent)
    ensures count == n && sent == p.Payloads(n) && AllAccepted(emit, sent)
  {
    hide Plan.Takes, Plan.At, Plan.Payloads, TokensOf, AllAccepted;
  }

  lemma OnlyRefused(p: Plan, emit: Emit, count: nat, err: Option<ScanError>, sent: seq<string>, n: nat)
    requires p.total < 10 && p.soft > 0 && p.Takes(n) && n <= MAX_TEXT_CHUNKS && emit.Each?
    requires Outcome(p, MAX_TEXT_CHUNKS, emit, count, err, sent) && err.Some?
    ensures 0 < |sent| <= n && sent == p.Payloads(|sent|)
    ensures AllAccepted(emit, sent[..|sent| - 1]) && !emit.accepts(sent)
  {
    hide AllAccepted, Plan.Payloads, TokensOf, PosAt;
    if err == Some(NoRoomForRune) {
      PrefixLeavesRoom(p, count);
      assert false;
    } else if n < count {
      EndIsFinal(p.Toks(), p.Lim(), n, count - 1);
    }
  }

  /** A scan with a fitting total cannot fail, except because the client refuses. */
  lemma EmittingScan(p: Plan, emit: Emit, count: nat, err: Option<ScanError>, sent: seq<string>, n: nat)
    requires p.total < 10 && p.soft > 0 && p.Takes(n) && n <= MAX_TEXT_CHUNKS && emit.Each?
    requires Outcome(p, MAX_TEXT_CHUNKS, emit, count, err, sent)
    ensures err.None? ==> count == n && sent == p.Payloads(n) && AllAccepted(emit, sent)
    ensures err.Some? ==>
      && 0 < |sent| <= n && sent == p.Payloads(|sent|)
      && AllAccepted(emit, sent[..|sent| - 1]) && !emit.accepts(sent)
  {
    if err.None? {
      hide Plan.Takes, Plan.At, Plan.Payloads, TokensOf;
      EarlyExitRefines(p, MAX_TEXT_CHUNKS, emit, count, sent, n);
      AllOut(p, emit, count, sent, n);
    } else {
      OnlyRefused(p, emit, count, err, sent, n);
    }
  }

  // ----- the oversize notice

  const NOTICE_WORDS: seq<string> := ["The", "response", "ended", "up", "being", "too", "long."]

  lemma NoticeWordsClean()
    ensures Clean(NOTICE_WORDS)
  {
  }

  lemma AddWord(ts: seq<string>, t: string, joined: string)
    requires ts != [] && joined == Join(ts) + " " + t
    ensures Join(ts + [t]) == joined
  {
    JoinSnoc(ts, t);
  }

  lemma NoticeJoin()
    ensures Join(NOTICE_WORDS) == OVERSIZED_NOTICE
  {
    var w := NOTICE_WORDS;
    AddWord(w[..1], w[1], "The response");
    assert w[..1] + [w[1]] == w[..2];
    AddWord(w[..2], w[2], "The response ended");
    assert w[..2] + [w[2]] == w[..3];
    AddWord(w[..3], w[3], "The response ended up");
    assert w[..3] + [w[3]] == w[..4];
    AddWord(w[..4], w[4], "The response ended up being");
    assert w[..4] + [w[4]] == w[..5];
    AddWord(w[..5], w[5], "The response ended up being too");
    assert w[..5] + [w[5]] == w[..6];
    AddWord(w[..6], w[6], "The response ended up being too long.");
    assert w[..6] + [w[6]] == w;
  }

  lemma NoticeTokens()
    ensures TokensOf(OVERSIZED_NOTICE) == NOTICE_WORDS
    ensures ByteLen(OVERSIZED_NOTICE) == 37
  {
    hide ByteLen, TokensOf;
    NoticeWordsClean();
    NoticeJoin();
    TokensOfJoin(NOTICE_WORDS);
    AsciiByteLen(OVERSIZED_NOTICE);
  }

  /** Tokens that all fit a frame never take more chunks than there are tokens. */
  lemma AtMostOnePerToken(p: Plan) returns (n: nat)
    requires forall i :: 0 <= i < |p.Toks()| ==> ByteLen(p.Toks()[i]) <= p.Lim().Phys(i + 1)
    ensures p.Takes(n) && n <= |p.Toks()|
  {
    var toks := p.Toks();
    var cuts := seq(|toks| + 1, k requires 0 <= k => Pos(k, 0));
    forall k | 0 < k < |cuts|
      ensures Legal(toks, cuts[k - 1], cuts[k], p.Lim().Soft(k), p.Lim().Phys(k))
    {
      WholeTokens(toks, k - 1, k);
      JoinedOne(toks, k - 1);
    }
    LimitsGrow(p.soft, p.total, p.replyId, p.direct);
    n := GreedyIsOptimal(toks, p.Lim(), p.Lim(), cuts);
  }

  /** Several tokens take one chunk exactly when the normalised text is within both limits. */
  lemma OneChunkIff(p: Plan)
    requires |p.Toks()| > 1
    ensures p.Takes(1) <==> ByteLen(Normalized(p.text)) <= Min(p.Soft(1), p.Phys(1))
  {
    var toks := p.Toks();
    WholeTokens(toks, 0, |toks|);
    assert toks[0..|toks|] == toks;
    LimitsGrow(p.soft, p.total, p.replyId, p.direct);
    if p.Takes(1) {
      assert PosAt(toks, p.Lim(), 0) == START;
      NextIsLegal(toks, START, p.Lim().Soft(1), p.Lim().Phys(1));
    } else if ByteLen(Normalized(p.text)) <= Min(p.Soft(1), p.Phys(1)) {
      var n := GreedyIsOptimal(toks, p.Lim(), p.Lim(), [START, End(toks)]);
      TakesNothing(p, n);
    }
  }

  lemma NoticeShape(p: Plan)
    requires p.text == OVERSIZED_NOTICE
    ensures |p.Toks()| == 7 && TokensOf(p.text) != [] && ByteLen(Normalized(p.text)) == 37
    ensures forall i :: 0 <= i < 7 ==> ByteLen(p.Toks()[i]) <= 8
  {
    hide ByteLen, TokensOf;
    NoticeTokens();
    NoticeJoin();
    forall i | 0 <= i < 7
      ensures ByteLen(NOTICE_WORDS[i]) <= 8
    {
      AsciiByteLen(NOTICE_WORDS[i]);
    }
  }

  /** The notice takes one packet exactly when the soft target is at least its 37 bytes, and
      never more than seven. */
  lemma NoticeChunks(p: Plan) returns (n: nat)
    requires p.text == OVERSIZED_NOTICE && p.total == 1
    ensures p.Takes(n) && 1 <= n <= 7
    ensures n == 1 <==> p.soft >= 37
  {
    hide ByteLen, Normalized, Plan.Takes, TokensOf, Plan.Toks;
    NoticeShape(p);
    n := AtMostOnePerToken(p);
    TakesNothing(p, n);
    OneChunkIff(p);
    if p.Takes(1) {
      TakesOnce(p, 1, n);
    }
  }

  // ----- Send

  /** Some numbering within the limit gives as many chunks as it names. */
  ghost predicate Numberable(text: string, soft: int, replyId: nat, direct: bool) {
    exists n | 1 <= n <= 8 :: Consistent(text, soft, replyId, direct, n)
  }

  /** What is sent for a message: the message under its least consistent numbering, or else
      the notice, unnumbered. */
  ghost predicate Chosen(text: string, soft: int, replyId: nat, direct: bool, p: Plan) {
    && p.soft == soft && p.replyId == replyId && p.direct == direct
    && if Numberable(text, soft, replyId, direct) then
         p.text == text && 1 <= p.total <= MAX_TEXT_CHUNKS && p.Takes(p.total)
         && forall n | 1 <= n < p.total :: !Consistent(text, soft, replyId, direct, n)
       else p.text == OVERSIZED_NOTICE && p.total == 1
  }

  /** The plan that `Send` scans with, from what `chunkCount` reports. */
  lemma PlanChosen(text: string, soft: int, replyId: nat, direct: bool,
                   total: nat, oversized: bool, p: Plan) returns (n: nat)
    requires soft > 0 && TokensOf(text) != []
    requires Decided(text, soft, replyId, direct, total, total, oversized)
    requires p == Plan(if oversized then OVERSIZED_NOTICE else text, soft, total, replyId, direct)
    ensures Chosen(text, soft, replyId, direct, p)
    ensures p.Takes(n) && n <= MAX_TEXT_CHUNKS && p.total < 10
    ensures n == p.total || !Numberable(text, soft, replyId, direct)
  {
    hide Plan.Takes, TokensOf, OVERSIZED_NOTICE;
    if oversized {
      n := NoticeChunks(p);
    } else {
      n := total;
    }
  }

  /** Payloads are offered in order until one fails or all `n` are out; the ids are those of
      the accepted ones. */
  ghost predicate Answered(p: Plan, n: nat, submit: seq<string> -> Option<nat>,
                           ids: seq<nat>, failed: bool, offered: seq<string>) {
    && |offered| <= n && offered == p.Payloads(|offered|)
    && (!failed ==> |ids| == |offered| == n)
    && (failed ==> |ids| == |offered| - 1 && submit(offered).None?)
    && forall k :: 0 <= k < |ids| ==> submit(offered[..k + 1]) == Some(ids[k])
  }

  lemma AcceptedHaveIds(emit: Emit, submit: seq<string> -> Option<nat>, sent: seq<string>, m: nat)
    requires m <= |sent| && AllAccepted(emit, sent[..m])
    requires emit.Each? && forall ps :: emit.accepts(ps) <==> submit(ps).Some?
    ensures forall k :: 0 < k <= m ==> submit(sent[..k]).Some?
  {
    forall k | 0 < k <= m
      ensures submit(sent[..k]).Some?
    {
      assert sent[..m][..k] == sent[..k];
    }
  }

  /** The ids of the payloads that were accepted. */
  method IdsOf(ghost p: Plan, ghost n: nat, ghost emit: Emit, submit: seq<string> -> Option<nat>,
               sent: seq<string>, failed: bool)
      returns (ids: seq<nat>)
    requires emit.Each? && forall ps :: emit.accepts(ps) <==> submit(ps).Some?
    requires |sent| <= n && sent == p.Payloads(|sent|)
    requires !failed ==> |sent| == n && AllAccepted(emit, sent)
    requires failed ==> 0 < |sent| && AllAccepted(emit, sent[..|sent| - 1]) && !emit.accepts(sent)
    ensures Answered(p, n, submit, ids, failed, sent)
  {
    hide Plan.Payloads, AllAccepted;
    var accepted := if failed then |sent| - 1 else |sent|;
    assert sent[..|sent|] == sent;
    AcceptedHaveIds(emit, submit, sent, accepted);
    ids := seq(accepted, k requires 0 <= k < accepted => submit(sent[..k + 1]).value);
  }

  /** `Send` after its checks.  `submit` says what becomes of the last payload handed to
      `sendPhysical`, given all of them: a packet id, or an error. */
  method Send(text: string, soft: int, replyId: nat, direct: bool,
              submit: seq<string> -> Option<nat>)
      returns (ids: seq<nat>, failed: bool, ghost p: Plan, ghost n: nat, ghost offered: seq<string>)
    ensures soft <= 0 ==> failed && ids == [] && offered == []
    ensures soft > 0 && TokensOf(text) == [] ==> !failed && ids == [] && offered == []
    ensures soft > 0 && TokensOf(text) != [] ==>
      && Chosen(text, soft, replyId, direct, p)
      && p.Takes(n) && n <= MAX_TEXT_CHUNKS
      && (Numberable(text, soft, replyId, direct) ==> n == p.total)
      && Answered(p, n, submit, ids, failed, offered)
      && forall k :: 0 <= k < |offered| ==>
           SaysItIs(offered[k], k + 1, p.total) && BodyOf(offered[k], k + 1, p.total) == p.ChunkText(k + 1)
  {
    hide Plan.Takes, TokensOf, Chosen, Consistent, Outcome, Plan.Payloads, Numberable, OVERSIZED_NOTICE,
      Plan.ChunkText, SaysItIs, BodyOf, AllAccepted, Answered;
    ids, failed, offered, n := [], false, [], 0;
    p := Plan(text, soft, 0, replyId, direct);
    var count, total, oversized, countErr, numbered := ChunkCount(text, soft, replyId, direct);
    if countErr.Some? {
      failed := true;
      return;
    }
    if count == 0 {
      return;
    }
    var body := text;
    if oversized {
      body, total := OVERSIZED_NOTICE, 1;
    }
    var plan := Plan(body, soft, total, replyId, direct);
    p := plan;
    n := PlanChosen(text, soft, replyId, direct, total, oversized, p);
    var emit := Each(sent => submit(sent).Some?);
    var scanned, err, sent := ScanChunks(plan, MAX_TEXT_CHUNKS, emit);
    EmittingScan(p, emit, scanned, err, sent, n);
    PayloadsStrip(p, |sent|);
    offered := sent;
    failed := err.Some?;
    ids := IdsOf(p, n, emit, submit, sent, failed);
  }
}
