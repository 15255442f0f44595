/** `scanChunks` and `chunkCount`, proved against greedy packing. */
module Scan {
  import opened Text
  import opened Tokens
  import opened Options
  import opened Packing
  import opened Chunker

  /** The `emit` callback: absent, or a client that may refuse.  A client is given by what
      it answers to the last payload, knowing all payloads so far. */
  datatype Emit = CountOnly | Each(accepts: seq<string> -> bool)

  datatype ScanError = SoftNotPositive | NoRoomForRune | EmitRefused

  // ----- the state between tokens

  /** `count` chunks are out; `cur` holds the tokens since, and token `i` comes next. */
  ghost predicate Filling(p: Plan, count: nat, i: nat, cur: string) {
    && i <= |p.Toks()|
    && if cur == "" then p.At(count) == Pos(i, 0)
       else
         var s, cap := p.At(count), Min(p.Soft(count + 1), p.Phys(count + 1));
         && s.off == 0 && s.tok < i
         && cur == Join(p.Toks()[s.tok..i])
         && ByteLen(cur) <= cap
         && p.At(count + 1) == Pos(PackEnd(p.Toks(), i, ByteLen(cur), cap), 0)
  }

  function Candidate(cur: string, tok: string): string {
    if cur != "" then cur + " " + tok else tok
  }

  lemma CandidateBytes(cur: string, tok: string)
    requires cur != ""
    ensures ByteLen(Candidate(cur, tok)) == ByteLen(cur) + 1 + ByteLen(tok)
  {
    ByteLenConcat(cur + " ", tok);
    ByteLenConcat(cur, " ");
  }

  lemma StartChunk(p: Plan, count: nat, i: nat)
    requires p.At(count) == Pos(i, 0) && i < |p.Toks()|
    requires ByteLen(p.Toks()[i]) <= Min(p.Soft(count + 1), p.Phys(count + 1))
    ensures Filling(p, count, i + 1, p.Toks()[i])
  {
    JoinedOne(p.Toks(), i);
  }

  lemma JoinChunk(p: Plan, count: nat, i: nat, cur: string)
    requires Filling(p, count, i, cur) && cur != "" && i < |p.Toks()|
    requires ByteLen(Candidate(cur, p.Toks()[i])) <= Min(p.Soft(count + 1), p.Phys(count + 1))
    ensures Filling(p, count, i + 1, Candidate(cur, p.Toks()[i]))
  {
    hide ByteLen, PosAt, Next, Join, TokensOf;
    var toks, s := p.Toks(), p.At(count);
    CandidateBytes(cur, toks[i]);
    assert toks[s.tok..i + 1] == toks[s.tok..i] + [toks[i]];
    JoinSnoc(toks[s.tok..i], toks[i]);
  }

  lemma Flush(p: Plan, count: nat, i: nat, cur: string)
    requires Filling(p, count, i, cur) && cur != ""
    requires i < |p.Toks()| ==>
      ByteLen(Candidate(cur, p.Toks()[i])) > Min(p.Soft(count + 1), p.Phys(count + 1))
    ensures p.At(count + 1) == Pos(i, 0) && p.At(count) != End(p.Toks())
    ensures p.ChunkText(count + 1) == cur
  {
    var toks := p.Toks();
    if i < |toks| {
      CandidateBytes(cur, toks[i]);
    }
    WholeTokens(toks, p.At(count).tok, i);
  }

  lemma Lone(p: Plan, count: nat, i: nat)
    requires p.At(count) == Pos(i, 0) && i < |p.Toks()|
    requires p.Soft(count + 1) < ByteLen(p.Toks()[i]) <= p.Phys(count + 1)
    ensures p.At(count + 1) == Pos(i + 1, 0)
    ensures p.ChunkText(count + 1) == p.Toks()[i]
  {
    WholeTokens(p.Toks(), i, i + 1);
  }

  /** The next chunk is the longest piece of a token that fits. */
  lemma Fragment(p: Plan, count: nat, i: nat, o: nat)
    requires p.At(count) == Pos(i, o) && i < |p.Toks()|
    requires o > 0 || ByteLen(p.Toks()[i]) > p.Phys(count + 1)
    ensures o < |p.Toks()[i]|
    ensures p.At(count + 1) == After(p.Toks(), i, FragEnd(p.Toks()[i], o, p.Phys(count + 1)))
    ensures o < FragEnd(p.Toks()[i], o, p.Phys(count + 1)) ==>
      p.ChunkText(count + 1) == p.Toks()[i][o..FragEnd(p.Toks()[i], o, p.Phys(count + 1))]
  {
    var t := p.Toks()[i];
    var e := FragEnd(t, o, p.Phys(count + 1));
    if o < e {
      FragmentBody(p.Toks(), i, o, e);
    }
  }

  lemma {:induction false} FragEndShift(t: string, o: nat, cap: int, k: nat)
    requires k <= o <= |t|
    ensures FragEnd(t, o, cap) == k + FragEnd(t[k..], o - k, cap)
    decreases |t| - o
  {
    if o < |t| && RuneLen(t[o]) <= cap {
      assert t[k..][o - k] == t[o];
      FragEndShift(t, o + 1, cap - RuneLen(t[o]), k);
    }
  }

  // ----- the scan

  /** What the client has been handed after `n` chunks. */
  function Handed(p: Plan, emit: Emit, n: nat): seq<string> {
    if emit.Each? then p.Payloads(n) else []
  }

  ghost predicate AllAccepted(emit: Emit, sent: seq<string>) {
    emit.Each? ==> forall m :: 0 < m <= |sent| ==> emit.accepts(sent[..m])
  }

  lemma AcceptedMore(emit: Emit, sent: seq<string>, payload: string)
    requires emit.Each? && AllAccepted(emit, sent) && emit.accepts(sent + [payload])
    ensures AllAccepted(emit, sent + [payload])
  {
    forall m | 0 < m <= |sent| + 1
      ensures emit.accepts((sent + [payload])[..m])
    {
      if m <= |sent| {
        assert (sent + [payload])[..m] == sent[..m];
      } else {
        assert (sent + [payload])[..m] == sent + [payload];
      }
    }
  }

  /** The longest prefix of `tok`, in characters, that fits a frame behind `prefix`. */
  method LongestFit(p: Plan, k: nat, prefix: string, tok: string) returns (best: nat)
    requires prefix == VisiblePrefix(k, p.total)
    ensures best == FragEnd(tok, 0, p.Phys(k))
  {
    best := 0;
    var end := 0;
    while end < |tok|
      invariant 0 <= best == end <= |tok|
      invariant FragEnd(tok, 0, p.Phys(k)) == FragEnd(tok, end, p.Phys(k) - ByteLen(tok[..end]))
    {
      ghost var was := end;
      end := end + 1;
      PrefixedBytes(k, p.total, tok[..end]);
      FitsIffRoom(prefix + tok[..end], p.replyId, p.direct);
      ByteLenSplit(tok, 0, was, end);
      assert tok[was..end] == [tok[was]];
      assert tok[0..end] == tok[..end] && tok[0..was] == tok[..was];
      if FitsPhysical(prefix + tok[..end], p.replyId, p.direct) {
        best := end;
      } else {
        break;
      }
    }
  }

  /** What a scan reports, and what it has handed out, in terms of greedy packing. */
  ghost predicate Outcome(p: Plan, max: nat, emit: Emit,
                          count: nat, err: Option<ScanError>, sent: seq<string>) {
    match err
    case None =>
      && AllAccepted(emit, sent)
      && if count <= max then p.Takes(count) && sent == Handed(p, emit, count)
         else count == max + 1 && p.At(max) != End(p.Toks()) && sent == Handed(p, emit, max)
    case Some(SoftNotPositive) => p.soft <= 0 && count == 0 && sent == []
    case Some(NoRoomForRune) =>
      && AllAccepted(emit, sent) && sent == Handed(p, emit, count)
      && count < max && p.At(count) != End(p.Toks()) && p.At(count + 1) == p.At(count)
    case Some(EmitRefused) =>
      && emit.Each? && 0 < count <= max && sent == Handed(p, emit, count)
      && p.At(count - 1) != End(p.Toks())
      && AllAccepted(emit, sent[..count - 1]) && !emit.accepts(sent)
  }

  /** Between tokens: what is out, and that the last chunk was needed. */
  ghost predicate Progress(p: Plan, max: nat, emit: Emit, count: nat, sent: seq<string>) {
    && count <= max
    && AllAccepted(emit, sent) && sent == Handed(p, emit, count)
    && (count > 0 ==> p.At(count - 1) != End(p.Toks()))
  }

  /** The chunk to hand out next is the one greedy packing finds. */
  ghost predicate IsNext(p: Plan, count: nat, cur: string) {
    p.At(count) != End(p.Toks()) && cur == p.ChunkText(count + 1)
  }

  lemma Refused(p: Plan, max: nat, emit: Emit, count: nat, sent: seq<string>, cur: string)
    requires Progress(p, max, emit, count, sent) && count < max && emit.Each?
    requires IsNext(p, count, cur)
    requires !emit.accepts(sent + [VisiblePrefix(count + 1, p.total) + cur])
    ensures Outcome(p, max, emit, count + 1, Some(EmitRefused),
                    sent + [VisiblePrefix(count + 1, p.total) + cur])
  {
    assert p.Payloads(count + 1)[..count] == sent;
  }

  lemma Accepted(p: Plan, max: nat, emit: Emit, count: nat, sent: seq<string>, cur: string)
    requires Progress(p, max, emit, count, sent) && count < max && emit.Each?
    requires IsNext(p, count, cur)
    requires emit.accepts(sent + [VisiblePrefix(count + 1, p.total) + cur])
    ensures Progress(p, max, emit, count + 1, sent + [VisiblePrefix(count + 1, p.total) + cur])
  {
    AcceptedMore(emit, sent, VisiblePrefix(count + 1, p.total) + cur);
  }

  /** `emitCur`: hand out the chunk that has been gathered, if any.  Every caller shows that
      there is room for it, so the test for a count above `max` never succeeds and has no
      branch here. */
  method EmitCur(p: Plan, max: nat, emit: Emit, count: nat, cur: string, sent: seq<string>)
      returns (count': nat, cur': string, sent': seq<string>, ok: bool)
    requires Progress(p, max, emit, count, sent)
    requires cur != "" ==> IsNext(p, count, cur) && count < max
    ensures cur == "" ==> ok && count' == count && cur' == "" && sent' == sent
    ensures cur != "" ==> count' == count + 1
    ensures cur != "" && ok ==> cur' == "" && Progress(p, max, emit, count', sent')
    ensures cur != "" && !ok ==> Outcome(p, max, emit, count', Some(EmitRefused), sent')
  {
    count', cur', sent', ok := count, cur, sent, true;
    if cur == "" {
      return;
    }
    count' := count + 1;
    if emit.Each? {
      var payload := VisiblePrefix(count', p.total) + cur;
      sent' := sent + [payload];
      if !emit.accepts(sent') {
        Refused(p, max, emit, count, sent, cur);
        ok := false;
        return;
      }
      Accepted(p, max, emit, count, sent, cur);
    }
    cur' := "";
  }

  /** Token `i` is being cut: its first `o` characters are out. */
  ghost predicate Splitting(p: Plan, count: nat, i: nat, o: nat) {
    && i < |p.Toks()| && o <= |p.Toks()[i]|
    && p.At(count) == After(p.Toks(), i, o)
    && (o < |p.Toks()[i]| ==> o > 0 || ByteLen(p.Toks()[i]) > p.Phys(count + 1))
  }

  lemma SplittingGoesOn(p: Plan, max: nat, emit: Emit, count: nat, sent: seq<string>, i: nat, o: nat)
    requires Progress(p, max, emit, count, sent)
    requires Splitting(p, count, i, o) && o < |p.Toks()[i]|
    ensures p.At(count) != End(p.Toks()) && count <= max
  {
  }

  lemma FragmentStep(p: Plan, max: nat, emit: Emit, count: nat, sent: seq<string>,
                     i: nat, o: nat, best: nat)
    requires Progress(p, max, emit, count, sent) && count < max
    requires Splitting(p, count, i, o) && o < |p.Toks()[i]|
    requires best == FragEnd(p.Toks()[i][o..], 0, p.Phys(count + 1))
    ensures best == 0 ==> Outcome(p, max, emit, count, Some(NoRoomForRune), sent)
    ensures best > 0 ==>
      && IsNext(p, count, p.Toks()[i][o..][..best])
      && Splitting(p, count + 1, i, o + best)
  {
    hide Next, Plan.ChunkText, PosAt, TokensOf;
    Fragment(p, count, i, o);
    FragEndShift(p.Toks()[i], o, p.Phys(count + 1), o);
    assert p.Toks()[i][o..][..best] == p.Toks()[i][o..o + best];
  }

  /** The fragments of a token that cannot fit a physical frame. */
  method SplitToken(p: Plan, max: nat, emit: Emit, n: nat, tok: string, given: seq<string>,
                    ghost i: nat)
      returns (count: nat, err: Option<ScanError>, over: bool, sent: seq<string>)
    requires Progress(p, max, emit, n, given)
    requires Splitting(p, n, i, 0) && tok == p.Toks()[i]
    ensures err.Some? ==> err.value != SoftNotPositive && Outcome(p, max, emit, count, err, sent)
    ensures err.None? ==> Progress(p, max, emit, count, sent)
    ensures err.None? && over ==> count == max && p.At(max) != End(p.Toks())
    ensures err.None? && !over ==> Filling(p, count, i + 1, "")
  {
    hide Plan.At, Progress, Outcome, IsNext;
    count, err, over, sent := n, None, false, given;
    var rest := tok;
    ghost var o := 0;
    while rest != ""
      invariant o <= |tok| && rest == tok[o..]
      invariant Splitting(p, count, i, o)
      invariant Progress(p, max, emit, count, sent)
      decreases |rest|
    {
      SplittingGoesOn(p, max, emit, count, sent, i, o);
      if count >= max {
        over := true;
        return;
      }
      var prefix := VisiblePrefix(count + 1, p.total);
      var best := LongestFit(p, count + 1, prefix, rest);
      FragmentStep(p, max, emit, count, sent, i, o, best);
      if best == 0 {
        err := Some(NoRoomForRune);
        return;
      }
      var cur, ok;
      count, cur, sent, ok := EmitCur(p, max, emit, count, rest[..best], sent);
      if !ok {
        err := Some(EmitRefused);
        return;
      }
      rest := rest[best..];
      o := o + best;
    }
  }

  /** The two size tests of the scan, in terms of the limits on the body alone. */
  lemma SizeTests(p: Plan, k: nat, body: string)
    requires body != ""
    ensures FitsPhysical(VisiblePrefix(k, p.total) + body, p.replyId, p.direct)
       <==> ByteLen(body) <= p.Phys(k)
    ensures ByteLen(VisiblePrefix(k, p.total)) + ByteLen(body) <= p.soft
       <==> ByteLen(body) <= p.Soft(k)
  {
    PrefixBytes(k, p.total);
    PrefixedBytes(k, p.total, body);
    FitsIffRoom(VisiblePrefix(k, p.total) + body, p.replyId, p.direct);
  }

  /** The state at the head of the token loop. */
  ghost predicate AtToken(p: Plan, max: nat, emit: Emit, count: nat, sent: seq<string>,
                          i: nat, cur: string) {
    && Progress(p, max, emit, count, sent)
    && Filling(p, count, i, cur)
    && (cur != "" ==> count < max)
  }

  lemma FirstToken(p: Plan, max: nat, emit: Emit)
    ensures AtToken(p, max, emit, 0, [], 0, "")
  {
  }

  lemma NoMoreRoom(p: Plan, max: nat, emit: Emit, count: nat, sent: seq<string>, i: nat, cur: string)
    requires AtToken(p, max, emit, count, sent, i, cur) && count >= max && i < |p.Toks()|
    ensures Outcome(p, max, emit, max + 1, None, sent)
  {
  }

  lemma TokenJoins(p: Plan, max: nat, emit: Emit, count: nat, sent: seq<string>, i: nat, cur: string)
    requires AtToken(p, max, emit, count, sent, i, cur) && count < max && i < |p.Toks()|
    requires ByteLen(Candidate(cur, p.Toks()[i])) <= Min(p.Soft(count + 1), p.Phys(count + 1))
    ensures AtToken(p, max, emit, count, sent, i + 1, Candidate(cur, p.Toks()[i]))
  {
    if cur == "" {
      StartChunk(p, count, i);
    } else {
      JoinChunk(p, count, i, cur);
    }
  }

  lemma TokenFlushes(p: Plan, max: nat, emit: Emit, count: nat, sent: seq<string>, i: nat, cur: string)
    requires AtToken(p, max, emit, count, sent, i, cur) && cur != ""
    requires i < |p.Toks()| ==>
      ByteLen(Candidate(cur, p.Toks()[i])) > Min(p.Soft(count + 1), p.Phys(count + 1))
    ensures Progress(p, max, emit, count, sent) && IsNext(p, count, cur) && count < max
    ensures Filling(p, count + 1, i, "")
  {
    Flush(p, count, i, cur);
  }

  lemma Flushable(p: Plan, max: nat, emit: Emit, count: nat, sent: seq<string>, i: nat, cur: string)
    requires AtToken(p, max, emit, count, sent, i, cur) && i == |p.Toks()|
    ensures Progress(p, max, emit, count, sent)
    ensures cur != "" ==> IsNext(p, count, cur) && count < max && Filling(p, count + 1, i, "")
    ensures cur == "" ==> Filling(p, count, i, "")
  {
    if cur != "" {
      TokenFlushes(p, max, emit, count, sent, i, cur);
    }
  }

  lemma TokenAlone(p: Plan, max: nat, emit: Emit, count: nat, sent: seq<string>, i: nat)
    requires AtToken(p, max, emit, count, sent, i, "") && i < |p.Toks()|
    requires p.Soft(count + 1) < ByteLen(p.Toks()[i]) <= p.Phys(count + 1)
    ensures Progress(p, max, emit, count, sent) && IsNext(p, count, p.Toks()[i])
    ensures Filling(p, count + 1, i + 1, "")
  {
    Lone(p, count, i);
  }

  lemma TokenSplits(p: Plan, max: nat, emit: Emit, count: nat, sent: seq<string>, i: nat)
    requires AtToken(p, max, emit, count, sent, i, "") && i < |p.Toks()|
    requires ByteLen(p.Toks()[i]) > p.Phys(count + 1)
    ensures Progress(p, max, emit, count, sent) && Splitting(p, count, i, 0)
  {
    assert p.Toks()[i] != "";
  }

  lemma NowEmpty(p: Plan, max: nat, emit: Emit, count: nat, sent: seq<string>, i: nat)
    requires Progress(p, max, emit, count, sent) && Filling(p, count, i, "")
    ensures AtToken(p, max, emit, count, sent, i, "")
  {
  }

  lemma OverMeansMore(p: Plan, max: nat, emit: Emit, count: nat, sent: seq<string>)
    requires Progress(p, max, emit, count, sent) && count == max && p.At(max) != End(p.Toks())
    ensures Outcome(p, max, emit, max + 1, None, sent)
  {
  }

  lemma AllScanned(p: Plan, max: nat, emit: Emit, count: nat, sent: seq<string>)
    requires AtToken(p, max, emit, count, sent, |p.Toks()|, "")
    ensures Outcome(p, max, emit, count, None, sent)
  {
  }

  lemma SoftRejected(p: Plan, max: nat, emit: Emit)
    requires p.soft <= 0
    ensures Outcome(p, max, emit, 0, Some(SoftNotPositive), [])
  {
  }

  /** `scanChunks`: hand out the chunks of greedy packing, `max` of them at most. */
  method ScanChunks(p: Plan, max: nat, emit: Emit)
      returns (count: nat, err: Option<ScanError>, sent: seq<string>)
    ensures Outcome(p, max, emit, count, err, sent)
    ensures err == Some(SoftNotPositive) <==> p.soft <= 0
  {
    hide Plan.At, Progress, Outcome, IsNext, Filling, AtToken, Splitting, Plan.Soft, Plan.Phys,
      FitsPhysical, VisiblePrefix, ByteLen, TokensOf, Plan.Lim;
    count, err, sent := 0, None, [];
    if p.soft <= 0 {
      SoftRejected(p, max, emit);
      err := Some(SoftNotPositive);
      return;
    }
    var s := new TokenScanner(p.text);
    var cur := "";
    ghost var i := 0;
    ghost var toks := p.Toks();
    FirstToken(p, max, emit);
    while true
      invariant s.Valid() && i <= |toks| && s.Rest() == toks[i..]
      invariant AtToken(p, max, emit, count, sent, i, cur)
      invariant err.None? && p.soft > 0
      decreases |toks| - i
    {
      var tok, ok := s.Next();
      if !ok {
        break;
      }
      assert tok == toks[i];
      if count >= max {
        NoMoreRoom(p, max, emit, count, sent, i, cur);
        count := max + 1;
        return;
      }
      var prefix := VisiblePrefix(count + 1, p.total);
      var candidate := tok;
      if cur != "" {
        candidate := cur + " " + tok;
      }
      SizeTests(p, count + 1, candidate);
      if ByteLen(prefix) + ByteLen(candidate) <= p.soft
         && FitsPhysical(prefix + candidate, p.replyId, p.direct) {
        TokenJoins(p, max, emit, count, sent, i, cur);
        cur := candidate;
        i := i + 1;
        continue;
      }
      if cur != "" {
        TokenFlushes(p, max, emit, count, sent, i, cur);
        count, cur, sent, ok := EmitCur(p, max, emit, count, cur, sent);
        if !ok {
          err := Some(EmitRefused);
          return;
        }
        NowEmpty(p, max, emit, count, sent, i);
        if count >= max {
          NoMoreRoom(p, max, emit, count, sent, i, cur);
          count := max + 1;
          return;
        }
        prefix := VisiblePrefix(count + 1, p.total);
      }
      SizeTests(p, count + 1, tok);
      if FitsPhysical(prefix + tok, p.replyId, p.direct) {
        if ByteLen(prefix) + ByteLen(tok) > p.soft {
          TokenAlone(p, max, emit, count, sent, i);
          count, cur, sent, ok := EmitCur(p, max, emit, count, tok, sent);
          if !ok {
            err := Some(EmitRefused);
            return;
          }
          NowEmpty(p, max, emit, count, sent, i + 1);
        } else {
          TokenJoins(p, max, emit, count, sent, i, "");
          cur := tok;
        }
        i := i + 1;
        continue;
      }
      TokenSplits(p, max, emit, count, sent, i);
      var over;
      count, err, over, sent := SplitToken(p, max, emit, count, tok, sent, i);
      if err.Some? {
        return;
      }
      if over {
        OverMeansMore(p, max, emit, count, sent);
        count := max + 1;
        return;
      }
      NowEmpty(p, max, emit, count, sent, i + 1);
      i := i + 1;
    }
    Flushable(p, max, emit, count, sent, i, cur);
    var ok;
    count, cur, sent, ok := EmitCur(p, max, emit, count, cur, sent);
    if !ok {
      err := Some(EmitRefused);
      return;
    }
    NowEmpty(p, max, emit, count, sent, i);
    AllScanned(p, max, emit, count, sent);
  }
}
