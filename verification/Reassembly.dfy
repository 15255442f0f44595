/** Putting the chunks back together gives the normalised text. */
module Reassembly {
  import opened Text
  import opened Tokens
  import opened Options
  import opened Numerals
  import opened Packing
  import opened Chunker

  /** Everything up to a position, normalised. */
  function UpTo(toks: seq<string>, p: Pos): string
    requires Valid(toks, p)
  {
    if p.off == 0 then Join(toks[..p.tok]) else Join(toks[..p.tok] + [toks[p.tok][..p.off]])
  }

  /** What a reader puts before a chunk that starts at `p`: a space if the cut was between
      tokens, nothing inside a token or at the start. */
  function Gap(p: Pos): string { if p.off > 0 || p == START then "" else " " }

  lemma GapAtBoundary(toks: seq<string>, p: Pos, q: Pos)
    requires NonEmpty(toks) && Valid(toks, p) && Valid(toks, q) && p.off == 0 && q.off == 0
    requires p.tok < q.tok
    ensures UpTo(toks, q) == UpTo(toks, p) + Gap(p) + Body(toks, p, q)
  {
    WholeTokens(toks, p.tok, q.tok);
    assert toks[..q.tok] == toks[..p.tok] + toks[p.tok..q.tok];
    if p.tok > 0 {
      JoinConcat(toks[..p.tok], toks[p.tok..q.tok]);
    } else {
      assert "" + "" + Body(toks, p, q) == Body(toks, p, q);
    }
  }

  lemma GapInToken(toks: seq<string>, p: Pos, q: Pos, e: nat)
    requires NonEmpty(toks) && Valid(toks, p) && p.tok < |toks|
    requires p.off < e <= |toks[p.tok]| && q == After(toks, p.tok, e)
    ensures Valid(toks, q)
    ensures UpTo(toks, q) == UpTo(toks, p) + Gap(p) + toks[p.tok][p.off..e]
  {
    var us, t := toks[..p.tok], toks[p.tok];
    assert UpTo(toks, q) == Join(us + [t[..e]]) by {
      assert e == |t| ==> t[..e] == t && toks[..p.tok + 1] == us + [t];
    }
    JoinSnoc(us, t[..e]);
    if p.off > 0 {
      JoinSnoc(us, t[..p.off]);
      assert t[..e] == t[..p.off] + t[p.off..e];
    } else {
      assert t[0..e] == t[..e];
    }
  }

  lemma OneChunk(toks: seq<string>, p: Pos, q: Pos, soft: int, phys: int)
    requires NonEmpty(toks) && Legal(toks, p, q, soft, phys)
    ensures UpTo(toks, q) == UpTo(toks, p) + Gap(p) + Body(toks, p, q)
  {
    if p.off == 0 && q.off == 0 {
      GapAtBoundary(toks, p, q);
    } else {
      var e := if q.tok == p.tok then q.off else |toks[p.tok]|;
      FragmentBody(toks, p.tok, p.off, e);
      GapInToken(toks, p, q, e);
    }
  }

  /** The reader's side: chunk bodies, each with the gap in front of it. */
  function Rejoined(bodies: seq<string>, gaps: seq<string>): string
    requires |bodies| == |gaps|
  {
    if bodies == [] then ""
    else
      var n := |bodies| - 1;
      Rejoined(bodies[..n], gaps[..n]) + gaps[n] + bodies[n]
  }

  predicate IsDigit(c: char) { '0' <= c <= '9' }

  /** The length of the number at the front of `s`. */
  function NumberLen(s: string): (n: nat)
    ensures n <= |s|
  {
    if s == "" || !IsDigit(s[0]) then 0 else 1 + NumberLen(s[1..])
  }

  /** The number at the front of `s`, and what is behind it. */
  function ReadNumber(s: string): Option<(nat, string)> {
    var m := NumberLen(s);
    if m == 0 || Digits(s[..m], 10).None? then None else Some((Digits(s[..m], 10).value, s[m..]))
  }

  /** A numbered payload as it was received: which chunk it is, of how many, and its body. */
  datatype Numbered = Numbered(index: nat, total: nat, body: string)

  /** Reads `[`, a number, `/`, a number, `] `, and the body behind it. */
  function ReadNumbered(payload: string): Option<Numbered> {
    if !("[" <= payload) then None
    else
      var index := ReadNumber(payload[1..]);
      if index.None? || !("/" <= index.value.1) then None
      else
        var total := ReadNumber(index.value.1[1..]);
        if total.None? || !("] " <= total.value.1) then None
        else Some(Numbered(index.value.0, total.value.0, total.value.1[2..]))
  }

  /** The payload says of itself that it is chunk `index` of `total`; a lone chunk says nothing. */
  predicate SaysItIs(payload: string, index: nat, total: nat) {
    total >= 2 ==>
      var r := ReadNumbered(payload); r.Some? && r.value.index == index && r.value.total == total
  }

  function BodyOf(payload: string, index: nat, total: nat): string
    requires SaysItIs(payload, index, total)
  {
    if total >= 2 then ReadNumbered(payload).value.body else payload
  }

  /** What is left of the payloads without their numbers. */
  function Stripped(payloads: seq<string>, total: nat): (bodies: seq<string>)
    requires forall k :: 0 <= k < |payloads| ==> SaysItIs(payloads[k], k + 1, total)
    ensures |bodies| == |payloads|
  {
    seq(|payloads|, k requires 0 <= k < |payloads| => BodyOf(payloads[k], k + 1, total))
  }

  lemma {:induction false} NumberEnds(s: string, rest: string)
    requires forall i :: 0 <= i < |s| ==> IsDigit(s[i])
    requires rest != "" && !IsDigit(rest[0])
    ensures NumberLen(s + rest) == |s|
  {
    if s == "" {
      assert s + rest == rest;
    } else {
      assert (s + rest)[0] == s[0] && (s + rest)[1..] == s[1..] + rest;
      NumberEnds(s[1..], rest);
    }
  }

  lemma ReadsNumber(n: nat, rest: string)
    requires rest != "" && !IsDigit(rest[0])
    ensures ReadNumber(Dec(n) + rest) == Some((n, rest))
  {
    hide Digits, NumberLen;
    DecIsAscii(n);
    NumberEnds(Dec(n), rest);
    NumeralRoundTrip(n, 10);
    assert (Dec(n) + rest)[..|Dec(n)|] == Dec(n) && (Dec(n) + rest)[|Dec(n)|..] == rest;
  }

  /** A payload is read as what it was made of. */
  lemma PrefixIsRead(index: nat, total: nat, body: string)
    requires total >= 2
    ensures ReadNumbered(VisiblePrefix(index, total) + body) == Some(Numbered(index, total, body))
  {
    hide Dec, ReadNumber;
    var payload := VisiblePrefix(index, total) + body;
    var back := "] " + body;
    var after := "/" + (Dec(total) + back);
    ReadsNumber(index, after);
    ReadsNumber(total, back);
    assert payload == "[" + (Dec(index) + after);
    assert payload[1..] == Dec(index) + after && after[1..] == Dec(total) + back && back[2..] == body;
  }

  function Gaps(p: Plan, n: nat): (gaps: seq<string>)
    ensures |gaps| == n
  {
    seq(n, k requires 0 <= k => Gap(p.At(k)))
  }

  function Bodies(p: Plan, n: nat): (bodies: seq<string>)
    ensures |bodies| == n
  {
    seq(n, k requires 0 <= k => p.ChunkText(k + 1))
  }

  lemma {:induction false} PayloadAt(p: Plan, n: nat, k: nat)
    requires k < n
    ensures p.Payloads(n)[k] == p.Payload(k + 1)
  {
    hide Plan.ChunkText, VisiblePrefix;
    if k < n - 1 {
      PayloadAt(p, n - 1, k);
    }
  }

  /** A reader finds on every payload its own number and the total, and behind them the chunk;
      a lone chunk goes out bare. */
  lemma PayloadsStrip(p: Plan, n: nat)
    ensures forall k :: 0 <= k < n ==>
      SaysItIs(p.Payloads(n)[k], k + 1, p.total) && BodyOf(p.Payloads(n)[k], k + 1, p.total) == p.ChunkText(k + 1)
    ensures Stripped(p.Payloads(n), p.total) == Bodies(p, n)
  {
    hide Plan.ChunkText, ReadNumbered, Plan.Payloads;
    forall k: nat | k < n
      ensures SaysItIs(p.Payloads(n)[k], k + 1, p.total)
      ensures BodyOf(p.Payloads(n)[k], k + 1, p.total) == p.ChunkText(k + 1)
    {
      PayloadAt(p, n, k);
      if p.total >= 2 {
        PrefixIsRead(k + 1, p.total, p.ChunkText(k + 1));
      } else {
        assert "" + p.ChunkText(k + 1) == p.ChunkText(k + 1);
      }
    }
  }

  lemma ChunkContinues(p: Plan, n: nat, k: nat)
    requires p.Takes(n) && 0 < k <= n
    ensures UpTo(p.Toks(), p.At(k)) == UpTo(p.Toks(), p.At(k - 1)) + Gap(p.At(k - 1)) + p.ChunkText(k)
  {
    hide UpTo, Gap, TokensOf;
    LimitsGrow(p.soft, p.total, p.replyId, p.direct);
    RunAdvances(p.Toks(), p.Lim(), n, k);
    NextIsLegal(p.Toks(), p.At(k - 1), p.Lim().Soft(k), p.Lim().Phys(k));
    OneChunk(p.Toks(), p.At(k - 1), p.At(k), p.Lim().Soft(k), p.Lim().Phys(k));
  }

  lemma {:induction false} RejoinUpTo(p: Plan, n: nat, k: nat)
    requires p.Takes(n) && k <= n
    ensures Rejoined(Bodies(p, k), Gaps(p, k)) == UpTo(p.Toks(), p.At(k))
  {
    if k > 0 {
      hide UpTo, Gap, Plan.ChunkText, TokensOf, Plan.Takes, Plan.At;
      RejoinUpTo(p, n, k - 1);
      assert Bodies(p, k)[..k - 1] == Bodies(p, k - 1) && Gaps(p, k)[..k - 1] == Gaps(p, k - 1);
      ChunkContinues(p, n, k);
    }
  }

  /** Nothing is lost, duplicated or reordered: reading the numbers off and rejoining, with a
      space exactly where the cut fell between tokens, gives the normalised text. */
  lemma ChunksRejoin(p: Plan, n: nat)
    requires p.Takes(n)
    ensures forall k :: 0 <= k < n ==> SaysItIs(p.Payloads(n)[k], k + 1, p.total)
    ensures Rejoined(Stripped(p.Payloads(n), p.total), Gaps(p, n)) == Normalized(p.text)
  {
    PayloadsStrip(p, n);
    RejoinUpTo(p, n, n);
    assert p.Toks()[..|p.Toks()|] == p.Toks();
  }

  /** `body` is a piece of a single token. */
  ghost predicate InOneToken(toks: seq<string>, body: string) {
    exists i: nat, lo: nat, hi: nat ::
      i < |toks| && lo <= hi <= |toks[i]| && body == toks[i][lo..hi]
  }

  lemma LegalSize(toks: seq<string>, p: Pos, q: Pos, soft: int, phys: int)
    requires NonEmpty(toks) && Legal(toks, p, q, soft, phys)
    ensures 0 < ByteLen(Body(toks, p, q)) <= phys
    ensures ByteLen(Body(toks, p, q)) <= soft || InOneToken(toks, Body(toks, p, q))
  {
    if q.tok > p.tok + 1 {
      WholeTokens(toks, p.tok, q.tok);
      JoinedMonotone(toks, p.tok, p.tok, p.tok + 1, q.tok);
      JoinedOne(toks, p.tok);
    } else {
      var e := if q.tok == p.tok then q.off else |toks[p.tok]|;
      FragmentBody(toks, p.tok, p.off, e);
      assert Body(toks, p, q) == toks[p.tok][p.off..e];
    }
  }

  /** Every payload fits its frame, and one over the soft target holds part of one token. */
  lemma PayloadFits(p: Plan, n: nat, k: nat)
    requires p.Takes(n) && 0 < k <= n
    ensures FitsPhysical(p.Payload(k), p.replyId, p.direct)
    ensures ByteLen(p.Payload(k)) > p.soft ==> InOneToken(p.Toks(), p.ChunkText(k))
  {
    LimitsGrow(p.soft, p.total, p.replyId, p.direct);
    RunAdvances(p.Toks(), p.Lim(), n, k);
    NextIsLegal(p.Toks(), p.At(k - 1), p.Lim().Soft(k), p.Lim().Phys(k));
    LegalSize(p.Toks(), p.At(k - 1), p.At(k), p.Lim().Soft(k), p.Lim().Phys(k));
    PrefixedBytes(k, p.total, p.ChunkText(k));
    FitsIffRoom(p.Payload(k), p.replyId, p.direct);
  }

  /** A token is cut only if it does not fit a frame behind the prefix of the chunk that
      it would start. */
  lemma {:induction false} CutMeansTooLong(p: Plan, k: nat) returns (j: nat)
    requires p.At(k).off > 0
    ensures 0 < j <= k && p.At(j - 1) == Pos(p.At(k).tok, 0)
    ensures !FitsPhysical(VisiblePrefix(j, p.total) + p.Toks()[p.At(k).tok], p.replyId, p.direct)
  {
    j := k;
    var t := p.Toks()[p.At(k).tok];
    if p.At(k - 1).off > 0 {
      j := CutMeansTooLong(p, k - 1);
    } else {
      PrefixedBytes(k, p.total, t);
      FitsIffRoom(VisiblePrefix(k, p.total) + t, p.replyId, p.direct);
    }
  }
}
