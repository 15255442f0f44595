/** Greedy packing of tokens into chunks, as positions in the token sequence.

    A chunk runs from one position to the next.  What a chunk may be is said by `Legal`,
    independently of how chunks are found; `Next` is the greedy choice that chunk.go makes.
    The main result, `GreedyIsOptimal`, is that no packing with legal chunks, under the same
    or tighter limits and with tokens cut anywhere, gets further in the same number of
    chunks.  That a longer numbering prefix never lowers the chunk count is one use of it. */
module Packing {
  import opened Text
  import opened Tokens

  /** `off` characters into token number `tok`; `Pos(|toks|, 0)` is the end. */
  datatype Pos = Pos(tok: nat, off: nat) {
    predicate Le(q: Pos) { tok < q.tok || (tok == q.tok && off <= q.off) }
  }

  /** Byte limits of a chunk's payload, and the bytes the prefix of chunk `k` takes. */
  datatype Limits = Limits(soft: int, phys: int, width: nat -> nat) {
    function Soft(k: nat): int { soft - width(k) }
    function Phys(k: nat): int { phys - width(k) }

    /** Prefixes only get longer as the chunk number grows. */
    ghost predicate Growing() {
      forall i: nat, j: nat :: i <= j ==> width(i) <= width(j)
    }

    /** `this` leaves no chunk more room than `loose` does. */
    ghost predicate Tighter(loose: Limits) {
      && soft <= loose.soft
      && phys <= loose.phys
      && forall k: nat :: loose.width(k) <= width(k)
    }
  }

  predicate NonEmpty(toks: seq<string>) {
    forall i :: 0 <= i < |toks| ==> toks[i] != ""
  }

  const START := Pos(0, 0)

  function End(toks: seq<string>): Pos { Pos(|toks|, 0) }

  predicate Valid(toks: seq<string>, p: Pos) {
    p == End(toks) || (p.tok < |toks| && p.off < |toks[p.tok]|)
  }

  /** The position after `e` characters of token `i`. */
  function After(toks: seq<string>, i: nat, e: nat): Pos
    requires i < |toks| && e <= |toks[i]|
  {
    if e == |toks[i]| then Pos(i + 1, 0) else Pos(i, e)
  }

  /** The text of the chunk from `p` to `q`. */
  function Body(toks: seq<string>, p: Pos, q: Pos): string
    requires Valid(toks, p) && Valid(toks, q) && p.Le(q) && p != q
  {
    if q.tok == p.tok then toks[p.tok][p.off..q.off]
    else Join([toks[p.tok][p.off..]] + toks[p.tok + 1..q.tok])
  }

  /** What a chunk may be: at most `phys` bytes of one token, or several whole tokens that
      also stay within `soft` bytes. */
  predicate Legal(toks: seq<string>, p: Pos, q: Pos, soft: int, phys: int) {
    && Valid(toks, p) && Valid(toks, q) && p.Le(q) && p != q
    && (p.tok == q.tok || q.off == 0)
    && ByteLen(Body(toks, p, q)) <= phys
    && (q.tok > p.tok + 1 ==> p.off == 0 && ByteLen(Body(toks, p, q)) <= soft)
  }

  // ----- the greedy choice

  /** The furthest character index of `t` reachable from `o` within `cap` bytes. */
  function FragEnd(t: string, o: nat, cap: int): (e: nat)
    requires o <= |t|
    ensures o <= e <= |t|
    decreases |t| - o
  {
    if o == |t| || RuneLen(t[o]) > cap then o else FragEnd(t, o + 1, cap - RuneLen(t[o]))
  }

  /** The first token, from `j` on, that no longer joins a chunk of `used` bytes. */
  function PackEnd(toks: seq<string>, j: nat, used: int, cap: int): (e: nat)
    requires j <= |toks|
    ensures j <= e <= |toks|
    decreases |toks| - j
  {
    if j == |toks| || used + 1 + ByteLen(toks[j]) > cap then j
    else PackEnd(toks, j + 1, used + 1 + ByteLen(toks[j]), cap)
  }

  function Min(a: int, b: int): int { if a <= b then a else b }

  /** Where the greedy chunk that starts at `p` ends; `p` itself when not one character fits. */
  function Next(toks: seq<string>, p: Pos, soft: int, phys: int): (q: Pos)
    requires Valid(toks, p)
  {
    if p == End(toks) then p
    else
      var t := toks[p.tok];
      var n := ByteLen(t);
      if p.off == 0 && n <= soft && n <= phys then
        Pos(PackEnd(toks, p.tok + 1, n, Min(soft, phys)), 0)
      else if p.off == 0 && n <= phys then Pos(p.tok + 1, 0)
      else After(toks, p.tok, FragEnd(t, p.off, phys))
  }

  lemma NextIsValid(toks: seq<string>, p: Pos, soft: int, phys: int)
    requires NonEmpty(toks) && Valid(toks, p)
    ensures Valid(toks, Next(toks, p, soft, phys)) && p.Le(Next(toks, p, soft, phys))
  {
  }

  /** The position after `k` greedy chunks. */
  function PosAt(toks: seq<string>, lim: Limits, k: nat): (q: Pos)
    requires NonEmpty(toks)
    ensures Valid(toks, q)
  {
    if k == 0 then START
    else
      var p := PosAt(toks, lim, k - 1);
      NextIsValid(toks, p, lim.Soft(k), lim.Phys(k));
      Next(toks, p, lim.Soft(k), lim.Phys(k))
  }

  // ----- what FragEnd and PackEnd find

  lemma {:induction false} FragEndIsFurthest(t: string, o: nat, cap: int, e: nat)
    requires o <= |t|
    ensures o < FragEnd(t, o, cap) ==> ByteLen(t[o..FragEnd(t, o, cap)]) <= cap
    ensures o <= e <= |t| && ByteLen(t[o..e]) <= cap ==> e <= FragEnd(t, o, cap)
    decreases |t| - o
  {
    if o < |t| {
      if o < e <= |t| {
        assert t[o..e][1..] == t[o + 1..e];
      }
      if RuneLen(t[o]) <= cap {
        var f := FragEnd(t, o, cap);
        FragEndIsFurthest(t, o + 1, cap - RuneLen(t[o]), e);
        assert t[o..f][1..] == t[o + 1..f];
      }
    }
  }

  lemma WholeTokens(toks: seq<string>, i: nat, j: nat)
    requires NonEmpty(toks) && i < j <= |toks|
    ensures Valid(toks, Pos(i, 0)) && Valid(toks, Pos(j, 0))
    ensures Body(toks, Pos(i, 0), Pos(j, 0)) == Join(toks[i..j])
  {
    assert [toks[i][0..]] + toks[i + 1..j] == toks[i..j];
  }

  lemma JoinedMore(toks: seq<string>, i: nat, j: nat)
    requires i < j < |toks|
    ensures ByteLen(Join(toks[i..j + 1])) == ByteLen(Join(toks[i..j])) + 1 + ByteLen(toks[j])
  {
    assert toks[i..j + 1] == toks[i..j] + [toks[j]];
    JoinSnoc(toks[i..j], toks[j]);
    ByteLenConcat(Join(toks[i..j]) + " ", toks[j]);
    ByteLenConcat(Join(toks[i..j]), " ");
  }

  lemma JoinedOne(toks: seq<string>, i: nat)
    requires i < |toks|
    ensures Join(toks[i..i + 1]) == toks[i]
  {
  }

  lemma {:induction false} JoinedGrows(toks: seq<string>, i: nat, j: nat, j': nat)
    requires i < j <= j' <= |toks|
    ensures ByteLen(Join(toks[i..j])) <= ByteLen(Join(toks[i..j']))
    decreases j'
  {
    if j < j' {
      JoinedGrows(toks, i, j, j' - 1);
      JoinedMore(toks, i, j' - 1);
    }
  }

  lemma JoinedDropFirst(toks: seq<string>, i: nat, i': nat, j: nat)
    requires i <= i' < j <= |toks|
    ensures ByteLen(Join(toks[i'..j])) <= ByteLen(Join(toks[i..j]))
  {
    if i < i' {
      JoinConcat(toks[i..i'], toks[i'..j]);
      assert toks[i..j] == toks[i..i'] + toks[i'..j];
      ByteLenConcat(Join(toks[i..i']) + " ", Join(toks[i'..j]));
    }
  }

  /** Some of the tokens of a group take no more bytes than the group. */
  lemma JoinedMonotone(toks: seq<string>, i: nat, i': nat, j: nat, j': nat)
    requires i <= i' < j <= j' <= |toks|
    ensures ByteLen(Join(toks[i'..j])) <= ByteLen(Join(toks[i..j']))
  {
    JoinedDropFirst(toks, i, i', j);
    JoinedGrows(toks, i, j, j');
  }

  /** From a chunk holding tokens `i..j`, packing stops at the last token that fits. */
  lemma {:induction false} PackEndIsFurthest(toks: seq<string>, i: nat, j: nat, cap: int, e: nat)
    requires i < j <= |toks|
    requires ByteLen(Join(toks[i..j])) <= cap
    ensures var f := PackEnd(toks, j, ByteLen(Join(toks[i..j])), cap);
            && ByteLen(Join(toks[i..f])) <= cap
            && (f < e <= |toks| ==> ByteLen(Join(toks[i..e])) > cap)
    decreases |toks| - j
  {
    hide Join, ByteLen;
    if j < |toks| {
      JoinedMore(toks, i, j);
      if ByteLen(Join(toks[i..j + 1])) <= cap {
        PackEndIsFurthest(toks, i, j + 1, cap, e);
      } else if j < e <= |toks| {
        JoinedMonotone(toks, i, i, j + 1, e);
      }
    }
  }

  // ----- every greedy chunk is legal

  lemma FragmentBody(toks: seq<string>, i: nat, o: nat, e: nat)
    requires NonEmpty(toks) && i < |toks| && o < e <= |toks[i]|
    ensures var q := After(toks, i, e);
            && Valid(toks, q) && Pos(i, o).Le(q) && Pos(i, o) != q
            && Body(toks, Pos(i, o), q) == toks[i][o..e]
  {
    if e == |toks[i]| {
      assert [toks[i][o..]] + toks[i + 1..i + 1] == [toks[i][o..]];
      assert toks[i][o..] == toks[i][o..e];
    }
  }

  lemma NextIsLegal(toks: seq<string>, p: Pos, soft: int, phys: int)
    requires NonEmpty(toks) && Valid(toks, p)
    requires Next(toks, p, soft, phys) != p
    ensures Legal(toks, p, Next(toks, p, soft, phys), soft, phys)
  {
    var t := toks[p.tok];
    var n := ByteLen(t);
    var i := p.tok;
    JoinedOne(toks, i);
    if p.off == 0 && n <= soft && n <= phys {
      PackEndIsFurthest(toks, i, i + 1, Min(soft, phys), 0);
      WholeTokens(toks, i, PackEnd(toks, i + 1, n, Min(soft, phys)));
    } else if p.off == 0 && n <= phys {
      WholeTokens(toks, i, i + 1);
    } else {
      FragEndIsFurthest(t, p.off, phys, 0);
      FragmentBody(toks, i, p.off, FragEnd(t, p.off, phys));
    }
  }

  // ----- greedy stays ahead

  /** A token that is being cut does not fit whole. */
  predicate CutOnlyIfTooLong(toks: seq<string>, p: Pos, phys: int)
    requires Valid(toks, p)
  {
    p.off > 0 ==> ByteLen(toks[p.tok]) > phys
  }

  /** A legal chunk that stays in one token, seen from a position further on in that token. */
  lemma FragmentDominance(toks: seq<string>, p: Pos, p': Pos, q: Pos, s: int, c: int, soft: int, phys: int)
    requires NonEmpty(toks) && Valid(toks, q)
    requires Legal(toks, p, p', s, c) && c <= phys
    requires p.tok == q.tok && p.off <= q.off && (p'.tok == p.tok || p' == Pos(p.tok + 1, 0))
    ensures p'.Le(Next(toks, q, soft, phys))
  {
    var t := toks[p.tok];
    var e := if p'.tok == p.tok then p'.off else |t|;
    FragmentBody(toks, p.tok, p.off, e);
    if q.off < e {
      ByteLenSplit(t, p.off, q.off, e);
      FragEndIsFurthest(t, q.off, phys, e);
    }
  }

  /** A legal group of whole tokens, seen from a token boundary inside it. */
  lemma GroupDominance(toks: seq<string>, p: Pos, p': Pos, q: Pos, s: int, c: int, soft: int, phys: int)
    requires NonEmpty(toks) && Valid(toks, q)
    requires Legal(toks, p, p', s, c) && s <= soft && c <= phys
    requires p'.tok > p.tok + 1
    requires p.tok <= q.tok < p'.tok && q.off == 0
    ensures p'.Le(Next(toks, q, soft, phys))
  {
    var i, j := q.tok, p'.tok;
    var cap := Min(soft, phys);
    WholeTokens(toks, p.tok, j);
    JoinedMonotone(toks, p.tok, i, j, j);
    JoinedMonotone(toks, i, i, i + 1, j);
    JoinedOne(toks, i);
    PackEndIsFurthest(toks, i, i + 1, cap, j);
  }

  /** A legal group of several tokens holds no token that is too long. */
  lemma GroupHasNoLongToken(toks: seq<string>, p: Pos, p': Pos, i: nat, s: int, c: int)
    requires NonEmpty(toks) && Legal(toks, p, p', s, c)
    requires p'.tok > p.tok + 1 && p.tok <= i < p'.tok
    ensures ByteLen(toks[i]) <= c
  {
    WholeTokens(toks, p.tok, p'.tok);
    JoinedMonotone(toks, p.tok, i, i + 1, p'.tok);
    JoinedOne(toks, i);
  }

  /** One step: a greedy chunk that starts no earlier, under limits no tighter, ends no
      earlier than any legal chunk. */
  lemma StepDominance(toks: seq<string>, p: Pos, p': Pos, q: Pos, s: int, c: int, soft: int, phys: int)
    requires NonEmpty(toks) && Valid(toks, q) && p.Le(q)
    requires Legal(toks, p, p', s, c) && s <= soft && c <= phys
    requires CutOnlyIfTooLong(toks, q, phys)
    ensures p'.Le(Next(toks, q, soft, phys))
  {
    NextIsValid(toks, q, soft, phys);
    if !p'.Le(q) {
      if p'.tok > p.tok + 1 {
        if q.off > 0 {
          GroupHasNoLongToken(toks, p, p', q.tok, s, c);
        }
        GroupDominance(toks, p, p', q, s, c, soft, phys);
      } else {
        FragmentDominance(toks, p, p', q, s, c, soft, phys);
      }
    }
  }

  /** After any number of greedy chunks, a token being cut is too long for the next one. */
  lemma {:induction false} CutsStayTooLong(toks: seq<string>, lim: Limits, k: nat)
    requires NonEmpty(toks) && lim.Growing()
    ensures CutOnlyIfTooLong(toks, PosAt(toks, lim, k), lim.Phys(k + 1))
    ensures k > 0 ==> CutOnlyIfTooLong(toks, PosAt(toks, lim, k), lim.Phys(k))
  {
    if k > 0 {
      CutsStayTooLong(toks, lim, k - 1);
      assert lim.width(k) <= lim.width(k + 1);
    }
  }

  /** A packing: positions from the start, one legal chunk after another. */
  ghost predicate IsPacking(toks: seq<string>, lim: Limits, cuts: seq<Pos>) {
    && |cuts| > 0 && cuts[0] == START
    && forall k :: 0 < k < |cuts| ==>
         Legal(toks, cuts[k - 1], cuts[k], lim.Soft(k), lim.Phys(k))
  }

  /** No packing within tighter or equal limits is ever ahead of the greedy one. */
  lemma {:induction false} GreedyStaysAhead(
      toks: seq<string>, lim: Limits, tight: Limits, cuts: seq<Pos>, k: nat)
    requires NonEmpty(toks) && lim.Growing() && tight.Tighter(lim)
    requires IsPacking(toks, tight, cuts) && k < |cuts|
    ensures cuts[k].Le(PosAt(toks, lim, k))
  {
    if k > 0 {
      GreedyStaysAhead(toks, lim, tight, cuts, k - 1);
      CutsStayTooLong(toks, lim, k - 1);
      StepDominance(toks, cuts[k - 1], cuts[k], PosAt(toks, lim, k - 1),
                    tight.Soft(k), tight.Phys(k), lim.Soft(k), lim.Phys(k));
    }
  }

  // ----- counting chunks

  /** The greedy run uses up all tokens in exactly `n` chunks. */
  ghost predicate Finishes(toks: seq<string>, lim: Limits, n: nat)
    requires NonEmpty(toks)
  {
    && PosAt(toks, lim, n) == End(toks)
    && (n > 0 ==> PosAt(toks, lim, n - 1) != End(toks))
  }

  lemma {:induction false} EndIsFinal(toks: seq<string>, lim: Limits, m: nat, k: nat)
    requires NonEmpty(toks) && m <= k && PosAt(toks, lim, m) == End(toks)
    ensures PosAt(toks, lim, k) == End(toks)
    decreases k
  {
    if m < k {
      EndIsFinal(toks, lim, m, k - 1);
    }
  }

  lemma FinishesOnce(toks: seq<string>, lim: Limits, m: nat, n: nat)
    requires NonEmpty(toks) && Finishes(toks, lim, m) && Finishes(toks, lim, n)
    ensures m == n
  {
    if m < n {
      EndIsFinal(toks, lim, m, n - 1);
    } else if n < m {
      EndIsFinal(toks, lim, n, m - 1);
    }
  }

  /** Greedy packing is optimal: any packing of all the tokens uses at least as many chunks,
      however it groups or cuts them. */
  lemma GreedyIsOptimal(toks: seq<string>, lim: Limits, tight: Limits, cuts: seq<Pos>)
      returns (n: nat)
    requires NonEmpty(toks) && lim.Growing() && tight.Tighter(lim)
    requires IsPacking(toks, tight, cuts) && cuts[|cuts| - 1] == End(toks)
    ensures Finishes(toks, lim, n) && n <= |cuts| - 1
  {
    GreedyStaysAhead(toks, lim, tight, cuts, |cuts| - 1);
    n := |cuts| - 1;
    while n > 0 && PosAt(toks, lim, n - 1) == End(toks)
      invariant n <= |cuts| - 1 && PosAt(toks, lim, n) == End(toks)
    {
      n := n - 1;
    }
  }

  /** The cut positions of the first `n` greedy chunks. */
  ghost function Cuts(toks: seq<string>, lim: Limits, n: nat): (cuts: seq<Pos>)
    requires NonEmpty(toks)
    ensures |cuts| == n + 1 && forall k :: 0 <= k <= n ==> cuts[k] == PosAt(toks, lim, k)
  {
    seq(n + 1, k requires 0 <= k => PosAt(toks, lim, k))
  }

  lemma StuckMeansNoRoom(toks: seq<string>, p: Pos, soft: int, phys: int)
    requires NonEmpty(toks) && Valid(toks, p) && p != End(toks)
    requires Next(toks, p, soft, phys) == p
    ensures RuneLen(toks[p.tok][p.off]) > phys
    ensures p.off == 0 ==> ByteLen(toks[p.tok]) > phys
  {
  }

  lemma NoRoomMeansStuck(toks: seq<string>, p: Pos, soft: int, phys: int)
    requires NonEmpty(toks) && Valid(toks, p) && p != End(toks)
    requires RuneLen(toks[p.tok][p.off]) > phys
    requires p.off == 0 ==> ByteLen(toks[p.tok]) > phys
    ensures Next(toks, p, soft, phys) == p
  {
  }

  /** Once not one character fits, none ever will: prefixes do not get shorter. */
  lemma {:induction false} StuckForever(toks: seq<string>, lim: Limits, m: nat, k: nat)
    requires NonEmpty(toks) && lim.Growing() && 0 < m <= k
    requires PosAt(toks, lim, m) == PosAt(toks, lim, m - 1) != End(toks)
    ensures PosAt(toks, lim, k) == PosAt(toks, lim, m)
    decreases k
  {
    if m < k {
      StuckForever(toks, lim, m, k - 1);
      assert lim.width(m) <= lim.width(k);
      var p := PosAt(toks, lim, m);
      StuckMeansNoRoom(toks, p, lim.Soft(m), lim.Phys(m));
      NoRoomMeansStuck(toks, p, lim.Soft(k), lim.Phys(k));
    }
  }

  /** Before the end, a greedy run that will finish always advances. */
  lemma RunAdvances(toks: seq<string>, lim: Limits, n: nat, k: nat)
    requires NonEmpty(toks) && lim.Growing() && Finishes(toks, lim, n) && 0 < k <= n
    ensures PosAt(toks, lim, k - 1) != End(toks)
    ensures PosAt(toks, lim, k) != PosAt(toks, lim, k - 1)
  {
    hide Next, Valid;
    var p := PosAt(toks, lim, k - 1);
    if p == End(toks) {
      EndIsFinal(toks, lim, k - 1, n - 1);
    }
    if PosAt(toks, lim, k) == p {
      StuckForever(toks, lim, k, n);
    }
  }

  /** A finished greedy run is itself a packing with legal chunks. */
  lemma GreedyIsPacking(toks: seq<string>, lim: Limits, n: nat)
    requires NonEmpty(toks) && lim.Growing() && Finishes(toks, lim, n)
    ensures IsPacking(toks, lim, Cuts(toks, lim, n))
  {
    var cuts := Cuts(toks, lim, n);
    forall k | 0 < k < |cuts|
      ensures Legal(toks, cuts[k - 1], cuts[k], lim.Soft(k), lim.Phys(k))
    {
      RunAdvances(toks, lim, n, k);
      NextIsLegal(toks, PosAt(toks, lim, k - 1), lim.Soft(k), lim.Phys(k));
    }
  }

  /** Longer prefixes never lower the chunk count. */
  lemma TighterNeverFewer(toks: seq<string>, lim: Limits, tight: Limits, n: nat)
      returns (m: nat)
    requires NonEmpty(toks) && lim.Growing() && tight.Growing() && tight.Tighter(lim)
    requires Finishes(toks, tight, n)
    ensures Finishes(toks, lim, m) && m <= n
  {
    GreedyIsPacking(toks, tight, n);
    m := GreedyIsOptimal(toks, lim, tight, Cuts(toks, tight, n));
  }
}
