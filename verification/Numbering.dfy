/** `chunkCount`: how many chunks a text takes once their numbering is paid for. */
module Numbering {
  import opened Tokens
  import opened Options
  import opened Numerals
  import opened Packing
  import opened Chunker
  import opened Scan

  datatype CountError = ScanFailed(e: ScanError) | CountOverflow | CountDecreased

  /** Numbering a text "out of `n`" really gives `n` chunks. */
  ghost predicate Consistent(text: string, soft: int, replyId: nat, direct: bool, n: nat) {
    Plan(text, soft, n, replyId, direct).Takes(n)
  }

  /** Naming a larger total never lowers the number of chunks. */
  lemma LargerTotalNeverFewer(p: Plan, q: Plan, m: nat) returns (n: nat)
    requires q == p.(total := q.total) && p.total <= q.total
    requires q.Takes(m)
    ensures p.Takes(n) && n <= m
  {
    LimitsGrow(p.soft, p.total, p.replyId, p.direct);
    LimitsGrow(p.soft, q.total, p.replyId, p.direct);
    LimitsTighten(p.soft, p.total, q.total, p.replyId, p.direct);
    n := TighterNeverFewer(p.Toks(), p.Lim(), q.Lim(), m);
  }

  lemma TakesOnce(p: Plan, m: nat, n: nat)
    requires p.Takes(m) && p.Takes(n)
    ensures m == n
  {
    FinishesOnce(p.Toks(), p.Lim(), m, n);
  }

  lemma LargerTotalAtLeast(p: Plan, q: Plan, n: nat, m: nat)
    requires q == p.(total := q.total) && p.total <= q.total
    requires p.Takes(n) && q.Takes(m)
    ensures n <= m
  {
    var n' := LargerTotalNeverFewer(p, q, m);
    TakesOnce(p, n, n');
  }

  lemma OneDigit(t: nat)
    requires t < 10
    ensures |Dec(t)| == 1
  {
  }

  /** Totals that print equally wide, or not at all. */
  predicate SameWidth(t: nat, u: nat) {
    (t <= 1 && u <= 1) || (2 <= t < 10 && 2 <= u < 10)
  }

  lemma SameWidthTighter(p: Plan, q: Plan)
    requires q == p.(total := q.total) && SameWidth(p.total, q.total)
    ensures p.Lim().Tighter(q.Lim())
  {
    OneDigit(p.total);
    OneDigit(q.total);
    forall k: nat
      ensures q.Lim().width(k) <= p.Lim().width(k)
    {
      hide Dec;
    }
  }

  /** Equally wide totals give the same chunks. */
  lemma SameWidthSameCount(p: Plan, q: Plan, n: nat)
    requires q == p.(total := q.total) && SameWidth(p.total, q.total)
    requires p.Takes(n)
    ensures q.Takes(n)
  {
    hide Finishes, PosAt, PrefixLen, LimitsFor;
    SameWidthTighter(p, q);
    SameWidthTighter(q, p);
    LimitsGrow(p.soft, p.total, p.replyId, p.direct);
    LimitsGrow(p.soft, q.total, p.replyId, p.direct);
    var m := TighterNeverFewer(p.Toks(), q.Lim(), p.Lim(), n);
    var n' := TighterNeverFewer(p.Toks(), p.Lim(), q.Lim(), m);
    TakesOnce(p, n, n');
  }

  /** A rune always fits behind a prefix with one-digit numbers. */
  lemma PrefixLeavesRoom(p: Plan, k: nat)
    requires p.total < 10 && k < 9 && p.At(k) != End(p.Toks())
    ensures p.At(k + 1) != p.At(k)
  {
    OneDigit(p.total);
    OneDigit(k + 1);
    if p.At(k + 1) == p.At(k) {
      StuckMeansNoRoom(p.Toks(), p.At(k), p.Lim().Soft(k + 1), p.Lim().Phys(k + 1));
    }
  }

  lemma CountOnlyNeverStuck(p: Plan, count: nat, err: Option<ScanError>, sent: seq<string>)
    requires p.total < 10 && Outcome(p, MAX_TEXT_CHUNKS, CountOnly, count, err, sent)
    ensures err.None? || err == Some(SoftNotPositive)
  {
    if err == Some(NoRoomForRune) {
      PrefixLeavesRoom(p, count);
    }
  }

  /** A count-only scan with the channel's limit always succeeds. */
  method CountScan(p: Plan) returns (count: nat, err: Option<ScanError>)
    requires p.total < 10
    ensures p.soft <= 0 ==> err == Some(SoftNotPositive) && count == 0
    ensures p.soft > 0 ==> err.None? && count <= MAX_TEXT_CHUNKS + 1
    ensures p.soft > 0 && count <= MAX_TEXT_CHUNKS ==> p.Takes(count)
    ensures p.soft > 0 && count > MAX_TEXT_CHUNKS ==> p.At(MAX_TEXT_CHUNKS) != End(p.Toks())
  {
    hide Plan.At, Plan.Takes;
    var sent;
    count, err, sent := ScanChunks(p, MAX_TEXT_CHUNKS, CountOnly);
    CountOnlyNeverStuck(p, count, err, sent);
  }

  /** The numbering chosen: none of the text is left out, and no smaller total would do. */
  ghost predicate Decided(text: string, soft: int, replyId: nat, direct: bool,
                          count: nat, total: nat, oversized: bool) {
    if TokensOf(text) == [] then count == 0 && total == 0 && !oversized
    else if oversized then
      && count == total == 1
      && forall n | 1 <= n <= MAX_TEXT_CHUNKS :: !Consistent(text, soft, replyId, direct, n)
    else
      && 1 <= count == total <= MAX_TEXT_CHUNKS
      && Consistent(text, soft, replyId, direct, total)
      && forall n | 1 <= n < total :: !Consistent(text, soft, replyId, direct, n)
  }

  /** A total below what a scan with a smaller total takes is not consistent. */
  lemma TooSmall(p: Plan, m: nat, n: nat)
    requires p.Takes(m) && p.total <= n < m
    ensures !Consistent(p.text, p.soft, p.replyId, p.direct, n)
  {
    if Consistent(p.text, p.soft, p.replyId, p.direct, n) {
      LargerTotalAtLeast(p, p.(total := n), m, n);
    }
  }

  lemma AllTooSmall(p: Plan, m: nat)
    requires p.Takes(m)
    ensures forall n | p.total <= n < m :: !Consistent(p.text, p.soft, p.replyId, p.direct, n)
  {
    forall n | p.total <= n < m
      ensures !Consistent(p.text, p.soft, p.replyId, p.direct, n)
    {
      TooSmall(p, m, n);
    }
  }

  /** When a scan overflows the limit, no total within the limit is consistent. */
  lemma Outgrown(p: Plan, n: nat)
    requires p.At(MAX_TEXT_CHUNKS) != End(p.Toks()) && p.total <= n <= MAX_TEXT_CHUNKS
    ensures !Consistent(p.text, p.soft, p.replyId, p.direct, n)
  {
    if Consistent(p.text, p.soft, p.replyId, p.direct, n) {
      var m := LargerTotalNeverFewer(p, p.(total := n), n);
      EndIsFinal(p.Toks(), p.Lim(), m, MAX_TEXT_CHUNKS);
    }
  }

  lemma AllOutgrown(p: Plan)
    requires p.At(MAX_TEXT_CHUNKS) != End(p.Toks())
    ensures forall n | p.total <= n <= MAX_TEXT_CHUNKS ::
      !Consistent(p.text, p.soft, p.replyId, p.direct, n)
  {
    forall n | p.total <= n <= MAX_TEXT_CHUNKS
      ensures !Consistent(p.text, p.soft, p.replyId, p.direct, n)
    {
      Outgrown(p, n);
    }
  }

  lemma TakesNothing(p: Plan, n: nat)
    requires p.Takes(n)
    ensures n == 0 <==> TokensOf(p.text) == []
  {
    if TokensOf(p.text) == [] {
      TakesOnce(p, 0, n);
    }
  }

  lemma MoreThanNothing(p: Plan)
    requires p.At(MAX_TEXT_CHUNKS) != End(p.Toks())
    ensures TokensOf(p.text) != []
  {
  }

  /** `chunkCount`; `numbered` counts the scans made with a visible prefix. */
  method ChunkCount(text: string, soft: int, replyId: nat, direct: bool)
      returns (count: nat, total: nat, oversized: bool, err: Option<CountError>,
               ghost numbered: nat)
    ensures soft <= 0 ==> err == Some(ScanFailed(SoftNotPositive))
    ensures soft > 0 ==> err.None? && Decided(text, soft, replyId, direct, count, total, oversized)
    ensures numbered <= 2
  {
    hide Plan.At, Plan.Takes, TokensOf, Plan.Toks;
    var p := Plan(text, soft, 0, replyId, direct);
    var scanErr;
    numbered, total, oversized, err := 0, 0, false, None;
    count, scanErr := CountScan(p);
    if scanErr.Some? {
      err := Some(ScanFailed(scanErr.value));
      return;
    }
    if count > MAX_TEXT_CHUNKS {
      AllOutgrown(p);
      MoreThanNothing(p);
      return 1, 1, true, None, numbered;
    }
    TakesNothing(p, count);
    if count == 0 {
      return;
    }
    AllTooSmall(p, count);
    if count == 1 {
      SameWidthSameCount(p, p.(total := 1), 1);
      return 1, 1, false, None, numbered;
    }
    total := count;
    ghost var was := p;
    while true
      invariant 2 <= total <= MAX_TEXT_CHUNKS && err.None? && !oversized
      invariant was == p.(total := was.total) && was.total <= total && was.Takes(total)
      invariant (numbered == 0 && was.total == 0) || (numbered == 1 && was.total >= 2)
      invariant forall n | 1 <= n < total :: !Consistent(text, soft, replyId, direct, n)
      decreases MAX_TEXT_CHUNKS - total
    {
      if total == MAX_INT {
        err := Some(CountOverflow);
        break;
      }
      numbered := numbered + 1;
      var q := p.(total := total);
      var m;
      m, scanErr := CountScan(q);
      match scanErr {
        case None =>
        case Some(e) =>
          err := Some(ScanFailed(e));
          break;
      }
      if m > MAX_TEXT_CHUNKS {
        AllOutgrown(q);
        oversized := true;
        break;
      }
      LargerTotalAtLeast(was, q, total, m);
      AllTooSmall(q, m);
      if was.total >= 2 {
        SameWidthSameCount(was, q, total);
        TakesOnce(q, total, m);
      }
      if m == total {
        break;
      }
      if m < total {
        err := Some(CountDecreased);
        break;
      }
      was := q;
      total := m;
    }
    count := total;
    if oversized {
      count, total := 1, 1;
    }
  }
}
