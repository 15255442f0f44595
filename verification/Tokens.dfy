/** Whitespace-separated tokens: what `tokenScanner` yields, and the normalised text. */
module Tokens {
  import opened Text

  predicate NoSpace(t: string) {
    forall i :: 0 <= i < |t| ==> !IsSpace(t[i])
  }

  /** A nonempty string without whitespace. */
  predicate Word(t: string) {
    t != "" && NoSpace(t)
  }

  predicate Clean(ts: seq<string>) {
    forall i :: 0 <= i < |ts| ==> Word(ts[i])
  }

  /** The length of the word at the front of `s`. */
  function WordLen(s: string): (n: nat)
    ensures n <= |s|
    ensures n < |s| ==> IsSpace(s[n])
  {
    if s == "" || IsSpace(s[0]) then 0 else 1 + WordLen(s[1..])
  }

  lemma {:induction false} WordLenIsWord(s: string)
    ensures NoSpace(s[..WordLen(s)])
  {
    if s != "" && !IsSpace(s[0]) {
      var m := WordLen(s[1..]);
      WordLenIsWord(s[1..]);
      assert s[..m + 1] == [s[0]] + s[1..][..m];
    }
  }

  /** The tokens of a text, in order. */
  function TokensOf(s: string): (ts: seq<string>)
    decreases |s|
  {
    if s == "" then []
    else if IsSpace(s[0]) then TokensOf(s[1..])
    else
      var n := WordLen(s);
      [s[..n]] + TokensOf(s[n..])
  }

  /** Every token is a nonempty string without whitespace. */
  lemma {:induction false} TokensAreClean(s: string)
    ensures Clean(TokensOf(s))
    decreases |s|
  {
    if s == "" {
    } else if IsSpace(s[0]) {
      TokensAreClean(s[1..]);
    } else {
      WordLenIsWord(s);
      TokensAreClean(s[WordLen(s)..]);
    }
  }

  /** Tokens joined by single spaces. */
  function Join(ts: seq<string>): string {
    if |ts| == 0 then ""
    else if |ts| == 1 then ts[0]
    else Join(ts[..|ts| - 1]) + " " + ts[|ts| - 1]
  }

  /** The whitespace-normalised form of a text. */
  function Normalized(s: string): string { Join(TokensOf(s)) }

  lemma JoinSnoc(ts: seq<string>, t: string)
    ensures Join(ts + [t]) == if ts == [] then t else Join(ts) + " " + t
  {
    assert (ts + [t])[..|ts|] == ts;
  }

  lemma Regroup(s: string, t: string, u: string)
    ensures s + (t + u) == (s + t) + u
  {
  }

  /** Joining two nonempty lists of tokens puts one space between their joins. */
  lemma {:induction false} JoinConcat(us: seq<string>, vs: seq<string>)
    requires us != [] && vs != []
    ensures Join(us + vs) == Join(us) + " " + Join(vs)
    decreases |vs|
  {
    hide Join;
    var n := |vs| - 1;
    var last := vs[n];
    JoinSnoc(vs[..n], last);
    JoinSnoc(us + vs[..n], last);
    assert vs == vs[..n] + [last];
    assert us + vs == (us + vs[..n]) + [last];
    if n > 0 {
      JoinConcat(us, vs[..n]);
      Regroup(Join(us) + " ", Join(vs[..n]), " " + last);
      Regroup(Join(us) + " " + Join(vs[..n]), " ", last);
      Regroup(Join(vs[..n]), " ", last);
    } else {
      assert us + vs[..n] == us;
    }
  }

  lemma {:induction false} WordLenOfWord(t: string, rest: string)
    requires NoSpace(t)
    requires rest == "" || IsSpace(rest[0])
    ensures WordLen(t + rest) == |t|
  {
    if t == "" {
      assert t + rest == rest;
    } else {
      assert (t + rest)[0] == t[0];
      assert (t + rest)[1..] == t[1..] + rest;
      WordLenOfWord(t[1..], rest);
    }
  }

  lemma TokensOfWordFirst(t: string, rest: string)
    requires Word(t)
    requires rest == "" || IsSpace(rest[0])
    ensures TokensOf(t + rest) == [t] + TokensOf(rest)
  {
    WordLenOfWord(t, rest);
    var s := t + rest;
    assert s[0] == t[0];
    assert s[..|t|] == t && s[|t|..] == rest;
  }

  lemma JoinFirst(ts: seq<string>)
    requires |ts| > 1
    ensures Join(ts) == ts[0] + (" " + Join(ts[1..]))
  {
    JoinConcat([ts[0]], ts[1..]);
    assert ts == [ts[0]] + ts[1..];
  }

  /** Tokens with white space before, between and after them. */
  function Spaced(gaps: seq<string>, ts: seq<string>): string
    requires |gaps| == |ts| + 1
  {
    if ts == [] then gaps[0] else gaps[0] + (ts[0] + Spaced(gaps[1..], ts[1..]))
  }

  lemma {:induction false} SpacesSkipped(gap: string, rest: string)
    requires AllSpace(gap)
    ensures TokensOf(gap + rest) == TokensOf(rest)
  {
    if gap == "" {
      assert gap + rest == rest;
    } else {
      SpacesSkipped(gap[1..], rest);
      assert (gap + rest)[0] == gap[0] && (gap + rest)[1..] == gap[1..] + rest;
    }
  }

  lemma NoTokens()
    ensures TokensOf("") == []
  {
  }

  /** Every text is tokens in white space, and splitting finds exactly those tokens: white
      space of any kind and amount separates them, and nothing else does. */
  lemma {:induction false} TokensOfSpaced(gaps: seq<string>, ts: seq<string>)
    requires |gaps| == |ts| + 1 && Clean(ts)
    requires forall i :: 0 <= i < |gaps| ==> AllSpace(gaps[i])
    requires forall i :: 0 < i < |ts| ==> gaps[i] != ""
    ensures TokensOf(Spaced(gaps, ts)) == ts
    decreases |ts|
  {
    hide TokensOf;
    if ts == [] {
      SpacesSkipped(gaps[0], "");
      assert gaps[0] + "" == gaps[0];
      NoTokens();
    } else {
      var rest := Spaced(gaps[1..], ts[1..]);
      SpacesSkipped(gaps[0], ts[0] + rest);
      assert rest == "" || IsSpace(rest[0]) by {
        assert gaps[1..][0] == gaps[1];
      }
      TokensOfWordFirst(ts[0], rest);
      TokensOfSpaced(gaps[1..], ts[1..]);
    }
  }

  /** Normalising loses nothing: the tokens of the joined text are the tokens joined. */
  lemma {:induction false} TokensOfJoin(ts: seq<string>)
    requires Clean(ts)
    ensures TokensOf(Join(ts)) == ts
    decreases |ts|
  {
    if |ts| == 1 {
      TokensOfWordFirst(ts[0], "");
      assert ts[0] + "" == ts[0];
    } else if |ts| > 1 {
      JoinFirst(ts);
      var tail := " " + Join(ts[1..]);
      TokensOfWordFirst(ts[0], tail);
      assert tail[1..] == Join(ts[1..]);
      TokensOfJoin(ts[1..]);
    }
  }

  /** The non-space characters of a text, in order. */
  function Ink(s: string): string {
    if s == "" then "" else (if IsSpace(s[0]) then "" else [s[0]]) + Ink(s[1..])
  }

  lemma InkFirst(c: char, s: string)
    ensures Ink([c] + s) == (if IsSpace(c) then "" else [c]) + Ink(s)
  {
    assert ([c] + s)[1..] == s;
  }

  lemma {:induction false} InkConcat(s: string, t: string)
    ensures Ink(s + t) == Ink(s) + Ink(t)
  {
    if s == "" {
      assert s + t == t;
    } else {
      hide Ink, IsSpace;
      InkConcat(s[1..], t);
      var c, rest := s[0], s[1..];
      InkFirst(c, rest);
      InkFirst(c, rest + t);
      Regroup([c], rest, t);
      Regroup(if IsSpace(c) then "" else [c], Ink(rest), Ink(t));
      assert s == [c] + rest;
    }
  }

  lemma {:induction false} InkOfWord(s: string)
    requires NoSpace(s)
    ensures Ink(s) == s
  {
    if s != "" {
      InkOfWord(s[1..]);
    }
  }

  lemma InkOfJoinFirst(t: string, rest: seq<string>)
    requires NoSpace(t)
    ensures Ink(Join([t] + rest)) == t + Ink(Join(rest))
  {
    InkOfWord(t);
    if rest == [] {
      assert [t] + rest == [t];
    } else {
      JoinConcat([t], rest);
      InkConcat(t, " " + Join(rest));
      assert t + " " + Join(rest) == t + (" " + Join(rest));
      assert (" " + Join(rest))[1..] == Join(rest);
    }
  }

  /** Normalising keeps exactly the non-space characters, in order. */
  lemma {:induction false} NormalizedKeepsInk(s: string)
    ensures Ink(Normalized(s)) == Ink(s)
    decreases |s|
  {
    if s == "" {
    } else if IsSpace(s[0]) {
      NormalizedKeepsInk(s[1..]);
    } else {
      var n := WordLen(s);
      NormalizedKeepsInk(s[n..]);
      WordLenIsWord(s);
      InkOfJoinFirst(s[..n], TokensOf(s[n..]));
      InkConcat(s[..n], s[n..]);
      InkOfWord(s[..n]);
      assert s == s[..n] + s[n..];
    }
  }

  lemma {:induction false} SkipSpaces(s: string, lo: nat, hi: nat)
    requires lo <= hi <= |s|
    requires forall i :: lo <= i < hi ==> IsSpace(s[i])
    ensures TokensOf(s[lo..]) == TokensOf(s[hi..])
    decreases hi - lo
  {
    if lo < hi {
      assert s[lo..][1..] == s[lo + 1..];
      SkipSpaces(s, lo + 1, hi);
    }
  }

  lemma TakeWord(s: string, lo: nat, hi: nat)
    requires lo < hi <= |s|
    requires forall i :: lo <= i < hi ==> !IsSpace(s[i])
    requires hi < |s| ==> IsSpace(s[hi])
    ensures TokensOf(s[lo..]) == [s[lo..hi]] + TokensOf(s[hi..])
  {
    TokensOfWordFirst(s[lo..hi], s[hi..]);
    assert s[lo..] == s[lo..hi] + s[hi..];
  }

  /** The scanner of chunk.go: it walks the text once, keeping only a position. */
  class TokenScanner {
    const s: string
    var at: nat

    ghost predicate Valid() reads this { at <= |s| }

    /** What is still to be scanned. */
    function Rest(): seq<string>
      requires Valid()
      reads this
    {
      TokensOf(s[at..])
    }

    constructor (s: string)
      ensures Valid() && this.s == s && Rest() == TokensOf(s)
    {
      this.s := s;
      this.at := 0;
      new;
      assert s[0..] == s;
    }

    method Next() returns (tok: string, ok: bool)
      requires Valid()
      modifies this
      ensures Valid()
      ensures ok ==> old(Rest()) == [tok] + Rest()
      ensures !ok ==> old(Rest()) == [] && at == |s|
    {
      while at < |s|
        invariant old(at) <= at <= |s|
        invariant forall i :: old(at) <= i < at ==> IsSpace(s[i])
      {
        if !IsSpace(s[at]) {
          break;
        }
        at := at + 1;
      }
      SkipSpaces(s, old(at), at);
      if at == |s| {
        return "", false;
      }
      var start := at;
      while at < |s|
        invariant start <= at <= |s|
        invariant forall i :: start <= i < at ==> !IsSpace(s[i])
        invariant at == start ==> !IsSpace(s[at])
      {
        if IsSpace(s[at]) {
          break;
        }
        at := at + 1;
      }
      tok, ok := s[start..at], true;
      TakeWord(s, start, at);
    }
  }
}
