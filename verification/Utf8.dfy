/** The bytes behind a text (RFC 3629, section 3): what `ByteLen` measures. */
module Utf8 {
  import opened Text
  import opened Options
  import opened Octets

  /** The bytes of one scalar value: a lead byte, and six bits in each byte that follows. */
  function Encode(c: char): (bs: seq<Byte>)
    ensures |bs| == RuneLen(c)
  {
    var v := c as int;
    if v < 0x80 then [v]
    else if v < 0x800 then [0xC0 + v / 0x40, 0x80 + v % 0x40]
    else if v < 0x1_0000 then [0xE0 + v / 0x1000, 0x80 + v / 0x40 % 0x40, 0x80 + v % 0x40]
    else [0xF0 + v / 0x4_0000, 0x80 + v / 0x1000 % 0x40, 0x80 + v / 0x40 % 0x40, 0x80 + v % 0x40]
  }

  /** How many bytes a lead byte announces; zero for one that cannot lead. */
  function Announced(b: Byte): (n: nat)
    ensures n <= 4
  {
    if b < 0x80 then 1
    else if b < 0xC0 then 0
    else if b < 0xE0 then 2
    else if b < 0xF0 then 3
    else if b < 0xF8 then 4
    else 0
  }

  /** The bits that a lead byte carries itself. */
  function LeadBits(b: Byte): (v: nat) {
    if b < 0x80 then b else if b < 0xC0 then 0
    else if b < 0xE0 then b - 0xC0 else if b < 0xF0 then b - 0xE0
    else if b < 0xF8 then b - 0xF0 else 0
  }

  /** Six more bits for each of these bytes. */
  function MoreBits(v: nat, bs: seq<Byte>): Option<nat>
    decreases |bs|
  {
    if bs == [] then Some(v)
    else if 0x80 <= bs[0] < 0xC0 then MoreBits(v * 0x40 + (bs[0] - 0x80), bs[1..])
    else None
  }

  /** The least value that may take this many bytes: longer forms than needed are not UTF-8. */
  function Least(n: nat): nat { if n <= 1 then 0 else if n == 2 then 0x80 else if n == 3 then 0x800 else 0x1_0000 }

  predicate Scalar(v: int) { 0 <= v < 0xD800 || 0xE000 <= v < 0x11_0000 }

  /** The first character, and how many bytes it takes. */
  function DecodeFirst(bs: seq<Byte>): Option<(char, nat)> {
    if bs == [] then None
    else
      var n := Announced(bs[0]);
      if n == 0 || n > |bs| then None
      else
        var v := MoreBits(LeadBits(bs[0]), bs[1..n]);
        if v.None? || v.value < Least(n) || !Scalar(v.value) then None else Some((v.value as char, n))
  }

  function Decode(bs: seq<Byte>): Option<string>
    decreases |bs|
  {
    if bs == [] then Some("")
    else
      var first := DecodeFirst(bs);
      if first.None? || first.value.1 == 0 || first.value.1 > |bs| then None
      else
        var rest := Decode(bs[first.value.1..]);
        if rest.None? then None else Some([first.value.0] + rest.value)
  }

  function EncodeAll(s: string): seq<Byte> {
    if s == "" then [] else Encode(s[0]) + EncodeAll(s[1..])
  }

  lemma MoreOne(v: nat, a: Byte)
    requires 0x80 <= a < 0xC0
    ensures MoreBits(v, [a]) == Some(v * 0x40 + (a - 0x80))
  {
    assert [a][1..] == [];
  }

  lemma MoreTwo(v: nat, a: Byte, b: Byte)
    requires 0x80 <= a < 0xC0 && 0x80 <= b < 0xC0
    ensures MoreBits(v, [a, b]) == Some((v * 0x40 + (a - 0x80)) * 0x40 + (b - 0x80))
  {
    assert [a, b][1..] == [b];
    MoreOne(v * 0x40 + (a - 0x80), b);
  }

  lemma MoreThree(v: nat, a: Byte, b: Byte, d: Byte)
    requires 0x80 <= a < 0xC0 && 0x80 <= b < 0xC0 && 0x80 <= d < 0xC0
    ensures MoreBits(v, [a, b, d])
         == Some(((v * 0x40 + (a - 0x80)) * 0x40 + (b - 0x80)) * 0x40 + (d - 0x80))
  {
    assert [a, b, d][1..] == [b, d];
    MoreTwo(v * 0x40 + (a - 0x80), b, d);
  }

  /** Splitting off six bits at a time loses nothing. */
  lemma SixBits(v: nat)
    ensures v == v / 0x40 * 0x40 + v % 0x40
    ensures v / 0x1000 == v / 0x40 / 0x40 && v / 0x4_0000 == v / 0x1000 / 0x40
  {
  }

  lemma EncodeReads(c: char)
    ensures var bs := Encode(c);
            && Announced(bs[0]) == |bs| && Least(|bs|) <= c as int
            && MoreBits(LeadBits(bs[0]), bs[1..]) == Some(c as int)
  {
    var v, bs := c as int, Encode(c);
    SixBits(v);
    SixBits(v / 0x40);
    SixBits(v / 0x1000);
    if v < 0x80 {
      assert bs[1..] == [];
    } else if v < 0x800 {
      assert bs[1..] == [bs[1]];
      MoreOne(LeadBits(bs[0]), bs[1]);
    } else if v < 0x1_0000 {
      assert bs[1..] == [bs[1], bs[2]];
      MoreTwo(LeadBits(bs[0]), bs[1], bs[2]);
    } else {
      assert bs[1..] == [bs[1], bs[2], bs[3]];
      MoreThree(LeadBits(bs[0]), bs[1], bs[2], bs[3]);
    }
  }

  lemma FirstComesBack(c: char, rest: seq<Byte>)
    ensures DecodeFirst(Encode(c) + rest) == Some((c, RuneLen(c)))
  {
    var bs := Encode(c);
    EncodeReads(c);
    assert (bs + rest)[0] == bs[0];
    assert (bs + rest)[1..|bs|] == bs[1..];
  }

  /** The bytes of a text decode back to it, and `ByteLen` is their number. */
  lemma {:induction false} TextIsItsBytes(s: string)
    ensures |EncodeAll(s)| == ByteLen(s) && Decode(EncodeAll(s)) == Some(s)
  {
    if s != "" {
      hide Encode, DecodeFirst, RuneLen;
      TextIsItsBytes(s[1..]);
      FirstComesBack(s[0], EncodeAll(s[1..]));
      assert (Encode(s[0]) + EncodeAll(s[1..]))[RuneLen(s[0])..] == EncodeAll(s[1..]);
      assert s == [s[0]] + s[1..];
    }
  }
}
