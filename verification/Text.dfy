/** Text as the channel sees it: a `string` is a sequence of Unicode scalar values,
    measured in the bytes of its UTF-8 encoding (RFC 3629, section 3). */
module Text {
  /** The number of bytes UTF-8 uses for one scalar value. */
  function RuneLen(c: char): (n: nat)
    ensures 1 <= n <= 4
  {
    var v := c as int;
    if v < 0x80 then 1 else if v < 0x800 then 2 else if v < 0x10000 then 3 else 4
  }

  /** Go's `unicode.IsSpace`: the code points with property White_Space. */
  predicate IsSpace(c: char) {
    var v := c as int;
    if v < 0x1680 then 0x09 <= v <= 0x0D || v == 0x20 || v == 0x85 || v == 0xA0
    else v == 0x1680 || 0x2000 <= v <= 0x200A || v in {0x2028, 0x2029, 0x202F, 0x205F, 0x3000}
  }

  predicate AllSpace(s: string) { forall i :: 0 <= i < |s| ==> IsSpace(s[i]) }

  function ByteLen(s: string): (n: nat)
    ensures n >= |s|
  {
    if s == "" then 0 else RuneLen(s[0]) + ByteLen(s[1..])
  }

  lemma {:induction false} ByteLenConcat(s: string, t: string)
    ensures ByteLen(s + t) == ByteLen(s) + ByteLen(t)
  {
    if s == "" {
      assert s + t == t;
    } else {
      ByteLenConcat(s[1..], t);
      assert (s + t)[1..] == s[1..] + t;
    }
  }

  /** Byte lengths of adjacent slices add up. */
  lemma ByteLenSplit(s: string, lo: nat, mid: nat, hi: nat)
    requires lo <= mid <= hi <= |s|
    ensures ByteLen(s[lo..hi]) == ByteLen(s[lo..mid]) + ByteLen(s[mid..hi])
  {
    ByteLenConcat(s[lo..mid], s[mid..hi]);
    assert s[lo..mid] + s[mid..hi] == s[lo..hi];
  }

  lemma {:induction false} AsciiByteLen(s: string)
    requires forall c :: c in s ==> (c as int) < 0x80
    ensures ByteLen(s) == |s|
  {
    if s != "" {
      assert s[0] in s;
      assert forall c :: c in s[1..] ==> c in s;
      AsciiByteLen(s[1..]);
    }
  }
}
