/** Numbers printed and parsed in base ten and sixteen, as `strconv` and `fmt` do. */
module Numerals {
  import opened Options

  const UINT32_MAX: nat := 0xFFFF_FFFF

  predicate Base(b: nat) { b == 10 || b == 16 }

  function Digit(d: nat): (c: char)
    requires d < 16
  {
    if d < 10 then '0' + d as char else 'a' + (d - 10) as char
  }

  /** The value of a digit; like ParseUint it also reads upper-case letters. */
  function DigitValue(c: char): Option<nat> {
    if '0' <= c <= '9' then Some((c - '0') as nat)
    else if 'a' <= c <= 'f' then Some((c - 'a') as nat + 10)
    else if 'A' <= c <= 'F' then Some((c - 'A') as nat + 10)
    else None
  }

  /** `n` in base `b`, without leading zeros. */
  function Numeral(n: nat, b: nat): (s: string)
    requires Base(b)
    ensures s != ""
  {
    if n < b then [Digit(n)] else Numeral(n / b, b) + [Digit(n % b)]
  }

  function Dec(n: nat): string { Numeral(n, 10) }

  /** The low `k` base-sixteen digits of `n`, with leading zeros. */
  function Fixed(n: nat, k: nat): (s: string)
    ensures |s| == k
  {
    if k == 0 then "" else Fixed(n / 16, k - 1) + [Digit(n % 16)]
  }

  function Digits(s: string, b: nat): Option<nat>
    requires Base(b)
  {
    if s == "" then Some(0)
    else
      var hi := Digits(s[..|s| - 1], b);
      var d := DigitValue(s[|s| - 1]);
      if hi.None? || d.None? || d.value >= b then None else Some(hi.value * b + d.value)
  }

  /** `strconv.ParseUint(s, b, 32)`. */
  function ParseUint(s: string, b: nat): Option<nat>
    requires Base(b)
  {
    if s == "" then None
    else
      var v := Digits(s, b);
      if v.Some? && v.value > UINT32_MAX then None else v
  }

  /** The digits as they are written. */
  lemma Glyphs(d: nat)
    requires d < 16
    ensures Digit(d) == "0123456789abcdef"[d]
    ensures DigitValue("0123456789abcdef"[d]) == DigitValue("0123456789ABCDEF"[d]) == Some(d)
  {
  }

  function Pow(b: nat, k: nat): nat { if k == 0 then 1 else b * Pow(b, k - 1) }

  lemma PowZero(b: nat)
    ensures Pow(b, 0) == 1
  {
  }

  lemma ShiftDigit(b: nat, d: nat, k: nat, low: nat, last: nat)
    requires Base(b)
    ensures (d * Pow(b, k) + low) * b + last == d * Pow(b, k + 1) + (low * b + last)
  {
    if b == 10 {
      assert Pow(10, k + 1) == 10 * Pow(10, k);
    } else {
      assert Pow(16, k + 1) == 16 * Pow(16, k);
    }
  }

  /** Numbers are read with the digit of highest value first. */
  lemma {:induction false} LeadingDigit(c: char, s: string, b: nat)
    requires Base(b) && Digits(s, b).Some? && DigitValue(c).Some? && DigitValue(c).value < b
    ensures Digits([c] + s, b) == Some(DigitValue(c).value * Pow(b, |s|) + Digits(s, b).value)
    decreases |s|
  {
    hide DigitValue, Pow;
    if s == "" {
      assert [c] + s == [c] && [c][..0] == "";
      PowZero(b);
    } else {
      var n := |s| - 1;
      LeadingDigit(c, s[..n], b);
      assert ([c] + s)[..|s|] == [c] + s[..n];
      ShiftDigit(b, DigitValue(c).value, n, Digits(s[..n], b).value, DigitValue(s[n]).value);
    }
  }

  lemma DigitRoundTrip(d: nat)
    requires d < 16
    ensures DigitValue(Digit(d)) == Some(d)
  {
  }

  lemma DivMod(q: nat, d: nat, b: nat)
    requires Base(b) && d < b
    ensures (q * b + d) / b == q && (q * b + d) % b == d
  {
    if b == 10 {
      assert (q * 10 + d) / 10 == q;
    } else {
      assert (q * 16 + d) / 16 == q;
    }
  }

  lemma DigitsSnoc(s: string, d: nat, b: nat)
    requires Base(b) && d < b && Digits(s, b).Some?
    ensures Digits(s + [Digit(d)], b) == Some(Digits(s, b).value * b + d)
  {
    hide Digit, DigitValue;
    assert (s + [Digit(d)])[..|s|] == s;
    DigitRoundTrip(d);
  }

  lemma {:induction false} NumeralRoundTrip(n: nat, b: nat)
    requires Base(b)
    ensures Digits(Numeral(n, b), b) == Some(n)
  {
    if n < b {
      DigitsSnoc("", n, b);
      assert "" + [Digit(n)] == [Digit(n)];
    } else {
      NumeralRoundTrip(n / b, b);
      DigitsSnoc(Numeral(n / b, b), n % b, b);
    }
  }

  lemma ParsePrinted(n: nat, b: nat)
    requires Base(b) && n <= UINT32_MAX
    ensures ParseUint(Numeral(n, b), b) == Some(n)
  {
    NumeralRoundTrip(n, b);
  }

  /** A digit as the printers write it. */
  predicate Canonical(c: char, b: nat) {
    '0' <= c <= '9' || (b == 16 && 'a' <= c <= 'f')
  }

  lemma CanonicalDigit(c: char, b: nat)
    requires Base(b) && DigitValue(c).Some? && DigitValue(c).value < b
    requires b == 16 ==> Canonical(c, b)
    ensures Digit(DigitValue(c).value) == c
  {
  }

  /** Strings of digits without a leading zero are exactly the printed numbers. */
  lemma {:induction false} PrintParsed(s: string)
    requires s != "" && Digits(s, 10).Some?
    requires |s| > 1 ==> s[0] != '0'
    ensures Dec(Digits(s, 10).value) == s
    ensures |s| > 1 ==> Digits(s, 10).value >= 10
  {
    var hi := s[..|s| - 1];
    var d := DigitValue(s[|s| - 1]).value;
    CanonicalDigit(s[|s| - 1], 10);
    if |s| == 1 {
      assert s == [s[0]];
    } else {
      PrintParsed(hi);
      DivMod(Digits(hi, 10).value, d, 10);
      if |hi| == 1 {
        assert hi == [hi[0]] && hi[..0] == "";
      }
      assert s == hi + [s[|s| - 1]];
    }
  }

  lemma {:induction false} FixedRoundTrip(n: nat, k: nat)
    ensures Digits(Fixed(n, k), 16).Some?
    ensures n < Pow(16, k) ==> Digits(Fixed(n, k), 16).value == n
  {
    if k > 0 {
      FixedRoundTrip(n / 16, k - 1);
      DigitsSnoc(Fixed(n / 16, k - 1), n % 16, 16);
    }
  }

  function Zeros(k: nat): string { if k == 0 then "" else Zeros(k - 1) + "0" }

  lemma {:induction false} FixedZero(k: nat)
    ensures Fixed(0, k) == Zeros(k)
  {
    if k > 0 {
      FixedZero(k - 1);
    }
  }

  /** Fixed-width digits are the number itself behind as many zeros as it takes. */
  lemma {:induction false} FixedIsPadded(n: nat, k: nat)
    requires n < Pow(16, k) && k > 0
    ensures |Numeral(n, 16)| <= k
    ensures Fixed(n, k) == Zeros(k - |Numeral(n, 16)|) + Numeral(n, 16)
  {
    if n < 16 {
      FixedZero(k - 1);
    } else {
      assert k > 1 by { assert Pow(16, 1) == 16; }
      FixedIsPadded(n / 16, k - 1);
      assert Zeros(k - |Numeral(n, 16)|) + Numeral(n, 16)
          == Zeros(k - |Numeral(n, 16)|) + Numeral(n / 16, 16) + [Digit(n % 16)];
    }
  }

  lemma {:induction false} FixedCanonical(n: nat, k: nat)
    ensures forall i :: 0 <= i < k ==> Canonical(Fixed(n, k)[i], 16)
  {
    if k > 0 {
      FixedCanonical(n / 16, k - 1);
    }
  }

  lemma {:induction false} FixedParsed(s: string)
    requires forall i :: 0 <= i < |s| ==> Canonical(s[i], 16)
    ensures Digits(s, 16).Some? && Digits(s, 16).value < Pow(16, |s|)
    ensures Fixed(Digits(s, 16).value, |s|) == s
  {
    if s != "" {
      var hi := s[..|s| - 1];
      var c := s[|s| - 1];
      FixedParsed(hi);
      CanonicalDigit(c, 16);
      DivMod(Digits(hi, 16).value, DigitValue(c).value, 16);
      assert s == hi + [c];
    }
  }

  /** Longer numbers never print shorter. */
  lemma {:induction false} DecWidthMonotone(m: nat, n: nat)
    requires m <= n
    ensures |Dec(m)| <= |Dec(n)|
  {
    if m >= 10 {
      assert |Dec(m)| == |Dec(m / 10)| + 1 && |Dec(n)| == |Dec(n / 10)| + 1;
      DecWidthMonotone(m / 10, n / 10);
    }
  }

  lemma {:induction false} DecIsAscii(n: nat)
    ensures forall i :: 0 <= i < |Dec(n)| ==> '0' <= Dec(n)[i] <= '9'
  {
    if n < 10 {
      assert Dec(n) == [Digit(n)];
    } else {
      DecIsAscii(n / 10);
      assert Dec(n) == Dec(n / 10) + [Digit(n % 10)];
    }
  }
}
