/** The serial stream of serial.go: frames, the resynchronising reader and the writer. */
module Serial {
  import opened Octets

  const MAX_ENVELOPE_BYTES: nat := 512
  const MAGIC1: Byte := 0x94
  const MAGIC2: Byte := 0xc3

  function Header(n: nat): seq<Byte>
    requires n < 0x1_0000
  {
    [MAGIC1, MAGIC2, n / 256, n % 256]
  }

  function Frame(payload: seq<Byte>): seq<Byte>
    requires |payload| <= MAX_ENVELOPE_BYTES
  {
    Header(|payload|) + payload
  }

  // ----- reading

  /** What one turn of the read loop meets: a byte, a read that timed out, a failed read, or
      a cancelled context. */
  datatype Read = Got(b: Byte) | TimedOut | Broken | Cancelled

  datatype State = SeekFirst | SeekSecond | ReadLenHi | ReadLenLo(hi: Byte)
                 | ReadBody(want: nat, got: seq<Byte>)

  datatype Effect = Continue(s: State) | Received(body: seq<Byte>) | EmptyFrame

  function OnByte(s: State, b: Byte, decodes: seq<Byte> -> bool): Effect {
    match s
    case SeekFirst => Continue(if b == MAGIC1 then SeekSecond else SeekFirst)
    case SeekSecond =>
      Continue(if b == MAGIC2 then ReadLenHi else if b == MAGIC1 then SeekSecond else SeekFirst)
    case ReadLenHi => Continue(ReadLenLo(b))
    case ReadLenLo(hi) =>
      var want := hi * 256 + b;
      if want > MAX_ENVELOPE_BYTES then Continue(SeekFirst)
      else if want == 0 then EmptyFrame
      else Continue(ReadBody(want, []))
    case ReadBody(want, got) =>
      if |got| + 1 != want then Continue(ReadBody(want, got + [b]))
      else if decodes(got + [b]) then Received(got + [b])
      else Continue(SeekFirst)
  }

  datatype Outcome = Body(body: seq<Byte>) | Empty | ReadError | ContextError | TimeoutRefused

  /** One call, from state `s`: its outcome, and how many reads it used.  Input that has run
      out reads as an error. */
  function Receive(s: State, evs: seq<Read>, decodes: seq<Byte> -> bool): (r: (Outcome, nat))
    ensures r.1 <= |evs|
    decreases |evs|
  {
    if evs == [] then (ReadError, 0)
    else
      match evs[0]
      case Broken => (ReadError, 1)
      case Cancelled => (ContextError, 1)
      case TimedOut => var r := Receive(SeekFirst, evs[1..], decodes); (r.0, r.1 + 1)
      case Got(b) =>
        match OnByte(s, b, decodes)
        case Received(body) => (Body(body), 1)
        case EmptyFrame => (Empty, 1)
        case Continue(s') => var r := Receive(s', evs[1..], decodes); (r.0, r.1 + 1)
  }

  /** Calling again and again until an error: the bodies received. */
  function ReceiveAll(s: State, evs: seq<Read>, decodes: seq<Byte> -> bool): seq<seq<Byte>>
    decreases |evs|
  {
    if evs == [] then []
    else
      match evs[0]
      case Broken => []
      case Cancelled => []
      case TimedOut => ReceiveAll(SeekFirst, evs[1..], decodes)
      case Got(b) =>
        match OnByte(s, b, decodes)
        case Received(body) => [body] + ReceiveAll(SeekFirst, evs[1..], decodes)
        case EmptyFrame => []
        case Continue(s') => ReceiveAll(s', evs[1..], decodes)
  }

  /** Successive calls, each starting afresh after what the last one read. */
  lemma {:induction false} CallByCall(s: State, evs: seq<Read>, decodes: seq<Byte> -> bool)
    ensures var r := Receive(s, evs, decodes);
            ReceiveAll(s, evs, decodes) ==
              if r.0.Body? then [r.0.body] + ReceiveAll(SeekFirst, evs[r.1..], decodes) else []
    decreases |evs|
  {
    if evs != [] {
      var s' := if evs[0].TimedOut? then SeekFirst
                else if evs[0].Got? && OnByte(s, evs[0].b, decodes).Continue?
                then OnByte(s, evs[0].b, decodes).s else SeekFirst;
      CallByCall(s', evs[1..], decodes);
      var r := Receive(s', evs[1..], decodes);
      assert evs[1..][r.1..] == evs[r.1 + 1..];
    }
  }

  // ----- what a stream may hold

  function Bytes(bs: seq<Byte>): (rs: seq<Read>)
    ensures |rs| == |bs|
  {
    seq(|bs|, i requires 0 <= i < |bs| => Got(bs[i]))
  }

  /** Line noise and idle time: anything without the two magic bytes in a row. */
  predicate Noise(evs: seq<Read>) {
    && (forall i :: 0 <= i < |evs| ==> evs[i].Got? || evs[i].TimedOut?)
    && (forall i :: 0 <= i < |evs| - 1 ==>
          !(evs[i] == Got(MAGIC1) && evs[i + 1] == Got(MAGIC2)))
  }

  /** What may follow noise: a good frame, one that does not decode, the header of one that
      is too long, or one that breaks off and times out. */
  datatype Item = Good(body: seq<Byte>) | Garbled(body: seq<Byte>)
                | TooLong(n: nat) | BrokenOff(body: seq<Byte>, cut: nat)
  {
    predicate Sized() {
      match this
      case Good(body) => 0 < |body| <= MAX_ENVELOPE_BYTES
      case Garbled(body) => 0 < |body| <= MAX_ENVELOPE_BYTES
      case TooLong(n) => MAX_ENVELOPE_BYTES < n < 0x1_0000
      case BrokenOff(body, cut) => 0 < |body| <= MAX_ENVELOPE_BYTES && cut < 4 + |body|
    }

    predicate Valid(decodes: seq<Byte> -> bool) {
      Sized() && (Good? ==> decodes(body)) && (Garbled? ==> !decodes(body))
    }

    function Reads(): seq<Read>
      requires Sized()
    {
      match this
      case Good(body) => Bytes(Frame(body))
      case Garbled(body) => Bytes(Frame(body))
      case TooLong(n) => Bytes(Header(n))
      case BrokenOff(body, cut) => Bytes(Frame(body)[..cut]) + [TimedOut]
    }

    function Bodies(): seq<seq<Byte>> { if Good? then [body] else [] }
  }

  datatype Part = Part(noise: seq<Read>, item: Item)

  ghost predicate WellFormed(parts: seq<Part>, decodes: seq<Byte> -> bool) {
    forall i :: 0 <= i < |parts| ==> Noise(parts[i].noise) && parts[i].item.Valid(decodes)
  }

  function Stream(parts: seq<Part>, tail: seq<Read>, decodes: seq<Byte> -> bool): seq<Read>
    requires WellFormed(parts, decodes)
  {
    if parts == [] then tail
    else parts[0].noise + (parts[0].item.Reads() + Stream(parts[1..], tail, decodes))
  }

  function Bodies(parts: seq<Part>): seq<seq<Byte>> {
    if parts == [] then [] else parts[0].item.Bodies() + Bodies(parts[1..])
  }

  // ----- reading it back

  predicate Seeking(s: State) { s.SeekFirst? || s.SeekSecond? }

  lemma {:induction false} SkipsNoise(s: State, noise: seq<Read>, rest: seq<Read>,
                                      decodes: seq<Byte> -> bool) returns (s': State)
    requires Noise(noise) && Seeking(s)
    requires s.SeekSecond? && noise != [] ==> noise[0] != Got(MAGIC2)
    ensures Seeking(s')
    ensures ReceiveAll(s, noise + rest, decodes) == ReceiveAll(s', rest, decodes)
    decreases |noise|
  {
    s' := s;
    if noise == [] {
      assert noise + rest == rest;
    } else {
      var t := if noise[0] == Got(MAGIC1) then SeekSecond else SeekFirst;
      assert (noise + rest)[1..] == noise[1..] + rest;
      s' := SkipsNoise(t, noise[1..], rest, decodes);
    }
  }

  lemma ReadsByte(s: State, b: Byte, bs: seq<Byte>, rest: seq<Read>, decodes: seq<Byte> -> bool)
    requires OnByte(s, b, decodes).Continue?
    ensures ReceiveAll(s, Bytes([b] + bs) + rest, decodes)
         == ReceiveAll(OnByte(s, b, decodes).s, Bytes(bs) + rest, decodes)
  {
    assert (Bytes([b] + bs) + rest)[0] == Got(b);
    assert (Bytes([b] + bs) + rest)[1..] == Bytes(bs) + rest;
  }

  /** From any seek state the four header bytes are recognised. */
  lemma ReadsHeader(s: State, n: nat, bs: seq<Byte>, rest: seq<Read>, decodes: seq<Byte> -> bool)
    requires Seeking(s) && 0 < n < 0x1_0000
    ensures ReceiveAll(s, Bytes(Header(n) + bs) + rest, decodes)
         == ReceiveAll(if n > MAX_ENVELOPE_BYTES then SeekFirst else ReadBody(n, []),
                       Bytes(bs) + rest, decodes)
  {
    var hi: Byte, lo: Byte := n / 256, n % 256;
    assert Header(n) + bs == [MAGIC1] + ([MAGIC2] + ([hi] + ([lo] + bs)));
    ReadsByte(s, MAGIC1, [MAGIC2] + ([hi] + ([lo] + bs)), rest, decodes);
    ReadsByte(SeekSecond, MAGIC2, [hi] + ([lo] + bs), rest, decodes);
    ReadsByte(ReadLenHi, hi, [lo] + bs, rest, decodes);
    ReadsByte(ReadLenLo(hi), lo, bs, rest, decodes);
  }

  lemma {:induction false} ReadsBody(want: nat, got: seq<Byte>, more: seq<Byte>, rest: seq<Read>,
                                     decodes: seq<Byte> -> bool)
    requires more != [] && |got| + |more| == want
    ensures ReceiveAll(ReadBody(want, got), Bytes(more) + rest, decodes)
         == (if decodes(got + more) then [got + more] else []) + ReceiveAll(SeekFirst, rest, decodes)
    decreases |more|
  {
    var b, tail := more[0], more[1..];
    assert (Bytes(more) + rest)[0] == Got(b);
    assert (Bytes(more) + rest)[1..] == Bytes(tail) + rest;
    assert (got + [b]) + tail == got + more;
    if tail == [] {
      assert got + more == got + [b];
      assert Bytes(tail) + rest == rest;
    } else {
      ReadsBody(want, got + [b], tail, rest, decodes);
    }
  }

  /** No frame ends within these bytes. */
  predicate Incomplete(s: State, bs: seq<Byte>, decodes: seq<Byte> -> bool)
    decreases |bs|
  {
    bs == [] ||
    (var e := OnByte(s, bs[0], decodes); e.Continue? && Incomplete(e.s, bs[1..], decodes))
  }

  lemma {:induction false} IncompletePrefix(s: State, bs: seq<Byte>, n: nat, decodes: seq<Byte> -> bool)
    requires Incomplete(s, bs, decodes) && n <= |bs|
    ensures Incomplete(s, bs[..n], decodes)
    decreases n
  {
    if n > 0 {
      IncompletePrefix(OnByte(s, bs[0], decodes).s, bs[1..], n - 1, decodes);
      assert bs[..n][1..] == bs[1..][..n - 1];
    }
  }

  lemma {:induction false} IncompleteBody(want: nat, got: seq<Byte>, more: seq<Byte>,
                                          decodes: seq<Byte> -> bool)
    requires |got| + |more| < want
    ensures Incomplete(ReadBody(want, got), more, decodes)
    decreases |more|
  {
    if more != [] {
      IncompleteBody(want, got + [more[0]], more[1..], decodes);
    }
  }

  lemma IncompleteStep(s: State, b: Byte, bs: seq<Byte>, decodes: seq<Byte> -> bool)
    requires OnByte(s, b, decodes).Continue? && Incomplete(OnByte(s, b, decodes).s, bs, decodes)
    ensures Incomplete(s, [b] + bs, decodes)
  {
    assert ([b] + bs)[1..] == bs;
  }

  lemma FrameMinusOne(s: State, body: seq<Byte>, decodes: seq<Byte> -> bool)
    requires Seeking(s) && 0 < |body| <= MAX_ENVELOPE_BYTES
    ensures Incomplete(s, Frame(body)[..3 + |body|], decodes)
  {
    hide Incomplete;
    var n := |body|;
    var hi: Byte, lo: Byte, most := n / 256, n % 256, body[..n - 1];
    IncompleteBody(n, [], most, decodes);
    IncompleteStep(ReadLenLo(hi), lo, most, decodes);
    IncompleteStep(ReadLenHi, hi, [lo] + most, decodes);
    IncompleteStep(SeekSecond, MAGIC2, [hi] + ([lo] + most), decodes);
    IncompleteStep(s, MAGIC1, [MAGIC2] + ([hi] + ([lo] + most)), decodes);
    assert [MAGIC1] + ([MAGIC2] + ([hi] + ([lo] + most))) == Frame(body)[..3 + n];
  }

  /** A read that times out inside a frame brings the reader back to the start. */
  lemma {:induction false} TimeoutResets(s: State, bs: seq<Byte>, rest: seq<Read>,
                                         decodes: seq<Byte> -> bool)
    requires Incomplete(s, bs, decodes)
    ensures ReceiveAll(s, Bytes(bs) + [TimedOut] + rest, decodes) == ReceiveAll(SeekFirst, rest, decodes)
    decreases |bs|
  {
    var evs := Bytes(bs) + [TimedOut] + rest;
    if bs == [] {
      assert evs[1..] == rest;
    } else {
      TimeoutResets(OnByte(s, bs[0], decodes).s, bs[1..], rest, decodes);
      assert evs[1..] == Bytes(bs[1..]) + [TimedOut] + rest;
    }
  }

  lemma SkipsBrokenOff(s: State, body: seq<Byte>, cut: nat, rest: seq<Read>,
                       decodes: seq<Byte> -> bool)
    requires Seeking(s) && 0 < |body| <= MAX_ENVELOPE_BYTES && cut < 4 + |body|
    ensures ReceiveAll(s, Bytes(Frame(body)[..cut]) + [TimedOut] + rest, decodes)
         == ReceiveAll(SeekFirst, rest, decodes)
  {
    FrameMinusOne(s, body, decodes);
    IncompletePrefix(s, Frame(body)[..3 + |body|], cut, decodes);
    assert Frame(body)[..3 + |body|][..cut] == Frame(body)[..cut];
    TimeoutResets(s, Frame(body)[..cut], rest, decodes);
  }

  /** One item after noise: a good frame yields its body, the rest yield nothing, and the
      reader is back at the start. */
  lemma ReadsItem(s: State, item: Item, rest: seq<Read>, decodes: seq<Byte> -> bool)
    requires Seeking(s) && item.Valid(decodes)
    ensures ReceiveAll(s, item.Reads() + rest, decodes)
         == item.Bodies() + ReceiveAll(SeekFirst, rest, decodes)
  {
    hide OnByte, ReceiveAll, Header;
    match item
    case Good(body) =>
      ReadsHeader(s, |body|, body, rest, decodes);
      ReadsBody(|body|, [], body, rest, decodes);
      assert [] + body == body;
    case Garbled(body) =>
      ReadsHeader(s, |body|, body, rest, decodes);
      ReadsBody(|body|, [], body, rest, decodes);
      assert [] + body == body;
    case TooLong(n) =>
      ReadsHeader(s, n, [], rest, decodes);
      assert Header(n) + [] == Header(n) && Bytes([]) + rest == rest;
    case BrokenOff(body, cut) =>
      SkipsBrokenOff(s, body, cut, rest, decodes);
  }

  /** The reader takes one byte and goes on. */
  lemma TakesByte(s: State, b: Byte, evs: seq<Read>, decodes: seq<Byte> -> bool)
    requires evs != [] && evs[0] == Got(b) && OnByte(s, b, decodes).Continue?
    ensures var r := Receive(OnByte(s, b, decodes).s, evs[1..], decodes);
            Receive(s, evs, decodes) == (r.0, r.1 + 1)
  {
  }

  lemma {:induction false} TakesBody(want: nat, got: seq<Byte>, more: seq<Byte>, rest: seq<Read>,
                                     decodes: seq<Byte> -> bool)
    requires more != [] && |got| + |more| == want && decodes(got + more)
    ensures Receive(ReadBody(want, got), Bytes(more) + rest, decodes) == (Body(got + more), |more|)
    decreases |more|
  {
    var evs := Bytes(more) + rest;
    assert evs[0] == Got(more[0]) && evs[1..] == Bytes(more[1..]) + rest;
    assert (got + [more[0]]) + more[1..] == got + more;
    if |more| == 1 {
      assert got + more == got + [more[0]];
    } else {
      TakesBody(want, got + [more[0]], more[1..], rest, decodes);
      TakesByte(ReadBody(want, got), more[0], evs, decodes);
    }
  }

  /** The two magic bytes and the first byte of the length. */
  lemma TakesHeader(hi: Byte, evs: seq<Read>, decodes: seq<Byte> -> bool)
    ensures var r := Receive(ReadLenLo(hi), evs, decodes);
            Receive(SeekFirst, [Got(0x94), Got(0xc3), Got(hi)] + evs, decodes) == (r.0, r.1 + 3)
  {
    hide Receive;
    var e2 := [Got(hi)] + evs;
    var e1 := [Got(0xc3)] + e2;
    var all := [Got(0x94), Got(0xc3), Got(hi)] + evs;
    assert all == [Got(0x94)] + e1 && all[1..] == e1 && e1[1..] == e2 && e2[1..] == evs;
    TakesByte(SeekFirst, 0x94, all, decodes);
    TakesByte(SeekSecond, 0xc3, e1, decodes);
    TakesByte(ReadLenHi, hi, e2, decodes);
  }

  /** The wire format, as the reader takes it: two magic bytes, the length with its high byte
      first, and the body. */
  lemma FrameIsReceived(hi: Byte, lo: Byte, body: seq<Byte>, rest: seq<Read>, decodes: seq<Byte> -> bool)
    requires 1 <= |body| <= 512 && |body| == hi * 256 + lo && decodes(body)
    ensures var evs := [Got(0x94), Got(0xc3), Got(hi)] + ([Got(lo)] + (Bytes(body) + rest));
            && Receive(SeekFirst, evs, decodes) == (Body(body), 4 + |body|)
            && ReceiveAll(SeekFirst, evs, decodes) == [body] + ReceiveAll(SeekFirst, rest, decodes)
  {
    hide Receive, ReceiveAll;
    var end := [Got(lo)] + (Bytes(body) + rest);
    var evs := [Got(0x94), Got(0xc3), Got(hi)] + end;
    TakesHeader(hi, end, decodes);
    TakesByte(ReadLenLo(hi), lo, end, decodes);
    assert [] + body == body && end[1..] == Bytes(body) + rest;
    TakesBody(|body|, [], body, rest, decodes);
    CallByCall(SeekFirst, evs, decodes);
    assert evs[4 + |body|..] == rest;
  }

  /** The other lengths: an empty frame is an error, and a header over 512 is skipped. */
  lemma OddLengths(hi: Byte, lo: Byte, rest: seq<Read>, decodes: seq<Byte> -> bool)
    requires hi * 256 + lo == 0 || hi * 256 + lo > 512
    ensures var r := Receive(SeekFirst, rest, decodes);
            var evs := [Got(0x94), Got(0xc3), Got(hi)] + ([Got(lo)] + rest);
            Receive(SeekFirst, evs, decodes) == if hi * 256 + lo == 0 then (Empty, 4) else (r.0, r.1 + 4)
  {
    var end := [Got(lo)] + rest;
    TakesHeader(hi, end, decodes);
    if hi * 256 + lo > 512 {
      TakesByte(ReadLenLo(hi), lo, end, decodes);
      assert end[1..] == rest;
    }
  }

  /** Framing round trip and resynchronisation: from a stream of frames, in noise and among
      frames that are garbled, too long or broken off, exactly the good bodies are received,
      in order. */
  lemma {:induction false} StreamIsReadBack(parts: seq<Part>, tail: seq<Read>,
                                            decodes: seq<Byte> -> bool)
    requires WellFormed(parts, decodes) && Noise(tail)
    ensures ReceiveAll(SeekFirst, Stream(parts, tail, decodes), decodes) == Bodies(parts)
  {
    if parts == [] {
      var s := SkipsNoise(SeekFirst, tail, [], decodes);
      assert tail + [] == tail;
    } else {
      var rest := Stream(parts[1..], tail, decodes);
      var s := SkipsNoise(SeekFirst, parts[0].noise, parts[0].item.Reads() + rest, decodes);
      ReadsItem(s, parts[0].item, rest, decodes);
      StreamIsReadBack(parts[1..], tail, decodes);
    }
  }
}
