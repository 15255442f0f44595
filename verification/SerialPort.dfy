/** The reading and writing loops of serial.go, over a port with scripted behaviour. */
module SerialPort {
  import opened Octets
  import opened Serial

  /** What one `Write` does: bytes taken, whether it fails, and whether the context is
      cancelled before or during it. */
  datatype WriteTurn = WriteTurn(takes: nat, fails: bool, cancelledBefore: bool, cancelledAfter: bool)
  {
    /** Bytes taken of `len` offered. */
    function Taken(len: nat): (n: nat)
      ensures n <= len
    {
      if takes <= len then takes else len
    }

    /** Whether a write of `len` bytes has to be given up after this turn. */
    predicate Stops(len: nat) { cancelledBefore || fails || cancelledAfter || Taken(len) == 0 }
  }

  class Port {
    /** Reads to come. */
    var input: seq<Read>
    /** Whether the inter-byte timeout is set. */
    var armed: bool
    /** Whether the n-th `SetReadTimeout` fails. */
    const refuses: nat -> bool
    var timeoutCalls: nat
    /** Bytes given to the device so far. */
    var written: seq<Byte>
    /** How the n-th `Write` behaves. */
    const turns: nat -> WriteTurn
    var writeCalls: nat

    constructor (input: seq<Read>, refuses: nat -> bool, turns: nat -> WriteTurn)
      ensures this.input == input && this.refuses == refuses && this.turns == turns
      ensures written == [] && timeoutCalls == 0 && writeCalls == 0
    {
      this.input := input;
      this.armed := false;
      this.refuses := refuses;
      this.timeoutCalls := 0;
      this.written := [];
      this.turns := turns;
      this.writeCalls := 0;
    }

    /** The context check and one `Read`.  In the middle of a frame the inter-byte timeout
        has to be set, or a silent device would hang the reader. */
    method Next(ghost midFrame: bool) returns (r: Read)
      requires midFrame ==> armed
      modifies this`input
      ensures old(input) == [] ==> r == Broken && input == []
      ensures old(input) != [] ==> r == old(input)[0] && input == old(input)[1..]
    {
      if input == [] {
        return Broken;
      }
      r := input[0];
      input := input[1..];
    }

    method SetReadTimeout(interByte: bool) returns (ok: bool)
      modifies this`armed, this`timeoutCalls
      ensures timeoutCalls == old(timeoutCalls) + 1 && ok == !refuses(old(timeoutCalls))
      ensures armed == if ok then interByte else old(armed)
    {
      ok := !refuses(timeoutCalls);
      timeoutCalls := timeoutCalls + 1;
      if ok {
        armed := interByte;
      }
    }

    /** One `Write`: the device takes a prefix of `b`. */
    method Write(b: seq<Byte>) returns (n: nat, failed: bool)
      modifies this`written, this`writeCalls
      ensures n == turns(old(writeCalls)).Taken(|b|) && failed == turns(old(writeCalls)).fails
      ensures n <= |b| && written == old(written) + b[..n]
      ensures writeCalls == old(writeCalls) + 1
    {
      var turn := turns(writeCalls);
      writeCalls := writeCalls + 1;
      n, failed := turn.Taken(|b|), turn.fails;
      written := written + b[..n];
    }
  }

  // ----- the reader

  datatype Phase = First | Second | LenHi | LenLo | InBody

  function Abstract(phase: Phase, hi: Byte, want: nat, got: seq<Byte>): State {
    match phase
    case First => SeekFirst
    case Second => SeekSecond
    case LenHi => ReadLenHi
    case LenLo => ReadLenLo(hi)
    case InBody => ReadBody(want, got)
  }

  predicate Suffix(left: seq<Read>, start: seq<Read>) {
    |left| <= |start| && left == start[|start| - |left|..]
  }

  lemma SuffixNext(left: seq<Read>, start: seq<Read>)
    requires Suffix(left, start)
    ensures left != [] ==> Suffix(left[1..], start)
    ensures |left| <= |start|
  {
  }

  /** What is left of a call after `done` of its reads have led to state `s`. */
  ghost predicate Reached(start: seq<Read>, s: State, left: seq<Read>, decodes: seq<Byte> -> bool) {
    && Suffix(left, start)
    && var r := Receive(s, left, decodes);
       Receive(SeekFirst, start, decodes) == (r.0, |start| - |left| + r.1)
  }

  lemma OneRead(start: seq<Read>, s: State, left: seq<Read>, s': State, decodes: seq<Byte> -> bool)
    requires left != [] && Reached(start, s, left, decodes)
    requires left[0] == TimedOut ==> s' == SeekFirst
    requires left[0].Got? ==> OnByte(s, left[0].b, decodes) == Continue(s')
    requires left[0].Got? || left[0].TimedOut?
    ensures Reached(start, s', left[1..], decodes)
  {
  }

  lemma Begin(start: seq<Read>, decodes: seq<Byte> -> bool)
    ensures Reached(start, SeekFirst, start, decodes) && Suffix(start, start)
  {
  }

  lemma NothingLeft(start: seq<Read>, s: State, decodes: seq<Byte> -> bool)
    requires Reached(start, s, [], decodes)
    ensures Receive(SeekFirst, start, decodes) == (ReadError, |start|)
  {
  }

  /** Reads that end a call. */
  predicate Ends(s: State, r: Read, out: Outcome, decodes: seq<Byte> -> bool) {
    match r
    case TimedOut => false
    case Broken => out == ReadError
    case Cancelled => out == ContextError
    case Got(b) =>
      match OnByte(s, b, decodes)
      case Continue(_) => false
      case Received(body) => out == Body(body)
      case EmptyFrame => out == Empty
  }

  lemma EndsNow(s: State, left: seq<Read>, out: Outcome, decodes: seq<Byte> -> bool)
    requires left != [] && Ends(s, left[0], out, decodes)
    ensures Receive(s, left, decodes) == (out, 1)
  {
    hide OnByte;
  }

  lemma LastRead(start: seq<Read>, s: State, left: seq<Read>, out: Outcome, decodes: seq<Byte> -> bool)
    requires left != [] && Reached(start, s, left, decodes) && Ends(s, left[0], out, decodes)
    ensures Receive(SeekFirst, start, decodes) == (out, |start| - |left| + 1)
  {
    hide Receive, OnByte;
    EndsNow(s, left, out, decodes);
  }

  /** `ReceiveFromRadio`: reads until one frame body decodes, or an error. */
  method ReceiveFromRadio(p: Port, decodes: seq<Byte> -> bool) returns (out: Outcome)
    modifies p`input, p`armed, p`timeoutCalls
    ensures Suffix(p.input, old(p.input))
    ensures old(p.timeoutCalls) <= p.timeoutCalls
    ensures out == TimeoutRefused ==> old(p.timeoutCalls) < p.timeoutCalls && p.refuses(p.timeoutCalls - 1)
    ensures out != TimeoutRefused ==>
      Receive(SeekFirst, old(p.input), decodes) == (out, |old(p.input)| - |p.input|)
  {
    hide Receive, Reached, Suffix;
    ghost var start := p.input;
    var state := First;
    var hi: Byte := 0;
    var body := new Byte[MAX_ENVELOPE_BYTES];
    var want: nat, have: nat := 0, 0;
    ghost var s := SeekFirst;
    Begin(start, decodes);
    while true
      invariant state == InBody ==> have < want <= MAX_ENVELOPE_BYTES
      invariant state != First ==> p.armed
      invariant old(p.timeoutCalls) <= p.timeoutCalls
      invariant s == Abstract(state, hi, want, if state == InBody then body[..have] else [])
      invariant Suffix(p.input, start)
      invariant Reached(start, s, p.input, decodes)
      decreases |p.input|
    {
      ghost var left := p.input;
      SuffixNext(left, start);
      var r := p.Next(state != First);
      match r {
        case Cancelled =>
          LastRead(start, s, left, ContextError, decodes);
          return ContextError;
        case Broken =>
          if left == [] {
            NothingLeft(start, s, decodes);
          } else {
            LastRead(start, s, left, ReadError, decodes);
          }
          return ReadError;
        case TimedOut =>
          OneRead(start, s, left, SeekFirst, decodes);
          s := SeekFirst;
          if state != First {
            state, have, want := First, 0, 0;
            var ok := p.SetReadTimeout(false);
            if !ok {
              return TimeoutRefused;
            }
          }
        case Got(b) =>
          if state == First {
            if b != MAGIC1 {
              OneRead(start, s, left, SeekFirst, decodes);
              continue;
            }
            var ok := p.SetReadTimeout(true);
            if !ok {
              return TimeoutRefused;
            }
            OneRead(start, s, left, SeekSecond, decodes);
            s, state := SeekSecond, Second;
            continue;
          }
          var ok := p.SetReadTimeout(true);
          if !ok {
            return TimeoutRefused;
          }
          match state {
            case First =>
            case Second =>
              if b == MAGIC2 {
                state := LenHi;
              } else if b != MAGIC1 {
                state := First;
              }
            case LenHi =>
              hi, state := b, LenLo;
            case LenLo =>
              want := hi * 256 + b;
              if want > MAX_ENVELOPE_BYTES {
                state, want, have := First, 0, 0;
                ok := p.SetReadTimeout(false);
                if !ok {
                  return TimeoutRefused;
                }
              } else if want == 0 {
                LastRead(start, s, left, Empty, decodes);
                return Empty;
              } else {
                have, state := 0, InBody;
              }
            case InBody =>
              body[have] := b;
              have := have + 1;
              assert body[..have] == s.got + [b];
              if have == want {
                ok := p.SetReadTimeout(false);
                if !ok {
                  return TimeoutRefused;
                }
                if decodes(body[..want]) {
                  LastRead(start, s, left, Body(body[..want]), decodes);
                  return Body(body[..want]);
                }
                state, have, want := First, 0, 0;
              }
          }
          OneRead(start, s, left, Abstract(state, hi, want, if state == InBody then body[..have] else []), decodes);
          s := Abstract(state, hi, want, if state == InBody then body[..have] else []);
      }
    }
  }

  // ----- the writer

  /** The device allows the whole of `len` bytes to go out, from its `k`-th write on. */
  predicate GoesOut(turns: nat -> WriteTurn, k: nat, len: nat)
    decreases len
  {
    len == 0 || (!turns(k).Stops(len) && GoesOut(turns, k + 1, len - turns(k).Taken(len)))
  }

  /** `writeAll`: the bytes written, and whether that was without error.  It gives up only
      when a write fails, takes nothing, or is cancelled. */
  method WriteAll(p: Port, frame: seq<Byte>) returns (total: nat, ok: bool)
    modifies p`written, p`writeCalls
    ensures total <= |frame| && p.written == old(p.written) + frame[..total]
    ensures ok ==> total == |frame|
    ensures ok <==> GoesOut(p.turns, old(p.writeCalls), |frame|)
  {
    total := 0;
    var b := frame;
    while b != []
      invariant total <= |frame| && b == frame[total..]
      invariant p.written == old(p.written) + frame[..total]
      invariant GoesOut(p.turns, old(p.writeCalls), |frame|) == GoesOut(p.turns, p.writeCalls, |b|)
      decreases |b|
    {
      var turn := p.turns(p.writeCalls);
      if turn.cancelledBefore {
        return total, false;
      }
      ghost var was := total;
      var n, failed := p.Write(b);
      total := total + n;
      assert frame[..total] == frame[..was] + b[..n];
      if failed {
        return total, false;
      }
      if turn.cancelledAfter {
        return total, false;
      }
      if n <= 0 {
        return total, false;
      }
      b := b[n..];
    }
    return total, true;
  }

  /** How a send ended, as far as a retry may rely on it. */
  datatype SendResult = Sent | ZeroBytes | SomeBytes

  /** `SendToRadio` on a marshalled message.  It is classed as zero bytes exactly when it
      fails without a byte having gone out, and it succeeds only with the whole frame out. */
  method SendToRadio(p: Port, open: bool, payload: seq<Byte>) returns (r: SendResult)
    modifies p`written, p`writeCalls
    ensures old(p.written) <= p.written
    ensures r == ZeroBytes <==> p.written == old(p.written)
    ensures r == Sent ==> |payload| <= MAX_ENVELOPE_BYTES && p.written == old(p.written) + Frame(payload)
    ensures r == Sent ==>
      && old(p.written) <= p.written
      && var w := p.written[|old(p.written)|..];
         && |w| == 4 + |payload| && w[0] == 0x94 && w[1] == 0xc3
         && w[2] as int * 256 + w[3] as int == |payload| && w[4..] == payload
    ensures r == SomeBytes ==>
      && |payload| <= MAX_ENVELOPE_BYTES
      && p.written[|old(p.written)|..] != []
      && p.written[|old(p.written)|..] <= Frame(payload)
    ensures |payload| > MAX_ENVELOPE_BYTES || !open ==> r == ZeroBytes
    ensures |payload| <= MAX_ENVELOPE_BYTES && open ==>
      (r == Sent <==> GoesOut(p.turns, old(p.writeCalls), 4 + |payload|))
  {
    if |payload| > MAX_ENVELOPE_BYTES {
      return ZeroBytes;
    }
    var frame := [MAGIC1, MAGIC2, |payload| / 256, |payload| % 256] + payload;
    if !open {
      return ZeroBytes;
    }
    var n, ok := WriteAll(p, frame);
    if !ok {
      return if n != 0 then SomeBytes else ZeroBytes;
    }
    return Sent;
  }

  function Frames(payloads: seq<seq<Byte>>): seq<Byte>
    requires forall i :: 0 <= i < |payloads| ==> |payloads[i]| <= MAX_ENVELOPE_BYTES
  {
    if payloads == [] then [] else Frame(payloads[0]) + Frames(payloads[1..])
  }

  lemma BytesJoin(a: seq<Byte>, b: seq<Byte>)
    ensures Bytes(a + b) == Bytes(a) + Bytes(b)
  {
  }

  /** What one side writes in any number of sends, the other side reads back. */
  lemma SentIsReceived(payloads: seq<seq<Byte>>, decodes: seq<Byte> -> bool)
    requires forall i :: 0 <= i < |payloads| ==>
      0 < |payloads[i]| <= MAX_ENVELOPE_BYTES && decodes(payloads[i])
    ensures ReceiveAll(SeekFirst, Bytes(Frames(payloads)), decodes) == payloads
  {
    if payloads != [] {
      hide ReceiveAll, OnByte, Header, Frame, Bytes;
      var rest := payloads[1..];
      SentIsReceived(rest, decodes);
      ReadsItem(SeekFirst, Good(payloads[0]), Bytes(Frames(rest)), decodes);
      BytesJoin(Frame(payloads[0]), Frames(rest));
    } else {
      assert Bytes([]) == [];
    }
  }
}
