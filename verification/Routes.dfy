/** Addresses: how an inbound packet's origin is printed, and how a reply's destination is
    parsed back from it. */
module Routes {
  import opened Text
  import opened Options
  import opened Numerals

  const BROADCAST_NODE: nat := 0xFFFF_FFFF
  const CHANNEL_PREFIX := "channel:"

  datatype Route = Route(direct: bool, destination: nat, channel: nat, proactiveDM: bool)

  /** Four bytes, printed as eight lower-case digits. */
  function NodeID(n: nat): string { "!" + Fixed(n, 8) }

  function GroupID(channel: nat): string { CHANNEL_PREFIX + Dec(channel) }

  function TrimLeft(s: string): string {
    if s != "" && IsSpace(s[0]) then TrimLeft(s[1..]) else s
  }

  function TrimRight(s: string): string {
    if s != "" && IsSpace(s[|s| - 1]) then TrimRight(s[..|s| - 1]) else s
  }

  function TrimSpace(s: string): string { TrimRight(TrimLeft(s)) }

  /** The channel index of a direct reply: the inbound one, or else the first configured. */
  function ReplyChannel(rawIndex: string, indices: seq<nat>): Option<(nat, bool)> {
    if rawIndex != "" then
      var idx := ParseUint(rawIndex, 10);
      if idx.None? || idx.value > 7 then None else Some((idx.value, false))
    else if indices == [] then None
    else Some((indices[0], true))
  }

  /** `parseRoute`; None is a refused ChatID or channel. */
  function ParseRoute(chat: string, rawIndex: string, indices: seq<nat>): Option<Route> {
    if TrimSpace(chat) != chat then None
    else if ByteLen(chat) == 9 && chat[0] == '!' then
      if exists i | 1 <= i < |chat| :: !Canonical(chat[i], 16) then None
      else
        var v := ParseUint(chat[1..], 16);
        if v.None? || v.value == 0 || v.value == BROADCAST_NODE then None
        else
          var ch := ReplyChannel(rawIndex, indices);
          if ch.None? then None
          else Some(Route(true, v.value, ch.value.0, ch.value.1))
    else if CHANNEL_PREFIX <= chat then
      var tail := chat[|CHANNEL_PREFIX|..];
      if tail == "" || tail[0] == '+' || (|tail| > 1 && tail[0] == '0') then None
      else
        var idx := ParseUint(tail, 10);
        if idx.None? || idx.value > 7 then None
        else Some(Route(false, BROADCAST_NODE, idx.value, false))
    else None
  }

  /** `parseReplyID`; zero stands for no reply, None for a malformed id. */
  function ParseReplyID(messageID: string, replyTo: string): Option<nat> {
    var s := if TrimSpace(messageID) == "" then TrimSpace(replyTo) else TrimSpace(messageID);
    if s == "" then Some(0)
    else
      var v := ParseUint(s, 10);
      if v.None? || v.value == 0 then None else v
  }

  lemma TrimKeeps(s: string)
    requires s != "" && !IsSpace(s[0]) && !IsSpace(s[|s| - 1])
    ensures TrimSpace(s) == s
  {
  }

  lemma {:induction false} TrimLeftSkips(s: string, t: string)
    requires AllSpace(s) && (t == "" || !IsSpace(t[0]))
    ensures TrimLeft(s + t) == t
  {
    if s == "" {
      assert s + t == t;
    } else {
      assert (s + t)[0] == s[0] && (s + t)[1..] == s[1..] + t;
      TrimLeftSkips(s[1..], t);
    }
  }

  lemma {:induction false} TrimRightSkips(t: string, s: string)
    requires AllSpace(s) && (t == "" || !IsSpace(t[|t| - 1]))
    ensures TrimRight(t + s) == t
    decreases |s|
  {
    if s == "" {
      assert t + s == t;
    } else {
      var n := |s| - 1;
      assert (t + s)[|t| + n] == s[n] && (t + s)[..|t| + n] == t + s[..n];
      TrimRightSkips(t, s[..n]);
    }
  }

  /** Trimming takes off the white space around a text and nothing else. */
  lemma TrimsAround(l: string, t: string, r: string)
    requires AllSpace(l) && AllSpace(r) && (t == "" || (!IsSpace(t[0]) && !IsSpace(t[|t| - 1])))
    ensures TrimSpace(l + t + r) == t
  {
    if t == "" {
      assert l + t + r == (l + r) + "";
      TrimLeftSkips(l + r, "");
    } else {
      assert l + t + r == l + (t + r);
      TrimLeftSkips(l, t + r);
      TrimRightSkips(t, r);
    }
  }

  lemma CanonicalIsInk(c: char, b: nat)
    requires Canonical(c, b)
    ensures !IsSpace(c) && (c as int) < 0x80
  {
  }

  lemma PowEight()
    ensures Pow(16, 8) == UINT32_MAX + 1
  {
    assert Pow(16, 4) == 0x1_0000;
  }

  lemma NodeIDParses(n: nat)
    requires n <= UINT32_MAX
    ensures ParseUint(Fixed(n, 8), 16) == Some(n)
  {
    hide Fixed, Digits;
    FixedRoundTrip(n, 8);
    PowEight();
  }

  /** A printed node id is nine bytes, parses, and is not trimmed. */
  lemma NodeIDShape(n: nat)
    requires n <= UINT32_MAX
    ensures ByteLen(NodeID(n)) == 9 && TrimSpace(NodeID(n)) == NodeID(n)
    ensures NodeID(n)[1..] == Fixed(n, 8) && ParseUint(Fixed(n, 8), 16) == Some(n)
    ensures forall i :: 1 <= i < 9 ==> Canonical(NodeID(n)[i], 16)
  {
    assert !IsSpace('!');
    hide Fixed, ParseUint, ByteLen, Canonical, IsSpace, TrimSpace;
    FixedCanonical(n, 8);
    NodeIDParses(n);
    var s := NodeID(n);
    forall i | 1 <= i < 9
      ensures Canonical(s[i], 16)
    {
      assert s[i] == Fixed(n, 8)[i - 1];
    }
    forall c | c in s
      ensures (c as int) < 0x80
    {
      var i :| 0 <= i < 9 && s[i] == c;
      if i > 0 {
        CanonicalIsInk(c, 16);
      }
    }
    AsciiByteLen(s);
    CanonicalIsInk(s[8], 16);
    TrimKeeps(s);
  }

  lemma DigitsAreAscii(chat: string)
    requires chat != "" && chat[0] == '!' && forall i | 1 <= i < |chat| :: Canonical(chat[i], 16)
    ensures ByteLen(chat) == |chat|
  {
    hide IsSpace, ByteLen;
    forall c | c in chat
      ensures (c as int) < 0x80
    {
      var i :| 0 <= i < |chat| && chat[i] == c;
      if i > 0 {
        CanonicalIsInk(c, 16);
      }
    }
    AsciiByteLen(chat);
  }

  lemma AcceptedIsPrinted(chat: string)
    requires ByteLen(chat) == 9 && chat[0] == '!'
    requires forall i | 1 <= i < |chat| :: Canonical(chat[i], 16)
    ensures ParseUint(chat[1..], 16).Some? ==> chat == NodeID(ParseUint(chat[1..], 16).value)
  {
    DigitsAreAscii(chat);
    FixedParsed(chat[1..]);
    assert chat == "!" + chat[1..];
  }

  /** Addresses as they are printed: an exclamation mark and the number in base sixteen, behind
      zeros up to eight digits; or the word channel, a colon and the number in base ten. */
  lemma PrintedAddresses(n: nat)
    requires n <= 0xFFFF_FFFF
    ensures |Numeral(n, 16)| <= 8 && NodeID(n) == "!" + (Zeros(8 - |Numeral(n, 16)|) + Numeral(n, 16))
    ensures GroupID(n) == "channel:" + Numeral(n, 10)
  {
    PowEight();
    FixedIsPadded(n, 8);
  }

  /** A ChatID routes directly to node `n` exactly when it is that node's printed id, and the
      node is neither zero nor the broadcast address. */
  lemma DirectRouteIff(chat: string, rawIndex: string, indices: seq<nat>, n: nat)
    requires n <= UINT32_MAX && ReplyChannel(rawIndex, indices).Some?
    ensures (ParseRoute(chat, rawIndex, indices).Some?
             && ParseRoute(chat, rawIndex, indices).value.direct
             && ParseRoute(chat, rawIndex, indices).value.destination == n)
       <==> (chat == NodeID(n) && n != 0 && n != BROADCAST_NODE)
  {
    NodeIDShape(n);
    var r := ParseRoute(chat, rawIndex, indices);
    if r.Some? && r.value.direct && r.value.destination == n {
      AcceptedIsPrinted(chat);
    }
  }

  /** Where a direct reply goes, in full: on the inbound packet's channel if one is given, which
      then has to be a number up to seven, and otherwise on the first configured channel. */
  lemma DirectRouteInFull(n: nat, rawIndex: string, indices: seq<nat>)
    requires 0 < n < 0xFFFF_FFFF
    ensures rawIndex == "" ==>
      ParseRoute(NodeID(n), rawIndex, indices) ==
        if indices == [] then None else Some(Route(true, n, indices[0], true))
    ensures rawIndex != "" ==>
      ParseRoute(NodeID(n), rawIndex, indices) ==
        match Digits(rawIndex, 10)
        case Some(k) => (if k <= 7 then Some(Route(true, n, k, false)) else None)
        case None => None
  {
    NodeIDShape(n);
  }

  /** A ChatID routes to the group on channel `idx` exactly when it is that printed group id. */
  lemma GroupRouteIff(chat: string, rawIndex: string, indices: seq<nat>, idx: nat)
    ensures ParseRoute(chat, rawIndex, indices) == Some(Route(false, BROADCAST_NODE, idx, false))
       <==> (chat == GroupID(idx) && idx <= 7)
  {
    if chat == GroupID(idx) && idx <= 7 {
      assert Dec(idx) == [Digit(idx)];
      assert chat[|CHANNEL_PREFIX|..] == Dec(idx);
      ParsePrinted(idx, 10);
      CanonicalIsInk(chat[8], 10);
      TrimKeeps(chat);
    }
    if ParseRoute(chat, rawIndex, indices) == Some(Route(false, BROADCAST_NODE, idx, false)) {
      PrintParsed(chat[|CHANNEL_PREFIX|..]);
      assert chat == CHANNEL_PREFIX + chat[|CHANNEL_PREFIX|..];
    }
  }

  /** There are no other routes: what is routed at all is a printed node or group id. */
  lemma EveryRoute(chat: string, rawIndex: string, indices: seq<nat>)
    requires ParseRoute(chat, rawIndex, indices).Some?
    ensures var r := ParseRoute(chat, rawIndex, indices).value;
            if r.direct then 0 < r.destination < 0xFFFF_FFFF && chat == NodeID(r.destination)
            else r == Route(false, 0xFFFF_FFFF, r.channel, false) && r.channel <= 7 && chat == GroupID(r.channel)
  {
    var r := ParseRoute(chat, rawIndex, indices).value;
    if r.direct {
      AcceptedIsPrinted(chat);
    } else {
      GroupRouteIff(chat, rawIndex, indices, r.channel);
    }
  }

  // ----- replies

  /** What `handleInboundPacket` writes down about a packet's origin. */
  datatype Origin = Origin(chatID: string, rawIndex: string, messageID: string)

  function OriginOf(sender: nat, group: bool, channel: nat, packetID: nat): Origin {
    Origin(if group then GroupID(channel) else NodeID(sender), Dec(channel), Dec(packetID))
  }

  lemma DecTrims(n: nat)
    ensures TrimSpace(Dec(n)) == Dec(n)
  {
    DecIsAscii(n);
    CanonicalIsInk(Dec(n)[0], 10);
    CanonicalIsInk(Dec(n)[|Dec(n)| - 1], 10);
    TrimKeeps(Dec(n));
  }

  /** Replies go back where the packet came from: to the sender, or to the group, on the same
      channel and naming the packet.  Only a direct packet that claims to come from the
      broadcast address, or from node zero, cannot be answered. */
  lemma ReplyReturns(sender: nat, group: bool, channel: nat, packetID: nat,
                     replyTo: string, indices: seq<nat>)
    requires sender <= UINT32_MAX && channel <= 7 && 0 < packetID <= UINT32_MAX
    ensures var o := OriginOf(sender, group, channel, packetID);
            && ParseRoute(o.chatID, o.rawIndex, indices) ==
                 (if group then Some(Route(false, BROADCAST_NODE, channel, false))
                  else if sender == 0 || sender == BROADCAST_NODE then None
                  else Some(Route(true, sender, channel, false)))
            && ParseReplyID(o.messageID, replyTo) == Some(packetID)
  {
    var o := OriginOf(sender, group, channel, packetID);
    ParsePrinted(packetID, 10);
    DecTrims(packetID);
    ParsePrinted(channel, 10);
    if group {
      GroupRouteIff(o.chatID, o.rawIndex, indices, channel);
    } else {
      NodeIDShape(sender);
      DirectRouteIff(o.chatID, o.rawIndex, indices, sender);
    }
  }

  /** A reply id that is there. */
  function ReadID(t: string): Option<nat> {
    var v := Digits(t, 10);
    if v.Some? && 1 <= v.value <= 0xFFFF_FFFF then v else None
  }

  /** The reply id in full.  `l` and `r` are the white space around an id text `t`: the message
      id is read unless it is blank, and else the older field; nothing at all stands for no
      reply; and what is there has to be a number from one to the largest of 32 bits. */
  lemma ReplyIDInFull(l: string, t: string, r: string, other: string)
    requires AllSpace(l) && AllSpace(r) && (t == "" || (!IsSpace(t[0]) && !IsSpace(t[|t| - 1])))
    ensures t != "" ==> ParseReplyID(l + t + r, other) == ReadID(t)
    ensures t != "" && AllSpace(other) ==> ParseReplyID(other, l + t + r) == ReadID(t)
    ensures t == "" && AllSpace(other) ==> ParseReplyID(l + t + r, other) == Some(0)
  {
    TrimsAround(l, t, r);
    if AllSpace(other) {
      TrimsAround(other, "", "");
      assert other + "" + "" == other;
    }
  }
}
