/** Text packets on their way to the agent: the filters of `handleInboundPacket`, the dedup
    cache in front of the queue, and the addresses written on each prompt. */
module Inbound {
  import opened Options
  import opened Numerals
  import opened Cache
  import opened Readiness
  import opened Routes

  const QUEUE_SIZE: nat := 64
  const DEDUP_CAPACITY: nat := 1000
  const DEDUP_TTL: int := 5 * 60_000

  datatype InboundKey = InboundKey(sender: nat, id: nat)
  datatype SentKey = SentKey(id: nat, channel: nat)

  /** A decoded text packet.  The answers of the text-level checks come with it: valid UTF-8,
      an allowed sender, a mention of this node, a matching prefix, and the prompt that is
      left after stripping (empty, or a refused command, drops it). */
  datatype TextPacket = TextPacket(
    sender: nat, dest: nat, id: nat, channel: nat, replyID: nat, emoji: bool,
    validUTF8: bool, allowed: bool, mentioned: bool, prefixed: bool,
    prompt: string, commandOK: bool)

  /** The group triggers of the configuration. */
  datatype Triggers = Triggers(indices: seq<nat>, mentionOnly: bool, havePrefixes: bool)

  datatype Prompt = Prompt(
    sender: nat, id: nat, group: bool, channel: nat, content: string, origin: Origin)

  /** The sender, with zero standing for the own node. */
  function Sender(l: Link, p: TextPacket): nat { if p.sender == 0 then l.ownNode else p.sender }

  predicate IsGroup(p: TextPacket) { p.dest == BROADCAST_NODE }

  /** Everything that is asked of a packet before the dedup cache. */
  predicate Admitted(t: Triggers, l: Link, p: TextPacket, native: bool) {
    && !p.emoji && l.ready && p.validUTF8 && p.id != 0
    && Sender(l, p) != l.ownNode
    && (p.dest == l.ownNode || IsGroup(p))
    && p.channel in l.channels && UsableRole(l.channels[p.channel])
    && (IsGroup(p) ==> p.channel in t.indices)
    && p.allowed
    && (p.dest == l.ownNode || native || p.mentioned
        || (!t.mentionOnly && (p.prefixed || !t.havePrefixes)))
    && p.prompt != "" && p.commandOK
  }

  function PromptOf(l: Link, p: TextPacket): Prompt {
    Prompt(Sender(l, p), p.id, IsGroup(p), p.channel, p.prompt,
           OriginOf(Sender(l, p), IsGroup(p), p.channel, p.id))
  }

  // ----- what has been received, by sender and packet id

  /** A packet that passed all filters and was not a repetition. */
  datatype Receipt = Receipt(sender: nat, id: nat, at: int)

  /** One of the last thousand receipts names this sender and packet id, and is less than five
      minutes old. */
  ghost predicate SeenBefore(recorded: seq<Receipt>, sender: nat, id: nat, now: int) {
    exists i: nat | |recorded| - 1000 <= i < |recorded| ::
      recorded[i].sender == sender && recorded[i].id == id && now - recorded[i].at < 5 * 60_000
  }

  /** Receipts are in time order, and none was seen before. */
  ghost predicate Proper(recorded: seq<Receipt>) {
    && (forall j :: 0 <= j < |recorded| ==>
          !SeenBefore(recorded[..j], recorded[j].sender, recorded[j].id, recorded[j].at))
    && (forall i, j :: 0 <= i <= j < |recorded| ==> recorded[i].at <= recorded[j].at)
  }

  /** The cache's insertions are the receipts. */
  ghost predicate Matches(recorded: seq<Receipt>, log: seq<Insertion<InboundKey>>) {
    && |recorded| == |log|
    && forall i :: 0 <= i < |log| ==>
         log[i] == Insertion(InboundKey(recorded[i].sender, recorded[i].id), recorded[i].at)
  }

  lemma SeenIsLive(recorded: seq<Receipt>, log: seq<Insertion<InboundKey>>, sender: nat, id: nat, now: int)
    requires Matches(recorded, log)
    ensures SeenBefore(recorded, sender, id, now)
       <==> Live(log, DEDUP_CAPACITY, DEDUP_TTL, InboundKey(sender, id), now)
  {
    var key := InboundKey(sender, id);
    if Live(log, DEDUP_CAPACITY, DEDUP_TTL, key, now) {
      var i: nat :| Recent(log, DEDUP_CAPACITY, i) && log[i].key == key && now - log[i].at < DEDUP_TTL;
      assert recorded[i].sender == sender;
    }
    if SeenBefore(recorded, sender, id, now) {
      var i: nat :| |recorded| - 1000 <= i < |recorded| && recorded[i].sender == sender
        && recorded[i].id == id && now - recorded[i].at < 5 * 60_000;
      assert Recent(log, DEDUP_CAPACITY, i) && log[i].key == key;
    }
  }

  lemma RecordedProperly(recorded: seq<Receipt>, log: seq<Insertion<InboundKey>>)
    requires Matches(recorded, log) && WellFormed(log, DEDUP_CAPACITY, DEDUP_TTL)
    ensures Proper(recorded)
  {
    hide Live, SeenBefore;
    forall j | 0 <= j < |recorded|
      ensures !SeenBefore(recorded[..j], recorded[j].sender, recorded[j].id, recorded[j].at)
    {
      assert Matches(recorded[..j], log[..j]);
      SeenIsLive(recorded[..j], log[..j], recorded[j].sender, recorded[j].id, recorded[j].at);
      assert !Live(log[..j], DEDUP_CAPACITY, DEDUP_TTL, log[j].key, log[j].at);
    }
  }

  lemma CacheIsWellFormed(cache: BoundedCache<InboundKey>)
    requires cache.Valid()
    ensures WellFormed(cache.log, cache.capacity, cache.ttl)
  {
  }

  /** Prompts sit at increasing places among the receipts, each at its own. */
  ghost predicate Logged(queued: seq<(Prompt, nat)>, recorded: seq<Receipt>) {
    && (forall i :: 0 <= i < |queued| ==>
          && queued[i].1 < |recorded|
          && recorded[queued[i].1].sender == queued[i].0.sender && recorded[queued[i].1].id == queued[i].0.id)
    && (forall i, j :: 0 <= i < j < |queued| ==> queued[i].1 < queued[j].1)
  }

  lemma MatchesMore(recorded: seq<Receipt>, log: seq<Insertion<InboundKey>>, e: Receipt)
    requires Matches(recorded, log)
    ensures Matches(recorded + [e], log + [Insertion(InboundKey(e.sender, e.id), e.at)])
  {
  }

  lemma PlacesWithin(queued: seq<(Prompt, nat)>, recorded: seq<Receipt>)
    requires Logged(queued, recorded)
    ensures forall i :: 0 <= i < |queued| ==> queued[i].1 < |recorded|
  {
  }

  lemma StillLogged(queued: seq<(Prompt, nat)>, recorded: seq<Receipt>, e: Receipt)
    requires Logged(queued, recorded)
    ensures Logged(queued, recorded + [e])
  {
  }

  lemma LoggedMore(queued: seq<(Prompt, nat)>, recorded: seq<Receipt>, e: Receipt, prompt: Prompt)
    requires Logged(queued, recorded + [e]) && e.sender == prompt.sender && e.id == prompt.id
    requires forall i :: 0 <= i < |queued| ==> queued[i].1 < |recorded|
    ensures Logged(queued + [(prompt, |recorded|)], recorded + [e])
  {
  }

  class Inbox {
    const triggers: Triggers
    const dedup: BoundedCache<InboundKey>
    const sentBot: BoundedCache<SentKey>
    var queue: seq<Prompt>
    var dropped: nat
    /** All receipts, and every prompt ever queued with the place of its receipt. */
    ghost var recorded: seq<Receipt>
    ghost var queued: seq<(Prompt, nat)>

    ghost predicate Valid()
      reads this, dedup, dedup.ring, sentBot, sentBot.ring
    {
      && dedup.Valid() && sentBot.Valid()
      && dedup as object != sentBot && dedup.ring as object != sentBot.ring
      && dedup.capacity == DEDUP_CAPACITY && dedup.ttl == DEDUP_TTL
      && |queue| <= QUEUE_SIZE
      && Matches(recorded, dedup.log) && Proper(recorded) && Logged(queued, recorded)
    }

    constructor (triggers: Triggers, dedup: BoundedCache<InboundKey>, sentBot: BoundedCache<SentKey>)
      requires dedup.Valid() && sentBot.Valid()
      requires dedup as object != sentBot && dedup.ring as object != sentBot.ring
      requires dedup.capacity == DEDUP_CAPACITY && dedup.ttl == DEDUP_TTL && dedup.log == []
      ensures Valid() && queue == [] && queued == [] && recorded == []
    {
      this.triggers, this.dedup, this.sentBot := triggers, dedup, sentBot;
      queue, dropped, queued, recorded := [], 0, [], [];
    }

    /** Whether a group packet replies to one the bot has sent. */
    method IsNative(p: TextPacket, now: int) returns (native: bool)
      requires Valid() && sentBot.clock <= now
      modifies sentBot
      ensures Valid() && sentBot.log == old(sentBot.log)
      ensures native == (IsGroup(p) && p.replyID != 0 &&
        Live(old(sentBot.log), sentBot.capacity, sentBot.ttl, SentKey(p.replyID, p.channel), now))
    {
      native := false;
      if IsGroup(p) && p.replyID != 0 {
        native := sentBot.Contains(SentKey(p.replyID, p.channel), now);
      }
    }

    /** What a packet that passed the filters leads to: nothing if it was seen before, and else
        a receipt, and its prompt in the queue if there is room. */
    twostate predicate Took(l: Link, p: TextPacket, now: int, passed: bool)
      reads this
    {
      var unseen := passed && !SeenBefore(old(recorded), Sender(l, p), p.id, now);
      var room := |old(queue)| < 64;
      && recorded == old(recorded) + (if unseen then [Receipt(Sender(l, p), p.id, now)] else [])
      && queue == old(queue) + (if unseen && room then [PromptOf(l, p)] else [])
      && queued == old(queued) + (if unseen && room then [(PromptOf(l, p), |old(recorded)|)] else [])
      && dropped == old(dropped) + (if unseen && !room then 1 else 0)
    }

    /** The call of the dedup cache: a packet that was not seen before leaves a receipt. */
    method IsRepetition(sender: nat, id: nat, now: int) returns (seen: bool)
      requires Valid() && dedup.clock <= now
      modifies this`recorded, dedup, dedup.ring
      ensures Valid()
      ensures seen == SeenBefore(old(recorded), sender, id, now)
      ensures recorded == old(recorded) + (if seen then [] else [Receipt(sender, id, now)])
    {
      hide Live, Matches, Proper, SeenBefore, WellFormed, Logged, BoundedCache.Valid;
      ghost var was, log := recorded, dedup.log;
      SeenIsLive(was, log, sender, id, now);
      seen := dedup.SeenOrAdd(InboundKey(sender, id), now);
      if !seen {
        recorded := recorded + [Receipt(sender, id, now)];
        MatchesMore(was, log, Receipt(sender, id, now));
        CacheIsWellFormed(dedup);
        RecordedProperly(recorded, dedup.log);
        StillLogged(queued, was, Receipt(sender, id, now));
      }
    }

    /** The last part of `handleInboundPacket`: dedup first, then the bounded queue. */
    method Enqueue(l: Link, p: TextPacket, now: int)
      requires Valid() && dedup.clock <= now
      modifies this`queue, this`dropped, this`queued, this`recorded, dedup, dedup.ring
      ensures Valid() && Took(l, p, now, true)
    {
      hide Logged, Matches, Proper, SeenBefore, BoundedCache.Valid, OriginOf;
      var prompt := PromptOf(l, p);
      ghost var was := recorded;
      PlacesWithin(queued, was);
      var seen := IsRepetition(prompt.sender, prompt.id, now);
      if seen {
        return;
      }
      if |queue| < QUEUE_SIZE {
        queue := queue + [prompt];
        LoggedMore(queued, was, Receipt(Sender(l, p), p.id, now), prompt);
        queued := queued + [(prompt, |was|)];
      } else {
        dropped := dropped + 1;
      }
    }

    /** `handleInboundPacket`. */
    method HandleInboundPacket(l: Link, p: TextPacket, now: int)
      requires Valid() && dedup.clock <= now && sentBot.clock <= now
      modifies this`queue, this`dropped, this`queued, this`recorded, dedup, dedup.ring, sentBot
      ensures Valid() && sentBot.log == old(sentBot.log)
      ensures var native := IsGroup(p) && p.replyID != 0 &&
                Live(old(sentBot.log), sentBot.capacity, sentBot.ttl, SentKey(p.replyID, p.channel), now);
              Took(l, p, now, Admitted(triggers, l, p, native))
      ensures |queue| > |old(queue)| ==>
        var q := queue[|old(queue)|];
        && q.sender == Sender(l, p) && q.id == p.id && q.channel == p.channel && q.content == p.prompt
        && (q.group <==> p.dest == 0xFFFF_FFFF)
    {
      hide Live, Logged, Matches, Proper, SeenBefore, BoundedCache.Valid, OriginOf;
      if p.emoji || !l.ready || !p.validUTF8 || p.id == 0 {
        return;
      }
      var sender := p.sender;
      if sender == 0 {
        sender := l.ownNode;
      }
      if sender == l.ownNode {
        return;
      }
      var direct, group := p.dest == l.ownNode, p.dest == BROADCAST_NODE;
      if !direct && !group {
        return;
      }
      if p.channel !in l.channels || !UsableRole(l.channels[p.channel]) {
        return;
      }
      if group && p.channel !in triggers.indices {
        return;
      }
      if !p.allowed {
        return;
      }
      var native := IsNative(p, now);
      if !direct {
        if !native && !p.mentioned && (triggers.mentionOnly || !p.prefixed)
           && (triggers.mentionOnly || triggers.havePrefixes) {
          return;
        }
      }
      if p.prompt == "" || !p.commandOK {
        return;
      }
      Enqueue(l, p, now);
    }

    /** The dispatcher takes the oldest prompt. */
    method Dispatch() returns (prompt: Option<Prompt>)
      requires Valid()
      modifies this`queue
      ensures Valid()
      ensures prompt == (if old(queue) == [] then None else Some(old(queue)[0]))
      ensures queue == if old(queue) == [] then [] else old(queue)[1..]
    {
      if queue == [] {
        return None;
      }
      prompt := Some(queue[0]);
      queue := queue[1..];
    }
  }

  /** At most once: between two prompts queued for the same sender and packet id, even with
      others dropped in between, five minutes passed or a thousand others were received. */
  lemma QueuedAtMostOnce(queued: seq<(Prompt, nat)>, recorded: seq<Receipt>, i: nat, j: nat) returns (m: nat)
    requires Logged(queued, recorded) && Proper(recorded)
    requires i < j < |queued| && queued[i].0.sender == queued[j].0.sender && queued[i].0.id == queued[j].0.id
    ensures queued[i].1 <= m < queued[j].1
    ensures recorded[queued[j].1].at - recorded[queued[i].1].at >= 5 * 60_000
         || (queued[j].1 - m - 1 >= 1000
             && forall k :: m < k < queued[j].1 ==>
                  recorded[k].sender != queued[j].0.sender || recorded[k].id != queued[j].0.id)
  {
    var a, b, q := queued[i].1, queued[j].1, queued[j].0;
    m := b - 1;
    while recorded[m].sender != q.sender || recorded[m].id != q.id
      invariant a <= m < b
      invariant forall k :: m < k < b ==> recorded[k].sender != q.sender || recorded[k].id != q.id
      decreases m
    {
      m := m - 1;
    }
    assert !SeenBefore(recorded[..b], recorded[b].sender, recorded[b].id, recorded[b].at);
    assert recorded[..b][m] == recorded[m];
  }

  /** What decides whether a text packet is taken, besides the trigger. */
  predicate Acceptable(t: Triggers, l: Link, p: TextPacket) {
    && l.ready && p.validUTF8 && p.allowed && p.commandOK && p.prompt != "" && p.id != 0 && !p.emoji
    && p.sender != 0 && p.sender != l.ownNode
    && p.channel in l.channels && l.channels[p.channel] != Disabled
  }

  /** Direct packets need no trigger. */
  lemma DirectIsTaken(t: Triggers, l: Link, p: TextPacket, native: bool)
    requires p.dest == l.ownNode != 0xFFFF_FFFF
    ensures Admitted(t, l, p, native) <==> Acceptable(t, l, p)
  {
  }

  /** Group packets: a reply to the bot or a mention always counts; a prefix, or any text if no
      prefixes are set, only when mentions are not demanded.  Other packets are not taken. */
  lemma GroupTriggers(t: Triggers, l: Link, p: TextPacket, native: bool)
    requires p.dest != l.ownNode
    ensures p.dest != 0xFFFF_FFFF ==> !Admitted(t, l, p, native)
    ensures p.channel !in t.indices ==> !Admitted(t, l, p, native)
    ensures p.dest == 0xFFFF_FFFF && p.channel in t.indices && (native || p.mentioned) ==>
      (Admitted(t, l, p, native) <==> Acceptable(t, l, p))
    ensures p.dest == 0xFFFF_FFFF && p.channel in t.indices && !t.mentionOnly && (p.prefixed || !t.havePrefixes) ==>
      (Admitted(t, l, p, native) <==> Acceptable(t, l, p))
    ensures !native && !p.mentioned && t.mentionOnly ==> !Admitted(t, l, p, native)
    ensures !native && !p.mentioned && t.havePrefixes && !p.prefixed ==> !Admitted(t, l, p, native)
  {
  }

  /** A packet that is admitted came from another node, while ready, on a usable channel in
      0..7; and unless it claims to be sent directly by the broadcast address, its answer goes
      back to where it came from, on its channel and naming its id. */
  lemma AdmittedCanBeAnswered(t: Triggers, l: Link, heard: seq<Envelope>, p: TextPacket, native: bool,
                              replyTo: string)
    requires Admitted(t, l, p, native) && LinkOK(heard, l)
    requires p.sender <= UINT32_MAX && p.id <= UINT32_MAX && l.ownNode <= UINT32_MAX
    ensures l.ready && Sender(l, p) != l.ownNode && Sender(l, p) == p.sender != 0
    ensures p.channel <= 7 && UsableRole(l.channels[p.channel]) && RoleOf(heard, p.channel, l.channels[p.channel])
    ensures var o := PromptOf(l, p).origin;
            && ParseReplyID(o.messageID, replyTo) == Some(p.id)
            && ParseRoute(o.chatID, o.rawIndex, t.indices) ==
                 (if IsGroup(p) then Some(Route(false, BROADCAST_NODE, p.channel, false))
                  else if p.sender == BROADCAST_NODE then None
                  else Some(Route(true, p.sender, p.channel, false)))
  {
    ReplyReturns(Sender(l, p), IsGroup(p), p.channel, p.id, replyTo, t.indices);
  }
}
