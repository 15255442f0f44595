/** The bounded TTL cache of cache.go: a map, a ring and generation numbers that together
    mean "one of the last `capacity` insertions, and not yet expired". */
module Cache {
  datatype Entry<K> = Entry(key: K, at: int, gen: nat)

  /** One insertion: a key and its time. */
  datatype Insertion<K> = Insertion(key: K, at: int)

  // ----- the simple meaning, on the list of all insertions

  /** `i` is one of the last `capacity` insertions. */
  predicate Recent<K>(log: seq<Insertion<K>>, capacity: nat, i: nat) {
    |log| - capacity <= i < |log|
  }

  /** The key was among the last `capacity` insertions less than `ttl` ago. */
  ghost predicate Live<K>(log: seq<Insertion<K>>, capacity: nat, ttl: int, key: K, now: int) {
    exists i: nat :: Recent(log, capacity, i) && log[i].key == key && now - log[i].at < ttl
  }

  /** Insertions only happened for keys that were not live, and in time order. */
  ghost predicate WellFormed<K>(log: seq<Insertion<K>>, capacity: nat, ttl: int) {
    && (forall j :: 0 <= j < |log| ==> !Live(log[..j], capacity, ttl, log[j].key, log[j].at))
    && (forall i, j :: 0 <= i <= j < |log| ==> log[i].at <= log[j].at)
  }

  /** At most once: between two insertions of a key either the time to live has passed or
      at least `capacity` insertions were made. */
  lemma ReinsertedLater<K>(log: seq<Insertion<K>>, capacity: nat, ttl: int, i: nat, j: nat)
    requires WellFormed(log, capacity, ttl)
    requires i < j < |log| && log[i].key == log[j].key
    ensures log[j].at - log[i].at >= ttl || j - i - 1 >= capacity
  {
    assert !Live(log[..j], capacity, ttl, log[j].key, log[j].at);
    assert log[..j][i] == log[i];
    assert j - i <= capacity ==> Recent(log[..j], capacity, i);
  }

  lemma WellFormedSnoc<K>(log: seq<Insertion<K>>, capacity: nat, ttl: int, key: K, now: int)
    requires WellFormed(log, capacity, ttl) && !Live(log, capacity, ttl, key, now)
    requires forall i :: 0 <= i < |log| ==> log[i].at <= now
    ensures WellFormed(log + [Insertion(key, now)], capacity, ttl)
  {
    var log' := log + [Insertion(key, now)];
    forall j | 0 <= j < |log'|
      ensures !Live(log'[..j], capacity, ttl, log'[j].key, log'[j].at)
    {
      if j < |log| {
        assert log'[..j] == log[..j];
      } else {
        assert log'[..j] == log;
      }
    }
  }

  // ----- how the map and the ring represent it

  predicate Stored<K(==)>(log: seq<Insertion<K>>, e: Entry<K>) {
    1 <= e.gen <= |log| && e.key == log[e.gen - 1].key && e.at == log[e.gen - 1].at
  }

  /** Every entry is a recent insertion under its own key. */
  ghost predicate Sound<K>(log: seq<Insertion<K>>, capacity: nat, entries: map<K, Entry<K>>) {
    forall k :: k in entries ==>
      && entries[k].key == k && Stored(log, entries[k])
      && Recent(log, capacity, entries[k].gen - 1)
  }

  /** Every recent insertion that has not expired is the entry of its key. */
  ghost predicate Complete<K>(log: seq<Insertion<K>>, capacity: nat, ttl: int, clock: int,
                              entries: map<K, Entry<K>>) {
    forall i: nat :: Recent(log, capacity, i) && clock - log[i].at < ttl ==>
      log[i].key in entries && entries[log[i].key].gen == i + 1
  }

  /** The ring slot of insertion number `i`: slots are used round and round. */
  function Slot(i: nat, capacity: nat): (s: nat)
    requires capacity > 0
    ensures s < capacity
  {
    if i < capacity then i else Slot(i - capacity, capacity)
  }

  lemma {:induction false} SlotSteps(i: nat, capacity: nat)
    requires capacity > 0
    ensures Slot(i + 1, capacity) == (Slot(i, capacity) + 1) % capacity
  {
    if i >= capacity {
      SlotSteps(i - capacity, capacity);
    }
  }

  lemma {:induction false} SlotsDiffer(i: nat, j: nat, capacity: nat)
    requires capacity > 0 && i < j < i + capacity
    ensures Slot(i, capacity) != Slot(j, capacity)
  {
    if i >= capacity {
      SlotsDiffer(i - capacity, j - capacity, capacity);
    }
  }

  /** The ring holds the last `capacity` insertions, oldest at `next`. */
  ghost predicate Ring<K>(log: seq<Insertion<K>>, capacity: nat, ring: seq<Entry<K>>)
    requires capacity > 0
  {
    && |ring| == capacity
    && (forall i: nat :: Recent(log, capacity, i) ==>
          ring[Slot(i, capacity)] == Entry(log[i].key, log[i].at, i + 1))
    && (forall s :: |log| <= s < capacity ==> ring[s].gen == 0)
  }

  /** A lookup in the map answers what the simple meaning says. */
  lemma LookupIsLive<K>(log: seq<Insertion<K>>, capacity: nat, ttl: int, clock: int, now: int,
                        entries: map<K, Entry<K>>, key: K)
    requires Sound(log, capacity, entries) && Complete(log, capacity, ttl, clock, entries)
    requires clock <= now
    ensures (key in entries && now - entries[key].at < ttl) <==> Live(log, capacity, ttl, key, now)
  {
    if key in entries && now - entries[key].at < ttl {
      var i := entries[key].gen - 1;
      assert Recent(log, capacity, i) && log[i].key == key;
    }
  }

  lemma NoneLive<K>(log: seq<Insertion<K>>, capacity: nat, ttl: int, now: int,
                    entries: map<K, Entry<K>>, match_: K -> bool)
    requires Sound(log, capacity, entries) && Complete(log, capacity, ttl, now, entries)
    requires forall k :: k in entries ==> !match_(k)
    ensures !exists key :: match_(key) && Live(log, capacity, ttl, key, now)
  {
    forall key | Live(log, capacity, ttl, key, now)
      ensures !match_(key)
    {
      LookupIsLive(log, capacity, ttl, now, now, entries, key);
    }
  }

  lemma LaterClock<K>(log: seq<Insertion<K>>, capacity: nat, ttl: int, clock: int, now: int,
                      entries: map<K, Entry<K>>)
    requires Complete(log, capacity, ttl, clock, entries) && clock <= now
    ensures Complete(log, capacity, ttl, now, entries)
  {
  }

  /** Deleting an expired entry hides nothing. */
  lemma ExpiredDeleted<K>(log: seq<Insertion<K>>, capacity: nat, ttl: int, clock: int, now: int,
                          entries: map<K, Entry<K>>, key: K)
    requires Sound(log, capacity, entries) && Complete(log, capacity, ttl, clock, entries)
    requires clock <= now && key in entries && now - entries[key].at >= ttl
    ensures Sound(log, capacity, entries - {key})
    ensures Complete(log, capacity, ttl, now, entries - {key})
  {
  }

  /** The map after an insertion: the oldest ring slot is evicted, but only if the map still
      holds that very insertion. */
  function Evicted<K>(entries: map<K, Entry<K>>, slot: Entry<K>): map<K, Entry<K>> {
    if slot.gen != 0 && slot.key in entries && entries[slot.key].gen == slot.gen
    then entries - {slot.key} else entries
  }

  lemma EvictedRest<K>(log: seq<Insertion<K>>, capacity: nat, entries: map<K, Entry<K>>,
                       ring: seq<Entry<K>>)
    requires capacity > 0 && Sound(log, capacity, entries) && Ring(log, capacity, ring)
    ensures forall k :: k in Evicted(entries, ring[Slot(|log|, capacity)]) ==>
      k in entries && entries[k].gen - 1 > |log| - capacity
  {
    var slot := ring[Slot(|log|, capacity)];
    if |log| >= capacity {
      var i := |log| - capacity;
      assert Recent(log, capacity, i) && Slot(|log|, capacity) == Slot(i, capacity);
      assert slot == Entry(log[i].key, log[i].at, i + 1);
    }
  }

  lemma InsertedSound<K>(log: seq<Insertion<K>>, capacity: nat, entries: map<K, Entry<K>>,
                         ring: seq<Entry<K>>, key: K, now: int)
    requires capacity > 0 && Sound(log, capacity, entries) && Ring(log, capacity, ring)
    ensures Sound(log + [Insertion(key, now)], capacity,
                  Evicted(entries, ring[Slot(|log|, capacity)])[key := Entry(key, now, |log| + 1)])
  {
    EvictedRest(log, capacity, entries, ring);
  }

  /** A stale ring slot never evicts a key that was added again. */
  lemma EvictionSpares<K>(log: seq<Insertion<K>>, capacity: nat, entries: map<K, Entry<K>>,
                          ring: seq<Entry<K>>, key: K, i: nat)
    requires capacity > 0 && Ring(log, capacity, ring)
    requires key in entries && entries[key].gen == i + 1 && |log| - capacity < i < |log|
    ensures key in Evicted(entries, ring[Slot(|log|, capacity)])
  {
    if |log| >= capacity {
      assert Recent(log, capacity, |log| - capacity);
      assert Slot(|log|, capacity) == Slot(|log| - capacity, capacity);
    }
  }

  lemma EvictedSubmap<K>(entries: map<K, Entry<K>>, slot: Entry<K>)
    ensures Evicted(entries, slot).Keys <= entries.Keys
    ensures forall k :: k in Evicted(entries, slot) ==> Evicted(entries, slot)[k] == entries[k]
  {
  }

  lemma InsertedComplete<K>(log: seq<Insertion<K>>, capacity: nat, ttl: int, clock: int, now: int,
                            entries: map<K, Entry<K>>, ring: seq<Entry<K>>, key: K)
    requires capacity > 0 && Ring(log, capacity, ring)
    requires Complete(log, capacity, ttl, clock, entries) && clock <= now
    requires !Live(log, capacity, ttl, key, now)
    ensures Complete(log + [Insertion(key, now)], capacity, ttl, now,
                     Evicted(entries, ring[Slot(|log|, capacity)])[key := Entry(key, now, |log| + 1)])
  {
    hide Evicted, Slot;
    var log' := log + [Insertion(key, now)];
    var rest := Evicted(entries, ring[Slot(|log|, capacity)]);
    assert rest.Keys <= entries.Keys && forall k :: k in rest ==> rest[k] == entries[k] by {
      EvictedSubmap(entries, ring[Slot(|log|, capacity)]);
    }
    forall i: nat | Recent(log', capacity, i) && now - log'[i].at < ttl && i < |log|
      ensures log[i].key != key && log[i].key in rest && rest[log[i].key].gen == i + 1
    {
      assert Recent(log, capacity, i) && log'[i] == log[i];
      EvictionSpares(log, capacity, entries, ring, log[i].key, i);
    }
  }

  lemma EvictedDefined<K>(entries: map<K, Entry<K>>, slot: Entry<K>)
    ensures Evicted(entries, slot) ==
      if slot.gen != 0 && slot.key in entries && entries[slot.key].gen == slot.gen
      then entries - {slot.key} else entries
  {
  }

  lemma InsertedRing<K>(log: seq<Insertion<K>>, capacity: nat, ring: seq<Entry<K>>, key: K, now: int)
    requires capacity > 0 && Ring(log, capacity, ring)
    ensures Ring(log + [Insertion(key, now)], capacity,
                 ring[Slot(|log|, capacity) := Entry(key, now, |log| + 1)])
  {
    var log' := log + [Insertion(key, now)];
    forall i: nat | Recent(log', capacity, i) && i < |log|
      ensures Recent(log, capacity, i) && Slot(i, capacity) != Slot(|log|, capacity)
    {
      SlotsDiffer(i, |log|, capacity);
    }
  }

  /** The generations in the map are distinct and recent, so there are at most `n` of them. */
  lemma {:induction false} AtMost<K>(log: seq<Insertion<K>>, entries: map<K, Entry<K>>, lo: nat, n: nat)
    requires forall k :: k in entries ==>
      lo < entries[k].gen <= lo + n && Stored(log, entries[k]) && entries[k].key == k
    ensures |entries| <= n
    decreases n
  {
    if n == 0 {
      assert entries.Keys == {};
    } else if k :| k in entries && entries[k].gen == lo + n {
      AtMost(log, entries - {k}, lo, n - 1);
      assert entries.Keys == (entries - {k}).Keys + {k};
    } else {
      AtMost(log, entries, lo, n - 1);
    }
  }

  /** `boundedCache`.  `log` is the list of insertions so far, `clock` the latest time seen. */
  class BoundedCache<K(==, 0)> {
    var entries: map<K, Entry<K>>
    const ring: array<Entry<K>>
    var next: nat
    const capacity: nat
    const ttl: int
    var gen: nat
    ghost var log: seq<Insertion<K>>
    ghost var clock: int

    ghost predicate Valid()
      reads this, ring
    {
      && capacity > 0 && gen == |log| && next == Slot(|log|, capacity)
      && (forall i :: 0 <= i < |log| ==> log[i].at <= clock)
      && WellFormed(log, capacity, ttl)
      && Ring(log, capacity, ring[..])
      && Sound(log, capacity, entries)
      && Complete(log, capacity, ttl, clock, entries)
    }

    /** `newBoundedCache`; `zero` is the zero value of the key type. */
    constructor (capacity: nat, ttl: int, zero: K, ghost now: int)
      requires capacity > 0
      ensures Valid() && fresh(ring) && log == [] && clock == now
      ensures this.capacity == capacity && this.ttl == ttl
    {
      this.entries := map[];
      this.ring := new Entry<K>[capacity](_ => Entry(zero, 0, 0));
      this.next := 0;
      this.capacity := capacity;
      this.ttl := ttl;
      this.gen := 0;
      this.log := [];
      this.clock := now;
    }

    method Contains(key: K, now: int) returns (found: bool)
      requires Valid() && clock <= now
      modifies this
      ensures Valid() && log == old(log) && clock == now
      ensures found <==> Live(log, capacity, ttl, key, now)
    {
      LookupIsLive(log, capacity, ttl, clock, now, entries, key);
      found := key in entries;
      if found && now - entries[key].at >= ttl {
        ExpiredDeleted(log, capacity, ttl, clock, now, entries, key);
        entries := entries - {key};
        found := false;
      }
      clock := now;
    }

    /** The part that `add` and `seenOrAdd` share. */
    method Insert(key: K, now: int)
      requires Valid() && clock <= now && !Live(log, capacity, ttl, key, now)
      modifies this, ring
      ensures Valid() && log == old(log) + [Insertion(key, now)] && clock == now
    {
      hide Live, Slot, Sound, Complete, Evicted;
      WellFormedSnoc(log, capacity, ttl, key, now);
      InsertedSound(log, capacity, entries, ring[..], key, now);
      InsertedComplete(log, capacity, ttl, clock, now, entries, ring[..], key);
      InsertedRing(log, capacity, ring[..], key, now);
      SlotSteps(|log|, capacity);
      gen := gen + 1;
      var e := Entry(key, now, gen);
      var slot := ring[next];
      EvictedDefined(entries, slot);
      if slot.gen != 0 {
        if slot.key in entries && entries[slot.key].gen == slot.gen {
          entries := entries - {slot.key};
        }
      }
      ring[next] := e;
      next := (next + 1) % capacity;
      entries := entries[key := e];
      log := log + [Insertion(key, now)];
      clock := now;
    }

    method Add(key: K, now: int)
      requires Valid() && clock <= now
      modifies this, ring
      ensures Valid() && clock == now
      ensures log == if Live(old(log), capacity, ttl, key, now) then old(log)
                     else old(log) + [Insertion(key, now)]
    {
      LookupIsLive(log, capacity, ttl, clock, now, entries, key);
      if key in entries && now - entries[key].at < ttl {
        clock := now;
        return;
      }
      Insert(key, now);
    }

    method SeenOrAdd(key: K, now: int) returns (seen: bool)
      requires Valid() && clock <= now
      modifies this, ring
      ensures Valid() && clock == now
      ensures seen <==> Live(old(log), capacity, ttl, key, now)
      ensures log == if seen then old(log) else old(log) + [Insertion(key, now)]
    {
      LookupIsLive(log, capacity, ttl, clock, now, entries, key);
      if key in entries && now - entries[key].at < ttl {
        clock := now;
        return true;
      }
      Insert(key, now);
      return false;
    }

    method Len() returns (n: nat)
      requires Valid()
      ensures n == |entries| && n <= capacity
    {
      n := |entries|;
      var lo := if |log| <= capacity then 0 else |log| - capacity;
      AtMost(log, entries, lo, capacity);
    }

    /** Visits the keys in whatever order the map yields them, and may stop early. */
    method Any(match_: K -> bool, now: int) returns (found: bool)
      requires Valid() && clock <= now
      modifies this
      ensures Valid() && log == old(log) && clock == now
      ensures found <==> exists key :: match_(key) && Live(log, capacity, ttl, key, now)
    {
      hide Live, Sound, Complete, Ring, WellFormed, Slot;
      LaterClock(log, capacity, ttl, clock, now, entries);
      clock := now;
      var keys := entries.Keys;
      while keys != {}
        invariant Valid() && log == old(log) && clock == now
        invariant keys <= entries.Keys
        invariant forall k :: k in entries && k !in keys ==> !match_(k)
        decreases |keys|
      {
        var k :| k in keys;
        keys := keys - {k};
        if now - entries[k].at >= ttl {
          ExpiredDeleted(log, capacity, ttl, clock, now, entries, k);
          entries := entries - {k};
          continue;
        }
        if match_(k) {
          LookupIsLive(log, capacity, ttl, clock, now, entries, k);
          return true;
        }
      }
      NoneLive(log, capacity, ttl, now, entries, match_);
      return false;
    }
  }
}
