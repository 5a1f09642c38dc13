/** The cache: every operation one hold of its lock, at one reading of the clocks. */
module Cache {
  import opened Common
  import opened CacheEntries

  /** How a counter is written, and read back if the bytes hold one. */
  datatype Codec = Codec(write: int -> Bytes, read: Bytes -> Option<int>)

  // -- what each operation does --------------------------------------------------------

  datatype Held = Held(entries: Entries, clock: nat)

  /** What each entry is: what it holds, and until when. */
  function Live(h: Held, key: Key, now: Time): Option<Entry> {
    if key in h.entries && !Expired(h.entries[key], now) then Some(h.entries[key]) else None
  }

  /** The entry written, stamped newer than all others. */
  function Filled(h: Held, key: Key, bytes: Bytes, expiresAt: Option<Time>): Entries {
    h.entries[key := Entry(bytes, expiresAt, h.clock + 1)]
  }

  ghost function Written(h: Held, key: Key, bytes: Bytes, expiresAt: Option<Time>, caps: Caps, now: Time): Held {
    Held(Enforced(Filled(h, key, bytes, expiresAt), caps, now), h.clock + 1)
  }

  function Read(h: Held, key: Key, now: Time): Held {
    if key !in h.entries then h
    else if Expired(h.entries[key], now) then h.(entries := h.entries - {key})
    else Held(h.entries[key := h.entries[key].(lastUsed := h.clock + 1)], h.clock + 1)
  }

  function Swept(h: Held, now: Time): Held {
    h.(entries := map k | k in h.entries && !Expired(h.entries[k], now) :: h.entries[k])
  }

  function Count(live: Option<Entry>, codec: Codec): int {
    if live.Some? && codec.read(live.value.bytes).Some? then codec.read(live.value.bytes).value else 0
  }

  // -- the cache -----------------------------------------------------------------------

  ghost predicate Sound(h: Held, caps: Caps) {
    && Fits(h.entries, caps) && Distinct(h.entries)
    && UsedBy(h.entries, h.clock)
  }

  /** Setting an entry aside and writing it anew fills the same place. */
  lemma FilledAgain(h: Held, rest: Entries, key: Key, entry: Entry)
    requires rest == h.entries - {key} && Distinct(h.entries) && UsedBy(h.entries, h.clock)
    requires entry.lastUsed == h.clock + 1
    ensures rest[key := entry] == Filled(h, key, entry.bytes, entry.expiresAt)
    ensures Total(rest[key := entry]) == Total(rest) + Size(key, entry)
    ensures Distinct(rest[key := entry]) && UsedBy(rest[key := entry], h.clock + 1)
  {
    TotalWith(rest, key, entry);
    StampedIsDistinct(h.entries, key, entry, h.clock);
    Replaced(h.entries, key, entry);
  }

  function SaturatingSub(a: nat, b: nat): nat {
    if b <= a then a - b else 0
  }

  class Cache {
    const caps: Caps
    var entries: Entries
    var bytes: nat
    var clock: nat

    ghost function Now(): Held
      reads this
    {
      Held(entries, clock)
    }

    ghost predicate Valid()
      reads this
    {
      bytes == Total(entries) && Sound(Now(), caps)
    }

    constructor (caps: Caps)
      ensures Valid() && this.caps == caps && Now() == Held(map[], 0)
    {
      this.caps := caps;
      entries, bytes, clock := map[], 0, 0;
    }

    method Tick() returns (stamp: nat)
      modifies this`clock
      ensures stamp == clock == old(clock) + 1
    {
      clock := clock + 1;
      stamp := clock;
    }

    /** Subtracting saturates; the count being exact, it never has to. */
    method Remove(key: Key) returns (entry: Option<Entry>)
      requires bytes == Total(entries)
      modifies this`entries, this`bytes
      ensures bytes == Total(entries) && entries == old(entries) - {key}
      ensures entry == if key in old(entries) then Some(old(entries)[key]) else None
    {
      if key !in entries {
        assert entries - {key} == entries;
        return None;
      }
      TotalWithout(entries, key);
      entry := Some(entries[key]);
      var size := Size(key, entries[key]);
      entries := entries - {key};
      bytes := SaturatingSub(bytes, size);
    }

    method Insert(key: Key, value: Bytes, expiresAt: Option<Time>, now: Time)
      requires Valid()
      modifies this
      ensures Valid() && clock == old(clock) + 1
      ensures entries == Enforced(Filled(old(Now()), key, value, expiresAt), caps, now)
    {
      ghost var was := Now();
      var _ := Remove(key);
      var lastUsed := Tick();
      var entry := Entry(value, expiresAt, lastUsed);
      FilledAgain(was, entries, key, entry);
      bytes := bytes + Size(key, entry);
      entries := entries[key := entry];
      EnforceLimits(now);
    }

    /** The caps hold again, by dropping what `Enforced` says and no more. */
    method EnforceLimits(now: Time)
      requires bytes == Total(entries) && Distinct(entries) && UsedBy(entries, clock)
      modifies this`entries, this`bytes
      ensures entries == Enforced(old(entries), caps, now) && Valid()
    {
      if |entries| <= caps.entries && bytes <= caps.bytes {
        return;
      }
      ghost var was := entries;
      RetainUnexpired(now);
      EvictUntilItFits(was, now);
      EnforcedIsUsedBy(was, caps, now, clock);
      EnforcedFits(was, caps, now);
    }

    /** `enforce_limits`' loop, on the live entries of `was`. */
    method EvictUntilItFits(ghost was: Entries, now: Time)
      requires bytes == Total(entries) && Distinct(was) && !Fits(was, caps)
      requires Newest(entries, was, now) && Needed(entries, was, caps, now)
      modifies this`entries, this`bytes
      ensures entries == Enforced(was, caps, now) && bytes == Total(entries)
    {
      while |entries| > caps.entries || bytes > caps.bytes
        invariant bytes == Total(entries)
        invariant Newest(entries, was, now) && Needed(entries, was, caps, now)
        decreases |entries|
      {
        var victim := LeastRecentlyUsed();
        if victim.None? {
          assert false;
          break;
        }
        EvictOne(entries, was, caps, now, victim.value);
        var _ := Remove(victim.value);
      }
      NewestThatFits(entries, was, caps, now);
    }

    /** The victim: there always is one where a cap is passed. */
    method LeastRecentlyUsed() returns (oldest: Option<Key>)
      ensures oldest.None? <==> entries == map[]
      ensures oldest.Some? ==>
        oldest.value in entries && forall k | k in entries :: entries[oldest.value].lastUsed <= entries[k].lastUsed
    {
      oldest := None;
      var rest := entries.Keys;
      while rest != {}
        invariant rest <= entries.Keys
        invariant oldest.None? <==> rest == entries.Keys
        invariant oldest.Some? ==>
          oldest.value in entries
          && forall k | k in entries && k !in rest :: entries[oldest.value].lastUsed <= entries[k].lastUsed
        decreases |rest|
      {
        var key :| key in rest;
        if oldest.None? || entries[key].lastUsed < entries[oldest.value].lastUsed {
          oldest := Some(key);
        }
        rest := rest - {key};
      }
    }

    method RetainUnexpired(now: Time)
      requires bytes == Total(entries)
      modifies this`entries, this`bytes
      ensures bytes == Total(entries) && Now() == Swept(old(Now()), now)
    {
      var was, keep := entries, entries;
      var freed: nat := 0;
      var rest := was.Keys;
      while rest != {}
        invariant rest <= was.Keys && entries == was && bytes == Total(was)
        invariant keep == map k | k in was && (k in rest || !Expired(was[k], now)) :: was[k]
        invariant freed + Total(keep) == Total(was)
        decreases |rest|
      {
        var key :| key in rest;
        if Expired(was[key], now) {
          TotalWithout(keep, key);
          freed := freed + Size(key, was[key]);
          keep := keep - {key};
        }
        rest := rest - {key};
      }
      entries := keep;
      bytes := SaturatingSub(bytes, freed);
    }

    method GetRaw(key: Key, now: Time) returns (value: Option<Bytes>)
      requires Valid()
      modifies this
      ensures Valid() && Now() == Read(old(Now()), key, now)
      ensures value == var live := Live(old(Now()), key, now); if live.Some? then Some(live.value.bytes) else None
    {
      if key !in entries {
        return None;
      }
      if Expired(entries[key], now) {
        var _ := Remove(key);
        PartFits(entries, old(entries), caps);
        return None;
      }
      var stamp := Tick();
      value := Some(entries[key].bytes);
      TouchedWeighsTheSame(entries, key, stamp);
      StampedIsDistinct(entries, key, entries[key].(lastUsed := stamp), stamp - 1);
      entries := entries[key := entries[key].(lastUsed := stamp)];
    }

    method PutRaw(key: Key, value: Bytes, ttl: Option<nat>, now: Time)
      requires Valid()
      modifies this
      ensures Valid() && Now() == Written(old(Now()), key, value, In(ttl, now), caps, now)
    {
      Insert(key, value, In(ttl, now), now);
    }

    method AddRaw(key: Key, value: Bytes, ttl: Option<nat>, now: Time) returns (stored: bool)
      requires Valid()
      modifies this
      ensures Valid() && stored == Live(old(Now()), key, now).None?
      ensures Now() == if stored then Written(old(Now()), key, value, In(ttl, now), caps, now) else old(Now())
    {
      var occupied := key in entries && !Expired(entries[key], now);
      if occupied {
        return false;
      }
      Insert(key, value, In(ttl, now), now);
      stored := true;
    }

    method Forget(key: Key) returns (existed: bool)
      requires Valid()
      modifies this
      ensures Valid() && existed == (key in old(entries))
      ensures Now() == old(Now()).(entries := old(entries) - {key})
    {
      var entry := Remove(key);
      PartFits(entries, old(entries), caps);
      existed := entry.Some?;
    }

    method Flush()
      requires Valid()
      modifies this
      ensures Valid() && Now() == Held(map[], old(clock))
    {
      entries, bytes := map[], 0;
    }

    method Sweep(now: Time)
      requires Valid()
      modifies this
      ensures Valid() && Now() == Swept(old(Now()), now)
    {
      RetainUnexpired(now);
      PartFits(entries, old(entries), caps);
    }

    /** A fresh counter gets the time to live, a live one keeps its own. */
    method IncrementIfBelow(key: Key, max: int, ttl: Option<nat>, codec: Codec, now: Time) returns (next: Option<int>)
      requires Valid()
      modifies this
      ensures Valid()
      ensures var live := Live(old(Now()), key, now); var count := Count(live, codec);
        next == (if count >= max then None else Some(count + 1))
        && Now() == (if count >= max then old(Now())
                     else Written(old(Now()), key, codec.write(count + 1),
                                  if live.Some? then live.value.expiresAt else In(ttl, now), caps, now))
    {
      var live := if key in entries && !Expired(entries[key], now) then Some(entries[key]) else None;
      var current := 0;
      if live.Some? && codec.read(live.value.bytes).Some? {
        current := codec.read(live.value.bytes).value;
      }
      if current >= max {
        return None;
      }
      var expiresAt := if live.Some? then live.value.expiresAt else In(ttl, now);
      Insert(key, codec.write(current + 1), expiresAt, now);
      next := Some(current + 1);
    }

    /** The deadline is kept whether it has passed or not. */
    method Increment(key: Key, delta: int, codec: Codec, now: Time) returns (next: int)
      requires Valid()
      modifies this
      ensures Valid() && next == Count(Live(old(Now()), key, now), codec) + delta
      ensures Now() == Written(old(Now()), key, codec.write(next),
                               if key in old(entries) then old(entries)[key].expiresAt else None, caps, now)
    {
      var current := 0;
      if key in entries && !Expired(entries[key], now) && codec.read(entries[key].bytes).Some? {
        current := codec.read(entries[key].bytes).value;
      }
      next := current + delta;
      var expiresAt := if key in entries then entries[key].expiresAt else None;
      Insert(key, codec.write(next), expiresAt, now);
    }
  }
}
