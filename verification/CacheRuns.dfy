/** What a caller of the cache can rely on, over any run of its operations. */
module CacheRuns {
  import opened Common
  import opened CacheEntries
  import opened Cache

  datatype Op =
    | Get(key: Key)
    | Put(key: Key, value: Bytes, ttl: Option<nat>)
    | Add(key: Key, value: Bytes, ttl: Option<nat>)
    | Forget(key: Key)
    | Flush
    | Sweep
    | IncrementIfBelow(key: Key, max: int, ttl: Option<nat>)
    | Increment(key: Key, delta: int)

  function KeptDeadline(h: Held, key: Key): Option<Time> {
    if key in h.entries then h.entries[key].expiresAt else None
  }

  function LiveDeadline(h: Held, key: Key, ttl: Option<nat>, now: Time): Option<Time> {
    var live := Live(h, key, now);
    if live.Some? then live.value.expiresAt else In(ttl, now)
  }

  function Sum(h: Held, key: Key, delta: int, codec: Codec, now: Time): int {
    Count(Live(h, key, now), codec) + delta
  }

  /** What an operation writes, if it writes: a value and its deadline. */
  function Writes(h: Held, op: Op, codec: Codec, now: Time): Option<(Key, Bytes, Option<Time>)> {
    match op
    case Put(key, value, ttl) => Some((key, value, In(ttl, now)))
    case Add(key, value, ttl) => if Live(h, key, now).Some? then None else Some((key, value, In(ttl, now)))
    case IncrementIfBelow(key, max, ttl) =>
      if Sum(h, key, 0, codec, now) >= max then None
      else Some((key, codec.write(Sum(h, key, 1, codec, now)), LiveDeadline(h, key, ttl, now)))
    case Increment(key, delta) =>
      Some((key, codec.write(Sum(h, key, delta, codec, now)), KeptDeadline(h, key)))
    case _ => None
  }

  ghost function After(h: Held, op: Op, codec: Codec, caps: Caps, now: Time): Held {
    var write := Writes(h, op, codec, now);
    if write.Some? then Written(h, write.value.0, write.value.1, write.value.2, caps, now)
    else
      match op
      case Get(key) => Read(h, key, now)
      case Forget(key) => h.(entries := h.entries - {key})
      case Flush => h.(entries := map[])
      case Sweep => Swept(h, now)
      case _ => h
  }

  /** The last write to each key since it was forgotten: what a cache with no
      caps, that never let go of anything, would hold. */
  type Ideal = map<Key, (Bytes, Option<Time>)>

  function IdealAfter(ideal: Ideal, h: Held, op: Op, codec: Codec, now: Time): Ideal {
    var write := Writes(h, op, codec, now);
    if write.Some? then ideal[write.value.0 := (write.value.1, write.value.2)]
    else if op.Forget? then ideal - {op.key}
    else if op.Flush? then map[]
    else ideal
  }

  ghost predicate Agrees(h: Held, ideal: Ideal) {
    forall k | k in h.entries :: k in ideal && ideal[k] == (h.entries[k].bytes, h.entries[k].expiresAt)
  }

  /** A run from `h`, by operations each at its reading of the clocks. */
  ghost predicate Run(h: Held, ideal: Ideal, ops: seq<(Op, Time)>, codec: Codec, caps: Caps, end: Held, endIdeal: Ideal)
    decreases |ops|
  {
    if ops == [] then end == h && endIdeal == ideal
    else
      Run(After(h, ops[0].0, codec, caps, ops[0].1), IdealAfter(ideal, h, ops[0].0, codec, ops[0].1),
          ops[1..], codec, caps, end, endIdeal)
  }

  lemma WrittenAgrees(h: Held, ideal: Ideal, key: Key, bytes: Bytes, expiresAt: Option<Time>, caps: Caps, now: Time)
    requires Agrees(h, ideal)
    ensures Agrees(Written(h, key, bytes, expiresAt, caps, now), ideal[key := (bytes, expiresAt)])
  {
    var m := Filled(h, key, bytes, expiresAt);
    forall k | k in Enforced(m, caps, now)
      ensures k in m && Enforced(m, caps, now)[k] == m[k]
    {
    }
  }

  lemma OpAgrees(h: Held, ideal: Ideal, op: Op, codec: Codec, caps: Caps, now: Time)
    requires Agrees(h, ideal)
    ensures Agrees(After(h, op, codec, caps, now), IdealAfter(ideal, h, op, codec, now))
  {
    var write := Writes(h, op, codec, now);
    if write.Some? {
      WrittenAgrees(h, ideal, write.value.0, write.value.1, write.value.2, caps, now);
    }
  }

  lemma WrittenIsSound(h: Held, key: Key, bytes: Bytes, expiresAt: Option<Time>, caps: Caps, now: Time)
    requires Sound(h, caps)
    ensures Sound(Written(h, key, bytes, expiresAt, caps, now), caps)
  {
    var entry := Entry(bytes, expiresAt, h.clock + 1);
    StampedIsDistinct(h.entries, key, entry, h.clock);
    EnforcedFits(Filled(h, key, bytes, expiresAt), caps, now);
    EnforcedIsUsedBy(Filled(h, key, bytes, expiresAt), caps, now, h.clock + 1);
  }

  lemma PartIsSound(h: Held, part: Entries, caps: Caps)
    requires Sound(h, caps) && Part(part, h.entries)
    ensures Sound(h.(entries := part), caps)
  {
    PartFits(part, h.entries, caps);
  }

  lemma TouchedIsSound(h: Held, key: Key, caps: Caps)
    requires Sound(h, caps) && key in h.entries
    ensures Sound(Held(h.entries[key := h.entries[key].(lastUsed := h.clock + 1)], h.clock + 1), caps)
  {
    TouchedWeighsTheSame(h.entries, key, h.clock + 1);
    StampedIsDistinct(h.entries, key, h.entries[key].(lastUsed := h.clock + 1), h.clock);
  }

  lemma ReadIsSound(h: Held, key: Key, caps: Caps, now: Time)
    requires Sound(h, caps)
    ensures Sound(Read(h, key, now), caps)
  {
    if key in h.entries {
      PartIsSound(h, h.entries - {key}, caps);
      TouchedIsSound(h, key, caps);
    }
  }

  lemma OpIsSound(h: Held, op: Op, codec: Codec, caps: Caps, now: Time)
    requires Sound(h, caps)
    ensures Sound(After(h, op, codec, caps, now), caps)
  {
    var write := Writes(h, op, codec, now);
    if write.Some? {
      WrittenIsSound(h, write.value.0, write.value.1, write.value.2, caps, now);
    } else {
      match op
      case Get(key) => ReadIsSound(h, key, caps, now);
      case Forget(key) => PartIsSound(h, h.entries - {key}, caps);
      case Flush => PartIsSound(h, map[], caps);
      case Sweep => PartIsSound(h, Swept(h, now).entries, caps);
      case _ =>
    }
  }

  lemma {:induction false} RunKeeps(h: Held, ideal: Ideal, ops: seq<(Op, Time)>, codec: Codec, caps: Caps, end: Held,
      endIdeal: Ideal)
    requires Run(h, ideal, ops, codec, caps, end, endIdeal) && Agrees(h, ideal) && Sound(h, caps)
    ensures Agrees(end, endIdeal) && Sound(end, caps)
    decreases |ops|
  {
    if ops != [] {
      OpAgrees(h, ideal, ops[0].0, codec, caps, ops[0].1);
      OpIsSound(h, ops[0].0, codec, caps, ops[0].1);
      RunKeeps(After(h, ops[0].0, codec, caps, ops[0].1), IdealAfter(ideal, h, ops[0].0, codec, ops[0].1),
               ops[1..], codec, caps, end, endIdeal);
    }
  }

  /** After any run both caps hold, and a read answers the last value written
      to its key and not yet expired, or nothing. */
  lemma ReadsTheLastWrite(ops: seq<(Op, Time)>, codec: Codec, caps: Caps, end: Held, ideal: Ideal, key: Key, now: Time)
    requires Run(Held(map[], 0), map[], ops, codec, caps, end, ideal)
    ensures Fits(end.entries, caps)
    ensures var live := Live(end, key, now);
      live.Some? ==> key in ideal && ideal[key].0 == live.value.bytes
                     && (ideal[key].1.Some? ==> !Passed(ideal[key].1.value, now))
  {
    assert Total(map[]) == 0;
    RunKeeps(Held(map[], 0), map[], ops, codec, caps, end, ideal);
  }

  // -- what a write leaves to read -----------------------------------------------------

  lemma TotalOfOne(key: Key, entry: Entry)
    ensures Total(map[key := entry]) == Size(key, entry)
  {
    var m: Entries := map[];
    TotalWith(m, key, entry);
    assert m[key := entry] == map[key := entry];
  }

  ghost predicate FitsAlone(key: Key, bytes: Bytes, caps: Caps) {
    1 <= caps.entries && |key| + |bytes| <= caps.bytes
  }

  lemma OneFits(key: Key, entry: Entry, caps: Caps)
    ensures Fits(map[key := entry], caps) <==> FitsAlone(key, entry.bytes, caps)
  {
    TotalOfOne(key, entry);
  }

  /** The entry used last stays exactly when it fits alone, unless room was
      needed and it had expired. */
  lemma LatestStays(m: Entries, key: Key, caps: Caps, now: Time)
    requires key in m && forall k | k in m && k != key :: m[k].lastUsed < m[key].lastUsed
    ensures key in Enforced(m, caps, now)
      <==> FitsAlone(key, m[key].bytes, caps) && (Fits(m, caps) || !Expired(m[key], now))
  {
    OneFits(key, m[key], caps);
    PartIfFits(map[key := m[key]], m, caps);
    if !Expired(m[key], now) {
      assert Newer(m, m[key].lastUsed, now) == map[key := m[key]];
    }
  }

  /** What was just written can be read exactly when it fits alone and has not
      expired already: all else makes way for it. */
  lemma WrittenIsRead(h: Held, key: Key, bytes: Bytes, expiresAt: Option<Time>, caps: Caps, now: Time)
    requires Sound(h, caps)
    ensures var live := Live(Written(h, key, bytes, expiresAt, caps, now), key, now);
      && (live.Some? <==> FitsAlone(key, bytes, caps) && !(expiresAt.Some? && Passed(expiresAt.value, now)))
      && (live.Some? ==> live.value.bytes == bytes && live.value.expiresAt == expiresAt)
  {
    var m := Filled(h, key, bytes, expiresAt);
    LatestStays(m, key, caps, now);
    EnforcedKeeps(m, caps, now, key);
  }

  /** Written to last for `ttl`, from then on it can be read while neither clock
      has come so far, and without a limit for good. */
  lemma WrittenLasts(h: Held, key: Key, bytes: Bytes, ttl: Option<nat>, caps: Caps, now: Time, later: Time)
    requires Sound(h, caps) && later.monotonic >= now.monotonic && later.wall >= now.wall
    ensures var live := Live(Written(h, key, bytes, In(ttl, now), caps, now), key, later);
      && (live.Some? <==>
            && |key| + |bytes| <= caps.bytes && caps.entries > 0
            && (ttl.Some? ==> later.monotonic - now.monotonic < ttl.value && later.wall - now.wall < ttl.value))
      && (live.Some? ==> live.value.bytes == bytes)
  {
    var m := Filled(h, key, bytes, In(ttl, now));
    LatestStays(m, key, caps, now);
    EnforcedKeeps(m, caps, now, key);
  }

  lemma EnforcedKeeps(m: Entries, caps: Caps, now: Time, key: Key)
    ensures var kept := Enforced(m, caps, now); key in kept ==> key in m && kept[key] == m[key]
  {
  }

  lemma PartIfFits(part: Entries, m: Entries, caps: Caps)
    requires Part(part, m)
    ensures Fits(m, caps) ==> Fits(part, caps)
  {
    if Fits(m, caps) {
      PartFits(part, m, caps);
    }
  }

  ghost predicate WritesCounts(codec: Codec) {
    forall n :: codec.read(codec.write(n)) == Some(n)
  }

  /** `h` answers a read of `key` with the count `n`, if that fits at all. */
  ghost predicate Counts(h: Held, key: Key, n: int, codec: Codec, caps: Caps, now: Time) {
    var live := Live(h, key, now);
    (live.Some? <==> FitsAlone(key, codec.write(n), caps)) && (live.Some? ==> Count(live, codec) == n)
  }

  lemma WrittenCounts(h: Held, key: Key, n: int, expiresAt: Option<Time>, codec: Codec, caps: Caps, now: Time)
    requires Sound(h, caps) && WritesCounts(codec) && !(expiresAt.Some? && Passed(expiresAt.value, now))
    ensures Counts(Written(h, key, codec.write(n), expiresAt, caps, now), key, n, codec, caps, now)
  {
    WrittenIsRead(h, key, codec.write(n), expiresAt, caps, now);
  }

  lemma AfterIncrement(h: Held, key: Key, delta: int, codec: Codec, caps: Caps, now: Time)
    ensures After(h, Increment(key, delta), codec, caps, now)
         == Written(h, key, codec.write(Sum(h, key, delta, codec, now)), KeptDeadline(h, key), caps, now)
  {
  }

  /** An incremented key reads back as the sum exactly when it fits and was
      not there expired: the deadline it had missed is kept, so what is written
      over an expired entry can never be read. */
  lemma IncrementReadsBack(h: Held, key: Key, delta: int, codec: Codec, caps: Caps, now: Time)
    requires Sound(h, caps) && WritesCounts(codec)
    ensures
      var sum := Sum(h, key, delta, codec, now);
      var live := Live(After(h, Increment(key, delta), codec, caps, now), key, now);
      && (live.Some? <==> FitsAlone(key, codec.write(sum), caps) && !(key in h.entries && Expired(h.entries[key], now)))
      && (live.Some? ==> Count(live, codec) == sum)
  {
    AfterIncrement(h, key, delta, codec, caps, now);
    WrittenIsRead(h, key, codec.write(Sum(h, key, delta, codec, now)), KeptDeadline(h, key), caps, now);
  }

  lemma AfterIncrementIfBelow(h: Held, key: Key, max: int, ttl: Option<nat>, codec: Codec, caps: Caps, now: Time)
    requires Sum(h, key, 0, codec, now) < max
    ensures After(h, IncrementIfBelow(key, max, ttl), codec, caps, now)
         == Written(h, key, codec.write(Sum(h, key, 1, codec, now)), LiveDeadline(h, key, ttl, now), caps, now)
  {
  }

  /** One counted up to a limit reads back live, absent or expired. */
  lemma IncrementIfBelowReadsBack(h: Held, key: Key, max: int, ttl: nat, codec: Codec, caps: Caps, now: Time)
    requires Sound(h, caps) && WritesCounts(codec) && 0 < ttl && Sum(h, key, 0, codec, now) < max
    ensures Counts(After(h, IncrementIfBelow(key, max, Some(ttl)), codec, caps, now), key,
                   Sum(h, key, 1, codec, now), codec, caps, now)
  {
    AfterIncrementIfBelow(h, key, max, Some(ttl), codec, caps, now);
    WrittenCounts(h, key, Sum(h, key, 1, codec, now), LiveDeadline(h, key, Some(ttl), now), codec, caps, now);
  }

  predicate NotBefore(later: Time, now: Time) {
    later.monotonic >= now.monotonic && later.wall >= now.wall
  }

  /** Nor later, while the clocks go on. */
  lemma IncrementOfTheExpiredIsLost(h: Held, key: Key, delta: int, codec: Codec, caps: Caps, now: Time, later: Time)
    requires key in h.entries && Expired(h.entries[key], now) && NotBefore(later, now)
    ensures Live(After(h, Increment(key, delta), codec, caps, now), key, later).None?
  {
  }
}
