/**
 What a cache holds: entries, how much they weigh, and which of them stay when
 a cap is passed.
 */
module CacheEntries {
  import opened Common

  /** A reading of both clocks; a deadline on both, passed when either is. */
  datatype Time = Time(monotonic: int, wall: int)

  type Bytes = seq<int>

  /** Keys are the bytes of their names. */
  type Key = string

  datatype Entry = Entry(bytes: Bytes, expiresAt: Option<Time>, lastUsed: nat)

  datatype Caps = Caps(entries: nat, bytes: nat)

  predicate Passed(deadline: Time, now: Time) {
    now.monotonic >= deadline.monotonic || now.wall >= deadline.wall
  }

  predicate Expired(entry: Entry, now: Time) {
    entry.expiresAt.Some? && Passed(entry.expiresAt.value, now)
  }

  function In(ttl: Option<nat>, now: Time): Option<Time> {
    if ttl.None? then None else Some(Time(now.monotonic + ttl.value, now.wall + ttl.value))
  }

  function Size(key: Key, entry: Entry): nat {
    |key| + |entry.bytes|
  }

  type Entries = map<Key, Entry>

  // -- weight --------------------------------------------------------------------------

  ghost function Total(m: Entries): nat {
    if m == map[] then 0
    else
      var k :| k in m;
      Size(k, m[k]) + Total(m - {k})
  }

  /** Whichever entry is set aside, the rest and it make the total. */
  lemma {:induction false} TotalWithout(m: Entries, key: Key)
    requires key in m
    ensures Total(m) == Size(key, m[key]) + Total(m - {key})
  {
    var k :| k in m && Total(m) == Size(k, m[k]) + Total(m - {k});
    if k != key {
      TotalWithout(m - {k}, key);
      TotalWithout(m - {key}, k);
      assert m - {k} - {key} == m - {key} - {k};
    }
  }

  ghost predicate Part(part: Entries, m: Entries) {
    part.Keys <= m.Keys && forall k | k in part :: part[k] == m[k]
  }

  lemma {:induction false} PartWeighsLess(part: Entries, m: Entries)
    requires Part(part, m)
    ensures Total(part) <= Total(m) && |part| <= |m|
    decreases |m|
  {
    if part != map[] {
      var k :| k in part;
      TotalWithout(part, k);
      TotalWithout(m, k);
      PartWeighsLess(part - {k}, m - {k});
    }
  }

  lemma TotalWith(m: Entries, key: Key, entry: Entry)
    requires key !in m
    ensures Total(m[key := entry]) == Total(m) + Size(key, entry)
  {
    TotalWithout(m[key := entry], key);
    assert m[key := entry] - {key} == m;
  }

  lemma Replaced(m: Entries, key: Key, entry: Entry)
    ensures (m - {key})[key := entry] == m[key := entry]
  {
  }

  ghost predicate Fits(m: Entries, caps: Caps) {
    |m| <= caps.entries && Total(m) <= caps.bytes
  }

  lemma PartFits(part: Entries, m: Entries, caps: Caps)
    requires Part(part, m) && Fits(m, caps)
    ensures Fits(part, caps)
  {
    PartWeighsLess(part, m);
  }

  // -- what stays ----------------------------------------------------------------------

  /** The live entries last used at `since` or later. */
  ghost function Newer(m: Entries, since: nat, now: Time): Entries {
    map k | k in m && !Expired(m[k], now) && since <= m[k].lastUsed :: m[k]
  }

  /** What is left once the caps are seen to: all of it when it fits; else the
      live entries that fit together with everything used after them. */
  ghost function Enforced(m: Entries, caps: Caps, now: Time): Entries {
    if Fits(m, caps) then m
    else map k | k in m && !Expired(m[k], now) && Fits(Newer(m, m[k].lastUsed, now), caps) :: m[k]
  }

  ghost predicate Distinct(m: Entries) {
    forall j, k | j in m && k in m && m[j].lastUsed == m[k].lastUsed :: j == k
  }

  /** A part of the live entries that holds, with each, all used after it. */
  ghost predicate Newest(kept: Entries, m: Entries, now: Time) {
    && Part(kept, m)
    && (forall k | k in kept :: !Expired(m[k], now))
    && (forall j, k | j in kept && k in m && !Expired(m[k], now) && m[j].lastUsed <= m[k].lastUsed :: k in kept)
  }

  lemma NewestFromHere(kept: Entries, m: Entries, now: Time, k: Key)
    requires Newest(kept, m, now) && k in kept
    ensures Part(Newer(m, m[k].lastUsed, now), kept)
  {
  }

  lemma NewestFromOldest(kept: Entries, m: Entries, now: Time, oldest: Key)
    requires Newest(kept, m, now) && Distinct(m) && oldest in kept
    requires forall k | k in kept :: m[oldest].lastUsed <= m[k].lastUsed
    ensures Newer(m, m[oldest].lastUsed, now) == kept
  {
  }

  /** What stays fits, whatever the cap was passed by. */
  lemma EnforcedFits(m: Entries, caps: Caps, now: Time)
    requires Distinct(m)
    ensures Fits(Enforced(m, caps, now), caps)
  {
    var kept := Enforced(m, caps, now);
    if !Fits(m, caps) && kept != map[] {
      EnforcedIsNewest(m, caps, now);
      var oldest := OldestIn(kept);
      NewestFromOldest(kept, m, now, oldest);
    }
  }

  lemma {:induction false} OldestIn(m: Entries) returns (oldest: Key)
    requires m != map[]
    ensures oldest in m && forall k | k in m :: m[oldest].lastUsed <= m[k].lastUsed
    decreases |m|
  {
    var key :| key in m;
    oldest := key;
    if m - {key} != map[] {
      var other := OldestIn(m - {key});
      oldest := if m[other].lastUsed < m[key].lastUsed then other else key;
      assert forall k | k in m :: k == key || k in m - {key};
    } else {
      assert forall k | k in m :: k == key || k in m - {key};
    }
  }

  lemma EnforcedIsNewest(m: Entries, caps: Caps, now: Time)
    requires !Fits(m, caps)
    ensures Newest(Enforced(m, caps, now), m, now)
  {
    var kept := Enforced(m, caps, now);
    forall j, k | j in kept && k in m && !Expired(m[k], now) && m[j].lastUsed <= m[k].lastUsed
      ensures k in kept
    {
      PartFits(Newer(m, m[k].lastUsed, now), Newer(m, m[j].lastUsed, now), caps);
    }
  }

  /** A live entry that `kept` lets go. */
  ghost predicate Evicted(k: Key, kept: Entries, m: Entries, now: Time) {
    k in m && k !in kept && !Expired(m[k], now)
  }

  lemma NewestGone(kept: Entries, m: Entries, now: Time, k: Key)
    requires Newest(kept, m, now) && Distinct(m) && Evicted(k, kept, m, now)
    requires forall j | Evicted(j, kept, m, now) :: m[j].lastUsed <= m[k].lastUsed
    ensures Newer(m, m[k].lastUsed, now) == kept[k := m[k]]
  {
    var newer := Newer(m, m[k].lastUsed, now);
    forall j
      ensures j in newer <==> j in kept || j == k
    {
      assert j in newer && j !in kept ==> Evicted(j, kept, m, now);
    }
  }

  /** Only expired entries go, and live ones used before every survivor, and no
      more than needed: with the newest live one that went, the survivors
      would not fit. */
  lemma EnforcedDropsTheOldest(m: Entries, caps: Caps, now: Time, k: Key)
    requires Distinct(m) && Evicted(k, Enforced(m, caps, now), m, now)
    ensures var kept := Enforced(m, caps, now);
      && Part(kept, m)
      && (forall j | j in kept :: !Expired(m[j], now) && m[k].lastUsed < m[j].lastUsed)
      && ((forall j | Evicted(j, kept, m, now) :: m[j].lastUsed <= m[k].lastUsed) ==> !Fits(kept[k := m[k]], caps))
  {
    var kept := Enforced(m, caps, now);
    EnforcedIsNewest(m, caps, now);
    if forall j | Evicted(j, kept, m, now) :: m[j].lastUsed <= m[k].lastUsed {
      NewestGone(kept, m, now, k);
    }
  }

  /** With any live entry let go, everything used after it did not fit. */
  ghost predicate Needed(kept: Entries, m: Entries, caps: Caps, now: Time) {
    forall k | Evicted(k, kept, m, now) :: !Fits(Newer(m, m[k].lastUsed, now), caps)
  }

  /** While the caps are passed, the least recently used goes. */
  lemma EvictOne(kept: Entries, m: Entries, caps: Caps, now: Time, oldest: Key)
    requires Newest(kept, m, now) && Needed(kept, m, caps, now) && Distinct(m) && !Fits(kept, caps)
    requires oldest in kept && forall k | k in kept :: kept[oldest].lastUsed <= kept[k].lastUsed
    ensures Newest(kept - {oldest}, m, now) && Needed(kept - {oldest}, m, caps, now)
  {
    NewestFromOldest(kept, m, now, oldest);
    forall k | Evicted(k, kept - {oldest}, m, now)
      ensures !Fits(Newer(m, m[k].lastUsed, now), caps)
    {
      assert k == oldest || Evicted(k, kept, m, now);
    }
  }

  /** What fits once only what had to go went, is what stays. */
  lemma NewestThatFits(kept: Entries, m: Entries, caps: Caps, now: Time)
    requires Newest(kept, m, now) && Needed(kept, m, caps, now) && !Fits(m, caps) && Fits(kept, caps)
    ensures kept == Enforced(m, caps, now)
  {
    forall k | k in m && !Expired(m[k], now)
      ensures k in kept <==> Fits(Newer(m, m[k].lastUsed, now), caps)
    {
      if k in kept {
        NewestFromHere(kept, m, now, k);
        PartFits(Newer(m, m[k].lastUsed, now), kept, caps);
      } else {
        assert Evicted(k, kept, m, now);
      }
    }
  }

  // -- what is used --------------------------------------------------------------------

  ghost predicate UsedBy(m: Entries, clock: nat) {
    forall k | k in m :: m[k].lastUsed <= clock
  }

  /** A write stamps its entry newer than all others. */
  lemma StampedIsDistinct(m: Entries, key: Key, entry: Entry, clock: nat)
    requires Distinct(m) && UsedBy(m, clock) && entry.lastUsed == clock + 1
    ensures Distinct(m[key := entry]) && UsedBy(m[key := entry], clock + 1)
  {
  }

  /** A read weighs nothing. */
  lemma TouchedWeighsTheSame(m: Entries, key: Key, stamp: nat)
    requires key in m
    ensures var touched := m[key := m[key].(lastUsed := stamp)];
      Total(touched) == Total(m) && |touched| == |m|
  {
    var touched := m[key := m[key].(lastUsed := stamp)];
    TotalWithout(m, key);
    TotalWithout(touched, key);
    assert touched - {key} == m - {key};
    assert touched.Keys == m.Keys && |touched| == |touched.Keys|;
  }

  lemma EnforcedIsUsedBy(m: Entries, caps: Caps, now: Time, clock: nat)
    requires Distinct(m) && UsedBy(m, clock)
    ensures var kept := Enforced(m, caps, now); Distinct(kept) && UsedBy(kept, clock)
  {
  }
}
