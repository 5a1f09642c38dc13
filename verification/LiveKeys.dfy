/**
 Live-query keys of backend paths: which reads a write must re-run, and which
 it must not. Keys first, then their spelling as strings.
 */
module LiveKeys {
  import opened Common

  /** A path's segment: an id, or a word. */
  datatype Segment = Id(text: string) | Word(text: string)

  // -- keys -----------------------------------------------------------------------

  type Path = seq<Segment>

  /** A resource or record, or the lists of a resource. */
  datatype Key = Resource(path: Path) | Lists(path: Path)

  /** The resource of a path: the path without trailing ids. */
  function Strip(p: Path): (r: Path)
    ensures r <= p
    ensures forall i | |r| <= i < |p| :: p[i].Id?
    ensures r != [] ==> r[|r| - 1].Word?
  {
    if p != [] && p[|p| - 1].Id? then Strip(p[..|p| - 1]) else p
  }

  /** Each path `p` is under, the longest first. */
  function Under(p: Path): seq<Key> {
    if p == [] then [] else [Resource(p)] + Under(p[..|p| - 1])
  }

  predicate EndsInId(p: Path) {
    p != [] && p[|p| - 1].Id?
  }

  /** A record's own key; or the lists of the resource, and of the collection
      it is a part of. */
  function OwnKeys(p: Path, withLists: bool): seq<Key> {
    if EndsInId(p) then [Resource(p)] + (if withLists then [Lists(Strip(p))] else [])
    else [Lists(Strip(p))]
         + if |p| >= 2 && p[|p| - 2].Word? then [Lists(Strip(p[..|p| - 1]))] else []
  }

  /** Before duplicates go. */
  function AllReadKeys(p: Path, withLists: bool): seq<Key> {
    Under(Strip(p)) + OwnKeys(p, withLists)
  }

  function ReadKeys(p: Path, withLists: bool): seq<Key> {
    Dedup(AllReadKeys(p, withLists))
  }

  /** Each record among the first `n` segments, with the lists it is in. */
  function RecordKeys(p: Path, n: nat): seq<Key>
    requires n <= |p|
  {
    if n == 0 then []
    else RecordKeys(p, n - 1)
         + if n > 1 && p[n - 1].Id? then [Resource(p[..n]), Lists(Strip(p[..n - 1]))] else []
  }

  function AllWriteKeys(p: Path): seq<Key> {
    RecordKeys(p, |p|) + [Lists(Strip(p))]
  }

  function WriteKeys(p: Path): seq<Key> {
    Dedup(AllWriteKeys(p))
  }

  ghost predicate Share(write: Path, read: Path, withLists: bool) {
    exists k :: k in WriteKeys(write) && k in ReadKeys(read, withLists)
  }

  // -- membership -------------------------------------------------------------------

  lemma {:induction false} InUnder(k: Key, p: Path)
    ensures k in Under(p) <==> k.Resource? && 1 <= |k.path| && k.path <= p
  {
    if p != [] {
      InUnder(k, p[..|p| - 1]);
      assert k.path <= p && k.path != p ==> k.path <= p[..|p| - 1];
    }
  }

  /** `r` is a record on the way of `p`: an id, not the first segment, ends it. */
  predicate RecordOn(p: Path, r: Path) {
    |r| >= 2 && r <= p && r[|r| - 1].Id?
  }

  /** The m-th segment ends a record. */
  predicate EndsRecord(p: Path, m: nat) {
    2 <= m <= |p| && p[m - 1].Id?
  }

  lemma InLastRecordKeys(k: Key, p: Path, n: nat)
    requires 0 < n <= |p|
    ensures k in RecordKeys(p, n) <==>
      || k in RecordKeys(p, n - 1)
      || (EndsRecord(p, n) && (k == Resource(p[..n]) || k == Lists(Strip(p[..n - 1]))))
  {
  }

  lemma {:induction false} InRecordKeys(k: Key, p: Path, n: nat)
    requires n <= |p|
    ensures k in RecordKeys(p, n) <==>
      exists m: nat :: m <= n && EndsRecord(p, m) && (k == Resource(p[..m]) || k == Lists(Strip(p[..m - 1])))
  {
    if n > 0 {
      InRecordKeys(k, p, n - 1);
      InLastRecordKeys(k, p, n);
    }
  }

  /** A record's key is among a write's exactly when the write passes through it. */
  lemma RecordInWriteKeys(r: Path, p: Path)
    ensures Resource(r) in WriteKeys(p) <==> RecordOn(p, r)
  {
    InRecordKeys(Resource(r), p, |p|);
    assert forall m: nat | EndsRecord(p, m) :: p[..m][m - 1] == p[m - 1];
    if RecordOn(p, r) {
      assert EndsRecord(p, |r|) && r == p[..|r|];
    }
  }

  lemma ListsInWriteKeys(c: Path, p: Path)
    ensures Lists(c) in WriteKeys(p) <==>
      (exists m: nat :: EndsRecord(p, m) && c == Strip(p[..m - 1])) || c == Strip(p)
  {
    InRecordKeys(Lists(c), p, |p|);
  }

  lemma InWriteKeys(k: Key, p: Path)
    ensures k in WriteKeys(p) <==>
      || (k.Resource? && RecordOn(p, k.path))
      || (k.Lists? && exists m: nat :: EndsRecord(p, m) && k.path == Strip(p[..m - 1]))
      || k == Lists(Strip(p))
  {
    if k.Resource? { RecordInWriteKeys(k.path, p); } else { ListsInWriteKeys(k.path, p); }
  }

  /** The keys of a path that ends in an id: what it is under, itself, and its
      lists if they were asked for. */
  lemma InRecordReadKeys(k: Key, p: Path, withLists: bool)
    requires EndsInId(p)
    ensures k in ReadKeys(p, withLists) <==>
      || (k.Resource? && 1 <= |k.path| && k.path <= Strip(p))
      || k == Resource(p)
      || (withLists && k == Lists(Strip(p)))
  {
    InUnder(k, Strip(p));
  }

  /** The keys of any other: what it is under, its lists, and those of the
      collection it is a part of. */
  lemma InListReadKeys(k: Key, p: Path, withLists: bool)
    requires !EndsInId(p)
    ensures k in ReadKeys(p, withLists) <==>
      || (k.Resource? && 1 <= |k.path| && k.path <= p)
      || k == Lists(p)
      || (|p| >= 2 && p[|p| - 2].Word? && k == Lists(p[..|p| - 1]))
  {
    InUnder(k, Strip(p));
    if |p| >= 2 && p[|p| - 2].Word? {
      assert p[..|p| - 1][|p| - 2] == p[|p| - 2];
    }
  }

  lemma InReadKeys(k: Key, p: Path, withLists: bool)
    ensures k in ReadKeys(p, withLists) <==>
      || (k.Resource? && 1 <= |k.path| && k.path <= Strip(p))
      || (EndsInId(p) && (k == Resource(p) || (withLists && k == Lists(Strip(p)))))
      || (!EndsInId(p) && k == Lists(p))
      || (!EndsInId(p) && |p| >= 2 && p[|p| - 2].Word? && k == Lists(p[..|p| - 1]))
  {
    if EndsInId(p) { InRecordReadKeys(k, p, withLists); } else { InListReadKeys(k, p, withLists); }
  }

  // -- completeness -----------------------------------------------------------------

  /** No id directly follows an id. */
  predicate Separate(p: Path) {
    forall i | 0 < i < |p| :: !(p[i - 1].Id? && p[i].Id?)
  }

  /** The collection a record is in. */
  function Collection(r: Path): Path
    requires r != []
  {
    r[..|r| - 1]
  }

  /** What must be read again when record `r` changed: `r`, anything under it,
      its collection's lists, and a part of the collection. */
  predicate Concerns(p: Path, r: Path)
    requires r != []
  {
    || r <= p
    || p == Collection(r)
    || (|p| == |r| && Collection(p) == Collection(r) && p[|p| - 1].Word?)
  }

  lemma ListsAreWritten(write: Path, r: Path)
    requires RecordOn(write, r) && Separate(write)
    ensures Lists(Collection(r)) in WriteKeys(write) && EndsInWord(Collection(r))
  {
    var c, n := Collection(r), |r|;
    assert r == write[..n] && r[n - 1] == write[n - 1] && c == write[..n - 1];
    assert c[n - 2] == write[n - 2] && write[n - 2].Word?;
    assert EndsRecord(write, n) && c == Strip(c);
    ListsInWriteKeys(c, write);
  }

  predicate EndsInWord(c: Path) {
    c != [] && c[|c| - 1].Word?
  }

  lemma ListsAreRead(c: Path, read: Path, withLists: bool)
    requires EndsInWord(c)
    requires read == c || (|read| == |c| + 1 && read[..|c|] == c && read[|c|].Word?)
    ensures Lists(c) in ReadKeys(read, withLists)
  {
    InListReadKeys(Lists(c), read, withLists);
    assert |read| == |c| + 1 ==> read[|read| - 2] == c[|c| - 1];
  }

  /** A write that passes through a record re-runs every read it concerns. */
  lemma WritesReachReads(write: Path, r: Path, read: Path, withLists: bool)
    requires RecordOn(write, r) && Separate(write) && Separate(read) && Concerns(read, r)
    ensures Share(write, read, withLists)
  {
    if r <= read {
      RecordInWriteKeys(r, write);
      ReadUnderDepends(r, read, withLists);
    } else {
      ListsAreWritten(write, r);
      ListsAreRead(Collection(r), read, withLists);
    }
  }

  /** A read under a record depends on it exactly when it is the record itself
      or goes on to something that isn't an id. */
  lemma ReadUnderDependsExactly(r: Path, read: Path, withLists: bool)
    requires |r| >= 2 && r[|r| - 1].Id? && r <= read
    ensures Resource(r) in ReadKeys(read, withLists) <==>
      read == r || exists i :: |r| <= i < |read| && read[i].Word?
  {
    InReadKeys(Resource(r), read, withLists);
    var s := Strip(read);
    if exists i :: |r| <= i < |read| && read[i].Word? {
      var i :| |r| <= i < |read| && read[i].Word?;
      assert i < |s|;
      assert r <= s;
    } else {
      assert s != [] ==> s[|s| - 1] == read[|s| - 1];
      assert read[|r| - 1] == r[|r| - 1];
    }
  }

  lemma ReadUnderDepends(r: Path, read: Path, withLists: bool)
    requires |r| >= 2 && r[|r| - 1].Id? && r <= read && Separate(read)
    ensures Resource(r) in ReadKeys(read, withLists)
  {
    ReadUnderDependsExactly(r, read, withLists);
    if read != r {
      assert read[|r| - 1] == r[|r| - 1];
      assert read[|r|].Word?;
    }
  }

  // -- a record that is the first segment --------------------------------------------

  /** `k` with `a` before its path. */
  function Behind(a: Segment, k: Key): Key {
    match k case Resource(p) => Resource([a] + p) case Lists(p) => Lists([a] + p)
  }

  predicate StartsWithWord(p: Path) {
    p != [] && p[0].Word?
  }

  lemma WordFollows(x: Segment, t: Path)
    requires x.Id? && Separate([x] + t) && t != []
    ensures StartsWithWord(t)
  {
    assert ([x] + t)[0].Id? && ([x] + t)[1] == t[0];
  }

  lemma {:induction false} StripBehind(a: Segment, t: Path)
    requires StartsWithWord(t)
    ensures Strip([a] + t) == [a] + Strip(t) && StartsWithWord(Strip(t))
    decreases |t|
  {
    if EndsInId(t) {
      assert ([a] + t)[..|[a] + t| - 1] == [a] + t[..|t| - 1];
      StripBehind(a, t[..|t| - 1]);
    }
  }

  lemma RecordOnBehind(a: Segment, t: Path, r: Path)
    requires a.Id? && StartsWithWord(t)
    ensures RecordOn([a] + t, r) <==> r != [] && r[0] == a && RecordOn(t, r[1..])
  {
    var p := [a] + t;
    if RecordOn(p, r) {
      assert r[0] == p[0] && r[1] == p[1] && r[1..] == t[..|r| - 1];
    }
    if r != [] && r[0] == a && RecordOn(t, r[1..]) {
      assert r == [a] + r[1..];
    }
  }

  lemma RecordEndBehind(a: Segment, t: Path, m: nat)
    requires a.Id? && StartsWithWord(t) && EndsRecord([a] + t, m)
    ensures m > 2 && EndsRecord(t, m - 1) && Strip(([a] + t)[..m - 1]) == [a] + Strip(t[..m - 2])
  {
    assert ([a] + t)[m - 1] == t[m - 2];
    assert ([a] + t)[..m - 1] == [a] + t[..m - 2];
    StripBehind(a, t[..m - 2]);
  }

  lemma RecordEndAhead(a: Segment, t: Path, m: nat)
    requires StartsWithWord(t) && EndsRecord(t, m)
    ensures EndsRecord([a] + t, m + 1) && Strip(([a] + t)[..m]) == [a] + Strip(t[..m - 1])
  {
    assert ([a] + t)[m] == t[m - 1];
    assert ([a] + t)[..m] == [a] + t[..m - 1];
    StripBehind(a, t[..m - 1]);
  }

  lemma WriteKeysBehind(a: Segment, t: Path, k: Key)
    requires a.Id? && StartsWithWord(t)
    ensures Behind(a, k) in WriteKeys([a] + t) <==> k in WriteKeys(t)
  {
    var p, c := [a] + t, [a] + k.path;
    assert c[1..] == k.path;
    StripBehind(a, t);
    RecordInWriteKeys(k.path, t);
    RecordInWriteKeys(c, p);
    RecordOnBehind(a, t, c);
    ListsInWriteKeys(k.path, t);
    ListsInWriteKeys(c, p);
    if k.Lists? && c != Strip(p) {
      if exists m: nat :: EndsRecord(p, m) && c == Strip(p[..m - 1]) {
        var m: nat :| EndsRecord(p, m) && c == Strip(p[..m - 1]);
        RecordEndBehind(a, t, m);
      }
      if exists m: nat :: EndsRecord(t, m) && k.path == Strip(t[..m - 1]) {
        var m: nat :| EndsRecord(t, m) && k.path == Strip(t[..m - 1]);
        RecordEndAhead(a, t, m);
      }
    }
  }

  /** A write's keys are all behind the id it begins with. */
  lemma WriteKeysBeginWith(a: Segment, t: Path, k: Key)
    requires a.Id? && StartsWithWord(t) && k in WriteKeys([a] + t)
    ensures k.path != [] && k.path[0] == a
  {
    InWriteKeys(k, [a] + t);
    StripBehind(a, t);
    if k.Lists? && k != Lists(Strip([a] + t)) {
      var m: nat :| EndsRecord([a] + t, m) && k.path == Strip(([a] + t)[..m - 1]);
      RecordEndBehind(a, t, m);
    } else if k.Resource? {
      RecordOnBehind(a, t, k.path);
    }
  }

  lemma BehindMeets(a: Segment, p: Path, q: Path)
    ensures [a] + p <= [a] + q <==> p <= q
    ensures [a] + p == [a] + q <==> p == q
  {
    assert ([a] + p)[1..] == p && ([a] + q)[1..] == q;
  }

  lemma RecordReadKeysBehind(a: Segment, u: Path, k: Key, withLists: bool)
    requires StartsWithWord(u) && k.path != [] && EndsInId(u)
    ensures Behind(a, k) in ReadKeys([a] + u, withLists) <==> k in ReadKeys(u, withLists)
  {
    StripBehind(a, u);
    BehindMeets(a, k.path, u);
    BehindMeets(a, k.path, Strip(u));
    InRecordReadKeys(k, u, withLists);
    InRecordReadKeys(Behind(a, k), [a] + u, withLists);
  }

  lemma ListReadKeysBehind(a: Segment, u: Path, k: Key, withLists: bool)
    requires a.Id? && StartsWithWord(u) && k.path != [] && !EndsInId(u)
    ensures Behind(a, k) in ReadKeys([a] + u, withLists) <==> k in ReadKeys(u, withLists)
  {
    var p := [a] + u;
    assert p[..|p| - 1] == [a] + u[..|u| - 1];
    BehindMeets(a, k.path, u);
    BehindMeets(a, k.path, u[..|u| - 1]);
    InListReadKeys(k, u, withLists);
    InListReadKeys(Behind(a, k), p, withLists);
  }

  lemma ReadKeysBehind(a: Segment, u: Path, k: Key, withLists: bool)
    requires a.Id? && StartsWithWord(u) && k.path != []
    ensures Behind(a, k) in ReadKeys([a] + u, withLists) <==> k in ReadKeys(u, withLists)
  {
    if EndsInId(u) { RecordReadKeysBehind(a, u, k, withLists); } else { ListReadKeysBehind(a, u, k, withLists); }
  }

  lemma ReadKeysBeginWith(read: Path, k: Key, withLists: bool)
    requires k in ReadKeys(read, withLists) && k.path != []
    ensures read != [] && k.path[0] == read[0]
  {
    InReadKeys(k, read, withLists);
  }

  /** No key but the lists of nothing has no path. */
  lemma WriteKeysOfNothing(write: Path)
    requires StartsWithWord(write)
    ensures forall k | k in WriteKeys(write) :: k.path != []
  {
    forall k | k in WriteKeys(write) ensures k.path != [] {
      InWriteKeys(k, write);
      if exists m: nat :: EndsRecord(write, m) && k.path == Strip(write[..m - 1]) {
        var m: nat :| EndsRecord(write, m) && k.path == Strip(write[..m - 1]);
        assert write[..m - 1][0] == write[0];
      }
    }
  }

  lemma ReadKeysOfNothing(read: Path, withLists: bool)
    requires Separate(read)
    ensures Lists([]) in ReadKeys(read, withLists)
      <==> read == [] || (|read| == 1 && read[0].Id? && withLists)
  {
    InReadKeys(Lists([]), read, withLists);
    if read != [] && read[0].Word? {
      assert |Strip(read)| > 0;
    } else if |read| > 1 {
      assert read[1].Word?;
      assert |Strip(read)| > 1;
    }
  }

  lemma BareIdShares(x: Segment, read: Path, withLists: bool)
    requires x.Id? && Separate(read)
    ensures Share([x], read, withLists) <==> read == [] || (|read| == 1 && read[0].Id? && withLists)
  {
    ReadKeysOfNothing(read, withLists);
    forall k | k in WriteKeys([x]) ensures k == Lists([]) {
      InWriteKeys(k, [x]);
    }
    InWriteKeys(Lists([]), [x]);
  }

  function Ahead(k: Key): Key
    requires k.path != []
  {
    match k case Resource(p) => Resource(p[1..]) case Lists(p) => Lists(p[1..])
  }

  lemma AheadIsBehind(a: Segment, k: Key)
    requires k.path != [] && k.path[0] == a
    ensures Behind(a, Ahead(k)) == k
  {
  }

  lemma SharedAhead(x: Segment, t: Path, u: Path, withLists: bool, k: Key)
    requires x.Id? && StartsWithWord(t) && StartsWithWord(u)
    requires k in WriteKeys([x] + t) && k in ReadKeys([x] + u, withLists)
    ensures Share(t, u, withLists)
  {
    WriteKeysBeginWith(x, t, k);
    AheadIsBehind(x, k);
    WriteKeysBehind(x, t, Ahead(k));
    WriteKeysOfNothing(t);
    ReadKeysBehind(x, u, Ahead(k), withLists);
  }

  lemma SharedBehind(x: Segment, t: Path, u: Path, withLists: bool, k: Key)
    requires x.Id? && StartsWithWord(t) && StartsWithWord(u)
    requires k in WriteKeys(t) && k in ReadKeys(u, withLists)
    ensures Share([x] + t, [x] + u, withLists)
  {
    WriteKeysOfNothing(t);
    WriteKeysBehind(x, t, k);
    ReadKeysBehind(x, u, k, withLists);
  }

  lemma BehindShares(x: Segment, t: Path, u: Path, withLists: bool)
    requires x.Id? && StartsWithWord(t) && StartsWithWord(u)
    ensures Share([x] + t, [x] + u, withLists) <==> Share(t, u, withLists)
  {
    if Share([x] + t, [x] + u, withLists) {
      var k :| k in WriteKeys([x] + t) && k in ReadKeys([x] + u, withLists);
      SharedAhead(x, t, u, withLists, k);
    }
    if Share(t, u, withLists) {
      var k :| k in WriteKeys(t) && k in ReadKeys(u, withLists);
      SharedBehind(x, t, u, withLists, k);
    }
  }

  lemma OthersAreSpared(x: Segment, t: Path, read: Path, withLists: bool)
    requires x.Id? && StartsWithWord(t) && Separate(read) && (|read| <= 1 || read[0] != x)
    ensures !Share([x] + t, read, withLists)
  {
    forall k | k in WriteKeys([x] + t) && k in ReadKeys(read, withLists) ensures false {
      WriteKeysBeginWith(x, t, k);
      ReadKeysBeginWith(read, k, withLists);
      InReadKeys(k, read, withLists);
      InWriteKeys(k, [x] + t);
      StripBehind(x, t);
    }
  }

  /** Exactly which reads a write that begins with an id re-runs. To that first
      record itself, it re-runs reads of the root, and of a record there only
      if they asked for its lists: a write to `/42` spares a plain read of
      `/42`. Under it, the reads that the rest of its path would. */
  lemma FirstRecordSharesExactly(x: Segment, t: Path, read: Path, withLists: bool)
    requires x.Id? && Separate([x] + t) && Separate(read)
    ensures Share([x] + t, read, withLists) <==>
      if t == [] then read == [] || (|read| == 1 && read[0].Id? && withLists)
      else |read| > 1 && read[0] == x && Share(t, read[1..], withLists)
  {
    if t == [] {
      assert [x] + t == [x];
      BareIdShares(x, read, withLists);
    } else {
      WordFollows(x, t);
      if |read| > 1 && read[0] == x {
        assert read == [x] + read[1..];
        WordFollows(x, read[1..]);
        BehindShares(x, t, read[1..], withLists);
      } else {
        OthersAreSpared(x, t, read, withLists);
      }
    }
  }

  /** So a write to a first record misses every read of it and under it but
      itself with its lists. */
  lemma FirstRecordIsMissed(x: Segment, read: Path, withLists: bool)
    requires x.Id? && [x] <= read && Separate(read)
    ensures Share([x], read, withLists) <==> read == [x] && withLists
    ensures !Share([x], [x], false)
  {
    assert [x] + [] == [x];
    FirstRecordSharesExactly(x, [], read, withLists);
    FirstRecordSharesExactly(x, [], [x], false);
  }

  // -- precision ----------------------------------------------------------------------

  predicate NoIds(p: Path) {
    forall i | 0 <= i < |p| :: p[i].Word?
  }

  lemma StripWithout(c: Path, x: Segment, t: Path, m: nat)
    requires c != [] && NoIds(c) && |c| <= m <= |c| + 1 + |t|
    ensures var s := Strip((c + [x] + t)[..m]); s == c || (|s| > |c| && s[|c|] == x)
  {
    var p := c + [x] + t;
    var s := Strip(p[..m]);
    assert p[..m][|c| - 1] == c[|c| - 1];
    assert |s| == |c| ==> s == c;
    assert |s| > |c| ==> s[|c|] == p[|c|];
  }

  lemma RecordOnHasRecord(r: Path, c: Path, a: Segment, t: Path)
    requires c != [] && NoIds(c) && RecordOn(c + [a] + t, r)
    ensures |r| > |c| && r[|c|] == a
  {
    var w := c + [a] + t;
    assert r[|r| - 1] == w[|r| - 1];
    assert forall i | 0 <= i < |c| :: w[i] == c[i];
    assert |r| > |c| ==> r[|c|] == w[|c|];
  }

  lemma RecordEndsBehind(c: Path, a: Segment, t: Path, m: nat)
    requires c != [] && NoIds(c) && EndsRecord(c + [a] + t, m)
    ensures m > |c|
  {
    assert forall i | 0 <= i < |c| :: (c + [a] + t)[i] == c[i];
  }

  lemma ListsHaveRecord(c: Path, a: Segment, t: Path, m: nat)
    requires c != [] && NoIds(c) && EndsRecord(c + [a] + t, m)
    ensures var s := Strip((c + [a] + t)[..m - 1]); s == c || (|s| > |c| && s[|c|] == a)
  {
    RecordEndsBehind(c, a, t, m);
    StripWithout(c, a, t, m - 1);
  }

  lemma WriteKeyHasRecord(k: Key, c: Path, a: Segment, t: Path)
    requires c != [] && NoIds(c) && k in WriteKeys(c + [a] + t)
    ensures k == Lists(c) || (|k.path| > |c| && k.path[|c|] == a)
  {
    var w := c + [a] + t;
    InWriteKeys(k, w);
    if k.Resource? {
      RecordOnHasRecord(k.path, c, a, t);
    } else if k == Lists(Strip(w)) {
      assert w[..|w|] == w;
      StripWithout(c, a, t, |w|);
    } else {
      var m: nat :| EndsRecord(w, m) && k.path == Strip(w[..m - 1]);
      ListsHaveRecord(c, a, t, m);
    }
  }

  lemma ReadKeyHasRecord(k: Key, c: Path, b: Segment, u: Path)
    requires c != [] && NoIds(c) && b.Id? && k in ReadKeys(c + [b] + u, false)
    ensures k.Lists? ==> |k.path| > |c| && k.path[|c|] == b
    ensures k.Resource? && |k.path| > |c| ==> k.path[|c|] == b
  {
    var p := c + [b] + u;
    InReadKeys(k, p, false);
    if k.Lists? && k != Lists(p) {
      assert |p| - 2 != |c|;
      assert |u| > 0;
    }
  }

  /** A write to one record, or under it, re-runs no plain read of another
      record of the collection, nor one under it. */
  lemma WritesSpareOtherRecords(c: Path, a: Segment, t: Path, b: Segment, u: Path)
    requires c != [] && NoIds(c) && b.Id? && a != b
    ensures !Share(c + [a] + t, c + [b] + u, false)
  {
    forall k | k in WriteKeys(c + [a] + t) && k in ReadKeys(c + [b] + u, false) ensures false {
      WriteKeyHasRecord(k, c, a, t);
      ReadKeyHasRecord(k, c, b, u);
    }
  }

  /** A create re-runs no plain read of a record of the collection. */
  lemma CreatesSpareRecords(c: Path, b: Segment, u: Path)
    requires c != [] && NoIds(c) && b.Id?
    ensures !Share(c, c + [b] + u, false)
  {
    forall k | k in WriteKeys(c) && k in ReadKeys(c + [b] + u, false) ensures false {
      InWriteKeys(k, c);
      ReadKeyHasRecord(k, c, b, u);
    }
  }

  lemma RecordOnTheWay(c: Path, i: nat)
    requires 0 < i < |Strip(c)| && c[i].Id?
    ensures var r := Strip(c)[..i + 1]; r <= Strip(c) <= c && |r| == i + 1 >= 2 && r[i].Id?
  {
    assert Strip(c)[..i + 1][i] == c[i];
  }

  lemma SiblingsShareRecord(c: Path, a: Segment, b: Segment, i: nat)
    requires a.Id? && b.Id? && 0 < i < |Strip(c)| && c[i].Id?
    ensures Share(c + [a], c + [b], false)
  {
    var w, p, r := c + [a], c + [b], Strip(c)[..i + 1];
    RecordOnTheWay(c, i);
    StripAppended(c, b);
    assert r <= w;
    RecordInWriteKeys(r, w);
    InRecordReadKeys(Resource(r), p, false);
  }

  lemma StripAppended(c: Path, x: Segment)
    requires x.Id?
    ensures Strip(c + [x]) == Strip(c)
  {
    assert (c + [x])[..|c + [x]| - 1] == c;
  }

  /** Exactly when siblings are spared, whatever the collection's path: no
      record is on the way to the collection — a sibling's write changes that
      record too, and everything under it reads it. */
  lemma SiblingsShareExactly(c: Path, a: Segment, b: Segment)
    requires c != [] && a.Id? && b.Id? && a != b
    ensures Share(c + [a], c + [b], false) <==> exists i :: 0 < i < |Strip(c)| && c[i].Id?
  {
    var w, p := c + [a], c + [b];
    if exists i :: 0 < i < |Strip(c)| && c[i].Id? {
      var i :| 0 < i < |Strip(c)| && c[i].Id?;
      SiblingsShareRecord(c, a, b, i);
    }
    forall k | k in WriteKeys(w) && k in ReadKeys(p, false)
      ensures exists i :: 0 < i < |Strip(c)| && c[i].Id?
    {
      StripAppended(c, b);
      StripAppended(c, a);
      InWriteKeys(k, w);
      InRecordReadKeys(k, p, false);
      assert p[|c|] == b && w[|c|] == a;
      assert RecordOn(w, k.path) && k.path <= Strip(c);
      assert k.path[|k.path| - 1] == c[|k.path| - 1];
    }
  }

  /** Read with their lists, they are not: a write to a record re-runs such a
      read of any of its siblings. */
  lemma SiblingsWithListsShare(c: Path, a: Segment, b: Segment)
    requires EndsInWord(c) && a.Id? && b.Id?
    ensures Share(c + [a], c + [b], true)
  {
    var w, p := c + [a], c + [b];
    StripAppended(c, a);
    StripAppended(c, b);
    InWriteKeys(Lists(Strip(c)), w);
    InRecordReadKeys(Lists(Strip(c)), p, true);
  }

  /** No write key is the resource key of any path. */
  lemma WritesSpareResources(write: Path, path: Path)
    ensures Resource(Strip(path)) !in WriteKeys(write)
  {
    InWriteKeys(Resource(Strip(path)), write);
  }
}
