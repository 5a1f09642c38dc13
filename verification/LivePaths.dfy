/**
 The same keys as the program spells them: paths cut into segments, keys joined
 and trimmed as text, duplicates dropped.
 */
module LivePaths {
  import opened Common
  import opened LiveKeys

  // -- segments -------------------------------------------------------------------

  predicate Digit(c: char) {
    '0' <= c <= '9'
  }

  predicate HexDigit(c: char) {
    Digit(c) || 'a' <= c <= 'f' || 'A' <= c <= 'F'
  }

  predicate Alphanumeric(c: char) {
    Digit(c) || 'a' <= c <= 'z' || 'A' <= c <= 'Z'
  }

  predicate AllDigits(s: string) {
    s == "" || (Digit(s[0]) && AllDigits(s[1..]))
  }

  predicate AllAlphanumeric(s: string) {
    s == "" || (Alphanumeric(s[0]) && AllAlphanumeric(s[1..]))
  }

  /** `s` is a UUID from its i-th character on. */
  predicate UuidFrom(s: string, i: nat) {
    s == "" || ((if i == 8 || i == 13 || i == 18 || i == 23 then s[0] == '-' else HexDigit(s[0]))
        && UuidFrom(s[1..], i + 1))
  }

  /** A number, a UUID or a ULID. */
  predicate IsId(s: string) {
    AllDigits(s) || (|s| == 36 && UuidFrom(s, 0)) || (|s| == 26 && AllAlphanumeric(s))
  }

  lemma {:induction false} AllExactly(s: string)
    ensures AllDigits(s) <==> forall i | 0 <= i < |s| :: '0' <= s[i] <= '9'
    ensures AllAlphanumeric(s) <==>
      forall i | 0 <= i < |s| :: '0' <= s[i] <= '9' || 'a' <= s[i] <= 'z' || 'A' <= s[i] <= 'Z'
  {
    if s != "" {
      AllExactly(s[1..]);
      assert forall i | 0 < i < |s| :: s[i] == s[1..][i - 1];
    }
  }

  /** What a UUID has at a place. */
  predicate UuidAt(c: char, i: nat) {
    if i == 8 || i == 13 || i == 18 || i == 23 then c == '-'
    else '0' <= c <= '9' || 'a' <= c <= 'f' || 'A' <= c <= 'F'
  }

  lemma {:induction false} UuidExactly(s: string, from: nat)
    ensures UuidFrom(s, from) <==> forall i | 0 <= i < |s| :: UuidAt(s[i], from + i)
    decreases |s|
  {
    if s != "" {
      UuidExactly(s[1..], from + 1);
      assert forall i | 0 < i < |s| :: s[i] == s[1..][i - 1];
    }
  }

  /** A segment is an id when it is digits alone, the 36 characters of a UUID,
      or the 26 of a ULID. */
  lemma IsIdExactly(s: string)
    ensures IsId(s) <==>
      || (forall i | 0 <= i < |s| :: '0' <= s[i] <= '9')
      || (|s| == 36 && forall i | 0 <= i < 36 :: UuidAt(s[i], i))
      || (|s| == 26 && forall i | 0 <= i < 26 :: '0' <= s[i] <= '9' || 'a' <= s[i] <= 'z' || 'A' <= s[i] <= 'Z')
  {
    AllExactly(s);
    UuidExactly(s, 0);
  }

  function Classify(s: string): Segment {
    if IsId(s) then Id(s) else Word(s)
  }

  function Classified(ts: seq<string>): (p: Path)
    ensures |p| == |ts|
  {
    seq(|ts|, i requires 0 <= i < |ts| => Classify(ts[i]))
  }

  function Texts(p: Path): (ts: seq<string>)
    ensures |ts| == |p|
  {
    seq(|p|, i requires 0 <= i < |p| => p[i].text)
  }

  function BeforeQuery(s: string): (r: string)
    ensures forall i | 0 <= i < |r| :: r[i] != '?' && r[i] != '#'
  {
    if s == "" || s[0] == '?' || s[0] == '#' then ""
    else
      var rest := BeforeQuery(s[1..]);
      [s[0]] + rest
  }

  /** How far the next slash is. */
  function ToSlash(s: string): (n: nat)
    ensures n <= |s| && (n < |s| ==> s[n] == '/') && forall i | 0 <= i < n :: s[i] != '/'
  {
    if s == "" || s[0] == '/' then 0
    else
      var n := ToSlash(s[1..]);
      assert forall i | 0 < i < |s| :: s[i] == s[1..][i - 1];
      1 + n
  }

  /** What stands between slashes, without the empty ones. */
  function Pieces(s: string): seq<string>
    decreases |s|
  {
    if s == "" then []
    else if s[0] == '/' then Pieces(s[1..])
    else
      var n := ToSlash(s);
      [s[..n]] + Pieces(s[n..])
  }

  lemma {:induction false} BeforeQueryExactly(s: string)
    ensures exists rest :: s == BeforeQuery(s) + rest && (rest == "" || rest[0] == '?' || rest[0] == '#')
  {
    if s == "" || s[0] == '?' || s[0] == '#' {
      assert s == BeforeQuery(s) + s;
    } else {
      BeforeQueryExactly(s[1..]);
      var rest :| s[1..] == BeforeQuery(s[1..]) + rest && (rest == "" || rest[0] == '?' || rest[0] == '#');
      assert s == [s[0]] + s[1..] == BeforeQuery(s) + rest;
    }
  }

  /** A path is cut at each slash, and nowhere else. */
  lemma {:induction false} PiecesAreBetweenSlashes(a: string, b: string)
    ensures Pieces(a + ("/" + b)) == Pieces(a) + Pieces(b)
    ensures (forall i | 0 <= i < |b| :: b[i] != '/') ==> Pieces(b) == if b == "" then [] else [b]
    decreases |a|
  {
    var all := a + ("/" + b);
    if forall i | 0 <= i < |b| :: b[i] != '/' {
      WholePiece(b);
    }
    if a == "" {
      assert all == "/" + b && all[1..] == b;
    } else if a[0] == '/' {
      assert all[1..] == a[1..] + ("/" + b);
      PiecesAreBetweenSlashes(a[1..], b);
    } else {
      var n := ToSlash(a);
      ToSlashBehind(a, b);
      assert all[..n] == a[..n] && all[n..] == a[n..] + ("/" + b);
      PiecesAreBetweenSlashes(a[n..], b);
      Associative([a[..n]], Pieces(a[n..]), Pieces(b));
    }
  }

  lemma ToSlashBehind(a: string, b: string)
    ensures ToSlash(a + ("/" + b)) == ToSlash(a)
  {
    var all := a + ("/" + b);
    assert forall i | 0 <= i < |a| :: all[i] == a[i];
    assert all[|a|] == '/';
  }

  lemma WholePiece(b: string)
    requires forall i | 0 <= i < |b| :: b[i] != '/'
    ensures Pieces(b) == if b == "" then [] else [b]
  {
    assert b != "" ==> ToSlash(b) == |b| && b[|b|..] == "" && b[..|b|] == b;
  }

  function Segments(path: string): seq<string> {
    Pieces(BeforeQuery(path))
  }

  function PathOf(path: string): Path {
    Classified(Segments(path))
  }

  function Joined(ts: seq<string>): string {
    if ts == [] then ""
    else if |ts| == 1 then ts[0]
    else ts[0] + ("/" + Joined(ts[1..]))
  }

  /** A piece of a path: not empty, and without what separates pieces. */
  predicate Piece(s: string) {
    s != "" && forall i | 0 <= i < |s| :: s[i] != '/' && s[i] != '?' && s[i] != '#'
  }

  predicate AllPieces(ts: seq<string>) {
    forall i | 0 <= i < |ts| :: Piece(ts[i])
  }

  lemma {:induction false} PiecesAre(s: string)
    requires forall i | 0 <= i < |s| :: s[i] != '?' && s[i] != '#'
    ensures AllPieces(Pieces(s))
    decreases |s|
  {
    if s == "" {
    } else if s[0] == '/' {
      PiecesAre(s[1..]);
    } else {
      var n := ToSlash(s);
      PiecesAre(s[n..]);
    }
  }

  lemma SegmentsArePieces(path: string)
    ensures AllPieces(Segments(path))
  {
    PiecesAre(BeforeQuery(path));
  }

  lemma PieceThenSlash(t: string, rest: string)
    requires Piece(t)
    ensures Pieces(t + ("/" + rest)) == [t] + Pieces(rest)
  {
    var s := t + ("/" + rest);
    assert s[|t|] == '/' && forall i | 0 <= i < |t| :: s[i] == t[i];
    assert ToSlash(s) == |t|;
    assert s[..|t|] == t && s[|t|..] == "/" + rest;
    assert ("/" + rest)[1..] == rest;
  }

  lemma OnePiece(t: string)
    requires Piece(t)
    ensures Pieces(t) == [t]
  {
    assert ToSlash(t) == |t|;
    assert t[..|t|] == t && t[|t|..] == "";
  }

  /** Joined pieces come apart again. */
  lemma {:induction false} PiecesOfJoined(ts: seq<string>)
    requires AllPieces(ts)
    ensures Pieces(Joined(ts)) == ts
  {
    if ts == [] {
    } else if |ts| == 1 {
      OnePiece(ts[0]);
    } else {
      PiecesOfJoined(ts[1..]);
      PieceThenSlash(ts[0], Joined(ts[1..]));
    }
  }

  lemma {:induction false} NoQuery(s: string)
    requires forall i | 0 <= i < |s| :: s[i] != '?' && s[i] != '#'
    ensures BeforeQuery(s) == s
  {
    if s != "" {
      NoQuery(s[1..]);
    }
  }

  lemma {:induction false} JoinedHasNoQuery(ts: seq<string>)
    requires AllPieces(ts)
    ensures forall i | 0 <= i < |Joined(ts)| :: Joined(ts)[i] != '?' && Joined(ts)[i] != '#'
  {
    if |ts| > 1 {
      JoinedHasNoQuery(ts[1..]);
    }
  }

  lemma SegmentsOfRejoined(ts: seq<string>)
    requires AllPieces(ts)
    ensures Segments("/" + Joined(ts)) == ts
  {
    var s := "/" + Joined(ts);
    JoinedHasNoQuery(ts);
    NoQuery(s);
    assert s[1..] == Joined(ts);
    PiecesOfJoined(ts);
  }

  lemma {:induction false} QueryIsIgnored(path: string, query: string)
    requires forall i | 0 <= i < |path| :: path[i] != '?' && path[i] != '#'
    requires query == "" || query[0] == '?' || query[0] == '#'
    ensures BeforeQuery(path + query) == path
  {
    if path == "" {
      assert path + query == query;
    } else {
      assert (path + query)[1..] == path[1..] + query;
      QueryIsIgnored(path[1..], query);
    }
  }

  // -- the program's keys -----------------------------------------------------------

  const RESOURCE := "backend:/"
  const LISTS := "backend:list:/"

  /** `trim_start_matches("backend:/")`: as often as it is there. */
  function Trimmed(s: string): string {
    if RESOURCE <= s then Trimmed(s[|RESOURCE|..]) else s
  }

  function StripTexts(ts: seq<string>): (r: seq<string>)
    ensures r <= ts
  {
    if ts != [] && IsId(ts[|ts| - 1]) then StripTexts(ts[..|ts| - 1]) else ts
  }

  function ResourceKey(path: string): string {
    RESOURCE + Joined(StripTexts(Segments(path)))
  }

  function ListKey(path: string): string {
    LISTS + Trimmed(ResourceKey(path))
  }

  function UnderTexts(ts: seq<string>): seq<string> {
    if ts == [] then [] else [RESOURCE + Joined(ts)] + UnderTexts(ts[..|ts| - 1])
  }

  function ResourceKeys(path: string): seq<string> {
    UnderTexts(Pieces(Trimmed(ResourceKey(path))))
  }

  function OwnTexts(path: string, ts: seq<string>, withLists: bool): seq<string> {
    if ts != [] && IsId(ts[|ts| - 1]) then [RESOURCE + Joined(ts)] + (if withLists then [ListKey(path)] else [])
    else [ListKey(path)]
         + if |ts| >= 2 && !IsId(ts[|ts| - 2]) then [ListKey("/" + Joined(ts[..|ts| - 1]))] else []
  }

  function ReadKeysText(path: string, withLists: bool): seq<string> {
    Dedup(ResourceKeys(path) + OwnTexts(path, Segments(path), withLists))
  }

  function RecordTexts(ts: seq<string>, n: nat): seq<string>
    requires n <= |ts|
  {
    if n == 0 then []
    else RecordTexts(ts, n - 1)
         + if n > 1 && IsId(ts[n - 1]) then [RESOURCE + Joined(ts[..n]), ListKey("/" + Joined(ts[..n - 1]))] else []
  }

  function WriteKeysText(path: string): seq<string> {
    Dedup(RecordTexts(Segments(path), |Segments(path)|) + [ListKey(path)])
  }

  /** `resource_key` pops the ids off the end. */
  method ComputeResourceKey(path: string) returns (key: string)
    ensures key == ResourceKey(path)
  {
    var segments := Segments(path);
    while |segments| > 0 && IsId(segments[|segments| - 1])
      invariant StripTexts(segments) == StripTexts(Segments(path))
    {
      segments := segments[..|segments| - 1];
    }
    key := RESOURCE + Joined(segments);
  }

  lemma UnderGrows(keys: seq<string>, segments: seq<string>)
    requires segments != []
    ensures keys + UnderTexts(segments)
      == (keys + [RESOURCE + Joined(segments)]) + UnderTexts(segments[..|segments| - 1])
  {
    Associative(keys, [RESOURCE + Joined(segments)], UnderTexts(segments[..|segments| - 1]));
  }

  /** `resource_keys` pops one segment after the other. */
  method ComputeResourceKeys(path: string) returns (keys: seq<string>)
    ensures keys == ResourceKeys(path)
  {
    var key := ComputeResourceKey(path);
    var segments := Pieces(Trimmed(key));
    keys := [];
    while segments != []
      invariant keys + UnderTexts(segments) == ResourceKeys(path)
      decreases |segments|
    {
      UnderGrows(keys, segments);
      keys := keys + [RESOURCE + Joined(segments)];
      segments := segments[..|segments| - 1];
    }
  }

  /** `keys.retain(|k| seen.insert(k))`. */
  method Retain(keys: seq<string>) returns (kept: seq<string>)
    ensures kept == Dedup(keys)
  {
    var seen: set<string> := {};
    kept := [];
    for i := 0 to |keys|
      invariant seen == set k | k in keys[..i]
      invariant kept == Dedup(keys[..i])
    {
      assert keys[..i + 1][..i] == keys[..i];
      if keys[i] !in seen {
        kept := kept + [keys[i]];
      }
      seen := seen + {keys[i]};
    }
    assert keys[..|keys|] == keys;
  }

  method ComputeReadKeys(path: string, withLists: bool) returns (keys: seq<string>)
    ensures keys == ReadKeysText(path, withLists)
  {
    keys := ComputeResourceKeys(path);
    var segments := Segments(path);
    var n := |segments|;
    if n > 0 && IsId(segments[n - 1]) {
      keys := keys + ([RESOURCE + Joined(segments)] + (if withLists then [ListKey(path)] else []));
    } else {
      keys := keys + ([ListKey(path)]
        + if n >= 2 && !IsId(segments[n - 2]) then [ListKey("/" + Joined(segments[..n - 1]))] else []);
    }
    keys := Retain(keys);
  }

  method ComputeWriteKeys(path: string) returns (keys: seq<string>)
    ensures keys == WriteKeysText(path)
  {
    var segments := Segments(path);
    keys := [];
    for i := 0 to |segments|
      invariant keys == RecordTexts(segments, i)
    {
      if IsId(segments[i]) && i > 0 {
        keys := keys + [RESOURCE + Joined(segments[..i + 1]), ListKey("/" + Joined(segments[..i]))];
      } else {
        assert keys + [] == keys;
      }
    }
    keys := Retain(keys + [ListKey(path)]);
  }

  // -- spelling is faithful -----------------------------------------------------------

  function Spell(k: Key): string {
    match k
    case Resource(path) => RESOURCE + Joined(Texts(path))
    case Lists(path) => LISTS + Joined(Texts(path))
  }

  function Spelled(ks: seq<Key>): (r: seq<string>)
    ensures |r| == |ks|
  {
    seq(|ks|, i requires 0 <= i < |ks| => Spell(ks[i]))
  }

  lemma SpelledConcat(a: seq<Key>, b: seq<Key>)
    ensures Spelled(a + b) == Spelled(a) + Spelled(b)
  {
  }

  /** A path as `PathOf` makes one. */
  predicate Proper(p: Path) {
    forall i | 0 <= i < |p| :: Piece(p[i].text) && p[i] == Classify(p[i].text)
  }

  lemma TextsDetermine(p: Path, q: Path)
    requires Proper(p) && Proper(q) && Texts(p) == Texts(q)
    ensures p == q
  {
    forall i | 0 <= i < |p| ensures p[i] == q[i] {
      assert Texts(p)[i] == Texts(q)[i];
    }
  }

  /** No two keys share a spelling. */
  lemma SpellIsInjective(k: Key, l: Key)
    requires Proper(k.path) && Proper(l.path) && Spell(k) == Spell(l)
    ensures k == l
  {
    assert RESOURCE[8] != LISTS[8];
    assert Spell(k)[8] == (if k.Resource? then RESOURCE else LISTS)[8];
    assert Spell(l)[8] == (if l.Resource? then RESOURCE else LISTS)[8];
    assert k.Resource? <==> l.Resource?;
    var n := if k.Resource? then |RESOURCE| else |LISTS|;
    assert Joined(Texts(k.path)) == Spell(k)[n..] == Joined(Texts(l.path));
    PiecesOfJoined(Texts(k.path));
    PiecesOfJoined(Texts(l.path));
    TextsDetermine(k.path, l.path);
  }

  lemma {:induction false} SpelledDedup(ks: seq<Key>)
    requires forall i | 0 <= i < |ks| :: Proper(ks[i].path)
    ensures Spelled(Dedup(ks)) == Dedup(Spelled(ks))
  {
    if ks != [] {
      var before, last := ks[..|ks| - 1], ks[|ks| - 1];
      SpelledDedup(before);
      assert Spelled(ks)[..|ks| - 1] == Spelled(before);
      if last in before {
        var i :| 0 <= i < |before| && before[i] == last;
        assert Spelled(before)[i] == Spell(last);
      }
      if Spell(last) in Spelled(before) {
        var i :| 0 <= i < |before| && Spelled(before)[i] == Spell(last);
        SpellIsInjective(before[i], last);
      }
      assert Spelled(Dedup(before) + [last]) == Spelled(Dedup(before)) + [Spell(last)];
    }
  }

  lemma PieceStartsAgain(t: string, rest: string)
    requires Piece(t)
    ensures RESOURCE <= t + ("/" + rest) <==> t == "backend:"
  {
    var s := t + ("/" + rest);
    assert RESOURCE[8] == '/' && RESOURCE[..8] == "backend:";
    assert s[|t|] == '/' && forall i | 0 <= i < |t| :: s[i] == t[i];
    if RESOURCE <= s {
      assert forall i | 0 <= i < 9 :: s[i] == RESOURCE[i];
      assert |t| == 8 && t == s[..8] == RESOURCE[..8];
    }
  }

  /** A joined path starts with the prefix again just when a `backend:` segment
      leads it and more follows. */
  lemma JoinedStartsAgain(ts: seq<string>)
    requires AllPieces(ts)
    ensures RESOURCE <= Joined(ts) <==> |ts| >= 2 && ts[0] == "backend:"
  {
    if |ts| >= 2 {
      PieceStartsAgain(ts[0], Joined(ts[1..]));
    } else {
      assert RESOURCE[8] == '/' && (|Joined(ts)| > 8 ==> Joined(ts)[8] != '/');
    }
  }

  /** The trimming is exact just when no `backend:` segment leads a longer
      resource; then it would eat that segment too. */
  lemma TrimmedExactly(ts: seq<string>)
    requires AllPieces(ts)
    ensures Trimmed(RESOURCE + Joined(ts)) == Joined(ts) <==> !(|ts| >= 2 && ts[0] == "backend:")
  {
    var s := Joined(ts);
    assert (RESOURCE + s)[|RESOURCE|..] == s;
    JoinedStartsAgain(ts);
    TrimmedShrinks(s);
  }

  lemma {:induction false} TrimmedShrinks(s: string)
    ensures |Trimmed(s)| <= |s| && (RESOURCE <= s ==> |Trimmed(s)| < |s|)
  {
    if RESOURCE <= s {
      TrimmedShrinks(s[|RESOURCE|..]);
    }
  }

  /** No `backend:` segment leads the path. */
  predicate Unprefixed(ts: seq<string>) {
    |ts| >= 2 ==> ts[0] != "backend:"
  }

  lemma {:induction false} StripIsStrip(p: Path)
    requires Proper(p)
    ensures Texts(Strip(p)) == StripTexts(Texts(p))
  {
    if p != [] && p[|p| - 1].Id? {
      assert Texts(p)[..|p| - 1] == Texts(p[..|p| - 1]);
      StripIsStrip(p[..|p| - 1]);
    }
  }

  lemma ListKeyIsSpelled(p: Path, path: string)
    requires Proper(p) && Segments(path) == Texts(p) && Unprefixed(Texts(p))
    ensures ListKey(path) == Spell(Lists(Strip(p)))
    ensures ResourceKey(path) == Spell(Resource(Strip(p)))
  {
    StripIsStrip(p);
    TrimmedExactly(Texts(Strip(p)));
  }

  lemma RejoinedListKey(p: Path, n: nat)
    requires Proper(p) && n <= |p| && Unprefixed(Texts(p))
    ensures ListKey("/" + Joined(Texts(p)[..n])) == Spell(Lists(Strip(p[..n])))
  {
    assert Texts(p)[..n] == Texts(p[..n]);
    SegmentsOfRejoined(Texts(p[..n]));
    ListKeyIsSpelled(p[..n], "/" + Joined(Texts(p[..n])));
  }

  lemma {:induction false} UnderIsSpelled(p: Path)
    ensures UnderTexts(Texts(p)) == Spelled(Under(p))
  {
    if p != [] {
      var before := p[..|p| - 1];
      assert Texts(p)[..|p| - 1] == Texts(before);
      UnderIsSpelled(before);
      SpelledConcat([Resource(p)], Under(before));
      assert Spelled([Resource(p)]) == [Spell(Resource(p))];
    }
  }

  lemma ResourceKeysAreSpelled(p: Path, path: string)
    requires Proper(p) && Segments(path) == Texts(p) && Unprefixed(Texts(p))
    ensures ResourceKeys(path) == Spelled(Under(Strip(p)))
  {
    StripIsStrip(p);
    TrimmedExactly(Texts(Strip(p)));
    PiecesOfJoined(Texts(Strip(p)));
    UnderIsSpelled(Strip(p));
  }

  lemma IdsAreIds(p: Path, i: nat)
    requires Proper(p) && i < |p|
    ensures IsId(Texts(p)[i]) <==> p[i].Id?
  {
  }

  lemma RecordIsSpelled(p: Path, n: nat)
    requires Proper(p) && 1 < n <= |p| && Unprefixed(Texts(p))
    ensures [RESOURCE + Joined(Texts(p)[..n]), ListKey("/" + Joined(Texts(p)[..n - 1]))]
      == Spelled([Resource(p[..n]), Lists(Strip(p[..n - 1]))])
  {
    RejoinedListKey(p, n - 1);
    assert Texts(p)[..n] == Texts(p[..n]);
  }

  lemma {:induction false} RecordTextsAreSpelled(p: Path, n: nat)
    requires Proper(p) && n <= |p| && Unprefixed(Texts(p))
    ensures RecordTexts(Texts(p), n) == Spelled(RecordKeys(p, n))
  {
    if n > 0 {
      RecordTextsAreSpelled(p, n - 1);
      IdsAreIds(p, n - 1);
      if n > 1 && p[n - 1].Id? {
        RecordIsSpelled(p, n);
        SpelledConcat(RecordKeys(p, n - 1), [Resource(p[..n]), Lists(Strip(p[..n - 1]))]);
      }
    }
  }

  lemma PathOfIsProper(path: string)
    ensures Proper(PathOf(path)) && Texts(PathOf(path)) == Segments(path)
  {
    SegmentsArePieces(path);
  }

  lemma {:induction false} RecordKeysAreProper(p: Path, n: nat)
    requires Proper(p) && n <= |p|
    ensures forall k | k in RecordKeys(p, n) :: Proper(k.path)
  {
    if n > 0 {
      RecordKeysAreProper(p, n - 1);
    }
  }

  lemma {:induction false} UnderIsProper(p: Path)
    requires Proper(p)
    ensures forall k | k in Under(p) :: Proper(k.path)
  {
    if p != [] {
      UnderIsProper(p[..|p| - 1]);
    }
  }

  /** The strings a write invalidates are its keys, spelled. */
  lemma WriteKeysAreSpelled(path: string)
    requires Unprefixed(Segments(path))
    ensures WriteKeysText(path) == Spelled(WriteKeys(PathOf(path)))
  {
    var p := PathOf(path);
    PathOfIsProper(path);
    RecordTextsAreSpelled(p, |p|);
    ListKeyIsSpelled(p, path);
    RecordKeysAreProper(p, |p|);
    assert Spelled(AllWriteKeys(p)) == Spelled(RecordKeys(p, |p|)) + [Spell(Lists(Strip(p)))];
    SpelledDedup(AllWriteKeys(p));
  }

  lemma OwnRecordIsSpelled(p: Path, path: string, withLists: bool)
    requires Proper(p) && Segments(path) == Texts(p) && Unprefixed(Texts(p)) && EndsInId(p)
    ensures OwnTexts(path, Texts(p), withLists) == Spelled(OwnKeys(p, withLists))
  {
    IdsAreIds(p, |p| - 1);
    ListKeyIsSpelled(p, path);
  }

  lemma AlsoSpelled(p: Path)
    requires Proper(p) && Unprefixed(Texts(p))
    ensures
      (if |p| >= 2 && !IsId(Texts(p)[|p| - 2]) then [ListKey("/" + Joined(Texts(p)[..|p| - 1]))] else [])
      == Spelled(if |p| >= 2 && p[|p| - 2].Word? then [Lists(Strip(p[..|p| - 1]))] else [])
  {
    if |p| >= 2 {
      IdsAreIds(p, |p| - 2);
      RejoinedListKey(p, |p| - 1);
    }
  }

  lemma OwnListsAreSpelled(p: Path, path: string, withLists: bool)
    requires Proper(p) && Segments(path) == Texts(p) && Unprefixed(Texts(p)) && !EndsInId(p)
    ensures OwnTexts(path, Texts(p), withLists) == Spelled(OwnKeys(p, withLists))
  {
    ListKeyIsSpelled(p, path);
    AlsoSpelled(p);
    if p != [] {
      IdsAreIds(p, |p| - 1);
    }
    var also := if |p| >= 2 && p[|p| - 2].Word? then [Lists(Strip(p[..|p| - 1]))] else [];
    assert Spelled([Lists(Strip(p))] + also) == [ListKey(path)] + Spelled(also);
  }

  lemma OwnKeysAreSpelled(p: Path, path: string, withLists: bool)
    requires Proper(p) && Segments(path) == Texts(p) && Unprefixed(Texts(p))
    ensures OwnTexts(path, Texts(p), withLists) == Spelled(OwnKeys(p, withLists))
  {
    if EndsInId(p) {
      OwnRecordIsSpelled(p, path, withLists);
    } else {
      OwnListsAreSpelled(p, path, withLists);
    }
  }

  lemma OwnKeysAreProper(p: Path, withLists: bool)
    requires Proper(p)
    ensures forall k | k in OwnKeys(p, withLists) :: Proper(k.path)
  {
  }

  /** The strings a read depends on are its keys, spelled. */
  lemma ReadKeysAreSpelled(path: string, withLists: bool)
    requires Unprefixed(Segments(path))
    ensures ReadKeysText(path, withLists) == Spelled(ReadKeys(PathOf(path), withLists))
  {
    var p := PathOf(path);
    PathOfIsProper(path);
    ResourceKeysAreSpelled(p, path);
    OwnKeysAreSpelled(p, path, withLists);
    SpelledConcat(Under(Strip(p)), OwnKeys(p, withLists));
    UnderIsProper(Strip(p));
    OwnKeysAreProper(p, withLists);
    SpelledDedup(AllReadKeys(p, withLists));
  }

  /** So a write re-runs a read — they have a string in common — exactly when
      they have a key in common. */
  lemma StringsShareExactly(write: string, read: string, withLists: bool)
    requires Unprefixed(Segments(write)) && Unprefixed(Segments(read))
    ensures (exists s :: s in WriteKeysText(write) && s in ReadKeysText(read, withLists))
      <==> Share(PathOf(write), PathOf(read), withLists)
  {
    var ws, rs := WriteKeys(PathOf(write)), ReadKeys(PathOf(read), withLists);
    WriteKeysAreSpelled(write);
    ReadKeysAreSpelled(read, withLists);
    PathOfIsProper(write);
    PathOfIsProper(read);
    WriteKeysAreProper(PathOf(write));
    ReadKeysAreProper(PathOf(read), withLists);
    SpelledMeet(ws, rs);
  }

  lemma SpelledMeet(ws: seq<Key>, rs: seq<Key>)
    requires forall k | k in ws :: Proper(k.path)
    requires forall k | k in rs :: Proper(k.path)
    ensures (exists s :: s in Spelled(ws) && s in Spelled(rs)) <==> exists k :: k in ws && k in rs
  {
    if k :| k in ws && k in rs {
      var i :| 0 <= i < |ws| && ws[i] == k;
      var j :| 0 <= j < |rs| && rs[j] == k;
      assert Spelled(ws)[i] == Spell(k) && Spelled(rs)[j] == Spell(k);
      assert Spell(k) in Spelled(ws) && Spell(k) in Spelled(rs);
    }
    if s :| s in Spelled(ws) && s in Spelled(rs) {
      var i :| 0 <= i < |ws| && Spelled(ws)[i] == s;
      var j :| 0 <= j < |rs| && Spelled(rs)[j] == s;
      SpellIsInjective(ws[i], rs[j]);
      assert ws[i] in ws && ws[i] in rs;
    }
  }

  lemma WriteKeysAreProper(p: Path)
    requires Proper(p)
    ensures forall k | k in WriteKeys(p) :: Proper(k.path)
  {
    RecordKeysAreProper(p, |p|);
  }

  lemma ReadKeysAreProper(p: Path, withLists: bool)
    requires Proper(p)
    ensures forall k | k in ReadKeys(p, withLists) :: Proper(k.path)
  {
    UnderIsProper(Strip(p));
  }

  lemma SegmentsDecide(a: string, b: string)
    requires Segments(a) == Segments(b)
    ensures ResourceKey(a) == ResourceKey(b) && ListKey(a) == ListKey(b) && ResourceKeys(a) == ResourceKeys(b)
  {
  }

  /** A read depends on the same under any query string. */
  lemma QueryStringsDependAlike(path: string, query: string, withLists: bool)
    requires forall i | 0 <= i < |path| :: path[i] != '?' && path[i] != '#'
    requires query == "" || query[0] == '?' || query[0] == '#'
    ensures ReadKeysText(path + query, withLists) == ReadKeysText(path, withLists)
  {
    QueryIsIgnored(path, query);
    NoQuery(path);
    SegmentsDecide(path + query, path);
  }
}
