/**
 Signed in to several servers at once: the list of servers, the active one, the
 token requests carry, the users of the others, and what the keychain keeps,
 moved together by every sign-in, switch, sign-out, `401` and restart.
 */
module Auth {
  import opened Common

  type Url = string
  type Token = string
  type Id = string

  // -- server addresses --------------------------------------------------------

  predicate IsSpace(c: char) {
    c == ' ' || '\t' <= c <= '\r'
  }

  function TrimStart(s: string): string {
    if s != "" && IsSpace(s[0]) then TrimStart(s[1..]) else s
  }

  function TrimEnd(s: string): string {
    if s != "" && IsSpace(s[|s| - 1]) then TrimEnd(s[..|s| - 1]) else s
  }

  function TrimSlashes(s: string): string {
    if s != "" && s[|s| - 1] == '/' then TrimSlashes(s[..|s| - 1]) else s
  }

  /** `normalise`: trimmed, without trailing slashes. */
  function Normalise(s: string): Url {
    TrimSlashes(TrimEnd(TrimStart(s)))
  }

  predicate White(s: string) {
    forall c | c in s :: c == ' ' || 9 <= c as int <= 13
  }

  predicate Slashes(s: string) {
    forall c | c in s :: c == '/'
  }

  lemma {:induction false} TrimStartCuts(s: string) returns (i: nat)
    ensures i <= |s| && TrimStart(s) == s[i..] && White(s[..i]) && (i < |s| ==> !White([s[i]]))
  {
    if s != "" && IsSpace(s[0]) {
      var j := TrimStartCuts(s[1..]);
      assert s[1..][j..] == s[j + 1..] && s[..j + 1] == [s[0]] + s[1..][..j];
      i := j + 1;
    } else {
      assert s[0..] == s && (s != "" ==> s[0] in [s[0]]);
      i := 0;
    }
  }

  lemma {:induction false} TrimEndCuts(s: string) returns (k: nat)
    ensures k <= |s| && TrimEnd(s) == s[..k] && White(s[k..]) && (k > 0 ==> !White([s[k - 1]]))
  {
    if s != "" && IsSpace(s[|s| - 1]) {
      var front := s[..|s| - 1];
      k := TrimEndCuts(front);
      assert front[..k] == s[..k] && s[k..] == front[k..] + [s[|s| - 1]];
    } else {
      assert s[..|s|] == s && (s != "" ==> s[|s| - 1] in [s[|s| - 1]]);
      k := |s|;
    }
  }

  lemma {:induction false} TrimSlashesCuts(s: string) returns (j: nat)
    ensures j <= |s| && TrimSlashes(s) == s[..j] && Slashes(s[j..]) && (j > 0 ==> s[j - 1] != '/')
  {
    if s != "" && s[|s| - 1] == '/' {
      var front := s[..|s| - 1];
      j := TrimSlashesCuts(front);
      assert front[..j] == s[..j] && s[j..] == front[j..] + ['/'];
    } else {
      assert s[..|s|] == s;
      j := |s|;
    }
  }

  /** `s[i..j]` is the address: white space before `i` and from `k` on, slashes
      between, and no more of either. */
  predicate IsAddress(s: string, i: nat, j: nat, k: nat) {
    && i <= j <= k <= |s|
    && White(s[..i]) && Slashes(s[j..k]) && White(s[k..])
    && (i < k ==> !White([s[i]]) && !White([s[k - 1]])) && (i < j ==> s[j - 1] != '/')
  }

  lemma CutsCompose(s: string, i: nat, t: string, k: nat, j: nat)
    requires i <= |s| && t == s[i..] && k <= |t| && j <= k
    ensures s[i..i + j] == t[..k][..j] && s[i + j..i + k] == t[..k][j..] && s[i + k..] == t[k..]
    ensures (j > 0 ==> s[i + j - 1] == t[..k][j - 1]) && (k > 0 ==> s[i + k - 1] == t[k - 1])
  {
  }

  /** What an address is normalised to: itself without the white space around it
      and the slashes then behind it. */
  lemma NormaliseExactly(s: string) returns (i: nat, j: nat, k: nat)
    ensures IsAddress(s, i, j, k) && Normalise(s) == s[i..j]
  {
    i := TrimStartCuts(s);
    var t := s[i..];
    var end := TrimEndCuts(t);
    var last := TrimSlashesCuts(t[..end]);
    CutsCompose(s, i, t, end, last);
    j, k := i + last, i + end;
  }

  /** Normalised once is normalised for good. */
  predicate Settled(url: Url) {
    Normalise(url) == url
  }

  // -- the state ----------------------------------------------------------------

  datatype User = User(identity: Option<Id>, name: string)

  /** What the keychain keeps: a token and a user id per server, the active
      server, and the list of servers. */
  datatype Store = Store(tokens: map<Url, Token>, ids: map<Url, Id>, server: Option<Url>, servers: Option<seq<Url>>)

  /** `outbox`: the writes waiting for each server and user. */
  datatype State = State(
    base: Option<Url>,
    token: Option<Token>,
    user: Option<User>,
    servers: seq<Url>,
    parked: map<Url, User>,
    store: Store,
    outbox: map<(Url, Id), nat>)

  datatype Outcome = Done(dropped: nat) | Invalid | NotSignedIn | Pending(waiting: nat)

  /** How a list of servers is kept: an empty one is no entry at all. */
  function Kept(servers: seq<Url>): Option<seq<Url>> {
    if servers == [] then None else Some(servers)
  }

  function Waiting(outbox: map<(Url, Id), nat>, server: Url, id: Option<Id>): nat {
    if id.Some? && (server, id.value) in outbox then outbox[(server, id.value)] else 0
  }

  /** Who is signed in to the active server: as known now, else as kept. */
  function CurrentIdentity(st: State): Option<Id> {
    if st.user.Some? && st.user.value.identity.Some? then st.user.value.identity
    else if st.base.Some? then Lookup(st.store.ids, st.base.value)
    else None
  }

  function ActiveServer(st: State): Option<Url> {
    if st.token.Some? then st.base else None
  }

  function IdentityOn(st: State, server: Url): Option<Id> {
    if ActiveServer(st) == Some(server) then CurrentIdentity(st) else Lookup(st.store.ids, server)
  }

  /** The first listed server but `leaving` whose token is kept. */
  function NextServer(servers: seq<Url>, tokens: map<Url, Token>, leaving: Url): (r: Option<Url>)
    ensures r.Some? ==> r.value in servers && r.value in tokens && r.value != leaving
    ensures r.None? ==> forall s | s in servers && s != leaving :: s !in tokens
  {
    if servers == [] then None
    else if servers[0] != leaving && servers[0] in tokens then Some(servers[0])
    else NextServer(servers[1..], tokens, leaving)
  }

  /** It is the first of them in the list. */
  lemma {:induction false} NextIsTheFirst(servers: seq<Url>, tokens: map<Url, Token>, leaving: Url)
    ensures NextServer(servers, tokens, leaving).Some? ==> exists i ::
      && 0 <= i < |servers| && NextServer(servers, tokens, leaving) == Some(servers[i])
      && forall j | 0 <= j < i :: servers[j] == leaving || servers[j] !in tokens
  {
    if servers != [] && !(servers[0] != leaving && servers[0] in tokens) {
      NextIsTheFirst(servers[1..], tokens, leaving);
      if NextServer(servers[1..], tokens, leaving).Some? {
        var i :| 0 <= i < |servers| - 1 && NextServer(servers[1..], tokens, leaving) == Some(servers[1..][i])
          && forall j | 0 <= j < i :: servers[1..][j] == leaving || servers[1..][j] !in tokens;
        assert servers[i + 1] == servers[1..][i];
        assert forall j | 0 < j < i + 1 :: servers[j] == servers[1..][j - 1];
      }
    }
  }

  // -- each operation, as a change of state --------------------------------------

  /** `activate`: `server` is the active one, with `token`; `park` keeps the
      user of the one before. */
  function Activated(st: State, server: Url, token: Token, park: bool): State {
    var parked := if park && st.base.Some? && st.user.Some? then st.parked[st.base.value := st.user.value]
      else st.parked;
    st.(base := Some(Normalise(server)), token := Some(token), user := Lookup(parked, server),
        parked := parked - {server},
        store := st.store.(server := Some(server)))
  }

  /** `server` is off the list. */
  function Unlisted(st: State, server: Url): State {
    var servers := Without(st.servers, server);
    st.(servers := servers, store := st.store.(servers := Kept(servers)))
  }

  /** `forget_quietly`: signed out of the active server, no other taking over. */
  function SignedOut(st: State): State {
    var left := if st.base.Some? then Unlisted(st, st.base.value) else st;
    left.(base := None, token := None, user := None, store := left.store.(
      tokens := if st.base.Some? then left.store.tokens - {st.base.value} else left.store.tokens, server := None))
  }

  /** `forget`: the active server is left; the next one takes over. */
  function Forgotten(st: State): State {
    if st.base.None? then SignedOut(st)
    else
      var current := st.base.value;
      match NextServer(st.servers, st.store.tokens, current)
      case None => SignedOut(st)
      case Some(next) =>
        var left := Unlisted(st.(user := None, store := st.store.(tokens := st.store.tokens - {current})), current);
        Activated(left, next, st.store.tokens[next], false)
  }

  /** A `401` to a request that carried `carried`. */
  function Refused(st: State, carried: Option<Token>): State {
    if carried.Some? && st.token == carried then Forgotten(st.(token := None)) else st
  }

  /** `sign_out_now`; `refused`: the server answers the revocation with `401`. */
  function SignedOutNow(st: State, refused: bool): State {
    var st1 := if st.token.Some? && refused then Refused(st, st.token) else st;
    var st2 := if st1.base.Some? then st1.(store := st1.store.(ids := st1.store.ids - {st1.base.value})) else st1;
    Forgotten(st2)
  }

  predicate Elsewhere(st: State, base: Url) {
    st.token.Some? && st.base.Some? && st.base.value != base
  }

  /** The writes waiting on `base` for this very user, under another token. */
  function WritesInTheWay(st: State, base: Url, token: Token, user: User): nat {
    var earlier := if Elsewhere(st, base) && base in st.servers then Lookup(st.store.tokens, base) else None;
    var before :=
      if st.token.Some? && !Elsewhere(st, base) && st.token != Some(token) then CurrentIdentity(st)
      else if earlier.Some? && earlier != Some(token) then Lookup(st.store.ids, base)
      else None;
    if before.Some? && before == user.identity then Waiting(st.outbox, base, before) else 0
  }

  /** The token, the server and the user's id kept, the server listed. */
  function SignInKept(st: State, base: Url, token: Token, user: User): State {
    var servers := if base in st.servers then st.servers else st.servers + [base];
    st.(servers := servers, store := Store(
      st.store.tokens[base := token],
      if user.identity.Some? then st.store.ids[base := user.identity.value] else st.store.ids - {base},
      Some(base),
      if base in st.servers then st.store.servers else Kept(servers)))
  }

  /** `sign_in_with_token`; `valid`: the address is one and the token plausible. */
  function SignedIn(st: State, url: string, token: Token, user: User, valid: bool): (State, Outcome) {
    var base := Normalise(url);
    if !valid then (st, Invalid)
    else if WritesInTheWay(st, base, token, user) > 0 then (st, Pending(WritesInTheWay(st, base, token, user)))
    else
      var kept := SignInKept(st, base, token, user);
      var active := if Elsewhere(st, base) then Activated(kept, base, token, true)
                    else kept.(base := Some(Normalise(base)), token := Some(token));
      (active.(user := Some(user)), Done(0))
  }

  /** `switch_to`. */
  function Switched(st: State, url: string): (State, Outcome) {
    var base := Normalise(url);
    if base !in st.servers then (st, NotSignedIn)
    else if ActiveServer(st) == Some(base) then (st, Done(0))
    else if base !in st.store.tokens then (Unlisted(st, base), NotSignedIn)
    else (Activated(st, base, st.store.tokens[base], true), Done(0))
  }

  /** The rest of `leave`, another server being active. */
  function Removed(st: State, server: Url): State {
    Unlisted(st.(parked := st.parked - {server},
      store := st.store.(tokens := st.store.tokens - {server}, ids := st.store.ids - {server})), server)
  }

  /** `leave`; `refused`: the server answers the revocation with `401`. */
  function Left(st: State, url: string, discard: bool, refused: bool): (State, Outcome) {
    var base := Normalise(url);
    var active := ActiveServer(st) == Some(base);
    var identity := IdentityOn(st, base);
    var waiting := Waiting(st.outbox, base, identity);
    if base !in st.servers then (st, NotSignedIn)
    else if waiting > 0 && !discard then (st, Pending(waiting))
    else
      var kept := if discard && identity.Some? then st.(outbox := st.outbox - {(base, identity.value)}) else st;
      var dropped := if discard then waiting else 0;
      var next := NextServer(st.servers, st.store.tokens, base);
      if active && next.None? then (SignedOutNow(kept, refused), Done(dropped))
      else
        var token := if active then st.token else Lookup(st.store.tokens, base);
        var moved := if active then Activated(kept.(user := None), next.value, st.store.tokens[next.value], false)
          else kept;
        var told := if refused then Refused(moved, token) else moved;
        (Removed(told, base), Done(dropped))
  }

  function WaitingOnAll(st: State, servers: seq<Url>): nat {
    if servers == [] then 0
    else Waiting(st.outbox, servers[0], IdentityOn(st, servers[0])) + WaitingOnAll(st, servers[1..])
  }

  /** The active server last. */
  function LeavingOrder(st: State): seq<Url> {
    match ActiveServer(st)
    case None => st.servers
    case Some(active) => Without(st.servers, active) + [active]
  }

  /** `leave`, as the servers answer; `refusals`: those that answer the
      revocation with `401`. */
  function Leaver(discard: bool, refusals: set<Url>): (State, Url) -> (State, Outcome) {
    (st, server) => Left(st, server, discard, server in refusals)
  }

  /** One after the other, until one is refused. */
  function LeftEach(
    st: State, servers: seq<Url>, leave: (State, Url) -> (State, Outcome), dropped: nat): (State, Outcome)
    decreases |servers|
  {
    if servers == [] then (st, Done(dropped))
    else
      var one := leave(st, servers[0]);
      if one.1.Done? then LeftEach(one.0, servers[1..], leave, dropped + one.1.dropped) else one
  }

  lemma LeftEachNext(
    st: State, servers: seq<Url>, leave: (State, Url) -> (State, Outcome), dropped: nat, st1: State, one: Outcome)
    requires servers != [] && leave(st, servers[0]) == (st1, one)
    ensures LeftEach(st, servers, leave, dropped)
      == if one.Done? then LeftEach(st1, servers[1..], leave, dropped + one.dropped) else (st1, one)
  {
  }

  /** `leave_all`. */
  function LeftAll(st: State, discard: bool, refusals: set<Url>): (State, Outcome) {
    if st.servers == [] then (SignedOutNow(st, st.base.Some? && st.base.value in refusals), Done(0))
    else if !discard && WaitingOnAll(st, st.servers) > 0 then (st, Pending(WaitingOnAll(st, st.servers)))
    else LeftEach(st, LeavingOrder(st), Leaver(discard, refusals), 0)
  }

  /** The listed servers whose token is still there, once each. */
  function Restored(kept: seq<Url>, tokens: map<Url, Token>): (r: seq<Url>)
    ensures NoDup(r) && forall s :: s in r <==> s in kept && s in tokens
  {
    if kept == [] then []
    else
      var before := Restored(kept[..|kept| - 1], tokens);
      var last := kept[|kept| - 1];
      assert kept == kept[..|kept| - 1] + [last];
      if last !in before && last in tokens then before + [last] else before
  }

  /** The servers as kept; from before there were several, the active one alone. */
  function KeptServers(store: Store): seq<Url> {
    if store.servers.Some? then store.servers.value
    else if store.server.Some? then [Normalise(store.server.value)] else []
  }

  function ChosenAtStart(store: Store, list: seq<Url>): Option<Url> {
    var remembered := if store.server.Some? then Some(Normalise(store.server.value)) else None;
    if remembered.Some? && remembered.value in list then remembered
    else if list != [] then Some(list[0]) else None
  }

  /** The kept server is used with its token; one without a token is nobody's. */
  function TakenUp(st: State): State {
    match st.store.server
    case None => st
    case Some(server) =>
      var base := Normalise(server);
      if base in st.store.tokens then st.(base := Some(base), token := Some(st.store.tokens[base]))
      else st.(servers := [], store := st.store.(server := None, servers := None))
  }

  /** `Auth::new`: what a start makes of the keychain. */
  function Started(store: Store, outbox: map<(Url, Id), nat>): State {
    var list := Restored(KeptServers(store), store.tokens);
    var kept := store.(servers := Kept(list), server := ChosenAtStart(store, list));
    TakenUp(State(None, None, None, list, map[], kept, outbox))
  }

  const NOTHING_KEPT := Store(map[], map[], None, None)

  // -- what every state keeps -----------------------------------------------------

  /** A held token is the one kept for the active server, which is listed and
      stored as active; every listed server has a kept token; the stored list is
      the list; signed out, no server is left; and only the users of listed
      servers that are not active are parked. */
  predicate Consistent(st: State) {
    && NoDup(st.servers)
    && (forall s | s in st.servers :: Settled(s) && s in st.store.tokens)
    && st.store.servers == Kept(st.servers)
    && st.store.server == st.base
    && (st.token.Some? ==>
          st.base.Some? && st.base.value in st.servers && st.store.tokens[st.base.value] == st.token.value)
    && (st.token.None? ==> st.servers == [] && st.base.None? && st.user.None?)
    && (forall s | s in st.parked :: s in st.servers && st.base != Some(s))
  }

  /** No token is kept for a server not signed in to. */
  predicate NoStrayTokens(st: State) {
    forall s | s in st.store.tokens :: s in st.servers
  }

  /** Two servers never share a token. */
  predicate DistinctTokens(st: State) {
    forall a, b | a in st.store.tokens && b in st.store.tokens && a != b :: st.store.tokens[a] != st.store.tokens[b]
  }

  predicate Good(st: State) {
    Consistent(st) && NoStrayTokens(st)
  }

  /** Who is known to be signed in to a server: the user, or the one parked. */
  function KnownOn(st: State, server: Url): Option<User> {
    if st.base == Some(server) then st.user else Lookup(st.parked, server)
  }

  /** Who is known anywhere but on `server` is known there as before. */
  ghost predicate SameElsewhere(st: State, st': State, server: Url) {
    forall s | s != server :: KnownOn(st', s) == KnownOn(st, s)
  }

  /** `next` has taken over, if any: its user is who was parked for it, and
      nobody else's leaves `parked`. */
  predicate TakesItsUser(st: State, st': State, next: Option<Url>) {
    match next
    case None => st'.user == None && st'.parked == map[]
    case Some(server) =>
      && st'.user == (if server in st.parked then Some(st.parked[server]) else None)
      && st'.parked == map s | s in st.parked && s != server :: st.parked[s]
  }

  // -- each operation keeps it ------------------------------------------------------

  lemma ForgottenChanges(st: State)
    requires Good(st) && st.token.Some?
    ensures
      var st' := Forgotten(st.(token := None));
      var left := st.base.value;
      && Good(st')
      && st' == Forgotten(st)
      && st'.servers == Without(st.servers, left)
      && st'.store.tokens == st.store.tokens - {left}
      && st'.store.ids == st.store.ids
      && st'.base == NextServer(st.servers, st.store.tokens, left)
      && (st'.token.None? <==> st.servers == [left])
      && (st'.token.Some? ==> st'.token == Some(st.store.tokens[st'.base.value]))
  {
    var left := st.base.value;
    assert forall s | s in Without(st.servers, left) :: s in st.servers;
    if st.servers != [left] {
      LoneServer(st.servers, left);
    }
  }

  lemma AloneParksNobody(st: State, left: Url)
    requires Good(st) && st.base == Some(left) && NextServer(st.servers, st.store.tokens, left).None?
    ensures st.parked == map[]
  {
    assert forall s | s in st.parked :: s in st.servers && s != left && s in st.store.tokens;
  }

  lemma ActivatedTakesItsUser(st: State, left: State, next: Url, token: Token)
    requires left.parked == st.parked
    ensures TakesItsUser(st, Activated(left, next, token, false), Some(next))
  {
    assert st.parked - {next} == map s | s in st.parked && s != next :: st.parked[s];
  }

  lemma NextTakesItsUser(st: State, next: Url)
    requires st.base.Some? && NextServer(st.servers, st.store.tokens, st.base.value) == Some(next)
    ensures TakesItsUser(st, Forgotten(st), Some(next))
  {
    var tokens := st.store.tokens - {st.base.value};
    var left := Unlisted(st.(user := None, store := st.store.(tokens := tokens)), st.base.value);
    ActivatedTakesItsUser(st, left, next, st.store.tokens[next]);
  }

  lemma ForgottenTakesItsUser(st: State)
    requires Good(st) && st.token.Some?
    ensures TakesItsUser(st, Forgotten(st), NextServer(st.servers, st.store.tokens, st.base.value))
  {
    match NextServer(st.servers, st.store.tokens, st.base.value)
    case None => AloneParksNobody(st, st.base.value);
    case Some(next) => NextTakesItsUser(st, next);
  }

  lemma TakenOverElsewhere(st: State, st': State, left: Url)
    requires Good(st) && st.base == Some(left) && st'.base == NextServer(st.servers, st.store.tokens, left)
    requires TakesItsUser(st, st', st'.base)
    ensures SameElsewhere(st, st', left)
  {
    if st'.base.None? {
      AloneParksNobody(st, left);
    }
  }

  /** Forgetting the active server leaves exactly it: the next kept one takes
      over with its own token and its own user, or nobody is signed in. */
  lemma ForgottenLeavesOne(st: State)
    requires Good(st) && st.token.Some?
    ensures
      var st' := Forgotten(st.(token := None));
      var left := st.base.value;
      && Good(st')
      && st' == Forgotten(st)
      && st'.servers == Without(st.servers, left)
      && st'.store.tokens == st.store.tokens - {left}
      && st'.store.ids == st.store.ids
      && st'.base == NextServer(st.servers, st.store.tokens, left)
      && (st'.token.None? <==> st.servers == [left])
      && (st'.token.Some? ==> st'.token == Some(st.store.tokens[st'.base.value]))
      && TakesItsUser(st, st', st'.base) && SameElsewhere(st, st', left)
  {
    ForgottenChanges(st);
    ForgottenTakesItsUser(st);
    TakenOverElsewhere(st, Forgotten(st), st.base.value);
  }

  lemma LoneServer(servers: seq<Url>, server: Url)
    requires NoDup(servers) && server in servers && servers != [server]
    ensures exists s :: s in servers && s != server
  {
    if |servers| == 1 {
    } else {
      assert servers[0] != servers[1];
      assert servers[0] in servers && servers[1] in servers;
    }
  }

  lemma SignedOutNowKeeps(st: State, refused: bool)
    requires Good(st) && (st.token.Some? ==> st.servers == [st.base.value])
    ensures
      var st' := SignedOutNow(st, refused);
      && Good(st') && st'.token.None? && st'.user.None? && st'.parked == map[]
      && st'.store.tokens == map[] && st'.outbox == st.outbox
  {
    assert forall s | s in st.store.tokens :: s in st.servers;
    assert Without(st.servers, if st.base.Some? then st.base.value else "") == [];
  }

  /** What a sign-in that isn't refused does. */
  lemma SignedInChanges(st: State, url: string, token: Token, user: User, valid: bool)
    requires Good(st)
    ensures
      var (st', outcome) := SignedIn(st, url, token, user, valid);
      var base := Normalise(url);
      && (!outcome.Done? ==> st' == st)
      && (outcome.Done? ==>
            && st'.token == Some(token) && st'.base == Some(Normalise(base)) && st'.user == Some(user)
            && st'.servers == (if base in st.servers then st.servers else st.servers + [base])
            && st'.store.servers == Kept(st'.servers) && st'.store.server == Some(base)
            && st'.store.tokens == st.store.tokens[base := token]
            && st'.outbox == st.outbox
            && (forall s | s in st'.parked :: s != base && (s in st.parked || st.base == Some(s))))
  {
  }

  function SignedInIds(ids: map<Url, Id>, server: Url, id: Option<Id>): map<Url, Id> {
    if id.Some? then ids[server := id.value] else ids - {server}
  }

  lemma SignedInKeepsIds(st: State, url: string, token: Token, user: User, valid: bool)
    ensures
      var (st', outcome) := SignedIn(st, url, token, user, valid);
      outcome.Done? ==> st'.store.ids == SignedInIds(st.store.ids, Normalise(url), user.identity)
  {
  }

  /** It brings in its user, and changes nobody known elsewhere. */
  lemma SignedInElsewhere(st: State, url: string, token: Token, user: User, valid: bool)
    requires Good(st) && Settled(Normalise(url))
    ensures
      var (st', outcome) := SignedIn(st, url, token, user, valid);
      var base := Normalise(url);
      outcome.Done? ==> KnownOn(st', base) == Some(user) && SameElsewhere(st, st', base)
  {
  }

  /** A sign-in keeps everything exactly when the address it settles on is
      normalised for good. */
  lemma SignedInKeeps(st: State, url: string, token: Token, user: User, valid: bool)
    requires Good(st)
    ensures
      var (st', outcome) := SignedIn(st, url, token, user, valid);
      outcome.Done? ==> (Good(st') <==> Settled(Normalise(url)))
  {
    SignedInChanges(st, url, token, user, valid);
    var st' := SignedIn(st, url, token, user, valid).0;
    var base := Normalise(url);
    if st'.token == Some(token) && st'.store.server == Some(base) && Settled(base) {
      assert NoDup(st'.servers);
    }
  }

  /** An address that isn't: a space between slashes at its end. */
  lemma UnsettledAddress()
    ensures Normalise("https://a/ /") == "https://a/ " && Normalise("https://a/ ") == "https://a"
    ensures !Settled(Normalise("https://a/ /"))
  {
    assert "https://a/ /"[..11] == "https://a/ ";
    assert TrimSlashes("https://a/ ") == "https://a/ ";
    assert TrimSlashes("https://a/ /") == TrimSlashes("https://a/ ");
    assert "https://a/ "[..10] == "https://a/" && "https://a/"[..9] == "https://a";
    assert TrimEnd("https://a/ ") == TrimEnd("https://a/") == "https://a/";
    assert TrimSlashes("https://a/") == TrimSlashes("https://a") == "https://a";
  }

  /** Signed in with it, the list holds one server and requests go to another. */
  lemma UnsettledSignInSplits(st: State, token: Token, user: User, valid: bool)
    requires Good(st)
    ensures
      var (st', outcome) := SignedIn(st, "https://a/ /", token, user, valid);
      outcome.Done? ==> st'.base == Some("https://a") && "https://a/ " in st'.servers && !Good(st')
  {
    UnsettledAddress();
    SignedInChanges(st, "https://a/ /", token, user, valid);
    SignedInKeeps(st, "https://a/ /", token, user, valid);
  }

  /** The writes that another token of the same user would take over. */
  predicate WritesHold(st: State, base: Url, token: Token, user: User) {
    && base in st.servers && Lookup(st.store.tokens, base) != Some(token)
    && user.identity.Some? && IdentityOn(st, base) == user.identity
    && Waiting(st.outbox, base, user.identity) > 0
  }

  /** Writes waiting for a user are never handed to another token of theirs, on
      the active server or any other; and nothing else holds a sign-in. */
  lemma SignInWaitsForWrites(st: State, url: string, token: Token, user: User, valid: bool)
    requires Good(st)
    ensures
      var (_, outcome) := SignedIn(st, url, token, user, valid);
      var base := Normalise(url);
      outcome ==
        if !valid then Invalid
        else if WritesHold(st, base, token, user) then Pending(Waiting(st.outbox, base, user.identity))
        else Done(0)
  {
    var base := Normalise(url);
    if base in st.servers {
      assert Lookup(st.store.tokens, base).Some?;
      assert !Elsewhere(st, base) ==> st.base == Some(base);
    }
  }

  /** A switch changes who is active and nothing about who is signed in. */
  lemma SwitchedKeeps(st: State, url: string)
    requires Good(st)
    ensures
      var (st', outcome) := Switched(st, url);
      var base := Normalise(url);
      && Good(st')
      && (outcome.Done? <==> base in st.servers)
      && (!outcome.Done? ==> st' == st)
      && st'.servers == st.servers && st'.store.tokens == st.store.tokens && st'.store.ids == st.store.ids
          && st'.outbox == st.outbox
      && (outcome.Done? ==> st'.base == Some(base) && st'.token == Some(st.store.tokens[base]))
      && forall s :: KnownOn(st', s) == KnownOn(st, s)
  {
  }

  /** Switching away and back is as if it never happened. */
  lemma SwitchedBack(st: State, there: string)
    requires Good(st) && st.token.Some? && Normalise(there) in st.servers
    ensures Switched(Switched(st, there).0, st.base.value).0 == st
  {
    var (st', _) := Switched(st, there);
    if st' != st {
      assert st'.parked - {st.base.value} == st.parked - {Normalise(there)};
      var back := Switched(st', st.base.value).0;
      assert back.parked == st.parked;
    }
  }

  // -- leaving ------------------------------------------------------------------

  /** Removing a server that isn't active touches no other. */
  lemma RemovedKeeps(st: State, server: Url)
    requires Good(st) && st.base != Some(server)
    ensures
      var st' := Removed(st, server);
      && Good(st') && st'.base == st.base && st'.token == st.token && st'.user == st.user
      && st'.servers == Without(st.servers, server)
      && st'.store.tokens == st.store.tokens - {server} && st'.store.ids == st.store.ids - {server}
      && st'.outbox == st.outbox && st'.parked == st.parked - {server}
  {
  }

  /** Handing over before a server is removed: it is still listed, not active. */
  lemma HandedOver(st: State, next: Url)
    requires Good(st) && st.token.Some? && next in st.servers && st.base != Some(next)
    ensures
      var st' := Activated(st.(user := None), next, st.store.tokens[next], false);
      && Good(st') && st'.base == Some(next) && st'.token == Some(st.store.tokens[next])
      && st'.servers == st.servers && st'.store == st.store.(server := Some(next)) && st'.outbox == st.outbox
      && TakesItsUser(st, st', Some(next))
  {
  }

  /** Exactly `server` is left: its token goes, every other stays, and so does
      who is signed in where — unless `server` was active, when the next one is. */
  ghost predicate LeavesOne(st: State, st': State, server: Url) {
    && Good(st')
    && st'.servers == Without(st.servers, server)
    && st'.store.tokens == st.store.tokens - {server}
    && (forall s | s != server :: Lookup(st'.store.ids, s) == Lookup(st.store.ids, s))
    && (st.base != Some(server) ==> st'.base == st.base && st'.token == st.token && st'.user == st.user)
    && (st.base == Some(server) ==>
          st'.base == NextServer(st.servers, st.store.tokens, server) && TakesItsUser(st, st', st'.base))
    && SameElsewhere(st, st', server)
    && st'.outbox == st.outbox
  }

  lemma LeaveLast(st: State, server: Url, refused: bool)
    requires Good(st) && st.base == Some(server) && NextServer(st.servers, st.store.tokens, server).None?
    ensures LeavesOne(st, SignedOutNow(st, refused), server)
  {
    if st.servers != [server] {
      LoneServer(st.servers, server);
    }
    SignedOutNowKeeps(st, refused);
    assert Without(st.servers, server) == [];
    assert forall s | s in st.store.tokens :: s in st.servers;
  }

  /** Who is active once `server` is left. */
  function ActiveAfter(st: State, server: Url): Option<Url> {
    if st.base == Some(server) then NextServer(st.servers, st.store.tokens, server) else st.base
  }

  /** Revoking `server`'s token is answered `401`, and the token is also that
      of the server active by then: the answer is taken for that one. */
  predicate MistakesTheNext(st: State, server: Url, refused: bool) {
    var active := ActiveAfter(st, server);
    refused && active.Some? && Lookup(st.store.tokens, server) == Lookup(st.store.tokens, active.value)
  }

  /** `next` has taken over from `server`. */
  function HandedTo(st: State, next: Url): State
    requires next in st.store.tokens
  {
    Activated(st.(user := None), next, st.store.tokens[next], false)
  }

  lemma HandedOverLeavesOne(st: State, server: Url)
    requires Good(st) && st.base == Some(server) && ActiveAfter(st, server).Some?
    ensures LeavesOne(st, Removed(HandedTo(st, ActiveAfter(st, server).value), server), server)
  {
    var next := ActiveAfter(st, server).value;
    HandedOver(st, next);
    RemovedKeeps(HandedTo(st, next), server);
    StillTakesItsUser(st, HandedTo(st, next), server, next);
    TakenOverElsewhere(st, Removed(HandedTo(st, next), server), server);
  }

  lemma StillTakesItsUser(st: State, moved: State, server: Url, next: Url)
    requires Good(st) && st.base == Some(server) && TakesItsUser(st, moved, Some(next))
    ensures TakesItsUser(st, moved.(parked := moved.parked - {server}), Some(next))
  {
    assert moved.parked - {server} == moved.parked;
  }

  /** The server that took over is off the list too. */
  lemma HandedOverMistaken(st: State, server: Url)
    requires Good(st) && st.base == Some(server) && MistakesTheNext(st, server, true)
    ensures
      var next := ActiveAfter(st, server).value;
      var st' := Removed(Refused(HandedTo(st, next), st.token), server);
      next !in st'.servers && next in Without(st.servers, server)
  {
    var next := ActiveAfter(st, server).value;
    HandedOver(st, next);
    ForgottenLeavesOne(HandedTo(st, next));
  }

  lemma LeaveActive(st: State, server: Url, refused: bool)
    requires Good(st) && st.base == Some(server) && ActiveAfter(st, server).Some?
    ensures
      var moved := HandedTo(st, ActiveAfter(st, server).value);
      LeavesOne(st, Removed(if refused then Refused(moved, st.token) else moved, server), server)
      <==> !MistakesTheNext(st, server, refused)
  {
    if MistakesTheNext(st, server, refused) {
      HandedOverMistaken(st, server);
    } else {
      HandedOver(st, ActiveAfter(st, server).value);
      HandedOverLeavesOne(st, server);
    }
  }

  lemma OtherMistaken(st: State, server: Url)
    requires Good(st) && server in st.servers && st.base != Some(server) && MistakesTheNext(st, server, true)
    ensures
      var st' := Removed(Refused(st, Lookup(st.store.tokens, server)), server);
      st.base.value !in st'.servers && st.base.value in Without(st.servers, server)
  {
    ForgottenLeavesOne(st);
  }

  lemma RemovedLeavesOne(st: State, server: Url)
    requires Good(st) && st.base != Some(server)
    ensures LeavesOne(st, Removed(st, server), server)
  {
    RemovedKeeps(st, server);
  }

  lemma OtherIsNotMistaken(st: State, server: Url, refused: bool)
    requires Good(st) && server in st.servers && st.base != Some(server) && !MistakesTheNext(st, server, refused)
    ensures (if refused then Refused(st, Lookup(st.store.tokens, server)) else st) == st
  {
  }

  lemma LeaveOther(st: State, server: Url, refused: bool)
    requires Good(st) && server in st.servers && st.base != Some(server)
    ensures
      LeavesOne(st, Removed(if refused then Refused(st, Lookup(st.store.tokens, server)) else st, server), server)
      <==> !MistakesTheNext(st, server, refused)
  {
    if MistakesTheNext(st, server, refused) {
      OtherMistaken(st, server);
    } else {
      OtherIsNotMistaken(st, server, refused);
      RemovedLeavesOne(st, server);
    }
  }

  /** The state `leave` works on, its writes dropped if they are to be. */
  function Dropped(st: State, server: Url, discard: bool): State {
    var identity := IdentityOn(st, server);
    if discard && identity.Some? then st.(outbox := st.outbox - {(server, identity.value)}) else st
  }

  /** `leave`: refused, nothing changes; else exactly that server is left,
      unless, and only unless, the `401` to revoking its token is taken for the
      server active by then, which holds the same one. */
  lemma LeftLeavesOne(st: State, url: string, discard: bool, refused: bool)
    requires Good(st)
    ensures
      var (st', outcome) := Left(st, url, discard, refused);
      var server := Normalise(url);
      && (!outcome.Done? ==> st' == st)
      && (outcome.Done? ==>
            server in st.servers
            && (LeavesOne(Dropped(st, server, discard), st', server) <==> !MistakesTheNext(st, server, refused)))
  {
    var server := Normalise(url);
    var kept := Dropped(st, server, discard);
    if Left(st, url, discard, refused).1.Done? {
      if ActiveServer(st) != Some(server) {
        LeaveOther(kept, server, refused);
      } else if NextServer(st.servers, st.store.tokens, server).None? {
        LeaveLast(kept, server, refused);
      } else {
        LeaveActive(kept, server, refused);
      }
    }
  }

  /** When a leave is refused, how, and what one that isn't says it dropped. */
  lemma LeftRefusedExactly(st: State, url: string, discard: bool, refused: bool)
    requires Good(st)
    ensures
      var (_, outcome) := Left(st, url, discard, refused);
      var server := Normalise(url);
      var waiting := Waiting(st.outbox, server, IdentityOn(st, server));
      && (outcome == NotSignedIn <==> server !in st.servers)
      && (outcome == Pending(waiting) <==> server in st.servers && waiting > 0 && !discard)
      && (outcome.Done? ==> outcome == Done(if discard then waiting else 0))
      && !outcome.Invalid?
  {
  }

  /** Tokens being distinct, that never happens. */
  lemma DistinctTokensAreNotMistaken(st: State, server: Url, refused: bool)
    requires Good(st) && DistinctTokens(st) && server in st.servers
    ensures !MistakesTheNext(st, server, refused)
  {
  }

  /** It can: server "a" is left while active, "b" takes over with the same
      token, and the `401` to revoking it on "a" is taken for "b" — which hands
      over to "a", not yet off the list. Requests then carry a token for a
      server the user isn't signed in to. */
  lemma SharedTokenBreaksLeave()
    ensures
      var st := SharedToken();
      && Good(st) && !DistinctTokens(st) && MistakesTheNext(st, "a", true)
      && var st' := Left(st, "a", false, true).0;
         !Consistent(st') && st'.token == Some("t") && st'.base == Some("a") && st'.servers == []
  {
    SharedTokenIsGood();
    assert Normalise("a") == "a";
    var moved := HandedTo(SharedToken(), "b");
    assert moved.base == Some("b") && moved.token == Some("t");
    SharedTokenForgotten();
  }

  function SharedToken(): State {
    State(Some("a"), Some("t"), None, ["a", "b"], map[],
          Store(map["a" := "t", "b" := "t"], map[], Some("a"), Some(["a", "b"])), map[])
  }

  lemma SharedTokenIsGood()
    ensures Good(SharedToken()) && Normalise("a") == "a" && Normalise("b") == "b"
    ensures NextServer(["a", "b"], SharedToken().store.tokens, "a") == Some("b")
  {
    SettledLetter('a');
    SettledLetter('b');
  }

  lemma SharedTokenForgotten()
    ensures
      var left := Forgotten(HandedTo(SharedToken(), "b").(token := None));
      left.base == Some("a") && left.token == Some("t") && left.servers == ["a"]
  {
    SharedTokenIsGood();
  }

  lemma SettledLetter(c: char)
    requires !IsSpace(c) && c != '/'
    ensures Settled([c])
  {
  }

  // -- leaving all -------------------------------------------------------------

  /** Leaving one that isn't active changes nobody else's waiting writes. */
  lemma {:induction false} WaitingElsewhere(st: State, st': State, server: Url, discard: bool, others: seq<Url>)
    requires LeavesOne(Dropped(st, server, discard), st', server) && st.base != Some(server) && server !in others
    ensures WaitingOnAll(st', others) == WaitingOnAll(st, others)
  {
    if others != [] {
      WaitingElsewhere(st, st', server, discard, others[1..]);
      assert others[0] != server && others == [others[0]] + others[1..];
      assert IdentityOn(st', others[0]) == IdentityOn(st, others[0]);
    }
  }

  /** A server that answers its revocation with `401` and isn't the active one
      holds the active one's token. */
  predicate MistakesTheActive(st: State, server: Url, refusals: set<Url>) {
    && st.base.Some? && server != st.base.value && server in refusals
    && Lookup(st.store.tokens, server) == Lookup(st.store.tokens, st.base.value)
  }

  ghost predicate NoneMistaken(st: State, refusals: set<Url>) {
    forall s | s in st.servers :: !MistakesTheActive(st, s, refusals)
  }

  /** `servers` are those listed, the active one last. */
  ghost predicate Ordered(st: State, servers: seq<Url>) {
    && NoDup(servers) && (forall s :: s in servers <==> s in st.servers)
    && (servers != [] ==> st.base == Some(servers[|servers| - 1]))
  }

  ghost predicate CanLeaveEach(st: State, servers: seq<Url>, discard: bool) {
    Good(st) && Ordered(st, servers) && (discard || WaitingOnAll(st, servers) == 0)
  }

  lemma EmptyOrNot(s: seq<Url>)
    ensures s == [] || s[0] in s
  {
  }

  lemma FirstIsNotActive(st: State, servers: seq<Url>)
    requires Good(st) && Ordered(st, servers) && |servers| > 1
    ensures st.base.Some? && st.base.value != servers[0] && servers[0] in st.servers
  {
    assert servers[0] != servers[|servers| - 1];
    assert servers[0] in servers;
  }

  lemma OnlyOneLeft(st: State, servers: seq<Url>, refused: bool)
    requires Good(st) && Ordered(st, servers) && |servers| == 1
    ensures st.base == Some(servers[0]) && !MistakesTheNext(st, servers[0], refused)
  {
    assert servers[0] in servers;
    assert forall s | s in st.servers :: s == servers[0];
  }

  /** Leaving the first is a mistake just when it is taken for the active one. */
  lemma FirstMistaken(st: State, servers: seq<Url>, refusals: set<Url>)
    requires Good(st) && Ordered(st, servers) && servers != []
    ensures MistakesTheNext(st, servers[0], servers[0] in refusals) <==> MistakesTheActive(st, servers[0], refusals)
  {
    if |servers| == 1 {
      OnlyOneLeft(st, servers, servers[0] in refusals);
    } else {
      FirstIsNotActive(st, servers);
    }
  }

  lemma LeaveFirst(st: State, servers: seq<Url>, discard: bool, refusals: set<Url>)
    requires CanLeaveEach(st, servers, discard) && servers != [] && !MistakesTheActive(st, servers[0], refusals)
    ensures
      var (st', outcome) := Left(st, servers[0], discard, servers[0] in refusals);
      && outcome == Done(if discard then Waiting(st.outbox, servers[0], IdentityOn(st, servers[0])) else 0)
      && LeavesOne(Dropped(st, servers[0], discard), st', servers[0])
  {
    assert servers[0] in servers;
    assert servers[0] in st.servers && Settled(servers[0]);
    FirstMistaken(st, servers, refusals);
    LeftLeavesOne(st, servers[0], discard, servers[0] in refusals);
  }

  lemma StillListed(st: State, servers: seq<Url>, st1: State)
    requires Ordered(st, servers) && servers != [] && st1.servers == Without(st.servers, servers[0])
    ensures NoDup(servers[1..]) && forall s :: s in servers[1..] <==> s in st1.servers
  {
    assert servers == [servers[0]] + servers[1..] && servers[0] !in servers[1..];
  }

  lemma StillOrdered(st: State, servers: seq<Url>, st1: State)
    requires Ordered(st, servers) && servers != []
    requires st1.servers == Without(st.servers, servers[0])
    requires st.base != Some(servers[0]) ==> st1.base == st.base
    ensures Ordered(st1, servers[1..])
  {
    StillListed(st, servers, st1);
    if |servers| > 1 {
      assert servers[0] != servers[|servers| - 1];
    }
  }

  lemma RestWaits(st: State, servers: seq<Url>, discard: bool, st1: State)
    requires NoDup(servers) && servers != [] && (|servers| > 1 ==> st.base != Some(servers[0]))
    requires LeavesOne(Dropped(st, servers[0], discard), st1, servers[0])
    ensures WaitingOnAll(st1, servers[1..]) == WaitingOnAll(st, servers[1..])
  {
    if |servers| > 1 {
      assert servers == [servers[0]] + servers[1..] && servers[0] !in servers[1..];
      WaitingElsewhere(st, st1, servers[0], discard, servers[1..]);
    }
  }

  lemma LeaveRest(st: State, servers: seq<Url>, discard: bool, st1: State)
    requires CanLeaveEach(st, servers, discard) && servers != []
    requires LeavesOne(Dropped(st, servers[0], discard), st1, servers[0])
    ensures CanLeaveEach(st1, servers[1..], discard)
    ensures WaitingOnAll(st1, servers[1..]) == WaitingOnAll(st, servers[1..])
  {
    StillOrdered(st, servers, st1);
    if |servers| > 1 {
      FirstIsNotActive(st, servers);
    }
    RestWaits(st, servers, discard, st1);
  }

  /** While others are left, the active one stays, and so do the tokens. */
  lemma StillMistaken(st: State, servers: seq<Url>, discard: bool, st1: State, s: Url, refusals: set<Url>)
    requires Good(st) && Ordered(st, servers) && |servers| > 1 && s != servers[0]
    requires LeavesOne(Dropped(st, servers[0], discard), st1, servers[0])
    ensures MistakesTheActive(st1, s, refusals) <==> MistakesTheActive(st, s, refusals)
  {
    FirstIsNotActive(st, servers);
  }

  lemma StillNoneMistaken(st: State, servers: seq<Url>, discard: bool, st1: State, refusals: set<Url>)
    requires Good(st) && Ordered(st, servers) && servers != [] && NoneMistaken(st, refusals)
    requires LeavesOne(Dropped(st, servers[0], discard), st1, servers[0])
    ensures NoneMistaken(st1, refusals)
  {
    forall s | s in st1.servers
      ensures !MistakesTheActive(st1, s, refusals)
    {
      assert s in st.servers && s != servers[0];
      if |servers| > 1 {
        StillMistaken(st, servers, discard, st1, s, refusals);
      }
    }
  }

  /** What one server left without a mistake does to the rest. */
  ghost predicate LeavesRest(st: State, servers: seq<Url>, discard: bool, refusals: set<Url>, left: (State, Outcome)) {
    && servers != [] && left.1.Done?
    && CanLeaveEach(left.0, servers[1..], discard) && NoneMistaken(left.0, refusals)
    && Writes(st, servers, discard) == left.1.dropped + Writes(left.0, servers[1..], discard)
  }

  /** The writes leaving `servers` drops. */
  function Writes(st: State, servers: seq<Url>, discard: bool): nat {
    if discard then WaitingOnAll(st, servers) else 0
  }

  lemma LeaveStep(st: State, servers: seq<Url>, discard: bool, refusals: set<Url>)
    requires CanLeaveEach(st, servers, discard) && NoneMistaken(st, refusals) && servers != []
    ensures LeavesRest(st, servers, discard, refusals, Left(st, servers[0], discard, servers[0] in refusals))
  {
    assert servers[0] in servers;
    LeaveFirst(st, servers, discard, refusals);
    var st1 := Left(st, servers[0], discard, servers[0] in refusals).0;
    LeaveRest(st, servers, discard, st1);
    StillNoneMistaken(st, servers, discard, st1, refusals);
  }

  /** Each step is done and keeps `inv` of what is left to leave. */
  ghost predicate StepsKeep(
    leave: (State, Url) -> (State, Outcome), inv: (State, seq<Url>) -> bool, cost: (State, seq<Url>) -> nat)
  {
    forall st, servers: seq<Url> | inv(st, servers) && servers != [] ::
      var left := leave(st, servers[0]);
      left.1.Done? && inv(left.0, servers[1..]) && cost(st, servers) == left.1.dropped + cost(left.0, servers[1..])
  }

  ghost predicate NothingToLeaveIsFree(cost: (State, seq<Url>) -> nat) {
    forall st :: cost(st, []) == 0
  }

  lemma {:induction false} EachStepKept(
    st: State, servers: seq<Url>, leave: (State, Url) -> (State, Outcome), inv: (State, seq<Url>) -> bool,
    cost: (State, seq<Url>) -> nat, dropped: nat)
    requires StepsKeep(leave, inv, cost) && inv(st, servers) && NothingToLeaveIsFree(cost)
    ensures
      var (st', outcome) := LeftEach(st, servers, leave, dropped);
      inv(st', []) && outcome == Done(dropped + cost(st, servers))
    decreases |servers|
  {
    if servers != [] {
      var left := leave(st, servers[0]);
      EachStepKept(left.0, servers[1..], leave, inv, cost, dropped + left.1.dropped);
    }
  }

  ghost predicate NoMistakeAhead(st: State, servers: seq<Url>, discard: bool, refusals: set<Url>) {
    CanLeaveEach(st, servers, discard) && NoneMistaken(st, refusals)
  }

  ghost function AheadIsNoMistake(discard: bool, refusals: set<Url>): (State, seq<Url>) -> bool {
    (st, servers) => NoMistakeAhead(st, servers, discard, refusals)
  }

  function WritesOf(discard: bool): (State, seq<Url>) -> nat {
    (st, servers) => Writes(st, servers, discard)
  }

  lemma LeaverKeeps(discard: bool, refusals: set<Url>)
    ensures StepsKeep(Leaver(discard, refusals), AheadIsNoMistake(discard, refusals), WritesOf(discard))
  {
    forall st: State, servers: seq<Url> | NoMistakeAhead(st, servers, discard, refusals) && servers != []
      ensures LeavesRest(st, servers, discard, refusals, Leaver(discard, refusals)(st, servers[0]))
    {
      LeaveStep(st, servers, discard, refusals);
    }
  }

  lemma Spelled(st: State, servers: seq<Url>, discard: bool, refusals: set<Url>)
    ensures AheadIsNoMistake(discard, refusals)(st, servers) == NoMistakeAhead(st, servers, discard, refusals)
    ensures WritesOf(discard)(st, servers) == Writes(st, servers, discard)
  {
  }

  lemma NothingToDrop(discard: bool)
    ensures NothingToLeaveIsFree(WritesOf(discard))
  {
  }

  /** From wherever `inv` holds, all are left, at the cost it says. */
  ghost predicate AllKept(
    leave: (State, Url) -> (State, Outcome), inv: (State, seq<Url>) -> bool, cost: (State, seq<Url>) -> nat)
  {
    forall st, servers | inv(st, servers) :: EndKept(LeftEach(st, servers, leave, 0), inv, cost(st, servers))
  }

  ghost predicate EndKept(end: (State, Outcome), inv: (State, seq<Url>) -> bool, dropped: nat) {
    inv(end.0, []) && end.1 == Done(dropped)
  }

  lemma EveryStepKept(
    leave: (State, Url) -> (State, Outcome), inv: (State, seq<Url>) -> bool, cost: (State, seq<Url>) -> nat)
    requires StepsKeep(leave, inv, cost) && NothingToLeaveIsFree(cost)
    ensures AllKept(leave, inv, cost)
  {
    forall st, servers | inv(st, servers)
      ensures EndKept(LeftEach(st, servers, leave, 0), inv, cost(st, servers))
    {
      EachStepKept(st, servers, leave, inv, cost, 0);
    }
  }

  lemma LeaverKeepsAll(discard: bool, refusals: set<Url>)
    ensures AllKept(Leaver(discard, refusals), AheadIsNoMistake(discard, refusals), WritesOf(discard))
  {
    LeaverKeeps(discard, refusals);
    NothingToDrop(discard);
    EveryStepKept(Leaver(discard, refusals), AheadIsNoMistake(discard, refusals), WritesOf(discard));
  }

  /** Without a mistake, every server is left, and every write dropped counted. */
  lemma LeftEachLeavesAll(st: State, servers: seq<Url>, discard: bool, refusals: set<Url>)
    requires NoMistakeAhead(st, servers, discard, refusals)
    ensures
      var (st', outcome) := LeftEach(st, servers, Leaver(discard, refusals), 0);
      NoMistakeAhead(st', [], discard, refusals) && outcome == Done(Writes(st, servers, discard))
  {
    Spelled(st, servers, discard, refusals);
    LeaverKeepsAll(discard, refusals);
    var end := LeftEach(st, servers, Leaver(discard, refusals), 0);
    assert EndKept(end, AheadIsNoMistake(discard, refusals), WritesOf(discard)(st, servers));
    Spelled(end.0, [], discard, refusals);
  }

  lemma EveryServerLeft(st: State, discard: bool)
    requires CanLeaveEach(st, [], discard)
    ensures NobodySignedIn(st)
  {
    EmptyOrNot(st.servers);
    NothingLeft(st);
  }

  predicate ListsFewer(st1: State, st: State) {
    forall s | s in st1.servers :: s in st.servers
  }

  lemma ForgottenListsFewer(st: State)
    ensures ListsFewer(Forgotten(st), st)
  {
  }

  lemma RefusedListsFewer(st: State, carried: Option<Token>)
    ensures ListsFewer(Refused(st, carried), st)
  {
    ForgottenListsFewer(st.(token := None));
  }

  lemma SignedOutNowListsFewer(st: State, refused: bool)
    ensures ListsFewer(SignedOutNow(st, refused), st)
  {
    RefusedListsFewer(st, st.token);
    var st1 := if st.token.Some? && refused then Refused(st, st.token) else st;
    if st1.base.Some? {
      ForgottenListsFewer(st1.(store := st1.store.(ids := st1.store.ids - {st1.base.value})));
    } else {
      ForgottenListsFewer(st1);
    }
  }

  /** Leaving lists nobody. */
  lemma LeftListsFewer(st: State, url: string, discard: bool, refused: bool)
    ensures ListsFewer(Left(st, url, discard, refused).0, st)
  {
    var server := Normalise(url);
    var kept := Dropped(st, server, discard);
    var next := NextServer(st.servers, st.store.tokens, server);
    var active := ActiveServer(st) == Some(server);
    SignedOutNowListsFewer(kept, refused);
    RefusedListsFewer(kept, Lookup(st.store.tokens, server));
    if active && next.Some? {
      RefusedListsFewer(Activated(kept.(user := None), next.value, st.store.tokens[next.value], false), st.token);
    }
  }

  /** What a mistake does: the active server is off the list. */
  lemma MistakeUnlistsTheActive(st: State, server: Url, discard: bool, refusals: set<Url>)
    requires Good(st) && server in st.servers && MistakesTheActive(st, server, refusals)
    ensures st.base.value !in Left(st, server, discard, true).0.servers || !Left(st, server, discard, true).1.Done?
  {
    assert Settled(server);
    OtherMistaken(Dropped(st, server, discard), server);
  }

  /** Leaving `servers` can't be done: a mistake is ahead, or one has been made
      and the last of them is off the list. */
  ghost predicate Stuck(st: State, servers: seq<Url>, refusals: set<Url>) {
    || LastUnlisted(st, servers)
    || (Good(st) && Ordered(st, servers) && exists s :: s in servers && MistakesTheActive(st, s, refusals))
  }

  predicate LastUnlisted(st: State, servers: seq<Url>) {
    servers != [] && Settled(servers[|servers| - 1]) && servers[|servers| - 1] !in st.servers
  }

  lemma UnlistedCannotBeLeft(st: State, server: Url, discard: bool, refused: bool)
    requires Settled(server) && server !in st.servers
    ensures !Left(st, server, discard, refused).1.Done?
  {
  }

  lemma OneIsNoMistake(st: State, servers: seq<Url>, refusals: set<Url>)
    requires Good(st) && Ordered(st, servers) && |servers| == 1
    ensures forall s | s in servers :: !MistakesTheActive(st, s, refusals)
  {
  }

  lemma LastCannotBeLeft(st: State, servers: seq<Url>, discard: bool, refusals: set<Url>)
    requires Stuck(st, servers, refusals) && |servers| == 1
    ensures !Left(st, servers[0], discard, servers[0] in refusals).1.Done?
  {
    if !LastUnlisted(st, servers) {
      OneIsNoMistake(st, servers, refusals);
    } else {
      UnlistedCannotBeLeft(st, servers[0], discard, servers[0] in refusals);
    }
  }

  lemma UnlistedStaysUnlisted(st: State, servers: seq<Url>, discard: bool, refusals: set<Url>)
    requires LastUnlisted(st, servers) && |servers| > 1
    ensures LastUnlisted(Left(st, servers[0], discard, servers[0] in refusals).0, servers[1..])
  {
    LeftListsFewer(st, servers[0], discard, servers[0] in refusals);
  }

  lemma NowUnlisted(st: State, servers: seq<Url>, st1: State)
    requires Good(st) && Ordered(st, servers) && |servers| > 1 && st.base.value !in st1.servers
    ensures LastUnlisted(st1, servers[1..])
  {
    assert servers[|servers| - 1] in servers;
    assert servers[1..][|servers[1..]| - 1] == servers[|servers| - 1];
  }

  lemma MistakeAheadIsStuck(st: State, servers: seq<Url>, refusals: set<Url>, s: Url)
    requires Good(st) && Ordered(st, servers) && s in servers && MistakesTheActive(st, s, refusals)
    ensures Stuck(st, servers, refusals)
  {
  }

  /** A server left before the mistake changes nothing about it. */
  lemma MistakeStaysAhead(st: State, servers: seq<Url>, refusals: set<Url>, st1: State, s: Url)
    requires Good(st1) && Ordered(st, servers) && |servers| > 1 && s in servers && s != servers[0]
    requires MistakesTheActive(st, s, refusals) && st1.base == st.base && st1.servers == Without(st.servers, servers[0])
    requires forall u | u != servers[0] :: Lookup(st1.store.tokens, u) == Lookup(st.store.tokens, u)
    ensures Stuck(st1, servers[1..], refusals)
  {
    StillOrdered(st, servers, st1);
    assert servers == [servers[0]] + servers[1..] && servers[0] != servers[|servers| - 1];
    MistakeAheadIsStuck(st1, servers[1..], refusals, s);
  }

  lemma OthersKeepTokens(st: State, st1: State, server: Url)
    requires st1.store.tokens == st.store.tokens - {server}
    ensures forall u | u != server :: Lookup(st1.store.tokens, u) == Lookup(st.store.tokens, u)
  {
  }

  lemma NoMistakeYet(st: State, servers: seq<Url>, discard: bool, refusals: set<Url>, s: Url)
    requires Good(st) && Ordered(st, servers) && |servers| > 1 && s in servers
    requires MistakesTheActive(st, s, refusals) && !MistakesTheActive(st, servers[0], refusals)
    ensures StaysStuck(servers, refusals, Left(st, servers[0], discard, servers[0] in refusals))
  {
    var left := Left(st, servers[0], discard, servers[0] in refusals);
    FirstMistaken(st, servers, refusals);
    FirstIsNotActive(st, servers);
    assert Settled(servers[0]);
    LeftLeavesOne(st, servers[0], discard, servers[0] in refusals);
    if left.1.Done? {
      OthersKeepTokens(st, left.0, servers[0]);
      MistakeStaysAhead(st, servers, refusals, left.0, s);
    }
  }

  lemma StuckStep(st: State, servers: seq<Url>, discard: bool, refusals: set<Url>)
    requires Stuck(st, servers, refusals)
    ensures StaysStuck(servers, refusals, Left(st, servers[0], discard, servers[0] in refusals))
  {
    if |servers| == 1 {
      LastCannotBeLeft(st, servers, discard, refusals);
    } else if LastUnlisted(st, servers) {
      UnlistedStaysUnlisted(st, servers, discard, refusals);
    } else if MistakesTheActive(st, servers[0], refusals) {
      var left := Left(st, servers[0], discard, true);
      assert servers[0] in servers;
      MistakeUnlistsTheActive(st, servers[0], discard, refusals);
      if left.1.Done? {
        NowUnlisted(st, servers, left.0);
      }
    } else {
      var s :| s in servers && MistakesTheActive(st, s, refusals);
      NoMistakeYet(st, servers, discard, refusals, s);
    }
  }

  ghost predicate StaysStuck(servers: seq<Url>, refusals: set<Url>, left: (State, Outcome)) {
    servers != [] && (left.1.Done? ==> Stuck(left.0, servers[1..], refusals))
  }

  ghost predicate KeepsStuck(leave: (State, Url) -> (State, Outcome), refusals: set<Url>) {
    forall st, servers: seq<Url> | Stuck(st, servers, refusals) && servers != [] ::
      StaysStuck(servers, refusals, leave(st, servers[0]))
  }

  lemma StuckIsNotEmpty(st: State, servers: seq<Url>, refusals: set<Url>)
    requires Stuck(st, servers, refusals)
    ensures servers != []
  {
  }

  /** With a mistake, leaving is not done. */
  lemma {:induction false} StuckIsNeverDone(
    st: State, servers: seq<Url>, leave: (State, Url) -> (State, Outcome), refusals: set<Url>, dropped: nat)
    requires KeepsStuck(leave, refusals) && Stuck(st, servers, refusals)
    ensures !LeftEach(st, servers, leave, dropped).1.Done?
    decreases |servers|
  {
    StuckIsNotEmpty(st, servers, refusals);
    var left := leave(st, servers[0]);
    assert StaysStuck(servers, refusals, left);
    if left.1.Done? {
      StuckIsNeverDone(left.0, servers[1..], leave, refusals, dropped + left.1.dropped);
    }
  }

  lemma LeaverKeepsStuck(discard: bool, refusals: set<Url>)
    ensures KeepsStuck(Leaver(discard, refusals), refusals)
  {
    forall st, servers: seq<Url> | Stuck(st, servers, refusals) && servers != []
      ensures StaysStuck(servers, refusals, Leaver(discard, refusals)(st, servers[0]))
    {
      StuckStep(st, servers, discard, refusals);
    }
  }

  /** Signed out of every server: nothing is left in memory, and the keychain
      holds no token, no server and no list. */
  predicate NobodySignedIn(st: State) {
    && st.base.None? && st.token.None? && st.user.None? && st.servers == [] && st.parked == map[]
    && st.store.tokens == map[] && st.store.server.None? && st.store.servers.None?
  }

  lemma NothingLeft(st: State)
    requires Good(st) && st.servers == []
    ensures NobodySignedIn(st)
  {
    assert forall s | s in st.store.tokens :: s in st.servers;
  }

  lemma {:induction false} WaitingOnAllWithout(st: State, servers: seq<Url>, last: Url)
    requires NoDup(servers) && last in servers
    ensures WaitingOnAll(st, Without(servers, last) + [last]) == WaitingOnAll(st, servers)
  {
    var order := Without(servers, last) + [last];
    if servers[0] == last {
      assert last !in servers[1..];
      assert Without(servers, last) == servers[1..];
      WaitingOnAllConcat(st, servers[1..], [last]);
      assert WaitingOnAll(st, [last]) == Waiting(st.outbox, last, IdentityOn(st, last)) + WaitingOnAll(st, []);
    } else {
      WaitingOnAllWithout(st, servers[1..], last);
      assert order[1..] == Without(servers[1..], last) + [last];
    }
  }

  lemma {:induction false} WaitingOnAllConcat(st: State, a: seq<Url>, b: seq<Url>)
    ensures WaitingOnAll(st, a + b) == WaitingOnAll(st, a) + WaitingOnAll(st, b)
  {
    if a == [] {
      assert a + b == b;
    } else {
      assert (a + b)[1..] == a[1..] + b;
      WaitingOnAllConcat(st, a[1..], b);
    }
  }

  /** The order `leave_all` goes in has the active server last. */
  lemma LeavingOrderIsOrdered(st: State)
    requires Good(st) && st.servers != []
    ensures Ordered(st, LeavingOrder(st)) && WaitingOnAll(st, LeavingOrder(st)) == WaitingOnAll(st, st.servers)
  {
    var active := st.base.value;
    assert LeavingOrder(st) == Without(st.servers, active) + [active];
    WaitingOnAllWithout(st, st.servers, active);
  }

  /** `leave_all`: with writes waiting that aren't to be dropped, nothing
      changes. Else it is done exactly when no `401` to a revocation is taken
      for the active server; then nobody is signed in anywhere, and every write
      that waited is counted as dropped. */
  lemma LeftAllExactly(st: State, discard: bool, refusals: set<Url>)
    requires Good(st)
    ensures
      var (st', outcome) := LeftAll(st, discard, refusals);
      var waiting := WaitingOnAll(st, st.servers);
      if !discard && waiting > 0 then st' == st && outcome == Pending(waiting)
      else
        && (outcome.Done? <==> NoneMistaken(st, refusals))
        && (outcome.Done? ==> NobodySignedIn(st') && outcome.dropped == if discard then waiting else 0)
  {
    if st.servers == [] {
      SignedOutNowKeeps(st, false);
      NothingLeft(SignedOutNow(st, false));
    } else if discard || WaitingOnAll(st, st.servers) == 0 {
      LeavingOrderIsOrdered(st);
      if NoneMistaken(st, refusals) {
        LeftEachLeavesAll(st, LeavingOrder(st), discard, refusals);
        EveryServerLeft(LeftAll(st, discard, refusals).0, discard);
      } else {
        var s :| s in st.servers && MistakesTheActive(st, s, refusals);
        assert Stuck(st, LeavingOrder(st), refusals);
        LeaverKeepsStuck(discard, refusals);
        StuckIsNeverDone(st, LeavingOrder(st), Leaver(discard, refusals), refusals, 0);
      }
    }
  }

  // -- restarts -----------------------------------------------------------------

  /** What survives a restart: everything but the users' own values. */
  predicate SameSignIn(a: State, b: State) {
    a.base == b.base && a.token == b.token && a.servers == b.servers && a.store == b.store && a.outbox == b.outbox
  }

  lemma {:induction false} RestoredAll(kept: seq<Url>, tokens: map<Url, Token>)
    requires NoDup(kept) && forall s | s in kept :: s in tokens
    ensures Restored(kept, tokens) == kept
  {
    if kept != [] {
      var before := kept[..|kept| - 1];
      RestoredAll(before, tokens);
      assert kept[|kept| - 1] in kept && kept[|kept| - 1] !in before;
    }
  }

  /** A restart is the identity: the same servers in the same order, the same
      one active, with the same token. */
  lemma RestartIsIdentity(st: State)
    requires Good(st)
    ensures SameSignIn(Started(st.store, st.outbox), st) && Good(Started(st.store, st.outbox))
  {
    RestoredAll(st.servers, st.store.tokens);
    assert Restored([], st.store.tokens) == [];
    var st' := Started(st.store, st.outbox);
    assert st'.servers == st.servers && st'.store == st.store;
    assert st'.base == st.base && st'.token == st.token;
  }

  /** Whatever the keychain holds: a start signs in with the token kept for its
      server, or with none, and then no server is left in memory or kept. */
  lemma StartTakesItsToken(store: Store, outbox: map<(Url, Id), nat>)
    ensures
      var st := Started(store, outbox);
      && st.store.tokens == store.tokens && st.store.ids == store.ids && st.outbox == outbox
      && (st.token.Some? ==>
            st.base.Some? && st.base.value in store.tokens && st.token.value == store.tokens[st.base.value])
      && (st.token.None? ==> st.base.None? && st.servers == [] && st.store.server.None? && st.store.servers.None?)
  {
    var list := Restored(KeptServers(store), store.tokens);
    assert list == [] ==> ChosenAtStart(store, list).None?;
  }

  /** And whatever the keychain holds, a start from normalised addresses is
      consistent: a list from before, a server whose token is gone, one listed
      twice, an active server that isn't listed. */
  lemma StartIsConsistent(store: Store, outbox: map<(Url, Id), nat>)
    requires store.servers.Some? ==> forall s | s in store.servers.value :: Settled(s)
    requires store.server.Some? ==> Settled(Normalise(store.server.value))
    ensures Consistent(Started(store, outbox))
    ensures forall s :: s in Started(store, outbox).servers ==> s in store.tokens
  {
    assert Restored([], store.tokens) == [];
    EmptyOrNot(Started(store, outbox).servers);
    EmptyOrNot(Restored(KeptServers(store), store.tokens));
    assert forall s | s in KeptServers(store) :: Settled(s);
  }
}
