/**
 The sign-in service itself: its fields and the keychain updated in place, each
 operation ending in the state `Auth` describes.
 */
module AuthService {
  import opened Common
  import opened Auth

  class Service {
    var base: Option<Url>
    var token: Option<Token>
    var user: Option<User>
    var servers: seq<Url>
    var parked: map<Url, User>
    // The keychain: `backend-token:*`, `backend-user:*`, `backend-server`, `backend-servers`.
    var tokens: map<Url, Token>
    var ids: map<Url, Id>
    var keptServer: Option<Url>
    var keptServers: Option<seq<Url>>
    var outbox: map<(Url, Id), nat>

    function Now(): State
      reads this
    {
      State(base, token, user, servers, parked, Store(tokens, ids, keptServer, keptServers), outbox)
    }

    /** A start on what the keychain holds. */
    constructor (store: Store, outbox: map<(Url, Id), nat>)
      ensures Now() == Started(store, outbox)
    {
      base, token, user, servers, parked := None, None, None, [], map[];
      tokens, ids, keptServer, keptServers := store.tokens, store.ids, store.server, store.servers;
      this.outbox := outbox;
      new;
      var list := RestoreServers();
      var active := ChosenAtStart(store, list);
      servers := list;
      SaveServers();
      keptServer := active;
      UseKeptToken();
    }

    /** Each kept server whose token is still there, once. */
    method RestoreServers() returns (list: seq<Url>)
      ensures list == Restored(KeptServers(Now().store), tokens)
    {
      var kept := KeptServers(Now().store);
      list := [];
      for i := 0 to |kept|
        invariant list == Restored(kept[..i], tokens)
      {
        assert kept[..i + 1][..i] == kept[..i];
        if kept[i] !in list && kept[i] in tokens {
          list := list + [kept[i]];
        }
      }
      assert kept[..|kept|] == kept;
    }

    method UseKeptToken()
      requires base.None? && token.None?
      modifies this
      ensures Now() == TakenUp(old(Now()))
    {
      if keptServer.Some? {
        base := Some(Normalise(keptServer.value));
      }
      if base.Some? {
        if base.value in tokens {
          token := Some(tokens[base.value]);
        } else {
          base := None;
          keptServer := None;
          servers := [];
          SaveServers();
        }
      }
    }

    method SaveServers()
      modifies this`keptServers
      ensures keptServers == Kept(servers)
    {
      keptServers := if servers == [] then None else Some(servers);
    }

    method Activate(server: Url, newToken: Token, park: bool)
      modifies this
      ensures Now() == Activated(old(Now()), server, newToken, park)
    {
      var before, was := base, user;
      user := None;
      if park && before.Some? && was.Some? {
        parked := parked[before.value := was.value];
      }
      base := Some(Normalise(server));
      token := Some(newToken);
      user := if server in parked then Some(parked[server]) else None;
      parked := parked - {server};
      keptServer := Some(server);
    }

    method ForgetQuietly()
      modifies this
      ensures Now() == SignedOut(old(Now()))
    {
      if base.Some? {
        servers := Without(servers, base.value);
        SaveServers();
      }
      token := None;
      user := None;
      if base.Some? {
        tokens := tokens - {base.value};
      }
      keptServer := None;
      base := None;
    }

    /** The first other listed server whose token is kept. */
    method FindNext(leaving: Url) returns (next: Option<Url>)
      ensures next == NextServer(servers, tokens, leaving)
    {
      var i := 0;
      while i < |servers|
        invariant 0 <= i <= |servers|
        invariant NextServer(servers, tokens, leaving) == NextServer(servers[i..], tokens, leaving)
      {
        if servers[i] != leaving && servers[i] in tokens {
          return Some(servers[i]);
        }
        i := i + 1;
      }
      next := None;
    }

    method Forget()
      modifies this
      ensures Now() == Forgotten(old(Now()))
    {
      if base.Some? {
        var current := base.value;
        var next := FindNext(current);
        if next.Some? {
          var nextToken := tokens[next.value];
          tokens := tokens - {current};
          servers := Without(servers, current);
          SaveServers();
          user := None;
          Activate(next.value, nextToken, false);
          return;
        }
      }
      ForgetQuietly();
    }

    /** The end of `send`, for a `401`: only the token held now can have expired. */
    method OnUnauthorized(carried: Option<Token>)
      modifies this
      ensures Now() == Refused(old(Now()), carried)
    {
      if carried.Some? && token == carried {
        token := None;
        Forget();
      }
    }

    method SignOutNow(refused: bool)
      modifies this
      ensures Now() == SignedOutNow(old(Now()), refused)
    {
      if token.Some? && refused {
        OnUnauthorized(token);
      }
      if base.Some? {
        ids := ids - {base.value};
      }
      Forget();
    }

    method CountWritesInTheWay(server: Url, newToken: Token, newUser: User, elsewhere: bool) returns (waiting: nat)
      requires elsewhere == Elsewhere(Now(), server)
      ensures waiting == WritesInTheWay(Now(), server, newToken, newUser)
    {
      var earlier := if elsewhere && server in servers then Lookup(tokens, server) else None;
      if token.Some? && !elsewhere {
        var before := CurrentIdentity(Now());
        if token != Some(newToken) && before.Some? && before == newUser.identity {
          return Waiting(outbox, server, before);
        }
      } else if earlier.Some? {
        var before := Lookup(ids, server);
        if earlier.value != newToken && before.Some? && before == newUser.identity {
          return Waiting(outbox, server, before);
        }
      }
      waiting := 0;
    }

    method KeepSignIn(server: Url, newToken: Token, newUser: User)
      modifies this
      ensures Now() == SignInKept(old(Now()), server, newToken, newUser)
    {
      tokens := tokens[server := newToken];
      keptServer := Some(server);
      match newUser.identity {
        case Some(id) => ids := ids[server := id];
        case None => ids := ids - {server};
      }
      if server !in servers {
        servers := servers + [server];
        SaveServers();
      }
    }

    method SignInWithToken(url: string, newToken: Token, newUser: User, valid: bool) returns (outcome: Outcome)
      modifies this
      ensures (Now(), outcome) == SignedIn(old(Now()), url, newToken, newUser, valid)
    {
      var server := Normalise(url);
      if !valid {
        return Invalid;
      }
      var elsewhere := token.Some? && base.Some? && base.value != server;
      var waiting := CountWritesInTheWay(server, newToken, newUser, elsewhere);
      if waiting > 0 {
        return Pending(waiting);
      }
      KeepSignIn(server, newToken, newUser);
      if elsewhere {
        Activate(server, newToken, true);
        user := Some(newUser);
        return Done(0);
      }
      base := Some(Normalise(server));
      token := Some(newToken);
      user := Some(newUser);
      outcome := Done(0);
    }

    method SwitchTo(url: string) returns (outcome: Outcome)
      modifies this
      ensures (Now(), outcome) == Switched(old(Now()), url)
    {
      var server := Normalise(url);
      if server !in servers {
        return NotSignedIn;
      }
      if token.Some? && base == Some(server) {
        return Done(0);
      }
      if server !in tokens {
        servers := Without(servers, server);
        SaveServers();
        return NotSignedIn;
      }
      Activate(server, tokens[server], true);
      outcome := Done(0);
    }

    method Remove(server: Url)
      modifies this
      ensures Now() == Removed(old(Now()), server)
    {
      tokens := tokens - {server};
      ids := ids - {server};
      parked := parked - {server};
      servers := Without(servers, server);
      SaveServers();
    }

    method LeaveServer(url: string, discard: bool, refused: bool) returns (outcome: Outcome)
      modifies this
      ensures (Now(), outcome) == Left(old(Now()), url, discard, refused)
    {
      var server := Normalise(url);
      if server !in servers {
        return NotSignedIn;
      }
      var active := token.Some? && base == Some(server);
      var identity := IdentityOn(Now(), server);
      var waiting := Waiting(outbox, server, identity);
      if waiting > 0 && !discard {
        return Pending(waiting);
      }
      var dropped: nat := 0;
      if discard && identity.Some? {
        dropped := waiting;
        outbox := outbox - {(server, identity.value)};
      }
      var next := FindNext(server);
      if active && next.None? {
        SignOutNow(refused);
        return Done(dropped);
      }
      var revoked := if active then token else Lookup(tokens, server);
      if active {
        user := None;
        Activate(next.value, tokens[next.value], false);
      }
      if refused {
        OnUnauthorized(revoked);
      }
      Remove(server);
      outcome := Done(dropped);
    }

    method CountWaiting() returns (waiting: nat)
      ensures waiting == WaitingOnAll(Now(), servers)
    {
      waiting := 0;
      var i := 0;
      while i < |servers|
        invariant 0 <= i <= |servers|
        invariant waiting + WaitingOnAll(Now(), servers[i..]) == WaitingOnAll(Now(), servers)
      {
        waiting := waiting + Waiting(outbox, servers[i], IdentityOn(Now(), servers[i]));
        i := i + 1;
      }
    }

    method LeaveNext(server: Url, discard: bool, refusals: set<Url>) returns (outcome: Outcome)
      modifies this
      ensures (Now(), outcome) == Leaver(discard, refusals)(old(Now()), server)
    {
      outcome := LeaveServer(server, discard, server in refusals);
    }

    method LeaveInOrder(order: seq<Url>, discard: bool, refusals: set<Url>) returns (outcome: Outcome)
      modifies this
      ensures (Now(), outcome) == LeftEach(old(Now()), order, Leaver(discard, refusals), 0)
    {
      ghost var leave := Leaver(discard, refusals);
      var dropped: nat := 0;
      var i := 0;
      assert order[0..] == order;
      while i < |order|
        invariant 0 <= i <= |order|
        invariant LeftEach(old(Now()), order, leave, 0) == LeftEach(Now(), order[i..], leave, dropped)
      {
        assert order[i..][1..] == order[i + 1..];
        ghost var before := Now();
        outcome := LeaveNext(order[i], discard, refusals);
        LeftEachNext(before, order[i..], leave, dropped, Now(), outcome);
        if !outcome.Done? {
          return;
        }
        dropped := dropped + outcome.dropped;
        i := i + 1;
      }
      outcome := Done(dropped);
    }

    /** `leave_all`: each server in turn, the active one last, until one is
        refused. */
    method LeaveEvery(discard: bool, refusals: set<Url>) returns (outcome: Outcome)
      modifies this
      ensures (Now(), outcome) == LeftAll(old(Now()), discard, refusals)
    {
      if servers == [] {
        SignOutNow(base.Some? && base.value in refusals);
        return Done(0);
      }
      if !discard {
        var waiting := CountWaiting();
        if waiting > 0 {
          return Pending(waiting);
        }
      }
      outcome := LeaveInOrder(LeavingOrder(Now()), discard, refusals);
    }
  }
}
