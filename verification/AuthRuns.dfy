/**
 Every run of sign-ins, switches, sign-outs, requests, answers and restarts,
 in any order, with requests still in flight across all of it. Leaving every
 server is leaving one after the other.
 */
module AuthRuns {
  import opened Common
  import opened Auth

  /** A request holds the server, the token and the user it was made as. */
  datatype Request = Request(server: Option<Url>, token: Option<Token>, user: Option<Id>)

  type Owner = (Url, Id)

  /** `issued`: which server each token used so far came from, the last one if
      there were several. `queued`, `sent`, `dropped`: what became of each
      user's writes; one given up by hand counts as sent. */
  datatype World = World(
    st: State,
    inFlight: multiset<Request>,
    issued: map<Token, Url>,
    queued: multiset<Owner>,
    sent: multiset<Owner>,
    dropped: multiset<Owner>)

  datatype Step =
    | SignIn(url: string, token: Token, user: User, valid: bool)
    | Switch(url: string)
    | Leave(url: string, discard: bool, refused: bool)
    | ReadUser(user: User)
    | Make
    | MakeAs(server: Url)
    | Unauthorized(request: Request)
    | Unanswered(request: Request)
    | Answered(request: Request)
    | Sent(owner: Owner)
    | Restart

  const FRESH := World(Started(NOTHING_KEPT, map[]), multiset{}, map[], multiset{}, multiset{}, multiset{})

  function WaitingOf(st: State, owner: Owner): nat {
    Waiting(st.outbox, owner.0, Some(owner.1))
  }

  /** What the world may do: addresses are normalised for good, and only a
      request in flight is answered, or is not, and only a write that waits is
      sent. */
  predicate Possible(w: World, step: Step) {
    match step
    case SignIn(url, token, _, valid) => valid ==> Settled(Normalise(url))
    case ReadUser(_) => w.st.token.Some? && w.st.base.Some?
    case MakeAs(server) => server in w.st.servers && server in w.st.store.tokens
    case Unauthorized(request) => request in w.inFlight
    case Unanswered(request) => request in w.inFlight
    case Answered(request) => request in w.inFlight
    case Sent(owner) => WaitingOf(w.st, owner) > 0
    case _ => true
  }

  /** `user()` asked the active server. */
  function UserRead(st: State, user: User): State
    requires st.base.Some?
  {
    st.(user := Some(user), store := st.store.(
      ids := if user.identity.Some? then st.store.ids[st.base.value := user.identity.value] else st.store.ids))
  }

  /** Whose write a request is: the user's it was made as, if signed in. */
  function OwnerOf(request: Request): Option<Owner> {
    if request.server.Some? && request.token.Some? && request.user.Some? then
      Some((request.server.value, request.user.value))
    else None
  }

  /** One more write waits, for the user it was made as. */
  function Queued(w: World, owner: Owner): World {
    w.(st := w.st.(outbox := w.st.outbox[owner := WaitingOf(w.st, owner) + 1]), queued := w.queued + multiset{owner})
  }

  /** A leave drops the writes of who is signed in to the server, if asked to,
      and says how many. */
  function Leaves(w: World, url: string, discard: bool, refused: bool): World {
    var (st, outcome) := Left(w.st, url, discard, refused);
    var dropped :=
      match IdentityOn(w.st, Normalise(url))
      case Some(id) =>
        if outcome.Done? then Plus(w.dropped, (Normalise(url), id), outcome.dropped) else w.dropped
      case None => w.dropped;
    w.(st := st, dropped := dropped)
  }

  function Plus(m: multiset<Owner>, owner: Owner, n: nat): multiset<Owner> {
    m[owner := m[owner] + n]
  }

  function After(w: World, step: Step): World
    requires Possible(w, step)
  {
    match step
    case SignIn(url, token, user, valid) =>
      var (st, outcome) := SignedIn(w.st, url, token, user, valid);
      w.(st := st, issued := if outcome.Done? then w.issued[token := Normalise(url)] else w.issued)
    case Switch(url) => w.(st := Switched(w.st, url).0)
    case Leave(url, discard, refused) => Leaves(w, url, discard, refused)
    case ReadUser(user) => w.(st := UserRead(w.st, user))
    case Make => w.(inFlight := w.inFlight + multiset{Request(w.st.base, w.st.token, CurrentIdentity(w.st))})
    case MakeAs(server) =>
      w.(inFlight := w.inFlight + multiset{Request(Some(server), Some(w.st.store.tokens[server]), None)})
    case Unauthorized(request) => w.(st := Refused(w.st, request.token), inFlight := w.inFlight - multiset{request})
    case Unanswered(request) =>
      var over := w.(inFlight := w.inFlight - multiset{request});
      (match OwnerOf(request) case Some(owner) => Queued(over, owner) case None => over)
    case Answered(request) => w.(inFlight := w.inFlight - multiset{request})
    case Sent(owner) =>
      w.(st := w.st.(outbox := w.st.outbox[owner := WaitingOf(w.st, owner) - 1]), sent := w.sent + multiset{owner})
    case Restart => w.(st := Started(w.st.store, w.st.outbox), inFlight := multiset{})
  }

  ghost predicate Run(from: World, steps: seq<Step>, to: World)
    decreases |steps|
  {
    if steps == [] then from == to
    else Possible(from, steps[0]) && Run(After(from, steps[0]), steps[1..], to)
  }

  // -- memory and keychain agree ----------------------------------------------

  /** A server is left, and the `401` to revoking its token is taken for the
      server active by then. */
  predicate Mistaken(w: World, step: Step) {
    step.Leave? && Normalise(step.url) in w.st.servers && MistakesTheNext(w.st, Normalise(step.url), step.refused)
  }

  /** That never happens. */
  ghost predicate Unmistaken(w: World, steps: seq<Step>)
    decreases |steps|
  {
    steps != [] && Possible(w, steps[0]) ==> !Mistaken(w, steps[0]) && Unmistaken(After(w, steps[0]), steps[1..])
  }

  /** Only the waiting writes differ. */
  predicate SameButOutbox(st: State, st': State) {
    st' == st.(outbox := st'.outbox)
  }

  lemma OutboxKeepsGood(st: State, st': State)
    requires SameButOutbox(st, st')
    ensures Good(st') <==> Good(st)
    ensures DistinctTokens(st') <==> DistinctTokens(st)
  {
  }

  lemma RequestsKeepGood(w: World, step: Step)
    requires Good(w.st) && Possible(w, step)
    requires step.Make? || step.MakeAs? || step.Answered? || step.Unanswered? || step.Sent?
    ensures var st' := After(w, step).st; SameButOutbox(w.st, st') && Good(st')
  {
    OutboxKeepsGood(w.st, After(w, step).st);
  }

  lemma UserReadKeepsGood(st: State, user: User)
    requires Good(st) && st.token.Some? && st.base.Some?
    ensures Good(UserRead(st, user)) && UserRead(st, user).store.tokens == st.store.tokens
  {
  }

  lemma StepKeepsGood(w: World, step: Step)
    requires Good(w.st) && Possible(w, step) && !Mistaken(w, step)
    ensures Good(After(w, step).st)
  {
    match step {
      case SignIn(url, token, user, valid) =>
        SignedInKeeps(w.st, url, token, user, valid);
        SignedInChanges(w.st, url, token, user, valid);
      case Switch(url) => SwitchedKeeps(w.st, url);
      case Leave(url, discard, refused) => LeftLeavesOne(w.st, url, discard, refused);
      case Unauthorized(request) =>
        if request.token.Some? && w.st.token == request.token {
          ForgottenLeavesOne(w.st);
        }
      case Restart => RestartIsIdentity(w.st);
      case ReadUser(user) => UserReadKeepsGood(w.st, user);
      case _ => RequestsKeepGood(w, step);
    }
  }

  lemma {:induction false} RunKeepsGood(from: World, steps: seq<Step>, to: World)
    requires Good(from.st) && Run(from, steps, to) && Unmistaken(from, steps)
    ensures Good(to.st)
    decreases |steps|
  {
    if steps != [] {
      StepKeepsGood(from, steps[0]);
      RunKeepsGood(After(from, steps[0]), steps[1..], to);
    }
  }

  lemma FreshIsGood()
    ensures Good(FRESH.st) && FRESH.st.outbox == map[] && FRESH.st.store.tokens == map[]
  {
    assert Restored([], map[]) == [];
  }

  /** In every reachable state, memory and keychain agree on who is signed in
      where, tokens shared or not, unless a `401` was taken for another
      server. */
  lemma ReachableIsConsistent(steps: seq<Step>, w: World)
    requires Run(FRESH, steps, w) && Unmistaken(FRESH, steps)
    ensures Consistent(w.st) && NoStrayTokens(w.st)
  {
    FreshIsGood();
    RunKeepsGood(FRESH, steps, w);
  }

  /** A restart at any moment of any such run signs the same user in to the
      same servers, with the same one active. */
  lemma RestartAnywhere(steps: seq<Step>, w: World)
    requires Run(FRESH, steps, w) && Unmistaken(FRESH, steps)
    ensures SameSignIn(After(w, Restart).st, w.st)
  {
    FreshIsGood();
    RunKeepsGood(FRESH, steps, w);
    RestartIsIdentity(w.st);
  }

  // -- tokens that are one server's each -------------------------------------------

  /** No sign-in brings a token that is another server's. */
  predicate OwnToken(w: World, step: Step) {
    step.SignIn? && step.valid && step.token in w.issued ==> w.issued[step.token] == Normalise(step.url)
  }

  ghost predicate OwnTokens(w: World, steps: seq<Step>)
    decreases |steps|
  {
    steps != [] && Possible(w, steps[0]) ==> OwnToken(w, steps[0]) && OwnTokens(After(w, steps[0]), steps[1..])
  }

  /** The invariant: the state is good, and every token — kept or carried by a
      request in flight — is the one server's it was issued by. */
  ghost predicate Invariant(w: World) {
    && Good(w.st)
    && (forall s | s in w.st.store.tokens :: w.st.store.tokens[s] in w.issued && w.issued[w.st.store.tokens[s]] == s)
    && (forall r | r in w.inFlight && r.token.Some? ::
          r.token.value in w.issued && r.server == Some(w.issued[r.token.value]))
  }

  lemma IssuedTokensAreDistinct(w: World)
    requires Invariant(w)
    ensures DistinctTokens(w.st)
  {
  }

  lemma NoneIsMistaken(w: World, step: Step)
    requires Invariant(w)
    ensures !Mistaken(w, step)
  {
    IssuedTokensAreDistinct(w);
    if step.Leave? && Normalise(step.url) in w.st.servers {
      DistinctTokensAreNotMistaken(w.st, Normalise(step.url), step.refused);
    }
  }

  lemma RequestsKeep(w: World, step: Step)
    requires Invariant(w) && Possible(w, step)
    requires step.Make? || step.MakeAs? || step.Answered? || step.Unanswered? || step.Sent?
    ensures Invariant(After(w, step))
  {
    RequestsKeepGood(w, step);
  }

  lemma SignInKeepsInvariant(w: World, step: Step)
    requires Invariant(w) && Possible(w, step) && step.SignIn? && OwnToken(w, step)
    ensures Invariant(After(w, step))
  {
    SignedInKeeps(w.st, step.url, step.token, step.user, step.valid);
    SignedInChanges(w.st, step.url, step.token, step.user, step.valid);
    var w' := After(w, step);
    if SignedIn(w.st, step.url, step.token, step.user, step.valid).1.Done? {
      assert w'.st.store.tokens == w.st.store.tokens[Normalise(step.url) := step.token];
      assert step.valid;
    }
  }

  predicate FewerTokens(st: State, st': State) {
    forall s | s in st'.store.tokens :: s in st.store.tokens && st'.store.tokens[s] == st.store.tokens[s]
  }

  /** Nothing but a sign-in brings a token in. */
  lemma FewerTokensKeep(w: World, w': World)
    requires Invariant(w) && Good(w'.st) && FewerTokens(w.st, w'.st)
    requires w'.issued == w.issued && forall r | r in w'.inFlight :: r in w.inFlight
    ensures Invariant(w')
  {
  }

  lemma StepKeeps(w: World, step: Step)
    requires Invariant(w) && Possible(w, step) && OwnToken(w, step)
    ensures Invariant(After(w, step)) && !Mistaken(w, step)
  {
    NoneIsMistaken(w, step);
    StepKeepsGood(w, step);
    match step {
      case SignIn(_, _, _, _) => SignInKeepsInvariant(w, step);
      case Switch(url) =>
        SwitchedKeeps(w.st, url);
        FewerTokensKeep(w, After(w, step));
      case Leave(url, discard, refused) =>
        LeftLeavesOne(w.st, url, discard, refused);
        FewerTokensKeep(w, After(w, step));
      case Unauthorized(request) =>
        if request.token.Some? && w.st.token == request.token {
          ForgottenLeavesOne(w.st);
        }
        FewerTokensKeep(w, After(w, step));
      case Restart =>
        RestartIsIdentity(w.st);
        FewerTokensKeep(w, After(w, step));
      case ReadUser(user) =>
        UserReadKeepsGood(w.st, user);
        FewerTokensKeep(w, After(w, step));
      case _ => RequestsKeep(w, step);
    }
  }

  lemma {:induction false} RunKeeps(from: World, steps: seq<Step>, to: World)
    requires Invariant(from) && Run(from, steps, to) && OwnTokens(from, steps)
    ensures Invariant(to) && Unmistaken(from, steps)
    decreases |steps|
  {
    if steps != [] {
      StepKeeps(from, steps[0]);
      RunKeeps(After(from, steps[0]), steps[1..], to);
    }
  }

  lemma FreshIsInvariant()
    ensures Invariant(FRESH)
  {
    FreshIsGood();
  }

  /** While no token is two servers', no `401` is taken for another server, and
      no two servers come to share one. */
  lemma OwnTokensAreUnmistaken(steps: seq<Step>, w: World)
    requires Run(FRESH, steps, w) && OwnTokens(FRESH, steps)
    ensures Unmistaken(FRESH, steps) && DistinctTokens(w.st)
  {
    FreshIsInvariant();
    RunKeeps(FRESH, steps, w);
    IssuedTokensAreDistinct(w);
  }

  /** In every reachable state, a `401` to any request in flight either changes
      nothing about the sign-in — its token isn't the active one any more — or
      leaves exactly the server that request was made to: every other one stays
      listed with its token, and the first of them takes over, with whoever was
      parked for it. */
  lemma UnauthorizedLeavesItsServer(steps: seq<Step>, w: World, request: Request)
    requires Run(FRESH, steps, w) && OwnTokens(FRESH, steps) && request in w.inFlight
    ensures
      var st' := After(w, Unauthorized(request)).st;
      if request.token.Some? && request.token == w.st.token then
        && request.server == w.st.base && request.server.Some?
        && st'.servers == Without(w.st.servers, request.server.value)
        && st'.store.tokens == w.st.store.tokens - {request.server.value}
        && st'.base == NextServer(w.st.servers, w.st.store.tokens, request.server.value)
        && (st'.token.None? <==> w.st.servers == [request.server.value])
        && (st'.token.Some? ==> st'.token == Some(w.st.store.tokens[st'.base.value]))
        && st'.user == (if st'.base.Some? then Lookup(w.st.parked, st'.base.value) else None)
        && (forall s :: s in st'.parked <==> s in w.st.parked && st'.base != Some(s))
        && (forall s | s in st'.parked :: st'.parked[s] == w.st.parked[s])
      else
        st' == w.st
  {
    FreshIsInvariant();
    RunKeeps(FRESH, steps, w);
    if request.token.Some? && request.token == w.st.token {
      ForgottenLeavesOne(w.st);
    }
  }

  // -- writes that wait -----------------------------------------------------------

  /** What became of `owner`'s writes. */
  predicate Accounted(w: World, owner: Owner) {
    w.queued[owner] == w.sent[owner] + w.dropped[owner] + WaitingOf(w.st, owner)
  }

  lemma RefusedKeepsOutbox(st: State, carried: Option<Token>)
    ensures Refused(st, carried).outbox == st.outbox
  {
  }

  lemma SignedOutNowKeepsOutbox(st: State, refused: bool)
    ensures SignedOutNow(st, refused).outbox == st.outbox
  {
  }

  /** How many of `owner`'s writes a leave drops, as it says. */
  function DroppedBy(st: State, url: string, discard: bool, refused: bool, owner: Owner): nat {
    var outcome := Left(st, url, discard, refused).1;
    var theirs := owner.0 == Normalise(url) && IdentityOn(st, owner.0) == Some(owner.1);
    if theirs && outcome.Done? then outcome.dropped else 0
  }

  lemma LeftKeepsOutbox(st: State, url: string, discard: bool, refused: bool)
    ensures
      var (st', outcome) := Left(st, url, discard, refused);
      st'.outbox == if outcome.Done? then Dropped(st, Normalise(url), discard).outbox else st.outbox
  {
    var server := Normalise(url);
    var kept := Dropped(st, server, discard);
    var next := NextServer(st.servers, st.store.tokens, server);
    SignedOutNowKeepsOutbox(kept, refused);
    RefusedKeepsOutbox(kept, Lookup(st.store.tokens, server));
    if next.Some? {
      RefusedKeepsOutbox(Activated(kept.(user := None), next.value, st.store.tokens[next.value], false), st.token);
    }
  }

  lemma DoneSaysHowMany(st: State, url: string, discard: bool, refused: bool)
    ensures
      var outcome := Left(st, url, discard, refused).1;
      outcome.Done? ==>
        outcome.dropped == if discard then Waiting(st.outbox, Normalise(url), IdentityOn(st, Normalise(url))) else 0
  {
  }

  /** A leave takes from the outbox what it says it dropped, and only of who is
      signed in to that server. */
  lemma LeftDrops(st: State, url: string, discard: bool, refused: bool, owner: Owner)
    ensures WaitingOf(st, owner)
      == WaitingOf(Left(st, url, discard, refused).0, owner) + DroppedBy(st, url, discard, refused, owner)
    ensures !(discard && Normalise(url) == owner.0) ==> DroppedBy(st, url, discard, refused, owner) == 0
  {
    LeftKeepsOutbox(st, url, discard, refused);
    DoneSaysHowMany(st, url, discard, refused);
  }

  lemma LeavesCounts(w: World, url: string, discard: bool, refused: bool, owner: Owner)
    ensures
      var w' := Leaves(w, url, discard, refused);
      && w'.dropped[owner] == w.dropped[owner] + DroppedBy(w.st, url, discard, refused, owner)
      && w'.st == Left(w.st, url, discard, refused).0 && w'.queued == w.queued && w'.sent == w.sent
  {
  }

  predicate TouchesOutbox(step: Step) {
    step.Leave? || step.Unanswered? || step.Sent?
  }

  lemma OtherStepsKeepOutbox(w: World, step: Step)
    requires Possible(w, step) && !TouchesOutbox(step)
    ensures
      var w' := After(w, step);
      w'.st.outbox == w.st.outbox && w'.queued == w.queued && w'.sent == w.sent && w'.dropped == w.dropped
  {
    if step.Unauthorized? {
      RefusedKeepsOutbox(w.st, step.request.token);
    }
  }

  lemma StepAccounts(w: World, step: Step, owner: Owner)
    requires Accounted(w, owner) && Possible(w, step)
    ensures Accounted(After(w, step), owner)
  {
    if step.Leave? {
      LeftDrops(w.st, step.url, step.discard, step.refused, owner);
      LeavesCounts(w, step.url, step.discard, step.refused, owner);
    } else if !TouchesOutbox(step) {
      OtherStepsKeepOutbox(w, step);
    }
  }

  lemma {:induction false} RunAccounts(from: World, steps: seq<Step>, to: World, owner: Owner)
    requires Accounted(from, owner) && Run(from, steps, to)
    ensures Accounted(to, owner)
    decreases |steps|
  {
    if steps != [] {
      StepAccounts(from, steps[0], owner);
      RunAccounts(After(from, steps[0]), steps[1..], to, owner);
    }
  }

  /** After any run, mistakes and all, each write kept for a user on a server
      was sent, or dropped by a leave that said so, or still waits for that
      user: none is lost, and none becomes another's. */
  lemma WritesAreAccounted(steps: seq<Step>, w: World, owner: Owner)
    requires Run(FRESH, steps, w)
    ensures w.queued[owner] == w.sent[owner] + w.dropped[owner] + WaitingOf(w.st, owner)
  {
    FreshIsGood();
    RunAccounts(FRESH, steps, w, owner);
  }

  /** Nothing takes `owner`'s writes: none is sent, and no leave of that server
      drops any. */
  predicate Spares(step: Step, owner: Owner) {
    step != Sent(owner) && !(step.Leave? && step.discard && Normalise(step.url) == owner.0)
  }

  lemma StepSpares(w: World, step: Step, owner: Owner)
    requires Possible(w, step) && Spares(step, owner)
    ensures WaitingOf(After(w, step).st, owner) >= WaitingOf(w.st, owner)
  {
    if step.Leave? {
      LeftDrops(w.st, step.url, step.discard, step.refused, owner);
      LeavesCounts(w, step.url, step.discard, step.refused, owner);
    } else if !TouchesOutbox(step) {
      OtherStepsKeepOutbox(w, step);
    }
  }

  lemma {:induction false} RunSpares(from: World, steps: seq<Step>, to: World, owner: Owner)
    requires Run(from, steps, to) && forall i | 0 <= i < |steps| :: Spares(steps[i], owner)
    ensures WaitingOf(to.st, owner) >= WaitingOf(from.st, owner)
    decreases |steps|
  {
    if steps != [] {
      StepSpares(from, steps[0], owner);
      RunSpares(After(from, steps[0]), steps[1..], to, owner);
    }
  }

  /** From a write with no answer on, whatever comes between, until it is sent
      or a leave is told to drop it: leaving that server as its user is refused
      and changes nothing. */
  lemma QueuedWriteHoldsLeave(w: World, request: Request, steps: seq<Step>, w': World, url: string, refused: bool)
    requires request in w.inFlight && OwnerOf(request).Some?
    requires Run(After(w, Unanswered(request)), steps, w')
    requires forall i | 0 <= i < |steps| :: Spares(steps[i], OwnerOf(request).value)
    requires Normalise(url) == OwnerOf(request).value.0 && Normalise(url) in w'.st.servers
    requires IdentityOn(w'.st, Normalise(url)) == Some(OwnerOf(request).value.1)
    ensures
      var (st', outcome) := Left(w'.st, url, false, refused);
      st' == w'.st && outcome == Pending(WaitingOf(w'.st, OwnerOf(request).value)) && outcome.waiting > 0
  {
    RunSpares(After(w, Unanswered(request)), steps, w', OwnerOf(request).value);
  }
}
