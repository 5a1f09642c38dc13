/**
 Whose requests they are: over every run, who is known on a server, and whose
 writes are kept for it, is who was last signed in or read there.
 */
module AuthUsers {
  import opened Common
  import opened Auth
  import opened AuthRuns

  // -- what the steps say ------------------------------------------------------------

  predicate SignsIn(w: World, step: Step) {
    step.SignIn? && step.valid && !WritesHold(w.st, Normalise(step.url), step.token, step.user)
  }

  /** Who is known where, as the step says: a sign-in or a read brings its user,
      a restart forgets all, and a server that is left is forgotten. */
  function Learned(known: map<Url, User>, w: World, step: Step): map<Url, User>
    requires Possible(w, step)
  {
    var more :=
      if SignsIn(w, step) then known[Normalise(step.url) := step.user]
      else if step.ReadUser? then known[w.st.base.value := step.user]
      else if step.Restart? then map[]
      else known;
    map s | s in more && s in After(w, step).st.servers :: more[s]
  }

  /** Whose id is kept where: a read without one says nothing. */
  function Identified(ids: map<Url, Id>, w: World, step: Step): map<Url, Id>
    requires Possible(w, step)
  {
    var more :=
      if SignsIn(w, step) then SignedInIds(ids, Normalise(step.url), step.user.identity)
      else if step.ReadUser? && step.user.identity.Some? then ids[w.st.base.value := step.user.identity.value]
      else ids;
    map s | s in more && s in After(w, step).st.servers :: more[s]
  }

  function KnownBy(known: map<Url, User>, w: World, steps: seq<Step>): map<Url, User>
    decreases |steps|
  {
    if steps == [] || !Possible(w, steps[0]) then known
    else KnownBy(Learned(known, w, steps[0]), After(w, steps[0]), steps[1..])
  }

  function IdsBy(ids: map<Url, Id>, w: World, steps: seq<Step>): map<Url, Id>
    decreases |steps|
  {
    if steps == [] || !Possible(w, steps[0]) then ids
    else IdsBy(Identified(ids, w, steps[0]), After(w, steps[0]), steps[1..])
  }

  // -- who is known --------------------------------------------------------------------

  ghost predicate Knows(st: State, known: map<Url, User>) {
    forall s :: KnownOn(st, s) == Lookup(known, s)
  }

  lemma OnlyListedAreKnown(st: State, s: Url)
    requires Good(st) && s !in st.servers
    ensures KnownOn(st, s).None?
  {
  }

  /** `server` is left, and nobody known elsewhere changes. */
  lemma LeftIsForgotten(st: State, st': State, server: Url, known: map<Url, User>)
    requires Good(st) && Good(st') && Knows(st, known) && SameElsewhere(st, st', server)
    requires st'.servers == Without(st.servers, server)
    ensures Knows(st', map s | s in known && s in st'.servers :: known[s])
  {
    forall s ensures KnownOn(st', s) == Lookup(map s | s in known && s in st'.servers :: known[s], s) {
      if s !in st'.servers {
        OnlyListedAreKnown(st', s);
      }
    }
  }

  lemma KnownAreListed(st: State, known: map<Url, User>)
    requires Good(st) && Knows(st, known)
    ensures forall s | s in known :: s in st.servers
  {
    forall s | s in known ensures s in st.servers {
      if s !in st.servers { OnlyListedAreKnown(st, s); }
    }
  }

  /** `user` is known on `base` from now on, and everybody else as before. */
  lemma KnownAnew(st: State, st': State, known: map<Url, User>, base: Url, user: User)
    requires Good(st) && Knows(st, known) && KnownOn(st', base) == Some(user) && SameElsewhere(st, st', base)
    requires forall s :: s in st'.servers <==> s in st.servers || s == base
    ensures var more := known[base := user];
      Knows(st', map s | s in more && s in st'.servers :: more[s])
  {
    KnownAreListed(st, known);
  }

  lemma SignedInIsKnown(w: World, step: Step, known: map<Url, User>)
    requires Good(w.st) && Possible(w, step) && step.SignIn? && Knows(w.st, known)
    ensures Knows(After(w, step).st, Learned(known, w, step))
  {
    SignInWaitsForWrites(w.st, step.url, step.token, step.user, step.valid);
    SignedInChanges(w.st, step.url, step.token, step.user, step.valid);
    if SignsIn(w, step) {
      SignedInElsewhere(w.st, step.url, step.token, step.user, step.valid);
      KnownAnew(w.st, After(w, step).st, known, Normalise(step.url), step.user);
    } else {
      KnownAreListed(w.st, known);
    }
  }

  lemma SameServersKnow(w: World, step: Step, known: map<Url, User>)
    requires Good(w.st) && Possible(w, step) && !step.SignIn? && !step.ReadUser? && !step.Restart?
    requires Knows(w.st, known) && After(w, step).st.servers == w.st.servers
    requires forall s :: KnownOn(After(w, step).st, s) == KnownOn(w.st, s)
    ensures Knows(After(w, step).st, Learned(known, w, step))
  {
    KnownAreListed(w.st, known);
  }

  lemma ReadIsKnown(w: World, step: Step, known: map<Url, User>)
    requires Good(w.st) && Possible(w, step) && step.ReadUser? && Knows(w.st, known)
    ensures Knows(After(w, step).st, Learned(known, w, step))
  {
    KnownAnew(w.st, After(w, step).st, known, w.st.base.value, step.user);
  }

  lemma StartKnowsNobody(store: Store, outbox: map<(Url, Id), nat>)
    ensures forall s :: KnownOn(Started(store, outbox), s).None?
  {
    var st := Started(store, outbox);
    assert st.user.None? && st.parked == map[];
  }

  lemma RestartKnowsNobody(w: World, known: map<Url, User>)
    ensures Knows(After(w, Restart).st, Learned(known, w, Restart))
  {
    StartKnowsNobody(w.st.store, w.st.outbox);
  }

  lemma LeavingForgets(w: World, step: Step, known: map<Url, User>)
    requires Good(w.st) && Possible(w, step) && step.Leave? && !Mistaken(w, step) && Knows(w.st, known)
    ensures Knows(After(w, step).st, Learned(known, w, step))
  {
    LeftLeavesOne(w.st, step.url, step.discard, step.refused);
    if Left(w.st, step.url, step.discard, step.refused).1.Done? {
      LeftIsForgotten(w.st, After(w, step).st, Normalise(step.url), known);
    } else {
      SameServersKnow(w, step, known);
    }
  }

  lemma RefusalForgets(w: World, step: Step, known: map<Url, User>)
    requires Good(w.st) && Possible(w, step) && step.Unauthorized? && Knows(w.st, known)
    ensures Knows(After(w, step).st, Learned(known, w, step))
  {
    if step.request.token.Some? && w.st.token == step.request.token {
      ForgottenLeavesOne(w.st);
      LeftIsForgotten(w.st, After(w, step).st, w.st.base.value, known);
    } else {
      SameServersKnow(w, step, known);
    }
  }

  lemma StepKnows(w: World, step: Step, known: map<Url, User>)
    requires Good(w.st) && Possible(w, step) && !Mistaken(w, step) && Knows(w.st, known)
    ensures Knows(After(w, step).st, Learned(known, w, step))
  {
    match step {
      case SignIn(_, _, _, _) => SignedInIsKnown(w, step, known);
      case Leave(_, _, _) => LeavingForgets(w, step, known);
      case Unauthorized(_) => RefusalForgets(w, step, known);
      case ReadUser(_) => ReadIsKnown(w, step, known);
      case Restart => RestartKnowsNobody(w, known);
      case Switch(url) =>
        SwitchedKeeps(w.st, url);
        SameServersKnow(w, step, known);
      case _ => SameServersKnow(w, step, known);
    }
  }

  // -- whose id ------------------------------------------------------------------------

  /** Each listed server's id, and that of who is known there, if they have one. */
  ghost predicate Identifies(st: State, ids: map<Url, Id>) {
    forall s | s in st.servers ::
      Lookup(st.store.ids, s) == Lookup(ids, s) && Agrees(KnownOn(st, s), Lookup(ids, s))
  }

  predicate Agrees(user: Option<User>, id: Option<Id>) {
    user.Some? && user.value.identity.Some? ==> user.value.identity == id
  }

  lemma IdentityIsKept(st: State, ids: map<Url, Id>, s: Url)
    requires Good(st) && Identifies(st, ids) && s in st.servers
    ensures IdentityOn(st, s) == Lookup(ids, s)
  {
  }

  /** No id changes that stays listed. */
  lemma FewerIdentified(st: State, st': State, ids: map<Url, Id>)
    requires Identifies(st, ids)
    requires forall s | s in st'.servers ::
      s in st.servers && Lookup(st'.store.ids, s) == Lookup(st.store.ids, s) && KnownOn(st', s) == KnownOn(st, s)
    ensures Identifies(st', map s | s in ids && s in st'.servers :: ids[s])
  {
  }

  /** A sign-in with `user` to `base`, and the ids it leaves. */
  lemma IdentifiedAnew(st: State, st': State, ids: map<Url, Id>, base: Url, user: User)
    requires Identifies(st, ids) && KnownOn(st', base) == Some(user) && SameElsewhere(st, st', base)
    requires forall s | s in st'.servers :: s in st.servers || s == base
    requires st'.store.ids == SignedInIds(st.store.ids, base, user.identity)
    ensures var more := SignedInIds(ids, base, user.identity);
      Identifies(st', map s | s in more && s in st'.servers :: more[s])
  {
  }

  lemma NotSignedInIdentifies(w: World, step: Step, ids: map<Url, Id>)
    requires Possible(w, step) && step.SignIn? && !SignsIn(w, step) && After(w, step).st == w.st
    requires Identifies(w.st, ids)
    ensures Identifies(After(w, step).st, Identified(ids, w, step))
  {
  }

  lemma SignedInIsIdentified(w: World, step: Step, ids: map<Url, Id>)
    requires Good(w.st) && Possible(w, step) && step.SignIn? && Identifies(w.st, ids)
    ensures Identifies(After(w, step).st, Identified(ids, w, step))
  {
    SignInWaitsForWrites(w.st, step.url, step.token, step.user, step.valid);
    SignedInChanges(w.st, step.url, step.token, step.user, step.valid);
    if SignsIn(w, step) {
      SignedInElsewhere(w.st, step.url, step.token, step.user, step.valid);
      SignedInKeepsIds(w.st, step.url, step.token, step.user, step.valid);
      IdentifiedAnew(w.st, After(w, step).st, ids, Normalise(step.url), step.user);
    } else {
      NotSignedInIdentifies(w, step, ids);
    }
  }

  lemma ReadIsIdentified(w: World, step: Step, ids: map<Url, Id>)
    requires Good(w.st) && Possible(w, step) && step.ReadUser? && Identifies(w.st, ids)
    ensures Identifies(After(w, step).st, Identified(ids, w, step))
  {
  }

  lemma RestartIdentifies(w: World, ids: map<Url, Id>)
    requires Good(w.st) && Identifies(w.st, ids)
    ensures Identifies(After(w, Restart).st, Identified(ids, w, Restart))
  {
    RestartIsIdentity(w.st);
    RestartKnowsNobody(w, map[]);
  }

  lemma LeavingKeepsOthers(st: State, url: string, discard: bool, refused: bool)
    requires Good(st) && !(Normalise(url) in st.servers && MistakesTheNext(st, Normalise(url), refused))
    ensures var st' := Left(st, url, discard, refused).0;
      forall s | s in st'.servers ::
        s in st.servers && Lookup(st'.store.ids, s) == Lookup(st.store.ids, s) && KnownOn(st', s) == KnownOn(st, s)
  {
    LeftLeavesOne(st, url, discard, refused);
  }

  lemma LeavingIdentifies(w: World, step: Step, ids: map<Url, Id>)
    requires Good(w.st) && Possible(w, step) && step.Leave? && !Mistaken(w, step) && Identifies(w.st, ids)
    ensures Identifies(After(w, step).st, Identified(ids, w, step))
  {
    LeavingKeepsOthers(w.st, step.url, step.discard, step.refused);
    FewerIdentified(w.st, After(w, step).st, ids);
  }

  lemma RefusalIdentifies(w: World, step: Step, ids: map<Url, Id>)
    requires Good(w.st) && Possible(w, step) && step.Unauthorized? && Identifies(w.st, ids)
    ensures Identifies(After(w, step).st, Identified(ids, w, step))
  {
    if step.request.token.Some? && w.st.token == step.request.token {
      ForgottenLeavesOne(w.st);
    }
    FewerIdentified(w.st, After(w, step).st, ids);
  }

  lemma SwitchIdentifies(w: World, step: Step, ids: map<Url, Id>)
    requires Good(w.st) && Possible(w, step) && step.Switch? && Identifies(w.st, ids)
    ensures Identifies(After(w, step).st, Identified(ids, w, step))
  {
    SwitchedKeeps(w.st, step.url);
    FewerIdentified(w.st, After(w, step).st, ids);
  }

  lemma RequestsIdentify(w: World, step: Step, ids: map<Url, Id>)
    requires Possible(w, step) && Identifies(w.st, ids)
    requires step.Make? || step.MakeAs? || step.Answered? || step.Unanswered? || step.Sent?
    ensures Identifies(After(w, step).st, Identified(ids, w, step))
  {
    FewerIdentified(w.st, After(w, step).st, ids);
  }

  lemma StepIdentifies(w: World, step: Step, ids: map<Url, Id>)
    requires Good(w.st) && Possible(w, step) && !Mistaken(w, step) && Identifies(w.st, ids)
    ensures Identifies(After(w, step).st, Identified(ids, w, step))
  {
    match step {
      case SignIn(_, _, _, _) => SignedInIsIdentified(w, step, ids);
      case ReadUser(_) => ReadIsIdentified(w, step, ids);
      case Restart => RestartIdentifies(w, ids);
      case Leave(_, _, _) => LeavingIdentifies(w, step, ids);
      case Unauthorized(_) => RefusalIdentifies(w, step, ids);
      case Switch(_) => SwitchIdentifies(w, step, ids);
      case _ => RequestsIdentify(w, step, ids);
    }
  }

  // -- every run -------------------------------------------------------------------------

  lemma {:induction false} RunKnows(
    from: World, steps: seq<Step>, to: World, known: map<Url, User>, ids: map<Url, Id>)
    requires Good(from.st) && Run(from, steps, to) && Unmistaken(from, steps)
    requires Knows(from.st, known) && Identifies(from.st, ids)
    ensures Good(to.st) && Knows(to.st, KnownBy(known, from, steps)) && Identifies(to.st, IdsBy(ids, from, steps))
    decreases |steps|
  {
    if steps != [] {
      var step := steps[0];
      StepKeepsGood(from, step);
      StepKnows(from, step, known);
      StepIdentifies(from, step, ids);
      RunKnows(After(from, step), steps[1..], to, Learned(known, from, step), Identified(ids, from, step));
    }
  }

  lemma MadeAsIdentified(w: World, ids: map<Url, Id>)
    requires Good(w.st) && Identifies(w.st, ids) && w.st.token.Some?
    ensures w.st.base.Some?
    ensures After(w, Make).inFlight
      == w.inFlight + multiset{Request(w.st.base, w.st.token, Lookup(ids, w.st.base.value))}
  {
    IdentityIsKept(w.st, ids, w.st.base.value);
  }

  lemma FreshIsKnown()
    ensures Good(FRESH.st) && Knows(FRESH.st, map[]) && Identifies(FRESH.st, map[])
  {
    FreshIsGood();
    StartKnowsNobody(NOTHING_KEPT, map[]);
  }

  /** In every reachable state, whoever switched, left, was refused or was read
      in between: who is known on a server is who was last signed in or read
      there since the start; and the id that requests to it are made as, and
      writes kept under, is the last one they brought. */
  lemma KnownIsLastSeen(steps: seq<Step>, w: World)
    requires Run(FRESH, steps, w) && Unmistaken(FRESH, steps)
    ensures forall s :: KnownOn(w.st, s) == Lookup(KnownBy(map[], FRESH, steps), s)
    ensures forall s | s in w.st.servers :: IdentityOn(w.st, s) == Lookup(IdsBy(map[], FRESH, steps), s)
    ensures w.st.token.Some? ==>
      && w.st.base.Some?
      && After(w, Make).inFlight == w.inFlight
        + multiset{Request(w.st.base, w.st.token, Lookup(IdsBy(map[], FRESH, steps), w.st.base.value))}
  {
    var ids := IdsBy(map[], FRESH, steps);
    FreshIsKnown();
    RunKnows(FRESH, steps, w, map[], map[]);
    forall s | s in w.st.servers ensures IdentityOn(w.st, s) == Lookup(ids, s) {
      IdentityIsKept(w.st, ids, s);
    }
    if w.st.token.Some? {
      MadeAsIdentified(w, ids);
    }
  }
}
