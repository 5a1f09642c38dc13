/**
 Live reads: code that was run while its reads were recorded need not be run
 again until a key it read is sent. Transactions are flat and report what they
 write, through their own connection or, as models do, through the pool.
 */
module Freshness {
  import opened Common

  type Key = string

  /** A table's rows, or whatever else a key stands for. */
  type Data = string

  type Database = map<Key, Data>

  function Restricted(db: Database, keys: set<Key>): Database {
    map k | k in db && k in keys :: db[k]
  }

  // -- code that reads -------------------------------------------------------------------

  /** What code does next, having read what it has: a query over some tables, or
      its result. It depends on nothing but what it reads. */
  datatype Next = Read(keys: set<Key>) | Done(result: string)

  type Code = seq<Database> -> Next

  /** `seen` is what `code` sees up to some point when every query is answered
      from `db`. */
  ghost predicate Sees(code: Code, seen: seq<Database>, db: Database) {
    forall i | 0 <= i < |seen| :: code(seen[..i]).Read? && seen[i] == Restricted(db, code(seen[..i]).keys)
  }

  /** Run against `db`, `code` ends with `result`. */
  ghost predicate Gives(code: Code, db: Database, result: string) {
    exists seen :: Sees(code, seen, db) && code(seen) == Done(result)
  }

  lemma {:induction false} SeesOneWay(code: Code, a: seq<Database>, b: seq<Database>, db: Database)
    requires Sees(code, a, db) && Sees(code, b, db) && |a| <= |b|
    ensures a == b[..|a|]
  {
    if a != [] {
      var n := |a| - 1;
      assert forall i | 0 <= i < n :: a[..n][..i] == a[..i] && a[..n][i] == a[i];
      SeesOneWay(code, a[..n], b, db);
      assert a[..n] == b[..n];
      assert a == a[..n] + [a[n]] && b[..|a|] == b[..n] + [b[n]];
    }
  }

  /** Code gives one result. */
  lemma GivesOneResult(code: Code, db: Database, a: string, b: string)
    requires Gives(code, db, a) && Gives(code, db, b)
    ensures a == b
  {
    var x :| Sees(code, x, db) && code(x) == Done(a);
    var y :| Sees(code, y, db) && code(y) == Done(b);
    if |x| <= |y| {
      SeesOneWay(code, x, y, db);
      assert y[..|y|] == y;
    } else {
      SeesOneWay(code, y, x, db);
    }
  }

  // -- the machine -----------------------------------------------------------------------

  /** `pooled`: when it last wrote each key through the pool. */
  datatype Tx = Tx(writes: Database, touched: set<Key>, pooled: map<Key, nat>)

  const OPENED := Tx(map[], {}, map[])

  /** A tracked run: what it saw, the keys recorded, how much had been sent when
      it began, and how often the pool had been written in a transaction. */
  datatype Tracked = Tracked(code: Code, seen: seq<Database>, keys: set<Key>, since: nat, began: nat)

  /** `waiting`: keys whose writes are durable and that are still to be sent.
      `committed`: what each commit and direct write reported. `poolWrites`
      counts the writes through the pool inside transactions, and `dropped` is
      the latest such write of each key whose transaction was rolled back. */
  datatype World = World(
    db: Database,
    txs: map<nat, Tx>,
    waiting: multiset<Key>,
    sent: seq<Key>,
    committed: seq<set<Key>>,
    runs: map<nat, Tracked>,
    poolWrites: nat,
    dropped: map<Key, nat>)

  datatype Action =
    | Begin(tx: nat)
    | WriteIn(tx: nat, key: Key, data: Data)
    | TouchIn(tx: nat, key: Key)
    | PoolWrite(tx: nat, key: Key, data: Data)
    | Commit(tx: nat)
    | Rollback(tx: nat)
    | Write(key: Key, data: Data)
    | Touch(key: Key)
    | Send(key: Key)
    | Track(run: nat, code: Code)
    | Query(run: nat)

  predicate Possible(w: World, action: Action) {
    match action
    case Begin(t) => t !in w.txs
    case WriteIn(t, _, _) => t in w.txs
    case TouchIn(t, _) => t in w.txs
    case PoolWrite(t, _, _) => t in w.txs
    case Commit(t) => t in w.txs
    case Rollback(t) => t in w.txs
    case Write(_, _) => true
    case Touch(_) => true
    case Send(key) => key in w.waiting
    case Track(r, _) => r !in w.runs
    case Query(r) => r in w.runs && w.runs[r].code(w.runs[r].seen).Read?
  }

  function Overwritten(db: Database, writes: Database): Database {
    map k | k in db.Keys + writes.Keys :: if k in writes then writes[k] else db[k]
  }

  function Latest(a: map<Key, nat>, b: map<Key, nat>): map<Key, nat> {
    map k | k in a.Keys + b.Keys :: if k !in b || (k in a && b[k] <= a[k]) then a[k] else b[k]
  }

  function Asked(run: Tracked, db: Database): Tracked
    requires run.code(run.seen).Read?
  {
    var keys := run.code(run.seen).keys;
    run.(seen := run.seen + [Restricted(db, keys)], keys := run.keys + keys)
  }

  function After(w: World, action: Action): World
    requires Possible(w, action)
  {
    match action
    case Begin(t) => w.(txs := w.txs[t := OPENED])
    case WriteIn(t, key, data) =>
      var tx := w.txs[t];
      w.(txs := w.txs[t := tx.(writes := tx.writes[key := data], touched := tx.touched + {key})])
    case TouchIn(t, key) => w.(txs := w.txs[t := w.txs[t].(touched := w.txs[t].touched + {key})])
    case PoolWrite(t, key, data) =>
      var tx := w.txs[t];
      w.(db := w.db[key := data],
         txs := w.txs[t := tx.(touched := tx.touched + {key}, pooled := tx.pooled[key := w.poolWrites])],
         poolWrites := w.poolWrites + 1)
    case Commit(t) =>
      var tx := w.txs[t];
      w.(db := Overwritten(w.db, tx.writes), txs := w.txs - {t},
         waiting := w.waiting + multiset(tx.touched), committed := w.committed + [tx.touched])
    case Rollback(t) => w.(txs := w.txs - {t}, dropped := Latest(w.dropped, w.txs[t].pooled))
    case Write(key, data) =>
      w.(db := w.db[key := data], waiting := w.waiting + multiset{key}, committed := w.committed + [{key}])
    case Touch(key) => w.(waiting := w.waiting + multiset{key}, committed := w.committed + [{key}])
    case Send(key) => w.(waiting := w.waiting - multiset{key}, sent := w.sent + [key])
    case Track(r, code) => w.(runs := w.runs[r := Tracked(code, [], {}, |w.sent|, w.poolWrites)])
    case Query(r) => w.(runs := w.runs[r := Asked(w.runs[r], w.db)])
  }

  const START := World(map[], map[], multiset{}, [], [], map[], 0, map[])

  ghost predicate Run(w: World, actions: seq<Action>, end: World)
    decreases |actions|
  {
    if actions == [] then end == w
    else Possible(w, actions[0]) && Run(After(w, actions[0]), actions[1..], end)
  }

  // -- what every run keeps --------------------------------------------------------------

  /** Nothing the run read of `k` has changed since. */
  ghost predicate Unchanged(run: Tracked, k: Key, db: Database) {
    forall i | 0 <= i < |run.seen| ::
      run.code(run.seen[..i]).Read?
      && (k in run.code(run.seen[..i]).keys ==> SameAt(run.seen[i], db, k))
  }

  predicate SameAt(a: Database, b: Database, k: Key) {
    if k in b then k in a && a[k] == b[k] else k !in a
  }

  ghost predicate Told(w: World, run: Tracked, k: Key) {
    k in w.waiting || (run.since <= |w.sent| && k in w.sent[run.since..])
  }

  /** The key was written through the pool, since the run began, by a
      transaction that is open. */
  ghost predicate Pooled(w: World, run: Tracked, k: Key) {
    exists t :: t in w.txs && k in w.txs[t].pooled && run.began <= w.txs[t].pooled[k]
  }

  /** Or by one that was rolled back. */
  predicate Dropped(w: World, run: Tracked, k: Key) {
    k in w.dropped && run.began <= w.dropped[k]
  }

  ghost predicate Missed(w: World, run: Tracked, k: Key) {
    Pooled(w, run, k) || Dropped(w, run, k)
  }

  ghost predicate Noticed(w: World, run: Tracked, k: Key) {
    Told(w, run, k) || Missed(w, run, k)
  }

  /** A key the run read is unchanged, or it was sent since the run began, or
      it is waiting to be, or its write through the pool is unreported. */
  ghost predicate Watched(w: World, run: Tracked) {
    forall k | k in run.keys :: Unchanged(run, k, w.db) || Noticed(w, run, k)
  }

  /** What the run saw is of the keys it recorded. */
  ghost predicate Recorded(run: Tracked) {
    forall i | 0 <= i < |run.seen| ::
      && run.code(run.seen[..i]).Read?
      && run.code(run.seen[..i]).keys <= run.keys
      && run.seen[i].Keys <= run.code(run.seen[..i]).keys
  }

  ghost predicate Reports(w: World) {
    forall t | t in w.txs :: w.txs[t].writes.Keys + w.txs[t].pooled.Keys <= w.txs[t].touched
  }

  ghost predicate FreshRun(w: World, run: Tracked) {
    run.since <= |w.sent| && run.began <= w.poolWrites && Recorded(run) && Watched(w, run)
  }

  ghost predicate Fresh(w: World) {
    forall r | r in w.runs :: FreshRun(w, w.runs[r])
  }

  /** What is noticed stays so, and where a write made a difference, it is. */
  lemma WriteKeepsWatched(w: World, after: World, run: Tracked)
    requires Watched(w, run)
    requires forall k | Noticed(w, run, k) :: Noticed(after, run, k)
    requires forall k :: SameAt(w.db, after.db, k) || Noticed(after, run, k)
    ensures Watched(after, run)
  {
    forall k | k in run.keys
      ensures Unchanged(run, k, after.db) || Noticed(after, run, k)
    {
      if Unchanged(run, k, w.db) && SameAt(w.db, after.db, k) {
        assert Unchanged(run, k, after.db);
      }
    }
  }

  lemma TellingMoreKeepsTold(w: World, after: World, run: Tracked)
    requires after.sent == w.sent && w.waiting <= after.waiting
    ensures forall k | Told(w, run, k) :: Told(after, run, k)
  {
  }

  lemma PoolWriteKeepsWatched(w: World, t: nat, key: Key, data: Data, run: Tracked)
    requires t in w.txs && Watched(w, run) && run.began <= w.poolWrites
    ensures Watched(After(w, PoolWrite(t, key, data)), run)
  {
    var after := After(w, PoolWrite(t, key, data));
    TellingMoreKeepsTold(w, after, run);
    assert key in after.txs[t].pooled && run.began <= after.txs[t].pooled[key];
    forall k | Missed(w, run, k)
      ensures Missed(after, run, k)
    {
      if Pooled(w, run, k) && k != key {
        var u :| u in w.txs && k in w.txs[u].pooled && run.began <= w.txs[u].pooled[k];
        assert u in after.txs && k in after.txs[u].pooled;
      }
    }
    WriteKeepsWatched(w, after, run);
  }

  /** A commit reports what it had written through the pool. */
  lemma CommitKeepsWatched(w: World, t: nat, run: Tracked)
    requires t in w.txs && Reports(w) && Watched(w, run)
    ensures Watched(After(w, Commit(t)), run)
  {
    var after := After(w, Commit(t));
    TellingMoreKeepsTold(w, after, run);
    forall k | Missed(w, run, k)
      ensures Noticed(after, run, k)
    {
      if Pooled(w, run, k) {
        var u :| u in w.txs && k in w.txs[u].pooled && run.began <= w.txs[u].pooled[k];
        assert u != t ==> u in after.txs && after.txs[u] == w.txs[u];
        assert u == t ==> k in after.waiting;
      }
    }
    forall k
      ensures SameAt(w.db, after.db, k) || Noticed(after, run, k)
    {
      assert k in w.txs[t].writes ==> k in after.waiting;
    }
    WriteKeepsWatched(w, after, run);
  }

  /** A rollback drops its reports, and what it had written stays. */
  lemma RollbackKeepsWatched(w: World, t: nat, run: Tracked)
    requires t in w.txs && Watched(w, run)
    ensures Watched(After(w, Rollback(t)), run)
  {
    var after := After(w, Rollback(t));
    TellingMoreKeepsTold(w, after, run);
    forall k | Missed(w, run, k)
      ensures Missed(after, run, k)
    {
      if Pooled(w, run, k) {
        var u :| u in w.txs && k in w.txs[u].pooled && run.began <= w.txs[u].pooled[k];
        assert u != t ==> u in after.txs && after.txs[u] == w.txs[u];
        assert u == t ==> Dropped(after, run, k);
      }
    }
    WriteKeepsWatched(w, after, run);
  }

  /** The rest leaves what is missed as it is, and tells of what it writes. */
  lemma OtherKeepsWatched(w: World, action: Action, run: Tracked)
    requires Possible(w, action) && Watched(w, run)
    requires !action.Send? && !action.PoolWrite? && !action.Commit? && !action.Rollback?
    ensures Watched(After(w, action), run)
  {
    var after := After(w, action);
    TellingMoreKeepsTold(w, after, run);
    forall k | Missed(w, run, k)
      ensures Missed(after, run, k)
    {
      if Pooled(w, run, k) {
        var u :| u in w.txs && k in w.txs[u].pooled && run.began <= w.txs[u].pooled[k];
        assert u in after.txs && after.txs[u].pooled == w.txs[u].pooled;
      }
    }
    WriteKeepsWatched(w, after, run);
  }

  lemma SendKeepsWatched(w: World, key: Key, run: Tracked)
    requires Watched(w, run) && run.since <= |w.sent| && key in w.waiting
    ensures Watched(After(w, Send(key)), run)
  {
    var after := After(w, Send(key));
    assert after.sent[run.since..] == w.sent[run.since..] + [key];
    forall k | Noticed(w, run, k)
      ensures Noticed(after, run, k)
    {
      assert Told(w, run, k) ==> Told(after, run, k);
      assert Missed(w, run, k) ==> Missed(after, run, k);
    }
    WriteKeepsWatched(w, after, run);
  }

  lemma QueryKeepsWatched(w: World, run: Tracked)
    requires Watched(w, run) && Recorded(run) && run.code(run.seen).Read?
    ensures Recorded(Asked(run, w.db)) && Watched(w, Asked(run, w.db))
  {
    var asked := Asked(run, w.db);
    var n := |run.seen|;
    assert asked.seen[..n] == run.seen;
    assert forall i | 0 <= i < n :: asked.seen[..i] == run.seen[..i] && asked.seen[i] == run.seen[i];
    forall k | k in asked.keys
      ensures Unchanged(asked, k, w.db) || Noticed(w, asked, k)
    {
      if k !in run.keys {
        assert Unchanged(run, k, w.db);
      } else {
        assert Noticed(w, run, k) ==> Noticed(w, asked, k);
      }
    }
  }

  lemma WatchedKept(w: World, action: Action, run: Tracked)
    requires Possible(w, action) && Reports(w) && Watched(w, run) && run.since <= |w.sent| && run.began <= w.poolWrites
    ensures Watched(After(w, action), run)
  {
    match action
    case Send(key) => SendKeepsWatched(w, key, run);
    case PoolWrite(t, key, data) => PoolWriteKeepsWatched(w, t, key, data, run);
    case Commit(t) => CommitKeepsWatched(w, t, run);
    case Rollback(t) => RollbackKeepsWatched(w, t, run);
    case _ => OtherKeepsWatched(w, action, run);
  }

  lemma ReportsKept(w: World, action: Action)
    requires Possible(w, action) && Reports(w)
    ensures Reports(After(w, action))
  {
  }

  lemma FreshKept(w: World, action: Action)
    requires Possible(w, action) && Reports(w) && Fresh(w)
    ensures Fresh(After(w, action))
  {
    var after := After(w, action);
    forall r | r in after.runs
      ensures FreshRun(after, after.runs[r])
    {
      if action.Query? && action.run == r {
        assert FreshRun(w, w.runs[r]);
        QueryKeepsWatched(w, w.runs[r]);
        OtherKeepsWatched(w, action, Asked(w.runs[r], w.db));
      } else if r in w.runs {
        assert FreshRun(w, w.runs[r]);
        WatchedKept(w, action, w.runs[r]);
      }
    }
  }

  lemma {:induction false} RunKeepsFresh(w: World, actions: seq<Action>, end: World)
    requires Run(w, actions, end) && Reports(w) && Fresh(w)
    ensures Reports(end) && Fresh(end)
    decreases |actions|
  {
    if actions != [] {
      ReportsKept(w, actions[0]);
      FreshKept(w, actions[0]);
      RunKeepsFresh(After(w, actions[0]), actions[1..], end);
    }
  }

  /** None of the run's reads was sent since it began, and none is waiting. */
  ghost predicate Quiet(w: World, run: Tracked) {
    run.since <= |w.sent| && forall k | k in run.keys :: k !in w.waiting && k !in w.sent[run.since..]
  }

  /** No key of the run is missed. */
  ghost predicate Heard(w: World, run: Tracked) {
    forall k | k in run.keys :: !Missed(w, run, k)
  }

  lemma QuietSeesTheSame(w: World, run: Tracked)
    requires Recorded(run) && Watched(w, run) && Quiet(w, run) && Heard(w, run)
    ensures Sees(run.code, run.seen, w.db)
  {
    forall i | 0 <= i < |run.seen|
      ensures run.seen[i] == Restricted(w.db, run.code(run.seen[..i]).keys)
    {
      var keys := run.code(run.seen[..i]).keys;
      forall k
        ensures k in keys ==> SameAt(run.seen[i], w.db, k)
      {
        assert k in keys ==> k in run.keys && Unchanged(run, k, w.db);
      }
    }
  }

  /** At every instant: while none of its keys has been sent since it began or
      waits to be, and none was written since through the pool by a transaction
      that is open or was rolled back, a tracked run, done, has the result that
      running it again would give, and there is no other. */
  lemma QuietRunsAreFresh(actions: seq<Action>, w: World, r: nat, result: string, again: string)
    requires Run(START, actions, w) && r in w.runs && Quiet(w, w.runs[r]) && Heard(w, w.runs[r])
    requires w.runs[r].code(w.runs[r].seen) == Done(result)
    ensures Gives(w.runs[r].code, w.db, result)
    ensures Gives(w.runs[r].code, w.db, again) ==> again == result
  {
    RunKeepsFresh(START, actions, w);
    assert FreshRun(w, w.runs[r]);
    QuietSeesTheSame(w, w.runs[r]);
    assert Gives(w.runs[r].code, w.db, result);
    if Gives(w.runs[r].code, w.db, again) {
      GivesOneResult(w.runs[r].code, w.db, again, result);
    }
  }

  ghost predicate NothingPooled(w: World) {
    w.dropped == map[] && forall t | t in w.txs :: w.txs[t].pooled == map[]
  }

  lemma {:induction false} NothingPooledKept(w: World, actions: seq<Action>, end: World)
    requires Run(w, actions, end) && NothingPooled(w) && forall i | 0 <= i < |actions| :: !actions[i].PoolWrite?
    ensures NothingPooled(end)
    decreases |actions|
  {
    if actions != [] {
      NothingPooledKept(After(w, actions[0]), actions[1..], end);
    }
  }

  /** Where transactions write through their own connection, no run misses
      anything. */
  lemma OwnConnectionMissesNothing(actions: seq<Action>, w: World, run: Tracked)
    requires Run(START, actions, w) && forall i | 0 <= i < |actions| :: !actions[i].PoolWrite?
    ensures Heard(w, run)
  {
    NothingPooledKept(START, actions, w);
  }

  // -- what is sent ----------------------------------------------------------------------

  function AllReported(committed: seq<set<Key>>): multiset<Key> {
    if committed == [] then multiset{}
    else AllReported(committed[..|committed| - 1]) + multiset(committed[|committed| - 1])
  }

  /** Each commit's keys, once each, are sent or waiting, and nothing else is. */
  ghost predicate Accounted(w: World) {
    multiset(w.sent) + w.waiting == AllReported(w.committed)
  }

  lemma ReportedGrows(committed: seq<set<Key>>, keys: set<Key>)
    ensures AllReported(committed + [keys]) == AllReported(committed) + multiset(keys)
  {
    assert (committed + [keys])[..|committed|] == committed;
  }

  lemma CommitAccounted(w: World, t: nat)
    requires t in w.txs && Accounted(w)
    ensures Accounted(After(w, Commit(t)))
  {
    ReportedGrows(w.committed, w.txs[t].touched);
  }

  lemma WriteAccounted(w: World, action: Action)
    requires (action.Write? || action.Touch?) && Accounted(w)
    ensures Accounted(After(w, action))
  {
    ReportedGrows(w.committed, {action.key});
    assert multiset({action.key}) == multiset{action.key};
  }

  lemma SendAccounted(w: World, key: Key)
    requires key in w.waiting && Accounted(w)
    ensures Accounted(After(w, Send(key)))
  {
    assert multiset(w.sent + [key]) == multiset(w.sent) + multiset{key};
  }

  lemma AccountedKept(w: World, action: Action)
    requires Possible(w, action) && Accounted(w)
    ensures Accounted(After(w, action))
  {
    match action
    case Commit(t) => CommitAccounted(w, t);
    case Write(_, _) => WriteAccounted(w, action);
    case Touch(_) => WriteAccounted(w, action);
    case Send(key) => SendAccounted(w, key);
    case _ =>
  }

  /** A transaction rolled back sends nothing, one that commits sends each of
      its keys once, and so does a write outside any. */
  lemma {:induction false} SentOncePerCommit(w: World, actions: seq<Action>, end: World)
    requires Run(w, actions, end) && Accounted(w)
    ensures Accounted(end)
    decreases |actions|
  {
    if actions != [] {
      AccountedKept(w, actions[0]);
      SentOncePerCommit(After(w, actions[0]), actions[1..], end);
    }
  }

  lemma NothingElseIsSent(actions: seq<Action>, end: World)
    requires Run(START, actions, end)
    ensures multiset(end.sent) + end.waiting == AllReported(end.committed)
  {
    assert Accounted(START);
    SentOncePerCommit(START, actions, end);
  }

  // -- a write through the pool inside a transaction -------------------------------------

  function Shown(db: Database, key: Key): string {
    if key in db then "there: " + db[key] else "not there"
  }

  /** Code that shows what `key` stands for. */
  function Looks(key: Key): Code {
    seen => if seen == [] then Read({key}) else Done(Shown(seen[0], key))
  }

  lemma LooksGives(key: Key, db: Database)
    ensures Gives(Looks(key), db, Shown(db, key))
  {
    var seen := [Restricted(db, {key})];
    assert seen[..0] == [];
    assert Sees(Looks(key), seen, db);
    assert Looks(key)(seen) == Done(Shown(db, key));
  }

  lemma ShownTells(a: Database, b: Database, key: Key)
    ensures Shown(a, key) == Shown(b, key) <==> SameAt(a, b, key)
  {
    assert "there: "[0] != "not there"[0];
    if key in a && key in b {
      assert Shown(a, key)[7..] == a[key] && Shown(b, key)[7..] == b[key];
    }
  }

  /** A run, done, that shows what `key` was in `was`, and that nothing has told
      of `key` since. */
  ghost predicate Looked(w: World, r: nat, key: Key, was: Database) {
    && r in w.runs && w.runs[r].code == Looks(key)
    && w.runs[r].seen == [Restricted(was, {key})] && w.runs[r].keys == {key}
    && Quiet(w, w.runs[r])
  }

  /** Quiet, and yet running it again gives something else. */
  ghost predicate StaleUnnoticed(w: World, r: nat) {
    && r in w.runs && Quiet(w, w.runs[r])
    && exists result, again ::
         w.runs[r].code(w.runs[r].seen) == Done(result) && Gives(w.runs[r].code, w.db, again) && again != result
  }

  lemma LookedIsStale(w: World, r: nat, key: Key, was: Database)
    requires Looked(w, r, key, was)
    ensures SameAt(was, w.db, key) || StaleUnnoticed(w, r)
  {
    var run := w.runs[r];
    LooksGives(key, w.db);
    ShownTells(was, w.db, key);
    assert Shown(Restricted(was, {key}), key) == Shown(was, key);
    assert run.code(run.seen) == Done(Shown(was, key));
  }

  /** Everything waiting of `key` sent. */
  function Drained(w: World, key: Key): (end: World)
    ensures key !in end.waiting && end.db == w.db && end.txs == w.txs && end.runs == w.runs
    decreases w.waiting[key]
  {
    if key in w.waiting then Drained(After(w, Send(key)), key) else w
  }

  lemma {:induction false} DrainedIsReached(w: World, key: Key) returns (sends: seq<Action>)
    ensures Run(w, sends, Drained(w, key)) && forall i | 0 <= i < |sends| :: sends[i] == Send(key)
    decreases w.waiting[key]
  {
    sends := [];
    if key in w.waiting {
      var more := DrainedIsReached(After(w, Send(key)), key);
      sends := [Send(key)] + more;
      RunOne(w, Send(key), After(w, Send(key)), more, Drained(w, key));
    }
  }

  lemma RunOne(w: World, action: Action, after: World, actions: seq<Action>, end: World)
    requires Possible(w, action) && After(w, action) == after && Run(after, actions, end)
    ensures Run(w, [action] + actions, end)
  {
    assert ([action] + actions)[1..] == actions;
  }

  /** A run that looks at `key` now. */
  function Looking(w: World, r: nat, key: Key): World
    requires r !in w.runs
  {
    var run := Tracked(Looks(key), [Restricted(w.db, {key})], {key}, |w.sent|, w.poolWrites);
    w.(runs := w.runs[r := run])
  }

  lemma LookingIsReached(w: World, r: nat, key: Key)
    requires r !in w.runs
    ensures Run(w, [Track(r, Looks(key)), Query(r)], Looking(w, r, key))
  {
    var tracking := After(w, Track(r, Looks(key)));
    assert Looks(key)([]) == Read({key});
    assert tracking.runs[r].seen == [] && {} + {key} == {key};
    assert [] + [Restricted(w.db, {key})] == [Restricted(w.db, {key})];
    assert Asked(tracking.runs[r], tracking.db) == Looking(w, r, key).runs[r];
    assert After(tracking, Query(r)).runs == Looking(w, r, key).runs;
    assert After(tracking, Query(r)) == Looking(w, r, key);
    RunOne(tracking, Query(r), Looking(w, r, key), [], Looking(w, r, key));
    RunOne(w, Track(r, Looks(key)), tracking, [Query(r)], Looking(w, r, key));
  }

  /** In whatever state, with a transaction open: what is waiting of a key being
      sent, a run that looks at it is stale and unnoticed as soon as the
      transaction writes other data to it through the pool. */
  lemma PoolWriteIsUnnoticed(w: World, t: nat, key: Key, data: Data, r: nat)
    requires t in w.txs && r !in w.runs && (key in w.db ==> w.db[key] != data)
    ensures
      var looking := Looking(Drained(w, key), r, key);
      && (exists sends :: Run(w, sends, Drained(w, key)) && forall i | 0 <= i < |sends| :: sends[i] == Send(key))
      && Run(Drained(w, key), [Track(r, Looks(key)), Query(r)], looking)
      && t in looking.txs
      && var after := After(looking, PoolWrite(t, key, data));
         Looked(after, r, key, w.db) && StaleUnnoticed(after, r) && key in after.txs[t].touched
  {
    var sends := DrainedIsReached(w, key);
    var drained := Drained(w, key);
    LookingIsReached(drained, r, key);
    var after := After(Looking(drained, r, key), PoolWrite(t, key, data));
    LookedIsStale(after, r, key, w.db);
  }

  /** An action that neither writes `key` where others see it nor reports it. */
  predicate Spares(w: World, action: Action, key: Key)
    requires Possible(w, action)
  {
    match action
    case Commit(t) => key !in w.txs[t].touched
    case Write(k, _) => k != key
    case Touch(k) => k != key
    case PoolWrite(_, k, _) => k != key
    case _ => true
  }

  ghost predicate SparingRun(w: World, actions: seq<Action>, key: Key, end: World)
    decreases |actions|
  {
    if actions == [] then end == w
    else
      Possible(w, actions[0]) && Spares(w, actions[0], key) && SparingRun(After(w, actions[0]), actions[1..], key, end)
  }

  lemma SparingKeepsLooked(w: World, action: Action, r: nat, key: Key, was: Database)
    requires Reports(w) && Possible(w, action) && Spares(w, action, key) && Looked(w, r, key, was)
    ensures Looked(After(w, action), r, key, was) && SameAt(w.db, After(w, action).db, key)
  {
    var after, run := After(w, action), w.runs[r];
    if action.Send? {
      assert action.key != key;
      assert after.sent[run.since..] == w.sent[run.since..] + [action.key];
    }
    assert Looks(key)(run.seen).Done?;
  }

  /** It stays so while nobody else writes or reports the key: as long as the
      transaction is open, and for good once it is rolled back. */
  lemma {:induction false} StaysUnnoticed(w: World, actions: seq<Action>, end: World, r: nat, key: Key, was: Database)
    requires Reports(w) && SparingRun(w, actions, key, end) && Looked(w, r, key, was) && !SameAt(was, w.db, key)
    ensures StaleUnnoticed(end, r)
    decreases |actions|
  {
    if actions == [] {
      LookedIsStale(end, r, key, was);
    } else {
      SparingKeepsLooked(w, actions[0], r, key, was);
      ReportsKept(w, actions[0]);
      StaysUnnoticed(After(w, actions[0]), actions[1..], end, r, key, was);
    }
  }

  /** From every reachable state with a transaction open: a write through the
      pool that changes a key leaves a run stale and unnoticed, and it stays so
      while nobody else writes or reports the key. */
  lemma PoolWriteStaysUnnoticed(
    actions: seq<Action>, w: World, t: nat, key: Key, data: Data, r: nat, more: seq<Action>, end: World)
    requires Run(START, actions, w) && t in w.txs && r !in w.runs && (key in w.db ==> w.db[key] != data)
    requires SparingRun(After(Looking(Drained(w, key), r, key), PoolWrite(t, key, data)), more, key, end)
    ensures StaleUnnoticed(end, r)
  {
    var looking := Looking(Drained(w, key), r, key);
    RunKeepsFresh(START, actions, w);
    PoolWriteIsUnnoticed(w, t, key, data, r);
    ReportsKept(looking, PoolWrite(t, key, data));
    StaysUnnoticed(After(looking, PoolWrite(t, key, data)), more, end, r, key, w.db);
  }

  /** Until a commit that touched the key: from then on it waits to be sent. */
  lemma CommitIsNoticed(w: World, t: nat, r: nat, key: Key)
    requires t in w.txs && key in w.txs[t].touched && r in w.runs && key in w.runs[r].keys
    ensures key in After(w, Commit(t)).waiting && !Quiet(After(w, Commit(t)), w.runs[r])
  {
  }

  // -- what the database holds -------------------------------------------------------------

  /** What transaction `t` last wrote to `k` through its connection, since it
      began. */
  function Pending(actions: seq<Action>, t: nat, k: Key): Option<Data> {
    if actions == [] then None
    else
      var before, last := actions[..|actions| - 1], actions[|actions| - 1];
      if last == Begin(t) then None
      else if last.WriteIn? && last.tx == t && last.key == k then Some(last.data)
      else Pending(before, t, k)
  }

  /** The last durable write to `k`: a direct one, one through the pool, or that
      of a transaction when it commits. */
  function Durable(actions: seq<Action>, k: Key): Option<Data> {
    if actions == [] then None
    else
      var before, last := actions[..|actions| - 1], actions[|actions| - 1];
      if (last.Write? || last.PoolWrite?) && last.key == k then Some(last.data)
      else if last.Commit? && Pending(before, last.tx, k).Some? then Pending(before, last.tx, k)
      else Durable(before, k)
  }

  ghost predicate HoldsDurable(w: World, actions: seq<Action>) {
    && (forall k :: Lookup(w.db, k) == Durable(actions, k))
    && (forall t, k | t in w.txs :: Lookup(w.txs[t].writes, k) == Pending(actions, t, k))
  }

  lemma ActionHoldsDurable(w: World, actions: seq<Action>, action: Action)
    requires HoldsDurable(w, actions) && Possible(w, action)
    ensures HoldsDurable(After(w, action), actions + [action])
  {
    assert (actions + [action])[..|actions|] == actions;
  }

  lemma {:induction false} RunHoldsDurable(w: World, before: seq<Action>, actions: seq<Action>, end: World)
    requires HoldsDurable(w, before) && Run(w, actions, end)
    ensures HoldsDurable(end, before + actions)
    decreases |actions|
  {
    if actions == [] {
      assert before + actions == before;
    } else {
      ActionHoldsDurable(w, before, actions[0]);
      RunHoldsDurable(After(w, actions[0]), before + [actions[0]], actions[1..], end);
      assert before + [actions[0]] + actions[1..] == before + actions;
    }
  }

  /** After any run each key holds its last durable write, and nothing of a
      transaction that is open or was rolled back but what went by the pool. */
  lemma DatabaseIsTheDurableWrites(actions: seq<Action>, end: World, k: Key)
    requires Run(START, actions, end)
    ensures Lookup(end.db, k) == Durable(actions, k)
  {
    RunHoldsDurable(START, [], actions, end);
    assert [] + actions == actions;
  }
}
