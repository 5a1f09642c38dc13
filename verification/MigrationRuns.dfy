/** What any sequence of runs and rollbacks keeps, and what a rollback undoes. */
module MigrationRuns {
  import opened Common
  import opened Ordering
  import opened Migrations

  /** A migration that was applied, in its batch. */
  datatype Entry = Entry(batch: nat, migration: Migration)

  // -- the schema is the migrations recorded ---------------------------------------------

  /** Earlier batches first, and by version within one. */
  predicate Precedes(a: Entry, b: Entry) {
    a.batch < b.batch || (a.batch == b.batch && Before(a.migration.version, b.migration.version))
  }

  ghost predicate InOrder(log: seq<Entry>) {
    forall i, j | 0 <= i < j < |log| :: Precedes(log[i], log[j]) && log[i].migration.version != log[j].migration.version
  }

  function TableOf(log: seq<Entry>): map<string, nat> {
    if log == [] then map[]
    else
      var last := log[|log| - 1];
      TableOf(log[..|log| - 1])[last.migration.version := last.batch]
  }

  /** The ups, one after the other. */
  function Fold<S>(base: S, log: seq<Entry>, engine: Engine<S>): Option<S> {
    if log == [] then Some(base)
    else
      var before := Fold(base, log[..|log| - 1], engine);
      if before.None? then None else Execute(log[|log| - 1].migration.up, before.value, engine)
  }

  /** The table records `log` and the schema is what its ups, in order, make of
      the schema there was before any. */
  ghost predicate Represents<S>(db: Db<S>, base: S, log: seq<Entry>, engine: Engine<S>) {
    InOrder(log) && db.table == TableOf(log) && Fold(base, log, engine) == Some(db.schema)
  }

  lemma {:induction false} TableHolds(log: seq<Entry>)
    requires InOrder(log)
    ensures forall v :: v in TableOf(log) <==> exists i :: 0 <= i < |log| && log[i].migration.version == v
    ensures forall i | 0 <= i < |log| :: TableOf(log)[log[i].migration.version] == log[i].batch
  {
    if log != [] {
      var before := log[..|log| - 1];
      TableHolds(before);
      assert forall i | 0 <= i < |before| :: log[i] == before[i];
      forall v | v in TableOf(log)
        ensures exists i :: 0 <= i < |log| && log[i].migration.version == v
      {
        if v in TableOf(before) {
          var i :| 0 <= i < |before| && before[i].migration.version == v;
          assert log[i].migration.version == v;
        } else {
          assert log[|log| - 1].migration.version == v;
        }
      }
    }
  }

  /** What may follow `log` in `batch`. */
  ghost predicate Follows(log: seq<Entry>, batch: nat, version: string) {
    forall i | 0 <= i < |log| ::
      log[i].batch < batch || (log[i].batch == batch && NotAfter(log[i].migration.version, version))
  }

  lemma AppliedKeeps<S>(db: Db<S>, base: S, log: seq<Entry>, m: Migration, batch: nat, fails: bool, engine: Engine<S>)
    requires Represents(db, base, log, engine) && Follows(log, batch, m.version)
    requires Applied(db, m, batch, fails, engine).Some?
    ensures Represents(Applied(db, m, batch, fails, engine).value, base, log + [Entry(batch, m)], engine)
  {
    var more := log + [Entry(batch, m)];
    assert more[..|more| - 1] == log;
    TableHolds(log);
    forall i | 0 <= i < |log|
      ensures Precedes(log[i], Entry(batch, m)) && log[i].migration.version != m.version
    {
      assert log[i].migration.version in TableOf(log);
    }
  }

  function Entries(ms: seq<Migration>, batch: nat): seq<Entry> {
    seq(|ms|, i requires 0 <= i < |ms| => Entry(batch, ms[i]))
  }

  lemma EntriesStep(log: seq<Entry>, pending: seq<Migration>, i: nat, n: nat, batch: nat)
    requires i < n <= |pending|
    ensures log + Entries(pending[i..n], batch) == log + [Entry(batch, pending[i])] + Entries(pending[i + 1..n], batch)
  {
  }

  lemma NoEntries(log: seq<Entry>, pending: seq<Migration>, i: nat, batch: nat)
    requires i <= |pending|
    ensures log + Entries(pending[i..i], batch) == log
  {
  }

  /** As many as were applied are recorded, in order, and no others. */
  lemma {:induction false} ApplyKeeps<S>(db: Db<S>, base: S, log: seq<Entry>, pending: seq<Migration>, i: nat,
      batch: nat, fails: nat -> bool, engine: Engine<S>)
    requires i <= |pending| && Ordered(pending) && Represents(db, base, log, engine)
    requires i < |pending| ==> Follows(log, batch, pending[i].version)
    ensures var (end, n) := ApplyFrom(db, pending, i, batch, fails, engine);
      i <= n <= |pending| && Represents(end, base, log + Entries(pending[i..n], batch), engine)
    decreases |pending| - i
  {
    if i == |pending| || Applied(db, pending[i], batch, fails(i), engine).None? {
      NoEntries(log, pending, i, batch);
    } else {
      var next := Applied(db, pending[i], batch, fails(i), engine).value;
      AppliedKeeps(db, base, log, pending[i], batch, fails(i), engine);
      StillFollows(log, pending, i, batch);
      ApplyKeeps(next, base, log + [Entry(batch, pending[i])], pending, i + 1, batch, fails, engine);
      EntriesStep(log, pending, i, ApplyFrom(next, pending, i + 1, batch, fails, engine).1, batch);
    }
  }

  lemma StillFollows(log: seq<Entry>, pending: seq<Migration>, i: nat, batch: nat)
    requires i < |pending| && Ordered(pending) && Follows(log, batch, pending[i].version)
    ensures i + 1 < |pending| ==> Follows(log + [Entry(batch, pending[i])], batch, pending[i + 1].version)
  {
    if i + 1 < |pending| {
      var more := log + [Entry(batch, pending[i])];
      forall k | 0 <= k < |more|
        ensures more[k].batch < batch
          || (more[k].batch == batch && NotAfter(more[k].migration.version, pending[i + 1].version))
      {
        assert NotAfter(pending[i].version, pending[i + 1].version);
        if k < |log| && log[k].batch == batch {
          NotAfterIsTransitive(log[k].migration.version, pending[i].version, pending[i + 1].version);
        }
      }
    }
  }

  lemma NextFollows<S>(db: Db<S>, base: S, log: seq<Entry>, batch: nat, version: string, engine: Engine<S>)
    requires Represents(db, base, log, engine) && IsNext(batch, db.table)
    ensures Follows(log, batch, version)
  {
    TableHolds(log);
    forall i | 0 <= i < |log|
      ensures log[i].batch < batch
    {
      assert log[i].migration.version in db.table;
    }
  }

  // -- undoing -----------------------------------------------------------------------------

  lemma {:induction false} FoldsBefore<S>(base: S, log: seq<Entry>, k: nat, engine: Engine<S>)
    requires Fold(base, log, engine).Some? && k <= |log|
    ensures Fold(base, log[..k], engine).Some?
  {
    if k < |log| {
      FoldsBefore(base, log[..|log| - 1], k, engine);
      assert log[..|log| - 1][..k] == log[..k];
    } else {
      assert log[..k] == log;
    }
  }

  /** Where the `k`-th entry's up led, `down` leads back, if it does not fail. */
  ghost predicate LeadsBack<S(!new)>(base: S, log: seq<Entry>, k: nat, down: seq<string>, engine: Engine<S>)
    requires k < |log|
  {
    var ran := Fold(base, log[..k + 1], engine);
    && ran.Some?
    && (Execute(down, ran.value, engine).Some? ==>
          Execute(down, ran.value, engine) == Fold(base, log[..k], engine))
  }

  /** The last entry undone: the schema is that of the entries left exactly when
      its way back leads back. */
  lemma UndoneKeeps<S(!new)>(db: Db<S>, base: S, log: seq<Entry>, version: string, down: seq<string>, fails: bool,
    engine: Engine<S>)
    requires Represents(db, base, log, engine) && log != [] && log[|log| - 1].migration.version == version
    ensures var next := Undone(db, version, down, fails, engine);
      && (next.None? <==> fails || Execute(down, db.schema, engine).None?)
      && (next.Some? ==>
            (Represents(next.value, base, log[..|log| - 1], engine) <==> LeadsBack(base, log, |log| - 1, down, engine)))
  {
    var before := log[..|log| - 1];
    assert log[..|log| - 1 + 1] == log;
    FoldsBefore(base, log, |log| - 1, engine);
    TableHolds(before);
    assert version !in TableOf(before);
    assert TableOf(before)[version := log[|log| - 1].batch] - {version} == TableOf(before);
  }

  /** The `k`-th to go is the `k`-th from the end. */
  ghost predicate Backwards<S(!new)>(base: S, ways: seq<Way>, i: nat, log: seq<Entry>, engine: Engine<S>) {
    |ways| - i <= |log|
    && forall k | i <= k < |ways| :: IsWayOf(base, ways[k], log, |log| - 1 - (k - i), engine)
  }

  ghost predicate IsWayOf<S(!new)>(base: S, way: Way, log: seq<Entry>, j: nat, engine: Engine<S>)
    requires j < |log|
  {
    way.version == log[j].migration.version && LeadsBack(base, log, j, way.down, engine)
  }

  ghost predicate Stops<S(!new)>(schema: S, ways: seq<Way>, i: nat, fails: nat -> bool, engine: Engine<S>)
    requires i <= |ways|
  {
    i == |ways| || fails(i) || Execute(ways[i].down, schema, engine).None?
  }

  lemma UndoStops<S(!new)>(db: Db<S>, base: S, log: seq<Entry>, ways: seq<Way>, i: nat, fails: nat -> bool,
      engine: Engine<S>)
    requires i <= |ways| && Stops(db.schema, ways, i, fails, engine) && Represents(db, base, log, engine)
    ensures UndoFrom(db, ways, i, fails, engine) == (db, i) && Represents(db, base, log[..|log| - (i - i)], engine)
  {
    assert log[..|log|] == log;
  }

  lemma {:induction false} UndoKeeps<S(!new)>(db: Db<S>, base: S, log: seq<Entry>, ways: seq<Way>, i: nat,
    fails: nat -> bool, engine: Engine<S>)
    requires i <= |ways| && Represents(db, base, log, engine) && Backwards(base, ways, i, log, engine)
    ensures var (end, n) := UndoFrom(db, ways, i, fails, engine);
      i <= n <= |ways| && Represents(end, base, log[..|log| - (n - i)], engine)
      && Stops(end.schema, ways, n, fails, engine)
    decreases |ways| - i
  {
    if Stops(db.schema, ways, i, fails, engine) {
      UndoStops(db, base, log, ways, i, fails, engine);
    } else {
      assert IsWayOf(base, ways[i], log, |log| - 1 - (i - i), engine);
      UndoneKeeps(db, base, log, ways[i].version, ways[i].down, fails(i), engine);
      var next := Undone(db, ways[i].version, ways[i].down, fails(i), engine).value;
      BackwardsRest(base, ways, i, log, engine);
      UndoKeeps(next, base, log[..|log| - 1], ways, i + 1, fails, engine);
      FewerYet(log, i, UndoFrom(next, ways, i + 1, fails, engine).1);
    }
  }

  lemma UndoAll<S(!new)>(db: Db<S>, base: S, log: seq<Entry>, ways: seq<Way>,
    fails: nat -> bool, engine: Engine<S>)
    requires Represents(db, base, log, engine) && Backwards(base, ways, 0, log, engine)
    ensures var (end, n) := UndoFrom(db, ways, 0, fails, engine);
      n <= |ways| && Stops(end.schema, ways, n, fails, engine) && Represents(end, base, log[..|log| - n], engine)
  {
    UndoKeeps(db, base, log, ways, 0, fails, engine);
  }

  lemma FewerYet(log: seq<Entry>, i: nat, n: nat)
    requires log != [] && i < n && n - i <= |log|
    ensures var rest := log[..|log| - 1]; rest[..|rest| - (n - (i + 1))] == log[..|log| - (n - i)]
  {
  }

  lemma WayOfRest<S(!new)>(base: S, way: Way, log: seq<Entry>, j: nat, engine: Engine<S>)
    requires j < |log| - 1 && IsWayOf(base, way, log, j, engine)
    ensures IsWayOf(base, way, log[..|log| - 1], j, engine)
  {
    var rest := log[..|log| - 1];
    assert rest[..j] == log[..j] && rest[..j + 1] == log[..j + 1];
  }

  lemma BackwardsRest<S(!new)>(base: S, ways: seq<Way>, i: nat, log: seq<Entry>, engine: Engine<S>)
    requires i < |ways| && Backwards(base, ways, i, log, engine)
    ensures Backwards(base, ways, i + 1, log[..|log| - 1], engine)
  {
    var rest := log[..|log| - 1];
    forall k | i + 1 <= k < |ways|
      ensures IsWayOf(base, ways[k], rest, |rest| - 1 - (k - (i + 1)), engine)
    {
      assert IsWayOf(base, ways[k], log, |log| - 1 - (k - i), engine);
      WayOfRest(base, ways[k], log, |log| - 1 - (k - i), engine);
    }
  }

  // -- the last batch ------------------------------------------------------------------------

  /** How many entries at the end are of `batch`. */
  function Trailing(log: seq<Entry>, batch: nat): (n: nat)
    ensures n <= |log|
  {
    if log == [] || log[|log| - 1].batch != batch then 0 else 1 + Trailing(log[..|log| - 1], batch)
  }

  lemma {:induction false} TrailingIsTheBatch(log: seq<Entry>, batch: nat)
    requires InOrder(log) && AllUpTo(log, batch)
    ensures forall i | 0 <= i < |log| :: log[i].batch == batch <==> i >= |log| - Trailing(log, batch)
  {
    if log != [] && log[|log| - 1].batch == batch {
      TrailingIsTheBatch(log[..|log| - 1], batch);
    } else if log != [] {
      assert forall i | 0 <= i < |log| - 1 :: Precedes(log[i], log[|log| - 1]);
    }
  }

  function FromTheEnd(log: seq<Entry>, n: nat): seq<string>
    requires n <= |log|
  {
    seq(n, k requires 0 <= k < n => log[|log| - 1 - k].migration.version)
  }

  lemma FromTheEndDescends(log: seq<Entry>, batch: nat)
    requires InOrder(log) && AllUpTo(log, batch)
    ensures Descending(FromTheEnd(log, Trailing(log, batch)))
  {
    TrailingIsTheBatch(log, batch);
    var n := Trailing(log, batch);
    forall i, j | 0 <= i < j < n
      ensures Before(FromTheEnd(log, n)[j], FromTheEnd(log, n)[i])
    {
      assert Precedes(log[|log| - 1 - j], log[|log| - 1 - i]);
    }
  }

  lemma EndIsOfTheBatch(log: seq<Entry>, batch: nat, v: string)
    requires InOrder(log) && AllUpTo(log, batch) && v in FromTheEnd(log, Trailing(log, batch))
    ensures v in TableOf(log) && TableOf(log)[v] == batch
  {
    TableHolds(log);
    TrailingIsTheBatch(log, batch);
    var k :| 0 <= k < Trailing(log, batch) && FromTheEnd(log, Trailing(log, batch))[k] == v;
    assert log[|log| - 1 - k].migration.version == v;
  }

  lemma BatchIsInTheEnd(log: seq<Entry>, batch: nat, v: string)
    requires InOrder(log) && AllUpTo(log, batch) && v in TableOf(log) && TableOf(log)[v] == batch
    ensures v in FromTheEnd(log, Trailing(log, batch))
  {
    TableHolds(log);
    TrailingIsTheBatch(log, batch);
    var i :| 0 <= i < |log| && log[i].migration.version == v;
    assert FromTheEnd(log, Trailing(log, batch))[|log| - 1 - i] == v;
  }

  lemma FromTheEndIsTheBatch(log: seq<Entry>, batch: nat)
    requires InOrder(log) && AllUpTo(log, batch)
    ensures forall v :: v in FromTheEnd(log, Trailing(log, batch)) <==> v in TableOf(log) && TableOf(log)[v] == batch
  {
    forall v
      ensures v in FromTheEnd(log, Trailing(log, batch)) <==> v in TableOf(log) && TableOf(log)[v] == batch
    {
      if v in FromTheEnd(log, Trailing(log, batch)) {
        EndIsOfTheBatch(log, batch, v);
      } else if v in TableOf(log) && TableOf(log)[v] == batch {
        BatchIsInTheEnd(log, batch, v);
      }
    }
  }

  lemma MaxBounds<S>(db: Db<S>, base: S, log: seq<Entry>, batch: nat, engine: Engine<S>)
    requires Represents(db, base, log, engine) && IsMax(batch, db.table)
    ensures AllUpTo(log, batch) && Trailing(log, batch) > 0
  {
    TableHolds(log);
    forall i | 0 <= i < |log|
      ensures log[i].batch <= batch
    {
      assert log[i].migration.version in db.table;
    }
    TrailingIsTheBatch(log, batch);
    var v :| v in db.table && db.table[v] == batch;
    var i :| 0 <= i < |log| && log[i].migration.version == v;
  }

  /** What a rollback asks the table for is the end of the log, backwards: the
      last batch in reverse order of application. */
  lemma LastBatchIsTheEnd<S>(db: Db<S>, base: S, log: seq<Entry>, batch: nat, versions: seq<string>, engine: Engine<S>)
    requires Represents(db, base, log, engine) && IsMax(batch, db.table) && IsBatch(versions, batch, db.table)
    ensures versions == FromTheEnd(log, Trailing(log, batch)) && versions != []
  {
    MaxBounds(db, base, log, batch, engine);
    FromTheEndDescends(log, batch);
    FromTheEndIsTheBatch(log, batch);
    DescendingIsUnique(versions, FromTheEnd(log, Trailing(log, batch)));
  }

  // -- runs and rollbacks --------------------------------------------------------------------

  /** A rollback knows the way back of each version of its batch, or does
      nothing. */
  lemma {:induction false} WaysAreKnown(versions: seq<string>, rust: seq<Migration>, files: seq<Migration>)
    ensures var ways := Ways(versions, rust, files);
      && (ways.Ok? <==> forall i | 0 <= i < |versions| ::
            ValidIdentifier(versions[i]) && Known(versions[i], rust, files).Some?)
      && (ways.Ok? ==> WayVersions(ways.value) == versions)
      && (ways.Ok? ==> forall i | 0 <= i < |versions| ::
            Known(versions[i], rust, files).Some? && ways.value[i].down == Known(versions[i], rust, files).value.down)
  {
    if versions != [] {
      WaysAreKnown(versions[..|versions| - 1], rust, files);
      assert versions == versions[..|versions| - 1] + [versions[|versions| - 1]];
    }
  }

  /** The way back of each of the batch that is known leads back. */
  ghost predicate Reversible<S(!new)>(base: S, log: seq<Entry>, batch: nat, rust: seq<Migration>, files: seq<Migration>,
    engine: Engine<S>)
  {
    forall i | 0 <= i < |log| && log[i].batch == batch ::
      var known := Known(log[i].migration.version, rust, files);
      known.Some? ==> LeadsBack(base, log, i, known.value.down, engine)
  }

  lemma WayBack(
    log: seq<Entry>, batch: nat, rust: seq<Migration>, files: seq<Migration>, ways: seq<Way>, n: nat)
    requires InOrder(log) && AllUpTo(log, batch)
    requires Ways(FromTheEnd(log, Trailing(log, batch)), rust, files) == Ok(ways)
    ensures |ways| == Trailing(log, batch) <= |log|
    ensures n < |ways| ==>
      var last := log[|log| - 1 - n];
      && last.batch == batch && ways[n].version == last.migration.version
      && Known(last.migration.version, rust, files).Some?
      && ways[n].down == Known(last.migration.version, rust, files).value.down
  {
    var versions := FromTheEnd(log, Trailing(log, batch));
    TrailingIsTheBatch(log, batch);
    WaysAreKnown(versions, rust, files);
    assert |WayVersions(ways)| == |versions|;
    if n < |ways| {
      assert WayVersions(ways)[n] == versions[n] == log[|log| - 1 - n].migration.version;
    }
  }

  lemma ReversibleGoesBackwards<S(!new)>(base: S, log: seq<Entry>, batch: nat, rust: seq<Migration>,
    files: seq<Migration>, ways: seq<Way>, engine: Engine<S>)
    requires Reversible(base, log, batch, rust, files, engine)
    requires InOrder(log) && AllUpTo(log, batch)
    requires Ways(FromTheEnd(log, Trailing(log, batch)), rust, files) == Ok(ways)
    ensures |ways| == Trailing(log, batch) && Backwards(base, ways, 0, log, engine)
  {
    WayBack(log, batch, rust, files, ways, |ways|);
    forall k | 0 <= k < |ways|
      ensures IsWayOf(base, ways[k], log, |log| - 1 - (k - 0), engine)
    {
      WayBack(log, batch, rust, files, ways, k);
    }
  }

  ghost predicate AllUpTo(log: seq<Entry>, batch: nat) {
    forall i | 0 <= i < |log| :: log[i].batch <= batch
  }

  // Some below recurse no more than this one: Dafny's own induction over their
  // many parameters gets in the way.
  lemma {:induction false} EndUndone<S(!new)>(db: Db<S>, base: S, log: seq<Entry>, batch: nat, rust: seq<Migration>,
    files: seq<Migration>, ways: seq<Way>, fails: nat -> bool, engine: Engine<S>)
    requires Represents(db, base, log, engine) && AllUpTo(log, batch)
    requires Ways(FromTheEnd(log, Trailing(log, batch)), rust, files) == Ok(ways)
    requires Reversible(base, log, batch, rust, files, engine)
    ensures
      |ways| == Trailing(log, batch)
      && var (end, n) := UndoFrom(db, ways, 0, fails, engine);
         n <= |ways| && Stops(end.schema, ways, n, fails, engine) && Represents(end, base, log[..|log| - n], engine)
  {
    ReversibleGoesBackwards(base, log, batch, rust, files, ways, engine);
    UndoAll(db, base, log, ways, fails, engine);
  }

  lemma BatchIsTheEnd<S>(db: Db<S>, base: S, log: seq<Entry>, batch: nat, versions: seq<string>,
    rust: seq<Migration>, files: seq<Migration>, engine: Engine<S>)
    requires Represents(db, base, log, engine) && IsMax(batch, db.table) && IsBatch(versions, batch, db.table)
    ensures AllUpTo(log, batch) && Ways(versions, rust, files)
        == Ways(FromTheEnd(log, Trailing(log, batch)), rust, files)
  {
    LastBatchIsTheEnd(db, base, log, batch, versions, engine);
    MaxBounds(db, base, log, batch, engine);
  }

  /** A rollback that knows its batch undoes it from its end, all of it unless
      a transaction fails. */
  lemma {:induction false} RollbackKeeps<S(!new)>(db: Db<S>, base: S, log: seq<Entry>, batch: nat,
    versions: seq<string>, rust: seq<Migration>, files: seq<Migration>, ways: seq<Way>, fails: nat -> bool,
    engine: Engine<S>)
    requires Represents(db, base, log, engine) && IsMax(batch, db.table) && IsBatch(versions, batch, db.table)
    requires Ways(versions, rust, files) == Ok(ways) && Reversible(base, log, batch, rust, files, engine)
    ensures
      |ways| == Trailing(log, batch)
      && var (end, n) := UndoFrom(db, ways, 0, fails, engine);
         n <= |ways| && Stops(end.schema, ways, n, fails, engine) && Represents(end, base, log[..|log| - n], engine)
  {
    BatchIsTheEnd(db, base, log, batch, versions, rust, files, engine);
    EndUndone(db, base, log, batch, rust, files, ways, fails, engine);
  }

  /** A run records what it applied after all there was. */
  lemma RunKeeps<S>(db: Db<S>, base: S, log: seq<Entry>, pending: seq<Migration>, batch: nat, fails: nat -> bool,
      engine: Engine<S>)
    requires Represents(db, base, log, engine) && IsNext(batch, db.table) && Ordered(pending)
    ensures var (end, n) := ApplyFrom(db, pending, 0, batch, fails, engine);
      n <= |pending| && Represents(end, base, log + Entries(pending[..n], batch), engine)
  {
    if pending != [] {
      NextFollows(db, base, log, batch, pending[0].version, engine);
    }
    ApplyKeeps(db, base, log, pending, 0, batch, fails, engine);
    var (end, n) := ApplyFrom(db, pending, 0, batch, fails, engine);
    assert pending[0..n] == pending[..n];
  }

  datatype Step =
    | Run(pending: seq<Migration>, batch: nat, fails: nat -> bool)
    | Rollback(batch: nat, versions: seq<string>, rust: seq<Migration>, files: seq<Migration>, fails: nat -> bool)
    | Refused

  /** One command: a run, a rollback whose ways back, where they succeed, lead
      back, or one that stopped before doing anything. */
  ghost predicate Took<S(!new)>(db: Db<S>, base: S, log: seq<Entry>, step: Step, after: Db<S>, logAfter: seq<Entry>,
    engine: Engine<S>)
  {
    match step
    case Run(pending, batch, fails) =>
      && IsNext(batch, db.table) && Ordered(pending)
      && var (end, n) := ApplyFrom(db, pending, 0, batch, fails, engine);
         n <= |pending| && after == end && logAfter == log + Entries(pending[..n], batch)
    case Rollback(batch, versions, rust, files, fails) =>
      && IsMax(batch, db.table) && IsBatch(versions, batch, db.table)
        && Reversible(base, log, batch, rust, files, engine)
      && var ways := Ways(versions, rust, files);
         ways.Ok? && var (end, n) := UndoFrom(db, ways.value, 0, fails, engine);
                     n <= |log| && after == end && logAfter == log[..|log| - n]
    case Refused => after == db && logAfter == log
  }

  ghost predicate History<S(!new)>(dbs: seq<Db<S>>, logs: seq<seq<Entry>>, steps: seq<Step>, engine: Engine<S>) {
    && |dbs| == |logs| == |steps| + 1
    && forall i | 0 <= i < |steps| :: TookAt(dbs, logs, steps, i, engine)
  }

  ghost predicate TookAt<S(!new)>(dbs: seq<Db<S>>, logs: seq<seq<Entry>>, steps: seq<Step>, i: nat, engine: Engine<S>)
    requires |dbs| == |logs| == |steps| + 1 && i < |steps|
  {
    Took(dbs[i], dbs[0].schema, logs[i], steps[i], dbs[i + 1], logs[i + 1], engine)
  }

  /** Each kind of run applies its migrations in version order, so it is such
      a step. */
  lemma RunsAreOrdered(found: seq<Migration>, rust: seq<Migration>, table: map<string, nat>)
    ensures Ordered(Missing(ByVersion(found), table)) && Ordered(Missing(ByVersion(rust), table))
    ensures var gathered := Gathered(Missing(ByVersion(found), table), rust, table);
      gathered.Ok? ==> Ordered(ByVersion(gathered.value))
  {
    ByVersionIsOrdered(found);
    ByVersionIsOrdered(rust);
    MissingIsOrdered(ByVersion(found), table);
    MissingIsOrdered(ByVersion(rust), table);
    var gathered := Gathered(Missing(ByVersion(found), table), rust, table);
    if gathered.Ok? {
      ByVersionIsOrdered(gathered.value);
    }
  }

  lemma StepKeeps<S(!new)>(db: Db<S>, base: S, log: seq<Entry>, step: Step, after: Db<S>, logAfter: seq<Entry>,
      engine: Engine<S>)
    requires Represents(db, base, log, engine) && Took(db, base, log, step, after, logAfter, engine)
    ensures Represents(after, base, logAfter, engine)
  {
    if step.Run? {
      RunKeeps(db, base, log, step.pending, step.batch, step.fails, engine);
    } else if step.Rollback? {
      var ways := Ways(step.versions, step.rust, step.files).value;
      RollbackKeeps(db, base, log, step.batch, step.versions, step.rust, step.files, ways, step.fails, engine);
    }
  }

  lemma {:induction false} HistoryRepresents<S(!new)>(dbs: seq<Db<S>>, logs: seq<seq<Entry>>,
      steps: seq<Step>, k: nat, engine: Engine<S>)
    requires History(dbs, logs, steps, engine) && k <= |steps|
    requires dbs[0].table == map[] && logs[0] == []
    ensures Represents(dbs[k], dbs[0].schema, logs[k], engine)
  {
    if k > 0 {
      HistoryRepresents(dbs, logs, steps, k - 1, engine);
      assert TookAt(dbs, logs, steps, k - 1, engine);
      StepKeeps(dbs[k - 1], dbs[0].schema, logs[k - 1], steps[k - 1], dbs[k], logs[k], engine);
    }
  }

  /** The statements of all the ups, in order. */
  function AllUps(log: seq<Entry>): seq<string> {
    if log == [] then [] else log[0].migration.up + AllUps(log[1..])
  }

  lemma {:induction false} AllUpsConcat(log: seq<Entry>, last: Entry)
    ensures AllUps(log + [last]) == AllUps(log) + last.migration.up
  {
    if log == [] {
      assert [] + [last] == [last] && [last][1..] == [] && last.migration.up + [] == last.migration.up;
    } else {
      assert (log + [last])[1..] == log[1..] + [last];
      AllUpsConcat(log[1..], last);
    }
  }

  lemma {:induction false} ExecuteConcat<S>(a: seq<string>, b: seq<string>, schema: S, engine: Engine<S>)
    ensures
      var mid := Execute(a, schema, engine);
      Execute(a + b, schema, engine) == if mid.None? then None else Execute(b, mid.value, engine)
    decreases |a|
  {
    if a == [] {
      assert a + b == b;
    } else {
      assert (a + b)[1..] == a[1..] + b;
      if engine(a[0], schema).Some? {
        ExecuteConcat(a[1..], b, engine(a[0], schema).value, engine);
      }
    }
  }

  lemma {:induction false} FoldExecutesAll<S>(base: S, log: seq<Entry>, engine: Engine<S>)
    ensures Fold(base, log, engine) == Execute(AllUps(log), base, engine)
  {
    if log != [] {
      var front, last := log[..|log| - 1], log[|log| - 1];
      FoldExecutesAll(base, front, engine);
      assert log == front + [last];
      AllUpsConcat(front, last);
      ExecuteConcat(AllUps(front), last.migration.up, base, engine);
    }
  }

  lemma FoldRunsThrough<S(!new)>(base: S, log: seq<Entry>, schema: S, engine: Engine<S>)
    ensures Fold(base, log, engine) == Some(schema) <==> RunsThrough(AllUps(log), base, schema, engine)
  {
    FoldExecutesAll(base, log, engine);
    ExecuteExactly(AllUps(log), base, schema, engine);
  }

  lemma LeadsBackFrom<S(!new)>(base: S, log: seq<Entry>, k: nat, from: S, down: seq<string>, engine: Engine<S>)
    requires k < |log| && Fold(base, log[..k + 1], engine) == Some(from)
    ensures LeadsBack(base, log, k, down, engine) <==> ComesBack(base, log, k, from, down, engine)
  {
    forall to: S
      ensures Execute(down, from, engine) == Some(to) <==> RunsThrough(down, from, to, engine)
      ensures Fold(base, log[..k], engine) == Some(to) <==> RunsThrough(AllUps(log[..k]), base, to, engine)
    {
      ExecuteExactly(down, from, to, engine);
      FoldRunsThrough(base, log[..k], to, engine);
    }
    if Execute(down, from, engine).Some? {
      var to := Execute(down, from, engine).value;
      assert RunsThrough(down, from, to, engine);
    }
  }

  /** What it is to lead back, statement by statement: from where the ups up to
      the `k`-th lead, all of `down` leads to where those before it do. */
  lemma LeadsBackExactly<S(!new)>(base: S, log: seq<Entry>, k: nat, down: seq<string>, engine: Engine<S>)
    requires k < |log|
    ensures LeadsBack(base, log, k, down, engine) <==>
      exists from: S :: ReachesAndComesBack(base, log, k, from, down, engine)
  {
    forall from: S
      ensures Fold(base, log[..k + 1], engine) == Some(from)
        <==> RunsThrough(AllUps(log[..k + 1]), base, from, engine)
    {
      FoldRunsThrough(base, log[..k + 1], from, engine);
    }
    if LeadsBack(base, log, k, down, engine) {
      var from := Fold(base, log[..k + 1], engine).value;
      LeadsBackFrom(base, log, k, from, down, engine);
      assert ReachesAndComesBack(base, log, k, from, down, engine);
    }
    if from: S :| ReachesAndComesBack(base, log, k, from, down, engine) {
      LeadsBackFrom(base, log, k, from, down, engine);
    }
  }

  ghost predicate ReachesAndComesBack<S(!new)>(base: S, log: seq<Entry>, k: nat, from: S, down: seq<string>,
    engine: Engine<S>)
    requires k < |log|
  {
    RunsThrough(AllUps(log[..k + 1]), base, from, engine) && ComesBack(base, log, k, from, down, engine)
  }

  ghost predicate ComesBack<S(!new)>(base: S, log: seq<Entry>, k: nat, from: S, down: seq<string>, engine: Engine<S>)
    requires k < |log|
  {
    forall to: S :: RunsThrough(down, from, to, engine) ==> RunsThrough(AllUps(log[..k]), base, to, engine)
  }

  /** After any runs and any rollbacks whose ways back lead back, wherever they
      failed: every statement of every recorded migration has been run once, in
      order of batch and version, on the schema there was; and the table has
      each of them in its batch, and no others. */
  lemma SchemaIsTheRecordedMigrations<S(!new)>(dbs: seq<Db<S>>, logs: seq<seq<Entry>>, steps: seq<Step>, k: nat,
    engine: Engine<S>)
    requires History(dbs, logs, steps, engine) && k <= |steps|
    requires dbs[0].table == map[] && logs[0] == []
    ensures RunsThrough(AllUps(logs[k]), dbs[0].schema, dbs[k].schema, engine)
    ensures InOrder(logs[k])
    ensures forall v :: v in dbs[k].table <==> exists i :: 0 <= i < |logs[k]| && logs[k][i].migration.version == v
    ensures forall i | 0 <= i < |logs[k]| ::
      var version := logs[k][i].migration.version;
      version in dbs[k].table && dbs[k].table[version] == logs[k][i].batch
  {
    HistoryRepresents(dbs, logs, steps, k, engine);
    FoldRunsThrough(dbs[0].schema, logs[k], dbs[k].schema, engine);
    TableHolds(logs[k]);
  }

  // -- a run and its rollback ----------------------------------------------------------------

  /** No transaction fails. */
  const NEVER: nat -> bool := i => false

  lemma {:induction false} TrailingOfRun(log: seq<Entry>, ms: seq<Migration>, batch: nat)
    requires forall i | 0 <= i < |log| :: log[i].batch < batch
    ensures Trailing(log + Entries(ms, batch), batch) == |ms|
  {
    var all := log + Entries(ms, batch);
    if ms != [] {
      var m := ms[|ms| - 1];
      TrailingOfRun(log, ms[..|ms| - 1], batch);
      assert all[..|all| - 1] == log + Entries(ms[..|ms| - 1], batch);
    } else {
      assert all == log;
    }
  }

  lemma MaxIsUnique(table: map<string, nat>, a: nat, b: nat)
    requires IsMax(a, table) && IsMax(b, table)
    ensures a == b
  {
  }

  lemma {:induction false} RunIsMax(log: seq<Entry>, ms: seq<Migration>, batch: nat)
    requires InOrder(log + Entries(ms, batch)) && ms != []
    requires forall i | 0 <= i < |log| :: log[i].batch < batch
    ensures IsMax(batch, TableOf(log + Entries(ms, batch)))
  {
    var all := log + Entries(ms, batch);
    TableHolds(all);
    assert all[|log|] == Entry(batch, ms[0]);
    assert ms[0].version in TableOf(all);
    forall v | v in TableOf(all)
      ensures TableOf(all)[v] <= batch
    {
      var i :| 0 <= i < |all| && all[i].migration.version == v;
    }
  }

  lemma RecordsAreBefore<S>(db: Db<S>, base: S, log: seq<Entry>, batch: nat, engine: Engine<S>)
    requires Represents(db, base, log, engine) && IsNext(batch, db.table)
    ensures forall i | 0 <= i < |log| :: log[i].batch < batch
  {
    TableHolds(log);
    forall i | 0 <= i < |log|
      ensures log[i].batch < batch
    {
      assert log[i].migration.version in db.table;
    }
  }

  /** Each of the batch is known, and its way back succeeds and leads back. */
  ghost predicate Restores<S(!new)>(base: S, log: seq<Entry>, batch: nat, rust: seq<Migration>, files: seq<Migration>,
    engine: Engine<S>)
  {
    forall i | 0 <= i < |log| && log[i].batch == batch :: RestoresAt(base, log, i, rust, files, engine)
  }

  ghost predicate RestoresAt<S(!new)>(base: S, log: seq<Entry>, i: nat, rust: seq<Migration>, files: seq<Migration>,
    engine: Engine<S>)
    requires i < |log|
  {
    var version, ran := log[i].migration.version, Fold(base, log[..i + 1], engine);
    && ValidIdentifier(version) && Known(version, rust, files).Some? && ran.Some? && Fold(base, log[..i], engine).Some?
    && Execute(Known(version, rust, files).value.down, ran.value, engine) == Fold(base, log[..i], engine)
  }

  lemma RestoringIsReversible<S(!new)>(base: S, log: seq<Entry>, batch: nat, rust: seq<Migration>,
    files: seq<Migration>, engine: Engine<S>)
    requires Restores(base, log, batch, rust, files, engine)
    requires InOrder(log) && AllUpTo(log, batch)
    ensures Reversible(base, log, batch, rust, files, engine)
    ensures Ways(FromTheEnd(log, Trailing(log, batch)), rust, files).Ok?
  {
    var versions := FromTheEnd(log, Trailing(log, batch));
    TrailingIsTheBatch(log, batch);
    forall i | 0 <= i < |log| && log[i].batch == batch
      ensures var known := Known(log[i].migration.version, rust, files);
        known.Some? ==> LeadsBack(base, log, i, known.value.down, engine)
    {
      assert RestoresAt(base, log, i, rust, files, engine);
    }
    forall k | 0 <= k < |versions|
      ensures ValidIdentifier(versions[k]) && Known(versions[k], rust, files).Some?
    {
      assert RestoresAt(base, log, |log| - 1 - k, rust, files, engine);
    }
    WaysAreKnown(versions, rust, files);
  }

  /** None of its ways back fails. */
  lemma RestoringGoesOn<S(!new)>(
    schema: S, base: S, log: seq<Entry>, batch: nat, rust: seq<Migration>, files: seq<Migration>, j: nat,
    engine: Engine<S>)
    requires Restores(base, log, batch, rust, files, engine) && j < |log| && log[j].batch == batch
    requires Fold(base, log[..j + 1], engine) == Some(schema)
    ensures var known := Known(log[j].migration.version, rust, files);
      known.Some? && Execute(known.value.down, schema, engine).Some?
  {
    assert RestoresAt(base, log, j, rust, files, engine);
  }

  lemma RestoringNeverStops<S(!new)>(
    end: Db<S>, base: S, log: seq<Entry>, batch: nat, rust: seq<Migration>, files: seq<Migration>, ways: seq<Way>,
    n: nat, engine: Engine<S>)
    requires Restores(base, log, batch, rust, files, engine)
    requires InOrder(log) && AllUpTo(log, batch)
    requires Ways(FromTheEnd(log, Trailing(log, batch)), rust, files) == Ok(ways)
    requires n <= |log| && Represents(end, base, log[..|log| - n], engine)
    ensures n < |ways| ==> Execute(ways[n].down, end.schema, engine).Some?
  {
    WayBack(log, batch, rust, files, ways, n);
    if n < |ways| {
      var j := |log| - 1 - n;
      assert log[..j + 1] == log[..|log| - n];
      RestoringGoesOn(end.schema, base, log, batch, rust, files, j, engine);
    }
  }

  lemma {:induction false} EndUndoneCompletely<S(!new)>(db: Db<S>, base: S, log: seq<Entry>, batch: nat,
    rust: seq<Migration>, files: seq<Migration>, ways: seq<Way>, engine: Engine<S>)
    requires Represents(db, base, log, engine) && AllUpTo(log, batch) && Restores(base, log, batch, rust, files, engine)
    requires Ways(FromTheEnd(log, Trailing(log, batch)), rust, files) == Ok(ways)
    ensures
      |ways| == Trailing(log, batch)
      && Represents(UndoFrom(db, ways, 0, NEVER, engine).0, base, log[..|log| - |ways|], engine)
  {
    RestoringIsReversible(base, log, batch, rust, files, engine);
    EndUndone(db, base, log, batch, rust, files, ways, NEVER, engine);
    var (end, n) := UndoFrom(db, ways, 0, NEVER, engine);
    RestoringNeverStops(end, base, log, batch, rust, files, ways, n, engine);
  }

  /** A rollback of a batch that restores, no transaction failing, undoes all
      of it. */
  lemma {:induction false} RollbackIsComplete<S(!new)>(db: Db<S>, base: S, log: seq<Entry>, batch: nat,
    versions: seq<string>, rust: seq<Migration>, files: seq<Migration>, engine: Engine<S>)
    requires Represents(db, base, log, engine) && IsMax(batch, db.table) && IsBatch(versions, batch, db.table)
    requires Restores(base, log, batch, rust, files, engine)
    ensures
      var ways := Ways(versions, rust, files);
      ways.Ok? && |ways.value| == Trailing(log, batch)
      && Represents(UndoFrom(db, ways.value, 0, NEVER, engine).0, base, log[..|log| - |ways.value|], engine)
  {
    BatchIsTheEnd(db, base, log, batch, versions, rust, files, engine);
    RestoringIsReversible(base, log, batch, rust, files, engine);
    EndUndoneCompletely(db, base, log, batch, rust, files, Ways(versions, rust, files).value, engine);
  }

  /** A complete run that applied something, rolled back completely by those
      who know its migrations' ways back, leaves schema and table as they were. */
  lemma {:induction false} RollbackUndoesTheRun<S(!new)>(
    db: Db<S>, base: S, log: seq<Entry>, pending: seq<Migration>, batch: nat, fails: nat -> bool,
    last: nat, versions: seq<string>, rust: seq<Migration>, files: seq<Migration>, engine: Engine<S>)
    requires Represents(db, base, log, engine) && IsNext(batch, db.table) && Ordered(pending) && pending != []
    requires ApplyFrom(db, pending, 0, batch, fails, engine).1 == |pending|
    requires var ran := ApplyFrom(db, pending, 0, batch, fails, engine).0;
      && IsMax(last, ran.table) && IsBatch(versions, last, ran.table)
      && Restores(base, log + Entries(pending, batch), batch, rust, files, engine)
    ensures
      var ran := ApplyFrom(db, pending, 0, batch, fails, engine).0;
      var ways := Ways(versions, rust, files);
      ways.Ok? && UndoFrom(ran, ways.value, 0, NEVER, engine).0 == db
  {
    var ran := ApplyFrom(db, pending, 0, batch, fails, engine).0;
    var all := log + Entries(pending, batch);
    RunKeeps(db, base, log, pending, batch, fails, engine);
    assert pending[..|pending|] == pending;
    RecordsAreBefore(db, base, log, batch, engine);
    RunIsMax(log, pending, batch);
    MaxIsUnique(ran.table, last, batch);
    TrailingOfRun(log, pending, batch);
    RollbackIsComplete(ran, base, all, batch, versions, rust, files, engine);
    assert all[..|all| - |pending|] == log;
  }

  /** A migration without a way down is rolled back by forgetting it: its
      record goes, and the schema is as before only if it never changed it. */
  lemma ForgottenMigrationStays<S(!new)>(db: Db<S>, m: Migration, batch: nat, engine: Engine<S>)
    requires m.version !in db.table && Execute(m.up, db.schema, engine).Some?
    ensures
      var ran := ApplyFrom(db, [m], 0, batch, NEVER, engine).0;
      var end := UndoFrom(ran, [Way(m.version, [])], 0, NEVER, engine).0;
      && end.table == db.table && end.schema == ran.schema
      && (end == db <==> Execute(m.up, db.schema, engine) == Some(db.schema))
  {
    var ran := Db(Execute(m.up, db.schema, engine).value, db.table[m.version := batch]);
    assert Applied(db, m, batch, false, engine) == Some(ran);
    assert ApplyFrom(ran, [m], 1, batch, NEVER, engine).0 == ran;
    var end := Db(ran.schema, ran.table - {m.version});
    assert Undone(ran, m.version, [], false, engine) == Some(end);
    assert UndoFrom(end, [Way(m.version, [])], 1, NEVER, engine).0 == end;
    assert end.table == db.table;
  }
}
