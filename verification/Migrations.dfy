/**
 Migrations applied in batches and rolled back a batch at a time, with a failure
 possible at any of them. `S` is the schema; what a statement does to it, and
 whether it fails, is the database's.
 */
module Migrations {
  import opened Common
  import opened Ordering

  /** A migration, from a file or written in code: its statements up and down.
      A file without its `.down.sql` has none down. */
  datatype Migration = Migration(version: string, name: string, up: seq<string>, down: seq<string>)

  datatype Fault =
    | Invalid(what: string)
    | Duplicate(version: string)
    | Unknown(version: string)
    | Failed(version: string)

  /** `table`: each version recorded, with its batch. */
  datatype Db<S> = Db(schema: S, table: map<string, nat>)

  /** What a statement makes of a schema, if it does not fail. */
  type Engine<!S> = (string, S) -> Option<S>

  // -- names -----------------------------------------------------------------------------

  predicate IdentifierChar(c: char) {
    'a' <= c <= 'z' || 'A' <= c <= 'Z' || '0' <= c <= '9' || c == '_'
  }

  predicate IdentifierChars(s: string) {
    s == "" || (IdentifierChar(s[0]) && IdentifierChars(s[1..]))
  }

  predicate ValidIdentifier(s: string) {
    s != "" && IdentifierChars(s)
  }

  /** Letters, digits and underscores, at least one of them. */
  lemma ValidIdentifierExactly(s: string)
    ensures ValidIdentifier(s)
      <==> s != "" && forall c | c in s :: c == '_' || 'a' <= c <= 'z' || 'A' <= c <= 'Z' || '0' <= c <= '9'
  {
    IdentifierCharsExactly(s);
  }

  lemma {:induction false} IdentifierCharsExactly(s: string)
    ensures IdentifierChars(s)
      <==> forall c | c in s :: c == '_' || 'a' <= c <= 'z' || 'A' <= c <= 'Z' || '0' <= c <= '9'
  {
    if s != "" {
      IdentifierCharsExactly(s[1..]);
      assert s[0] in s && forall c | c in s[1..] :: c in s;
      assert forall c | c in s :: c == s[0] || c in s[1..];
    }
  }

  // -- one transaction -------------------------------------------------------------------

  function Execute<S>(statements: seq<string>, schema: S, engine: Engine<S>): Option<S> {
    if statements == [] then Some(schema)
    else
      var next := engine(statements[0], schema);
      if next.None? then None else Execute(statements[1..], next.value, engine)
  }

  /** A migration and its record, or neither. A version recorded already is
      refused by the table's key. */
  function Applied<S>(db: Db<S>, m: Migration, batch: nat, fails: bool, engine: Engine<S>): Option<Db<S>> {
    var schema := Execute(m.up, db.schema, engine);
    if fails || schema.None? || m.version in db.table then None
    else Some(Db(schema.value, db.table[m.version := batch]))
  }

  /** A migration's way back and its record's end, or neither. */
  function Undone<S>(db: Db<S>, version: string, down: seq<string>, fails: bool, engine: Engine<S>): Option<Db<S>> {
    var schema := Execute(down, db.schema, engine);
    if fails || schema.None? then None else Some(Db(schema.value, db.table - {version}))
  }

  /** `chain` is the schemas on the way: each statement takes the one before it
      to the next. */
  predicate IsChain<S(==)>(statements: seq<string>, chain: seq<S>, engine: Engine<S>) {
    |chain| == |statements| + 1
    && forall i | 0 <= i < |statements| :: engine(statements[i], chain[i]) == Some(chain[i + 1])
  }

  predicate Joins<S(==)>(chain: seq<S>, from: S, to: S) {
    |chain| > 0 && chain[0] == from && chain[|chain| - 1] == to
  }

  /** Every statement run, once and in order, without a failure. */
  ghost predicate RunsThrough<S(!new)>(statements: seq<string>, from: S, to: S, engine: Engine<S>) {
    exists chain: seq<S> :: IsChain(statements, chain, engine) && Joins(chain, from, to)
  }

  lemma {:induction false} ExecuteChains<S(!new)>(statements: seq<string>, schema: S, engine: Engine<S>)
    requires Execute(statements, schema, engine).Some?
    ensures RunsThrough(statements, schema, Execute(statements, schema, engine).value, engine)
    decreases |statements|
  {
    if statements == [] {
      assert IsChain(statements, [schema], engine) && Joins([schema], schema, schema);
    } else {
      var next := engine(statements[0], schema).value;
      ExecuteChains(statements[1..], next, engine);
      var to := Execute(statements, schema, engine).value;
      var rest: seq<S> :| IsChain(statements[1..], rest, engine) && Joins(rest, next, to);
      var chain := [schema] + rest;
      forall i | 0 <= i < |statements| ensures engine(statements[i], chain[i]) == Some(chain[i + 1]) {
        assert i > 0 ==> statements[i] == statements[1..][i - 1] && chain[i] == rest[i - 1];
      }
      assert IsChain(statements, chain, engine) && Joins(chain, schema, to);
    }
  }

  lemma {:induction false} ChainExecutes<S>(statements: seq<string>, chain: seq<S>, engine: Engine<S>)
    requires IsChain(statements, chain, engine)
    ensures Execute(statements, chain[0], engine) == Some(chain[|statements|])
    decreases |statements|
  {
    if statements != [] {
      var rest := chain[1..];
      forall i | 0 <= i < |statements[1..]| ensures engine(statements[1..][i], rest[i]) == Some(rest[i + 1]) {
        assert statements[1..][i] == statements[i + 1] && rest[i] == chain[i + 1];
      }
      ChainExecutes(statements[1..], rest, engine);
    }
  }

  lemma ExecuteExactly<S(!new)>(statements: seq<string>, from: S, to: S, engine: Engine<S>)
    ensures Execute(statements, from, engine) == Some(to) <==> RunsThrough(statements, from, to, engine)
  {
    if Execute(statements, from, engine) == Some(to) {
      ExecuteChains(statements, from, engine);
    }
    if RunsThrough(statements, from, to, engine) {
      var chain: seq<S> :| IsChain(statements, chain, engine) && Joins(chain, from, to);
      ChainExecutes(statements, chain, engine);
    }
  }

  /** `next` is `db` after the migration: all its ups run, and it is recorded. */
  ghost predicate Takes<S(!new)>(db: Db<S>, next: Db<S>, m: Migration, batch: nat, engine: Engine<S>) {
    && m.version !in db.table && next.table == db.table[m.version := batch]
    && RunsThrough(m.up, db.schema, next.schema, engine)
  }

  /** `next` is `db` after its way back: all of it run, and the record gone. */
  ghost predicate TakesBack<S(!new)>(db: Db<S>, next: Db<S>, version: string, down: seq<string>, engine: Engine<S>) {
    next.table == (map v | v in db.table && v != version :: db.table[v])
    && RunsThrough(down, db.schema, next.schema, engine)
  }

  /** A migration is applied exactly when nothing fails: then all its ups run
      and it is recorded; otherwise neither. */
  lemma AppliedExactly<S(!new)>(db: Db<S>, m: Migration, batch: nat, fails: bool, engine: Engine<S>, next: Db<S>)
    ensures Applied(db, m, batch, fails, engine) == Some(next) <==> !fails && Takes(db, next, m, batch, engine)
  {
    ExecuteExactly(m.up, db.schema, next.schema, engine);
  }

  /** And so is its way back. */
  lemma UndoneExactly<S(!new)>(
    db: Db<S>, version: string, down: seq<string>, fails: bool, engine: Engine<S>, next: Db<S>)
    ensures Undone(db, version, down, fails, engine) == Some(next)
      <==> !fails && TakesBack(db, next, version, down, engine)
  {
    ExecuteExactly(down, db.schema, next.schema, engine);
    assert db.table - {version} == map v | v in db.table && v != version :: db.table[v];
  }

  // -- what is pending -------------------------------------------------------------------

  function InPlace(sorted: seq<Migration>, m: Migration): seq<Migration> {
    if sorted == [] then [m]
    else if Before(m.version, sorted[0].version) then [m] + sorted
    else [sorted[0]] + InPlace(sorted[1..], m)
  }

  /** By version, those of one version in the order they were. */
  function ByVersion(ms: seq<Migration>): seq<Migration> {
    if ms == [] then [] else InPlace(ByVersion(ms[..|ms| - 1]), ms[|ms| - 1])
  }

  predicate Ordered(ms: seq<Migration>) {
    forall i, j | 0 <= i < j < |ms| :: NotAfter(ms[i].version, ms[j].version)
  }

  lemma OrderedBehind(first: Migration, rest: seq<Migration>)
    requires Ordered(rest) && forall m | m in multiset(rest) :: NotAfter(first.version, m.version)
    ensures Ordered([first] + rest)
  {
    forall j | 0 <= j < |rest|
      ensures NotAfter(first.version, rest[j].version)
    {
      assert rest[j] in multiset(rest);
    }
  }

  lemma FirstIsLeast(sorted: seq<Migration>)
    requires Ordered(sorted) && sorted != []
    ensures Ordered(sorted[1..]) && forall m | m in multiset(sorted[1..]) :: NotAfter(sorted[0].version, m.version)
  {
  }

  lemma {:induction false} InPlaceIsOrdered(sorted: seq<Migration>, m: Migration)
    requires Ordered(sorted)
    ensures Ordered(InPlace(sorted, m)) && multiset(InPlace(sorted, m)) == multiset(sorted) + multiset{m}
  {
    if sorted != [] {
      assert sorted == [sorted[0]] + sorted[1..];
      FirstIsLeast(sorted);
      BeforeIsTotal(m.version, sorted[0].version);
      if Before(m.version, sorted[0].version) {
        forall x | x in multiset(sorted)
          ensures NotAfter(m.version, x.version)
        {
          NotAfterIsTransitive(m.version, sorted[0].version, x.version);
        }
        OrderedBehind(m, sorted);
      } else {
        InPlaceIsOrdered(sorted[1..], m);
        OrderedBehind(sorted[0], InPlace(sorted[1..], m));
      }
    }
  }

  lemma {:induction false} ByVersionIsOrdered(ms: seq<Migration>)
    ensures Ordered(ByVersion(ms)) && multiset(ByVersion(ms)) == multiset(ms)
  {
    if ms != [] {
      ByVersionIsOrdered(ms[..|ms| - 1]);
      InPlaceIsOrdered(ByVersion(ms[..|ms| - 1]), ms[|ms| - 1]);
      assert ms == ms[..|ms| - 1] + [ms[|ms| - 1]];
    }
  }

  /** Leaving some out keeps the order. */
  lemma {:induction false} MissingIsOrdered(ms: seq<Migration>, table: map<string, nat>)
    requires Ordered(ms)
    ensures Ordered(Missing(ms, table)) && forall m | m in Missing(ms, table) :: m in ms && m.version !in table
  {
    if ms != [] {
      MissingIsOrdered(ms[..|ms| - 1], table);
    }
  }

  /** Those not recorded. */
  function Missing(ms: seq<Migration>, table: map<string, nat>): seq<Migration> {
    if ms == [] then []
    else
      Missing(ms[..|ms| - 1], table) + if ms[|ms| - 1].version in table then [] else [ms[|ms| - 1]]
  }

  /** All of those, as often as they were there. */
  lemma {:induction false} MissingExactly(ms: seq<Migration>, table: map<string, nat>)
    ensures forall m :: multiset(Missing(ms, table))[m] == if m.version in table then 0 else multiset(ms)[m]
  {
    if ms != [] {
      var front, last := ms[..|ms| - 1], ms[|ms| - 1];
      MissingExactly(front, table);
      assert ms == front + [last];
      assert multiset(ms) == multiset(front) + multiset{last};
    }
  }

  /** `pending` and those of `rust` not recorded: each checked, and no version
      twice. */
  function Gathered(
    pending: seq<Migration>, rust: seq<Migration>, table: map<string, nat>): Result<seq<Migration>, Fault>
    decreases |rust|
  {
    if rust == [] then Ok(pending)
    else
      var m := rust[0];
      if m.version in table then Gathered(pending, rust[1..], table)
      else if !ValidIdentifier(m.version) then Err(Invalid(m.version))
      else if !ValidIdentifier(m.name) then Err(Invalid(m.name))
      else if HasVersion(pending, m.version) then Err(Duplicate(m.version))
      else Gathered(pending + [m], rust[1..], table)
  }

  /** What is wrong with `m` behind `pending`, if anything is. */
  function Wrong(pending: seq<Migration>, m: Migration): Option<Fault> {
    if !ValidIdentifier(m.version) then Some(Invalid(m.version))
    else if !ValidIdentifier(m.name) then Some(Invalid(m.name))
    else if exists p :: p in pending && p.version == m.version then Some(Duplicate(m.version))
    else None
  }

  /** Those not recorded, in the order they are. */
  function Unrecorded(ms: seq<Migration>, table: map<string, nat>): seq<Migration> {
    if ms == [] then []
    else (if ms[0].version in table then [] else [ms[0]]) + Unrecorded(ms[1..], table)
  }

  /** Each of the first `n` of `more` is fine behind those before it, and what
      the next has wrong, if there is one, is the result. */
  ghost predicate GathersAs(
    result: Result<seq<Migration>, Fault>, pending: seq<Migration>, more: seq<Migration>, n: nat)
  {
    && n <= |more|
    && (forall i | 0 <= i < n :: Wrong(pending + more[..i], more[i]).None?)
    && (n == |more| ==> result == Ok(pending + more))
    && (n < |more| ==>
          var wrong := Wrong(pending + more[..n], more[n]);
          wrong.Some? && result == Err(wrong.value))
  }

  lemma OneGathered(pending: seq<Migration>, m: Migration, rest: seq<Migration>, i: nat)
    requires i <= |rest|
    ensures pending + ([m] + rest)[..i + 1] == pending + [m] + rest[..i]
    ensures i < |rest| ==> ([m] + rest)[i + 1] == rest[i]
  {
    assert ([m] + rest)[..i + 1] == [m] + rest[..i];
  }

  lemma GathersOneMore(
    result: Result<seq<Migration>, Fault>, pending: seq<Migration>, m: Migration, rest: seq<Migration>, n: nat)
    requires Wrong(pending, m).None? && GathersAs(result, pending + [m], rest, n)
    ensures GathersAs(result, pending, [m] + rest, n + 1)
  {
    var more := [m] + rest;
    assert pending + more[..0] == pending;
    forall i | 0 <= i < n + 1 ensures Wrong(pending + more[..i], more[i]).None? {
      if i > 0 { OneGathered(pending, m, rest, i - 1); }
    }
    OneGathered(pending, m, rest, n);
    assert pending + more == pending + [m] + rest;
  }

  lemma GathersNone(result: Result<seq<Migration>, Fault>, pending: seq<Migration>, more: seq<Migration>)
    requires if more == [] then result == Ok(pending)
             else Wrong(pending, more[0]).Some? && result == Err(Wrong(pending, more[0]).value)
    ensures GathersAs(result, pending, more, 0)
  {
    assert pending + more[..0] == pending && (more == [] ==> pending + more == pending);
  }

  /** Gathering stops at the first code migration that is wrong, with what is
      wrong; without one, all that are not recorded join in. */
  lemma {:induction false} GatheredExactly(pending: seq<Migration>, rust: seq<Migration>, table: map<string, nat>)
    returns (n: nat)
    ensures GathersAs(Gathered(pending, rust, table), pending, Unrecorded(rust, table), n)
    decreases |rust|
  {
    n := 0;
    if rust == [] {
      GathersNone(Gathered(pending, rust, table), pending, []);
    } else if rust[0].version in table {
      assert Unrecorded(rust, table) == Unrecorded(rust[1..], table);
      n := GatheredExactly(pending, rust[1..], table);
    } else {
      HasVersionExactly(pending, rust[0].version);
      if Wrong(pending, rust[0]).None? {
        var k := GatheredExactly(pending + [rust[0]], rust[1..], table);
        GathersOneMore(Gathered(pending, rust, table), pending, rust[0], Unrecorded(rust[1..], table), k);
        n := k + 1;
      } else {
        GathersNone(Gathered(pending, rust, table), pending, Unrecorded(rust, table));
      }
    }
  }

  lemma HasVersionExactly(ms: seq<Migration>, version: string)
    ensures HasVersion(ms, version) <==> exists p :: p in ms && p.version == version
  {
    if HasVersion(ms, version) {
      var i :| 0 <= i < |ms| && ms[i].version == version;
      assert ms[i] in ms;
    }
  }

  predicate HasVersion(ms: seq<Migration>, version: string) {
    exists i | 0 <= i < |ms| :: ms[i].version == version
  }

  // -- runs of transactions --------------------------------------------------------------

  /** From the `i`-th on, one by one, until one fails; how far it came. */
  function ApplyFrom<S>(db: Db<S>, pending: seq<Migration>, i: nat, batch: nat, fails: nat -> bool,
      engine: Engine<S>): (Db<S>, nat)
    requires i <= |pending|
    decreases |pending| - i
  {
    if i == |pending| then (db, i)
    else
      var next := Applied(db, pending[i], batch, fails(i), engine);
      if next.None? then (db, i) else ApplyFrom(next.value, pending, i + 1, batch, fails, engine)
  }

  datatype Way = Way(version: string, down: seq<string>)

  function UndoFrom<S>(db: Db<S>, ways: seq<Way>, i: nat, fails: nat -> bool, engine: Engine<S>): (Db<S>, nat)
    requires i <= |ways|
    decreases |ways| - i
  {
    if i == |ways| then (db, i)
    else
      var next := Undone(db, ways[i].version, ways[i].down, fails(i), engine);
      if next.None? then (db, i) else UndoFrom(next.value, ways, i + 1, fails, engine)
  }

  /** The databases on the way: each pending migration, from the `i`-th to
      before the `n`-th, takes the one before it to the next. */
  ghost predicate AreSteps<S(!new)>(dbs: seq<Db<S>>, pending: seq<Migration>, i: nat, n: nat, batch: nat,
    fails: nat -> bool, engine: Engine<S>)
    requires i <= n <= |pending|
  {
    && |dbs| == n - i + 1
    && forall k | i <= k < n :: !fails(k) && Takes(dbs[k - i], dbs[k - i + 1], pending[k], batch, engine)
  }

  ghost predicate BackSteps<S(!new)>(dbs: seq<Db<S>>, ways: seq<Way>, i: nat, n: nat, fails: nat -> bool,
    engine: Engine<S>)
    requires i <= n <= |ways|
  {
    && |dbs| == n - i + 1
    && forall k | i <= k < n ::
         !fails(k) && TakesBack(dbs[k - i], dbs[k - i + 1], ways[k].version, ways[k].down, engine)
  }

  /** A run from the `i`-th on took those before the `n`-th, a transaction each,
      and could not take that one. */
  ghost predicate Ran<S(!new)>(db: Db<S>, end: Db<S>, pending: seq<Migration>, i: nat, n: nat, batch: nat,
    fails: nat -> bool, engine: Engine<S>)
  {
    && i <= n <= |pending|
    && (exists dbs: seq<Db<S>> :: AreSteps(dbs, pending, i, n, batch, fails, engine) && Joins(dbs, db, end))
    && (n < |pending| ==> fails(n) || forall next :: !Takes(end, next, pending[n], batch, engine))
  }

  /** And a rollback likewise. */
  ghost predicate RanBack<S(!new)>(db: Db<S>, end: Db<S>, ways: seq<Way>, i: nat, n: nat, fails: nat -> bool,
    engine: Engine<S>)
  {
    && i <= n <= |ways|
    && (exists dbs: seq<Db<S>> :: BackSteps(dbs, ways, i, n, fails, engine) && Joins(dbs, db, end))
    && (n < |ways| ==> fails(n) || forall next :: !TakesBack(end, next, ways[n].version, ways[n].down, engine))
  }

  lemma RanNothing<S(!new)>(db: Db<S>, pending: seq<Migration>, i: nat, batch: nat, fails: nat -> bool,
    engine: Engine<S>)
    requires i <= |pending| && (i < |pending| ==> Applied(db, pending[i], batch, fails(i), engine).None?)
    ensures Ran(db, db, pending, i, i, batch, fails, engine)
  {
    assert AreSteps([db], pending, i, i, batch, fails, engine) && Joins([db], db, db);
    if i < |pending| {
      forall next | !fails(i) ensures !Takes(db, next, pending[i], batch, engine) {
        AppliedExactly(db, pending[i], batch, fails(i), engine, next);
      }
    }
  }

  lemma RanOneMore<S(!new)>(db: Db<S>, next: Db<S>, end: Db<S>, pending: seq<Migration>, i: nat, n: nat, batch: nat,
    fails: nat -> bool, engine: Engine<S>)
    requires i < |pending| && !fails(i) && Takes(db, next, pending[i], batch, engine)
    requires Ran(next, end, pending, i + 1, n, batch, fails, engine)
    ensures Ran(db, end, pending, i, n, batch, fails, engine)
  {
    var rest: seq<Db<S>> :| AreSteps(rest, pending, i + 1, n, batch, fails, engine) && Joins(rest, next, end);
    var dbs := [db] + rest;
    forall k | i <= k < n ensures !fails(k) && Takes(dbs[k - i], dbs[k - i + 1], pending[k], batch, engine) {
      assert dbs[k - i + 1] == rest[k - i];
      assert k > i ==> dbs[k - i] == rest[k - (i + 1)];
    }
    assert AreSteps(dbs, pending, i, n, batch, fails, engine) && Joins(dbs, db, end);
  }

  lemma {:induction false} ApplyFromRan<S(!new)>(db: Db<S>, pending: seq<Migration>, i: nat, batch: nat,
    fails: nat -> bool, engine: Engine<S>)
    requires i <= |pending|
    ensures var (end, n) := ApplyFrom(db, pending, i, batch, fails, engine);
      Ran(db, end, pending, i, n, batch, fails, engine)
    decreases |pending| - i
  {
    if i == |pending| || Applied(db, pending[i], batch, fails(i), engine).None? {
      RanNothing(db, pending, i, batch, fails, engine);
    } else {
      var next := Applied(db, pending[i], batch, fails(i), engine).value;
      AppliedExactly(db, pending[i], batch, fails(i), engine, next);
      ApplyFromRan(next, pending, i + 1, batch, fails, engine);
      var (end, n) := ApplyFrom(next, pending, i + 1, batch, fails, engine);
      RanOneMore(db, next, end, pending, i, n, batch, fails, engine);
    }
  }

  lemma RanBackNothing<S(!new)>(db: Db<S>, ways: seq<Way>, i: nat, fails: nat -> bool, engine: Engine<S>)
    requires i <= |ways| && (i < |ways| ==> Undone(db, ways[i].version, ways[i].down, fails(i), engine).None?)
    ensures RanBack(db, db, ways, i, i, fails, engine)
  {
    assert BackSteps([db], ways, i, i, fails, engine) && Joins([db], db, db);
    if i < |ways| {
      forall next | !fails(i) ensures !TakesBack(db, next, ways[i].version, ways[i].down, engine) {
        UndoneExactly(db, ways[i].version, ways[i].down, fails(i), engine, next);
      }
    }
  }

  lemma RanBackOneMore<S(!new)>(db: Db<S>, next: Db<S>, end: Db<S>, ways: seq<Way>, i: nat, n: nat,
    fails: nat -> bool, engine: Engine<S>)
    requires i < |ways| && !fails(i) && TakesBack(db, next, ways[i].version, ways[i].down, engine)
    requires RanBack(next, end, ways, i + 1, n, fails, engine)
    ensures RanBack(db, end, ways, i, n, fails, engine)
  {
    var rest: seq<Db<S>> :| BackSteps(rest, ways, i + 1, n, fails, engine) && Joins(rest, next, end);
    var dbs := [db] + rest;
    forall k | i <= k < n
      ensures !fails(k) && TakesBack(dbs[k - i], dbs[k - i + 1], ways[k].version, ways[k].down, engine)
    {
      assert dbs[k - i + 1] == rest[k - i];
      assert k > i ==> dbs[k - i] == rest[k - (i + 1)];
    }
    assert BackSteps(dbs, ways, i, n, fails, engine) && Joins(dbs, db, end);
  }

  lemma {:induction false} UndoFromRan<S(!new)>(db: Db<S>, ways: seq<Way>, i: nat, fails: nat -> bool,
    engine: Engine<S>)
    requires i <= |ways|
    ensures var (end, n) := UndoFrom(db, ways, i, fails, engine); RanBack(db, end, ways, i, n, fails, engine)
    decreases |ways| - i
  {
    if i == |ways| || Undone(db, ways[i].version, ways[i].down, fails(i), engine).None? {
      RanBackNothing(db, ways, i, fails, engine);
    } else {
      var next := Undone(db, ways[i].version, ways[i].down, fails(i), engine).value;
      UndoneExactly(db, ways[i].version, ways[i].down, fails(i), engine, next);
      UndoFromRan(next, ways, i + 1, fails, engine);
      var (end, n) := UndoFrom(next, ways, i + 1, fails, engine);
      RanBackOneMore(db, next, end, ways, i, n, fails, engine);
    }
  }

  /** `m` is the first of that version. */
  ghost predicate IsFirstOf(m: Migration, ms: seq<Migration>, version: string) {
    m.version == version && exists i :: 0 <= i < |ms| && ms[i] == m && forall j | 0 <= j < i :: ms[j].version != version
  }

  lemma {:induction false} FindExactly(ms: seq<Migration>, version: string)
    ensures Find(ms, version).None? <==> forall m | m in ms :: m.version != version
    ensures Find(ms, version).Some? ==> IsFirstOf(Find(ms, version).value, ms, version)
  {
    if ms != [] {
      FindExactly(ms[1..], version);
      assert ms == [ms[0]] + ms[1..];
      if ms[0].version != version && Find(ms, version).Some? {
        var m := Find(ms, version).value;
        var i :| 0 <= i < |ms[1..]| && ms[1..][i] == m && forall j | 0 <= j < i :: ms[1..][j].version != version;
        assert ms[i + 1] == m && forall j | 0 < j < i + 1 :: ms[j] == ms[1..][j - 1];
      }
    }
  }

  /** A migration in code goes before a file of its version. */
  lemma KnownExactly(version: string, rust: seq<Migration>, files: seq<Migration>)
    ensures Known(version, rust, files).None? <==> forall m | m in rust + files :: m.version != version
    ensures Known(version, rust, files).Some? ==>
      IsFirstOf(Known(version, rust, files).value, rust + files, version)
  {
    FindExactly(rust, version);
    FindExactly(files, version);
    FindExactly(rust + files, version);
    FindBehind(rust, files, version);
  }

  lemma {:induction false} FindBehind(a: seq<Migration>, b: seq<Migration>, version: string)
    ensures Find(a + b, version) == if Find(a, version).Some? then Find(a, version) else Find(b, version)
  {
    if a == [] {
      assert a + b == b;
    } else {
      assert (a + b)[1..] == a[1..] + b;
      FindBehind(a[1..], b, version);
    }
  }

  function Find(ms: seq<Migration>, version: string): Option<Migration> {
    if ms == [] then None else if ms[0].version == version then Some(ms[0]) else Find(ms[1..], version)
  }

  /** One written in code first. */
  function Known(version: string, rust: seq<Migration>, files: seq<Migration>): Option<Migration> {
    if Find(rust, version).Some? then Find(rust, version) else Find(files, version)
  }

  /** The way back of each, or the first that nobody knows. */
  function Ways(versions: seq<string>, rust: seq<Migration>, files: seq<Migration>): Result<seq<Way>, Fault> {
    if versions == [] then Ok([])
    else
      var known, before := Known(versions[|versions| - 1], rust, files), Ways(versions[..|versions| - 1], rust, files);
      if before.Err? then before
      else if !ValidIdentifier(versions[|versions| - 1]) then Err(Invalid(versions[|versions| - 1]))
      else if known.None? then Err(Unknown(versions[|versions| - 1]))
      else Ok(before.value + [Way(versions[|versions| - 1], known.value.down)])
  }

  ghost predicate IsMax(batch: nat, table: map<string, nat>) {
    (exists v :: v in table && table[v] == batch) && forall v | v in table :: table[v] <= batch
  }

  /** The batch a run records: one more than the last. */
  ghost predicate IsNext(batch: nat, table: map<string, nat>) {
    batch > 0 && (forall v | v in table :: table[v] < batch)
      && (batch == 1 || exists v :: v in table && table[v] == batch - 1)
  }

  /** The versions of one batch, latest first. */
  ghost predicate IsBatch(versions: seq<string>, batch: nat, table: map<string, nat>) {
    Descending(versions) && forall v :: v in versions <==> v in table && table[v] == batch
  }

  function VersionsOf(ms: seq<Migration>): seq<string> {
    seq(|ms|, i requires 0 <= i < |ms| => ms[i].version)
  }

  function WayVersions(ways: seq<Way>): seq<string> {
    seq(|ways|, i requires 0 <= i < |ways| => ways[i].version)
  }

  /** A run of code migrations checks each as it comes to it. */
  function StopsAtInvalid(pending: seq<Migration>, fails: nat -> bool): nat -> bool {
    (i: nat) =>
      fails(i) || (i < |pending| && !(ValidIdentifier(pending[i].version) && ValidIdentifier(pending[i].name)))
  }

  // -- the migrator ----------------------------------------------------------------------

  /** The database the migrator works on, a transaction at a time. */
  class Migrator<S(!new)> {
    var schema: S
    var table: map<string, nat>

    ghost function Now(): Db<S>
      reads this
    {
      Db(schema, table)
    }

    constructor (schema: S)
      ensures Now() == Db(schema, map[])
    {
      this.schema, table := schema, map[];
    }

    method MaxBatch() returns (batch: Option<nat>)
      ensures batch.None? <==> table == map[]
      ensures batch.Some? ==> IsMax(batch.value, table)
    {
      batch := None;
      var rest := table.Keys;
      while rest != {}
        invariant rest <= table.Keys
        invariant batch.None? <==> rest == table.Keys
        invariant batch.Some? ==> exists v :: v in table && table[v] == batch.value
        invariant batch.Some? ==> forall v | v in table && v !in rest :: table[v] <= batch.value
        decreases |rest|
      {
        var v :| v in rest;
        if batch.None? || batch.value < table[v] {
          batch := Some(table[v]);
        }
        rest := rest - {v};
      }
    }

    method NextBatch() returns (batch: nat)
      ensures IsNext(batch, table)
    {
      var last := MaxBatch();
      batch := 1 + if last.Some? then last.value else 0;
    }

    /** The loop of every run: a transaction each, until one fails. */
    method ApplyEach(pending: seq<Migration>, batch: nat, fails: nat -> bool, engine: Engine<S>)
      returns (result: Result<seq<string>, Fault>, n: nat)
      modifies this
      ensures (Now(), n) == ApplyFrom(old(Now()), pending, 0, batch, fails, engine)
      ensures Ran(old(Now()), Now(), pending, 0, n, batch, fails, engine)
      ensures result == if n == |pending| then Ok(VersionsOf(pending)) else Err(Failed(pending[n].version))
    {
      var i, done := 0, [];
      while i < |pending|
        invariant i <= |pending| && done == VersionsOf(pending[..i])
        invariant ApplyFrom(old(Now()), pending, 0, batch, fails, engine)
            == ApplyFrom(Now(), pending, i, batch, fails, engine)
      {
        var next := Applied(Db(schema, table), pending[i], batch, fails(i), engine);
        if next.None? {
          n := i;
          ApplyFromRan(old(Now()), pending, 0, batch, fails, engine);
          return Err(Failed(pending[i].version)), n;
        }
        schema, table := next.value.schema, next.value.table;
        done := done + [pending[i].version];
        i := i + 1;
      }
      n := i;
      assert pending[..i] == pending;
      result := Ok(done);
      ApplyFromRan(old(Now()), pending, 0, batch, fails, engine);
    }

    method MissingOf(ms: seq<Migration>) returns (missing: seq<Migration>)
      ensures missing == Missing(ms, table)
    {
      missing := [];
      var i := 0;
      assert ms[..0] == [];
      while i < |ms|
        invariant i <= |ms| && missing == Missing(ms[..i], table)
      {
        assert ms[..i + 1][..i] == ms[..i];
        if ms[i].version !in table {
          missing := missing + [ms[i]];
        }
        i := i + 1;
      }
      assert ms[..i] == ms;
    }

    /** The files `found` that are pending, in version order, as one new batch. */
    method Run(found: seq<Migration>, fails: nat -> bool, engine: Engine<S>)
      returns (result: Result<seq<string>, Fault>, ghost batch: nat, ghost n: nat)
      modifies this
      ensures IsNext(batch, old(table))
      ensures var pending := Missing(ByVersion(found), old(table));
        && (Now(), n) == ApplyFrom(old(Now()), pending, 0, batch, fails, engine)
        && Ran(old(Now()), Now(), pending, 0, n, batch, fails, engine)
        && result == if n == |pending| then Ok(VersionsOf(pending)) else Err(Failed(pending[n].version))
    {
      var next := NextBatch();
      var pending := MissingOf(ByVersion(found));
      batch := next;
      result, n := ApplyEach(pending, next, fails, engine);
    }

    method RunRust(rust: seq<Migration>, fails: nat -> bool, engine: Engine<S>)
      returns (result: Result<seq<string>, Fault>, ghost batch: nat, ghost n: nat)
      modifies this
      ensures IsNext(batch, old(table))
      ensures var pending := Missing(ByVersion(rust), old(table));
        && (Now(), n) == ApplyFrom(old(Now()), pending, 0, batch, StopsAtInvalid(pending, fails), engine)
        && Ran(old(Now()), Now(), pending, 0, n, batch, StopsAtInvalid(pending, fails), engine)
        && (forall i | 0 <= i < n :: ValidIdentifier(pending[i].version) && ValidIdentifier(pending[i].name))
        && (n == |pending| ==> result == Ok(VersionsOf(pending)))
        && (n < |pending| ==>
              var wrong := Wrong([], pending[n]);
              result == Err(if wrong.Some? then wrong.value else Failed(pending[n].version)))
    {
      var next := NextBatch();
      var pending := MissingOf(ByVersion(rust));
      batch := next;
      var done;
      result, done := ApplyEach(pending, next, StopsAtInvalid(pending, fails), engine);
      n := done;
      if result.Err? {
        var m := pending[done];
        if !ValidIdentifier(m.version) {
          result := Err(Invalid(m.version));
        } else if !ValidIdentifier(m.name) {
          result := Err(Invalid(m.name));
        }
      }
    }

    /** Files and code together; a version in both stops it before anything. */
    method RunAll(found: seq<Migration>, rust: seq<Migration>, fails: nat -> bool, engine: Engine<S>)
      returns (result: Result<seq<string>, Fault>, ghost batch: nat, ghost n: nat)
      modifies this
      ensures IsNext(batch, old(table))
      ensures var gathered := Gathered(Missing(ByVersion(found), old(table)), rust, old(table));
        if gathered.Err? then Now() == old(Now()) && result == Err(gathered.error)
        else
          var pending := ByVersion(gathered.value);
          && (Now(), n) == ApplyFrom(old(Now()), pending, 0, batch, fails, engine)
          && Ran(old(Now()), Now(), pending, 0, n, batch, fails, engine)
          && result == if n == |pending| then Ok(VersionsOf(pending)) else Err(Failed(pending[n].version))
    {
      var next := NextBatch();
      batch, n := next, 0;
      var missing := MissingOf(ByVersion(found));
      var pending := missing;
      var i := 0;
      assert rust[0..] == rust;
      while i < |rust|
        invariant i <= |rust|
        invariant Gathered(missing, rust, table) == Gathered(pending, rust[i..], table)
      {
        var m := rust[i];
        assert rust[i..][1..] == rust[i + 1..];
        if m.version !in table {
          if !ValidIdentifier(m.version) {
            return Err(Invalid(m.version)), batch, n;
          }
          if !ValidIdentifier(m.name) {
            return Err(Invalid(m.name)), batch, n;
          }
          if HasVersion(pending, m.version) {
            return Err(Duplicate(m.version)), batch, n;
          }
          pending := pending + [m];
        }
        i := i + 1;
      }
      result, n := ApplyEach(ByVersion(pending), next, fails, engine);
    }

    method BatchVersions(batch: nat) returns (versions: seq<string>)
      ensures IsBatch(versions, batch, table)
    {
      versions := SortedDescending(set v | v in table && table[v] == batch);
    }

    /** The last batch undone, latest first, once the way back of each in it is
        known. */
    method RollbackWith(rust: seq<Migration>, found: seq<Migration>, fails: nat -> bool, engine: Engine<S>)
      returns (result: Result<seq<string>, Fault>, ghost batch: nat, ghost versions: seq<string>, ghost n: nat)
      modifies this
      ensures old(table) == map[] ==> Now() == old(Now()) && result == Ok([])
      ensures old(table) != map[] ==>
        && IsMax(batch, old(table)) && IsBatch(versions, batch, old(table))
        && var ways := Ways(versions, rust, ByVersion(found));
           if ways.Err? then Now() == old(Now()) && result == Err(ways.error)
           else
             && (Now(), n) == UndoFrom(old(Now()), ways.value, 0, fails, engine)
             && RanBack(old(Now()), Now(), ways.value, 0, n, fails, engine)
             && result == if n == |ways.value| then Ok(WayVersions(ways.value)) else Err(Failed(ways.value[n].version))
    {
      batch, versions, n := 0, [], 0;
      var last := MaxBatch();
      if last.None? {
        return Ok([]), batch, versions, n;
      }
      var applied := BatchVersions(last.value);
      batch, versions := last.value, applied;
      var downs := Ways(applied, rust, ByVersion(found));
      if downs.Err? {
        return Err(downs.error), batch, versions, n;
      }
      result, n := UndoEach(downs.value, fails, engine);
    }

    method UndoEach(ways: seq<Way>, fails: nat -> bool, engine: Engine<S>)
      returns (result: Result<seq<string>, Fault>, ghost n: nat)
      modifies this
      ensures (Now(), n) == UndoFrom(old(Now()), ways, 0, fails, engine)
      ensures RanBack(old(Now()), Now(), ways, 0, n, fails, engine)
      ensures result == if n == |ways| then Ok(WayVersions(ways)) else Err(Failed(ways[n].version))
    {
      var i, done := 0, [];
      while i < |ways|
        invariant i <= |ways| && done == WayVersions(ways[..i])
        invariant UndoFrom(old(Now()), ways, 0, fails, engine) == UndoFrom(Now(), ways, i, fails, engine)
      {
        var next := Undone(Db(schema, table), ways[i].version, ways[i].down, fails(i), engine);
        if next.None? {
          n := i;
          UndoFromRan(old(Now()), ways, 0, fails, engine);
          return Err(Failed(ways[i].version)), n;
        }
        schema, table := next.value.schema, next.value.table;
        done := done + [ways[i].version];
        i := i + 1;
      }
      n := i;
      assert ways[..i] == ways;
      result := Ok(done);
      UndoFromRan(old(Now()), ways, 0, fails, engine);
    }
  }
}
