/**
 What a program's builder calls ask for, said of the calls alone, and that the
 query they build asks for just that.
 */
module QueryCalls {
  import opened Common
  import opened Sql
  import opened QueryBuilder

  // -- what a call asks of a row ----------------------------------------------------

  /** The database has no booleans: they are 1 and 0. */
  function InDatabase(v: Value): Value {
    if v == BoolV(true) then IntV(1) else if v == BoolV(false) then IntV(0) else v
  }

  /** The comparison asked for is true of the row. */
  predicate Compares(row: Row, column: string, op: Op, v: Value) {
    row.compare(column, op, InDatabase(v)) == Yes
  }

  /** What the call wants of a row. An empty `IN` wants no row, an empty group
      any. */
  predicate Wants(call: Call, row: Row) {
    match call
    case Where(column, op, value) => Compares(row, column, op, value)
    case WhereIn(column, values) => exists v :: v in values && Compares(row, column, Eq, v)
    case WhereLike(column, pattern) => row.like(column, TextV(pattern)) == Yes
    case WhereNull(column, isNull) => row.isNull(column) == isNull
    case WhereBetween(column, low, high) => Compares(row, column, Ge, low) && Compares(row, column, Le, high)
    case OrWhereEq(pairs) => pairs == [] || exists p :: p in pairs && Compares(row, p.0, Eq, p.1)
    case OrWhereLike(columns, pattern) =>
      columns == [] || exists c :: c in columns && row.like(c, TextV(pattern)) == Yes
    case _ => true
  }

  predicate AllWant(calls: seq<Call>, row: Row) {
    forall call | call in calls :: Wants(call, row)
  }

  /** Trashed rows are left out, let in, or the only ones, as was asked. */
  predicate TrashAsAsked(softDelete: Option<string>, calls: seq<Call>, row: Row) {
    match softDelete
    case None => true
    case Some(column) =>
      if OnlyTrashed in calls then !row.isNull(column) else WithTrashed in calls || row.isNull(column)
  }

  /** What the model's scope and the program's calls want of a row together. */
  predicate Asked(m: Model, scope: seq<Call>, calls: seq<Call>, row: Row) {
    && TrashAsAsked(m.softDelete, calls, row)
    && (m.hasGlobalScope && WithoutGlobalScopes !in calls ==> AllWant(scope, row))
    && AllWant(calls, row)
  }

  // -- what it names, and the rest ----------------------------------------------------

  predicate Plain(s: string) {
    s != "" && forall c | c in s :: c == '_' || '0' <= c <= '9' || 'A' <= c <= 'Z' || 'a' <= c <= 'z'
  }

  /** A plain name, or two with a dot between. */
  predicate PlainOrDotted(s: string) {
    Plain(s) || exists i :: 0 <= i < |s| && s[i] == '.' && Plain(s[..i]) && Plain(s[i + 1..])
  }

  /** The columns and tables a call names. */
  function Names(call: Call): seq<string> {
    match call
    case Where(column, _, _) => [column]
    case WhereIn(column, _) => [column]
    case WhereLike(column, _) => [column]
    case WhereNull(column, _) => [column]
    case WhereBetween(column, _, _) => [column]
    case OrWhereEq(pairs) => seq(|pairs|, i requires 0 <= i < |pairs| => pairs[i].0)
    case OrWhereLike(columns, _) => columns
    case OrderBy(column, _) => [column]
    case Join(join) => [join.table, join.left, join.right]
    case _ => []
  }

  /** All of them, in order. */
  function AllNames(calls: seq<Call>): seq<string> {
    if calls == [] then [] else Names(calls[0]) + AllNames(calls[1..])
  }

  predicate NamesPlain(calls: seq<Call>) {
    forall s | s in AllNames(calls) :: PlainOrDotted(s)
  }

  /** The first of `names` that is neither a plain name nor two. */
  predicate FirstBad(names: seq<string>, bad: string) {
    exists i ::
      0 <= i < |names| && names[i] == bad && !PlainOrDotted(bad) && forall j | 0 <= j < i :: PlainOrDotted(names[j])
  }

  function OrderOf(call: Call): seq<(string, bool)> {
    if call.OrderBy? then [(call.column, call.asc)] else []
  }

  function OrdersAsked(calls: seq<Call>): seq<(string, bool)> {
    if calls == [] then [] else OrderOf(calls[0]) + OrdersAsked(calls[1..])
  }

  function JoinOf(call: Call): seq<JoinOn> {
    if call.Join? then [call.join] else []
  }

  function JoinsAsked(calls: seq<Call>): seq<JoinOn> {
    if calls == [] then [] else JoinOf(calls[0]) + JoinsAsked(calls[1..])
  }

  function AtLeastZero(n: int): int {
    if n < 0 then 0 else n
  }

  /** The last limit asked for. */
  function LimitAsked(calls: seq<Call>): Option<int> {
    if calls == [] then None
    else
      var later := LimitAsked(calls[1..]);
      if later.None? && calls[0].Limit? then Some(AtLeastZero(calls[0].n)) else later
  }

  function OffsetAsked(calls: seq<Call>): Option<int> {
    if calls == [] then None
    else
      var later := OffsetAsked(calls[1..]);
      if later.None? && calls[0].Offset? then Some(AtLeastZero(calls[0].n)) else later
  }

  // -- identifiers ---------------------------------------------------------------------

  lemma ValidIdentExactly(s: string)
    ensures ValidIdent(s) <==> Plain(s)
  {
    assert forall i | 0 <= i < |s| :: s[i] in s;
  }

  lemma PlainHasNoDot(s: string, i: nat)
    requires Plain(s) && i < |s|
    ensures s[i] != '.'
  {
    assert s[i] in s;
  }

  /** What passes the check on a column: a plain name, or two with a dot. */
  lemma ValidExactly(s: string)
    ensures ValidQualifiedIdent(s) <==> PlainOrDotted(s)
  {
    var dot := BeforeDot(s);
    BeforeDotIsFirst(s);
    ValidIdentExactly(s);
    if dot < |s| {
      ValidIdentExactly(s[..dot]);
      ValidIdentExactly(s[dot + 1..]);
      if Plain(s) {
        PlainHasNoDot(s, dot);
      }
    }
    if i :| 0 <= i < |s| && s[i] == '.' && Plain(s[..i]) && Plain(s[i + 1..]) {
      DotIsTheFirst(s, i);
    }
  }

  lemma DotIsTheFirst(s: string, i: nat)
    requires i < |s| && s[i] == '.' && Plain(s[..i])
    ensures BeforeDot(s) == i
  {
    BeforeDotIsFirst(s);
    if BeforeDot(s) < i {
      PlainHasNoDot(s[..i], BeforeDot(s));
    }
  }

  // -- one more call ----------------------------------------------------------------

  lemma {:induction false} NamesOfOneMore(calls: seq<Call>, call: Call)
    ensures AllNames(calls + [call]) == AllNames(calls) + Names(call)
  {
    if calls == [] {
      assert [] + [call] == [call] && [call][1..] == [];
      assert Names(call) + [] == Names(call);
    } else {
      assert (calls + [call])[1..] == calls[1..] + [call];
      NamesOfOneMore(calls[1..], call);
    }
  }

  lemma {:induction false} OrdersOfOneMore(calls: seq<Call>, call: Call)
    ensures OrdersAsked(calls + [call]) == OrdersAsked(calls) + OrderOf(call)
  {
    if calls == [] {
      assert [] + [call] == [call] && [call][1..] == [];
      assert OrderOf(call) + [] == OrderOf(call) == [] + OrderOf(call);
    } else {
      assert (calls + [call])[1..] == calls[1..] + [call];
      OrdersOfOneMore(calls[1..], call);
      Associative(OrderOf(calls[0]), OrdersAsked(calls[1..]), OrderOf(call));
    }
  }

  lemma {:induction false} JoinsOfOneMore(calls: seq<Call>, call: Call)
    ensures JoinsAsked(calls + [call]) == JoinsAsked(calls) + JoinOf(call)
  {
    if calls == [] {
      assert [] + [call] == [call] && [call][1..] == [];
      assert JoinOf(call) + [] == JoinOf(call) == [] + JoinOf(call);
    } else {
      assert (calls + [call])[1..] == calls[1..] + [call];
      JoinsOfOneMore(calls[1..], call);
      Associative(JoinOf(calls[0]), JoinsAsked(calls[1..]), JoinOf(call));
    }
  }

  lemma {:induction false} PageOfOneMore(calls: seq<Call>, call: Call)
    ensures LimitAsked(calls + [call]) == if call.Limit? then Some(AtLeastZero(call.n)) else LimitAsked(calls)
    ensures OffsetAsked(calls + [call]) == if call.Offset? then Some(AtLeastZero(call.n)) else OffsetAsked(calls)
  {
    if calls == [] {
      assert [] + [call] == [call] && [call][1..] == [];
    } else {
      assert (calls + [call])[1..] == calls[1..] + [call];
      PageOfOneMore(calls[1..], call);
    }
  }

  // -- what is built -----------------------------------------------------------------

  lemma {:induction false} FirstInvalidExactly(names: seq<string>)
    ensures FirstInvalid(names).None? <==> forall s | s in names :: PlainOrDotted(s)
    ensures FirstInvalid(names).Some? ==> FirstBad(names, FirstInvalid(names).value)
  {
    if names != [] {
      ValidExactly(names[0]);
      FirstInvalidExactly(names[1..]);
      assert names == [names[0]] + names[1..];
      if ValidQualifiedIdent(names[0]) && FirstInvalid(names).Some? {
        var i :| 0 <= i < |names[1..]| && names[1..][i] == FirstInvalid(names).value
          && forall j | 0 <= j < i :: PlainOrDotted(names[1..][j]);
        assert names[i + 1] == FirstInvalid(names).value;
        assert forall j | 0 < j < i + 1 :: names[j] == names[1..][j - 1];
      }
    }
  }

  /** The columns `Apply` looks at are those the call names. */
  lemma AppliedNotes(q: Query, call: Call)
    ensures Apply(q, call).error == if q.error.Some? then q.error else FirstInvalid(Names(call))
  {
    match call
    case OrWhereEq(pairs) => assert Names(call) == Columns(pairs);
    case Where(column, _, _) => assert [column][1..] == [];
    case WhereIn(column, _) => assert [column][1..] == [];
    case WhereLike(column, _) => assert [column][1..] == [];
    case WhereNull(column, _) => assert [column][1..] == [];
    case WhereBetween(column, _, _) => assert [column][1..] == [];
    case OrderBy(column, _) => assert [column][1..] == [];
    case _ =>
  }

  lemma FirstBadStays(names: seq<string>, more: seq<string>, bad: string)
    requires FirstBad(names, bad)
    ensures FirstBad(names + more, bad)
  {
    var i :| 0 <= i < |names| && names[i] == bad && forall j | 0 <= j < i :: PlainOrDotted(names[j]);
    assert (names + more)[i] == bad;
    assert forall j | 0 <= j < i :: (names + more)[j] == names[j];
  }

  lemma FirstBadBehind(names: seq<string>, more: seq<string>, bad: string)
    requires FirstBad(more, bad) && forall s | s in names :: PlainOrDotted(s)
    ensures FirstBad(names + more, bad)
  {
    var i :| 0 <= i < |more| && more[i] == bad && forall j | 0 <= j < i :: PlainOrDotted(more[j]);
    assert (names + more)[|names| + i] == bad;
    forall j | 0 <= j < |names| + i ensures PlainOrDotted((names + more)[j]) {
      if j < |names| { assert names[j] in names; } else { assert (names + more)[j] == more[j - |names|]; }
    }
  }

  /** A query carries the first name its calls got wrong, if they did. */
  lemma {:induction false} BuiltNotes(calls: seq<Call>)
    ensures Built(calls).error.None? <==> NamesPlain(calls)
    ensures Built(calls).error.Some? ==> FirstBad(AllNames(calls), Built(calls).error.value)
  {
    if calls != [] {
      var front, last := calls[..|calls| - 1], calls[|calls| - 1];
      BuiltNotes(front);
      assert calls == front + [last];
      NamesOfOneMore(front, last);
      AppliedNotes(Built(front), last);
      FirstInvalidExactly(Names(last));
      if Built(front).error.Some? {
        FirstBadStays(AllNames(front), Names(last), Built(front).error.value);
      } else if FirstInvalid(Names(last)).Some? {
        FirstBadBehind(AllNames(front), Names(last), FirstInvalid(Names(last)).value);
      }
    }
  }

  /** A clause is true of a row. */
  predicate True(c: Clause, row: Row) {
    Holds(c, row) == Yes
  }

  lemma {:induction false} EqualsAnyExactly(column: string, values: seq<Value>, row: Row)
    ensures EqualsAny(column, BindValues(values), row) == Yes
      <==> exists v :: v in values && Compares(row, column, Eq, v)
  {
    if values == [] {
      assert BindValues(values) == [];
    } else {
      assert BindValues(values)[1..] == BindValues(values[1..]);
      assert BindValues(values)[0] == BindValue(values[0]) == InDatabase(values[0]);
      EqualsAnyExactly(column, values[1..], row);
      assert values == [values[0]] + values[1..];
      assert row.compare(column, Eq, BindValues(values)[0]) == Yes <==> Compares(row, column, Eq, values[0]);
    }
  }

  lemma {:induction false} AnyHoldsExactly(group: seq<Clause>, row: Row)
    ensures AnyHolds(group, row) == Yes <==> exists i :: 0 <= i < |group| && True(group[i], row)
  {
    if group != [] {
      AnyHoldsExactly(group[1..], row);
      assert forall i | 0 < i < |group| :: group[i] == group[1..][i - 1];
    }
  }

  lemma GroupOfEqualities(pairs: seq<(string, Value)>, row: Row)
    ensures AnyHolds(Equalities(pairs), row) == Yes <==> exists p :: p in pairs && Compares(row, p.0, Eq, p.1)
  {
    var group := Equalities(pairs);
    AnyHoldsExactly(group, row);
    assert forall i | 0 <= i < |group| :: True(group[i], row) <==> Compares(row, pairs[i].0, Eq, pairs[i].1);
    if p :| p in pairs && Compares(row, p.0, Eq, p.1) {
      var i :| 0 <= i < |pairs| && pairs[i] == p;
      assert True(group[i], row);
    }
    if i :| 0 <= i < |group| && True(group[i], row) {
      assert pairs[i] in pairs;
    }
  }

  lemma GroupOfLikes(columns: seq<string>, pattern: string, row: Row)
    ensures AnyHolds(Likes(columns, pattern), row) == Yes
      <==> exists c :: c in columns && row.like(c, TextV(pattern)) == Yes
  {
    var group := Likes(columns, pattern);
    AnyHoldsExactly(group, row);
    assert forall i | 0 <= i < |group| :: True(group[i], row) <==> row.like(columns[i], TextV(pattern)) == Yes;
    if c :| c in columns && row.like(c, TextV(pattern)) == Yes {
      var i :| 0 <= i < |columns| && columns[i] == c;
      assert True(group[i], row);
    }
    if i :| 0 <= i < |group| && True(group[i], row) {
      assert columns[i] in columns;
    }
  }

  /** The row passes all the clauses of a query. */
  ghost predicate Passes(q: Query, row: Row) {
    forall i | 0 <= i < |q.clauses| :: True(q.clauses[i], row)
  }

  lemma PassesOneMore(q: Query, c: Clause, row: Row)
    ensures Passes(q.(clauses := q.clauses + [c]), row) <==> Passes(q, row) && True(c, row)
  {
    var cs := q.clauses + [c];
    assert cs[|q.clauses|] == c;
    assert forall i | 0 <= i < |q.clauses| :: cs[i] == q.clauses[i];
  }

  /** A query with one more clause, or the same. */
  lemma PushedWants(q: Query, columns: seq<string>, group: seq<Clause>, row: Row)
    requires PushGroup(q, columns, group).error.None?
    ensures Passes(PushGroup(q, columns, group), row)
      <==> Passes(q, row) && (group == [] || AnyHolds(group, row) == Yes)
  {
    PassesOneMore(q, OrGroup(group), row);
  }

  lemma PushedClauseWants(q: Query, column: string, c: Clause, row: Row)
    requires PushClause(q, column, c).error.None?
    ensures Passes(PushClause(q, column, c), row) <==> Passes(q, row) && True(c, row)
  {
    PassesOneMore(q, c, row);
  }

  lemma GroupApplied(q: Query, call: Call, row: Row)
    requires (call.OrWhereEq? || call.OrWhereLike?) && Apply(q, call).error.None?
    ensures Passes(Apply(q, call), row) <==> Passes(q, row) && Wants(call, row)
  {
    match call
    case OrWhereEq(pairs) =>
      PushedWants(q, Columns(pairs), Equalities(pairs), row);
      GroupOfEqualities(pairs, row);
    case OrWhereLike(columns, pattern) =>
      PushedWants(q, columns, Likes(columns, pattern), row);
      GroupOfLikes(columns, pattern, row);
    case _ =>
  }

  predicate IsClause(call: Call) {
    call.Where? || call.WhereIn? || call.WhereLike? || call.WhereNull? || call.WhereBetween?
  }

  lemma ClauseApplied(q: Query, call: Call, row: Row)
    requires IsClause(call) && Apply(q, call).error.None?
    ensures Passes(Apply(q, call), row) <==> Passes(q, row) && Wants(call, row)
  {
    match call
    case Where(column, op, value) => PushedClauseWants(q, column, Cmp(column, op, value), row);
    case WhereIn(column, values) =>
      PushedClauseWants(q, column, In(column, values), row);
      EqualsAnyExactly(column, values, row);
    case WhereLike(column, pattern) => PushedClauseWants(q, column, Like(column, pattern), row);
    case WhereNull(column, isNull) => PushedClauseWants(q, column, Null(column, isNull), row);
    case WhereBetween(column, low, high) => PushedClauseWants(q, column, Between(column, low, high), row);
    case _ =>
  }

  /** One more call wants what it wants, and nothing else, of a row. */
  lemma AppliedWants(q: Query, call: Call, row: Row)
    requires Apply(q, call).error.None?
    ensures Passes(Apply(q, call), row) <==> Passes(q, row) && Wants(call, row)
  {
    if IsClause(call) {
      ClauseApplied(q, call, row);
    } else if call.OrWhereEq? || call.OrWhereLike? {
      GroupApplied(q, call, row);
    }
  }

  lemma AppliedOrders(q: Query, call: Call)
    requires Apply(q, call).error.None?
    ensures Apply(q, call).orders == q.orders + OrderOf(call)
  {
  }

  lemma AppliedJoins(q: Query, call: Call)
    requires Apply(q, call).error.None?
    ensures Apply(q, call).joins == q.joins + JoinOf(call)
  {
  }

  lemma AppliedPage(q: Query, call: Call)
    ensures
      var q' := Apply(q, call);
      && q'.limit == (if call.Limit? then Some(AtLeastZero(call.n)) else q.limit)
      && q'.offset == (if call.Offset? then Some(AtLeastZero(call.n)) else q.offset)
  {
  }

  lemma AppliedFlags(q: Query, call: Call)
    ensures
      var q' := Apply(q, call);
      && q'.withTrashed == (q.withTrashed || call == WithTrashed)
      && q'.onlyTrashed == (q.onlyTrashed || call == OnlyTrashed)
      && q'.withoutGlobalScopes == (q.withoutGlobalScopes || call == WithoutGlobalScopes)
  {
  }

  lemma NamesOfFront(calls: seq<Call>)
    requires calls != [] && NamesPlain(calls)
    ensures NamesPlain(calls[..|calls| - 1])
  {
    var front, last := calls[..|calls| - 1], calls[|calls| - 1];
    assert calls == front + [last];
    NamesOfOneMore(front, last);
  }

  /** Every call's wish, and no other, is in the query. */
  lemma {:induction false} BuiltWants(calls: seq<Call>, row: Row)
    requires NamesPlain(calls)
    ensures Passes(Built(calls), row) <==> AllWant(calls, row)
  {
    if calls != [] {
      var front, last := calls[..|calls| - 1], calls[|calls| - 1];
      NamesOfFront(calls);
      BuiltWants(front, row);
      BuiltNotes(calls);
      AppliedWants(Built(front), last, row);
      assert calls == front + [last];
    }
  }

  /** The orders and joins in sequence, the last limit and offset, and what was
      said of trash and scopes. */
  predicate RestAsAsked(q: Query, calls: seq<Call>) {
    && q.orders == OrdersAsked(calls) && q.joins == JoinsAsked(calls)
    && q.limit == LimitAsked(calls) && q.offset == OffsetAsked(calls)
    && q.withTrashed == (WithTrashed in calls) && q.onlyTrashed == (OnlyTrashed in calls)
    && q.withoutGlobalScopes == (WithoutGlobalScopes in calls)
  }

  lemma RestOfOneMore(q: Query, calls: seq<Call>, call: Call)
    requires RestAsAsked(q, calls) && Apply(q, call).error.None?
    ensures RestAsAsked(Apply(q, call), calls + [call])
  {
    AppliedOrders(q, call);
    OrdersOfOneMore(calls, call);
    AppliedJoins(q, call);
    JoinsOfOneMore(calls, call);
    AppliedPage(q, call);
    PageOfOneMore(calls, call);
    AppliedFlags(q, call);
  }

  /** So are they in the query. */
  lemma {:induction false} BuiltAsksTheRest(calls: seq<Call>)
    requires NamesPlain(calls)
    ensures RestAsAsked(Built(calls), calls)
  {
    if calls != [] {
      var front, last := calls[..|calls| - 1], calls[|calls| - 1];
      NamesOfFront(calls);
      BuiltAsksTheRest(front);
      BuiltNotes(calls);
      RestOfOneMore(Built(front), front, last);
      assert calls == front + [last];
    }
  }

  // -- what is refused ---------------------------------------------------------------

  /** No name is wrong, of the calls or of a scope that isn't waived. */
  predicate Sound(m: Model, scope: seq<Call>, calls: seq<Call>) {
    NamesPlain(calls) && (m.hasGlobalScope && WithoutGlobalScopes !in calls ==> NamesPlain(scope))
  }

  /** A query is refused exactly for a wrong name, the first of the calls' or
      else of the scope's. */
  lemma RefusedExactly(m: Model, scope: seq<Call>, calls: seq<Call>)
    requires m.globalScope == Built(scope)
    ensures
      var problem := Problem(m, Built(calls));
      && (problem.None? <==> Sound(m, scope, calls))
      && (problem.Some? ==> FirstBad(if NamesPlain(calls) then AllNames(scope) else AllNames(calls), problem.value))
  {
    BuiltNotes(calls);
    BuiltNotes(scope);
    if NamesPlain(calls) {
      BuiltAsksTheRest(calls);
    }
  }

  /** The database has the page asked for: SQLite no offset without a limit. */
  predicate PageAsked(calls: seq<Call>, driver: Driver) {
    driver.Sqlite? && OffsetAsked(calls).Some? ==> LimitAsked(calls).Some?
  }

  lemma {:induction false} AskedIsAtLeastZero(calls: seq<Call>)
    ensures LimitAsked(calls).Some? ==> LimitAsked(calls).value >= 0
    ensures OffsetAsked(calls).Some? ==> OffsetAsked(calls).value >= 0
  {
    if calls != [] {
      AskedIsAtLeastZero(calls[1..]);
    }
  }

  /** Each column by its table's name and its own, or as its cast has it, and
      then the key to load by. */
  predicate ItemsAsked(items: seq<string>, m: Model, key: Option<string>) {
    && |items| == |m.columns| + (if key.Some? then 1 else 0)
    && (forall i | 0 <= i < |m.columns| ::
          items[i] == if m.columns[i] in m.casts then m.casts[m.columns[i]] else m.table + "." + m.columns[i])
    && (key.Some? ==> items[|m.columns|] == key.value + " AS __elyra_key")
  }

  lemma ItemsAreAsked(m: Model, key: Option<string>)
    ensures ItemsAsked(SelectItems(m, key), m, key)
  {
  }

  /** Each column set is set to its value as the database has it. */
  predicate SetsAsked(sets: seq<(string, Value)>, asked: seq<(string, Value)>) {
    && |sets| == |asked|
    && forall i | 0 <= i < |sets| :: sets[i].0 == asked[i].0 && sets[i].1 == InDatabase(asked[i].1)
  }
}
