/**
 The query builder: clauses collected by builder calls, rendered to SQL while
 their values are bound on the side.
 */
module QueryBuilder {
  import opened Common
  import opened Sql

  // -- the query ---------------------------------------------------------------

  datatype Clause =
    | Cmp(column: string, op: Op, value: Value)
    | In(column: string, values: seq<Value>)
    | Like(column: string, pattern: string)
    | Null(column: string, isNull: bool)
    | Between(column: string, low: Value, high: Value)
    | OrGroup(group: seq<Clause>)
    | RawNoBind(sql: seq<Token>)

  datatype Query = Query(
    clauses: seq<Clause>,
    orders: seq<(string, bool)>,
    limit: Option<int>,
    offset: Option<int>,
    joins: seq<JoinOn>,
    withTrashed: bool,
    onlyTrashed: bool,
    withoutGlobalScopes: bool,
    error: Option<string>)

  const EMPTY_QUERY := Query([], [], None, None, [], false, false, false, None)

  /** A model's metadata. `globalScope` is what its scope makes of a fresh query. */
  datatype Model = Model(
    table: string,
    columns: seq<string>,
    casts: map<string, string>,
    softDelete: Option<string>,
    hasGlobalScope: bool,
    globalScope: Query)

  // -- identifiers -------------------------------------------------------------

  predicate IdentChar(c: char) {
    'a' <= c <= 'z' || 'A' <= c <= 'Z' || '0' <= c <= '9' || c == '_'
  }

  predicate ValidIdent(s: string) {
    s != "" && forall i | 0 <= i < |s| :: IdentChar(s[i])
  }

  function BeforeDot(s: string): nat {
    if s == "" || s[0] == '.' then 0 else 1 + BeforeDot(s[1..])
  }

  lemma {:induction false} BeforeDotIsFirst(s: string)
    ensures BeforeDot(s) <= |s|
    ensures BeforeDot(s) < |s| ==> s[BeforeDot(s)] == '.'
    ensures forall i | 0 <= i < BeforeDot(s) :: s[i] != '.'
  {
    if s != "" && s[0] != '.' {
      BeforeDotIsFirst(s[1..]);
      forall i | 0 <= i < BeforeDot(s) ensures s[i] != '.' {
        if i > 0 { assert s[i] == s[1..][i - 1]; }
      }
    }
  }

  /** `column`, or `table.column`. */
  predicate ValidQualifiedIdent(s: string) {
    var dot := BeforeDot(s);
    BeforeDotIsFirst(s);
    if dot == |s| then ValidIdent(s) else ValidIdent(s[..dot]) && ValidIdent(s[dot + 1..])
  }

  // -- builder calls -----------------------------------------------------------

  datatype Call =
    | Where(column: string, op: Op, value: Value)
    | WhereIn(column: string, values: seq<Value>)
    | WhereLike(column: string, pattern: string)
    | WhereNull(column: string, isNull: bool)
    | WhereBetween(column: string, low: Value, high: Value)
    | OrWhereEq(pairs: seq<(string, Value)>)
    | OrWhereLike(columns: seq<string>, pattern: string)
    | OrderBy(column: string, asc: bool)
    | Limit(n: int)
    | Offset(n: int)
    | Join(join: JoinOn)
    | WithTrashed
    | OnlyTrashed
    | WithoutGlobalScopes

  /** The first problem is the one reported. */
  function NoteInvalid(q: Query, column: string): Query {
    if q.error.None? then q.(error := Some(column)) else q
  }

  function PushClause(q: Query, column: string, clause: Clause): Query {
    if ValidQualifiedIdent(column) then q.(clauses := q.clauses + [clause]) else NoteInvalid(q, column)
  }

  function FirstInvalid(columns: seq<string>): Option<string> {
    if columns == [] then None
    else if !ValidQualifiedIdent(columns[0]) then Some(columns[0])
    else FirstInvalid(columns[1..])
  }

  function PushGroup(q: Query, columns: seq<string>, group: seq<Clause>): Query {
    match FirstInvalid(columns)
    case Some(column) => NoteInvalid(q, column)
    case None => if group == [] then q else q.(clauses := q.clauses + [OrGroup(group)])
  }

  function Columns(pairs: seq<(string, Value)>): seq<string> {
    seq(|pairs|, i requires 0 <= i < |pairs| => pairs[i].0)
  }

  function Equalities(pairs: seq<(string, Value)>): seq<Clause> {
    seq(|pairs|, i requires 0 <= i < |pairs| => Cmp(pairs[i].0, Eq, pairs[i].1))
  }

  function Likes(columns: seq<string>, pattern: string): seq<Clause> {
    seq(|columns|, i requires 0 <= i < |columns| => Like(columns[i], pattern))
  }

  function Apply(q: Query, call: Call): Query {
    match call
    case Where(column, op, value) => PushClause(q, column, Cmp(column, op, value))
    case WhereIn(column, values) => PushClause(q, column, In(column, values))
    case WhereLike(column, pattern) => PushClause(q, column, Like(column, pattern))
    case WhereNull(column, isNull) => PushClause(q, column, Null(column, isNull))
    case WhereBetween(column, low, high) => PushClause(q, column, Between(column, low, high))
    case OrWhereEq(pairs) => PushGroup(q, Columns(pairs), Equalities(pairs))
    case OrWhereLike(columns, pattern) => PushGroup(q, columns, Likes(columns, pattern))
    case OrderBy(column, asc) =>
      if ValidQualifiedIdent(column) then q.(orders := q.orders + [(column, asc)]) else NoteInvalid(q, column)
    case Limit(n) => q.(limit := Some(if n < 0 then 0 else n))
    case Offset(n) => q.(offset := Some(if n < 0 then 0 else n))
    case Join(j) =>
      var invalid := FirstInvalid([j.table, j.left, j.right]);
      if invalid.Some? then NoteInvalid(q, invalid.value) else q.(joins := q.joins + [j])
    case WithTrashed => q.(withTrashed := true)
    case OnlyTrashed => q.(onlyTrashed := true)
    case WithoutGlobalScopes => q.(withoutGlobalScopes := true)
  }

  function Built(calls: seq<Call>): Query {
    if calls == [] then EMPTY_QUERY else Apply(Built(calls[..|calls| - 1]), calls[|calls| - 1])
  }

  /** `or_where_eq`: stops at the first column that is no identifier. */
  method OrWhereEqLoop(q: Query, pairs: seq<(string, Value)>) returns (r: Query)
    ensures r == Apply(q, OrWhereEq(pairs))
  {
    var group: seq<Clause> := [];
    var i := 0;
    while i < |pairs|
      invariant 0 <= i <= |pairs|
      invariant group == Equalities(pairs)[..i]
      invariant FirstInvalid(Columns(pairs)) == FirstInvalid(Columns(pairs)[i..])
    {
      var (column, value) := pairs[i];
      assert Columns(pairs)[i..][1..] == Columns(pairs)[i + 1..];
      if !ValidQualifiedIdent(column) {
        return NoteInvalid(q, column);
      }
      group := group + [Cmp(column, Eq, value)];
      i := i + 1;
    }
    assert group == Equalities(pairs);
    r := if group != [] then q.(clauses := q.clauses + [OrGroup(group)]) else q;
  }

  /** `or_where_like`, the same over columns alone. */
  method OrWhereLikeLoop(q: Query, columns: seq<string>, pattern: string) returns (r: Query)
    ensures r == Apply(q, OrWhereLike(columns, pattern))
  {
    var group: seq<Clause> := [];
    var i := 0;
    while i < |columns|
      invariant 0 <= i <= |columns|
      invariant group == Likes(columns, pattern)[..i]
      invariant FirstInvalid(columns) == FirstInvalid(columns[i..])
    {
      assert columns[i..][1..] == columns[i + 1..];
      if !ValidQualifiedIdent(columns[i]) {
        return NoteInvalid(q, columns[i]);
      }
      group := group + [Like(columns[i], pattern)];
      i := i + 1;
    }
    assert group == Likes(columns, pattern);
    r := if group != [] then q.(clauses := q.clauses + [OrGroup(group)]) else q;
  }

  // -- what a clause means -----------------------------------------------------

  /** How a value reaches the database: a boolean as 0 or 1. */
  function BindValue(v: Value): Value {
    match v
    case BoolV(b) => IntV(if b then 1 else 0)
    case _ => v
  }

  function BindValues(vs: seq<Value>): seq<Value> {
    seq(|vs|, i requires 0 <= i < |vs| => BindValue(vs[i]))
  }

  /** The soft-delete scope's text. */
  function TrashedSql(column: string, trashed: bool): seq<Token> {
    if trashed then [Name(column), KwIs, KwNot, KwNull] else [Name(column), KwIs, KwNull]
  }

  predicate IsTrashedSql(sql: seq<Token>) {
    |sql| > 0 && sql[0].Name? && (sql == TrashedSql(sql[0].id, true) || sql == TrashedSql(sql[0].id, false))
  }

  /** What the calls above can build: no group is empty, and verbatim SQL is
      only ever the soft-delete scope's. Groups may nest. */
  predicate WellFormed(c: Clause) {
    match c
    case OrGroup(group) => group != [] && forall i | 0 <= i < |group| :: WellFormed(group[i])
    case RawNoBind(sql) => IsTrashedSql(sql)
    case _ => true
  }

  predicate AllWellFormed(cs: seq<Clause>) {
    forall i | 0 <= i < |cs| :: WellFormed(cs[i])
  }

  function Holds(c: Clause, row: Row): Truth
    decreases c, 0
  {
    match c
    case Cmp(column, op, value) => row.compare(column, op, BindValue(value))
    case In(column, values) => EqualsAny(column, BindValues(values), row)
    case Like(column, pattern) => row.like(column, TextV(pattern))
    case Null(column, isNull) => ToTruth(row.isNull(column) == isNull)
    case Between(column, low, high) =>
      Both(row.compare(column, Ge, BindValue(low)), row.compare(column, Le, BindValue(high)))
    case OrGroup(group) => AnyHolds(group, row)
    case RawNoBind(sql) =>
      if IsTrashedSql(sql) then ToTruth(row.isNull(sql[0].id) == (sql == TrashedSql(sql[0].id, false))) else Unknown
  }

  function AnyHolds(cs: seq<Clause>, row: Row): Truth
    decreases cs
  {
    if cs == [] then No else Either(Holds(cs[0], row), AnyHolds(cs[1..], row))
  }

  function AllHold(cs: seq<Clause>, row: Row): Truth
    decreases cs
  {
    if cs == [] then Yes else Both(Holds(cs[0], row), AllHold(cs[1..], row))
  }

  // -- rendering ---------------------------------------------------------------

  /** What stands for the i-th value: the driver's placeholder, or, once the
      database has put the arguments in, the argument itself. */
  datatype Marks = ByDriver(driver: Driver) | ByArgument(args: seq<Value>)

  function Placeholder(driver: Driver, index: nat): Token {
    if driver.Postgres? then Dollar(index) else Question
  }

  function Mark(marks: Marks, index: nat): Token {
    match marks
    case ByDriver(driver) => Placeholder(driver, index)
    case ByArgument(args) => if 1 <= index <= |args| then Bound(args[index - 1]) else Question
  }

  function MarkList(marks: Marks, index: nat, count: nat): seq<Token>
    decreases count
  {
    if count == 0 then []
    else if count == 1 then [Mark(marks, index)]
    else [Mark(marks, index), Comma] + MarkList(marks, index + 1, count - 1)
  }

  function Separated(parts: seq<seq<Token>>, separator: Token): seq<Token> {
    if parts == [] then []
    else if |parts| == 1 then parts[0]
    else parts[0] + ([separator] + Separated(parts[1..], separator))
  }

  /** The values a clause binds, in order. */
  function Args(c: Clause): seq<Value>
    decreases c, 0
  {
    match c
    case Cmp(_, _, value) => [BindValue(value)]
    case In(_, values) => BindValues(values)
    case Like(_, pattern) => [TextV(pattern)]
    case Null(_, _) => []
    case Between(_, low, high) => [BindValue(low), BindValue(high)]
    case OrGroup(group) => AllArgs(group)
    case RawNoBind(_) => []
  }

  function AllArgs(cs: seq<Clause>): seq<Value>
    decreases cs
  {
    if cs == [] then [] else Args(cs[0]) + AllArgs(cs[1..])
  }

  /** `c` with its values standing as `marks`, the first of them the index-th. */
  function Render(c: Clause, marks: Marks, index: nat): seq<Token>
    decreases c, 0
  {
    match c
    case Cmp(column, op, _) => [Name(column), Sign(op), Mark(marks, index)]
    case In(column, values) =>
      if values == [] then [Number(1), Sign(Eq), Number(0)]
      else [Name(column), KwIn, LParen] + (MarkList(marks, index, |values|) + [RParen])
    case Like(column, _) => [Name(column), KwLike, Mark(marks, index)]
    case Null(column, isNull) => TrashedSql(column, !isNull)
    case Between(column, _, _) => [Name(column), KwBetween, Mark(marks, index), KwAnd, Mark(marks, index + 1)]
    case OrGroup(group) => [LParen] + (Separated(RenderAll(group, marks, index), KwOr) + [RParen])
    case RawNoBind(sql) => sql
  }

  function RenderAll(cs: seq<Clause>, marks: Marks, index: nat): (r: seq<seq<Token>>)
    ensures |r| == |cs|
    decreases cs
  {
    if cs == [] then []
    else [Render(cs[0], marks, index)] + RenderAll(cs[1..], marks, index + |Args(cs[0])|)
  }

  lemma {:induction false} AllArgsConcat(a: seq<Clause>, b: seq<Clause>)
    ensures AllArgs(a + b) == AllArgs(a) + AllArgs(b)
  {
    if a == [] {
      assert a + b == b;
    } else {
      assert (a + b)[1..] == a[1..] + b;
      AllArgsConcat(a[1..], b);
    }
  }

  lemma {:induction false} RenderAllConcat(a: seq<Clause>, b: seq<Clause>, marks: Marks, index: nat)
    ensures RenderAll(a + b, marks, index) == RenderAll(a, marks, index) + RenderAll(b, marks, index + |AllArgs(a)|)
  {
    if a == [] {
      assert a + b == b;
    } else {
      assert (a + b)[1..] == a[1..] + b;
      RenderAllConcat(a[1..], b, marks, index + |Args(a[0])|);
    }
  }

  /** One more clause rendered: where its text and its arguments go. */
  lemma BoundTogether(before: seq<Value>, some: seq<Value>, more: seq<Value>, bound: seq<Value>)
    requires bound == before + some
    ensures bound + more == before + (some + more)
  {
  }

  lemma RenderedPrefixGrows(cs: seq<Clause>, i: nat, marks: Marks, index: nat)
    requires i < |cs|
    ensures AllArgs(cs[..i + 1]) == AllArgs(cs[..i]) + Args(cs[i])
    ensures RenderAll(cs[..i + 1], marks, index)
      == RenderAll(cs[..i], marks, index) + [Render(cs[i], marks, index + |AllArgs(cs[..i])|)]
  {
    assert cs[..i + 1] == cs[..i] + [cs[i]];
    AllArgsConcat(cs[..i], [cs[i]]);
    assert AllArgs([cs[i]]) == Args(cs[i]) + [];
    RenderAllConcat(cs[..i], [cs[i]], marks, index);
  }

  lemma {:induction false} MarkListGrows(marks: Marks, index: nat, count: nat)
    requires count > 0
    ensures MarkList(marks, index, count + 1) == MarkList(marks, index, count) + [Comma, Mark(marks, index + count)]
    decreases count
  {
    if count > 1 {
      MarkListGrows(marks, index + 1, count - 1);
    }
  }

  // -- the scopes a query carries ----------------------------------------------

  function SoftDeleteScope(m: Model, q: Query): seq<Clause> {
    match m.softDelete
    case None => []
    case Some(column) =>
      if q.onlyTrashed then [RawNoBind(TrashedSql(column, true))]
      else if !q.withTrashed then [RawNoBind(TrashedSql(column, false))]
      else []
  }

  predicate GlobalScopeApplies(m: Model, q: Query) {
    m.hasGlobalScope && !q.withoutGlobalScopes
  }

  /** Why the query cannot be rendered, if it cannot. */
  function Problem(m: Model, q: Query): Option<string> {
    if q.error.Some? then q.error
    else if GlobalScopeApplies(m, q) then m.globalScope.error
    else None
  }

  /** Every constraint of the query: soft delete, global scope, its own. */
  function ScopedClauses(m: Model, q: Query): seq<Clause> {
    SoftDeleteScope(m, q) + (if GlobalScopeApplies(m, q) then m.globalScope.clauses else []) + q.clauses
  }

  function WhereSql(clauses: seq<Clause>, marks: Marks, index: nat): seq<Token> {
    if clauses == [] then [] else [KwWhere] + Separated(RenderAll(clauses, marks, index), KwAnd)
  }

  function JoinSql(j: JoinOn): seq<Token> {
    [if j.kind.Inner? then KwInnerJoin else KwLeftJoin, Name(j.table), KwOn, Name(j.left), Sign(Eq), Name(j.right)]
  }

  function JoinsSql(joins: seq<JoinOn>): seq<Token> {
    if joins == [] then [] else JoinSql(joins[0]) + JoinsSql(joins[1..])
  }

  function OrderSql(order: (string, bool)): seq<Token> {
    [Name(order.0), if order.1 then KwAsc else KwDesc]
  }

  function OrdersSql(orders: seq<(string, bool)>): seq<Token> {
    if orders == [] then []
    else if |orders| == 1 then OrderSql(orders[0])
    else OrderSql(orders[0]) + ([Comma] + OrdersSql(orders[1..]))
  }

  const MYSQL_NO_LIMIT := 18446744073709551615

  /** MySQL has no `OFFSET` without a `LIMIT`. */
  function EffectiveLimit(q: Query, driver: Driver): Option<int> {
    if q.limit.None? && q.offset.Some? && driver.MySql? then Some(MYSQL_NO_LIMIT) else q.limit
  }

  function CountSql(keyword: Token, n: Option<int>): seq<Token> {
    match n
    case None => []
    case Some(n) => [keyword, Number(n)]
  }

  function TailSql(q: Query, driver: Driver): seq<Token> {
    (if q.orders == [] then [] else [KwOrderBy] + OrdersSql(q.orders))
    + (CountSql(KwLimit, EffectiveLimit(q, driver)) + CountSql(KwOffset, q.offset))
  }

  function SelectItems(m: Model, key: Option<string>): seq<string> {
    seq(|m.columns|, i requires 0 <= i < |m.columns| =>
      if m.columns[i] in m.casts then m.casts[m.columns[i]] else m.table + "." + m.columns[i])
    + (match key case None => [] case Some(k) => [k + " AS __elyra_key"])
  }

  function ItemsSql(items: seq<string>): seq<Token> {
    if items == [] then []
    else if |items| == 1 then [Item(items[0])]
    else [Item(items[0]), Comma] + ItemsSql(items[1..])
  }

  function SetsSql(sets: seq<(string, Value)>, marks: Marks, index: nat): seq<Token> {
    if sets == [] then []
    else
      var first := [Name(sets[0].0), Sign(Eq), Mark(marks, index)];
      if |sets| == 1 then first else first + ([Comma] + SetsSql(sets[1..], marks, index + 1))
  }

  function SetArgs(sets: seq<(string, Value)>): seq<Value> {
    seq(|sets|, i requires 0 <= i < |sets| => BindValue(sets[i].1))
  }

  /** SQL text and the arguments bound for it. */
  datatype Prepared = Prepared(sql: seq<Token>, args: seq<Value>)

  function SelectSql(items: seq<string>, m: Model, joins: seq<JoinOn>, clauses: seq<Clause>, marks: Marks,
      tail: seq<Token>): seq<Token> {
    [KwSelect] + (ItemsSql(items) + ([KwFrom, Name(m.table)]
        + (JoinsSql(joins) + (WhereSql(clauses, marks, 1) + tail))))
  }

  function UpdateSql(m: Model, sets: seq<(string, Value)>, clauses: seq<Clause>, marks: Marks): seq<Token> {
    [KwUpdate, Name(m.table), KwSet] + (SetsSql(sets, marks, 1) + WhereSql(clauses, marks, |sets| + 1))
  }

  function DeleteSql(m: Model, clauses: seq<Clause>, marks: Marks): seq<Token> {
    [KwDelete, KwFrom, Name(m.table)] + WhereSql(clauses, marks, 1)
  }

  // -- the renderer ------------------------------------------------------------

  /** The placeholder index and the argument list a rendering advances. */
  class Binder {
    var idx: nat
    var args: seq<Value>

    constructor ()
      ensures idx == 1 && args == []
    {
      idx := 1;
      args := [];
    }

    method NextPlaceholder(driver: Driver) returns (t: Token)
      modifies this
      ensures t == Placeholder(driver, old(idx)) && idx == old(idx) + 1 && args == old(args)
    {
      t := Placeholder(driver, idx);
      idx := idx + 1;
    }

    method Bind(v: Value)
      modifies this
      ensures args == old(args) + [BindValue(v)] && idx == old(idx)
    {
      args := args + [BindValue(v)];
    }

    method RenderIn(column: string, values: seq<Value>, driver: Driver) returns (sql: seq<Token>)
      requires values != []
      modifies this
      ensures sql == Render(In(column, values), ByDriver(driver), old(idx))
      ensures idx == old(idx) + |values| && args == old(args) + BindValues(values)
    {
      ghost var first := idx;
      var list := [];
      for i := 0 to |values|
        invariant idx == first + i && args == old(args)
        invariant list == MarkList(ByDriver(driver), first, i)
      {
        var p := NextPlaceholder(driver);
        if i > 0 {
          MarkListGrows(ByDriver(driver), first, i);
          list := list + [Comma, p];
        } else {
          list := [p];
        }
      }
      for i := 0 to |values|
        invariant idx == first + |values|
        invariant args == old(args) + BindValues(values)[..i]
      {
        Bind(values[i]);
      }
      assert BindValues(values)[..|values|] == BindValues(values);
      sql := [Name(column), KwIn, LParen] + (list + [RParen]);
    }

    /** `render_clause`: the text, with the clause's values bound behind those
        there before and the index moved past them. */
    method RenderClause(clause: Clause, driver: Driver) returns (sql: seq<Token>)
      modifies this
      ensures sql == Render(clause, ByDriver(driver), old(idx))
      ensures idx == old(idx) + |Args(clause)| && args == old(args) + Args(clause)
      decreases clause, 0
    {
      match clause {
        case Cmp(column, op, value) =>
          var p := NextPlaceholder(driver);
          Bind(value);
          sql := [Name(column), Sign(op), p];
        case In(column, values) =>
          if values == [] {
            sql := [Number(1), Sign(Eq), Number(0)];
          } else {
            sql := RenderIn(column, values, driver);
          }
        case Like(column, pattern) =>
          var p := NextPlaceholder(driver);
          Bind(TextV(pattern));
          sql := [Name(column), KwLike, p];
        case Null(column, isNull) =>
          sql := if isNull then [Name(column), KwIs, KwNull] else [Name(column), KwIs, KwNot, KwNull];
        case Between(column, low, high) =>
          var a := NextPlaceholder(driver);
          var b := NextPlaceholder(driver);
          Bind(low);
          Bind(high);
          sql := [Name(column), KwBetween, a, KwAnd, b];
        case OrGroup(group) =>
          var parts := RenderEach(group, driver);
          sql := [LParen] + (Separated(parts, KwOr) + [RParen]);
        case RawNoBind(raw) =>
          sql := raw;
      }
    }

    method RenderEach(clauses: seq<Clause>, driver: Driver) returns (parts: seq<seq<Token>>)
      modifies this
      ensures parts == RenderAll(clauses, ByDriver(driver), old(idx))
      ensures idx == old(idx) + |AllArgs(clauses)| && args == old(args) + AllArgs(clauses)
      decreases clauses
    {
      parts := [];
      var i := 0;
      while i < |clauses|
        invariant 0 <= i <= |clauses|
        invariant parts == RenderAll(clauses[..i], ByDriver(driver), old(idx))
        invariant idx == old(idx) + |AllArgs(clauses[..i])| && args == old(args) + AllArgs(clauses[..i])
      {
        RenderedPrefixGrows(clauses, i, ByDriver(driver), old(idx));
        ghost var bound := args;
        var sql := RenderClause(clauses[i], driver);
        BoundTogether(old(args), AllArgs(clauses[..i]), Args(clauses[i]), bound);
        parts := parts + [sql];
        i := i + 1;
      }
      assert clauses[..|clauses|] == clauses;
    }

    /** The `WHERE` of `parts`: the scopes and the clauses, joined by `AND`,
        bound behind whatever is bound already. */
    method Where(m: Model, q: Query, driver: Driver) returns (r: Result<seq<Token>, string>)
      modifies this
      ensures Problem(m, q).Some? ==> r == Err(Problem(m, q).value) && args == old(args)
      ensures Problem(m, q).None? ==>
        && r == Ok(WhereSql(ScopedClauses(m, q), ByDriver(driver), old(idx)))
        && idx == old(idx) + |AllArgs(ScopedClauses(m, q))|
        && args == old(args) + AllArgs(ScopedClauses(m, q))
    {
      if q.error.Some? {
        return Err(q.error.value);
      }
      var global: seq<Clause> := [];
      if m.hasGlobalScope && !q.withoutGlobalScopes {
        if m.globalScope.error.Some? {
          return Err(m.globalScope.error.value);
        }
        global := m.globalScope.clauses;
      }
      var clauses: seq<Clause> := [];
      if m.softDelete.Some? {
        if q.onlyTrashed {
          clauses := [RawNoBind(TrashedSql(m.softDelete.value, true))];
        } else if !q.withTrashed {
          clauses := [RawNoBind(TrashedSql(m.softDelete.value, false))];
        }
      }
      clauses := clauses + global + q.clauses;
      var parts := RenderEach(clauses, driver);
      r := Ok(if parts == [] then [] else [KwWhere] + Separated(parts, KwAnd));
    }
  }

  /** `build`: also the tables the read depends on. */
  method Build(m: Model, q: Query, driver: Driver, key: Option<string>)
    returns (r: Result<Prepared, string>, tables: set<string>)
    ensures tables == {m.table} + set j | j in q.joins :: j.table
    ensures Problem(m, q).Some? ==> r == Err(Problem(m, q).value)
    ensures Problem(m, q).None? ==> r == Ok(Prepared(
      SelectSql(SelectItems(m, key), m, q.joins, ScopedClauses(m, q), ByDriver(driver), TailSql(q, driver)),
      AllArgs(ScopedClauses(m, q))))
  {
    tables := RecordReads(m, q);
    var binder := new Binder();
    var where := binder.Where(m, q, driver);
    if where.Err? {
      return Err(where.error), tables;
    }
    assert [] + AllArgs(ScopedClauses(m, q)) == AllArgs(ScopedClauses(m, q));
    r := Ok(Prepared(
      [KwSelect] + (ItemsSql(SelectItems(m, key)) + ([KwFrom,
          Name(m.table)] + (JoinsSql(q.joins) + (where.value + TailSql(q, driver))))),
      binder.args));
  }

  /** `record_reads`: the query's table, then each joined one. */
  method RecordReads(m: Model, q: Query) returns (tables: set<string>)
    ensures tables == {m.table} + set j | j in q.joins :: j.table
  {
    tables := {m.table};
    for i := 0 to |q.joins|
      invariant tables == {m.table} + set j | j in q.joins[..i] :: j.table
    {
      assert q.joins[..i + 1] == q.joins[..i] + [q.joins[i]];
      tables := tables + {q.joins[i].table};
    }
    assert q.joins[..|q.joins|] == q.joins;
  }

  /** `aggregate_sql`: the constraints and the joins, without order or paging. */
  method AggregateSql(m: Model, q: Query, driver: Driver, func: string, column: string)
    returns (r: Result<Prepared, string>, tables: set<string>)
    ensures tables == {m.table} + set j | j in q.joins :: j.table
    ensures column != "*" && !ValidQualifiedIdent(column) ==> r == Err(column)
    ensures (column == "*" || ValidQualifiedIdent(column)) && Problem(m, q).Some? ==> r == Err(Problem(m, q).value)
    ensures (column == "*" || ValidQualifiedIdent(column)) && Problem(m, q).None? ==> r == Ok(Prepared(
      SelectSql([func + "(" + column + ") AS agg"], m, q.joins, ScopedClauses(m, q), ByDriver(driver), []),
      AllArgs(ScopedClauses(m, q))))
  {
    tables := RecordReads(m, q);
    if column != "*" && !ValidQualifiedIdent(column) {
      return Err(column), tables;
    }
    var bare := q.(limit := None, offset := None, orders := []);
    var binder := new Binder();
    var where := binder.Where(m, bare, driver);
    if where.Err? {
      return Err(where.error), tables;
    }
    assert [] + AllArgs(ScopedClauses(m, q)) == AllArgs(ScopedClauses(m, q));
    assert where.value + [] == where.value;
    r := Ok(Prepared(
      [KwSelect] + ([Item(func + "(" + column + ") AS agg")]
          + ([KwFrom, Name(m.table)] + (JoinsSql(bare.joins) + where.value))),
      binder.args));
  }

  lemma {:induction false} SetsSqlGrows(sets: seq<(string, Value)>, last: (string, Value), marks: Marks, index: nat)
    requires sets != []
    ensures SetsSql(sets + [last], marks, index)
      == SetsSql(sets, marks, index) + ([Comma] + [Name(last.0), Sign(Eq), Mark(marks, index + |sets|)])
  {
    assert (sets + [last])[1..] == sets[1..] + [last];
    if |sets| > 1 {
      SetsSqlGrows(sets[1..], last, marks, index + 1);
    } else {
      assert SetsSql([last], marks, index + 1) == [Name(last.0), Sign(Eq), Mark(marks, index + 1)];
    }
  }

  /** The SET list, its values bound as they come. */
  method BindSets(binder: Binder, driver: Driver, sets: seq<(string, Value)>) returns (r: Result<seq<Token>, string>)
    requires binder.idx == 1 && binder.args == []
    modifies binder
    ensures FirstInvalid(Columns(sets)).Some? ==> r == Err(FirstInvalid(Columns(sets)).value)
    ensures FirstInvalid(Columns(sets)).None? ==>
      r == Ok(SetsSql(sets, ByDriver(driver), 1)) && binder.idx == |sets| + 1 && binder.args == SetArgs(sets)
  {
    var text := [];
    var i := 0;
    while i < |sets|
      invariant 0 <= i <= |sets|
      invariant binder.idx == i + 1 && binder.args == SetArgs(sets)[..i]
      invariant text == SetsSql(sets[..i], ByDriver(driver), 1)
      invariant FirstInvalid(Columns(sets)) == FirstInvalid(Columns(sets)[i..])
    {
      var (column, value) := sets[i];
      assert Columns(sets)[i..][1..] == Columns(sets)[i + 1..];
      if !ValidQualifiedIdent(column) {
        return Err(column);
      }
      var p := binder.NextPlaceholder(driver);
      assert sets[..i + 1] == sets[..i] + [sets[i]];
      if i > 0 {
        SetsSqlGrows(sets[..i], sets[i], ByDriver(driver), 1);
        text := text + ([Comma] + [Name(column), Sign(Eq), p]);
      } else {
        text := [Name(column), Sign(Eq), p];
      }
      assert SetArgs(sets)[..i + 1] == SetArgs(sets)[..i] + [BindValue(value)];
      binder.Bind(value);
      i := i + 1;
    }
    assert sets[..|sets|] == sets && SetArgs(sets)[..|sets|] == SetArgs(sets);
    r := Ok(text);
  }

  /** `update`: the SET values are bound first, the constraints behind them.
      `None`: nothing to set, so nothing is run. */
  method Update(m: Model, q: Query, driver: Driver, sets: seq<(string, Value)>)
    returns (r: Result<Option<Prepared>, string>)
    ensures sets == [] ==> r == Ok(None)
    ensures sets != [] && FirstInvalid(Columns(sets)).Some? ==> r == Err(FirstInvalid(Columns(sets)).value)
    ensures sets != [] && FirstInvalid(Columns(sets)).None? && Problem(m, q).Some? ==> r == Err(Problem(m, q).value)
    ensures sets != [] && FirstInvalid(Columns(sets)).None? && Problem(m, q).None? ==> r == Ok(Some(Prepared(
      UpdateSql(m, sets, ScopedClauses(m, q), ByDriver(driver)),
      SetArgs(sets) + AllArgs(ScopedClauses(m, q)))))
  {
    if sets == [] {
      return Ok(None);
    }
    var binder := new Binder();
    var text := BindSets(binder, driver, sets);
    if text.Err? {
      return Err(text.error);
    }
    var where := binder.Where(m, q, driver);
    if where.Err? {
      return Err(where.error);
    }
    r := Ok(Some(Prepared([KwUpdate, Name(m.table), KwSet] + (text.value + where.value), binder.args)));
  }

  method Delete(m: Model, q: Query, driver: Driver) returns (r: Result<Prepared, string>)
    ensures Problem(m, q).Some? ==> r == Err(Problem(m, q).value)
    ensures Problem(m, q).None? ==> r == Ok(Prepared(
      DeleteSql(m, ScopedClauses(m, q), ByDriver(driver)), AllArgs(ScopedClauses(m, q))))
  {
    var binder := new Binder();
    var where := binder.Where(m, q, driver);
    if where.Err? {
      return Err(where.error);
    }
    assert [] + AllArgs(ScopedClauses(m, q)) == AllArgs(ScopedClauses(m, q));
    r := Ok(Prepared([KwDelete, KwFrom, Name(m.table)] + where.value, binder.args));
  }
}
