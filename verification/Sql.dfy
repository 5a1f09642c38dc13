/**
 SQL as the query builder writes it: tokens, what a database makes of their
 placeholders, and a parser with SQL's precedence (`AND` binds tighter than
 `OR`; the `AND` of a `BETWEEN` belongs to it).
 */
module Sql {
  import opened Common

  datatype Driver = Sqlite | MySql | Postgres

  datatype Value = IntV(n: int) | RealV(r: real) | TextV(s: string) | BoolV(b: bool) | NullV

  datatype Op = Eq | Ne | Lt | Gt | Le | Ge

  datatype Token =
    | Name(id: string)
    | Number(n: int)
    | Item(text: string)          // one entry of a select list, verbatim
    | Question                    // `?`
    | Dollar(position: nat)       // `$n`
    | Bound(value: Value)         // a placeholder with its argument put in
    | Sign(op: Op)
    | KwIn | KwLike | KwIs | KwNot | KwNull | KwBetween | KwAnd | KwOr
    | LParen | RParen | Comma
    | KwSelect | KwFrom | KwUpdate | KwSet | KwDelete | KwWhere | KwOn
    | KwInnerJoin | KwLeftJoin | KwOrderBy | KwAsc | KwDesc | KwLimit | KwOffset

  // -- placeholders ------------------------------------------------------------

  predicate IsPlaceholder(t: Token) {
    t.Question? || t.Dollar?
  }

  /** Postgres numbers its placeholders, the others don't. */
  predicate Speaks(ts: seq<Token>, driver: Driver) {
    forall i | 0 <= i < |ts| && IsPlaceholder(ts[i]) :: ts[i].Dollar? <==> driver.Postgres?
  }

  /** How many placeholders are before the token after `t`. */
  function Past(t: Token, seen: nat): nat {
    if IsPlaceholder(t) then seen + 1 else seen
  }

  function CountPlaceholders(ts: seq<Token>): nat {
    if ts == [] then 0 else Past(ts[0], 0) + CountPlaceholders(ts[1..])
  }

  /** The 0-based argument a placeholder names, `seen` placeholders before it. */
  function Refers(t: Token, seen: nat): int
    requires IsPlaceholder(t)
  {
    match t
    case Question => seen
    case Dollar(position) => position - 1
  }

  /** Every argument position the text names, in text order. */
  function References(ts: seq<Token>, seen: nat): seq<int> {
    if ts == [] then []
    else (if IsPlaceholder(ts[0]) then [Refers(ts[0], seen)] else []) + References(ts[1..], Past(ts[0], seen))
  }

  /** `t` with its argument in place of it, if it is a placeholder that names
      one. A placeholder that names none stays, and nothing below parses it. */
  function Put(t: Token, args: seq<Value>, seen: nat): Token {
    if IsPlaceholder(t) && 0 <= Refers(t, seen) < |args| then Bound(args[Refers(t, seen)]) else t
  }

  /** The text with the arguments put in, `seen` placeholders before it. */
  function Resolve(ts: seq<Token>, args: seq<Value>, seen: nat): seq<Token> {
    if ts == [] then [] else [Put(ts[0], args, seen)] + Resolve(ts[1..], args, Past(ts[0], seen))
  }

  lemma {:induction false} CountConcat(a: seq<Token>, b: seq<Token>)
    ensures CountPlaceholders(a + b) == CountPlaceholders(a) + CountPlaceholders(b)
  {
    if a == [] {
      assert a + b == b;
    } else {
      assert (a + b)[1..] == a[1..] + b;
      CountConcat(a[1..], b);
    }
  }

  lemma {:induction false} ResolveConcat(a: seq<Token>, b: seq<Token>, args: seq<Value>, seen: nat)
    ensures Resolve(a + b, args, seen) == Resolve(a, args, seen) + Resolve(b, args, seen + CountPlaceholders(a))
  {
    if a == [] {
      assert a + b == b;
    } else {
      assert (a + b)[1..] == a[1..] + b;
      ResolveConcat(a[1..], b, args, Past(a[0], seen));
    }
  }

  lemma {:induction false} ReferencesConcat(a: seq<Token>, b: seq<Token>, seen: nat)
    ensures References(a + b, seen) == References(a, seen) + References(b, seen + CountPlaceholders(a))
  {
    if a == [] {
      assert a + b == b;
    } else {
      assert (a + b)[1..] == a[1..] + b;
      ReferencesConcat(a[1..], b, Past(a[0], seen));
    }
  }

  // -- expressions -------------------------------------------------------------

  datatype Expr =
    | Compares(column: string, op: Op, value: Value)
    | Literals(left: int, op: Op, right: int)
    | OneOf(column: string, values: seq<Value>)
    | Matches(column: string, pattern: Value)
    | Nullness(column: string, isNull: bool)
    | Within(column: string, low: Value, high: Value)
    | All(parts: seq<Expr>)
    | Any(parts: seq<Expr>)

  /** SQL's three truth values. A row is kept when its `WHERE` is `Yes`. */
  datatype Truth = Yes | No | Unknown

  function Both(a: Truth, b: Truth): Truth {
    if a.No? || b.No? then No else if a.Unknown? || b.Unknown? then Unknown else Yes
  }

  function Either(a: Truth, b: Truth): Truth {
    if a.Yes? || b.Yes? then Yes else if a.Unknown? || b.Unknown? then Unknown else No
  }

  function ToTruth(b: bool): Truth {
    if b then Yes else No
  }

  /** How a row answers a comparison — left open: a database's own business. */
  datatype Row = Row(compare: (string, Op, Value) -> Truth, like: (string, Value) -> Truth, isNull: string -> bool)

  /** `column IN (values)`: equal to one of them. */
  function EqualsAny(column: string, values: seq<Value>, row: Row): Truth {
    if values == [] then No
    else Either(row.compare(column, Eq, values[0]), EqualsAny(column, values[1..], row))
  }

  function CompareInts(a: int, op: Op, b: int): bool {
    match op
    case Eq => a == b
    case Ne => a != b
    case Lt => a < b
    case Gt => a > b
    case Le => a <= b
    case Ge => a >= b
  }

  function Eval(e: Expr, row: Row): Truth
    decreases e, 0
  {
    match e
    case Compares(column, op, value) => row.compare(column, op, value)
    case Literals(left, op, right) => ToTruth(CompareInts(left, op, right))
    case OneOf(column, values) => EqualsAny(column, values, row)
    case Matches(column, pattern) => row.like(column, pattern)
    case Nullness(column, isNull) => ToTruth(row.isNull(column) == isNull)
    case Within(column, low, high) => Both(row.compare(column, Ge, low), row.compare(column, Le, high))
    case All(parts) => EvalAll(parts, row)
    case Any(parts) => EvalAny(parts, row)
  }

  function EvalAll(parts: seq<Expr>, row: Row): Truth
    decreases parts
  {
    if parts == [] then Yes else Both(Eval(parts[0], row), EvalAll(parts[1..], row))
  }

  function EvalAny(parts: seq<Expr>, row: Row): Truth
    decreases parts
  {
    if parts == [] then No else Either(Eval(parts[0], row), EvalAny(parts[1..], row))
  }

  // -- the parser --------------------------------------------------------------

  datatype Parsed<+T> = Nothing | Got(value: T, rest: seq<Token>)

  /** Whether `ts` starts with `t`. */
  predicate At(ts: seq<Token>, t: Token) {
    |ts| > 0 && ts[0] == t
  }

  /** An `OR` of `AND`s. */
  function ParseOr(ts: seq<Token>): (r: Parsed<seq<Expr>>)
    ensures r.Got? ==> |r.rest| < |ts|
    decreases |ts|, 2
  {
    match ParseAnd(ts)
    case Nothing => Nothing
    case Got(first, rest) =>
      if !At(rest, KwOr) then Got([All(first)], rest)
      else
        match ParseOr(rest[1..])
        case Nothing => Nothing
        case Got(more, rest') => Got([All(first)] + more, rest')
  }

  function ParseAnd(ts: seq<Token>): (r: Parsed<seq<Expr>>)
    ensures r.Got? ==> |r.rest| < |ts|
    decreases |ts|, 1
  {
    match ParsePrimary(ts)
    case Nothing => Nothing
    case Got(first, rest) =>
      if !At(rest, KwAnd) then Got([first], rest)
      else
        match ParseAnd(rest[1..])
        case Nothing => Nothing
        case Got(more, rest') => Got([first] + more, rest')
  }

  function ParsePrimary(ts: seq<Token>): (r: Parsed<Expr>)
    ensures r.Got? ==> |r.rest| < |ts|
    decreases |ts|, 0
  {
    if At(ts, LParen) then
      match ParseOr(ts[1..])
      case Nothing => Nothing
      case Got(parts, rest) => if At(rest, RParen) then Got(Any(parts), rest[1..]) else Nothing
    else ParsePredicate(ts)
  }

  function ParsePredicate(ts: seq<Token>): (r: Parsed<Expr>)
    ensures r.Got? ==> |r.rest| < |ts|
  {
    if |ts| < 3 then Nothing
    else if ts[0].Number? && ts[1].Sign? && ts[2].Number? then Got(Literals(ts[0].n, ts[1].op, ts[2].n), ts[3..])
    else if !ts[0].Name? then Nothing
    else if ts[1].Sign? && ts[2].Bound? then Got(Compares(ts[0].id, ts[1].op, ts[2].value), ts[3..])
    else if ts[1].KwLike? && ts[2].Bound? then Got(Matches(ts[0].id, ts[2].value), ts[3..])
    else if ts[1].KwIs? && ts[2].KwNull? then Got(Nullness(ts[0].id, true), ts[3..])
    else if ts[1].KwIs? && ts[2].KwNot? && At(ts[3..], KwNull) then Got(Nullness(ts[0].id, false), ts[4..])
    else if ts[1].KwBetween? && ts[2].Bound? && At(ts[3..], KwAnd) && |ts| > 4 && ts[4].Bound? then
      Got(Within(ts[0].id, ts[2].value, ts[4].value), ts[5..])
    else if ts[1].KwIn? && ts[2].LParen? then
      match ParseValues(ts[3..])
      case Nothing => Nothing
      case Got(values, rest) => if At(rest, RParen) then Got(OneOf(ts[0].id, values), rest[1..]) else Nothing
    else Nothing
  }

  function ParseValues(ts: seq<Token>): (r: Parsed<seq<Value>>)
    ensures r.Got? ==> |r.rest| < |ts|
  {
    if |ts| == 0 || !ts[0].Bound? then Nothing
    else if !At(ts[1..], Comma) then Got([ts[0].value], ts[1..])
    else
      match ParseValues(ts[2..])
      case Nothing => Nothing
      case Got(more, rest) => Got([ts[0].value] + more, rest)
  }

  /** An optional `WHERE`: no clause keeps every row. */
  function ParseWhere(ts: seq<Token>): Parsed<Expr> {
    if !At(ts, KwWhere) then Got(All([]), ts)
    else
      match ParseOr(ts[1..])
      case Nothing => Nothing
      case Got(parts, rest) => Got(Any(parts), rest)
  }

  // -- statements --------------------------------------------------------------

  datatype JoinKind = Inner | Left
  datatype JoinOn = JoinOn(kind: JoinKind, table: string, left: string, right: string)

  datatype Statement =
    | Select(items: seq<string>, table: string, joins: seq<JoinOn>, where: Expr,
             orders: seq<(string, bool)>, limit: Option<int>, offset: Option<int>)
    | Update(table: string, sets: seq<(string, Value)>, where: Expr)
    | Delete(table: string, where: Expr)

  function ParseItems(ts: seq<Token>): Parsed<seq<string>> {
    if |ts| == 0 || !ts[0].Item? then Nothing
    else if !At(ts[1..], Comma) then Got([ts[0].text], ts[1..])
    else
      match ParseItems(ts[2..])
      case Nothing => Nothing
      case Got(more, rest) => Got([ts[0].text] + more, rest)
  }

  function ParseJoins(ts: seq<Token>): Parsed<seq<JoinOn>> {
    if !At(ts, KwInnerJoin) && !At(ts, KwLeftJoin) then Got([], ts)
    else if |ts| < 6 || !ts[1].Name? || !ts[2].KwOn? || !ts[3].Name? || ts[4] != Sign(Eq) || !ts[5].Name? then Nothing
    else
      match ParseJoins(ts[6..])
      case Nothing => Nothing
      case Got(more, rest) =>
        Got([JoinOn(if ts[0].KwInnerJoin? then Inner else Left, ts[1].id, ts[3].id, ts[5].id)] + more, rest)
  }

  function ParseOrders(ts: seq<Token>): Parsed<seq<(string, bool)>> {
    if |ts| < 2 || !ts[0].Name? || !(ts[1].KwAsc? || ts[1].KwDesc?) then Nothing
    else if !At(ts[2..], Comma) then Got([(ts[0].id, ts[1].KwAsc?)], ts[2..])
    else
      match ParseOrders(ts[3..])
      case Nothing => Nothing
      case Got(more, rest) => Got([(ts[0].id, ts[1].KwAsc?)] + more, rest)
  }

  function ParseOrderBy(ts: seq<Token>): Parsed<seq<(string, bool)>> {
    if At(ts, KwOrderBy) then ParseOrders(ts[1..]) else Got([], ts)
  }

  /** `keyword n`, if it is there. */
  function ParseCount(ts: seq<Token>, keyword: Token): Parsed<Option<int>> {
    if At(ts, keyword) && |ts| > 1 && ts[1].Number? then Got(Some(ts[1].n), ts[2..]) else Got(None, ts)
  }

  function ParseSets(ts: seq<Token>): Parsed<seq<(string, Value)>> {
    if |ts| < 3 || !ts[0].Name? || ts[1] != Sign(Eq) || !ts[2].Bound? then Nothing
    else if !At(ts[3..], Comma) then Got([(ts[0].id, ts[2].value)], ts[3..])
    else
      match ParseSets(ts[4..])
      case Nothing => Nothing
      case Got(more, rest) => Got([(ts[0].id, ts[2].value)] + more, rest)
  }

  /** One whole statement, nothing after it, as `driver`'s database reads it. */
  function Parse(ts: seq<Token>, driver: Driver): Option<Statement> {
    if At(ts, KwSelect) then ParseSelect(ts[1..], driver)
    else if At(ts, KwUpdate) then ParseUpdate(ts[1..], driver)
    else if At(ts, KwDelete) then ParseDelete(ts[1..])
    else None
  }

  function ParseSelect(ts: seq<Token>, driver: Driver): Option<Statement> {
    match ParseItems(ts)
    case Nothing => None
    case Got(items, t1) =>
      if |t1| < 2 || !t1[0].KwFrom? || !t1[1].Name? then None
      else
        match ParseJoins(t1[2..])
        case Nothing => None
        case Got(joins, t2) =>
          match ParseWhere(t2)
          case Nothing => None
          case Got(where, t3) => ParsePage(Select(items, t1[1].id, joins, where, [], None, None), t3, driver)
  }

  /** Postgres alone has an `OFFSET` without a `LIMIT`, and SQLite alone takes
      a count below zero. */
  predicate ReadsPage(limit: Option<int>, offset: Option<int>, driver: Driver) {
    && (offset.Some? && limit.None? ==> driver.Postgres?)
    && (driver.Sqlite? || !(BelowZero(limit) || BelowZero(offset)))
  }

  predicate BelowZero(n: Option<int>) {
    n.Some? && n.value < 0
  }

  /** The rows a page holds of all there are; a count below zero is no bound. */
  function Page<T>(rows: seq<T>, limit: Option<int>, offset: Option<int>): seq<T> {
    var asked := if offset.None? || offset.value < 0 then 0 else offset.value;
    var skipped := if asked > |rows| then |rows| else asked;
    var left := rows[skipped..];
    if limit.None? || limit.value < 0 || limit.value > |left| then left else left[..limit.value]
  }

  /** The order and the paging end a `SELECT`. */
  function ParsePage(select: Statement, ts: seq<Token>, driver: Driver): Option<Statement>
    requires select.Select?
  {
    match ParseOrderBy(ts)
    case Nothing => None
    case Got(orders, t1) =>
      match ParseCount(t1, KwLimit)
      case Nothing => None
      case Got(limit, t2) =>
        match ParseCount(t2, KwOffset)
        case Nothing => None
        case Got(offset, t3) =>
          if t3 == [] && ReadsPage(limit, offset, driver) then
            Some(select.(orders := orders, limit := limit, offset := offset))
          else None
  }

  /** MySQL alone sets a column by its table's name and its own. */
  predicate ReadsSets(sets: seq<(string, Value)>, driver: Driver) {
    driver.MySql? || forall i | 0 <= i < |sets| :: '.' !in sets[i].0
  }

  function ParseUpdate(ts: seq<Token>, driver: Driver): Option<Statement> {
    if |ts| < 2 || !ts[0].Name? || !ts[1].KwSet? then None
    else
      match ParseSets(ts[2..])
      case Nothing => None
      case Got(sets, t1) =>
        match ParseWhere(t1)
        case Nothing => None
        case Got(where, t2) => if t2 == [] && ReadsSets(sets, driver) then Some(Update(ts[0].id, sets, where)) else None
  }

  function ParseDelete(ts: seq<Token>): Option<Statement> {
    if |ts| < 2 || !ts[0].KwFrom? || !ts[1].Name? then None
    else
      match ParseWhere(ts[2..])
      case Nothing => None
      case Got(where, t1) => if t1 == [] then Some(Delete(ts[1].id, where)) else None
  }
}
