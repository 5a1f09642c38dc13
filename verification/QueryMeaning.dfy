/**
 What the database reads is what the builder was asked: a rendered statement,
 its placeholders filled from the bound arguments and parsed with SQL's own
 precedence, is the statement the calls described.
 */
module QueryMeaning {
  import opened Common
  import opened Sql
  import opened QueryBuilder
  import QueryCalls

  // -- placeholders meet their arguments ----------------------------------------

  function Range(from: nat, count: nat): seq<int> {
    seq(count, k requires 0 <= k < count => from + k)
  }

  /** With `seen` placeholders before it, `sql` holds `count` of them, they name
      the next `count` arguments in order, and filled in it reads `filled`. */
  predicate Fills(sql: seq<Token>, filled: seq<Token>, args: seq<Value>, seen: nat, count: nat) {
    && CountPlaceholders(sql) == count
    && References(sql, seen) == Range(seen, count)
    && Resolve(sql, args, seen) == filled
  }

  lemma FillsConcat(a: seq<Token>, a': seq<Token>, m: nat, b: seq<Token>, b': seq<Token>, n: nat, args: seq<Value>,
      seen: nat)
    requires Fills(a, a', args, seen, m) && Fills(b, b', args, seen + m, n)
    ensures Fills(a + b, a' + b', args, seen, m + n)
  {
    CountConcat(a, b);
    ReferencesConcat(a, b, seen);
    ResolveConcat(a, b, args, seen);
    assert Range(seen, m + n) == Range(seen, m) + Range(seen + m, n);
  }

  lemma {:induction false} FillsPlain(ts: seq<Token>, args: seq<Value>, seen: nat)
    requires forall i | 0 <= i < |ts| :: !IsPlaceholder(ts[i])
    ensures Fills(ts, ts, args, seen, 0)
  {
    if ts != [] {
      FillsPlain(ts[1..], args, seen);
    }
  }

  lemma FillsMark(driver: Driver, args: seq<Value>, index: nat)
    requires 1 <= index <= |args|
    ensures Fills([Mark(ByDriver(driver), index)], [Mark(ByArgument(args), index)], args, index - 1, 1)
  {
    var t := Placeholder(driver, index);
    assert [t][1..] == [];
    assert Range(index - 1, 1) == [index - 1];
  }

  lemma {:induction false} FillsMarkList(driver: Driver, args: seq<Value>, index: nat, count: nat)
    requires 1 <= index && index - 1 + count <= |args|
    ensures Fills(MarkList(ByDriver(driver), index, count), MarkList(ByArgument(args), index, count), args,
        index - 1, count)
    decreases count
  {
    var d, a := ByDriver(driver), ByArgument(args);
    if count == 0 {
      FillsPlain([], args, index - 1);
    } else {
      FillsMark(driver, args, index);
      if count > 1 {
        var more, more' := MarkList(d, index + 1, count - 1), MarkList(a, index + 1, count - 1);
        FillsMarkList(driver, args, index + 1, count - 1);
        FillsJoined([Mark(d, index)], [Mark(a, index)], 1, Comma, more, more', count - 1, args, index - 1);
        assert [Mark(d, index)] + ([Comma] + more) == [Mark(d, index), Comma] + more;
        assert [Mark(a, index)] + ([Comma] + more') == [Mark(a, index), Comma] + more';
      }
    }
  }

  lemma FillsBetween(column: string, driver: Driver, args: seq<Value>, index: nat, low: Value, high: Value)
    requires 1 <= index < |args|
    ensures Fills(Render(Between(column, low, high), ByDriver(driver), index),
                  Render(Between(column, low, high), ByArgument(args), index), args, index - 1, 2)
  {
    var d, a := ByDriver(driver), ByArgument(args);
    var words := [Name(column), KwBetween];
    FillsLead(words, driver, args, index);
    FillsLead([KwAnd], driver, args, index + 1);
    FillsConcat(words + [Mark(d, index)], words + [Mark(a, index)], 1,
      [KwAnd] + [Mark(d, index + 1)], [KwAnd] + [Mark(a, index + 1)], 1, args, index - 1);
    assert Render(Between(column, low, high), d, index)
      == (words + [Mark(d, index)]) + ([KwAnd] + [Mark(d, index + 1)]);
    assert Render(Between(column, low, high), a, index)
      == (words + [Mark(a, index)]) + ([KwAnd] + [Mark(a, index + 1)]);
  }

  lemma FillsIn(column: string, values: seq<Value>, driver: Driver, args: seq<Value>, index: nat)
    requires 1 <= index && index - 1 + |values| <= |args|
    ensures Fills(Render(In(column, values), ByDriver(driver), index),
        Render(In(column, values), ByArgument(args), index),
                  args, index - 1, |values|)
  {
    if values == [] {
      FillsPlain([Number(1), Sign(Eq), Number(0)], args, index - 1);
    } else {
      FillsMarkList(driver, args, index, |values|);
      FillsWrapped([Name(column), KwIn, LParen], MarkList(ByDriver(driver), index, |values|),
        MarkList(ByArgument(args), index, |values|), |values|, args, index - 1);
    }
  }

  lemma FillsCmp(column: string, op: Op, value: Value, driver: Driver, args: seq<Value>, index: nat)
    requires 1 <= index <= |args|
    ensures Fills(Render(Cmp(column, op, value), ByDriver(driver), index), Render(Cmp(column, op, value),
        ByArgument(args), index),
                  args, index - 1, 1)
  {
    var words := [Name(column), Sign(op)];
    FillsLead(words, driver, args, index);
    assert Render(Cmp(column, op, value), ByDriver(driver), index) == words + [Mark(ByDriver(driver), index)];
    assert Render(Cmp(column, op, value), ByArgument(args), index) == words + [Mark(ByArgument(args), index)];
  }

  lemma FillsLike(column: string, pattern: string, driver: Driver, args: seq<Value>, index: nat)
    requires 1 <= index <= |args|
    ensures Fills(Render(Like(column, pattern), ByDriver(driver), index),
        Render(Like(column, pattern), ByArgument(args), index),
                  args, index - 1, 1)
  {
    var words := [Name(column), KwLike];
    FillsLead(words, driver, args, index);
    assert Render(Like(column, pattern), ByDriver(driver), index) == words + [Mark(ByDriver(driver), index)];
    assert Render(Like(column, pattern), ByArgument(args), index) == words + [Mark(ByArgument(args), index)];
  }

  lemma FillsBare(c: Clause, driver: Driver, args: seq<Value>, index: nat)
    requires WellFormed(c) && (c.Null? || c.RawNoBind?) && 1 <= index
    ensures Fills(Render(c, ByDriver(driver), index), Render(c, ByArgument(args), index), args, index - 1, 0)
  {
    FillsPlain(Render(c, ByDriver(driver), index), args, index - 1);
  }

  /** The group's parts in parentheses. */
  lemma FillsGroup(group: seq<Clause>, driver: Driver, args: seq<Value>, index: nat)
    requires 1 <= index
    requires Fills(Separated(RenderAll(group, ByDriver(driver), index), KwOr),
                   Separated(RenderAll(group, ByArgument(args), index), KwOr), args, index - 1, |AllArgs(group)|)
    ensures Fills(Render(OrGroup(group), ByDriver(driver), index), Render(OrGroup(group), ByArgument(args), index),
                  args, index - 1, |AllArgs(group)|)
  {
    FillsWrapped([LParen], Separated(RenderAll(group, ByDriver(driver), index), KwOr),
      Separated(RenderAll(group, ByArgument(args), index), KwOr), |AllArgs(group)|, args, index - 1);
  }

  lemma {:induction false} FillsClause(c: Clause, driver: Driver, args: seq<Value>, index: nat)
    requires WellFormed(c) && 1 <= index && index - 1 + |Args(c)| <= |args|
    ensures Fills(Render(c, ByDriver(driver), index), Render(c, ByArgument(args), index), args, index - 1, |Args(c)|)
    decreases c, 0
  {
    match c {
      case Cmp(column, op, value) => FillsCmp(column, op, value, driver, args, index);
      case Like(column, pattern) => FillsLike(column, pattern, driver, args, index);
      case Between(column, low, high) => FillsBetween(column, driver, args, index, low, high);
      case OrGroup(group) =>
        FillsClauses(group, driver, args, index, KwOr);
        FillsGroup(group, driver, args, index);
      case In(column, values) => FillsIn(column, values, driver, args, index);
      case _ => FillsBare(c, driver, args, index);
    }
  }

  /** Words, then one placeholder. */
  lemma FillsLead(words: seq<Token>, driver: Driver, args: seq<Value>, index: nat)
    requires forall i | 0 <= i < |words| :: !IsPlaceholder(words[i])
    requires 1 <= index <= |args|
    ensures Fills(words + [Mark(ByDriver(driver), index)], words + [Mark(ByArgument(args), index)], args, index - 1, 1)
  {
    FillsPlain(words, args, index - 1);
    FillsMark(driver, args, index);
    FillsConcat(words, words, 0, [Mark(ByDriver(driver), index)], [Mark(ByArgument(args), index)], 1, args, index - 1);
  }

  /** Words, then a part. */
  lemma FillsBehind(words: seq<Token>, b: seq<Token>, b': seq<Token>, n: nat, args: seq<Value>, seen: nat)
    requires forall i | 0 <= i < |words| :: !IsPlaceholder(words[i])
    requires Fills(b, b', args, seen, n)
    ensures Fills(words + b, words + b', args, seen, n)
  {
    FillsPlain(words, args, seen);
    FillsConcat(words, words, 0, b, b', n, args, seen);
  }

  /** Words, a part, and the parenthesis that closes it. */
  lemma FillsWrapped(words: seq<Token>, b: seq<Token>, b': seq<Token>, n: nat, args: seq<Value>, seen: nat)
    requires forall i | 0 <= i < |words| :: !IsPlaceholder(words[i])
    requires Fills(b, b', args, seen, n)
    ensures Fills(words + (b + [RParen]), words + (b' + [RParen]), args, seen, n)
  {
    FillsPlain([RParen], args, seen + n);
    FillsConcat(b, b', n, [RParen], [RParen], 0, args, seen);
    FillsBehind(words, b + [RParen], b' + [RParen], n, args, seen);
  }

  /** A part, a separator, and the parts behind it. */
  lemma FillsJoined(a: seq<Token>, a': seq<Token>, m: nat, separator: Token, b: seq<Token>, b': seq<Token>, n: nat,
      args: seq<Value>, seen: nat)
    requires Fills(a, a', args, seen, m) && Fills(b, b', args, seen + m, n) && !IsPlaceholder(separator)
    ensures Fills(a + ([separator] + b), a' + ([separator] + b'), args, seen, m + n)
  {
    FillsBehind([separator], b, b', n, args, seen + m);
    FillsConcat(a, a', m, [separator] + b, [separator] + b', n, args, seen);
  }

  /** How clauses are written, whatever it is: each at its index, one behind
      the values of the other. */
  type Writer = (Clause, nat) -> seq<Token>

  function Written(cs: seq<Clause>, writer: Writer, index: nat): seq<seq<Token>> {
    if cs == [] then [] else [writer(cs[0], index)] + Written(cs[1..], writer, index + |Args(cs[0])|)
  }

  function Renderer(marks: Marks): Writer {
    (c: Clause, index: nat) => Render(c, marks, index)
  }

  lemma {:induction false} RenderedIsWritten(cs: seq<Clause>, marks: Marks, index: nat)
    ensures RenderAll(cs, marks, index) == Written(cs, Renderer(marks), index)
    decreases |cs|
  {
    if cs != [] {
      RenderedIsWritten(cs[1..], marks, index + |Args(cs[0])|);
    }
  }

  /** Each clause is filled in, its values behind those of the ones before it. */
  ghost predicate EachFills(cs: seq<Clause>, writer: Writer, filler: Writer, args: seq<Value>, index: nat) {
    || cs == []
    || (1 <= index
        && Fills(writer(cs[0], index), filler(cs[0], index), args, index - 1, |Args(cs[0])|)
        && EachFills(cs[1..], writer, filler, args, index + |Args(cs[0])|))
  }

  lemma SeparatedSplitsAt(part: seq<Token>, rest: seq<seq<Token>>, separator: Token)
    ensures Separated([part] + rest, separator)
      == if rest == [] then part else part + ([separator] + Separated(rest, separator))
  {
    assert ([part] + rest)[1..] == rest;
  }

  lemma {:induction false} FillsSeparated(
    cs: seq<Clause>, writer: Writer, filler: Writer, args: seq<Value>, index: nat, separator: Token)
    requires EachFills(cs, writer, filler, args, index) && 1 <= index && !IsPlaceholder(separator)
    ensures Fills(Separated(Written(cs, writer, index), separator), Separated(Written(cs, filler, index), separator),
                  args, index - 1, |AllArgs(cs)|)
    decreases |cs|
  {
    if cs == [] {
      FillsPlain([], args, index - 1);
    } else {
      var next := index + |Args(cs[0])|;
      var rest, rest' := Written(cs[1..], writer, next), Written(cs[1..], filler, next);
      SeparatedSplitsAt(writer(cs[0], index), rest, separator);
      SeparatedSplitsAt(filler(cs[0], index), rest', separator);
      if |cs| > 1 {
        FillsSeparated(cs[1..], writer, filler, args, next, separator);
        FillsJoined(writer(cs[0], index), filler(cs[0], index), |Args(cs[0])|, separator,
          Separated(rest, separator), Separated(rest', separator), |AllArgs(cs[1..])|, args, index - 1);
      }
    }
  }

  lemma FirstAndOthers(cs: seq<Clause>)
    requires AllWellFormed(cs) && cs != []
    ensures WellFormed(cs[0]) && AllWellFormed(cs[1..]) && |AllArgs(cs)| == |Args(cs[0])| + |AllArgs(cs[1..])|
  {
  }

  lemma {:induction false} ClausesFill(cs: seq<Clause>, driver: Driver, args: seq<Value>, index: nat)
    requires AllWellFormed(cs) && 1 <= index && index - 1 + |AllArgs(cs)| <= |args|
    ensures EachFills(cs, Renderer(ByDriver(driver)), Renderer(ByArgument(args)), args, index)
    decreases cs, 0
  {
    if cs != [] {
      FirstAndOthers(cs);
      FillsClause(cs[0], driver, args, index);
      ClausesFill(cs[1..], driver, args, index + |Args(cs[0])|);
    }
  }

  lemma {:induction false} FillsClauses(cs: seq<Clause>, driver: Driver, args: seq<Value>, index: nat, separator: Token)
    requires AllWellFormed(cs) && 1 <= index && index - 1 + |AllArgs(cs)| <= |args|
    requires !IsPlaceholder(separator)
    ensures Fills(Separated(RenderAll(cs, ByDriver(driver), index), separator),
                  Separated(RenderAll(cs, ByArgument(args), index), separator), args, index - 1, |AllArgs(cs)|)
    decreases cs, 1
  {
    ClausesFill(cs, driver, args, index);
    FillsSeparated(cs, Renderer(ByDriver(driver)), Renderer(ByArgument(args)), args, index, separator);
    RenderedIsWritten(cs, ByDriver(driver), index);
    RenderedIsWritten(cs, ByArgument(args), index);
  }

  lemma FillsBehindWhere(cs: seq<Clause>, driver: Driver, args: seq<Value>, index: nat)
    requires cs != [] && 1 <= index
    requires Fills(Separated(RenderAll(cs, ByDriver(driver), index), KwAnd),
                   Separated(RenderAll(cs, ByArgument(args), index), KwAnd), args, index - 1, |AllArgs(cs)|)
    ensures Fills(WhereSql(cs, ByDriver(driver), index), WhereSql(cs, ByArgument(args), index), args, index - 1,
        |AllArgs(cs)|)
  {
    FillsBehind([KwWhere], Separated(RenderAll(cs, ByDriver(driver), index), KwAnd),
      Separated(RenderAll(cs, ByArgument(args), index), KwAnd), |AllArgs(cs)|, args, index - 1);
  }

  lemma FillsWhere(cs: seq<Clause>, driver: Driver, args: seq<Value>, index: nat)
    requires AllWellFormed(cs) && 1 <= index && index - 1 + |AllArgs(cs)| <= |args|
    ensures Fills(WhereSql(cs, ByDriver(driver), index), WhereSql(cs, ByArgument(args), index), args, index - 1,
        |AllArgs(cs)|)
  {
    if cs == [] {
      FillsPlain([], args, index - 1);
    } else {
      FillsClauses(cs, driver, args, index, KwAnd);
      FillsBehindWhere(cs, driver, args, index);
    }
  }

  lemma FillsSet(column: string, driver: Driver, args: seq<Value>, index: nat)
    requires 1 <= index <= |args|
    ensures Fills([Name(column), Sign(Eq), Mark(ByDriver(driver), index)], [Name(column), Sign(Eq),
        Mark(ByArgument(args), index)],
                  args, index - 1, 1)
  {
    var words := [Name(column), Sign(Eq)];
    FillsLead(words, driver, args, index);
    assert words + [Mark(ByDriver(driver), index)] == [Name(column), Sign(Eq), Mark(ByDriver(driver), index)];
    assert words + [Mark(ByArgument(args), index)] == [Name(column), Sign(Eq), Mark(ByArgument(args), index)];
  }

  lemma {:induction false} FillsSets(sets: seq<(string, Value)>, driver: Driver, args: seq<Value>, index: nat)
    requires 1 <= index && index - 1 + |sets| <= |args|
    ensures Fills(SetsSql(sets, ByDriver(driver), index), SetsSql(sets, ByArgument(args), index), args, index - 1,
        |sets|)
  {
    var d, a := ByDriver(driver), ByArgument(args);
    if sets == [] {
      FillsPlain([], args, index - 1);
    } else {
      FillsSet(sets[0].0, driver, args, index);
      if |sets| > 1 {
        FillsSets(sets[1..], driver, args, index + 1);
        FillsJoined([Name(sets[0].0), Sign(Eq), Mark(d, index)], [Name(sets[0].0), Sign(Eq), Mark(a, index)], 1, Comma,
          SetsSql(sets[1..], d, index + 1), SetsSql(sets[1..], a, index + 1), |sets| - 1, args, index - 1);
      }
    }
  }

  // -- clauses parse back -------------------------------------------------------

  /** `values` are the arguments from the index-th on. */
  predicate Supplied(args: seq<Value>, index: nat, values: seq<Value>) {
    1 <= index && index - 1 + |values| <= |args| && args[index - 1..index - 1 + |values|] == values
  }

  lemma SuppliedSplits(args: seq<Value>, index: nat, a: seq<Value>, b: seq<Value>)
    requires Supplied(args, index, a + b)
    ensures Supplied(args, index, a) && Supplied(args, index + |a|, b)
  {
    var whole := args[index - 1..index - 1 + |a + b|];
    assert args[index - 1..index - 1 + |a|] == whole[..|a|] == a;
    assert args[index - 1 + |a|..index - 1 + |a + b|] == whole[|a|..] == b;
  }

  /** How SQL reads a clause. */
  function Tree(c: Clause): Expr
    decreases c, 0
  {
    match c
    case Cmp(column, op, value) => Compares(column, op, BindValue(value))
    case In(column, values) => if values == [] then Literals(1, Eq, 0) else OneOf(column, BindValues(values))
    case Like(column, pattern) => Matches(column, TextV(pattern))
    case Null(column, isNull) => Nullness(column, isNull)
    case Between(column, low, high) => Within(column, BindValue(low), BindValue(high))
    case OrGroup(group) => Any(Lone(Trees(group)))
    case RawNoBind(sql) => if IsTrashedSql(sql) then Nullness(sql[0].id, sql == TrashedSql(sql[0].id, false))
      else All([])
  }

  /** Each tree alone in its own `AND` chain: a group's alternatives. */
  function Lone(es: seq<Expr>): seq<Expr> {
    seq(|es|, i requires 0 <= i < |es| => All([es[i]]))
  }

  function Trees(cs: seq<Clause>): seq<Expr>
    decreases cs
  {
    if cs == [] then [] else [Tree(cs[0])] + Trees(cs[1..])
  }

  lemma LastValueParses(value: Value, rest: seq<Token>)
    requires !At(rest, Comma)
    ensures ParseValues([Bound(value)] + rest) == Got([value], rest)
  {
    assert ([Bound(value)] + rest)[1..] == rest;
  }

  lemma ValueParses(value: Value, more: seq<Token>, values: seq<Value>, rest: seq<Token>)
    requires ParseValues(more + rest) == Got(values, rest)
    ensures ParseValues(([Bound(value), Comma] + more) + rest) == Got([value] + values, rest)
  {
    var ts := [Bound(value), Comma] + (more + rest);
    assert ([Bound(value), Comma] + more) + rest == ts;
    assert ts[2..] == more + rest;
    assert ts[1..] == [Comma] + (more + rest);
  }

  lemma SuppliedNext(args: seq<Value>, index: nat, values: seq<Value>)
    requires values != [] && Supplied(args, index, values)
    ensures args[index - 1] == values[0] && Supplied(args, index + 1, values[1..])
  {
    assert args[index - 1] == args[index - 1..index - 1 + |values|][0] == values[0];
    assert values == [values[0]] + values[1..];
    SuppliedSplits(args, index, [values[0]], values[1..]);
  }

  lemma MarkListIs(args: seq<Value>, index: nat, count: nat)
    requires 1 <= count && 1 <= index <= |args|
    ensures MarkList(ByArgument(args), index, count)
      == if count == 1 then [Bound(args[index - 1])]
         else [Bound(args[index - 1]), Comma] + MarkList(ByArgument(args), index + 1, count - 1)
  {
  }

  lemma {:induction false} ValuesParse(args: seq<Value>, index: nat, values: seq<Value>, rest: seq<Token>)
    requires values != [] && Supplied(args, index, values) && !At(rest, Comma)
    ensures ParseValues(MarkList(ByArgument(args), index, |values|) + rest) == Got(values, rest)
    decreases |values|
  {
    SuppliedNext(args, index, values);
    MarkListIs(args, index, |values|);
    if |values| == 1 {
      LastValueParses(values[0], rest);
      assert values == [values[0]];
    } else {
      ValuesParse(args, index + 1, values[1..], rest);
      ValueParses(values[0], MarkList(ByArgument(args), index + 1, |values| - 1), values[1..], rest);
      assert values == [values[0]] + values[1..];
    }
  }

  lemma InReads(column: string, values: seq<Value>, body: seq<Token>, rest: seq<Token>)
    requires ParseValues(body) == Got(values, [RParen] + rest)
    ensures ParsePrimary([Name(column), KwIn, LParen] + body) == Got(OneOf(column, values), rest)
  {
    assert ([Name(column), KwIn, LParen] + body)[3..] == body;
    assert ([RParen] + rest)[1..] == rest;
  }

  lemma InParses(column: string, values: seq<Value>, args: seq<Value>, index: nat, rest: seq<Token>)
    requires values != [] && Supplied(args, index, BindValues(values))
    ensures ParsePrimary(Render(In(column, values), ByArgument(args), index) + rest)
      == Got(OneOf(column, BindValues(values)), rest)
  {
    var list := MarkList(ByArgument(args), index, |values|);
    assert Render(In(column, values), ByArgument(args), index) + rest
      == [Name(column), KwIn, LParen] + (list + ([RParen] + rest));
    ValuesParse(args, index, BindValues(values), [RParen] + rest);
    InReads(column, BindValues(values), list + ([RParen] + rest), rest);
  }

  /** A clause of one comparison, or none: its text is its parse tree's. */
  lemma PlainClauseParses(c: Clause, args: seq<Value>, index: nat, rest: seq<Token>)
    requires !c.OrGroup? && (c.In? ==> c.values == []) && WellFormed(c) && Supplied(args, index, Args(c))
    ensures ParsePrimary(Render(c, ByArgument(args), index) + rest) == Got(Tree(c), rest)
  {
    var sql := Render(c, ByArgument(args), index);
    var ts := sql + rest;
    var mine := args[index - 1..index - 1 + |Args(c)|];
    assert |mine| > 0 ==> args[index - 1] == mine[0];
    assert |mine| > 1 ==> args[index] == mine[1];
    assert ts[|sql|..] == rest;
  }

  // -- chains, one link at a time -----------------------------------------------

  lemma AndLast(ts: seq<Token>, e: Expr, rest: seq<Token>)
    requires ParsePrimary(ts) == Got(e, rest) && !At(rest, KwAnd)
    ensures ParseAnd(ts) == Got([e], rest)
  {
  }

  lemma AndStep(first: seq<Token>, e: Expr, more: seq<Token>, es: seq<Expr>, rest: seq<Token>)
    requires ParsePrimary(first + ([KwAnd] + more)) == Got(e, [KwAnd] + more)
    requires ParseAnd(more) == Got(es, rest)
    ensures ParseAnd(first + ([KwAnd] + more)) == Got([e] + es, rest)
  {
    assert ([KwAnd] + more)[1..] == more;
  }

  lemma OrLast(ts: seq<Token>, e: Expr, rest: seq<Token>)
    requires ParsePrimary(ts) == Got(e, rest) && !At(rest, KwAnd) && !At(rest, KwOr)
    ensures ParseOr(ts) == Got([All([e])], rest)
  {
    AndLast(ts, e, rest);
  }

  lemma OrStep(first: seq<Token>, e: Expr, more: seq<Token>, es: seq<Expr>, rest: seq<Token>)
    requires ParsePrimary(first + ([KwOr] + more)) == Got(e, [KwOr] + more)
    requires ParseOr(more) == Got(es, rest)
    ensures ParseOr(first + ([KwOr] + more)) == Got([All([e])] + es, rest)
  {
    AndLast(first + ([KwOr] + more), e, [KwOr] + more);
    assert ([KwOr] + more)[1..] == more;
  }

  lemma GroupParses(inner: seq<Token>, parts: seq<Expr>, rest: seq<Token>)
    requires ParseOr(inner + ([RParen] + rest)) == Got(parts, [RParen] + rest)
    ensures ParsePrimary([LParen] + (inner + [RParen]) + rest) == Got(Any(parts), rest)
  {
    var ts := [LParen] + (inner + ([RParen] + rest));
    assert [LParen] + (inner + [RParen]) + rest == ts;
    assert ts[1..] == inner + ([RParen] + rest);
    assert ([RParen] + rest)[1..] == rest;
  }

  /** Whatever follows it, `part` is read as `e` and no further. */
  ghost predicate ReadsAs(part: seq<Token>, e: Expr) {
    forall tail :: ParsePrimary(part + tail) == Got(e, tail)
  }

  /** Each part is read as its expression. */
  ghost predicate AllReadAs(parts: seq<seq<Token>>, es: seq<Expr>) {
    |parts| == |es| && (parts == [] || (ReadsAs(parts[0], es[0]) && AllReadAs(parts[1..], es[1..])))
  }

  lemma SeparatedSplits(part: seq<Token>, separator: Token, more: seq<Token>, rest: seq<Token>)
    ensures (part + ([separator] + more)) + rest == part + ([separator] + (more + rest))
  {
  }

  lemma AndLink(part: seq<Token>, e: Expr, more: seq<Token>, es: seq<Expr>, rest: seq<Token>)
    requires ReadsAs(part, e) && ParseAnd(more + rest) == Got(es, rest)
    ensures ParseAnd((part + ([KwAnd] + more)) + rest) == Got([e] + es, rest)
  {
    SeparatedSplits(part, KwAnd, more, rest);
    AndStep(part, e, more + rest, es, rest);
  }

  lemma {:induction false} AndChain(parts: seq<seq<Token>>, es: seq<Expr>, rest: seq<Token>)
    requires parts != [] && AllReadAs(parts, es) && !At(rest, KwAnd)
    ensures ParseAnd(Separated(parts, KwAnd) + rest) == Got(es, rest)
  {
    assert es == [es[0]] + es[1..];
    if |parts| == 1 {
      AndLast(parts[0] + rest, es[0], rest);
      assert es == [es[0]];
    } else {
      AndChain(parts[1..], es[1..], rest);
      AndLink(parts[0], es[0], Separated(parts[1..], KwAnd), es[1..], rest);
    }
  }

  lemma OrLink(part: seq<Token>, e: Expr, more: seq<Token>, es: seq<Expr>, rest: seq<Token>)
    requires ReadsAs(part, e) && ParseOr(more + rest) == Got(es, rest)
    ensures ParseOr((part + ([KwOr] + more)) + rest) == Got([All([e])] + es, rest)
  {
    SeparatedSplits(part, KwOr, more, rest);
    OrStep(part, e, more + rest, es, rest);
  }

  lemma LoneSplits(es: seq<Expr>)
    requires es != []
    ensures Lone(es) == [All([es[0]])] + Lone(es[1..])
  {
  }

  lemma {:induction false} OrChain(parts: seq<seq<Token>>, es: seq<Expr>, rest: seq<Token>)
    requires parts != [] && AllReadAs(parts, es) && !At(rest, KwAnd) && !At(rest, KwOr)
    ensures ParseOr(Separated(parts, KwOr) + rest) == Got(Lone(es), rest)
  {
    LoneSplits(es);
    if |parts| == 1 {
      OrLast(parts[0] + rest, es[0], rest);
      assert Lone(es) == [All([es[0]])];
    } else {
      OrChain(parts[1..], es[1..], rest);
      OrLink(parts[0], es[0], Separated(parts[1..], KwOr), Lone(es[1..]), rest);
    }
  }

  lemma {:induction false} ClauseReads(c: Clause, args: seq<Value>, index: nat)
    requires WellFormed(c) && Supplied(args, index, Args(c))
    ensures ReadsAs(Render(c, ByArgument(args), index), Tree(c))
    decreases c, 0
  {
    var sql := Render(c, ByArgument(args), index);
    if c.OrGroup? {
      ClausesRead(c.group, args, index);
    }
    forall rest ensures ParsePrimary(sql + rest) == Got(Tree(c), rest) {
      if c.OrGroup? {
        var parts := RenderAll(c.group, ByArgument(args), index);
        OrChain(parts, Trees(c.group), [RParen] + rest);
        GroupParses(Separated(parts, KwOr), Lone(Trees(c.group)), rest);
      } else if c.In? && c.values != [] {
        InParses(c.column, c.values, args, index, rest);
      } else {
        PlainClauseParses(c, args, index, rest);
      }
    }
  }

  lemma {:induction false} ClausesRead(cs: seq<Clause>, args: seq<Value>, index: nat)
    requires AllWellFormed(cs) && Supplied(args, index, AllArgs(cs))
    ensures AllReadAs(RenderAll(cs, ByArgument(args), index), Trees(cs))
    decreases cs
  {
    if cs != [] {
      SuppliedSplits(args, index, Args(cs[0]), AllArgs(cs[1..]));
      ClauseReads(cs[0], args, index);
      ClausesRead(cs[1..], args, index + |Args(cs[0])|);
    }
  }

  // -- and mean the same --------------------------------------------------------

  lemma {:induction false} TreeMeansClause(c: Clause, row: Row)
    requires WellFormed(c)
    ensures Eval(Tree(c), row) == Holds(c, row)
    decreases c, 0
  {
    if c.OrGroup? {
      GroupMeansAny(c.group, row);
    }
  }

  lemma {:induction false} GroupMeansAny(cs: seq<Clause>, row: Row)
    requires AllWellFormed(cs)
    ensures EvalAny(Lone(Trees(cs)), row) == AnyHolds(cs, row)
    decreases cs
  {
    if cs != [] {
      TreeMeansClause(cs[0], row);
      GroupMeansAny(cs[1..], row);
      var one := [Tree(cs[0])];
      assert one[1..] == [];
      assert EvalAll(one, row) == Both(Eval(one[0], row), Yes);
      assert Lone(Trees(cs))[1..] == Lone(Trees(cs[1..]));
    }
  }

  lemma {:induction false} TreesMeanConjunction(cs: seq<Clause>, row: Row)
    requires AllWellFormed(cs)
    ensures EvalAll(Trees(cs), row) == AllHold(cs, row)
  {
    if cs != [] {
      TreeMeansClause(cs[0], row);
      TreesMeanConjunction(cs[1..], row);
    }
  }

  function WhereTree(cs: seq<Clause>): Expr {
    if cs == [] then All([]) else Any([All(Trees(cs))])
  }

  lemma WhereTreeMeansConjunction(cs: seq<Clause>, row: Row)
    requires AllWellFormed(cs)
    ensures Eval(WhereTree(cs), row) == AllHold(cs, row)
  {
    if cs != [] {
      TreesMeanConjunction(cs, row);
      var one := [All(Trees(cs))];
      assert one[1..] == [];
      assert EvalAny(one, row) == Either(Eval(one[0], row), No);
    }
  }

  lemma WhereParses(cs: seq<Clause>, args: seq<Value>, index: nat, rest: seq<Token>)
    requires AllWellFormed(cs) && Supplied(args, index, AllArgs(cs))
    requires !At(rest, KwAnd) && !At(rest, KwOr) && !At(rest, KwWhere)
    ensures ParseWhere(WhereSql(cs, ByArgument(args), index) + rest) == Got(WhereTree(cs), rest)
  {
    if cs == [] {
      assert WhereSql(cs, ByArgument(args), index) + rest == rest;
    } else {
      var chain := Separated(RenderAll(cs, ByArgument(args), index), KwAnd);
      var ts := WhereSql(cs, ByArgument(args), index) + rest;
      assert ts == [KwWhere] + (chain + rest);
      assert ts[1..] == chain + rest;
      ClausesRead(cs, args, index);
      AndChain(RenderAll(cs, ByArgument(args), index), Trees(cs), rest);
    }
  }

  // -- whole statements ---------------------------------------------------------

  function Assignments(sets: seq<(string, Value)>): seq<(string, Value)> {
    seq(|sets|, i requires 0 <= i < |sets| => (sets[i].0, BindValue(sets[i].1)))
  }

  lemma SuppliedFirst(args: seq<Value>, index: nat, sets: seq<(string, Value)>)
    requires sets != [] && Supplied(args, index, SetArgs(sets))
    ensures args[index - 1] == BindValue(sets[0].1) && Supplied(args, index + 1, SetArgs(sets[1..]))
  {
    assert args[index - 1] == args[index - 1..index - 1 + |sets|][0] == SetArgs(sets)[0];
    assert SetArgs(sets) == [BindValue(sets[0].1)] + SetArgs(sets[1..]);
    SuppliedSplits(args, index, [BindValue(sets[0].1)], SetArgs(sets[1..]));
  }

  lemma LastSetParses(column: string, value: Value, rest: seq<Token>)
    requires !At(rest, Comma)
    ensures ParseSets([Name(column), Sign(Eq), Bound(value)] + rest) == Got([(column, value)], rest)
  {
    assert ([Name(column), Sign(Eq), Bound(value)] + rest)[3..] == rest;
  }

  lemma SetParses(column: string, value: Value, more: seq<Token>, sets: seq<(string, Value)>, rest: seq<Token>)
    requires ParseSets(more) == Got(sets, rest)
    ensures ParseSets([Name(column), Sign(Eq), Bound(value)] + ([Comma] + more)) == Got([(column, value)] + sets, rest)
  {
    var ts := [Name(column), Sign(Eq), Bound(value)] + ([Comma] + more);
    assert ts[4..] == more && ts[3..] == [Comma] + more;
  }

  lemma SetsSqlSplits(sets: seq<(string, Value)>, args: seq<Value>, index: nat)
    requires sets != [] && 1 <= index <= |args| && args[index - 1] == BindValue(sets[0].1)
    ensures
      var first := [Name(sets[0].0), Sign(Eq), Bound(BindValue(sets[0].1))];
      SetsSql(sets, ByArgument(args), index)
        == if |sets| == 1 then first else first + ([Comma] + SetsSql(sets[1..], ByArgument(args), index + 1))
  {
  }

  lemma AssignmentsSplit(sets: seq<(string, Value)>)
    requires sets != []
    ensures Assignments(sets) == [(sets[0].0, BindValue(sets[0].1))] + Assignments(sets[1..])
  {
  }

  lemma {:induction false} SetsParse(sets: seq<(string, Value)>, args: seq<Value>, index: nat, rest: seq<Token>)
    requires sets != [] && Supplied(args, index, SetArgs(sets)) && !At(rest, Comma)
    ensures ParseSets(SetsSql(sets, ByArgument(args), index) + rest) == Got(Assignments(sets), rest)
  {
    var column, value := sets[0].0, BindValue(sets[0].1);
    SuppliedFirst(args, index, sets);
    SetsSqlSplits(sets, args, index);
    AssignmentsSplit(sets);
    if |sets| == 1 {
      LastSetParses(column, value, rest);
      assert Assignments(sets) == [(column, value)];
    } else {
      var more := SetsSql(sets[1..], ByArgument(args), index + 1);
      SetsParse(sets[1..], args, index + 1, rest);
      SetParses(column, value, more + rest, Assignments(sets[1..]), rest);
      SeparatedSplits([Name(column), Sign(Eq), Bound(value)], Comma, more, rest);
    }
  }

  lemma LastItemParses(item: string, rest: seq<Token>)
    requires !At(rest, Comma)
    ensures ParseItems([Item(item)] + rest) == Got([item], rest)
  {
    assert ([Item(item)] + rest)[1..] == rest;
  }

  lemma ItemParses(item: string, more: seq<Token>, items: seq<string>, rest: seq<Token>)
    requires ParseItems(more) == Got(items, rest)
    ensures ParseItems([Item(item), Comma] + more) == Got([item] + items, rest)
  {
    var ts := [Item(item), Comma] + more;
    assert ts[2..] == more;
    assert ts[1..] == [Comma] + more;
  }

  lemma ItemsSqlSplits(items: seq<string>, rest: seq<Token>)
    requires |items| > 1
    ensures ItemsSql(items) + rest == [Item(items[0]), Comma] + (ItemsSql(items[1..]) + rest)
  {
  }

  lemma ItemsOfOneParse(items: seq<string>, rest: seq<Token>)
    requires |items| == 1 && !At(rest, Comma)
    ensures ParseItems(ItemsSql(items) + rest) == Got(items, rest)
  {
    LastItemParses(items[0], rest);
    assert items == [items[0]];
  }

  lemma ItemsStepParses(items: seq<string>, rest: seq<Token>)
    requires |items| > 1 && ParseItems(ItemsSql(items[1..]) + rest) == Got(items[1..], rest)
    ensures ParseItems(ItemsSql(items) + rest) == Got(items, rest)
  {
    ItemParses(items[0], ItemsSql(items[1..]) + rest, items[1..], rest);
    ItemsSqlSplits(items, rest);
    assert items == [items[0]] + items[1..];
  }

  lemma {:induction false} ItemsParse(items: seq<string>, rest: seq<Token>)
    requires items != [] && !At(rest, Comma)
    ensures ParseItems(ItemsSql(items) + rest) == Got(items, rest)
  {
    if |items| == 1 {
      ItemsOfOneParse(items, rest);
    } else {
      ItemsParse(items[1..], rest);
      ItemsStepParses(items, rest);
    }
  }

  lemma JoinParses(join: JoinOn, more: seq<Token>, joins: seq<JoinOn>, rest: seq<Token>)
    requires ParseJoins(more) == Got(joins, rest)
    ensures ParseJoins(JoinSql(join) + more) == Got([join] + joins, rest)
  {
    assert (JoinSql(join) + more)[6..] == more;
  }

  lemma JoinsSqlSplits(joins: seq<JoinOn>, rest: seq<Token>)
    requires joins != []
    ensures JoinsSql(joins) + rest == JoinSql(joins[0]) + (JoinsSql(joins[1..]) + rest)
  {
  }

  lemma {:induction false} JoinsParse(joins: seq<JoinOn>, rest: seq<Token>)
    requires !At(rest, KwInnerJoin) && !At(rest, KwLeftJoin)
    ensures ParseJoins(JoinsSql(joins) + rest) == Got(joins, rest)
  {
    if joins == [] {
      assert [] + rest == rest;
    } else {
      var more := JoinsSql(joins[1..]) + rest;
      JoinsParse(joins[1..], rest);
      JoinParses(joins[0], more, joins[1..], rest);
      JoinsSqlSplits(joins, rest);
      assert joins == [joins[0]] + joins[1..];
    }
  }

  lemma LastOrderParses(order: (string, bool), rest: seq<Token>)
    requires !At(rest, Comma)
    ensures ParseOrders(OrderSql(order) + rest) == Got([order], rest)
  {
    assert (OrderSql(order) + rest)[2..] == rest;
  }

  lemma OrderParses(order: (string, bool), more: seq<Token>, orders: seq<(string, bool)>, rest: seq<Token>)
    requires ParseOrders(more) == Got(orders, rest)
    ensures ParseOrders(OrderSql(order) + ([Comma] + more)) == Got([order] + orders, rest)
  {
    var ts := OrderSql(order) + ([Comma] + more);
    assert ts[3..] == more && ts[2..] == [Comma] + more;
  }

  lemma {:induction false} OrdersParse(orders: seq<(string, bool)>, rest: seq<Token>)
    requires orders != [] && !At(rest, Comma)
    ensures ParseOrders(OrdersSql(orders) + rest) == Got(orders, rest)
  {
    if |orders| == 1 {
      LastOrderParses(orders[0], rest);
      assert orders == [orders[0]];
    } else {
      OrdersParse(orders[1..], rest);
      OrderParses(orders[0], OrdersSql(orders[1..]) + rest, orders[1..], rest);
      SeparatedSplits(OrderSql(orders[0]), Comma, OrdersSql(orders[1..]), rest);
      assert orders == [orders[0]] + orders[1..];
    }
  }

  lemma CountParses(keyword: Token, n: Option<int>, rest: seq<Token>)
    requires !At(rest, keyword)
    ensures ParseCount(CountSql(keyword, n) + rest, keyword) == Got(n, rest)
  {
    assert [] + rest == rest;
    assert n.Some? ==> ([keyword, Number(n.value)] + rest)[2..] == rest;
  }

  lemma TailStarts(q: Query, driver: Driver)
    ensures var tail := TailSql(q, driver);
      At(tail, KwOrderBy) || At(tail, KwLimit) || At(tail, KwOffset) || tail == []
  {
  }

  lemma OrderByReads(sql: seq<Token>, orders: seq<(string, bool)>, rest: seq<Token>)
    requires ParseOrders(sql + rest) == Got(orders, rest)
    ensures ParseOrderBy([KwOrderBy] + sql + rest) == Got(orders, rest)
  {
    assert [KwOrderBy] + sql + rest == [KwOrderBy] + (sql + rest);
    assert ([KwOrderBy] + (sql + rest))[1..] == sql + rest;
  }

  lemma OrderByNoneReads(rest: seq<Token>)
    requires !At(rest, KwOrderBy)
    ensures ParseOrderBy([] + rest) == Got([], rest)
  {
    assert [] + rest == rest;
  }

  lemma OrderBySomeParses(orders: seq<(string, bool)>, rest: seq<Token>)
    requires orders != [] && !At(rest, Comma)
    ensures ParseOrderBy([KwOrderBy] + OrdersSql(orders) + rest) == Got(orders, rest)
  {
    OrdersParse(orders, rest);
    OrderByReads(OrdersSql(orders), orders, rest);
  }

  lemma OrderByParses(orders: seq<(string, bool)>, rest: seq<Token>)
    requires !At(rest, Comma) && !At(rest, KwOrderBy)
    ensures ParseOrderBy((if orders == [] then [] else [KwOrderBy] + OrdersSql(orders)) + rest) == Got(orders, rest)
  {
    if orders == [] { OrderByNoneReads(rest); } else { OrderBySomeParses(orders, rest); }
  }

  lemma TailParses(q: Query, driver: Driver)
    ensures
      var tail := TailSql(q, driver);
      var offset := CountSql(KwOffset, q.offset);
      var paging := CountSql(KwLimit, EffectiveLimit(q, driver)) + offset;
      && ParseOrderBy(tail) == Got(q.orders, paging)
      && ParseCount(paging, KwLimit) == Got(EffectiveLimit(q, driver), offset)
      && ParseCount(offset, KwOffset) == Got(q.offset, [])
  {
    var offset := CountSql(KwOffset, q.offset);
    CountParses(KwLimit, EffectiveLimit(q, driver), offset);
    CountParses(KwOffset, q.offset, []);
    assert offset + [] == offset;
    OrderByParses(q.orders, CountSql(KwLimit, EffectiveLimit(q, driver)) + offset);
  }

  // A statement parses when its parts do.

  lemma UpdateBodyReads(table: string, body: seq<Token>, sets: seq<(string, Value)>, after: seq<Token>, where: Expr,
    driver: Driver)
    requires ParseSets(body) == Got(sets, after) && ParseWhere(after) == Got(where, [])
    ensures ParseUpdate([Name(table), KwSet] + body, driver)
      == if ReadsSets(sets, driver) then Some(Statement.Update(table, sets, where)) else None
  {
    assert ([Name(table), KwSet] + body)[2..] == body;
  }

  lemma UpdateReads(table: string, body: seq<Token>, driver: Driver)
    ensures Parse([KwUpdate, Name(table), KwSet] + body, driver) == ParseUpdate([Name(table), KwSet] + body, driver)
  {
    assert ([KwUpdate, Name(table), KwSet] + body)[1..] == [Name(table), KwSet] + body;
  }

  lemma DeleteBodyReads(table: string, body: seq<Token>, where: Expr)
    requires ParseWhere(body) == Got(where, [])
    ensures ParseDelete([KwFrom, Name(table)] + body) == Some(Statement.Delete(table, where))
  {
    assert ([KwFrom, Name(table)] + body)[2..] == body;
  }

  lemma DeleteReads(table: string, body: seq<Token>, driver: Driver)
    ensures Parse([KwDelete, KwFrom, Name(table)] + body, driver) == ParseDelete([KwFrom, Name(table)] + body)
  {
    assert ([KwDelete, KwFrom, Name(table)] + body)[1..] == [KwFrom, Name(table)] + body;
  }

  lemma SelectBodyReads(body: seq<Token>, items: seq<string>, table: string, t1: seq<Token>, joins: seq<JoinOn>,
    t2: seq<Token>, where: Expr, t3: seq<Token>, driver: Driver)
    requires ParseItems(body) == Got(items, [KwFrom, Name(table)] + t1)
    requires ParseJoins(t1) == Got(joins, t2) && ParseWhere(t2) == Got(where, t3)
    ensures ParseSelect(body, driver) == ParsePage(Select(items, table, joins, where, [], None, None), t3, driver)
  {
    assert ([KwFrom, Name(table)] + t1)[2..] == t1;
  }

  lemma SelectReads(body: seq<Token>, driver: Driver)
    ensures Parse([KwSelect] + body, driver) == ParseSelect(body, driver)
  {
    assert ([KwSelect] + body)[1..] == body;
  }

  // Each driver is written its own placeholders.

  lemma MarkSpeaks(driver: Driver, index: nat)
    ensures Speaks([Mark(ByDriver(driver), index)], driver)
  {
  }

  lemma SpeaksConcat(a: seq<Token>, b: seq<Token>, driver: Driver)
    requires Speaks(a, driver) && Speaks(b, driver)
    ensures Speaks(a + b, driver)
  {
  }

  lemma PlainSpeaks(ts: seq<Token>, driver: Driver)
    requires forall i | 0 <= i < |ts| :: !IsPlaceholder(ts[i])
    ensures Speaks(ts, driver)
  {
  }

  lemma {:induction false} MarkListSpeaks(driver: Driver, index: nat, count: nat)
    ensures Speaks(MarkList(ByDriver(driver), index, count), driver)
    decreases count
  {
    if count > 1 {
      MarkListSpeaks(driver, index + 1, count - 1);
      SpeaksConcat([Mark(ByDriver(driver), index), Comma], MarkList(ByDriver(driver), index + 1, count - 1), driver);
    }
  }

  lemma {:induction false} SeparatedSpeaks(parts: seq<seq<Token>>, separator: Token, driver: Driver)
    requires !IsPlaceholder(separator) && forall i | 0 <= i < |parts| :: Speaks(parts[i], driver)
    ensures Speaks(Separated(parts, separator), driver)
  {
    if |parts| > 1 {
      SeparatedSpeaks(parts[1..], separator, driver);
      SpeaksConcat([separator], Separated(parts[1..], separator), driver);
      SpeaksConcat(parts[0], [separator] + Separated(parts[1..], separator), driver);
    }
  }

  lemma {:induction false} ClauseSpeaks(c: Clause, driver: Driver, index: nat)
    requires WellFormed(c)
    ensures Speaks(Render(c, ByDriver(driver), index), driver)
    decreases c, 0
  {
    match c
    case OrGroup(group) =>
      ClausesSpeak(group, driver, index);
      var parts := RenderAll(group, ByDriver(driver), index);
      SeparatedSpeaks(parts, KwOr, driver);
      SpeaksConcat(Separated(parts, KwOr), [RParen], driver);
      SpeaksConcat([LParen], Separated(parts, KwOr) + [RParen], driver);
    case In(column, values) =>
      if values != [] {
        var list := MarkList(ByDriver(driver), index, |values|);
        MarkListSpeaks(driver, index, |values|);
        SpeaksConcat(list, [RParen], driver);
        SpeaksConcat([Name(column), KwIn, LParen], list + [RParen], driver);
      }
    case _ =>
  }

  lemma {:induction false} ClausesSpeak(cs: seq<Clause>, driver: Driver, index: nat)
    requires AllWellFormed(cs)
    ensures forall i | 0 <= i < |RenderAll(cs, ByDriver(driver), index)| ::
      Speaks(RenderAll(cs, ByDriver(driver), index)[i], driver)
    decreases cs, 0
  {
    if cs != [] {
      ClauseSpeaks(cs[0], driver, index);
      ClausesSpeak(cs[1..], driver, index + |Args(cs[0])|);
    }
  }

  lemma WhereSpeaks(cs: seq<Clause>, driver: Driver, index: nat)
    requires AllWellFormed(cs)
    ensures Speaks(WhereSql(cs, ByDriver(driver), index), driver)
  {
    var parts := RenderAll(cs, ByDriver(driver), index);
    ClausesSpeak(cs, driver, index);
    SeparatedSpeaks(parts, KwAnd, driver);
    SpeaksConcat([KwWhere], Separated(parts, KwAnd), driver);
  }

  lemma {:induction false} SetsSpeak(sets: seq<(string, Value)>, driver: Driver, index: nat)
    ensures Speaks(SetsSql(sets, ByDriver(driver), index), driver)
  {
    if |sets| > 1 {
      var first := [Name(sets[0].0), Sign(Eq), Mark(ByDriver(driver), index)];
      var more := SetsSql(sets[1..], ByDriver(driver), index + 1);
      SetsSpeak(sets[1..], driver, index + 1);
      SpeaksConcat([Comma], more, driver);
      SpeaksConcat(first, [Comma] + more, driver);
    }
  }

  lemma UpdateSpeaks(m: Model, sets: seq<(string, Value)>, cs: seq<Clause>, driver: Driver)
    requires AllWellFormed(cs)
    ensures Speaks(UpdateSql(m, sets, cs, ByDriver(driver)), driver)
  {
    var values, where := SetsSql(sets, ByDriver(driver), 1), WhereSql(cs, ByDriver(driver), |sets| + 1);
    SetsSpeak(sets, driver, 1);
    WhereSpeaks(cs, driver, |sets| + 1);
    SpeaksConcat(values, where, driver);
    SpeaksConcat([KwUpdate, Name(m.table), KwSet], values + where, driver);
  }

  lemma DeleteSpeaks(m: Model, cs: seq<Clause>, driver: Driver)
    requires AllWellFormed(cs)
    ensures Speaks(DeleteSql(m, cs, ByDriver(driver)), driver)
  {
    WhereSpeaks(cs, driver, 1);
    SpeaksConcat([KwDelete, KwFrom, Name(m.table)], WhereSql(cs, ByDriver(driver), 1), driver);
  }

  lemma SelectSpeaks(items: seq<string>, m: Model, joins: seq<JoinOn>, cs: seq<Clause>, driver: Driver,
    tail: seq<Token>)
    requires AllWellFormed(cs) && forall i | 0 <= i < |tail| :: !IsPlaceholder(tail[i])
    ensures Speaks(SelectSql(items, m, joins, cs, ByDriver(driver), tail), driver)
  {
    var where := WhereSql(cs, ByDriver(driver), 1) + tail;
    WhereSpeaks(cs, driver, 1);
    SpeaksConcat(WhereSql(cs, ByDriver(driver), 1), tail, driver);
    JoinsHoldNoPlaceholder(joins);
    SpeaksConcat(JoinsSql(joins), where, driver);
    SpeaksConcat([KwFrom, Name(m.table)], JoinsSql(joins) + where, driver);
    ItemsHoldNoPlaceholder(items);
    SpeaksConcat(ItemsSql(items), [KwFrom, Name(m.table)] + (JoinsSql(joins) + where), driver);
    SpeaksConcat([KwSelect], ItemsSql(items) + ([KwFrom, Name(m.table)] + (JoinsSql(joins) + where)), driver);
  }

  /** The rendered text of a statement and its arguments, filled in: every
      argument is named once, in order, and none is missing. */
  predicate EveryArgumentOnce(p: Prepared) {
    && CountPlaceholders(p.sql) == |p.args|
    && References(p.sql, 0) == Range(0, |p.args|)
  }

  /** What `driver`'s database runs, if it reads the text at all. */
  function Executed(p: Prepared, driver: Driver): Option<Statement> {
    if Speaks(p.sql, driver) then Parse(Resolve(p.sql, p.args, 0), driver) else None
  }

  lemma ExecutedIsParsed(p: Prepared, filled: seq<Token>, driver: Driver)
    requires Speaks(p.sql, driver) && Fills(p.sql, filled, p.args, 0, |p.args|)
    ensures Executed(p, driver) == Parse(filled, driver) && EveryArgumentOnce(p)
  {
  }

  /** Keeps exactly the rows every clause holds for. */
  ghost predicate Keeps(where: Expr, cs: seq<Clause>) {
    forall row :: Eval(where, row) == AllHold(cs, row)
  }

  lemma WhereTreeKeeps(cs: seq<Clause>)
    requires AllWellFormed(cs)
    ensures Keeps(WhereTree(cs), cs)
  {
    forall row ensures Eval(WhereTree(cs), row) == AllHold(cs, row) {
      WhereTreeMeansConjunction(cs, row);
    }
  }

  lemma SuppliedBehind(front: seq<Value>, values: seq<Value>)
    ensures Supplied(front + values, |front| + 1, values) && Supplied(front + values, 1, front)
  {
  }

  lemma UpdateBodyFills(sets: seq<(string, Value)>, cs: seq<Clause>, driver: Driver)
    requires AllWellFormed(cs)
    ensures var args := SetArgs(sets) + AllArgs(cs); var next := |sets| + 1;
      Fills(SetsSql(sets, ByDriver(driver), 1) + WhereSql(cs, ByDriver(driver), next),
            SetsSql(sets, ByArgument(args), 1) + WhereSql(cs, ByArgument(args), next), args, 0, |args|)
  {
    var args, next := SetArgs(sets) + AllArgs(cs), |sets| + 1;
    FillsSets(sets, driver, args, 1);
    FillsWhere(cs, driver, args, next);
    FillsConcat(SetsSql(sets, ByDriver(driver), 1), SetsSql(sets, ByArgument(args), 1), |sets|,
      WhereSql(cs, ByDriver(driver), next), WhereSql(cs, ByArgument(args), next), |AllArgs(cs)|, args, 0);
  }

  lemma UpdateFills(m: Model, sets: seq<(string, Value)>, cs: seq<Clause>, driver: Driver)
    requires AllWellFormed(cs)
    ensures var args := SetArgs(sets) + AllArgs(cs);
      Fills(UpdateSql(m, sets, cs, ByDriver(driver)), UpdateSql(m, sets, cs, ByArgument(args)), args, 0, |args|)
  {
    var args, next := SetArgs(sets) + AllArgs(cs), |sets| + 1;
    UpdateBodyFills(sets, cs, driver);
    FillsBehind([KwUpdate, Name(m.table), KwSet], SetsSql(sets, ByDriver(driver), 1)
        + WhereSql(cs, ByDriver(driver), next),
      SetsSql(sets, ByArgument(args), 1) + WhereSql(cs, ByArgument(args), next), |args|, args, 0);
  }

  lemma WhereParsesAlone(cs: seq<Clause>, args: seq<Value>, index: nat)
    requires AllWellFormed(cs) && Supplied(args, index, AllArgs(cs))
    ensures ParseWhere(WhereSql(cs, ByArgument(args), index)) == Got(WhereTree(cs), [])
    ensures !At(WhereSql(cs, ByArgument(args), index), Comma)
  {
    WhereParses(cs, args, index, []);
    assert WhereSql(cs, ByArgument(args), index) + [] == WhereSql(cs, ByArgument(args), index);
  }

  /** What is read of an `UPDATE`'s text. */
  function UpdateRead(m: Model, sets: seq<(string, Value)>, cs: seq<Clause>, driver: Driver): Option<Statement> {
    if ReadsSets(Assignments(sets), driver) then
      Some(Statement.Update(m.table, Assignments(sets), WhereTree(cs)))
    else None
  }

  // Nothing recurses here; Dafny's own induction would only add assumptions.
  lemma {:induction false} UpdateSqlReads(m: Model, sets: seq<(string, Value)>, cs: seq<Clause>, args: seq<Value>,
    driver: Driver)
    requires ParseSets(SetsSql(sets, ByArgument(args), 1) + WhereSql(cs, ByArgument(args), |sets| + 1))
      == Got(Assignments(sets), WhereSql(cs, ByArgument(args), |sets| + 1))
    requires ParseWhere(WhereSql(cs, ByArgument(args), |sets| + 1)) == Got(WhereTree(cs), [])
    ensures Parse(UpdateSql(m, sets, cs, ByArgument(args)), driver) == UpdateRead(m, sets, cs, driver)
  {
    var where := WhereSql(cs, ByArgument(args), |sets| + 1);
    var body := SetsSql(sets, ByArgument(args), 1) + where;
    UpdateBodyReads(m.table, body, Assignments(sets), where, WhereTree(cs), driver);
    UpdateReads(m.table, body, driver);
  }

  lemma UpdatePartsParse(m: Model, sets: seq<(string, Value)>, cs: seq<Clause>, args: seq<Value>, driver: Driver)
    requires AllWellFormed(cs) && sets != []
    requires Supplied(args, 1, SetArgs(sets)) && Supplied(args, |sets| + 1, AllArgs(cs))
    ensures Parse(UpdateSql(m, sets, cs, ByArgument(args)), driver) == UpdateRead(m, sets, cs, driver)
  {
    WhereParsesAlone(cs, args, |sets| + 1);
    SetsParse(sets, args, 1, WhereSql(cs, ByArgument(args), |sets| + 1));
    UpdateSqlReads(m, sets, cs, args, driver);
  }

  lemma UpdateParses(m: Model, sets: seq<(string, Value)>, cs: seq<Clause>, driver: Driver)
    requires AllWellFormed(cs) && sets != []
    ensures Parse(UpdateSql(m, sets, cs, ByArgument(SetArgs(sets) + AllArgs(cs))), driver)
      == UpdateRead(m, sets, cs, driver)
  {
    SuppliedBehind(SetArgs(sets), AllArgs(cs));
    UpdatePartsParse(m, sets, cs, SetArgs(sets) + AllArgs(cs), driver);
  }

  /** The columns set are named without their table, or the database is MySQL. */
  predicate SetsColumnsOf(sets: seq<(string, Value)>, driver: Driver) {
    driver.MySql? || forall i | 0 <= i < |sets| :: '.' !in sets[i].0
  }

  lemma SetsAreRead(sets: seq<(string, Value)>, driver: Driver)
    ensures ReadsSets(Assignments(sets), driver) <==> SetsColumnsOf(sets, driver)
  {
    assert forall i | 0 <= i < |sets| :: Assignments(sets)[i].0 == sets[i].0;
  }

  function UpdatePrepared(m: Model, sets: seq<(string, Value)>, cs: seq<Clause>, driver: Driver): Prepared {
    Prepared(UpdateSql(m, sets, cs, ByDriver(driver)), SetArgs(sets) + AllArgs(cs))
  }

  /** An `UPDATE`'s SET values take the first placeholders and its constraints
      the rest. It is read exactly when the columns set are bare or the database
      is MySQL, and then sets exactly those columns on exactly those rows. */
  lemma UpdateMeansQuery(m: Model, sets: seq<(string, Value)>, cs: seq<Clause>, driver: Driver)
    requires AllWellFormed(cs) && sets != []
    ensures
      var p := UpdatePrepared(m, sets, cs, driver);
      var run := Executed(p, driver);
      && EveryArgumentOnce(p)
      && (run.Some? <==> SetsColumnsOf(sets, driver))
      && (run.Some? ==>
            && run.value.Update? && run.value.table == m.table && run.value.sets == Assignments(sets)
            && Keeps(run.value.where, cs))
  {
    var p := UpdatePrepared(m, sets, cs, driver);
    UpdateSpeaks(m, sets, cs, driver);
    UpdateFills(m, sets, cs, driver);
    ExecutedIsParsed(p, UpdateSql(m, sets, cs, ByArgument(p.args)), driver);
    UpdateParses(m, sets, cs, driver);
    SetsAreRead(sets, driver);
    WhereTreeKeeps(cs);
  }

  function DeletePrepared(m: Model, cs: seq<Clause>, driver: Driver): Prepared {
    Prepared(DeleteSql(m, cs, ByDriver(driver)), AllArgs(cs))
  }

  lemma DeleteFills(m: Model, cs: seq<Clause>, driver: Driver)
    requires AllWellFormed(cs)
    ensures var args := AllArgs(cs);
      Fills(DeleteSql(m, cs, ByDriver(driver)), DeleteSql(m, cs, ByArgument(args)), args, 0, |args|)
  {
    var args := AllArgs(cs);
    FillsWhere(cs, driver, args, 1);
    FillsBehind([KwDelete, KwFrom, Name(m.table)], WhereSql(cs, ByDriver(driver), 1), WhereSql(cs, ByArgument(args), 1),
      |args|, args, 0);
  }

  lemma DeleteMeansQuery(m: Model, cs: seq<Clause>, driver: Driver)
    requires AllWellFormed(cs)
    ensures
      var p := DeletePrepared(m, cs, driver);
      var run := Executed(p, driver);
      && EveryArgumentOnce(p)
      && run.Some? && run.value.Delete? && run.value.table == m.table && Keeps(run.value.where, cs)
  {
    var args := AllArgs(cs);
    DeleteSpeaks(m, cs, driver);
    DeleteFills(m, cs, driver);
    ExecutedIsParsed(DeletePrepared(m, cs, driver), DeleteSql(m, cs, ByArgument(args)), driver);
    WhereParsesAlone(cs, args, 1);
    DeleteBodyReads(m.table, WhereSql(cs, ByArgument(args), 1), WhereTree(cs));
    DeleteReads(m.table, WhereSql(cs, ByArgument(args), 1), driver);
    WhereTreeKeeps(cs);
  }

  lemma SelectFills(items: seq<string>, m: Model, joins: seq<JoinOn>, cs: seq<Clause>, driver: Driver, tail: seq<Token>)
    requires AllWellFormed(cs) && forall i | 0 <= i < |tail| :: !IsPlaceholder(tail[i])
    ensures Fills(SelectSql(items, m, joins, cs, ByDriver(driver), tail),
                  SelectSql(items, m, joins, cs, ByArgument(AllArgs(cs)), tail), AllArgs(cs), 0, |AllArgs(cs)|)
  {
    var args := AllArgs(cs);
    var where, where' := WhereSql(cs, ByDriver(driver), 1), WhereSql(cs, ByArgument(args), 1);
    var n := |args|;
    FillsWhere(cs, driver, args, 1);
    FillsPlain(tail, args, n);
    FillsConcat(where, where', n, tail, tail, 0, args, 0);
    JoinsHoldNoPlaceholder(joins);
    FillsBehind(JoinsSql(joins), where + tail, where' + tail, n, args, 0);
    FillsBehind([KwFrom, Name(m.table)], JoinsSql(joins) + (where + tail), JoinsSql(joins) + (where' + tail), n,
        args, 0);
    ItemsHoldNoPlaceholder(items);
    var rest, rest' := [KwFrom, Name(m.table)] + (JoinsSql(joins) + (where + tail)), [KwFrom,
        Name(m.table)] + (JoinsSql(joins) + (where' + tail));
    FillsBehind(ItemsSql(items), rest, rest', n, args, 0);
    FillsBehind([KwSelect], ItemsSql(items) + rest, ItemsSql(items) + rest', n, args, 0);
  }

  lemma {:induction false} JoinsHoldNoPlaceholder(joins: seq<JoinOn>)
    ensures forall i | 0 <= i < |JoinsSql(joins)| :: !IsPlaceholder(JoinsSql(joins)[i])
  {
    if joins != [] {
      JoinsHoldNoPlaceholder(joins[1..]);
    }
  }

  lemma {:induction false} ItemsHoldNoPlaceholder(items: seq<string>)
    ensures forall i | 0 <= i < |ItemsSql(items)| :: !IsPlaceholder(ItemsSql(items)[i])
  {
    if |items| > 1 {
      ItemsHoldNoPlaceholder(items[1..]);
    }
  }

  lemma {:induction false} OrdersHoldNoPlaceholder(orders: seq<(string, bool)>)
    ensures forall i | 0 <= i < |OrdersSql(orders)| :: !IsPlaceholder(OrdersSql(orders)[i])
  {
    if |orders| > 1 {
      OrdersHoldNoPlaceholder(orders[1..]);
    }
  }

  /** The database has a page such as the query's: SQLite has no `OFFSET`
      without a `LIMIT`, and is given none; the others have no count below
      zero. */
  predicate HasPage(q: Query, driver: Driver) {
    if driver.Sqlite? then q.offset.Some? ==> q.limit.Some?
    else !BelowZero(q.limit) && !BelowZero(q.offset)
  }

  /** The limit that MySQL is given beside an `OFFSET` alone is none: the page
      is the query's, the rows from its offset on, its limit of them if so many
      are left. */
  lemma PageIsAsAsked<T>(rows: seq<T>, q: Query, driver: Driver)
    requires |rows| <= MYSQL_NO_LIMIT
    ensures
      var page := Page(rows, EffectiveLimit(q, driver), q.offset);
      var skipped := if q.offset.None? || q.offset.value < 0 then 0 else q.offset.value;
      && page == Page(rows, q.limit, q.offset)
      && (forall i | 0 <= i < |page| :: skipped + i < |rows| && page[i] == rows[skipped + i])
      && (q.limit.Some? && q.limit.value >= 0 ==> |page| <= q.limit.value)
      && (q.limit.None? || q.limit.value < 0 || |page| < q.limit.value ==>
            |page| == if skipped <= |rows| then |rows| - skipped else 0)
  {
  }

  /** `select` with the query's order and page, if the database has it. */
  function Paged(select: Statement, q: Query, driver: Driver): Option<Statement>
    requires select.Select?
  {
    if HasPage(q, driver) then
      Some(select.(orders := q.orders, limit := EffectiveLimit(q, driver), offset := q.offset))
    else None
  }

  lemma PageReads(select: Statement, ts: seq<Token>, orders: seq<(string, bool)>, t1: seq<Token>, limit: Option<int>,
    t2: seq<Token>, offset: Option<int>, driver: Driver)
    requires select.Select? && ParseOrderBy(ts) == Got(orders, t1)
    requires ParseCount(t1, KwLimit) == Got(limit, t2) && ParseCount(t2, KwOffset) == Got(offset, [])
    ensures ParsePage(select, ts, driver)
      == if ReadsPage(limit, offset, driver) then Some(select.(orders := orders, limit := limit, offset := offset))
         else None
  {
  }

  lemma PageIsRead(q: Query, driver: Driver)
    ensures ReadsPage(EffectiveLimit(q, driver), q.offset, driver) <==> HasPage(q, driver)
  {
  }

  lemma PageParses(select: Statement, q: Query, driver: Driver)
    requires select.Select?
    ensures ParsePage(select, TailSql(q, driver), driver) == Paged(select, q, driver)
  {
    var offset := CountSql(KwOffset, q.offset);
    var paging := CountSql(KwLimit, EffectiveLimit(q, driver)) + offset;
    TailParses(q, driver);
    PageReads(select, TailSql(q, driver), q.orders, paging, EffectiveLimit(q, driver), offset, q.offset, driver);
    PageIsRead(q, driver);
  }

  lemma SelectParses(items: seq<string>, m: Model, joins: seq<JoinOn>, cs: seq<Clause>, q: Query, driver: Driver)
    requires AllWellFormed(cs) && items != []
    ensures Parse(SelectSql(items, m, joins, cs, ByArgument(AllArgs(cs)), TailSql(q, driver)), driver)
      == Paged(Select(items, m.table, joins, WhereTree(cs), [], None, None), q, driver)
  {
    var args, tail := AllArgs(cs), TailSql(q, driver);
    var where := WhereSql(cs, ByArgument(args), 1) + tail;
    var body := ItemsSql(items) + ([KwFrom, Name(m.table)] + (JoinsSql(joins) + where));
    TailStarts(q, driver);
    WhereParses(cs, args, 1, tail);
    PageParses(Select(items, m.table, joins, WhereTree(cs), [], None, None), q, driver);
    JoinsParse(joins, where);
    ItemsParse(items, [KwFrom, Name(m.table)] + (JoinsSql(joins) + where));
    SelectReads(body, driver);
    SelectBodyReads(body, items, m.table, JoinsSql(joins) + where, joins, where, WhereTree(cs), tail, driver);
  }

  function SelectPrepared(items: seq<string>, m: Model, joins: seq<JoinOn>, cs: seq<Clause>, q: Query, driver: Driver)
    : Prepared
  {
    Prepared(SelectSql(items, m, joins, cs, ByDriver(driver), TailSql(q, driver)), AllArgs(cs))
  }

  lemma TailHoldsNoPlaceholder(q: Query, driver: Driver)
    ensures forall i | 0 <= i < |TailSql(q, driver)| :: !IsPlaceholder(TailSql(q, driver)[i])
  {
    OrdersHoldNoPlaceholder(q.orders);
  }

  /** A `SELECT` is read exactly when the database has its page, and then reads
      the query's rows, in its order, no more than it asked for. */
  lemma SelectMeansQuery(items: seq<string>, m: Model, joins: seq<JoinOn>, cs: seq<Clause>, q: Query, driver: Driver)
    requires AllWellFormed(cs) && items != []
    ensures
      var p := SelectPrepared(items, m, joins, cs, q, driver);
      var run := Executed(p, driver);
      && EveryArgumentOnce(p)
      && (run.Some? <==> HasPage(q, driver))
      && (run.Some? ==>
            && run.value.Select? && run.value.items == items
            && run.value.table == m.table && run.value.joins == joins && Keeps(run.value.where, cs)
            && run.value.orders == q.orders
            && run.value.limit == EffectiveLimit(q, driver) && run.value.offset == q.offset)
  {
    var p, tail := SelectPrepared(items, m, joins, cs, q, driver), TailSql(q, driver);
    TailHoldsNoPlaceholder(q, driver);
    SelectSpeaks(items, m, joins, cs, driver, tail);
    SelectFills(items, m, joins, cs, driver, tail);
    ExecutedIsParsed(p, SelectSql(items, m, joins, cs, ByArgument(p.args), tail), driver);
    SelectParses(items, m, joins, cs, q, driver);
    WhereTreeKeeps(cs);
  }

  /** An aggregate is over the query's rows, whatever its order and paging. */
  lemma AggregateMeansQuery(item: string, m: Model, q: Query, driver: Driver)
    requires AllWellFormed(ScopedClauses(m, q))
    ensures
      var p := Prepared(SelectSql([item], m, q.joins, ScopedClauses(m, q), ByDriver(driver), []),
          AllArgs(ScopedClauses(m, q)));
      var run := Executed(p, driver);
      && EveryArgumentOnce(p)
      && run.Some? && run.value.Select? && run.value.items == [item]
      && run.value.table == m.table && run.value.joins == q.joins && Keeps(run.value.where, ScopedClauses(m, q))
      && run.value.orders == [] && run.value.limit.None? && run.value.offset.None?
  {
    var bare := q.(orders := [], limit := None, offset := None);
    assert TailSql(bare, driver) == [];
    SelectMeansQuery([item], m, q.joins, ScopedClauses(m, q), bare, driver);
  }

  // -- every query a program can build ------------------------------------------

  lemma PushKeepsWellFormed(q: Query, c: Clause)
    requires AllWellFormed(q.clauses) && WellFormed(c)
    ensures AllWellFormed(q.clauses + [c])
  {
  }

  lemma ApplyKeepsWellFormed(q: Query, call: Call)
    requires AllWellFormed(q.clauses)
    ensures AllWellFormed(Apply(q, call).clauses)
  {
    match call
    case OrWhereEq(pairs) =>
      if pairs != [] {
        PushKeepsWellFormed(q, OrGroup(Equalities(pairs)));
      }
    case OrWhereLike(columns, pattern) =>
      if columns != [] {
        PushKeepsWellFormed(q, OrGroup(Likes(columns, pattern)));
      }
    case _ =>
  }

  lemma {:induction false} BuiltIsWellFormed(calls: seq<Call>)
    ensures AllWellFormed(Built(calls).clauses)
  {
    if calls != [] {
      BuiltIsWellFormed(calls[..|calls| - 1]);
      ApplyKeepsWellFormed(Built(calls[..|calls| - 1]), calls[|calls| - 1]);
    }
  }

  lemma ScopesAreWellFormed(m: Model, scope: seq<Call>, calls: seq<Call>)
    requires m.globalScope == Built(scope)
    ensures AllWellFormed(ScopedClauses(m, Built(calls)))
  {
    BuiltIsWellFormed(scope);
    BuiltIsWellFormed(calls);
  }

  /** `AND` is order-blind enough to say it part by part: the constraints hold
      together exactly when the soft-delete scope, the global scope and the
      query's own clauses each do. */
  lemma {:induction false} AllHoldConcat(a: seq<Clause>, b: seq<Clause>, row: Row)
    ensures AllHold(a + b, row) == Both(AllHold(a, row), AllHold(b, row))
  {
    if a == [] {
      assert a + b == b;
    } else {
      assert (a + b)[1..] == a[1..] + b;
      AllHoldConcat(a[1..], b, row);
    }
  }

  lemma {:induction false} AllHoldIsEvery(cs: seq<Clause>, row: Row)
    ensures AllHold(cs, row).Yes? <==> forall i | 0 <= i < |cs| :: Holds(cs[i], row).Yes?
  {
    if cs != [] {
      AllHoldIsEvery(cs[1..], row);
      assert cs == [cs[0]] + cs[1..];
    }
  }

  /** The soft-delete scope and every applicable clause, said of a row. */
  ghost predicate Wanted(m: Model, q: Query, row: Row) {
    && (m.softDelete.Some? && q.onlyTrashed ==> !row.isNull(m.softDelete.value))
    && (m.softDelete.Some? && !q.onlyTrashed && !q.withTrashed ==> row.isNull(m.softDelete.value))
    && (GlobalScopeApplies(m, q) ==> forall i | 0 <= i < |m.globalScope.clauses| ::
        Holds(m.globalScope.clauses[i], row).Yes?)
    && (forall i | 0 <= i < |q.clauses| :: Holds(q.clauses[i], row).Yes?)
  }

  lemma SoftDeleteScopeHolds(m: Model, q: Query, row: Row)
    ensures AllHold(SoftDeleteScope(m, q), row).Yes? <==>
      && (m.softDelete.Some? && q.onlyTrashed ==> !row.isNull(m.softDelete.value))
      && (m.softDelete.Some? && !q.onlyTrashed && !q.withTrashed ==> row.isNull(m.softDelete.value))
  {
    AllHoldIsEvery(SoftDeleteScope(m, q), row);
    if m.softDelete.Some? {
      var column := m.softDelete.value;
      assert |TrashedSql(column, true)| != |TrashedSql(column, false)|;
    }
  }

  /** The constraints keep exactly the wanted rows. */
  lemma ScopedClausesKeepWanted(m: Model, q: Query, row: Row)
    ensures AllHold(ScopedClauses(m, q), row).Yes? <==> Wanted(m, q, row)
  {
    var soft, global := SoftDeleteScope(m, q), if GlobalScopeApplies(m, q) then m.globalScope.clauses else [];
    AllHoldConcat(soft + global, q.clauses, row);
    AllHoldConcat(soft, global, row);
    SoftDeleteScopeHolds(m, q, row);
    AllHoldIsEvery(global, row);
    AllHoldIsEvery(q.clauses, row);
  }

  lemma KeptAreWanted(m: Model, q: Query, where: Expr, row: Row)
    requires Keeps(where, ScopedClauses(m, q))
    ensures Eval(where, row).Yes? <==> Wanted(m, q, row)
  {
    ScopedClausesKeepWanted(m, q, row);
  }

  function QueryPrepared(m: Model, q: Query, driver: Driver, key: Option<string>): Prepared {
    SelectPrepared(SelectItems(m, key), m, q.joins, ScopedClauses(m, q), q, driver)
  }

  lemma WantedIsAsked(m: Model, scope: seq<Call>, calls: seq<Call>, row: Row)
    requires m.globalScope == Built(scope) && QueryCalls.Sound(m, scope, calls)
    ensures Wanted(m, Built(calls), row) <==> QueryCalls.Asked(m, scope, calls, row)
  {
    QueryCalls.BuiltAsksTheRest(calls);
    QueryCalls.BuiltWants(calls, row);
    if m.hasGlobalScope && WithoutGlobalScopes !in calls {
      QueryCalls.BuiltWants(scope, row);
    }
  }

  lemma PageIsAsked(calls: seq<Call>, driver: Driver)
    requires QueryCalls.NamesPlain(calls)
    ensures HasPage(Built(calls), driver) <==> QueryCalls.PageAsked(calls, driver)
  {
    QueryCalls.BuiltAsksTheRest(calls);
    QueryCalls.AskedIsAtLeastZero(calls);
  }

  /** The rows of `run` are those asked for. */
  predicate KeepsAsked(run: Statement, m: Model, scope: seq<Call>, calls: seq<Call>, row: Row) {
    Eval(run.where, row).Yes? <==> QueryCalls.Asked(m, scope, calls, row)
  }

  /** `run` reads the columns, joins, order and page that the calls ask for. */
  predicate ReadsAsked(run: Statement, m: Model, calls: seq<Call>, driver: Driver, key: Option<string>) {
    && run.Select? && run.table == m.table && QueryCalls.ItemsAsked(run.items, m, key)
    && run.joins == QueryCalls.JoinsAsked(calls) && run.orders == QueryCalls.OrdersAsked(calls)
    && run.offset == QueryCalls.OffsetAsked(calls)
    && run.limit == (if driver.MySql? && run.offset.Some? && QueryCalls.LimitAsked(calls).None? then
                       Some(18446744073709551615) else QueryCalls.LimitAsked(calls))
  }

  lemma BuiltReadsAsked(m: Model, scope: seq<Call>, calls: seq<Call>, driver: Driver, key: Option<string>, row: Row)
    requires m.globalScope == Built(scope) && m.columns != [] && QueryCalls.Sound(m, scope, calls)
    ensures
      var run := Executed(QueryPrepared(m, Built(calls), driver, key), driver);
      && (run.Some? <==> QueryCalls.PageAsked(calls, driver))
      && (run.Some? ==> ReadsAsked(run.value, m, calls, driver, key) && KeepsAsked(run.value, m, scope, calls, row))
  {
    var q := Built(calls);
    ScopesAreWellFormed(m, scope, calls);
    SelectMeansQuery(SelectItems(m, key), m, q.joins, ScopedClauses(m, q), q, driver);
    PageIsAsked(calls, driver);
    QueryCalls.BuiltAsksTheRest(calls);
    QueryCalls.ItemsAreAsked(m, key);
    var run := Executed(QueryPrepared(m, q, driver, key), driver);
    if run.Some? {
      KeptAreWanted(m, q, run.value.where, row);
      WantedIsAsked(m, scope, calls, row);
    }
  }

  /** The whole of it, for any program's calls, said of the calls alone. They
      are refused exactly for a wrong name. Otherwise every argument is named
      once, in order; the database reads the text exactly when it has the page;
      and it reads the columns, joins, order and page asked for, of exactly the
      rows that are trashed or not as asked and that every call, of the program
      and of a scope not waived, wants. */
  lemma QueryRunsAsBuilt(m: Model, scope: seq<Call>, calls: seq<Call>, driver: Driver, key: Option<string>, row: Row)
    requires m.globalScope == Built(scope) && m.columns != []
    ensures
      var p := QueryPrepared(m, Built(calls), driver, key);
      var run := Executed(p, driver);
      && (Problem(m, Built(calls)).None? <==> QueryCalls.Sound(m, scope, calls))
      && EveryArgumentOnce(p)
      && (QueryCalls.Sound(m, scope, calls) ==>
            && (run.Some? <==> QueryCalls.PageAsked(calls, driver))
            && (run.Some? ==>
                  ReadsAsked(run.value, m, calls, driver, key) && KeepsAsked(run.value, m, scope, calls, row)))
  {
    var q := Built(calls);
    ScopesAreWellFormed(m, scope, calls);
    SelectMeansQuery(SelectItems(m, key), m, q.joins, ScopedClauses(m, q), q, driver);
    QueryCalls.RefusedExactly(m, scope, calls);
    if QueryCalls.Sound(m, scope, calls) {
      BuiltReadsAsked(m, scope, calls, driver, key, row);
    }
  }

  lemma BuiltAfter(calls: seq<Call>, call: Call)
    ensures Built(calls + [call]) == Apply(Built(calls), call)
  {
    assert (calls + [call])[..|calls|] == calls;
  }

  lemma WithoutPageIsRefused(m: Model, q: Query, driver: Driver, key: Option<string>)
    requires AllWellFormed(ScopedClauses(m, q)) && m.columns != [] && !HasPage(q, driver)
    ensures Executed(QueryPrepared(m, q, driver, key), driver).None?
  {
    SelectMeansQuery(SelectItems(m, key), m, q.joins, ScopedClauses(m, q), q, driver);
  }

  /** `.offset(n)` where nothing set a limit is no page SQLite has. */
  lemma OffsetAloneIsRefused(m: Model, scope: seq<Call>, calls: seq<Call>, n: int, driver: Driver, key: Option<string>)
    requires m.globalScope == Built(scope) && m.columns != [] && driver.Sqlite? && Built(calls).limit.None?
    ensures Executed(QueryPrepared(m, Built(calls + [Offset(n)]), driver, key), driver).None?
  {
    BuiltAfter(calls, Offset(n));
    ScopesAreWellFormed(m, scope, calls + [Offset(n)]);
    WithoutPageIsRefused(m, Built(calls + [Offset(n)]), driver, key);
  }

  lemma AssignmentsAreAsked(sets: seq<(string, Value)>)
    ensures QueryCalls.SetsAsked(Assignments(sets), sets)
  {
  }

  /** An `UPDATE` of any program's query: its joins, order and paging are
      dropped, and it sets exactly its columns on exactly the rows asked for. */
  lemma UpdateRunsAsBuilt(m: Model, scope: seq<Call>, calls: seq<Call>, driver: Driver, sets: seq<(string, Value)>,
    row: Row)
    requires m.globalScope == Built(scope) && sets != []
    ensures
      var q := Built(calls);
      var p := UpdatePrepared(m, sets, ScopedClauses(m, q), driver);
      var run := Executed(p, driver);
      && EveryArgumentOnce(p)
      && (run.Some? <==> SetsColumnsOf(sets, driver))
      && (run.Some? ==>
            && run.value.Update? && run.value.table == m.table && QueryCalls.SetsAsked(run.value.sets, sets)
            && (Eval(run.value.where, row).Yes? <==> Wanted(m, q, row))
            && (QueryCalls.Sound(m, scope, calls) ==> KeepsAsked(run.value, m, scope, calls, row)))
  {
    var q := Built(calls);
    ScopesAreWellFormed(m, scope, calls);
    UpdateMeansQuery(m, sets, ScopedClauses(m, q), driver);
    AssignmentsAreAsked(sets);
    var run := Executed(UpdatePrepared(m, sets, ScopedClauses(m, q), driver), driver);
    if run.Some? {
      KeptAreWanted(m, q, run.value.where, row);
      if QueryCalls.Sound(m, scope, calls) {
        WantedIsAsked(m, scope, calls, row);
      }
    }
  }

  /** `update` lets a column through by its table's name and its own, and only
      MySQL reads that. */
  lemma QualifiedSetIsRefused(m: Model, value: Value, cs: seq<Clause>, driver: Driver)
    requires AllWellFormed(cs) && !driver.MySql?
    ensures ValidQualifiedIdent("t.x")
    ensures Executed(UpdatePrepared(m, [("t.x", value)], cs, driver), driver).None?
  {
    var sets := [("t.x", value)];
    assert BeforeDot("t.x") == 1 && "t.x"[..1] == "t" && "t.x"[2..] == "x";
    assert sets[0].0[1] == '.';
    UpdateMeansQuery(m, sets, cs, driver);
  }

  /** A `DELETE` of any program's query: its joins, order and paging are
      dropped, and it removes exactly the rows asked for. */
  lemma DeleteRunsAsBuilt(m: Model, scope: seq<Call>, calls: seq<Call>, driver: Driver, row: Row)
    requires m.globalScope == Built(scope)
    ensures
      var q := Built(calls);
      var p := DeletePrepared(m, ScopedClauses(m, q), driver);
      var run := Executed(p, driver);
      && EveryArgumentOnce(p)
      && run.Some? && run.value.Delete? && run.value.table == m.table
      && (Eval(run.value.where, row).Yes? <==> Wanted(m, q, row))
      && (QueryCalls.Sound(m, scope, calls) ==> KeepsAsked(run.value, m, scope, calls, row))
  {
    var q := Built(calls);
    ScopesAreWellFormed(m, scope, calls);
    DeleteMeansQuery(m, ScopedClauses(m, q), driver);
    var run := Executed(DeletePrepared(m, ScopedClauses(m, q), driver), driver);
    KeptAreWanted(m, q, run.value.where, row);
    if QueryCalls.Sound(m, scope, calls) {
      WantedIsAsked(m, scope, calls, row);
    }
  }

  /** The query without its joins and its paging. */
  function Whole(q: Query): Query {
    q.(joins := [], limit := None, offset := None)
  }

  lemma WholeIsScopedAlike(m: Model, q: Query)
    ensures ScopedClauses(m, Whole(q)) == ScopedClauses(m, q)
    ensures q.joins == [] && q.limit.None? && q.offset.None? <==> Whole(q) == q
  {
  }

  /** An `UPDATE` and a `DELETE` are of exactly the rows that a `SELECT` of the
      query without its joins and paging reads, so of the query's own when it
      has neither, and otherwise of rows its `SELECT` may leave out. */
  lemma WritesAreOfTheRowsRead(m: Model, scope: seq<Call>, calls: seq<Call>, driver: Driver, key: Option<string>,
    sets: seq<(string, Value)>, row: Row)
    requires m.globalScope == Built(scope) && m.columns != [] && sets != [] && SetsColumnsOf(sets, driver)
    ensures
      var q := Built(calls);
      var read := Executed(QueryPrepared(m, Whole(q), driver, key), driver);
      var updated := Executed(UpdatePrepared(m, sets, ScopedClauses(m, q), driver), driver);
      var deleted := Executed(DeletePrepared(m, ScopedClauses(m, q), driver), driver);
      && (q.joins == [] && q.limit.None? && q.offset.None? <==> Whole(q) == q)
      && read.Some? && read.value.Select? && read.value.joins == [] && read.value.limit.None? && read.value.offset.None?
      && updated.Some? && updated.value.Update? && deleted.Some? && deleted.value.Delete?
      && (Eval(updated.value.where, row).Yes? <==> Eval(read.value.where, row).Yes?)
      && (Eval(deleted.value.where, row).Yes? <==> Eval(read.value.where, row).Yes?)
  {
    var q := Built(calls);
    WholeIsScopedAlike(m, q);
    ScopesAreWellFormed(m, scope, calls);
    SelectMeansQuery(SelectItems(m, key), m, [], ScopedClauses(m, q), Whole(q), driver);
    KeptAreWanted(m, q, Executed(QueryPrepared(m, Whole(q), driver, key), driver).value.where, row);
    UpdateRunsAsBuilt(m, scope, calls, driver, sets, row);
    DeleteRunsAsBuilt(m, scope, calls, driver, row);
  }

  /** The guard in `or_where_*` is needed: an empty group is no SQL at all. */
  lemma EmptyGroupDoesNotParse(marks: Marks, index: nat, rest: seq<Token>)
    ensures ParsePrimary(Render(OrGroup([]), marks, index) + rest).Nothing?
  {
    var ts := Render(OrGroup([]), marks, index) + rest;
    assert Render(OrGroup([]), marks, index) == [LParen] + ([] + [RParen]) == [LParen, RParen];
    assert ts[1..] == [RParen] + rest;
    assert ParsePredicate(ts[1..]).Nothing?;
    assert ParsePrimary(ts[1..]).Nothing?;
    assert ParseAnd(ts[1..]).Nothing?;
    assert ParseOr(ts[1..]).Nothing?;
  }
}
