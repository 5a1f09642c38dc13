/**
 The tool loop on the wire: what it does said of the JSON of the responses, as
 they came.
 */
module ToolWire {
  import opened Common
  import opened Json
  import opened ToolLoop

  // -- a response as it came -------------------------------------------------------------

  predicate Is(item: Value, kind: string) {
    At(item, "type") == Str(kind)
  }

  function Content(json: Value): seq<Value> {
    if At(json, "content").Arr? then At(json, "content").items else []
  }

  /** The `tool_use` items, in order. */
  function ToolUses(items: seq<Value>): seq<Value> {
    if items == [] then [] else (if Is(items[0], "tool_use") then [items[0]] else []) + ToolUses(items[1..])
  }

  /** The text of the `text` items, in order. */
  function TextOf(items: seq<Value>): string {
    if items == [] then ""
    else (if Is(items[0], "text") then AsStr(At(items[0], "text")) else "") + TextOf(items[1..])
  }

  /** The caller's type is `code_execution`, followed by anything. */
  ghost predicate FromCode(use: Value) {
    exists version :: AsStr(At(At(use, "caller"), "type")) == "code_execution" + version
  }

  predicate Pauses(json: Value) {
    At(json, "stop_reason") == Str("pause_turn")
  }

  predicate Refuses(json: Value) {
    At(json, "stop_reason") == Str("refusal")
  }

  predicate Succeeds(r: Received) {
    r.Came? && 200 <= r.status < 300 && !Refuses(r.json)
  }

  /** The uses the loop answers: a paused response's are its server's. */
  function UsesIn(r: Received): seq<Value> {
    if r.Came? && !Pauses(r.json) then ToolUses(Content(r.json)) else []
  }

  /** The model took a step: its server paused it, or it used a tool itself. */
  ghost predicate TakesStep(r: Received) {
    Succeeds(r) && (Pauses(r.json) || exists use :: use in UsesIn(r) && !FromCode(use))
  }

  /** Its code alone called tools, so many. */
  ghost function CodeCallsIn(r: Received): nat {
    if Succeeds(r) && !Pauses(r.json) && forall use | use in UsesIn(r) :: FromCode(use) then |UsesIn(r)| else 0
  }

  ghost function StepsBefore(wire: Wire, n: nat): nat {
    if n == 0 then 0 else StepsBefore(wire, n - 1) + if TakesStep(wire.respond(n - 1)) then 1 else 0
  }

  ghost function CodeCallsBefore(wire: Wire, n: nat): nat {
    if n == 0 then 0 else CodeCallsBefore(wire, n - 1) + CodeCallsIn(wire.respond(n - 1))
  }

  function TokensBefore(wire: Wire, n: nat, kind: string): nat {
    if n == 0 then 0
    else
      var r := wire.respond(n - 1);
      TokensBefore(wire, n - 1, kind) + if r.Came? then AsNat(At(At(r.json, "usage"), kind)) else 0
  }

  /** The loop goes on after the k-th response. */
  ghost predicate AsksAgain(wire: Wire, maxSteps: nat, k: nat) {
    var r := wire.respond(k);
    || (TakesStep(r) && StepsBefore(wire, k) < maxSteps)
    || (CodeCallsIn(r) > 0 && CodeCallsBefore(wire, k) + CodeCallsIn(r) <= 500)
  }

  function RefusalIn(json: Value): string {
    var details := At(json, "stop_details");
    if At(details, "explanation").Str? then At(details, "explanation").s
    else if At(details, "category").Str? then At(details, "category").s
    else "declined by the model's safeguards"
  }

  /** What it comes to when it does not. */
  ghost predicate EndsWith(result: Result<Response, Fault>, wire: Wire, maxSteps: nat, n: nat) {
    var r := wire.respond(n);
    if r.NotCame? then result == Err(Lost(r.why))
    else if !(200 <= r.status < 300) then
      var message := At(At(r.json, "error"), "message");
      result == Err(Api(r.status, if message.Str? then message.s else "unknown error"))
    else if Refuses(r.json) then result == Err(Refused(RefusalIn(r.json)))
    else if TakesStep(r) then result == Err(MaxSteps(maxSteps))
    else if CodeCallsIn(r) > 0 then result == Err(TooManyCodeCalls)
    else if TextOf(Content(r.json)) == "" then result == Err(Empty)
    else result == Ok(Response(TextOf(Content(r.json)), TokensBefore(wire, n + 1, "input_tokens"),
                               TokensBefore(wire, n + 1, "output_tokens"), StepsBefore(wire, n)))
  }

  // -- the same, decoded -----------------------------------------------------------------

  lemma FromCodeExactly(use: Value)
    ensures CalledFromCode(use) <==> FromCode(use)
  {
    var caller, code := AsStr(At(At(use, "caller"), "type")), "code_execution";
    if StartsWith(caller, code) {
      assert caller == code + caller[|code|..];
    }
    if version :| caller == code + version {
      assert caller[..|code|] == code;
    }
  }

  /** A decoded use is the item's. */
  ghost predicate IsUse(use: Kind, item: Value) {
    && use.ToolUse? && use.id == AsStr(At(item, "id")) && use.name == AsStr(At(item, "name"))
    && use.input == At(item, "input") && (use.fromCode <==> FromCode(item))
  }

  ghost predicate AreUses(uses: seq<Kind>, items: seq<Value>) {
    |uses| == |items| && forall i | 0 <= i < |uses| :: IsUse(uses[i], items[i])
  }

  function Raws(content: seq<Block>): seq<Value> {
    if content == [] then [] else [content[0].raw] + Raws(content[1..])
  }

  lemma BlocksSplit(items: seq<Value>)
    requires items != []
    ensures
      var block, rest := BlockOf(items[0]), BlocksOf(items[1..]);
      && Uses(BlocksOf(items)) == (if block.kind.ToolUse? then [block.kind] else []) + Uses(rest)
      && Raws(BlocksOf(items)) == [items[0]] + Raws(rest)
      && TextIn(BlocksOf(items)) == (if block.kind.Text? then block.kind.text else "") + TextIn(rest)
  {
    var blocks := BlocksOf(items);
    assert blocks[0] == BlockOf(items[0]) && blocks[1..] == BlocksOf(items[1..]);
  }

  lemma BlockIsItem(item: Value)
    ensures
      var kind := BlockOf(item).kind;
      && (kind.ToolUse? <==> Is(item, "tool_use")) && (kind.ToolUse? ==> IsUse(kind, item))
      && (kind.Text? <==> Is(item, "text")) && (kind.Text? ==> kind.text == AsStr(At(item, "text")))
  {
    FromCodeExactly(item);
    assert "tool_use"[1] != "text"[1];
  }

  lemma OneMoreUse(uses: seq<Kind>, items: seq<Value>, use: Kind, item: Value)
    requires AreUses(uses, items) && IsUse(use, item)
    ensures AreUses([use] + uses, [item] + items)
  {
  }

  lemma {:induction false} BlocksAreItems(items: seq<Value>)
    ensures AreUses(Uses(BlocksOf(items)), ToolUses(items))
    ensures Raws(BlocksOf(items)) == items && TextIn(BlocksOf(items)) == TextOf(items)
  {
    if items != [] {
      BlocksAreItems(items[1..]);
      BlocksSplit(items);
      BlockIsItem(items[0]);
      var block, rest := BlockOf(items[0]), Uses(BlocksOf(items[1..]));
      if block.kind.ToolUse? {
        OneMoreUse(rest, ToolUses(items[1..]), block.kind, items[0]);
      } else {
        assert [] + rest == rest && [] + ToolUses(items[1..]) == ToolUses(items[1..]);
      }
    }
  }

  lemma UsesAreItems(r: Received)
    ensures AreUses(UsesOf(ReplyOf(r)), UsesIn(r))
  {
    if r.Came? {
      BlocksAreItems(Content(r.json));
    }
  }

  lemma AllFromCodeExactly(uses: seq<Kind>, items: seq<Value>)
    requires AreUses(uses, items)
    ensures AllFromCode(uses) <==> forall use | use in items :: FromCode(use)
  {
    if AllFromCode(uses) {
      forall use | use in items ensures FromCode(use) {
        var i :| 0 <= i < |items| && items[i] == use;
        assert IsUse(uses[i], items[i]);
      }
    } else {
      var i :| 0 <= i < |uses| && !(uses[i].ToolUse? && uses[i].fromCode);
      assert IsUse(uses[i], items[i]) && items[i] in items;
    }
  }

  lemma TurnIsOnWire(r: Received)
    ensures TurnOf(ReplyOf(r)).Own? <==> TakesStep(r)
    ensures TurnOf(ReplyOf(r)).Code? <==> CodeCallsIn(r) > 0
    ensures TurnOf(ReplyOf(r)).Code? ==> TurnOf(ReplyOf(r)).calls == CodeCallsIn(r)
  {
    UsesAreItems(r);
    AllFromCodeExactly(UsesOf(ReplyOf(r)), UsesIn(r));
    assert UsesIn(r) != [] ==> UsesIn(r)[0] in UsesIn(r);
  }

  lemma {:induction false} CountsAreOnWire(wire: Wire, n: nat)
    ensures Steps(Heard(wire), n) == StepsBefore(wire, n)
    ensures CodeCalls(Heard(wire), n) == CodeCallsBefore(wire, n)
    ensures Tokens(Heard(wire), n).0 == TokensBefore(wire, n, "input_tokens")
    ensures Tokens(Heard(wire), n).1 == TokensBefore(wire, n, "output_tokens")
  {
    if n > 0 {
      CountsAreOnWire(wire, n - 1);
      TurnIsOnWire(wire.respond(n - 1));
    }
  }

  lemma GoesOnIsOnWire(wire: Wire, maxSteps: nat, k: nat)
    ensures GoesOn(Heard(wire), maxSteps, k) <==> AsksAgain(wire, maxSteps, k)
  {
    CountsAreOnWire(wire, k);
    TurnIsOnWire(wire.respond(k));
  }

  lemma AnswerIsOnWire(wire: Wire, maxSteps: nat, n: nat)
    requires Succeeds(wire.respond(n)) && !TakesStep(wire.respond(n)) && CodeCallsIn(wire.respond(n)) == 0
    ensures EndsWith(Ending(Heard(wire), maxSteps, n), wire, maxSteps, n)
  {
    var r := wire.respond(n);
    TurnIsOnWire(r);
    BlocksAreItems(Content(r.json));
    CountsAreOnWire(wire, n);
    CountsAreOnWire(wire, n + 1);
  }

  lemma EndingIsOnWire(wire: Wire, maxSteps: nat, n: nat)
    requires !AsksAgain(wire, maxSteps, n)
    ensures EndsWith(Ending(Heard(wire), maxSteps, n), wire, maxSteps, n)
  {
    var r := wire.respond(n);
    TurnIsOnWire(r);
    if Succeeds(r) && !TakesStep(r) && CodeCallsIn(r) == 0 {
      AnswerIsOnWire(wire, maxSteps, n);
    }
  }

  // -- the runs ---------------------------------------------------------------------------

  /** The first tool of that name. */
  ghost predicate IsFirstNamed(tool: Tool, tools: seq<Tool>, name: string) {
    tool.name == name
    && exists i :: 0 <= i < |tools| && tools[i] == tool && forall j | 0 <= j < i :: tools[j].name != name
  }

  /** `tool` may be run for `use`: it is the first of that name, and code may
      call it if code did. */
  ghost predicate MayRun(tool: Tool, tools: seq<Tool>, use: Value) {
    IsFirstNamed(tool, tools, AsStr(At(use, "name"))) && (FromCode(use) ==> tool.callableFromCode)
  }

  /** A run is of a use of its response, with that use's input. */
  ghost predicate IsRunOf(run: Run, tools: seq<Tool>, wire: Wire) {
    var uses := UsesIn(wire.respond(run.turn));
    run.use < |uses| && MayRun(run.tool, tools, uses[run.use]) && run.input == At(uses[run.use], "input")
  }

  ghost predicate Before(a: Run, b: Run) {
    a.turn < b.turn || (a.turn == b.turn && a.use < b.use)
  }

  predicate IsRun(run: Run, turn: nat, use: nat) {
    run.turn == turn && run.use == use
  }

  ghost predicate RunsFor(runs: seq<Run>, turn: nat, use: nat) {
    exists j :: 0 <= j < |runs| && IsRun(runs[j], turn, use)
  }

  /** The runs of the first `count` uses of response `turn`: each use that may
      be run, once, in order. */
  ghost predicate RunsInTurn(runs: seq<Run>, tools: seq<Tool>, wire: Wire, turn: nat, count: nat) {
    && count <= |UsesIn(wire.respond(turn))|
    && (forall j | 0 <= j < |runs| :: runs[j].turn == turn && runs[j].use < count && IsRunOf(runs[j], tools, wire))
    && (forall i, j | 0 <= i < j < |runs| :: runs[i].use < runs[j].use)
    && (forall use: nat | use < count :: RunsAsMay(runs, tools, wire, turn, use))
  }

  ghost predicate AllAreRuns(runs: seq<Run>, tools: seq<Tool>, wire: Wire, n: nat) {
    forall j | 0 <= j < |runs| :: runs[j].turn < n && IsRunOf(runs[j], tools, wire)
  }

  ghost predicate InOrder(runs: seq<Run>) {
    forall i, j | 0 <= i < j < |runs| :: Before(runs[i], runs[j])
  }

  ghost predicate RunsAsMay(runs: seq<Run>, tools: seq<Tool>, wire: Wire, turn: nat, use: nat)
    requires use < |UsesIn(wire.respond(turn))|
  {
    RunsFor(runs, turn, use) <==> exists tool :: MayRun(tool, tools, UsesIn(wire.respond(turn))[use])
  }

  ghost predicate NoneIsMissing(runs: seq<Run>, tools: seq<Tool>, wire: Wire, n: nat) {
    forall turn: nat, use: nat | turn < n && use < |UsesIn(wire.respond(turn))| ::
      RunsAsMay(runs, tools, wire, turn, use)
  }

  /** The runs of the first `n` responses, likewise. */
  ghost predicate RunsOnWire(runs: seq<Run>, tools: seq<Tool>, wire: Wire, n: nat) {
    AllAreRuns(runs, tools, wire, n) && InOrder(runs) && NoneIsMissing(runs, tools, wire, n)
  }

  lemma LetThroughMayRun(tools: seq<Tool>, use: Kind, item: Value)
    requires IsUse(use, item) && Lets(tools, use)
    ensures MayRun(Find(tools, use.name).value, tools, item)
  {
    FirstIsFound(tools, use.name);
  }

  lemma MayRunIsLetThrough(tools: seq<Tool>, use: Kind, item: Value, tool: Tool)
    requires IsUse(use, item) && MayRun(tool, tools, item)
    ensures Lets(tools, use)
  {
    FirstNamedIsFound(tool, tools, use.name);
  }

  lemma LetsExactly(tools: seq<Tool>, use: Kind, item: Value)
    requires IsUse(use, item)
    ensures Lets(tools, use) <==> exists tool :: MayRun(tool, tools, item)
    ensures Lets(tools, use) ==> MayRun(Find(tools, use.name).value, tools, item)
  {
    if Lets(tools, use) {
      LetThroughMayRun(tools, use, item);
    }
    forall tool | MayRun(tool, tools, item) ensures Lets(tools, use) {
      MayRunIsLetThrough(tools, use, item, tool);
    }
  }

  lemma FirstIsFound(tools: seq<Tool>, name: string)
    requires Find(tools, name).Some?
    ensures IsFirstNamed(Find(tools, name).value, tools, name)
  {
    FindIsFirst(tools, name);
  }

  lemma {:induction false} FirstNamedIsFound(tool: Tool, tools: seq<Tool>, name: string)
    requires IsFirstNamed(tool, tools, name)
    ensures Find(tools, name) == Some(tool)
  {
    var i :| 0 <= i < |tools| && tools[i] == tool && forall j | 0 <= j < i :: tools[j].name != name;
    if i > 0 {
      assert tools[0].name != name && tools[1..][i - 1] == tool;
      assert forall j | 0 <= j < i - 1 :: tools[1..][j] == tools[j + 1];
      FirstNamedIsFound(tool, tools[1..], name);
    }
  }

  lemma OneMoreInTurn(runs: seq<Run>, tools: seq<Tool>, wire: Wire, turn: nat, i: nat, use: Kind)
    requires i < |UsesIn(wire.respond(turn))| && IsUse(use, UsesIn(wire.respond(turn))[i])
    requires RunsInTurn(runs, tools, wire, turn, i)
    ensures RunsInTurn(runs + RunOf(tools, turn, i, use), tools, wire, turn, i + 1)
  {
    var more := RunOf(tools, turn, i, use);
    var all := runs + more;
    LetsExactly(tools, use, UsesIn(wire.respond(turn))[i]);
    forall u: nat | u < i + 1 ensures RunsAsMay(all, tools, wire, turn, u) {
      RunsOfBoth(runs, more, turn, u);
      assert more != [] ==> IsRun(more[0], turn, i);
      assert u < i ==> RunsAsMay(runs, tools, wire, turn, u);
    }
  }

  lemma {:induction false} TurnRunsAreOnWire(
    tools: seq<Tool>, wire: Wire, turn: nat, uses: seq<Kind>, items: seq<Value>)
    requires AreUses(uses, items) && items <= UsesIn(wire.respond(turn))
    ensures RunsInTurn(Runs(tools, turn, uses), tools, wire, turn, |uses|)
  {
    if uses != [] {
      var n := |uses| - 1;
      TurnRunsAreOnWire(tools, wire, turn, uses[..n], items[..n]);
      OneMoreInTurn(Runs(tools, turn, uses[..n]), tools, wire, turn, n, uses[n]);
    }
  }

  lemma RunsOfBoth(before: seq<Run>, runs: seq<Run>, turn: nat, use: nat)
    ensures RunsFor(before + runs, turn, use) <==> RunsFor(before, turn, use) || RunsFor(runs, turn, use)
  {
    var all := before + runs;
    if RunsFor(before, turn, use) {
      var j :| 0 <= j < |before| && IsRun(before[j], turn, use);
      assert IsRun(all[j], turn, use);
    }
    if RunsFor(runs, turn, use) {
      var j :| 0 <= j < |runs| && IsRun(runs[j], turn, use);
      assert IsRun(all[|before| + j], turn, use);
    }
  }

  lemma StillInOrder(before: seq<Run>, runs: seq<Run>, tools: seq<Tool>, wire: Wire, n: nat)
    requires AllAreRuns(before, tools, wire, n) && InOrder(before)
    requires RunsInTurn(runs, tools, wire, n, |UsesIn(wire.respond(n))|)
    ensures AllAreRuns(before + runs, tools, wire, n + 1) && InOrder(before + runs)
  {
  }

  lemma StillNoneIsMissing(before: seq<Run>, runs: seq<Run>, tools: seq<Tool>, wire: Wire, n: nat)
    requires AllAreRuns(before, tools, wire, n) && NoneIsMissing(before, tools, wire, n)
    requires RunsInTurn(runs, tools, wire, n, |UsesIn(wire.respond(n))|)
    ensures NoneIsMissing(before + runs, tools, wire, n + 1)
  {
    forall turn: nat, use: nat | turn < n + 1 && use < |UsesIn(wire.respond(turn))|
      ensures RunsAsMay(before + runs, tools, wire, turn, use)
    {
      RunsOfBoth(before, runs, turn, use);
      if turn < n {
        assert RunsAsMay(before, tools, wire, turn, use);
      } else {
        assert RunsAsMay(runs, tools, wire, n, use);
      }
    }
  }

  lemma OneMoreTurn(before: seq<Run>, runs: seq<Run>, tools: seq<Tool>, wire: Wire, n: nat)
    requires RunsOnWire(before, tools, wire, n)
    requires RunsInTurn(runs, tools, wire, n, |UsesIn(wire.respond(n))|)
    ensures RunsOnWire(before + runs, tools, wire, n + 1)
  {
    StillInOrder(before, runs, tools, wire, n);
    StillNoneIsMissing(before, runs, tools, wire, n);
  }

  lemma ThisTurn(tools: seq<Tool>, wire: Wire, turn: nat)
    ensures
      RunsInTurn(Runs(tools, turn, UsesOf(Heard(wire).answer(turn))), tools, wire, turn, |UsesIn(wire.respond(turn))|)
  {
    UsesAreItems(wire.respond(turn));
    TurnRunsAreOnWire(tools, wire, turn, UsesOf(Heard(wire).answer(turn)), UsesIn(wire.respond(turn)));
  }

  ghost predicate RanAsMay(tools: seq<Tool>, wire: Wire, n: nat) {
    RunsOnWire(AllRuns(tools, Heard(wire), n), tools, wire, n)
  }

  lemma NothingRan(tools: seq<Tool>, wire: Wire)
    ensures RanAsMay(tools, wire, 0)
  {
  }

  lemma AllRunsNext(tools: seq<Tool>, world: World, n: nat)
    ensures AllRuns(tools, world, n + 1) == AllRuns(tools, world, n) + Runs(tools, n, UsesOf(world.answer(n)))
  {
  }

  lemma RanOneMore(tools: seq<Tool>, wire: Wire, n: nat)
    requires RanAsMay(tools, wire, n)
    ensures RanAsMay(tools, wire, n + 1)
  {
    ThisTurn(tools, wire, n);
    AllRunsNext(tools, Heard(wire), n);
    OneMoreTurn(AllRuns(tools, Heard(wire), n), Runs(tools, n, UsesOf(Heard(wire).answer(n))), tools, wire, n);
  }

  ghost predicate Hereditary(p: nat -> bool) {
    p(0) && forall k: nat | p(k) :: p(k + 1)
  }

  lemma {:induction false} HoldsAlways(p: nat -> bool, n: nat)
    requires Hereditary(p)
    ensures p(n)
  {
    if n > 0 {
      HoldsAlways(p, n - 1);
    }
  }

  ghost function Ran(tools: seq<Tool>, wire: Wire): nat -> bool {
    (n: nat) => RanAsMay(tools, wire, n)
  }

  lemma RanIsHereditary(tools: seq<Tool>, wire: Wire)
    ensures Hereditary(Ran(tools, wire))
  {
    NothingRan(tools, wire);
    forall k: nat | Ran(tools, wire)(k) ensures Ran(tools, wire)(k + 1) {
      RanOneMore(tools, wire, k);
    }
  }

  /** Over the first `n` responses: every run is of a `tool_use` of its
      response, of the first tool of that name, with its input, and code called
      only what it may; and every use that may be run is, once and in order. */
  lemma RunsAreAllowed(tools: seq<Tool>, wire: Wire, n: nat)
    ensures RunsOnWire(AllRuns(tools, Heard(wire), n), tools, wire, n)
  {
    RanIsHereditary(tools, wire);
    HoldsAlways(Ran(tools, wire), n);
    assert Ran(tools, wire)(n);
  }

  // -- the requests ------------------------------------------------------------------------

  /** What the model is told of a use. */
  ghost predicate IsToldOf(output: string, tools: seq<Tool>, use: Value, given: Result<string, string>) {
    var name := AsStr(At(use, "name"));
    if forall tool | tool in tools :: tool.name != name then output == "error: unknown tool `" + name + "`"
    else if exists tool :: MayRun(tool, tools, use) then
      output == if given.Ok? then given.value else "error: " + given.error
    else output == "error: `" + name + "` can't be called from code: call it directly, so the user can confirm it"
  }

  /** One result per use, in order. */
  ghost predicate AreResults(results: seq<ToolResult>, tools: seq<Tool>, wire: Wire, turn: nat) {
    var uses := UsesIn(wire.respond(turn));
    && |results| == |uses|
    && forall i | 0 <= i < |uses| ::
         results[i].id == AsStr(At(uses[i], "id")) && IsToldOf(results[i].output, tools, uses[i], wire.output(turn, i))
  }

  /** The next request: what was sent, the response's content as it came, and
      at once its uses' results, unless it paused; in the latest container. */
  ghost predicate SendsBack(sent: Request, next: Request, tools: seq<Tool>, wire: Wire, turn: nat) {
    var r, before := wire.respond(turn), |sent.messages|;
    && r.Came? && sent.messages <= next.messages
    && |next.messages| == before + (if Pauses(r.json) then 1 else 2)
    && next.messages[before].Assistant? && Raws(next.messages[before].content) == Content(r.json)
    && (!Pauses(r.json) ==>
          next.messages[before + 1].Results? && AreResults(next.messages[before + 1].results, tools, wire, turn))
    && var container := At(At(r.json, "container"), "id");
       next.container == if container.Str? then Some(container.s) else sent.container
  }

  lemma OutputIsOnWire(tools: seq<Tool>, use: Kind, item: Value, given: Result<string, string>)
    requires IsUse(use, item)
    ensures IsToldOf(OutputOf(tools, use, given), tools, item, given)
  {
    LetsExactly(tools, use, item);
    FindIsFirst(tools, use.name);
  }

  lemma ResultsAreOnWire(results: seq<ToolResult>, tools: seq<Tool>, wire: Wire, turn: nat)
    requires AnswersEach(results, tools, Heard(wire), turn, UsesOf(Heard(wire).answer(turn)))
    ensures AreResults(results, tools, wire, turn)
  {
    var uses, items := UsesOf(Heard(wire).answer(turn)), UsesIn(wire.respond(turn));
    UsesAreItems(wire.respond(turn));
    forall i | 0 <= i < |items|
      ensures results[i].id == AsStr(At(items[i], "id"))
      ensures IsToldOf(results[i].output, tools, items[i], wire.output(turn, i))
    {
      assert IsUse(uses[i], items[i]);
      OutputIsOnWire(tools, uses[i], items[i], wire.output(turn, i));
    }
  }

  /** Every request but the first follows from the one before and its response. */
  lemma EveryToolUseIsAnswered(sent: Request, next: Request, tools: seq<Tool>, wire: Wire, turn: nat)
    requires Follows(sent, next, tools, Heard(wire), turn)
    ensures SendsBack(sent, next, tools, wire, turn)
  {
    var reply, r := Heard(wire).answer(turn), wire.respond(turn);
    assert Exchanged(sent.messages, next.messages, tools, Heard(wire), turn);
    BlocksAreItems(Content(r.json));
    if !Paused(reply) {
      ResultsAreOnWire(next.messages[|sent.messages| + 1].results, tools, wire, turn);
    }
  }

  /** The loop, on the JSON of the responses: it asks again as long as it may,
      with the request that follows, and ends with what the last response comes
      to, having run just the tools that were asked for and may be. */
  method Prompt(initial: seq<Message>, tools: seq<Tool>, maxSteps: nat, wire: Wire)
    returns (result: Result<Response, Fault>, requests: seq<Request>, runs: seq<Run>, n: nat)
    ensures |requests| == n + 1 <= maxSteps + 501 && requests[0] == Request(initial, None)
    ensures forall k | 0 <= k < n ::
      AsksAgain(wire, maxSteps, k) && SendsBack(requests[k], requests[k + 1], tools, wire, k)
    ensures !AsksAgain(wire, maxSteps, n)
    ensures EndsWith(result, wire, maxSteps, n)
    ensures RunsOnWire(runs, tools, wire, n)
  {
    result, requests, runs, n := Converse(initial, tools, maxSteps, Heard(wire));
    forall k | 0 <= k < n
      ensures AsksAgain(wire, maxSteps, k) && SendsBack(requests[k], requests[k + 1], tools, wire, k)
    {
      assert Turned(requests, k, tools, Heard(wire), maxSteps);
      GoesOnIsOnWire(wire, maxSteps, k);
      EveryToolUseIsAnswered(requests[k], requests[k + 1], tools, wire, k);
    }
    GoesOnIsOnWire(wire, maxSteps, n);
    EndingIsOnWire(wire, maxSteps, n);
    RunsAreAllowed(tools, wire, n);
  }
}
