/**
 The tool loop of one prompt: a request, the model's answer, the tools it uses,
 and again, until it answers in text or a limit stops it. The model, the tools
 and the network answer as they please.
 */
module ToolLoop {
  import opened Common
  import opened Json

  const MAX_CODE_CALLS := 500

  /** A block of an answer: what it is to the loop, and itself. */
  datatype Block = Block(kind: Kind, raw: Value)

  datatype Kind =
    | ToolUse(id: string, name: string, input: Value, fromCode: bool)
    | Text(text: string)
    | OtherKind

  datatype Stop = Refusal(reason: string) | Pause | OtherStop

  datatype Body = Body(
    content: seq<Block>,
    stop: Stop,
    container: Option<string>,
    inputTokens: nat,
    outputTokens: nat,
    error: string)

  /** One request's answer: a response, or none. */
  datatype Reply = Reply(status: int, body: Body) | NoReply(why: string)

  /** The world outside: what the n-th request is answered, and what a tool run
      for the i-th use of that answer gives. */
  datatype World = World(answer: nat -> Reply, output: (nat, nat) -> Result<string, string>)

  datatype Tool = Tool(name: string, callableFromCode: bool)

  datatype Fault =
    | Lost(why: string)
    | Api(status: int, message: string)
    | Refused(reason: string)
    | Empty
    | MaxSteps(steps: nat)
    | TooManyCodeCalls

  datatype Response = Response(text: string, inputTokens: nat, outputTokens: nat, steps: nat)

  datatype ToolResult = ToolResult(id: string, output: string)

  /** What the prompt began with, a turn of the model's, or its results. */
  datatype Message = Given(raw: Value) | Assistant(content: seq<Block>) | Results(results: seq<ToolResult>)

  datatype Request = Request(messages: seq<Message>, container: Option<string>)

  /** A tool run: for which answer's which use, and with what input. */
  datatype Run = Run(turn: nat, use: nat, tool: Tool, input: Value)

  // -- reading an answer --------------------------------------------------------------

  predicate StartsWith(s: string, prefix: string) {
    |prefix| <= |s| && s[..|prefix|] == prefix
  }

  predicate CalledFromCode(use: Value) {
    StartsWith(AsStr(At(At(use, "caller"), "type")), "code_execution")
  }

  function BlockOf(v: Value): Block {
    Block(
      if At(v, "type") == Str("tool_use") then
        ToolUse(AsStr(At(v, "id")), AsStr(At(v, "name")), At(v, "input"), CalledFromCode(v))
      else if At(v, "type") == Str("text") then Text(AsStr(At(v, "text")))
      else OtherKind, v)
  }

  function StopOf(body: Value): Stop {
    var stop, details := At(body, "stop_reason"), At(body, "stop_details");
    if stop == Str("refusal") then
      Refusal(if At(details, "explanation").Str? then At(details, "explanation").s
              else if At(details, "category").Str? then At(details, "category").s
              else "declined by the model's safeguards")
    else if stop == Str("pause_turn") then Pause
    else OtherStop
  }

  function Items(body: Value): seq<Value> {
    if At(body, "content").Arr? then At(body, "content").items else []
  }

  function BlocksOf(items: seq<Value>): seq<Block> {
    if items == [] then [] else [BlockOf(items[0])] + BlocksOf(items[1..])
  }

  /** What the loop reads of a response's JSON. */
  function BodyOf(body: Value): Body {
    var usage, container, message := At(body, "usage"), At(At(body, "container"), "id"),
      At(At(body, "error"), "message");
    Body(
      BlocksOf(Items(body)),
      StopOf(body),
      if container.Str? then Some(container.s) else None,
      AsNat(At(usage, "input_tokens")),
      AsNat(At(usage, "output_tokens")),
      if message.Str? then message.s else "unknown error")
  }

  /** A response as it came, or none. */
  datatype Received = Came(status: int, json: Value) | NotCame(why: string)

  function ReplyOf(response: Received): Reply {
    match response
    case Came(status, json) => Reply(status, BodyOf(json))
    case NotCame(why) => NoReply(why)
  }

  /** The world outside, as it is on the wire. */
  datatype Wire = Wire(respond: nat -> Received, output: (nat, nat) -> Result<string, string>)

  function Heard(wire: Wire): World {
    World((n: nat) => ReplyOf(wire.respond(n)), wire.output)
  }

  // -- one answer -------------------------------------------------------------------

  function Uses(content: seq<Block>): seq<Kind> {
    if content == [] then []
    else (if content[0].kind.ToolUse? then [content[0].kind] else []) + Uses(content[1..])
  }

  function TextIn(content: seq<Block>): string {
    if content == [] then ""
    else (if content[0].kind.Text? then content[0].kind.text else "") + TextIn(content[1..])
  }

  predicate AllFromCode(uses: seq<Kind>) {
    forall i | 0 <= i < |uses| :: uses[i].ToolUse? && uses[i].fromCode
  }

  lemma {:induction false} UsesAreUses(content: seq<Block>)
    ensures forall i | 0 <= i < |Uses(content)| :: Uses(content)[i].ToolUse?
  {
    if content != [] {
      UsesAreUses(content[1..]);
    }
  }

  predicate Paused(reply: Reply) {
    reply.Reply? && reply.body.stop.Pause?
  }

  function UsesOf(reply: Reply): seq<Kind> {
    if reply.Reply? && !Paused(reply) then Uses(reply.body.content) else []
  }

  /** An answer the loop may go on after: a step of the model's own (its server
      paused it, or it used a tool itself), or calls from code only. */
  datatype Turn = Own | Code(calls: nat) | Last

  function TurnOf(reply: Reply): Turn {
    if reply.NoReply? || !(200 <= reply.status < 300) || reply.body.stop.Refusal? then Last
    else if Paused(reply) then Own
    else if UsesOf(reply) == [] then Last
    else if AllFromCode(UsesOf(reply)) then Code(|UsesOf(reply)|)
    else Own
  }

  // -- counting answers ---------------------------------------------------------------

  /** The steps the model took in the first `n` answers. */
  function Steps(world: World, n: nat): nat {
    if n == 0 then 0 else Steps(world, n - 1) + if TurnOf(world.answer(n - 1)).Own? then 1 else 0
  }

  /** The calls code made in the first `n` answers. */
  function CodeCalls(world: World, n: nat): nat {
    if n == 0 then 0
    else CodeCalls(world, n - 1) + if TurnOf(world.answer(n - 1)).Code? then TurnOf(world.answer(n - 1)).calls else 0
  }

  function Added(tokens: (nat, nat), reply: Reply): (nat, nat) {
    if reply.Reply? then (tokens.0 + reply.body.inputTokens, tokens.1 + reply.body.outputTokens) else tokens
  }

  /** The tokens the first `n` answers used: given, and written. */
  function Tokens(world: World, n: nat): (nat, nat) {
    if n == 0 then (0, 0) else Added(Tokens(world, n - 1), world.answer(n - 1))
  }

  // -- the tools ----------------------------------------------------------------------

  function Find(tools: seq<Tool>, name: string): Option<Tool> {
    if tools == [] then None else if tools[0].name == name then Some(tools[0]) else Find(tools[1..], name)
  }

  lemma {:induction false} FindIsFirst(tools: seq<Tool>, name: string)
    ensures Find(tools, name).None? <==> forall t | t in tools :: t.name != name
    ensures Find(tools, name).Some? ==>
      exists i | 0 <= i < |tools| :: Find(tools, name) == Some(tools[i]) && tools[i].name == name
                                     && forall j | 0 <= j < i :: tools[j].name != name
  {
    if tools != [] {
      FindIsFirst(tools[1..], name);
      assert tools == [tools[0]] + tools[1..];
      if tools[0].name != name && Find(tools[1..], name).Some? {
        var i :| 0 <= i < |tools| - 1 && Find(tools[1..], name) == Some(tools[1..][i]) && tools[1..][i].name == name
                 && forall j | 0 <= j < i :: tools[1..][j].name != name;
        assert tools[i + 1] == tools[1..][i];
        assert forall j | 0 < j < i + 1 :: tools[j] == tools[1..][j - 1];
      }
    }
  }

  /** Whether a use is let through: its tool exists, and code only reaches the
      tools it may call. */
  predicate Lets(tools: seq<Tool>, use: Kind)
    requires use.ToolUse?
  {
    var tool := Find(tools, use.name);
    tool.Some? && (use.fromCode ==> tool.value.callableFromCode)
  }

  function BarredFromCode(name: string): string {
    "error: `" + name + "` can't be called from code: call it directly, so the user can confirm it"
  }

  function UnknownTool(name: string): string {
    "error: unknown tool `" + name + "`"
  }

  function ToolError(why: string): string {
    "error: " + why
  }

  /** What the model is told of its use. */
  function OutputOf(tools: seq<Tool>, use: Kind, given: Result<string, string>): string
    requires use.ToolUse?
  {
    if Lets(tools, use) then (if given.Ok? then given.value else ToolError(given.error))
    else if Find(tools, use.name).Some? then BarredFromCode(use.name)
    else UnknownTool(use.name)
  }

  function RunOf(tools: seq<Tool>, turn: nat, i: nat, use: Kind): seq<Run> {
    if use.ToolUse? && Lets(tools, use) then [Run(turn, i, Find(tools, use.name).value, use.input)] else []
  }

  /** The runs of one answer's uses: those let through, in order. */
  function Runs(tools: seq<Tool>, turn: nat, uses: seq<Kind>): seq<Run> {
    if uses == [] then []
    else Runs(tools, turn, uses[..|uses| - 1]) + RunOf(tools, turn, |uses| - 1, uses[|uses| - 1])
  }

  /** The runs of the first `n` answers. */
  function AllRuns(tools: seq<Tool>, world: World, n: nat): seq<Run> {
    if n == 0 then [] else AllRuns(tools, world, n - 1) + Runs(tools, n - 1, UsesOf(world.answer(n - 1)))
  }

  /** One result per use, with its id, in order. */
  predicate AnswersEach(results: seq<ToolResult>, tools: seq<Tool>, world: World, turn: nat, uses: seq<Kind>) {
    && |results| == |uses|
    && forall i | 0 <= i < |uses| ::
         uses[i].ToolUse? && results[i] == ToolResult(uses[i].id, OutputOf(tools, uses[i], world.output(turn, i)))
  }

  method CallOne(tools: seq<Tool>, world: World, turn: nat, i: nat, use: Kind)
    returns (output: string, run: seq<Run>)
    requires use.ToolUse?
    ensures output == OutputOf(tools, use, world.output(turn, i)) && run == RunOf(tools, turn, i, use)
  {
    var found := Find(tools, use.name);
    run := [];
    if found.Some? && use.fromCode && !found.value.callableFromCode {
      output := BarredFromCode(use.name);
    } else if found.Some? {
      run := [Run(turn, i, found.value, use.input)];
      var given := world.output(turn, i);
      output := if given.Ok? then given.value else ToolError(given.error);
    } else {
      output := UnknownTool(use.name);
    }
  }

  lemma RunsNext(tools: seq<Tool>, turn: nat, uses: seq<Kind>, i: nat)
    requires i < |uses|
    ensures Runs(tools, turn, uses[..i + 1]) == Runs(tools, turn, uses[..i]) + RunOf(tools, turn, i, uses[i])
  {
    assert uses[..i + 1][..i] == uses[..i];
  }

  method Call(tools: seq<Tool>, world: World, turn: nat, uses: seq<Kind>)
    returns (results: seq<ToolResult>, runs: seq<Run>)
    requires forall i | 0 <= i < |uses| :: uses[i].ToolUse?
    ensures AnswersEach(results, tools, world, turn, uses)
    ensures runs == Runs(tools, turn, uses)
  {
    results, runs := [], [];
    var i := 0;
    while i < |uses|
      invariant 0 <= i <= |uses|
      invariant AnswersEach(results, tools, world, turn, uses[..i])
      invariant runs == Runs(tools, turn, uses[..i])
    {
      var output, run := CallOne(tools, world, turn, i, uses[i]);
      RunsNext(tools, turn, uses, i);
      results, runs := results + [ToolResult(uses[i].id, output)], runs + run;
      i := i + 1;
    }
    assert uses[..i] == uses;
  }

  // -- the loop -----------------------------------------------------------------------

  /** Whether the loop goes on after `reply`, the model having taken `steps`
      steps and code having made `codeCalls` calls before it. */
  predicate Continues(reply: Reply, steps: nat, codeCalls: nat, maxSteps: nat) {
    match TurnOf(reply)
    case Own => steps < maxSteps
    case Code(calls) => codeCalls + calls <= MAX_CODE_CALLS
    case Last => false
  }

  predicate GoesOn(world: World, maxSteps: nat, k: nat) {
    Continues(world.answer(k), Steps(world, k), CodeCalls(world, k), maxSteps)
  }

  ghost predicate WentOn(world: World, maxSteps: nat, n: nat) {
    forall k | 0 <= k < n :: GoesOn(world, maxSteps, k)
  }

  /** How the loop ends at the `n`-th answer. */
  function Ending(world: World, maxSteps: nat, n: nat): Result<Response, Fault> {
    var reply := world.answer(n);
    if reply.NoReply? then Err(Lost(reply.why))
    else if !(200 <= reply.status < 300) then Err(Api(reply.status, reply.body.error))
    else if reply.body.stop.Refusal? then Err(Refused(reply.body.stop.reason))
    else if TurnOf(reply).Own? then Err(MaxSteps(maxSteps))
    else if TurnOf(reply).Code? then Err(TooManyCodeCalls)
    else if TextIn(reply.body.content) == "" then Err(Empty)
    else Ok(Response(TextIn(reply.body.content), Tokens(world, n + 1).0, Tokens(world, n + 1).1, Steps(world, n)))
  }

  /** What the `turn`-th answer adds: itself, as it came, and at once the
      results of its tool uses unless it was paused. */
  ghost predicate Exchanged(before: seq<Message>, after: seq<Message>, tools: seq<Tool>, world: World, turn: nat) {
    var reply := world.answer(turn);
    && reply.Reply?
    && if Paused(reply) then after == before + [Assistant(reply.body.content)]
       else |after| == |before| + 2 && after[|before| + 1].Results?
            && after == before + [Assistant(reply.body.content), after[|before| + 1]]
            && AnswersEach(after[|before| + 1].results, tools, world, turn, Uses(reply.body.content))
  }

  /** The next request: what was sent, what its answer added, and the latest
      code container an answer had. */
  ghost predicate Follows(request: Request, next: Request, tools: seq<Tool>, world: World, turn: nat) {
    && Exchanged(request.messages, next.messages, tools, world, turn)
    && next.container == ContainerAfter(request.container, world.answer(turn))
  }

  function ContainerAfter(container: Option<string>, reply: Reply): Option<string> {
    if reply.Reply? && reply.body.container.Some? then reply.body.container else container
  }

  /** After every answer but the last the loop goes on, with the request that
      follows. */
  ghost predicate Transcript(requests: seq<Request>, initial: seq<Message>, tools: seq<Tool>, world: World,
      maxSteps: nat) {
    && |requests| > 0 && requests[0] == Request(initial, None)
    && forall k | 0 <= k < |requests| - 1 :: Turned(requests, k, tools, world, maxSteps)
  }

  ghost predicate Turned(requests: seq<Request>, k: nat, tools: seq<Tool>, world: World, maxSteps: nat)
    requires k < |requests| - 1
  {
    GoesOn(world, maxSteps, k) && Follows(requests[k], requests[k + 1], tools, world, k)
  }

  lemma OneMore(requests: seq<Request>, n: nat, next: Request, initial: seq<Message>, tools: seq<Tool>, world: World,
      maxSteps: nat)
    requires Transcript(requests, initial, tools, world, maxSteps)
    requires |requests| == n + 1
    requires GoesOn(world, maxSteps, n)
    requires Follows(requests[n], next, tools, world, n)
    ensures Transcript(requests + [next], initial, tools, world, maxSteps)
  {
    var all := requests + [next];
    forall k | 0 <= k < |all| - 1
      ensures Turned(all, k, tools, world, maxSteps)
    {
      assert k < |requests| - 1 ==> Turned(requests, k, tools, world, maxSteps);
    }
  }

  /** The checks on one answer: `end` when the loop ends at it. */
  method Judge(world: World, n: nat, before: nat, codeBefore: nat, tokensBefore: (nat, nat), maxSteps: nat)
    returns (end: Option<Result<Response, Fault>>, steps: nat, codeCalls: nat, tokens: (nat, nat))
    requires before == Steps(world, n) <= maxSteps && codeBefore == CodeCalls(world, n) <= MAX_CODE_CALLS
    requires tokensBefore == Tokens(world, n)
    ensures tokens == Tokens(world, n + 1)
    ensures end.None? <==> GoesOn(world, maxSteps, n)
    ensures end.Some? ==> end.value == Ending(world, maxSteps, n)
    ensures end.None? ==>
      && steps == Steps(world, n + 1) <= maxSteps && codeCalls == CodeCalls(world, n + 1) <= MAX_CODE_CALLS
      && before + codeBefore < steps + codeCalls
      && world.answer(n).Reply?
  {
    var reply := world.answer(n);
    tokens := Added(tokensBefore, reply);
    end, steps, codeCalls := None, before, codeBefore;
    if reply.NoReply? {
      end := Some(Err(Lost(reply.why)));
    } else if !(200 <= reply.status < 300) {
      end := Some(Err(Api(reply.status, reply.body.error)));
    } else if reply.body.stop.Refusal? {
      end := Some(Err(Refused(reply.body.stop.reason)));
    } else if reply.body.stop.Pause? {
      if steps >= maxSteps {
        end := Some(Err(MaxSteps(maxSteps)));
      } else {
        steps := steps + 1;
      }
    } else {
      var uses := Uses(reply.body.content);
      if uses == [] {
        var text := TextIn(reply.body.content);
        end := Some(if text == "" then Err(Empty) else Ok(Response(text, tokens.0, tokens.1, steps)));
      } else if AllFromCode(uses) {
        codeCalls := codeCalls + |uses|;
        if codeCalls > MAX_CODE_CALLS {
          end := Some(Err(TooManyCodeCalls));
        }
      } else if steps >= maxSteps {
        end := Some(Err(MaxSteps(maxSteps)));
      } else {
        steps := steps + 1;
      }
    }
  }

  /** The answer joins the transcript, and so do the results of its uses. */
  method Exchange(request: Request, before: seq<Run>, tools: seq<Tool>, world: World, turn: nat)
    returns (next: Request, runs: seq<Run>)
    requires world.answer(turn).Reply? && before == AllRuns(tools, world, turn)
    ensures Follows(request, next, tools, world, turn)
    ensures runs == AllRuns(tools, world, turn + 1)
  {
    var body := world.answer(turn).body;
    var container := if body.container.Some? then body.container else request.container;
    var after := request.messages + [Assistant(body.content)];
    runs := before;
    if !body.stop.Pause? {
      UsesAreUses(body.content);
      var results, more := Call(tools, world, turn, Uses(body.content));
      after := request.messages + [Assistant(body.content), Results(results)];
      runs := runs + more;
    }
    next := Request(after, container);
  }

  /** `run`: the loop of one prompt. It ends at the first answer that does not
      continue it, the `n`-th, and that is at most the `maxSteps` + 501st sent. */
  method Converse(initial: seq<Message>, tools: seq<Tool>, maxSteps: nat, world: World)
    returns (result: Result<Response, Fault>, requests: seq<Request>, runs: seq<Run>, n: nat)
    ensures |requests| == n + 1 <= maxSteps + MAX_CODE_CALLS + 1
    ensures Transcript(requests, initial, tools, world, maxSteps)
    ensures !GoesOn(world, maxSteps, n)
    ensures runs == AllRuns(tools, world, n)
    ensures result == Ending(world, maxSteps, n)
  {
    n := 0;
    var steps, codeCalls, tokens := 0, 0, (0, 0);
    requests, runs := [Request(initial, None)], [];
    while true
      invariant |requests| == n + 1
      invariant Transcript(requests, initial, tools, world, maxSteps)
      invariant steps == Steps(world, n) && codeCalls == CodeCalls(world, n)
      invariant n <= steps + codeCalls && steps <= maxSteps && codeCalls <= MAX_CODE_CALLS
      invariant tokens == Tokens(world, n) && runs == AllRuns(tools, world, n)
      decreases maxSteps - steps + (MAX_CODE_CALLS - codeCalls)
    {
      var end: Option<Result<Response, Fault>>;
      end, steps, codeCalls, tokens := Judge(world, n, steps, codeCalls, tokens, maxSteps);
      if end.Some? {
        return end.value, requests, runs, n;
      }
      var next;
      next, runs := Exchange(requests[n], runs, tools, world, n);
      OneMore(requests, n, next, initial, tools, world, maxSteps);
      requests, n := requests + [next], n + 1;
    }
  }

  // -- what follows -------------------------------------------------------------------

  /** No more than the bound whatever the model answers, and the bound is met:
      a model that pauses `maxSteps` times and lets its code call one tool 500
      times, one at a time, is asked `maxSteps` + 501 times. */
  function Tireless(maxSteps: nat): World {
    World(
      n => Reply(200, Body([Block(ToolUse("", "", Null, true), Null)], if n < maxSteps then Pause else OtherStop,
          None, 0, 0, "")),
      (n, i) => Ok(""))
  }

  lemma {:induction false} TirelessCounts(maxSteps: nat, n: nat)
    requires n <= maxSteps + MAX_CODE_CALLS
    ensures var world := Tireless(maxSteps);
      Steps(world, n) == (if n < maxSteps then n else maxSteps)
      && CodeCalls(world, n) == (if n < maxSteps then 0 else n - maxSteps)
      && WentOn(world, maxSteps, n)
  {
    if n > 0 {
      TirelessCounts(maxSteps, n - 1);
      var world := Tireless(maxSteps);
      TirelessTurn(maxSteps, n - 1);
      assert GoesOn(world, maxSteps, n - 1);
    }
  }

  lemma TirelessTurn(maxSteps: nat, n: nat)
    ensures TurnOf(Tireless(maxSteps).answer(n)) == if n < maxSteps then Own else Code(1)
  {
    var reply := Tireless(maxSteps).answer(n);
    var content := reply.body.content;
    assert content[1..] == [];
    assert Uses(content) == [content[0].kind];
  }

  lemma BoundIsMet(maxSteps: nat)
    ensures forall k | 0 <= k < maxSteps + 500 :: GoesOn(Tireless(maxSteps), maxSteps, k)
  {
    TirelessCounts(maxSteps, maxSteps + MAX_CODE_CALLS);
  }

  /** The transcript only grows: a later request begins with an earlier one. */
  lemma {:induction false} TranscriptExtends(requests: seq<Request>, initial: seq<Message>, tools: seq<Tool>,
      world: World, maxSteps: nat, i: nat, j: nat)
    requires Transcript(requests, initial, tools, world, maxSteps) && i <= j < |requests|
    ensures requests[i].messages <= requests[j].messages
    decreases j
  {
    if i < j {
      TranscriptExtends(requests, initial, tools, world, maxSteps, i, j - 1);
      assert Turned(requests, j - 1, tools, world, maxSteps);
    }
  }
}
