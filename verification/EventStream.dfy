/**
 A streamed answer read into the message a whole answer would have been: bytes
 in chunks, cut into lines, each line an event, the events folded.
 */
module EventStream {
  import opened Common
  import opened Json

  type Byte = x: int | 0 <= x < 256

  const NEWLINE: Byte := 10

  // -- lines ----------------------------------------------------------------------

  /** Where the first newline is; the length when there is none. */
  function ToNewline(bytes: seq<Byte>): (n: nat)
    ensures n <= |bytes| && (n < |bytes| ==> bytes[n] == NEWLINE) && forall i | 0 <= i < n :: bytes[i] != NEWLINE
  {
    if bytes == [] || bytes[0] == NEWLINE then 0
    else
      var n := ToNewline(bytes[1..]);
      assert forall i | 0 < i < |bytes| :: bytes[i] == bytes[1..][i - 1];
      1 + n
  }

  /** The complete lines, each with its newline; what follows the last is left. */
  function Lines(bytes: seq<Byte>): seq<seq<Byte>>
    decreases |bytes|
  {
    var n := ToNewline(bytes);
    if n == |bytes| then [] else [bytes[..n + 1]] + Lines(bytes[n + 1..])
  }

  lemma FirstLine(bytes: seq<Byte>, rest: seq<Byte>)
    requires ToNewline(bytes) < |bytes|
    ensures var n := ToNewline(bytes);
      Lines(bytes + rest) == [bytes[..n + 1]] + Lines(bytes[n + 1..] + rest)
  {
    var n, all := ToNewline(bytes), bytes + rest;
    assert forall i | 0 <= i <= n :: all[i] == bytes[i];
    assert ToNewline(all) == n;
    assert all[..n + 1] == bytes[..n + 1] && all[n + 1..] == bytes[n + 1..] + rest;
  }

  // -- the message being read -------------------------------------------------------

  datatype Fault = Transport(why: string) | Decode(why: string) | Api(status: int, message: string) | Panic

  /** `told`: the pieces of text told so far. */
  datatype Reader = Reader(
    blocks: seq<Value>,
    inputs: map<nat, string>,
    inputTokens: nat,
    outputTokens: nat,
    container: Value,
    stopReason: Value,
    stopDetails: Value,
    stopped: bool,
    told: seq<string>)

  const START := Reader([], map[], 0, 0, Null, Null, Null, false, [])

  datatype Progress = Reading(reader: Reader) | Broken(fault: Fault, told: seq<string>)

  datatype Message = Message(content: seq<Value>, inputTokens: nat, outputTokens: nat, container: Value,
      stopReason: Value, stopDetails: Value)

  /** The parts of the world outside: a line's event, if it holds one, and a
      tool input's JSON. */
  datatype Decoder = Decoder(event: seq<Byte> -> Option<Value>, json: string -> Option<Value>)

  /** `value[key] = field`: on anything but an object or `null` it panics. */
  function SetField(v: Value, key: string, field: Value): Option<Value> {
    match v
    case Obj(fields) => Some(Obj(fields[key := field]))
    case Null => Some(Obj(map[key := field]))
    case _ => None
  }

  predicate Blank(s: string) {
    s == "" || ((s[0] == ' ' || '\t' <= s[0] <= '\r') && Blank(s[1..]))
  }

  function Nulls(n: nat): seq<Value> {
    seq(n, i => Null)
  }

  function NonNull(vs: seq<Value>): seq<Value> {
    if vs == [] then [] else (if vs[0].Null? then [] else [vs[0]]) + NonNull(vs[1..])
  }

  /** The block at `index` gets `field` under `key`; `pieces` are told. */
  function WithField(st: Reader, index: nat, key: string, field: Value, pieces: seq<string>): Progress
    requires index < |st.blocks|
  {
    match SetField(st.blocks[index], key, field)
    case None => Broken(Panic, st.told)
    case Some(block) => Reading(st.(blocks := st.blocks[index := block], told := st.told + pieces))
  }

  function StartBlock(st: Reader, index: nat, block: Value): Reader {
    var room := if |st.blocks| <= index then st.blocks + Nulls(index + 1 - |st.blocks|) else st.blocks;
    st.(blocks := room[index := block])
  }

  /** A `content_block_delta`'s delta. */
  datatype Delta =
    | Text(piece: string)
    | Input(json: string)
    | Thinking(thinking: string)
    | Signature(signature: Value)
    | Citation(citation: Value)
    | OtherDelta

  datatype Event =
    | MessageStart(inputTokens: nat, container: Value)
    | BlockStart(index: nat, block: Value)
    | BlockDelta(index: nat, delta: Delta)
    | BlockStop(index: nat)
    | MessageDelta(stopReason: Value, stopDetails: Value, container: Value, outputTokens: Option<nat>)
    | MessageStop
    | Failed(status: int, message: string)
    | OtherEvent

  function DeltaOf(delta: Value): Delta {
    var kind := AsStr(At(delta, "type"));
    if kind == "text_delta" then Text(AsStr(At(delta, "text")))
    else if kind == "input_json_delta" then Input(AsStr(At(delta, "partial_json")))
    else if kind == "thinking_delta" then Thinking(AsStr(At(delta, "thinking")))
    else if kind == "signature_delta" then Signature(At(delta, "signature"))
    else if kind == "citations_delta" then Citation(At(delta, "citation"))
    else OtherDelta
  }

  function EventOf(event: Value): Event {
    var kind, index := AsStr(At(event, "type")), AsNat(At(event, "index"));
    if kind == "message_start" then
      var message := At(event, "message");
      MessageStart(AsNat(At(At(message, "usage"), "input_tokens")), At(message, "container"))
    else if kind == "content_block_start" then BlockStart(index, At(event, "content_block"))
    else if kind == "content_block_delta" then BlockDelta(index, DeltaOf(At(event, "delta")))
    else if kind == "content_block_stop" then BlockStop(index)
    else if kind == "message_delta" then
      var delta, output := At(event, "delta"), At(At(event, "usage"), "output_tokens");
      MessageDelta(At(delta, "stop_reason"), At(delta, "stop_details"), At(delta, "container"),
                   if IsU64(output) then Some(output.n) else None)
    else if kind == "message_stop" then MessageStop
    else if kind == "error" then
      var error := At(event, "error");
      Failed(if At(error, "type") == Str("overloaded_error") then 529 else 500,
             if At(error, "message").Str? then At(error, "message").s else "the stream failed")
    else OtherEvent
  }

  function TextIn(block: Value): string {
    AsStr(At(block, "text"))
  }

  function ApplyDelta(st: Reader, index: nat, delta: Delta): Progress {
    if index >= |st.blocks| then Reading(st)
    else
      var block := st.blocks[index];
      match delta
      case Text(piece) =>
        WithField(st, index, "text", Str(TextIn(block) + piece), if piece == "" then [] else [piece])
      case Input(json) =>
        var before := if index in st.inputs then st.inputs[index] else "";
        Reading(st.(inputs := st.inputs[index := before + json]))
      case Thinking(thinking) =>
        WithField(st, index, "thinking", Str(AsStr(At(block, "thinking")) + thinking), [])
      case Signature(signature) => WithField(st, index, "signature", signature, [])
      case Citation(citation) =>
        var before := At(block, "citations");
        WithField(st, index, "citations", Arr((if before.Arr? then before.items else []) + [citation]), [])
      case OtherDelta => Reading(st)
  }

  /** The end of a block: a tool use's input is whole. */
  function StopBlock(st: Reader, index: nat, decoder: Decoder): Progress {
    if index !in st.inputs then Reading(st)
    else
      var input, rest := st.inputs[index], st.(inputs := st.inputs - {index});
      if index >= |st.blocks| then Reading(rest)
      else if Blank(input) then WithField(rest, index, "input", Obj(map[]), [])
      else
        match decoder.json(input)
        case None => Broken(Decode("a tool's input"), st.told)
        case Some(value) => WithField(rest, index, "input", value, [])
  }

  function OrElse(v: Value, before: Value): Value {
    if v.Null? then before else v
  }

  /** One event. */
  function Handle(st: Reader, event: Event, decoder: Decoder): Progress {
    match event
    case MessageStart(inputTokens, container) =>
      Reading(st.(inputTokens := inputTokens, container := OrElse(container, st.container)))
    case BlockStart(index, block) => Reading(StartBlock(st, index, block))
    case BlockDelta(index, delta) => ApplyDelta(st, index, delta)
    case BlockStop(index) => StopBlock(st, index, decoder)
    case MessageDelta(stopReason, stopDetails, container, outputTokens) =>
      Reading(st.(stopReason := OrElse(stopReason, st.stopReason),
                  stopDetails := OrElse(stopDetails, st.stopDetails),
                  container := OrElse(container, st.container),
                  outputTokens := if outputTokens.Some? then outputTokens.value else st.outputTokens))
    case MessageStop => Reading(st.(stopped := true))
    case Failed(status, message) => Broken(Api(status, message), st.told)
    case OtherEvent => Reading(st)
  }

  function HandleLine(st: Reader, line: seq<Byte>, decoder: Decoder): Progress {
    match decoder.event(line)
    case None => Reading(st)
    case Some(event) => Handle(st, EventOf(event), decoder)
  }

  /** What one line does to the reader. */
  function Handler(decoder: Decoder): (Reader, seq<Byte>) -> Progress {
    (st, line) => HandleLine(st, line, decoder)
  }

  /** One pass over the complete lines, up to the first that breaks it. */
  function Fold(st: Reader, lines: seq<seq<Byte>>, handle: (Reader, seq<Byte>) -> Progress): Progress
    decreases |lines|
  {
    if lines == [] then Reading(st)
    else
      var after := handle(st, lines[0]);
      if after.Broken? then after else Fold(after.reader, lines[1..], handle)
  }

  lemma FoldLine(st: Reader, buf: seq<Byte>, rest: seq<Byte>, handle: (Reader, seq<Byte>) -> Progress)
    requires ToNewline(buf) < |buf|
    ensures
      var n := ToNewline(buf);
      var after := handle(st, buf[..n + 1]);
      Fold(st, Lines(buf + rest), handle)
        == if after.Broken? then after else Fold(after.reader, Lines(buf[n + 1..] + rest), handle)
  {
    var n := ToNewline(buf);
    var line, lines := buf[..n + 1], Lines(buf[n + 1..] + rest);
    FirstLine(buf, rest);
    assert ([line] + lines)[1..] == lines;
  }

  function Finished(st: Reader): Message {
    Message(NonNull(st.blocks), st.inputTokens, st.outputTokens, st.container, st.stopReason, st.stopDetails)
  }

  /** The bytes are over; `failure`: the connection broke. */
  function Ended(end: Progress, failure: Option<string>): (Result<Message, Fault>, seq<string>) {
    if end.Broken? then (Err(end.fault), end.told)
    else if failure.Some? then (Err(Transport(failure.value)), end.reader.told)
    else if !end.reader.stopped then (Err(Decode("the stream ended before its message did")), end.reader.told)
    else (Ok(Finished(end.reader)), end.reader.told)
  }

  /** What reading `bytes` comes to, in one pass over all of them. */
  function Answer(bytes: seq<Byte>, failure: Option<string>, decoder: Decoder): (Result<Message, Fault>, seq<string>) {
    Ended(Fold(START, Lines(bytes), Handler(decoder)), failure)
  }

  /** The complete lines of `buf` handled; what follows the last is kept. */
  method HandleLines(st: Reader, buf: seq<Byte>, handle: (Reader, seq<Byte>) -> Progress, ghost rest: seq<Byte>)
    returns (after: Progress, left: seq<Byte>)
    ensures ToNewline(left) == |left| || after.Broken?
    ensures Fold(st, Lines(buf + rest), handle)
         == if after.Broken? then after else Fold(after.reader, Lines(left + rest), handle)
  {
    after, left := Reading(st), buf;
    while after.Reading? && ToNewline(left) < |left|
      invariant Fold(st, Lines(buf + rest), handle)
             == if after.Broken? then after else Fold(after.reader, Lines(left + rest), handle)
      decreases |left|
    {
      var n := ToNewline(left);
      FoldLine(after.reader, left, rest, handle);
      after := handle(after.reader, left[..n + 1]);
      left := left[n + 1..];
    }
  }

  lemma NextChunk(buf: seq<Byte>, chunks: seq<seq<Byte>>, i: nat)
    requires i < |chunks|
    ensures buf + Flatten(chunks[i..]) == (buf + chunks[i]) + Flatten(chunks[i + 1..])
  {
    assert chunks[i..][1..] == chunks[i + 1..];
  }

  /** Chunk by chunk, each complete line handled as it comes: what comes of it
      is what one pass over all the bytes gives. */
  method ReadStream(chunks: seq<seq<Byte>>, failure: Option<string>, decoder: Decoder)
    returns (answer: Result<Message, Fault>, told: seq<string>)
    ensures (answer, told) == Answer(Flatten(chunks), failure, decoder)
  {
    var handle := Handler(decoder);
    var st: Progress, buf: seq<Byte>, i := Reading(START), [], 0;
    ghost var all := Fold(START, Lines(Flatten(chunks)), handle);
    assert buf + Flatten(chunks[0..]) == Flatten(chunks);
    while i < |chunks| && st.Reading?
      invariant 0 <= i <= |chunks| && (ToNewline(buf) == |buf| || st.Broken?)
      invariant all == if st.Broken? then st else Fold(st.reader, Lines(buf + Flatten(chunks[i..])), handle)
    {
      NextChunk(buf, chunks, i);
      st, buf := HandleLines(st.reader, buf + chunks[i], handle, Flatten(chunks[i + 1..]));
      i := i + 1;
    }
    assert st.Reading? ==> buf + Flatten(chunks[i..]) == buf;
    if st.Broken? {
      return Err(st.fault), st.told;
    }
    told := st.reader.told;
    if failure.Some? {
      answer := Err(Transport(failure.value));
    } else if !st.reader.stopped {
      answer := Err(Decode("the stream ended before its message did"));
    } else {
      answer := Ok(Finished(st.reader));
    }
  }

  // -- what the answer is -------------------------------------------------------------

  lemma NoNewline(bytes: seq<Byte>)
    requires NEWLINE !in bytes
    ensures ToNewline(bytes) == |bytes| && Lines(bytes) == []
  {
    if bytes != [] {
      NoNewline(bytes[1..]);
    }
  }

  lemma NewlineInNeither(a: seq<Byte>, b: seq<Byte>)
    requires ToNewline(a) == |a| && NEWLINE !in b
    ensures NEWLINE !in a + b
  {
  }

  /** Bytes that end no line change nothing but being read. */
  lemma {:induction false} UnfinishedLineIsIgnored(bytes: seq<Byte>, tail: seq<Byte>)
    requires NEWLINE !in tail
    ensures Lines(bytes + tail) == Lines(bytes)
    decreases |bytes|
  {
    var n := ToNewline(bytes);
    if n < |bytes| {
      UnfinishedLineIsIgnored(bytes[n + 1..], tail);
      FirstLine(bytes, tail);
      assert Lines(bytes) == [bytes[..n + 1]] + Lines(bytes[n + 1..]);
    } else {
      NewlineInNeither(bytes, tail);
      NoNewline(bytes + tail);
    }
  }

  /** The bytes after the last newline. */
  function Tail(bytes: seq<Byte>): (tail: seq<Byte>)
    ensures ToNewline(tail) == |tail|
    decreases |bytes|
  {
    var n := ToNewline(bytes);
    if n == |bytes| then bytes else Tail(bytes[n + 1..])
  }

  lemma JoinedLine(line: seq<Byte>, more: seq<seq<Byte>>, tail: seq<Byte>)
    ensures Flatten([line] + more) + tail == line + (Flatten(more) + tail)
  {
    assert ([line] + more)[1..] == more;
  }

  /** No byte is lost and none read twice: the lines and the unfinished rest
      are what was read. */
  lemma {:induction false} LinesAreTheBytes(bytes: seq<Byte>)
    ensures Flatten(Lines(bytes)) + Tail(bytes) == bytes
    decreases |bytes|
  {
    var n := ToNewline(bytes);
    if n < |bytes| {
      LinesAreTheBytes(bytes[n + 1..]);
      JoinedLine(bytes[..n + 1], Lines(bytes[n + 1..]), Tail(bytes[n + 1..]));
    }
  }

  predicate IsLine(line: seq<Byte>) {
    ToNewline(line) == |line| - 1
  }

  /** Each line ends at its first newline. */
  lemma {:induction false} LinesAreLines(bytes: seq<Byte>)
    ensures forall line | line in Lines(bytes) :: IsLine(line)
    ensures forall line | line in Lines(bytes) ::
      |line| > 0 && line[|line| - 1] == 10 && forall i | 0 <= i < |line| - 1 :: line[i] != 10
    decreases |bytes|
  {
    var n := ToNewline(bytes);
    if n < |bytes| {
      LinesAreLines(bytes[n + 1..]);
      FirstNewlineIsLast(bytes);
    }
  }

  lemma FirstNewlineIsLast(bytes: seq<Byte>)
    requires ToNewline(bytes) < |bytes|
    ensures ToNewline(bytes[..ToNewline(bytes) + 1]) == ToNewline(bytes)
  {
    var n := ToNewline(bytes);
    var line := bytes[..n + 1];
    assert line[n] == NEWLINE;
    assert forall i | 0 <= i < n :: line[i] == bytes[i];
  }

  /** However the network cuts the same bytes, and whatever unfinished line it
      adds, the answer and the pieces told are the same. */
  lemma ChunksDoNotMatter(chunks: seq<seq<Byte>>, chunks': seq<seq<Byte>>, tail: seq<Byte>, failure: Option<string>,
      decoder: Decoder)
    requires Flatten(chunks') == Flatten(chunks) + tail && NEWLINE !in tail
    ensures Answer(Flatten(chunks'), failure, decoder) == Answer(Flatten(chunks), failure, decoder)
  {
    UnfinishedLineIsIgnored(Flatten(chunks), tail);
  }

  /** The events of the lines. */
  function Events(lines: seq<seq<Byte>>, decoder: Decoder): seq<Value> {
    if lines == [] then []
    else
      (if decoder.event(lines[0]).Some? then [decoder.event(lines[0]).value] else [])
        + Events(lines[1..], decoder)
  }

  function EventHandler(decoder: Decoder): (Reader, Value) -> Progress {
    (st, event) => Handle(st, EventOf(event), decoder)
  }

  function FoldEvents(st: Reader, events: seq<Value>, handle: (Reader, Value) -> Progress): Progress
    decreases |events|
  {
    if events == [] then Reading(st)
    else
      var after := handle(st, events[0]);
      if after.Broken? then after else FoldEvents(after.reader, events[1..], handle)
  }

  /** Lines that hold no event change nothing: what is read is a fold over the
      events. */
  lemma {:induction false} FoldIsOverEvents(st: Reader, lines: seq<seq<Byte>>, decoder: Decoder)
    ensures Fold(st, lines, Handler(decoder)) == FoldEvents(st, Events(lines, decoder), EventHandler(decoder))
    decreases |lines|
  {
    if lines != [] {
      var after := Handler(decoder)(st, lines[0]);
      if decoder.event(lines[0]).None? {
        assert Events(lines, decoder) == Events(lines[1..], decoder);
      } else {
        assert Events(lines, decoder)[1..] == Events(lines[1..], decoder);
      }
      if !after.Broken? {
        FoldIsOverEvents(after.reader, lines[1..], decoder);
      }
    }
  }

  lemma {:induction false} FoldEventsConcat(st: Reader, a: seq<Value>, b: seq<Value>,
      handle: (Reader, Value) -> Progress)
    ensures
      var mid := FoldEvents(st, a, handle);
      FoldEvents(st, a + b, handle) == if mid.Broken? then mid else FoldEvents(mid.reader, b, handle)
    decreases |a|
  {
    if a == [] {
      assert a + b == b;
    } else {
      assert (a + b)[0] == a[0] && (a + b)[1..] == a[1..] + b;
      var after := handle(st, a[0]);
      if after.Reading? {
        FoldEventsConcat(after.reader, a[1..], b, handle);
      }
    }
  }

  /** What stays of the blocks, in order. */
  lemma {:induction false} NonNullSplits(blocks: seq<Value>, index: nat)
    requires index < |blocks| && !blocks[index].Null?
    ensures NonNull(blocks) == NonNull(blocks[..index]) + [blocks[index]] + NonNull(blocks[index + 1..])
  {
    if index > 0 {
      NonNullSplits(blocks[1..], index - 1);
      assert blocks[1..][..index - 1] == blocks[..index][1..];
      assert blocks[1..][index..] == blocks[index + 1..];
    }
  }
}
