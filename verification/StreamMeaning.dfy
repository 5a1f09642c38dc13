/**
 What a streamed answer comes to, said of its events as they are on the wire:
 each field of each block, the message around them, and when it is an error.
 */
module StreamMeaning {
  import opened Common
  import opened Json
  import opened EventStream

  // -- events as they came -------------------------------------------------------------

  predicate Is(event: Value, kind: string) {
    At(event, "type") == Str(kind)
  }

  /** The block an event is about; the first when it does not say. */
  function IndexOf(event: Value): nat {
    if At(event, "index").Num? && 0 <= At(event, "index").n < 0x1_0000_0000_0000_0000 then At(event, "index").n else 0
  }

  predicate Starts(event: Value, index: nat) {
    Is(event, "content_block_start") && IndexOf(event) == index
  }

  predicate Stops(event: Value, index: nat) {
    Is(event, "content_block_stop") && IndexOf(event) == index
  }

  predicate Adds(event: Value, index: nat, kind: string) {
    Is(event, "content_block_delta") && IndexOf(event) == index && Is(At(event, "delta"), kind)
  }

  /** What an event's delta has under `key`, if it is of that kind and for that
      block. */
  function Piece(event: Value, index: nat, kind: string, key: string): string {
    if Adds(event, index, kind) then AsStr(At(At(event, "delta"), key)) else ""
  }

  function Pieces(events: seq<Value>, index: nat, kind: string, key: string): string {
    if events == [] then "" else Piece(events[0], index, kind, key) + Pieces(events[1..], index, kind, key)
  }

  function TextOfAll(events: seq<Value>, index: nat): string {
    Pieces(events, index, "text_delta", "text")
  }

  function ThinkingOfAll(events: seq<Value>, index: nat): string {
    Pieces(events, index, "thinking_delta", "thinking")
  }

  function JsonOfAll(events: seq<Value>, index: nat): string {
    Pieces(events, index, "input_json_delta", "partial_json")
  }

  function CitationOf(event: Value, index: nat): seq<Value> {
    if Adds(event, index, "citations_delta") then [At(At(event, "delta"), "citation")] else []
  }

  function CitationsOfAll(events: seq<Value>, index: nat): seq<Value> {
    if events == [] then [] else CitationOf(events[0], index) + CitationsOfAll(events[1..], index)
  }

  /** The signature is the last one added, or the one before. */
  predicate IsLatestSignature(signature: Value, before: Value, events: seq<Value>, index: nat) {
    || (signature == before && forall i | 0 <= i < |events| :: !Adds(events[i], index, "signature_delta"))
    || exists i ::
         && 0 <= i < |events| && Adds(events[i], index, "signature_delta")
         && signature == At(At(events[i], "delta"), "signature")
         && forall j | i < j < |events| :: !Adds(events[j], index, "signature_delta")
  }

  function ItemsIn(v: Value): seq<Value> {
    if v.Arr? then v.items else []
  }

  // -- one event ------------------------------------------------------------------------

  type Handling = (Reader, Value) -> Progress

  function FieldOf(st: Reader, index: nat, key: string): Value {
    if index < |st.blocks| then At(st.blocks[index], key) else Null
  }

  /** What an event that does not start block `index` makes of a field that is
      not its input. */
  function FieldStep(before: Value, event: Value, index: nat, key: string): Value {
    var delta := At(event, "delta");
    if key == "text" && Adds(event, index, "text_delta") then Str(AsStr(before) + AsStr(At(delta, "text")))
    else if key == "thinking" && Adds(event, index, "thinking_delta") then
      Str(AsStr(before) + AsStr(At(delta, "thinking")))
    else if key == "signature" && Adds(event, index, "signature_delta") then At(delta, "signature")
    else if key == "citations" && Adds(event, index, "citations_delta") then
      Arr(ItemsIn(before) + [At(delta, "citation")])
    else before
  }

  function NextField(st: Reader, event: Value, index: nat, key: string, decoder: Decoder): Value {
    if key == "input" && Stops(event, index) && index in st.inputs then InputOf(st.inputs[index], decoder)
    else FieldStep(FieldOf(st, index, key), event, index, key)
  }

  /** A tool's input, once it is whole. */
  function InputOf(json: string, decoder: Decoder): Value {
    if forall c | c in json :: c == ' ' || 9 <= c as int <= 13 then Obj(map[])
    else if decoder.json(json).Some? then decoder.json(json).value
    else Null
  }

  lemma {:induction false} BlankExactly(s: string)
    ensures Blank(s) <==> forall c | c in s :: c == ' ' || 9 <= c as int <= 13
  {
    if s != "" {
      BlankExactly(s[1..]);
      assert s[0] in s && forall c | c in s[1..] :: c in s;
      assert forall c | c in s :: c == s[0] || c in s[1..];
    }
  }

  /** Setting a field sets that field of that block, and nothing else. */
  lemma FieldSet(st: Reader, at: nat, key: string, field: Value, pieces: seq<string>, index: nat, other: string)
    requires at < |st.blocks|
    ensures
      var after := WithField(st, at, key, field, pieces);
      after.Reading? ==>
        && |after.reader.blocks| == |st.blocks| && after.reader.inputs == st.inputs
        && FieldOf(after.reader, index, other)
          == if index == at && other == key then field else FieldOf(st, index, other)
  {
  }

  /** A delta is of the kind it says, and of no other. */
  lemma DeltaIs(delta: Value)
    ensures Is(delta, "text_delta") <==> DeltaOf(delta).Text?
    ensures Is(delta, "input_json_delta") <==> DeltaOf(delta).Input?
    ensures Is(delta, "thinking_delta") <==> DeltaOf(delta).Thinking?
    ensures Is(delta, "signature_delta") <==> DeltaOf(delta).Signature?
    ensures Is(delta, "citations_delta") <==> DeltaOf(delta).Citation?
  {
    KindsDiffer();
  }

  lemma KindsDiffer()
    ensures "text_delta" != "input_json_delta" && "text_delta" != "thinking_delta"
    ensures "text_delta" != "signature_delta" && "text_delta" != "citations_delta"
    ensures "input_json_delta" != "thinking_delta" && "input_json_delta" != "signature_delta"
    ensures "input_json_delta" != "citations_delta" && "thinking_delta" != "signature_delta"
    ensures "thinking_delta" != "citations_delta" && "signature_delta" != "citations_delta"
  {
    assert "thinking_delta"[0] != "input_json_delta"[0] && "signature_delta"[0] != "citations_delta"[0];
    assert "thinking_delta"[0] != "text_delta"[1];
  }

  /** Only one field of the block a delta is for is set, by its kind. */
  lemma DeltaSetsField(st: Reader, at: nat, delta: Delta, index: nat, key: string)
    requires at < |st.blocks| && index < |st.blocks|
    ensures
      var after := ApplyDelta(st, at, delta);
      after.Reading? ==>
        && |after.reader.blocks| == |st.blocks|
        && FieldOf(after.reader, index, key)
          == if index != at then FieldOf(st, index, key) else FieldWith(FieldOf(st, index, key), delta, key)
  {
    var block := st.blocks[at];
    match delta
    case Text(piece) =>
      FieldSet(st, at, "text", Str(TextIn(block) + piece), if piece == "" then [] else [piece], index, key);
    case Thinking(thinking) =>
      FieldSet(st, at, "thinking", Str(AsStr(At(block, "thinking")) + thinking), [], index, key);
    case Signature(signature) => FieldSet(st, at, "signature", signature, [], index, key);
    case Citation(citation) =>
      FieldSet(st, at, "citations", Arr(ItemsIn(At(block, "citations")) + [citation]), [], index, key);
    case _ =>
  }

  function FieldWith(before: Value, delta: Delta, key: string): Value {
    if delta.Text? && key == "text" then Str(AsStr(before) + delta.piece)
    else if delta.Thinking? && key == "thinking" then Str(AsStr(before) + delta.thinking)
    else if delta.Signature? && key == "signature" then delta.signature
    else if delta.Citation? && key == "citations" then Arr(ItemsIn(before) + [delta.citation])
    else before
  }

  lemma DeltaSets(st: Reader, event: Value, decoder: Decoder, index: nat, key: string)
    requires Is(event, "content_block_delta") && index < |st.blocks|
    ensures
      var after := Handle(st, EventOf(event), decoder);
      after.Reading? ==>
        && |after.reader.blocks| == |st.blocks|
        && FieldOf(after.reader, index, key) == NextField(st, event, index, key, decoder)
  {
    var delta := At(event, "delta");
    assert EventOf(event) == BlockDelta(IndexOf(event), DeltaOf(delta));
    DeltaIs(delta);
    FieldIsNext(st, event, index, key, decoder);
    if IndexOf(event) < |st.blocks| {
      DeltaSetsField(st, IndexOf(event), DeltaOf(delta), index, key);
    }
  }

  lemma FieldIsNext(st: Reader, event: Value, index: nat, key: string, decoder: Decoder)
    requires Is(event, "content_block_delta")
    ensures NextField(st, event, index, key, decoder)
      == if index != IndexOf(event) then FieldOf(st, index, key)
         else FieldWith(FieldOf(st, index, key), DeltaOf(At(event, "delta")), key)
  {
    DeltaIs(At(event, "delta"));
  }

  lemma StopSets(st: Reader, event: Value, decoder: Decoder, index: nat, key: string)
    requires Is(event, "content_block_stop") && index < |st.blocks|
    ensures
      var after := Handle(st, EventOf(event), decoder);
      after.Reading? ==>
        && |after.reader.blocks| == |st.blocks|
        && FieldOf(after.reader, index, key) == NextField(st, event, index, key, decoder)
  {
    var at := IndexOf(event);
    if at in st.inputs && at < |st.blocks| {
      var rest := st.(inputs := st.inputs - {at});
      BlankExactly(st.inputs[at]);
      FieldSet(rest, at, "input", InputOf(st.inputs[at], decoder), [], index, key);
    }
  }

  /** Every field after every event. */
  lemma EventSets(st: Reader, event: Value, decoder: Decoder, index: nat, key: string)
    requires index < |st.blocks| && !Starts(event, index)
    ensures
      var after := Handle(st, EventOf(event), decoder);
      after.Reading? ==>
        && |st.blocks| <= |after.reader.blocks|
        && FieldOf(after.reader, index, key) == NextField(st, event, index, key, decoder)
  {
    if Is(event, "content_block_delta") {
      DeltaSets(st, event, decoder, index, key);
    } else if Is(event, "content_block_stop") {
      StopSets(st, event, decoder, index, key);
    } else {
      OtherEventSets(st, event, decoder, index);
    }
  }

  lemma OtherEventSets(st: Reader, event: Value, decoder: Decoder, index: nat)
    requires !Is(event, "content_block_delta") && !Is(event, "content_block_stop")
    requires index < |st.blocks| && !Starts(event, index)
    ensures
      var after := Handle(st, EventOf(event), decoder);
      after.Reading? ==>
        |st.blocks| <= |after.reader.blocks| && after.reader.blocks[index] == st.blocks[index]
  {
    assert !EventOf(event).BlockDelta? && !EventOf(event).BlockStop?;
  }

  // -- a block's fields ---------------------------------------------------------------

  predicate NoStarts(events: seq<Value>, index: nat) {
    forall i | 0 <= i < |events| :: !Starts(events[i], index)
  }

  function FieldAfter(before: Value, events: seq<Value>, index: nat, key: string): Value
    decreases |events|
  {
    if events == [] then before else FieldAfter(FieldStep(before, events[0], index, key), events[1..], index, key)
  }

  predicate Sets(st: Reader, event: Value, after: Progress, index: nat, key: string) {
    after.Reading? ==>
      && |st.blocks| <= |after.reader.blocks|
      && FieldOf(after.reader, index, key) == FieldStep(FieldOf(st, index, key), event, index, key)
  }

  ghost predicate SetsEach(handle: Handling, index: nat, key: string) {
    forall st: Reader, event: Value | index < |st.blocks| && !Starts(event, index) ::
      Sets(st, event, handle(st, event), index, key)
  }

  lemma HandlerSetsEach(decoder: Decoder, index: nat, key: string)
    requires key != "input"
    ensures SetsEach(EventHandler(decoder), index, key)
  {
    forall st: Reader, event: Value | index < |st.blocks| && !Starts(event, index)
      ensures Sets(st, event, EventHandler(decoder)(st, event), index, key)
    {
      EventSets(st, event, decoder, index, key);
    }
  }

  lemma {:induction false} FieldsFold(st: Reader, events: seq<Value>, handle: Handling, index: nat, key: string)
    requires SetsEach(handle, index, key) && index < |st.blocks| && NoStarts(events, index)
    ensures
      var end := FoldEvents(st, events, handle);
      end.Reading? ==>
        && index < |end.reader.blocks|
        && FieldOf(end.reader, index, key) == FieldAfter(FieldOf(st, index, key), events, index, key)
    decreases |events|
  {
    if events != [] {
      var after := handle(st, events[0]);
      assert Sets(st, events[0], after, index, key);
      if after.Reading? {
        FieldsFold(after.reader, events[1..], handle, index, key);
      }
    }
  }

  lemma {:induction false} TextAfter(before: Value, events: seq<Value>, index: nat)
    ensures AsStr(FieldAfter(before, events, index, "text")) == AsStr(before) + TextOfAll(events, index)
    decreases |events|
  {
    if events == [] {
      assert AsStr(before) + "" == AsStr(before);
    } else {
      var next := FieldStep(before, events[0], index, "text");
      TextAfter(next, events[1..], index);
      assert AsStr(next) == AsStr(before) + Piece(events[0], index, "text_delta", "text");
    }
  }

  lemma {:induction false} ThinkingAfter(before: Value, events: seq<Value>, index: nat)
    ensures AsStr(FieldAfter(before, events, index, "thinking")) == AsStr(before) + ThinkingOfAll(events, index)
    decreases |events|
  {
    if events == [] {
      assert AsStr(before) + "" == AsStr(before);
    } else {
      var next := FieldStep(before, events[0], index, "thinking");
      ThinkingAfter(next, events[1..], index);
      assert AsStr(next) == AsStr(before) + Piece(events[0], index, "thinking_delta", "thinking");
    }
  }

  lemma {:induction false} SignatureAfter(before: Value, events: seq<Value>, index: nat)
    ensures IsLatestSignature(FieldAfter(before, events, index, "signature"), before, events, index)
    decreases |events|
  {
    if events != [] {
      var next, rest := FieldStep(before, events[0], index, "signature"), events[1..];
      SignatureAfter(next, rest, index);
      assert forall j | 0 < j < |events| :: events[j] == rest[j - 1];
      if i :| 0 <= i < |rest| && Adds(rest[i], index, "signature_delta")
              && FieldAfter(next, rest, index, "signature") == At(At(rest[i], "delta"), "signature")
              && forall j | i < j < |rest| :: !Adds(rest[j], index, "signature_delta") {
        assert events[i + 1] == rest[i];
      }
    }
  }

  function Cited(before: Value, citations: seq<Value>): Value {
    if citations == [] then before else Arr(ItemsIn(before) + citations)
  }

  lemma {:induction false} CitationsAfter(before: Value, events: seq<Value>, index: nat)
    ensures FieldAfter(before, events, index, "citations") == Cited(before, CitationsOfAll(events, index))
    decreases |events|
  {
    if events != [] {
      var next := FieldStep(before, events[0], index, "citations");
      CitationsAfter(next, events[1..], index);
      assert next == Cited(before, CitationOf(events[0], index));
      CitedTwice(before, CitationOf(events[0], index), CitationsOfAll(events[1..], index));
    }
  }

  lemma CitedTwice(before: Value, first: seq<Value>, more: seq<Value>)
    ensures Cited(Cited(before, first), more) == Cited(before, first + more)
  {
    assert first == [] ==> first + more == more;
    assert more == [] ==> first + more == first;
    assert (ItemsIn(before) + first) + more == ItemsIn(before) + (first + more);
  }

  predicate IsPlain(key: string) {
    key != "text" && key != "thinking" && key != "signature" && key != "citations" && key != "input"
  }

  lemma {:induction false} OthersStay(before: Value, events: seq<Value>, index: nat, key: string)
    requires IsPlain(key)
    ensures FieldAfter(before, events, index, key) == before
  {
    if events != [] {
      OthersStay(before, events[1..], index, key);
    }
  }

  /** From the event that starts a block: its text and its thinking are what
      they started with followed by their deltas in order; its signature is the
      last one; its citations are added in order; its other fields stay,
      whatever else comes between. */
  ghost predicate BlockIs(read: Value, index: nat, block: Value, events: seq<Value>) {
    && TextIn(read) == TextIn(block) + TextOfAll(events, index)
    && AsStr(At(read, "thinking")) == AsStr(At(block, "thinking")) + ThinkingOfAll(events, index)
    && IsLatestSignature(At(read, "signature"), At(block, "signature"), events, index)
    && At(read, "citations") == Cited(At(block, "citations"), CitationsOfAll(events, index))
    && forall key | IsPlain(key) :: At(read, key) == At(block, key)
  }

  ghost predicate ReadsBlock(st: Reader, index: nat, block: Value, events: seq<Value>) {
    index < |st.blocks| && BlockIs(st.blocks[index], index, block, events)
  }

  lemma StartedBlock(st: Reader, start: Value, index: nat, decoder: Decoder)
    requires Starts(start, index)
    ensures
      var after := EventHandler(decoder)(st, start);
      && after.Reading? && |after.reader.blocks| >= |st.blocks| && index < |after.reader.blocks|
      && after.reader.blocks[index] == At(start, "content_block") && after.reader.inputs == st.inputs
  {
  }

  lemma FieldFolds(st: Reader, events: seq<Value>, decoder: Decoder, index: nat, key: string)
    requires key != "input" && index < |st.blocks| && NoStarts(events, index)
    ensures
      var end := FoldEvents(st, events, EventHandler(decoder));
      end.Reading? ==>
        && index < |end.reader.blocks|
        && At(end.reader.blocks[index], key) == FieldAfter(At(st.blocks[index], key), events, index, key)
  {
    HandlerSetsEach(decoder, index, key);
    FieldsFold(st, events, EventHandler(decoder), index, key);
  }

  lemma KeysAreNotInput()
    ensures "text" != "input" && "thinking" != "input" && "signature" != "input" && "citations" != "input"
  {
    assert "thinking"[0] != "input"[0];
  }

  lemma OthersFold(st: Reader, events: seq<Value>, decoder: Decoder, index: nat, key: string)
    requires IsPlain(key) && index < |st.blocks| && NoStarts(events, index)
    ensures
      var end := FoldEvents(st, events, EventHandler(decoder));
      end.Reading? ==>
        index < |end.reader.blocks| && At(end.reader.blocks[index], key) == At(st.blocks[index], key)
  {
    FieldFolds(st, events, decoder, index, key);
    OthersStay(At(st.blocks[index], key), events, index, key);
  }

  lemma StartedReads(st: Reader, index: nat, events: seq<Value>, decoder: Decoder)
    requires index < |st.blocks| && NoStarts(events, index)
    ensures
      var end := FoldEvents(st, events, EventHandler(decoder));
      end.Reading? ==> ReadsBlock(end.reader, index, st.blocks[index], events)
  {
    var block := st.blocks[index];
    KeysAreNotInput();
    FieldFolds(st, events, decoder, index, "text");
    TextAfter(At(block, "text"), events, index);
    FieldFolds(st, events, decoder, index, "thinking");
    ThinkingAfter(At(block, "thinking"), events, index);
    FieldFolds(st, events, decoder, index, "signature");
    SignatureAfter(At(block, "signature"), events, index);
    FieldFolds(st, events, decoder, index, "citations");
    CitationsAfter(At(block, "citations"), events, index);
    forall key | IsPlain(key)
      ensures var end := FoldEvents(st, events, EventHandler(decoder));
        end.Reading? ==> index < |end.reader.blocks| && At(end.reader.blocks[index], key) == At(block, key)
    {
      OthersFold(st, events, decoder, index, key);
    }
  }

  lemma BlockIsStartAndDeltas(st: Reader, start: Value, index: nat, events: seq<Value>, decoder: Decoder)
    requires Starts(start, index) && NoStarts(events, index)
    ensures
      var end := FoldEvents(st, [start] + events, EventHandler(decoder));
      end.Reading? ==> ReadsBlock(end.reader, index, At(start, "content_block"), events)
  {
    assert ([start] + events)[1..] == events;
    StartedBlock(st, start, index, decoder);
    StartedReads(EventHandler(decoder)(st, start).reader, index, events, decoder);
  }

  // -- a tool's input -----------------------------------------------------------------

  /** How many blocks there is room for: one more than the last started. */
  function Room(events: seq<Value>): nat {
    if events == [] then 0
    else
      var before, last := Room(events[..|events| - 1]), events[|events| - 1];
      if Is(last, "content_block_start") && before <= IndexOf(last) then IndexOf(last) + 1 else before
  }

  /** The pieces of a block's input that came since it last stopped, if any. */
  function Unfinished(events: seq<Value>, index: nat): Option<string> {
    if events == [] then None
    else
      var before, last := events[..|events| - 1], events[|events| - 1];
      if Stops(last, index) then None
      else if Adds(last, index, "input_json_delta") && index < Room(before) then
        Some((if Unfinished(before, index).Some? then Unfinished(before, index).value else "")
             + AsStr(At(At(last, "delta"), "partial_json")))
      else Unfinished(before, index)
  }

  /** What last started block `index`; `null` if nothing did. */
  function LastStart(events: seq<Value>, index: nat): Value {
    if events == [] then Null
    else
      var last := events[|events| - 1];
      if Starts(last, index) then At(last, "content_block") else LastStart(events[..|events| - 1], index)
  }

  /** A field can be set on an object, and `null` becomes one. */
  predicate TakesFields(v: Value) {
    v.Obj? || v.Null?
  }

  predicate AddsField(event: Value) {
    Is(event, "content_block_delta")
    && var delta := At(event, "delta");
       || Is(delta, "text_delta") || Is(delta, "thinking_delta")
       || Is(delta, "signature_delta") || Is(delta, "citations_delta")
  }

  predicate IsWhite(json: string) {
    forall c | c in json :: c == ' ' || 9 <= c as int <= 13
  }

  predicate Decodes(json: string, decoder: Decoder) {
    IsWhite(json) || decoder.json(json).Some?
  }

  /** `event` ends the reading, behind `events`: an error event, an input that
      does not decode, or a field for a block that is no object. */
  predicate Breaks(events: seq<Value>, event: Value, decoder: Decoder) {
    var index := IndexOf(event);
    || Is(event, "error")
    || (AddsField(event) && index < Room(events) && !TakesFields(LastStart(events, index)))
    || (Is(event, "content_block_stop") && Unfinished(events, index).Some?
        && !(Decodes(Unfinished(events, index).value, decoder) && TakesFields(LastStart(events, index))))
  }

  /** And this is what it is then. */
  function FaultOf(events: seq<Value>, event: Value, decoder: Decoder): Fault {
    if Is(event, "error") then
      var error := At(event, "error");
      Api(if Is(error, "overloaded_error") then 529 else 500,
          if At(error, "message").Str? then At(error, "message").s else "the stream failed")
    else if Is(event, "content_block_stop") && Unfinished(events, IndexOf(event)).Some?
            && !Decodes(Unfinished(events, IndexOf(event)).value, decoder) then
      Decode("a tool's input")
    else Panic
  }

  /** The reader has room for the blocks started, the inputs not finished, and
      blocks that take fields just where what started them does. */
  ghost predicate Tracks(st: Reader, events: seq<Value>) {
    && |st.blocks| == Room(events)
    && (forall i: nat :: i in st.inputs <==> Unfinished(events, i).Some?)
    && (forall i: nat | i in st.inputs :: Unfinished(events, i) == Some(st.inputs[i]) && i < |st.blocks|)
    && (forall i: nat | i < |st.blocks| :: TakesFields(st.blocks[i]) <==> TakesFields(LastStart(events, i)))
  }

  lemma OneMoreEvent(events: seq<Value>, event: Value)
    ensures var all := events + [event];
      all != [] && all[..|all| - 1] == events && all[|all| - 1] == event
  {
  }

  lemma SetFieldTakes(block: Value, key: string, field: Value)
    ensures SetField(block, key, field).Some? <==> TakesFields(block)
    ensures SetField(block, key, field).Some? ==> TakesFields(SetField(block, key, field).value)
  {
  }

  ghost predicate Follows(st: Reader, after: Progress, events: seq<Value>, event: Value, decoder: Decoder) {
    && (after.Broken? <==> Breaks(events, event, decoder))
    && (after.Broken? ==> after.fault == FaultOf(events, event, decoder) && after.told == st.told)
    && (after.Reading? ==> Tracks(after.reader, events + [event]))
  }

  lemma WithFieldTracks(st: Reader, at: nat, key: string, field: Value, pieces: seq<string>)
    requires at < |st.blocks|
    ensures
      var after := WithField(st, at, key, field, pieces);
      && (after.Broken? <==> !TakesFields(st.blocks[at]))
      && (after.Broken? ==> after.fault == Panic && after.told == st.told)
      && (after.Reading? ==>
            && after.reader.inputs == st.inputs && |after.reader.blocks| == |st.blocks|
            && forall i: nat | i < |st.blocks| :: TakesFields(after.reader.blocks[i]) <==> TakesFields(st.blocks[i]))
  {
    SetFieldTakes(st.blocks[at], key, field);
  }

  lemma {:induction false} NotStarted(events: seq<Value>, index: nat)
    requires index >= Room(events)
    ensures LastStart(events, index) == Null
  {
    if events != [] {
      NotStarted(events[..|events| - 1], index);
    }
  }

  lemma StartFollows(st: Reader, events: seq<Value>, event: Value, decoder: Decoder)
    requires Tracks(st, events) && Is(event, "content_block_start")
    ensures Follows(st, Handle(st, EventOf(event), decoder), events, event, decoder)
  {
    OneMoreEvent(events, event);
    StartedBlock(st, event, IndexOf(event), decoder);
    forall i: nat | i >= Room(events) ensures LastStart(events, i) == Null {
      NotStarted(events, i);
    }
  }

  /** An event that starts and stops no block and adds to no input. */
  predicate Quiet(event: Value) {
    && !Is(event, "content_block_start") && !Is(event, "content_block_stop")
    && !(Is(event, "content_block_delta") && Is(At(event, "delta"), "input_json_delta"))
  }

  lemma QuietKeepsTrack(st: Reader, after: Reader, events: seq<Value>, event: Value)
    requires Tracks(st, events) && Quiet(event) && after.inputs == st.inputs && |after.blocks| == |st.blocks|
    requires forall i: nat | i < |st.blocks| :: TakesFields(after.blocks[i]) <==> TakesFields(st.blocks[i])
    ensures Tracks(after, events + [event])
  {
    OneMoreEvent(events, event);
  }

  lemma DeltaTracks(st: Reader, at: nat, delta: Delta)
    requires !delta.Input?
    ensures
      var after := ApplyDelta(st, at, delta);
      && (after.Broken? <==> at < |st.blocks| && !delta.OtherDelta? && !TakesFields(st.blocks[at]))
      && (after.Broken? ==> after.fault == Panic && after.told == st.told)
      && (after.Reading? ==>
            && after.reader.inputs == st.inputs && |after.reader.blocks| == |st.blocks|
            && forall i: nat | i < |st.blocks| :: TakesFields(after.reader.blocks[i]) <==> TakesFields(st.blocks[i]))
  {
    if at < |st.blocks| {
      var block := st.blocks[at];
      match delta
      case Text(piece) =>
        WithFieldTracks(st, at, "text", Str(TextIn(block) + piece), if piece == "" then [] else [piece]);
      case Thinking(thinking) => WithFieldTracks(st, at, "thinking", Str(AsStr(At(block, "thinking")) + thinking), []);
      case Signature(signature) => WithFieldTracks(st, at, "signature", signature, []);
      case Citation(citation) =>
        WithFieldTracks(st, at, "citations", Arr(ItemsIn(At(block, "citations")) + [citation]), []);
      case _ =>
    }
  }

  lemma InputFollows(st: Reader, events: seq<Value>, event: Value, decoder: Decoder)
    requires Tracks(st, events) && Is(event, "content_block_delta") && Is(At(event, "delta"), "input_json_delta")
    ensures Follows(st, Handle(st, EventOf(event), decoder), events, event, decoder)
  {
    DeltaIs(At(event, "delta"));
    OneMoreEvent(events, event);
    assert EventOf(event) == BlockDelta(IndexOf(event), DeltaOf(At(event, "delta")));
  }

  lemma DeltaFollows(st: Reader, events: seq<Value>, event: Value, decoder: Decoder)
    requires Tracks(st, events) && Is(event, "content_block_delta") && !Is(At(event, "delta"), "input_json_delta")
    ensures Follows(st, Handle(st, EventOf(event), decoder), events, event, decoder)
  {
    var delta := DeltaOf(At(event, "delta"));
    DeltaIs(At(event, "delta"));
    assert EventOf(event) == BlockDelta(IndexOf(event), delta);
    DeltaTracks(st, IndexOf(event), delta);
    var after := ApplyDelta(st, IndexOf(event), delta);
    if after.Reading? {
      QuietKeepsTrack(st, after.reader, events, event);
    }
  }

  lemma StopFollows(st: Reader, events: seq<Value>, event: Value, decoder: Decoder)
    requires Tracks(st, events) && Is(event, "content_block_stop")
    ensures Follows(st, Handle(st, EventOf(event), decoder), events, event, decoder)
  {
    var at := IndexOf(event);
    OneMoreEvent(events, event);
    if at in st.inputs {
      BlankExactly(st.inputs[at]);
      WithFieldTracks(st.(inputs := st.inputs - {at}), at, "input", InputOf(st.inputs[at], decoder), []);
    }
  }

  lemma OtherFollows(st: Reader, events: seq<Value>, event: Value, decoder: Decoder)
    requires Tracks(st, events)
    requires !Is(event, "content_block_start") && !Is(event, "content_block_delta") && !Is(event, "content_block_stop")
    ensures Follows(st, Handle(st, EventOf(event), decoder), events, event, decoder)
  {
    var after := Handle(st, EventOf(event), decoder);
    assert after.Reading? ==> after.reader.blocks == st.blocks && after.reader.inputs == st.inputs;
    if after.Reading? {
      QuietKeepsTrack(st, after.reader, events, event);
    }
  }

  lemma EventFollows(st: Reader, events: seq<Value>, event: Value, decoder: Decoder)
    requires Tracks(st, events)
    ensures Follows(st, Handle(st, EventOf(event), decoder), events, event, decoder)
  {
    if Is(event, "content_block_start") {
      StartFollows(st, events, event, decoder);
    } else if Is(event, "content_block_delta") {
      if Is(At(event, "delta"), "input_json_delta") {
        InputFollows(st, events, event, decoder);
      } else {
        DeltaFollows(st, events, event, decoder);
      }
    } else if Is(event, "content_block_stop") {
      StopFollows(st, events, event, decoder);
    } else {
      OtherFollows(st, events, event, decoder);
    }
  }

  ghost predicate FollowsEach(handle: Handling, decoder: Decoder) {
    forall st: Reader, events: seq<Value>, event: Value | Tracks(st, events) ::
      Follows(st, handle(st, event), events, event, decoder)
  }

  lemma HandlerFollowsEach(decoder: Decoder)
    ensures FollowsEach(EventHandler(decoder), decoder)
  {
    forall st: Reader, events: seq<Value>, event: Value | Tracks(st, events)
      ensures Follows(st, EventHandler(decoder)(st, event), events, event, decoder)
    {
      EventFollows(st, events, event, decoder);
    }
  }

  /** The first of `events`, behind `before`, that ends the reading. */
  ghost predicate BreaksAt(before: seq<Value>, events: seq<Value>, i: int, decoder: Decoder) {
    && 0 <= i < |events| && Breaks(before + events[..i], events[i], decoder)
    && forall j | 0 <= j < i :: !Breaks(before + events[..j], events[j], decoder)
  }

  ghost predicate NeverBreaks(before: seq<Value>, events: seq<Value>, decoder: Decoder) {
    forall i | 0 <= i < |events| :: !Breaks(before + events[..i], events[i], decoder)
  }

  ghost predicate EndsAsSaid(end: Progress, before: seq<Value>, events: seq<Value>, decoder: Decoder) {
    if end.Reading? then Tracks(end.reader, before + events) && NeverBreaks(before, events, decoder)
    else exists i :: BreaksAt(before, events, i, decoder)
                     && end.fault == FaultOf(before + events[..i], events[i], decoder)
  }

  lemma Shifted(before: seq<Value>, events: seq<Value>, i: nat)
    requires events != [] && i < |events| - 1
    ensures (before + [events[0]]) + events[1..][..i] == before + events[..i + 1]
    ensures events[1..][i] == events[i + 1]
  {
    assert events[..i + 1] == [events[0]] + events[1..][..i];
  }

  lemma BreaksShifted(before: seq<Value>, events: seq<Value>, decoder: Decoder, i: nat)
    requires 0 < i < |events|
    ensures Breaks(before + events[..i], events[i], decoder)
      == Breaks((before + [events[0]]) + events[1..][..i - 1], events[1..][i - 1], decoder)
  {
    Shifted(before, events, i - 1);
  }

  lemma NeverBreaksLater(before: seq<Value>, events: seq<Value>, decoder: Decoder)
    requires events != [] && !Breaks(before, events[0], decoder)
    requires NeverBreaks(before + [events[0]], events[1..], decoder)
    ensures NeverBreaks(before, events, decoder)
  {
    forall i | 0 <= i < |events| ensures !Breaks(before + events[..i], events[i], decoder) {
      if i == 0 {
        assert before + events[..0] == before;
      } else {
        BreaksShifted(before, events, decoder, i);
      }
    }
  }

  lemma BreaksLater(before: seq<Value>, events: seq<Value>, decoder: Decoder, i: nat)
    requires events != [] && !Breaks(before, events[0], decoder)
    requires BreaksAt(before + [events[0]], events[1..], i, decoder)
    ensures BreaksAt(before, events, i + 1, decoder)
  {
    BreaksShifted(before, events, decoder, i + 1);
    forall j | 0 <= j < i + 1 ensures !Breaks(before + events[..j], events[j], decoder) {
      if j == 0 {
        assert before + events[..0] == before;
      } else {
        BreaksShifted(before, events, decoder, j);
      }
    }
  }

  lemma EndsOneLater(end: Progress, before: seq<Value>, events: seq<Value>, decoder: Decoder)
    requires events != [] && !Breaks(before, events[0], decoder)
    requires EndsAsSaid(end, before + [events[0]], events[1..], decoder)
    ensures EndsAsSaid(end, before, events, decoder)
  {
    var first, rest := before + [events[0]], events[1..];
    if end.Reading? {
      assert first + rest == before + events;
      NeverBreaksLater(before, events, decoder);
    } else {
      var i :| BreaksAt(first, rest, i, decoder) && end.fault == FaultOf(first + rest[..i], rest[i], decoder);
      Shifted(before, events, i);
      BreaksLater(before, events, decoder, i);
    }
  }

  lemma {:induction false} RunEndsAsSaid(
    st: Reader, before: seq<Value>, events: seq<Value>, handle: Handling, decoder: Decoder)
    requires FollowsEach(handle, decoder) && Tracks(st, before)
    ensures EndsAsSaid(FoldEvents(st, events, handle), before, events, decoder)
    decreases |events|
  {
    if events == [] {
      assert before + events == before;
    } else {
      var after := handle(st, events[0]);
      assert Follows(st, after, before, events[0], decoder);
      assert before + events[..0] == before;
      if after.Reading? {
        RunEndsAsSaid(after.reader, before + [events[0]], events[1..], handle, decoder);
        EndsOneLater(FoldEvents(st, events, handle), before, events, decoder);
      } else {
        assert BreaksAt(before, events, 0, decoder);
      }
    }
  }

  // -- an input's pieces --------------------------------------------------------------

  predicate NoneStops(events: seq<Value>, index: nat) {
    forall i | 0 <= i < |events| :: !Stops(events[i], index)
  }

  predicate NoneAddsInput(events: seq<Value>, index: nat) {
    forall i | 0 <= i < |events| :: !Adds(events[i], index, "input_json_delta")
  }

  /** What is gathered of an input: `before`, and the pieces in order. */
  function Gathered(before: Option<string>, events: seq<Value>, index: nat): Option<string> {
    if NoneAddsInput(events, index) then before
    else Some((if before.Some? then before.value else "") + JsonOfAll(events, index))
  }

  function Pending(st: Reader, index: nat): Option<string> {
    if index in st.inputs then Some(st.inputs[index]) else None
  }

  predicate Gathers(st: Reader, event: Value, after: Progress, index: nat) {
    after.Reading? ==>
      && |st.blocks| <= |after.reader.blocks|
      && FieldOf(after.reader, index, "input") == FieldOf(st, index, "input")
      && Pending(after.reader, index) == Gathered(Pending(st, index), [event], index)
  }

  ghost predicate GathersEach(handle: Handling, index: nat) {
    forall st: Reader, event: Value | index < |st.blocks| && !Starts(event, index) && !Stops(event, index) ::
      Gathers(st, event, handle(st, event), index)
  }

  lemma GatheredOne(before: Option<string>, event: Value, index: nat)
    ensures Gathered(before, [event], index)
      == if Adds(event, index, "input_json_delta") then
           Some((if before.Some? then before.value else "") + AsStr(At(At(event, "delta"), "partial_json")))
         else before
  {
    assert [event][0] == event && [event][1..] == [];
    assert JsonOfAll([], index) == "";
    var piece := Piece(event, index, "input_json_delta", "partial_json");
    assert piece + "" == piece;
  }

  lemma DeltaKeepsPending(st: Reader, at: nat, delta: Delta, index: nat)
    requires at != index || !delta.Input?
    ensures var after := ApplyDelta(st, at, delta);
      after.Reading? ==> Pending(after.reader, index) == Pending(st, index)
  {
  }

  lemma OtherKeepsPending(st: Reader, event: Value, decoder: Decoder, index: nat)
    requires !Stops(event, index) && !Adds(event, index, "input_json_delta")
    ensures
      var after := Handle(st, EventOf(event), decoder);
      after.Reading? ==> Pending(after.reader, index) == Pending(st, index)
  {
    var decoded := EventOf(event);
    if decoded.BlockDelta? {
      DeltaIs(At(event, "delta"));
      DeltaKeepsPending(st, IndexOf(event), decoded.delta, index);
    } else if decoded.BlockStop? {
      StopKeepsPending(st, decoded.index, decoder, index);
    }
  }

  lemma StopKeepsPending(st: Reader, at: nat, decoder: Decoder, index: nat)
    requires at != index
    ensures var after := StopBlock(st, at, decoder);
      after.Reading? ==> Pending(after.reader, index) == Pending(st, index)
  {
  }

  lemma InputKeepsPending(st: Reader, event: Value, decoder: Decoder, index: nat)
    requires index < |st.blocks| && Adds(event, index, "input_json_delta")
    ensures
      var after := Handle(st, EventOf(event), decoder);
      after.Reading? && Pending(after.reader, index) == Gathered(Pending(st, index), [event], index)
  {
    DeltaIs(At(event, "delta"));
    GatheredOne(Pending(st, index), event, index);
    assert EventOf(event) == BlockDelta(index, DeltaOf(At(event, "delta")));
  }

  lemma HandlerGathersEach(decoder: Decoder, index: nat)
    ensures GathersEach(EventHandler(decoder), index)
  {
    forall st: Reader, event: Value | index < |st.blocks| && !Starts(event, index) && !Stops(event, index)
      ensures Gathers(st, event, EventHandler(decoder)(st, event), index)
    {
      EventSets(st, event, decoder, index, "input");
      GatheredOne(Pending(st, index), event, index);
      if Adds(event, index, "input_json_delta") {
        InputKeepsPending(st, event, decoder, index);
      } else {
        OtherKeepsPending(st, event, decoder, index);
      }
    }
  }

  lemma NoneOfBoth(event: Value, events: seq<Value>, index: nat)
    ensures NoneAddsInput([event] + events, index)
      <==> !Adds(event, index, "input_json_delta") && NoneAddsInput(events, index)
  {
    var all := [event] + events;
    assert all[0] == event && forall i | 0 < i < |all| :: all[i] == events[i - 1];
    assert forall i | 0 <= i < |events| :: events[i] == all[i + 1];
  }

  lemma GatheredMore(before: Option<string>, event: Value, events: seq<Value>, index: nat)
    ensures Gathered(Gathered(before, [event], index), events, index) == Gathered(before, [event] + events, index)
  {
    GatheredOne(before, event, index);
    NoneOfBoth(event, events, index);
    NoPiecesAreEmpty(events, index);
    var piece, more := Piece(event, index, "input_json_delta", "partial_json"), JsonOfAll(events, index);
    assert ([event] + events)[1..] == events;
    assert JsonOfAll([event] + events, index) == piece + more;
    var b := if before.Some? then before.value else "";
    assert (b + piece) + more == b + (piece + more);
    assert more == "" ==> b + piece == b + (piece + more);
    assert piece == "" ==> b + more == b + (piece + more);
  }

  lemma {:induction false} NoPiecesAreEmpty(events: seq<Value>, index: nat)
    ensures NoneAddsInput(events, index) ==> JsonOfAll(events, index) == ""
  {
    if events != [] {
      NoPiecesAreEmpty(events[1..], index);
    }
  }

  lemma {:induction false} PiecesGather(st: Reader, events: seq<Value>, handle: Handling, index: nat)
    requires GathersEach(handle, index) && index < |st.blocks| && NoStarts(events, index) && NoneStops(events, index)
    ensures
      var end := FoldEvents(st, events, handle);
      end.Reading? ==>
        && index < |end.reader.blocks| && FieldOf(end.reader, index, "input") == FieldOf(st, index, "input")
        && Pending(end.reader, index) == Gathered(Pending(st, index), events, index)
    decreases |events|
  {
    if events != [] {
      var after := handle(st, events[0]);
      assert Gathers(st, events[0], after, index);
      if after.Reading? {
        PiecesGather(after.reader, events[1..], handle, index);
        GatheredMore(Pending(st, index), events[0], events[1..], index);
        assert events == [events[0]] + events[1..];
      }
    }
  }

  /** With nothing gathered and nothing added, the input stays, whatever stops. */
  predicate Settles(st: Reader, after: Progress, index: nat) {
    after.Reading? ==>
      && |st.blocks| <= |after.reader.blocks|
      && FieldOf(after.reader, index, "input") == FieldOf(st, index, "input") && Pending(after.reader, index).None?
  }

  ghost predicate SettlesEach(handle: Handling, index: nat) {
    forall st: Reader, event: Value |
      && index < |st.blocks| && Pending(st, index).None?
      && !Starts(event, index) && !Adds(event, index, "input_json_delta") ::
      Settles(st, handle(st, event), index)
  }

  lemma HandlerSettlesEach(decoder: Decoder, index: nat)
    ensures SettlesEach(EventHandler(decoder), index)
  {
    forall st: Reader, event: Value |
      && index < |st.blocks| && Pending(st, index).None?
      && !Starts(event, index) && !Adds(event, index, "input_json_delta")
      ensures Settles(st, EventHandler(decoder)(st, event), index)
    {
      EventSets(st, event, decoder, index, "input");
      if !Stops(event, index) {
        OtherKeepsPending(st, event, decoder, index);
      }
    }
  }

  lemma {:induction false} InputSettles(st: Reader, events: seq<Value>, handle: Handling, index: nat)
    requires SettlesEach(handle, index) && index < |st.blocks| && Pending(st, index).None?
    requires NoStarts(events, index) && NoneAddsInput(events, index)
    ensures
      var end := FoldEvents(st, events, handle);
      end.Reading? ==>
        index < |end.reader.blocks| && FieldOf(end.reader, index, "input") == FieldOf(st, index, "input")
    decreases |events|
  {
    if events != [] {
      var after := handle(st, events[0]);
      assert Settles(st, after, index);
      if after.Reading? {
        InputSettles(after.reader, events[1..], handle, index);
      }
    }
  }

  lemma StopTakesInput(st: Reader, stop: Value, decoder: Decoder, index: nat)
    requires Stops(stop, index) && index < |st.blocks|
    ensures
      var after := EventHandler(decoder)(st, stop);
      && (Pending(st, index).Some? && !Decodes(Pending(st, index).value, decoder) ==> after.Broken?)
      && (after.Reading? ==>
            && index < |after.reader.blocks| && Pending(after.reader, index).None?
            && FieldOf(after.reader, index, "input")
              == if Pending(st, index).Some? then InputOf(Pending(st, index).value, decoder)
                 else FieldOf(st, index, "input"))
  {
    EventSets(st, stop, decoder, index, "input");
    if index in st.inputs {
      BlankExactly(st.inputs[index]);
    }
  }

  // -- the message around the blocks ----------------------------------------------------

  /** What the events last said, of those that say anything; else `before`. */
  function LastOf(events: seq<Value>, says: Value -> Value, before: Value): Value {
    if events == [] then before
    else
      var last := says(events[|events| - 1]);
      if last.Null? then LastOf(events[..|events| - 1], says, before) else last
  }

  function StopReasonIn(event: Value): Value {
    if Is(event, "message_delta") then At(At(event, "delta"), "stop_reason") else Null
  }

  function StopDetailsIn(event: Value): Value {
    if Is(event, "message_delta") then At(At(event, "delta"), "stop_details") else Null
  }

  function ContainerIn(event: Value): Value {
    if Is(event, "message_start") then At(At(event, "message"), "container")
    else if Is(event, "message_delta") then At(At(event, "delta"), "container")
    else Null
  }

  function InputTokensIn(event: Value): Value {
    if Is(event, "message_start") then Num(AsNat(At(At(At(event, "message"), "usage"), "input_tokens"))) else Null
  }

  function OutputTokensIn(event: Value): Value {
    var output := At(At(event, "usage"), "output_tokens");
    if Is(event, "message_delta") && IsU64(output) then output else Null
  }

  function StopIn(event: Value): Value {
    if Is(event, "message_stop") then Bool(true) else Null
  }

  predicate Says(st: Reader, event: Value, after: Progress, see: Reader -> Value, says: Value -> Value) {
    after.Reading? ==> see(after.reader) == if says(event).Null? then see(st) else says(event)
  }

  ghost predicate SaysEach(handle: Handling, see: Reader -> Value, says: Value -> Value) {
    forall st, event :: Says(st, event, handle(st, event), see, says)
  }

  lemma {:induction false} LastOfOneBefore(event: Value, events: seq<Value>, says: Value -> Value, before: Value)
    ensures LastOf([event] + events, says, before)
      == LastOf(events, says, if says(event).Null? then before else says(event))
    decreases |events|
  {
    var all := [event] + events;
    if events == [] {
      assert all == [event] && all[..0] == [];
    } else {
      assert all[..|all| - 1] == [event] + events[..|events| - 1];
      LastOfOneBefore(event, events[..|events| - 1], says, before);
    }
  }

  lemma {:induction false} LastIsSaid(
    st: Reader, events: seq<Value>, handle: Handling, see: Reader -> Value, says: Value -> Value)
    requires SaysEach(handle, see, says)
    ensures var end := FoldEvents(st, events, handle);
      end.Reading? ==> see(end.reader) == LastOf(events, says, see(st))
    decreases |events|
  {
    if events != [] {
      var after := handle(st, events[0]);
      assert Says(st, events[0], after, see, says);
      if after.Reading? {
        LastIsSaid(after.reader, events[1..], handle, see, says);
        LastOfOneBefore(events[0], events[1..], says, see(st));
        assert events == [events[0]] + events[1..];
      }
    }
  }

  /** What the reader has read of the message around the blocks. */
  datatype Around = Around(stopReason: Value, stopDetails: Value, container: Value, inputTokens: Value,
      outputTokens: Value, stopped: Value)

  function StopReasonOf(st: Reader): Value { st.stopReason }
  function StopDetailsOf(st: Reader): Value { st.stopDetails }
  function ContainerOf(st: Reader): Value { st.container }
  function InputTokensOf(st: Reader): Value { Num(st.inputTokens) }
  function OutputTokensOf(st: Reader): Value { Num(st.outputTokens) }
  function StoppedOf(st: Reader): Value { Bool(st.stopped) }

  function AroundOf(st: Reader): Around {
    Around(StopReasonOf(st), StopDetailsOf(st), ContainerOf(st), InputTokensOf(st), OutputTokensOf(st), StoppedOf(st))
  }

  function SaidBy(event: Value): Around {
    Around(StopReasonIn(event), StopDetailsIn(event), ContainerIn(event), InputTokensIn(event), OutputTokensIn(event),
      StopIn(event))
  }

  function Either(said: Value, before: Value): Value {
    if said.Null? then before else said
  }

  function AroundAfter(a: Around, said: Around): Around {
    Around(Either(said.stopReason, a.stopReason), Either(said.stopDetails, a.stopDetails),
      Either(said.container, a.container), Either(said.inputTokens, a.inputTokens),
      Either(said.outputTokens, a.outputTokens), Either(said.stopped, a.stopped))
  }

  predicate SameAround(st: Reader, after: Progress) {
    after.Reading? ==> AroundOf(after.reader) == AroundOf(st)
  }

  lemma FieldLeavesAround(st: Reader, at: nat, key: string, field: Value, pieces: seq<string>)
    requires at < |st.blocks|
    ensures SameAround(st, WithField(st, at, key, field, pieces))
  {
  }

  lemma DeltaLeavesAround(st: Reader, at: nat, delta: Delta)
    ensures SameAround(st, ApplyDelta(st, at, delta))
  {
  }

  lemma StopLeavesAround(st: Reader, at: nat, decoder: Decoder)
    ensures SameAround(st, StopBlock(st, at, decoder))
  {
    if at in st.inputs && at < |st.blocks| {
      BlankExactly(st.inputs[at]);
      FieldLeavesAround(st.(inputs := st.inputs - {at}), at, "input", InputOf(st.inputs[at], decoder), []);
    }
  }

  lemma BlocksLeaveAround(st: Reader, event: Value, decoder: Decoder)
    requires Is(event, "content_block_start") || Is(event, "content_block_delta") || Is(event, "content_block_stop")
    ensures SameAround(st, Handle(st, EventOf(event), decoder))
  {
    if Is(event, "content_block_start") {
      StartedBlockLeavesAround(st, event, decoder);
    } else if Is(event, "content_block_delta") {
      DeltaLeavesAround(st, IndexOf(event), DeltaOf(At(event, "delta")));
    } else {
      StopLeavesAround(st, IndexOf(event), decoder);
    }
  }

  lemma StartedBlockLeavesAround(st: Reader, event: Value, decoder: Decoder)
    requires Is(event, "content_block_start")
    ensures SameAround(st, Handle(st, EventOf(event), decoder))
  {
  }

  lemma EventSays(st: Reader, event: Value, decoder: Decoder)
    ensures
      var after := Handle(st, EventOf(event), decoder);
      after.Reading? ==> AroundOf(after.reader) == AroundAfter(AroundOf(st), SaidBy(event))
  {
    if Is(event, "content_block_start") || Is(event, "content_block_delta") || Is(event, "content_block_stop") {
      BlocksLeaveAround(st, event, decoder);
    }
  }

  lemma HandlerSays(decoder: Decoder)
    ensures SaysEach(EventHandler(decoder), StopReasonOf, StopReasonIn)
    ensures SaysEach(EventHandler(decoder), StopDetailsOf, StopDetailsIn)
    ensures SaysEach(EventHandler(decoder), ContainerOf, ContainerIn)
    ensures SaysEach(EventHandler(decoder), InputTokensOf, InputTokensIn)
    ensures SaysEach(EventHandler(decoder), OutputTokensOf, OutputTokensIn)
    ensures SaysEach(EventHandler(decoder), StoppedOf, StopIn)
  {
    forall st: Reader, event: Value
      ensures
        var after := EventHandler(decoder)(st, event);
        after.Reading? ==> AroundOf(after.reader) == AroundAfter(AroundOf(st), SaidBy(event))
    {
      EventSays(st, event, decoder);
    }
  }

  /** Each part is what the events last said of it; tokens are 0 until then. */
  predicate AroundAsSaid(around: Around, events: seq<Value>) {
    && around.stopReason == LastOf(events, StopReasonIn, Null)
    && around.stopDetails == LastOf(events, StopDetailsIn, Null)
    && around.container == LastOf(events, ContainerIn, Null)
    && around.inputTokens == LastOf(events, InputTokensIn, Num(0))
    && around.outputTokens == LastOf(events, OutputTokensIn, Num(0))
    && around.stopped == LastOf(events, StopIn, Bool(false))
  }

  lemma MessageIsAsSaid(events: seq<Value>, decoder: Decoder)
    ensures var end := FoldEvents(START, events, EventHandler(decoder));
      end.Reading? ==> AroundAsSaid(AroundOf(end.reader), events)
  {
    var handle := EventHandler(decoder);
    HandlerSays(decoder);
    LastIsSaid(START, events, handle, StopReasonOf, StopReasonIn);
    LastIsSaid(START, events, handle, StopDetailsOf, StopDetailsIn);
    LastIsSaid(START, events, handle, ContainerOf, ContainerIn);
    LastIsSaid(START, events, handle, InputTokensOf, InputTokensIn);
    LastIsSaid(START, events, handle, OutputTokensOf, OutputTokensIn);
    LastIsSaid(START, events, handle, StoppedOf, StopIn);
  }

  lemma {:induction false} StopIsLast(events: seq<Value>)
    ensures LastOf(events, StopIn, Bool(false)) == Bool(exists e :: e in events && Is(e, "message_stop"))
  {
    if events != [] {
      var front, last := events[..|events| - 1], events[|events| - 1];
      StopIsLast(front);
      assert events == front + [last];
    }
  }

  // -- what is told ---------------------------------------------------------------------

  /** The piece of text an event adds to a block that was started. */
  function Told(event: Value, room: nat): seq<string> {
    var piece := Piece(event, IndexOf(event), "text_delta", "text");
    if IndexOf(event) < room && piece != "" then [piece] else []
  }

  /** Each of them, once and in order. */
  function ToldBy(events: seq<Value>): seq<string> {
    if events == [] then []
    else ToldBy(events[..|events| - 1]) + Told(events[|events| - 1], Room(events[..|events| - 1]))
  }

  function ToldIn(progress: Progress): seq<string> {
    if progress.Broken? then progress.told else progress.reader.told
  }

  predicate Tells(st: Reader, event: Value, after: Progress) {
    ToldIn(after) == st.told + if after.Reading? then Told(event, |st.blocks|) else []
  }

  lemma DeltaTells(st: Reader, at: nat, delta: Delta)
    ensures var after := ApplyDelta(st, at, delta);
      ToldIn(after) == st.told
        + if after.Reading? && at < |st.blocks| && delta.Text? && delta.piece != "" then [delta.piece] else []
  {
    assert st.told + [] == st.told;
  }

  lemma StopTells(st: Reader, at: nat, decoder: Decoder)
    ensures ToldIn(StopBlock(st, at, decoder)) == st.told
  {
    assert st.told + [] == st.told;
  }

  lemma EventTells(st: Reader, event: Value, decoder: Decoder)
    ensures Tells(st, event, Handle(st, EventOf(event), decoder))
  {
    assert st.told + [] == st.told;
    if Is(event, "content_block_delta") {
      DeltaIs(At(event, "delta"));
      DeltaTells(st, IndexOf(event), DeltaOf(At(event, "delta")));
    } else if Is(event, "content_block_stop") {
      StopTells(st, IndexOf(event), decoder);
    } else {
      OtherTells(st, event, decoder);
    }
  }

  lemma OtherTells(st: Reader, event: Value, decoder: Decoder)
    requires !Is(event, "content_block_delta") && !Is(event, "content_block_stop")
    ensures ToldIn(Handle(st, EventOf(event), decoder)) == st.told
  {
  }

  ghost predicate TellsEach(handle: Handling) {
    forall st, event :: Tells(st, event, handle(st, event))
  }

  /** `n` events are handled to the end; the next, if any, ends the reading. */
  ghost predicate EndsAfter(end: Progress, before: seq<Value>, events: seq<Value>, n: nat, decoder: Decoder) {
    && n <= |events|
    && (if end.Reading? then n == |events| else BreaksAt(before, events, n, decoder))
    && ToldIn(end) == ToldBy(before + events[..n])
  }

  lemma ToldOneMore(events: seq<Value>, event: Value)
    ensures ToldBy(events + [event]) == ToldBy(events) + Told(event, Room(events))
  {
    OneMoreEvent(events, event);
  }

  lemma EndsAfterLater(end: Progress, before: seq<Value>, events: seq<Value>, m: nat, decoder: Decoder)
    requires events != [] && !Breaks(before, events[0], decoder)
    requires EndsAfter(end, before + [events[0]], events[1..], m, decoder)
    ensures EndsAfter(end, before, events, m + 1, decoder)
  {
    PrefixShifted(before, events, m);
    if end.Broken? {
      BreaksLater(before, events, decoder, m);
    }
  }

  lemma PrefixShifted(before: seq<Value>, events: seq<Value>, m: nat)
    requires events != [] && m <= |events| - 1
    ensures before + events[..m + 1] == (before + [events[0]]) + events[1..][..m]
  {
    assert events[..m + 1] == [events[0]] + events[1..][..m];
  }

  lemma EndsAtOnce(end: Progress, before: seq<Value>, events: seq<Value>, decoder: Decoder)
    requires ToldIn(end) == ToldBy(before)
    requires if end.Reading? then events == [] else events != [] && Breaks(before, events[0], decoder)
    ensures EndsAfter(end, before, events, 0, decoder)
  {
    assert before + events[..0] == before;
  }

  lemma {:induction false} RunTells(
    st: Reader, before: seq<Value>, events: seq<Value>, handle: Handling, decoder: Decoder)
    returns (n: nat)
    requires FollowsEach(handle, decoder) && TellsEach(handle) && Tracks(st, before) && st.told == ToldBy(before)
    ensures EndsAfter(FoldEvents(st, events, handle), before, events, n, decoder)
    decreases |events|
  {
    n := 0;
    if events == [] {
      EndsAtOnce(Reading(st), before, events, decoder);
    } else {
      var after := handle(st, events[0]);
      assert Follows(st, after, before, events[0], decoder) && Tells(st, events[0], after);
      if after.Reading? {
        ToldOneMore(before, events[0]);
        var m := RunTells(after.reader, before + [events[0]], events[1..], handle, decoder);
        EndsAfterLater(FoldEvents(after.reader, events[1..], handle), before, events, m, decoder);
        n := m + 1;
      } else {
        EndsAtOnce(after, before, events, decoder);
      }
    }
  }

  // -- the answer -----------------------------------------------------------------------

  lemma StartTracks()
    ensures Tracks(START, []) && START.told == ToldBy([])
  {
  }

  /** How a run over all the events ends, and what it has told by then. */
  lemma ReadingEnds(events: seq<Value>, decoder: Decoder) returns (n: nat)
    ensures EndsAsSaid(FoldEvents(START, events, EventHandler(decoder)), [], events, decoder)
    ensures EndsAfter(FoldEvents(START, events, EventHandler(decoder)), [], events, n, decoder)
  {
    StartTracks();
    HandlerFollowsEach(decoder);
    forall st, event ensures Tells(st, event, EventHandler(decoder)(st, event)) {
      EventTells(st, event, decoder);
    }
    RunEndsAsSaid(START, [], events, EventHandler(decoder), decoder);
    n := RunTells(START, [], events, EventHandler(decoder), decoder);
  }

  predicate IsOver(events: seq<Value>) {
    exists e :: e in events && Is(e, "message_stop")
  }

  ghost predicate SoundUpTo(events: seq<Value>, n: nat, decoder: Decoder) {
    n <= |events| && forall i | 0 <= i < n :: !Breaks(events[..i], events[i], decoder)
  }

  /** When an answer is one: nothing ended the reading, the connection held and
      the message stopped. When it is not, what is wrong, by the first event
      that ended the reading; and what was told until then. */
  ghost predicate EndsRightly(answer: Result<Message, Fault>, told: seq<string>, events: seq<Value>,
      failure: Option<string>, n: nat, decoder: Decoder)
  {
    && SoundUpTo(events, n, decoder) && told == ToldBy(events[..n])
    && if n < |events| then
         Breaks(events[..n], events[n], decoder) && answer == Err(FaultOf(events[..n], events[n], decoder))
       else if failure.Some? then answer == Err(Transport(failure.value))
       else if !IsOver(events) then answer == Err(Decode("the stream ended before its message did"))
       else answer.Ok? && AroundAsSaid(AroundIn(answer.value), events)
  }

  /** What a message says besides its blocks. */
  function AroundIn(m: Message): Around {
    Around(m.stopReason, m.stopDetails, m.container, Num(m.inputTokens), Num(m.outputTokens), Bool(true))
  }

  lemma EndedRightly(end: Progress, events: seq<Value>, failure: Option<string>, n: nat, decoder: Decoder)
    requires EndsAfter(end, [], events, n, decoder) && EndsAsSaid(end, [], events, decoder)
    requires end.Reading? ==> AroundAsSaid(AroundOf(end.reader), events)
    ensures EndsRightly(Ended(end, failure).0, Ended(end, failure).1, events, failure, n, decoder)
  {
    StopIsLast(events);
    assert forall i | 0 <= i <= |events| :: [] + events[..i] == events[..i];
    if end.Broken? {
      var i :| BreaksAt([], events, i, decoder) && end.fault == FaultOf([] + events[..i], events[i], decoder);
      FirstIsOne([], events, i, n, decoder);
    }
  }

  lemma FirstIsOne(before: seq<Value>, events: seq<Value>, i: nat, j: nat, decoder: Decoder)
    requires BreaksAt(before, events, i, decoder) && BreaksAt(before, events, j, decoder)
    ensures i == j
  {
  }

  /** The whole answer, and the text told meanwhile, for any bytes. */
  lemma AnswerIsExactly(bytes: seq<Byte>, failure: Option<string>, decoder: Decoder) returns (n: nat)
    ensures
      var (answer, told) := Answer(bytes, failure, decoder);
      EndsRightly(answer, told, Events(Lines(bytes), decoder), failure, n, decoder)
  {
    var events := Events(Lines(bytes), decoder);
    FoldIsOverEvents(START, Lines(bytes), decoder);
    MessageIsAsSaid(events, decoder);
    n := ReadingEnds(events, decoder);
    EndedRightly(FoldEvents(START, events, EventHandler(decoder)), events, failure, n, decoder);
  }

  /** The blocks the reading ends with, some of them never started. */
  function FinalBlocks(bytes: seq<Byte>, decoder: Decoder): seq<Value> {
    var end := Fold(START, Lines(bytes), Handler(decoder));
    if end.Reading? then end.reader.blocks else []
  }

  /** In the message returned: a block last started by `start` has the fields
      its deltas make, at its place among the blocks that are not `null`. */
  lemma AnswerHoldsTheBlock(
    bytes: seq<Byte>, failure: Option<string>, decoder: Decoder, before: seq<Value>, index: nat, start: Value,
    events: seq<Value>)
    requires Events(Lines(bytes), decoder) == before + ([start] + events)
    requires Starts(start, index) && NoStarts(events, index)
    requires Answer(bytes, failure, decoder).0.Ok?
    ensures
      var blocks, content := FinalBlocks(bytes, decoder), Answer(bytes, failure, decoder).0.value.content;
      && content == NonNull(blocks) && |blocks| == Room(before + ([start] + events))
      && index < |blocks| && BlockIs(blocks[index], index, At(start, "content_block"), events)
      && (blocks[index] != Null ==>
            var j := |NonNull(blocks[..index])|;
            j < |content| && content[j] == blocks[index])
  {
    var handle := EventHandler(decoder);
    FoldIsOverEvents(START, Lines(bytes), decoder);
    FoldEventsConcat(START, before, [start] + events, handle);
    BlockIsStartAndDeltas(FoldEvents(START, before, handle).reader, start, index, events, decoder);
    var n := ReadingEnds(before + ([start] + events), decoder);
    assert [] + (before + ([start] + events)) == before + ([start] + events);
    var blocks := FinalBlocks(bytes, decoder);
    if blocks[index] != Null {
      NonNullSplits(blocks, index);
    }
  }

  /** From the start of a tool's block to its stop: its input is the pieces in
      order, behind those an unfinished block before it left there, decoded;
      an empty object when they are blank; and what it started with when there
      are none. */
  lemma AnswerHoldsTheInput(
    bytes: seq<Byte>, failure: Option<string>, decoder: Decoder, before: seq<Value>, index: nat, start: Value,
    pieces: seq<Value>, stop: Value, rest: seq<Value>)
    requires Events(Lines(bytes), decoder) == before + ([start] + (pieces + ([stop] + rest)))
    requires Starts(start, index) && Stops(stop, index)
    requires NoStarts(pieces, index) && NoneStops(pieces, index)
    requires NoStarts(rest, index) && NoneAddsInput(rest, index)
    requires Answer(bytes, failure, decoder).0.Ok?
    ensures
      var blocks := FinalBlocks(bytes, decoder);
      var whole := Gathered(Unfinished(before, index), pieces, index);
      && index < |blocks|
      && (whole.Some? ==> Decodes(whole.value, decoder))
      && At(blocks[index], "input")
        == if whole.Some? then InputOf(whole.value, decoder) else At(At(start, "content_block"), "input")
  {
    var handle := EventHandler(decoder);
    FoldIsOverEvents(START, Lines(bytes), decoder);
    FoldEventsConcat(START, before, [start] + (pieces + ([stop] + rest)), handle);
    var n := ReadingEnds(before, decoder);
    assert [] + before == before;
    var st := FoldEvents(START, before, handle).reader;
    StartedInput(st, start, pieces, stop, rest, index, decoder);
  }

  lemma StartedInput(
    st: Reader, start: Value, pieces: seq<Value>, stop: Value, rest: seq<Value>, index: nat, decoder: Decoder)
    requires Starts(start, index) && Stops(stop, index)
    requires NoStarts(pieces, index) && NoneStops(pieces, index)
    requires NoStarts(rest, index) && NoneAddsInput(rest, index)
    ensures
      var end := FoldEvents(st, [start] + (pieces + ([stop] + rest)), EventHandler(decoder));
      var whole := Gathered(Pending(st, index), pieces, index);
      end.Reading? ==>
        && index < |end.reader.blocks|
        && (whole.Some? ==> Decodes(whole.value, decoder))
        && FieldOf(end.reader, index, "input")
          == if whole.Some? then InputOf(whole.value, decoder) else At(At(start, "content_block"), "input")
  {
    var handle := EventHandler(decoder);
    assert ([start] + (pieces + ([stop] + rest)))[1..] == pieces + ([stop] + rest);
    assert ([stop] + rest)[1..] == rest;
    StartedBlock(st, start, index, decoder);
    var st1 := handle(st, start).reader;
    FoldEventsConcat(st1, pieces, [stop] + rest, handle);
    HandlerGathersEach(decoder, index);
    PiecesGather(st1, pieces, handle, index);
    var gathered := FoldEvents(st1, pieces, handle);
    if gathered.Reading? {
      StopTakesInput(gathered.reader, stop, decoder, index);
      var stopped := handle(gathered.reader, stop);
      if stopped.Reading? {
        HandlerSettlesEach(decoder, index);
        InputSettles(stopped.reader, rest, handle, index);
      }
    }
  }
}
