/**
 One turn's text on its way to its window: gathered under a lock, sent by timers
 or ahead of any other event. Between two holds of the lock anything else may
 happen, so every step here is one hold of the lock, or one send.
 */
module AssistantStream {
  import opened Common

  /** Text, and the step of the model it is from. */
  datatype Piece = Piece(step: nat, text: string)

  /** What the lock protects. */
  datatype State = State(pending: Option<Piece>, scheduled: bool, said: Option<Piece>)

  /** The text waiting is another step's: it goes first, on its own. */
  predicate MustFlush(s: State, step: nat) {
    s.pending.Some? && s.pending.value.step != step
  }

  function Grown(before: Piece, text: string): Piece {
    before.(text := before.text + text)
  }

  function Appended(s: State, piece: Piece): State {
    State(
      Some(if s.pending.Some? then Grown(s.pending.value, piece.text) else piece),
      true,
      Some(if s.said.Some? && s.said.value.step == piece.step then Grown(s.said.value, piece.text) else piece))
  }

  function Emptied(s: State): State {
    s.(pending := None, scheduled := false)
  }

  class Stream {
    var pending: Option<Piece>
    var scheduled: bool
    var said: Option<Piece>
    var asked: Option<string>

    ghost function Now(): State
      reads this
    {
      State(pending, scheduled, said)
    }

    constructor ()
      ensures Now() == State(None, false, None) && asked == None
    {
      pending, scheduled, said, asked := None, false, None, None;
    }

    /** `told`'s hold of the lock: whether a send is to be scheduled. */
    method Append(piece: Piece) returns (schedule: bool)
      modifies this
      ensures Now() == Appended(old(Now()), piece) && asked == old(asked)
      ensures schedule == !old(scheduled)
    {
      if pending.Some? {
        pending := Some(Grown(pending.value, piece.text));
      } else {
        pending := Some(piece);
      }
      if said.Some? && said.value.step == piece.step {
        said := Some(Grown(said.value, piece.text));
      } else {
        said := Some(piece);
      }
      schedule := !scheduled;
      scheduled := true;
    }

    /** `flush`'s hold of the lock. */
    method Take() returns (batch: Option<Piece>)
      modifies this
      ensures Now() == Emptied(old(Now())) && batch == old(pending) && asked == old(asked)
    {
      scheduled := false;
      batch := pending;
      pending := None;
    }

    method Asked(message: string)
      modifies this
      ensures Now() == old(Now()) && asked == Some(message)
    {
      asked := Some(message);
    }

    /** What a stopped turn leaves: the message, and what the latest step had
        written. */
    method Stopped() returns (left: Option<(string, string)>)
      ensures left.Some? <==> asked.Some? && said.Some?
      ensures left.Some? ==> left.value == (asked.value, said.value.text + "\n\n(stopped by the user)")
    {
      if asked.None? || said.None? {
        return None;
      }
      left := Some((asked.value, said.value.text + "\n\n(stopped by the user)"));
    }
  }

  // -- every interleaving --------------------------------------------------------------

  datatype Event = Event(name: string)

  datatype Item = Text(batch: Piece) | Other(event: Event)

  /** Where the turn is. It tells one piece or sends one event at a time. */
  datatype Turn =
    | Idle
    | Flushing(piece: Piece)
    | Sending(batch: Piece, piece: Piece)
    | Appending(piece: Piece)
    | Scheduling
    | FlushingNow
    | SendingNow(batch: Piece)
    | FlushingFirst(event: Event)
    | SendingFirst(batch: Piece, event: Event)
    | Showing(event: Event)

  /** `timers`: how many sleep; `held`: what those that woke took and have not
      sent. `told`, `taken` and `shown` are what happened. */
  datatype Machine = Machine(
    state: State,
    turn: Turn,
    timers: nat,
    held: seq<Piece>,
    told: seq<Piece>,
    taken: seq<Piece>,
    shown: seq<Item>)

  const START := Machine(State(None, false, None), Idle, 0, [], [], [], [])

  datatype Action =
    | Tell(piece: Piece)
    | Send(event: Event)
    | Go(runtime: bool)
    | Wake
    | Deliver(i: nat)

  predicate Possible(m: Machine, action: Action) {
    match action
    case Tell(_) => m.turn.Idle?
    case Send(_) => m.turn.Idle?
    case Go(_) => !m.turn.Idle?
    case Wake => m.timers > 0
    case Deliver(i) => i < |m.held|
  }

  /** The lock held to append: the turn goes on to schedule a send unless one
      is scheduled. */
  function Append(m: Machine, piece: Piece): Machine {
    m.(state := Appended(m.state, piece), told := m.told + [piece],
       turn := if m.state.scheduled then Idle else Scheduling)
  }

  /** The lock held to take what waits. */
  function Take(m: Machine): Machine {
    m.(state := Emptied(m.state),
       taken := m.taken + Waiting(m.state.pending))
  }

  function Show(m: Machine, item: Item): Machine {
    m.(shown := m.shown + [item])
  }

  /** The turn's next hold of the lock, or send. */
  function Advanced(m: Machine, runtime: bool): Machine {
    var waiting := m.state.pending;
    match m.turn
    case Idle => m
    case Flushing(piece) => Take(m).(turn := if waiting.Some? then Sending(waiting.value, piece) else Appending(piece))
    case Sending(batch, piece) => Show(m, Text(batch)).(turn := Appending(piece))
    case Appending(piece) => Append(m, piece)
    case Scheduling => if runtime then m.(timers := m.timers + 1, turn := Idle) else m.(turn := FlushingNow)
    case FlushingNow => Take(m).(turn := if waiting.Some? then SendingNow(waiting.value) else Idle)
    case SendingNow(batch) => Show(m, Text(batch)).(turn := Idle)
    case FlushingFirst(event) =>
      Take(m).(turn := if waiting.Some? then SendingFirst(waiting.value, event) else Showing(event))
    case SendingFirst(batch, event) => Show(m, Text(batch)).(turn := Showing(event))
    case Showing(event) => Show(m, Other(event)).(turn := Idle)
  }

  function After(m: Machine, action: Action): Machine
    requires Possible(m, action)
  {
    match action
    case Tell(piece) => if MustFlush(m.state, piece.step) then m.(turn := Flushing(piece)) else Append(m, piece)
    case Send(event) => m.(turn := FlushingFirst(event))
    case Go(runtime) => Advanced(m, runtime)
    case Wake =>
      var waiting := m.state.pending;
      Take(m).(timers := m.timers - 1, held := m.held + Waiting(waiting))
    case Deliver(i) => Show(m, Text(m.held[i])).(held := m.held[..i] + m.held[i + 1..])
  }

  ghost predicate Run(m: Machine, actions: seq<Action>, end: Machine)
    decreases |actions|
  {
    if actions == [] then end == m
    else Possible(m, actions[0]) && Run(After(m, actions[0]), actions[1..], end)
  }

  // -- what every run keeps ------------------------------------------------------------

  /** Each character with the step it is from. */
  function Tagged(piece: Piece): seq<(nat, char)> {
    seq(|piece.text|, i requires 0 <= i < |piece.text| => (piece.step, piece.text[i]))
  }

  function AllTagged(pieces: seq<Piece>): seq<(nat, char)> {
    if pieces == [] then [] else AllTagged(pieces[..|pieces| - 1]) + Tagged(pieces[|pieces| - 1])
  }

  function Waiting(pending: Option<Piece>): seq<Piece> {
    if pending.Some? then [pending.value] else []
  }

  /** Every character told is in one batch taken, or waits: once, in order, and
      in a batch of its own step. */
  predicate TakenOnce(told: seq<Piece>, taken: seq<Piece>, pending: Option<Piece>) {
    AllTagged(told) == AllTagged(taken + Waiting(pending))
  }

  /** The latest step's text: what was told since the step changed. */
  function LatestRun(told: seq<Piece>): Option<Piece> {
    if told == [] then None
    else
      var before, last := LatestRun(told[..|told| - 1]), told[|told| - 1];
      Some(if before.Some? && before.value.step == last.step then Grown(before.value, last.text) else last)
  }

  /** The turn has flushed and no other writes: nothing waits. */
  predicate Flushed(turn: Turn) {
    turn.Sending? || turn.Appending? || turn.SendingNow? || turn.SendingFirst? || turn.Showing?
  }

  /** Waiting text has a send on its way: a timer that sleeps, or the turn about
      to start one, or to flush. */
  predicate WillGo(m: Machine) {
    && (m.state.pending.Some? ==> m.state.scheduled)
    && (m.state.scheduled ==> m.timers > 0 || m.turn.Scheduling? || m.turn.FlushingNow?)
  }

  function InHand(turn: Turn): seq<Piece> {
    if turn.Sending? || turn.SendingNow? || turn.SendingFirst? then [turn.batch] else []
  }

  function Texts(shown: seq<Item>): seq<Piece> {
    if shown == [] then []
    else
      var last := shown[|shown| - 1];
      Texts(shown[..|shown| - 1]) + if last.Text? then [last.batch] else []
  }

  /** What was taken was shown once, or a timer or the turn has it in hand. */
  predicate ShownOnce(taken: seq<Piece>, shown: seq<Item>, held: seq<Piece>, hand: seq<Piece>) {
    multiset(taken) == multiset(Texts(shown)) + multiset(held) + multiset(hand)
  }

  predicate FlushedWell(m: Machine) {
    Flushed(m.turn) ==> m.state.pending.None?
  }

  predicate Invariant(m: Machine) {
    && TakenOnce(m.told, m.taken, m.state.pending)
    && ShownOnce(m.taken, m.shown, m.held, InHand(m.turn))
    && m.state.said == LatestRun(m.told)
    && WillGo(m)
    && FlushedWell(m)
  }

  lemma AllTaggedGrows(pieces: seq<Piece>, piece: Piece)
    ensures AllTagged(pieces + [piece]) == AllTagged(pieces) + Tagged(piece)
  {
    assert (pieces + [piece])[..|pieces|] == pieces;
  }

  lemma TextsGrow(shown: seq<Item>, item: Item)
    ensures Texts(shown + [item]) == Texts(shown) + if item.Text? then [item.batch] else []
  {
    assert (shown + [item])[..|shown|] == shown;
  }

  lemma TaggedGrown(before: Piece, text: string)
    ensures Tagged(Grown(before, text)) == Tagged(before) + Tagged(Piece(before.step, text))
  {
  }

  /** A piece told waits behind what waits. */
  lemma TellKeepsOrder(told: seq<Piece>, taken: seq<Piece>, pending: Option<Piece>, piece: Piece)
    requires TakenOnce(told, taken, pending)
    requires pending.Some? ==> pending.value.step == piece.step
    ensures TakenOnce(told + [piece], taken, Some(if pending.Some? then Grown(pending.value, piece.text) else piece))
  {
    AllTaggedGrows(told, piece);
    if pending.Some? {
      AllTaggedGrows(taken, pending.value);
      AllTaggedGrows(taken, Grown(pending.value, piece.text));
      TaggedGrown(pending.value, piece.text);
    } else {
      AllTaggedGrows(taken, piece);
      assert taken + [] == taken;
    }
  }

  lemma TakeKeepsOrder(told: seq<Piece>, taken: seq<Piece>, pending: Option<Piece>)
    requires TakenOnce(told, taken, pending)
    ensures TakenOnce(told, taken + Waiting(pending), None)
  {
    assert taken + Waiting(pending) + [] == taken + Waiting(pending);
  }

  /** The piece an action appends, if it does. */
  function Appends(m: Machine, action: Action): Option<Piece> {
    if action.Tell? && !MustFlush(m.state, action.piece.step) then Some(action.piece)
    else if action.Go? && m.turn.Appending? then Some(m.turn.piece)
    else None
  }

  predicate Takes(m: Machine, action: Action) {
    action.Wake? || (action.Go? && (m.turn.Flushing? || m.turn.FlushingNow? || m.turn.FlushingFirst?))
  }

  /** To the text, an action appends, or takes, or does nothing. */
  lemma Effect(m: Machine, action: Action)
    requires Possible(m, action)
    ensures
      var after := After(m, action);
      var done := if Appends(m, action).Some? then Append(m, Appends(m, action).value)
                  else if Takes(m, action) then Take(m) else m;
      after.state == done.state && after.told == done.told && after.taken == done.taken
  {
    if action.Go? {
      TurnEffect(m, action.runtime);
    }
  }

  lemma TurnEffect(m: Machine, runtime: bool)
    ensures
      var after := Advanced(m, runtime);
      var done := if m.turn.Appending? then Append(m, m.turn.piece)
                  else if m.turn.Flushing? || m.turn.FlushingNow? || m.turn.FlushingFirst? then Take(m) else m;
      after.state == done.state && after.told == done.told && after.taken == done.taken
  {
  }

  lemma OrderKept(m: Machine, action: Action)
    requires Possible(m, action) && TakenOnce(m.told, m.taken, m.state.pending) && FlushedWell(m)
    ensures var after := After(m, action); TakenOnce(after.told, after.taken, after.state.pending)
  {
    Effect(m, action);
    var piece := Appends(m, action);
    if piece.Some? {
      TellKeepsOrder(m.told, m.taken, m.state.pending, piece.value);
    } else if Takes(m, action) {
      TakeKeepsOrder(m.told, m.taken, m.state.pending);
    }
  }

  /** What waits passes to a hand, the turn's or a timer's. */
  lemma TakeKeepsShown(taken: seq<Piece>, shown: seq<Item>, held: seq<Piece>, hand: seq<Piece>, batch: seq<Piece>)
    requires ShownOnce(taken, shown, held, hand)
    ensures ShownOnce(taken + batch, shown, held + batch, hand)
    ensures hand == [] ==> ShownOnce(taken + batch, shown, held, batch)
  {
  }

  /** What is in hand passes to the window. */
  lemma ShowKeepsShown(taken: seq<Piece>, shown: seq<Item>, held: seq<Piece>, hand: seq<Piece>, item: Item)
    requires ShownOnce(taken, shown, held, hand)
    requires hand == if item.Text? then [item.batch] else []
    ensures ShownOnce(taken, shown + [item], held, [])
  {
    TextsGrow(shown, item);
  }

  lemma DeliverKeepsShown(taken: seq<Piece>, shown: seq<Item>, held: seq<Piece>, hand: seq<Piece>, i: nat)
    requires ShownOnce(taken, shown, held, hand) && i < |held|
    ensures ShownOnce(taken, shown + [Text(held[i])], held[..i] + held[i + 1..], hand)
  {
    TextsGrow(shown, Text(held[i]));
    assert held == held[..i] + [held[i]] + held[i + 1..];
  }

  predicate AllShown(m: Machine) {
    ShownOnce(m.taken, m.shown, m.held, InHand(m.turn))
  }

  lemma ShownTaking(m: Machine, runtime: bool)
    requires AllShown(m) && (m.turn.Flushing? || m.turn.FlushingNow? || m.turn.FlushingFirst?)
    ensures AllShown(Advanced(m, runtime))
  {
    var batch := Waiting(m.state.pending);
    TakeKeepsShown(m.taken, m.shown, m.held, [], batch);
    assert InHand(Advanced(m, runtime).turn) == batch;
  }

  lemma ShownShowing(m: Machine, runtime: bool, item: Item)
    requires AllShown(m)
    requires if item.Text? then InHand(m.turn) == [item.batch] else m.turn == Showing(item.event)
    ensures AllShown(Advanced(m, runtime))
  {
    ShowKeepsShown(m.taken, m.shown, m.held, InHand(m.turn), item);
    var after := Advanced(m, runtime);
    assert after.taken == m.taken && after.held == m.held && after.shown == m.shown + [item];
    assert InHand(after.turn) == [];
  }

  lemma ShownElsewhere(m: Machine, runtime: bool)
    requires AllShown(m) && (m.turn.Appending? || m.turn.Scheduling? || m.turn.Idle?)
    ensures AllShown(Advanced(m, runtime))
  {
  }

  lemma ShownAdvanced(m: Machine, runtime: bool)
    requires AllShown(m)
    ensures AllShown(Advanced(m, runtime))
  {
    if m.turn.Flushing? || m.turn.FlushingNow? || m.turn.FlushingFirst? {
      ShownTaking(m, runtime);
    } else if m.turn.Showing? {
      ShownShowing(m, runtime, Other(m.turn.event));
    } else if InHand(m.turn) != [] {
      ShownShowing(m, runtime, Text(InHand(m.turn)[0]));
    } else {
      ShownElsewhere(m, runtime);
    }
  }

  lemma ShownWoken(m: Machine)
    requires AllShown(m) && m.timers > 0
    ensures AllShown(After(m, Wake))
  {
    TakeKeepsShown(m.taken, m.shown, m.held, InHand(m.turn), Waiting(m.state.pending));
  }

  lemma ShownFromTheSame(m: Machine, after: Machine)
    requires AllShown(m) && after.taken == m.taken && after.shown == m.shown && after.held == m.held
    requires InHand(after.turn) == InHand(m.turn)
    ensures AllShown(after)
  {
  }

  lemma ShownBegun(m: Machine, action: Action)
    requires AllShown(m) && Possible(m, action) && (action.Tell? || action.Send?)
    ensures AllShown(After(m, action))
  {
    ShownFromTheSame(m, After(m, action));
  }

  lemma ShownDelivered(m: Machine, i: nat)
    requires AllShown(m) && i < |m.held|
    ensures AllShown(After(m, Deliver(i)))
  {
    DeliverKeepsShown(m.taken, m.shown, m.held, InHand(m.turn), i);
  }

  lemma ShownKept(m: Machine, action: Action)
    requires AllShown(m) && Possible(m, action)
    ensures AllShown(After(m, action))
  {
    if action.Go? {
      ShownAdvanced(m, action.runtime);
    } else if action.Wake? {
      ShownWoken(m);
    } else if action.Deliver? {
      ShownDelivered(m, action.i);
    } else {
      ShownBegun(m, action);
    }
  }

  lemma SaidKept(m: Machine, action: Action)
    requires Possible(m, action) && m.state.said == LatestRun(m.told)
    ensures var after := After(m, action); after.state.said == LatestRun(after.told)
  {
    Effect(m, action);
    var piece := Appends(m, action);
    if piece.Some? {
      assert (m.told + [piece.value])[..|m.told|] == m.told;
    }
  }

  lemma SendsAdvanced(m: Machine, runtime: bool)
    requires WillGo(m) && FlushedWell(m)
    ensures WillGo(Advanced(m, runtime)) && FlushedWell(Advanced(m, runtime))
  {
  }

  lemma SendsKept(m: Machine, action: Action)
    requires WillGo(m) && FlushedWell(m) && Possible(m, action)
    ensures WillGo(After(m, action)) && FlushedWell(After(m, action))
  {
    if action.Go? {
      SendsAdvanced(m, action.runtime);
    }
  }

  lemma {:induction false} RunKeeps(m: Machine, actions: seq<Action>, end: Machine)
    requires Invariant(m) && Run(m, actions, end)
    ensures Invariant(end)
    decreases |actions|
  {
    if actions != [] {
      OrderKept(m, actions[0]);
      ShownKept(m, actions[0]);
      SaidKept(m, actions[0]);
      SendsKept(m, actions[0]);
      RunKeeps(After(m, actions[0]), actions[1..], end);
    }
  }

  /** In every interleaving of a turn with its timers: nothing told is lost,
      repeated or put in another step's batch, the batches are taken in order
      and each is shown once, what waits will go, and a stop would leave the
      latest step's text. */
  lemma NothingIsLost(actions: seq<Action>, end: Machine)
    requires Run(START, actions, end)
    ensures TakenOnce(end.told, end.taken, end.state.pending)
    ensures ShownOnce(end.taken, end.shown, end.held, InHand(end.turn))
    ensures WillGo(end) && end.state.said == LatestRun(end.told)
  {
    RunKeeps(START, actions, end);
  }

  /** Once the turn rests and every timer has sent, the window has it all. */
  lemma AtRestAllIsShown(actions: seq<Action>, end: Machine)
    requires Run(START, actions, end)
    requires end.turn.Idle? && end.timers == 0 && end.held == []
    ensures AllTagged(end.told) == AllTagged(end.taken) && multiset(end.taken) == multiset(Texts(end.shown))
  {
    RunKeeps(START, actions, end);
    assert end.taken + [] == end.taken;
  }

  // -- the order in the window ---------------------------------------------------------

  /** What was taken and not shown yet, the earliest first: what timers hold,
      then what the turn has in hand. */
  function Outstanding(m: Machine): seq<Piece> {
    m.held + InHand(m.turn)
  }

  predicate InSequence(m: Machine) {
    m.taken == Texts(m.shown) + Outstanding(m)
  }

  /** The batch an action shows, if it shows one. */
  function Shows(m: Machine, action: Action): seq<Piece>
    requires Possible(m, action)
  {
    if action.Deliver? then [m.held[action.i]] else if action.Go? then InHand(m.turn) else []
  }

  /** It shows no batch while an earlier one is outstanding. */
  predicate Orderly(m: Machine, action: Action)
    requires Possible(m, action)
  {
    (action.Deliver? ==> action.i == 0) && (action.Go? && InHand(m.turn) != [] ==> m.held == [])
  }

  lemma DeliverEffect(m: Machine, i: nat)
    requires i < |m.held|
    ensures var after := After(m, Deliver(i));
      && after.taken == m.taken && after.shown == m.shown + [Text(m.held[i])]
      && after.held == m.held[..i] + m.held[i + 1..] && after.turn == m.turn
  {
  }

  lemma HandEffect(m: Machine, runtime: bool)
    requires InHand(m.turn) != []
    ensures var after := After(m, Go(runtime));
      && after.taken == m.taken && after.shown == m.shown + [Text(InHand(m.turn)[0])]
      && after.held == m.held && InHand(after.turn) == []
  {
  }

  lemma ShowEffect(m: Machine, action: Action)
    requires Possible(m, action) && Shows(m, action) != []
    ensures var after := After(m, action);
      after.taken == m.taken && Texts(after.shown) == Texts(m.shown) + Shows(m, action)
  {
    TextsGrow(m.shown, Text(Shows(m, action)[0]));
    if action.Deliver? {
      DeliverEffect(m, action.i);
    } else {
      HandEffect(m, action.runtime);
    }
  }

  lemma OrderlyShowsTheFirst(m: Machine, action: Action)
    requires Possible(m, action) && Shows(m, action) != [] && Orderly(m, action)
    ensures Outstanding(m) == Shows(m, action) + Outstanding(After(m, action))
  {
    if action.Deliver? {
      DeliverEffect(m, action.i);
    } else {
      HandEffect(m, action.runtime);
    }
  }

  lemma ShownInSequence(m: Machine, action: Action)
    requires Possible(m, action) && Shows(m, action) != [] && Orderly(m, action) && InSequence(m)
    ensures InSequence(After(m, action))
  {
    ShowEffect(m, action);
    OrderlyShowsTheFirst(m, action);
  }

  /** The turn takes behind what timers hold, and while it has a batch in hand
      nothing waits for a timer to take. */
  lemma TakenInSequence(m: Machine, action: Action)
    requires Possible(m, action) && Takes(m, action) && InSequence(m) && FlushedWell(m)
    ensures InSequence(After(m, action))
  {
    var after, batch := After(m, action), Waiting(m.state.pending);
    assert after.taken == m.taken + batch && after.shown == m.shown;
    assert Outstanding(after) == Outstanding(m) + batch;
  }

  lemma ElseInSequence(m: Machine, action: Action)
    requires Possible(m, action) && Shows(m, action) == [] && !Takes(m, action) && InSequence(m)
    ensures InSequence(After(m, action))
  {
    if m.turn.Showing? {
      TextsGrow(m.shown, Other(m.turn.event));
      assert Texts(m.shown) + [] == Texts(m.shown);
    }
  }

  lemma SequenceKept(m: Machine, action: Action)
    requires Possible(m, action) && Orderly(m, action) && InSequence(m) && FlushedWell(m)
    ensures InSequence(After(m, action))
  {
    if Shows(m, action) != [] {
      ShownInSequence(m, action);
    } else if Takes(m, action) {
      TakenInSequence(m, action);
    } else {
      ElseInSequence(m, action);
    }
  }

  ghost predicate OrderlyRun(m: Machine, actions: seq<Action>, end: Machine)
    decreases |actions|
  {
    if actions == [] then end == m
    else Possible(m, actions[0]) && Orderly(m, actions[0]) && OrderlyRun(After(m, actions[0]), actions[1..], end)
  }

  lemma {:induction false} OrderlyRunKeeps(m: Machine, actions: seq<Action>, end: Machine)
    requires OrderlyRun(m, actions, end) && InSequence(m) && WillGo(m) && FlushedWell(m)
    ensures InSequence(end) && Run(m, actions, end)
    decreases |actions|
  {
    if actions != [] {
      SequenceKept(m, actions[0]);
      SendsKept(m, actions[0]);
      OrderlyRunKeeps(After(m, actions[0]), actions[1..], end);
    }
  }

  /** While no batch is shown before an earlier one, the window shows the
      batches in the order they were taken; at rest, all that was told, in
      order. */
  lemma OrderlyTextIsInOrder(actions: seq<Action>, end: Machine)
    requires OrderlyRun(START, actions, end)
    ensures Texts(end.shown) <= end.taken
    ensures end.turn.Idle? && end.timers == 0 && end.held == [] ==> AllTagged(Texts(end.shown)) == AllTagged(end.told)
  {
    OrderlyRunKeeps(START, actions, end);
    if end.turn.Idle? && end.timers == 0 && end.held == [] {
      AtRestAllIsShown(actions, end);
      assert Texts(end.shown) + [] == Texts(end.shown);
    }
  }

  lemma NextInOrder(taken: seq<Piece>, texts: seq<Piece>, outstanding: seq<Piece>, batch: Piece)
    requires taken == texts + outstanding && outstanding != []
    ensures texts + [batch] <= taken <==> batch == outstanding[0]
  {
    assert taken[|texts|] == outstanding[0] && (texts + [batch])[|texts|] == batch;
  }

  /** And only then: with the batches in order so far, one more shown leaves
      them so exactly when it is the text of the earliest outstanding one. */
  lemma OutOfOrderExactly(m: Machine, action: Action)
    requires Possible(m, action) && Shows(m, action) != [] && InSequence(m)
    ensures Texts(After(m, action).shown) <= After(m, action).taken <==> Shows(m, action)[0] == Outstanding(m)[0]
  {
    ShowEffect(m, action);
    NextInOrder(m.taken, Texts(m.shown), Outstanding(m), Shows(m, action)[0]);
  }

  /** It can happen: two timers wake, and the second sends first. */
  lemma TextCanOvertakeText(p: Piece, q: Piece)
    ensures exists actions, end ::
      Run(START, actions, end) && end.turn.Idle? && end.timers == 0 && end.held == []
      && end.told == [p, q] && end.taken == [p, q] && end.shown == [Text(q), Text(p)]
  {
    var both := TwoHeld(p, q);
    var second := both.(held := [p], shown := [Text(q)]);
    var end := both.(held := [], shown := [Text(q), Text(p)]);
    RunOne(second, Deliver(0), end, [], end);
    RunOne(both, Deliver(1), second, [Deliver(0)], end);
    TwoHeldIsReached(p, q, [Deliver(1), Deliver(0)], end);
  }

  function TwoHeld(p: Piece, q: Piece): Machine {
    Machine(State(None, false, LatestRun([p, q])), Idle, 0, [p, q], [p, q], [p, q], [])
  }

  function OneHeld(p: Piece): Machine {
    Machine(State(None, false, Some(p)), Idle, 0, [p], [p], [p], [])
  }

  lemma OneHeldIsReached(p: Piece, more: seq<Action>, end: Machine)
    requires Run(OneHeld(p), more, end)
    ensures Run(START, [Tell(p), Go(true), Wake] + more, end)
  {
    var told := Machine(State(Some(p), true, Some(p)), Scheduling, 0, [], [p], [], []);
    var scheduled := told.(timers := 1, turn := Idle);
    RunOne(scheduled, Wake, OneHeld(p), more, end);
    RunOne(told, Go(true), scheduled, [Wake] + more, end);
    RunOne(START, Tell(p), told, [Go(true)] + ([Wake] + more), end);
    assert [Tell(p), Go(true), Wake] + more == [Tell(p)] + ([Go(true)] + ([Wake] + more));
  }

  lemma TwoHeldIsReached(p: Piece, q: Piece, more: seq<Action>, end: Machine)
    requires Run(TwoHeld(p, q), more, end)
    ensures exists actions :: Run(START, actions, end)
  {
    var said := LatestRun([p, q]);
    assert [p, q][..1] == [p] && LatestRun([p]) == Some(p);
    var told := Machine(State(Some(q), true, said), Scheduling, 0, [p], [p, q], [p], []);
    var scheduled := told.(timers := 1, turn := Idle);
    RunOne(scheduled, Wake, TwoHeld(p, q), more, end);
    RunOne(told, Go(true), scheduled, [Wake] + more, end);
    RunOne(OneHeld(p), Tell(q), told, [Go(true)] + ([Wake] + more), end);
    OneHeldIsReached(p, [Tell(q)] + ([Go(true)] + ([Wake] + more)), end);
  }

  // -- events among the text -----------------------------------------------------------

  /** An event shows after everything said before it exactly when no timer has
      text that it took and has not sent. */
  lemma EventFollowsItsText(actions: seq<Action>, end: Machine)
    requires Run(START, actions, end) && end.turn.Showing?
    ensures AllTagged(end.told) == AllTagged(end.taken)
    ensures multiset(Texts(end.shown)) == multiset(end.taken) <==> end.held == []
  {
    RunKeeps(START, actions, end);
    assert end.taken + [] == end.taken;
    HeldIsNotShown(multiset(end.taken), multiset(Texts(end.shown)), end.held);
  }

  lemma HeldIsNotShown(taken: multiset<Piece>, shown: multiset<Piece>, held: seq<Piece>)
    requires taken == shown + multiset(held) + multiset([])
    ensures shown == taken <==> held == []
  {
    if held != [] {
      assert multiset(held)[held[0]] > 0;
    }
  }

  /** A timer takes the text and, before it sends it, the turn shows its event:
      the event is ahead of what was said before it. */
  lemma EventCanOvertakeText(piece: Piece, event: Event)
    ensures exists actions, end ::
      Run(START, actions, end) && end.shown == [Other(event), Text(piece)] && end.told == [piece]
  {
    var said := Some(piece);
    var told := Machine(State(said, true, said), Scheduling, 0, [], [piece], [], []);
    var scheduled := told.(timers := 1, turn := Idle);
    var woken := scheduled.(state := State(None, false, said), timers := 0, held := [piece], taken := [piece]);
    var sending := woken.(turn := FlushingFirst(event));
    var ready := sending.(turn := Showing(event));
    var showed := ready.(shown := [Other(event)], turn := Idle);
    var end := showed.(shown := [Other(event), Text(piece)], held := []);
    RunOne(showed, Deliver(0), showed.(shown := [Other(event), Text(piece)], held := []), [], end);
    RunOne(ready, Go(true), showed, [Deliver(0)], end);
    RunOne(sending, Go(true), ready, [Go(true), Deliver(0)], end);
    RunOne(woken, Send(event), sending, [Go(true), Go(true), Deliver(0)], end);
    RunOne(scheduled, Wake, woken, [Send(event), Go(true), Go(true), Deliver(0)], end);
    RunOne(told, Go(true), scheduled, [Wake, Send(event), Go(true), Go(true), Deliver(0)], end);
    RunOne(START, Tell(piece), told, [Go(true), Wake, Send(event), Go(true), Go(true), Deliver(0)], end);
  }

  lemma RunOne(m: Machine, action: Action, after: Machine, actions: seq<Action>, end: Machine)
    requires Possible(m, action) && After(m, action) == after && Run(after, actions, end)
    ensures Run(m, [action] + actions, end)
  {
    assert ([action] + actions)[1..] == actions;
  }

  // -- what a stop leaves --------------------------------------------------------------

  function TextOfStep(told: seq<Piece>, step: nat): string {
    if told == [] then ""
    else
      var last := told[|told| - 1];
      TextOfStep(told[..|told| - 1], step) + if last.step == step then last.text else ""
  }

  ghost predicate InOrder(told: seq<Piece>) {
    forall i, j | 0 <= i < j < |told| :: told[i].step <= told[j].step
  }

  /** When no step writes after a later one has, a stop leaves exactly what
      the latest step told. */
  lemma {:induction false} SaidIsTheLatestStep(told: seq<Piece>)
    requires InOrder(told) && told != []
    ensures var step := told[|told| - 1].step; LatestRun(told) == Some(Piece(step, TextOfStep(told, step)))
  {
    var before, last := told[..|told| - 1], told[|told| - 1];
    if before != [] {
      SaidIsTheLatestStep(before);
      assert before[|before| - 1].step <= last.step;
    }
    if before == [] || before[|before| - 1].step < last.step {
      NoneYet(before, last.step);
      assert "" + last.text == last.text;
    }
  }

  lemma {:induction false} NoneYet(told: seq<Piece>, step: nat)
    requires forall i | 0 <= i < |told| :: told[i].step < step
    ensures TextOfStep(told, step) == ""
  {
    if told != [] {
      NoneYet(told[..|told| - 1], step);
    }
  }
}
