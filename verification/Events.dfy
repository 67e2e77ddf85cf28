/** The two wire vocabularies of the stream translator: upstream chat-completion chunks and
    downstream Messages events, with an observer that assembles what a client sees. */
module Events {
  import opened Text

  // ---- upstream chunks (internal/wire/stream.go:200-231) ----

  datatype ChunkUsage = ChunkUsage(prompt: int, completion: int, cacheHit: Option<int>, cacheMiss: Option<int>)

  datatype FunctionDelta = FunctionDelta(name: Bytes, arguments: Bytes)

  datatype ToolCallDelta = ToolCallDelta(index: Option<int>, id: Bytes, call: Option<FunctionDelta>)

  datatype Delta = Delta(content: Option<Bytes>, reasoning: Option<Bytes>, toolCalls: seq<ToolCallDelta>)

  datatype Choice = Choice(delta: Delta, finishReason: Option<Bytes>)

  /** One event payload after JSON decoding; `error` holds the message of an error object. */
  datatype Payload =
    | Done
    | Malformed
    | Chunk(error: Option<Bytes>, choices: seq<Choice>, usage: Option<ChunkUsage>)

  /** A whole tool call of a chat completion (internal/wire/wire.go:70-79). */
  datatype ToolCall = ToolCall(id: Bytes, name: Bytes, arguments: Bytes)

  /** The token usage of a response (internal/wire/usage.go:10-19). */
  datatype Usage = Usage(input: int, output: int, cacheRead: int, cacheWrite: int)

  // ---- downstream events ----

  datatype BlockKind = Thinking | Text | ToolUse

  datatype BlockHead = ThinkingHead | TextHead | ToolHead(id: Bytes, name: Bytes)
  {
    function Kind(): BlockKind {
      match this
      case ThinkingHead => Thinking
      case TextHead => Text
      case ToolHead(_, _) => ToolUse
    }
  }

  datatype BlockDelta =
    | ThinkingDelta(text: Bytes)
    | TextDelta(text: Bytes)
    | InputJsonDelta(text: Bytes)
    | SignatureDelta

  datatype Event =
    | MessageStart(id: Bytes, model: Bytes)
    | BlockStart(index: int, head: BlockHead)
    | BlockDeltaEvent(index: int, delta: BlockDelta)
    | BlockStop(index: int)
    | MessageDelta(stopReason: Bytes, outputTokens: int)
    | MessageStop
    | ErrorEvent(message: Bytes)

  /** The kind of block a fragment belongs to. */
  function FragmentKind(d: BlockDelta): Option<BlockKind> {
    match d
    case ThinkingDelta(_) => Some(Thinking)
    case TextDelta(_) => Some(Text)
    case InputJsonDelta(_) => Some(ToolUse)
    case SignatureDelta => None
  }

  // ---- what a client assembles ----

  /** A content block as received: its head and the text of its fragments so far. */
  datatype Block = Block(head: BlockHead, fragments: seq<Bytes>)

  datatype Ending = Running | Closing | Stopped

  /** A client reading events in order. `disciplined` says that every event so far kept the block
      discipline; `grammatical` that the events so far are a prefix of a well-formed message. */
  datatype Observer = Observer(
    start: Option<Event>,
    blocks: seq<Block>,
    open: bool,
    signed: bool,
    ending: Ending,
    closing: Option<Event>,
    disciplined: bool,
    grammatical: bool)

  const NEW_OBSERVER := Observer(None, [], false, false, Running, None, true, true)

  function Observe(o: Observer, e: Event): Observer {
    var last := |o.blocks| - 1;
    match e
    case MessageStart(_, _) =>
      o.(start := Some(e),
         disciplined := o.disciplined && o.start.None? && o.blocks == [] && !o.ending.Closing?,
         grammatical := o.grammatical && o.start.None? && o.blocks == [] && o.ending.Running?)
    case BlockStart(index, head) =>
      o.(blocks := o.blocks + [Block(head, [])], open := true, signed := false,
         disciplined := o.disciplined && o.start.Some? && !o.open && index == |o.blocks| && !o.ending.Closing?,
         grammatical := o.grammatical && o.start.Some? && !o.open && index == |o.blocks| && o.ending.Running?)
    case BlockDeltaEvent(index, d) =>
      var matching := last >= 0 && o.open &&
                      (FragmentKind(d) == Some(o.blocks[last].head.Kind()) ||
                       (d.SignatureDelta? && o.blocks[last].head.ThinkingHead? && !o.signed));
      o.(blocks := if last < 0 || d.SignatureDelta? then o.blocks
                   else o.blocks[last := o.blocks[last].(fragments := o.blocks[last].fragments + [d.text])],
         signed := o.signed || d.SignatureDelta?,
         disciplined := o.disciplined && last >= 0 && index == last && !o.ending.Closing? &&
                        (d.InputJsonDelta? || matching),
         grammatical := o.grammatical && last >= 0 && index == last && o.ending.Running? && matching && !o.signed)
    case BlockStop(index) =>
      o.(open := false, signed := false,
         disciplined := o.disciplined && last >= 0 && o.open && index == last && !o.ending.Closing? &&
                        (o.blocks[last].head.ThinkingHead? ==> o.signed),
         grammatical := o.grammatical && last >= 0 && o.open && index == last && o.ending.Running? &&
                        (o.blocks[last].head.ThinkingHead? ==> o.signed))
    case MessageDelta(_, _) =>
      o.(ending := Closing, closing := Some(e),
         disciplined := o.disciplined && !o.open && o.ending.Running?,
         grammatical := o.grammatical && o.start.Some? && !o.open && o.ending.Running?)
    case MessageStop =>
      o.(ending := Stopped,
         disciplined := o.disciplined && o.ending.Closing?,
         grammatical := o.grammatical && o.ending.Closing?)
    case ErrorEvent(_) =>
      o.(disciplined := o.disciplined && !o.ending.Closing?, grammatical := false)
  }

  function ObserveAll(o: Observer, events: seq<Event>): Observer
    decreases |events|
  {
    if events == [] then o else ObserveAll(Observe(o, events[0]), events[1..])
  }

  lemma {:induction false} ObserveAllConcat(o: Observer, a: seq<Event>, b: seq<Event>)
    ensures ObserveAll(o, a + b) == ObserveAll(ObserveAll(o, a), b)
    decreases |a|
  {
    if a == [] {
      assert a + b == b;
    } else {
      assert (a + b)[1..] == a[1..] + b;
      ObserveAllConcat(Observe(o, a[0]), a[1..], b);
    }
  }

  // ---- the message grammar ----

  function Fragment(kind: BlockKind, text: Bytes): BlockDelta {
    match kind
    case Thinking => ThinkingDelta(text)
    case Text => TextDelta(text)
    case ToolUse => InputJsonDelta(text)
  }

  /** The events of one block up to, and not including, the events that close it. */
  function OpenBlockEvents(b: Block, index: int): seq<Event> {
    [BlockStart(index, b.head)] +
    seq(|b.fragments|, i requires 0 <= i < |b.fragments| =>
      BlockDeltaEvent(index, Fragment(b.head.Kind(), b.fragments[i])))
  }

  function SignatureEvents(b: Block, index: int): seq<Event> {
    if b.head.ThinkingHead? then [BlockDeltaEvent(index, SignatureDelta)] else []
  }

  function BlockEvents(b: Block, index: int): seq<Event> {
    OpenBlockEvents(b, index) + SignatureEvents(b, index) + [BlockStop(index)]
  }

  /** Blocks one after the other, numbered from 0, each opened, filled and closed. */
  function BlocksEvents(blocks: seq<Block>): seq<Event> {
    if blocks == [] then []
    else BlocksEvents(blocks[..|blocks| - 1]) + BlockEvents(blocks[|blocks| - 1], |blocks| - 1)
  }

  /** A well-formed message: message_start, the blocks, message_delta, message_stop. */
  ghost predicate IsMessage(events: seq<Event>, blocks: seq<Block>) {
    exists id, model, reason, tokens ::
      events == [MessageStart(id, model)] + BlocksEvents(blocks) + [MessageDelta(reason, tokens), MessageStop]
  }

  predicate Complete(o: Observer) {
    o.grammatical && o.ending.Stopped?
  }

  /** What a grammatical observer has read is determined by what it has assembled. */
  function Reading(o: Observer): seq<Event> {
    var n := |o.blocks|;
    (if o.start.Some? then [o.start.value] else []) +
    (if o.open && n > 0
     then BlocksEvents(o.blocks[..n - 1]) + OpenBlockEvents(o.blocks[n - 1], n - 1) +
          (if o.signed then SignatureEvents(o.blocks[n - 1], n - 1) else [])
     else BlocksEvents(o.blocks)) +
    (if o.closing.Some? then [o.closing.value] else []) +
    (if o.ending.Stopped? then [MessageStop] else [])
  }

  ghost predicate Consistent(o: Observer) {
    && (o.start.Some? ==> o.start.value.MessageStart?)
    && (o.closing.Some? ==> o.closing.value.MessageDelta?)
    && (o.ending.Running? <==> o.closing.None?)
    && (!o.ending.Running? ==> !o.open && o.start.Some?)
    && (o.start.None? ==> o.blocks == [])
    && (o.open ==> o.blocks != [])
    && (o.signed ==> o.open && o.blocks[|o.blocks| - 1].head.ThinkingHead?)
  }

  lemma GrammaticalReading(events: seq<Event>)
    requires ObserveAll(NEW_OBSERVER, events).grammatical
    ensures var o := ObserveAll(NEW_OBSERVER, events); Consistent(o) && events == Reading(o)
    decreases |events|
  {
    hide Observe, ObserveAll, Reading, Consistent;
    if events == [] {
      NothingRead();
    } else {
      var n := |events| - 1;
      var init, e := events[..n], events[n];
      var o := ObserveAll(NEW_OBSERVER, init);
      assert events == init + [e];
      ObserveAllConcat(NEW_OBSERVER, init, [e]);
      OneObserved(o, e);
      GrammarLasts(o, e);
      GrammaticalReading(init);
      ReadingStep(o, e);
    }
  }

  lemma NothingRead()
    ensures var o := ObserveAll(NEW_OBSERVER, []); Consistent(o) && [] == Reading(o)
  {
  }

  lemma OneObserved(o: Observer, e: Event)
    ensures ObserveAll(o, [e]) == Observe(o, e)
  {
    assert [e][1..] == [];
  }

  lemma GrammarLasts(o: Observer, e: Event)
    requires Observe(o, e).grammatical
    ensures o.grammatical
  {
  }

  lemma ReadingStep(o: Observer, e: Event)
    requires Consistent(o) && Observe(o, e).grammatical
    ensures Consistent(Observe(o, e)) && Reading(Observe(o, e)) == Reading(o) + [e]
  {
    hide BlocksEvents, OpenBlockEvents, SignatureEvents;
    match e
    case BlockStart(index, head) =>
      StartReading(o, head);
    case BlockDeltaEvent(index, d) =>
      if !d.SignatureDelta? {
        DeltaReading(o, d);
      } else {
        SignReading(o);
      }
    case BlockStop(_) =>
      StopReading(o);
    case MessageStart(_, _) =>
      NoBlocksYet();
    case MessageDelta(_, _) =>
    case MessageStop =>
    case ErrorEvent(_) =>
  }

  lemma NoBlocksYet()
    ensures BlocksEvents([]) == []
  {
  }

  lemma NoFragmentsYet(head: BlockHead, index: int)
    ensures OpenBlockEvents(Block(head, []), index) == [BlockStart(index, head)]
  {
  }

  lemma StartReading(o: Observer, head: BlockHead)
    requires Consistent(o) && Observe(o, BlockStart(|o.blocks|, head)).grammatical
    ensures Reading(Observe(o, BlockStart(|o.blocks|, head))) == Reading(o) + [BlockStart(|o.blocks|, head)]
  {
    hide BlocksEvents, OpenBlockEvents;
    var n := |o.blocks|;
    assert (o.blocks + [Block(head, [])])[..n] == o.blocks;
    NoFragmentsYet(head, n);
  }

  lemma DeltaReading(o: Observer, d: BlockDelta)
    requires Consistent(o) && !d.SignatureDelta?
    requires Observe(o, BlockDeltaEvent(|o.blocks| - 1, d)).grammatical
    ensures Reading(Observe(o, BlockDeltaEvent(|o.blocks| - 1, d))) ==
            Reading(o) + [BlockDeltaEvent(|o.blocks| - 1, d)]
  {
    hide BlocksEvents;
    var n := |o.blocks|;
    var b := o.blocks[n - 1];
    var b' := b.(fragments := b.fragments + [d.text]);
    assert o.blocks[n - 1 := b'][..n - 1] == o.blocks[..n - 1];
    assert OpenBlockEvents(b', n - 1) == OpenBlockEvents(b, n - 1) + [BlockDeltaEvent(n - 1, d)];
  }

  lemma SignReading(o: Observer)
    requires Consistent(o) && Observe(o, BlockDeltaEvent(|o.blocks| - 1, SignatureDelta)).grammatical
    ensures Reading(Observe(o, BlockDeltaEvent(|o.blocks| - 1, SignatureDelta))) ==
            Reading(o) + [BlockDeltaEvent(|o.blocks| - 1, SignatureDelta)]
  {
    hide BlocksEvents, OpenBlockEvents;
  }

  lemma StopReading(o: Observer)
    requires Consistent(o) && Observe(o, BlockStop(|o.blocks| - 1)).grammatical
    ensures Reading(Observe(o, BlockStop(|o.blocks| - 1))) == Reading(o) + [BlockStop(|o.blocks| - 1)]
  {
    hide OpenBlockEvents;
    var n := |o.blocks|;
    assert BlocksEvents(o.blocks) == BlocksEvents(o.blocks[..n - 1]) + BlockEvents(o.blocks[n - 1], n - 1);
  }

  /** The observer of a well-formed message accepts it and assembles exactly its blocks. */
  lemma {:induction false} MessageObserved(events: seq<Event>, blocks: seq<Block>)
    requires IsMessage(events, blocks)
    ensures var o := ObserveAll(NEW_OBSERVER, events); Complete(o) && o.blocks == blocks
  {
    var id, model, reason, tokens :|
      events == [MessageStart(id, model)] + BlocksEvents(blocks) + [MessageDelta(reason, tokens), MessageStop];
    var start := MessageStart(id, model);
    var tail := [MessageDelta(reason, tokens), MessageStop];
    assert events == [start] + (BlocksEvents(blocks) + tail);
    ObserveAllConcat(NEW_OBSERVER, [start], BlocksEvents(blocks) + tail);
    ObserveAllConcat(Between(start, []), BlocksEvents(blocks), tail);
    BlocksObserved(start, blocks);
    var o := Between(start, blocks);
    assert ObserveAll(o, tail) == ObserveAll(Observe(o, tail[0]), [MessageStop]);
  }

  /** The observer between two blocks of a message. */
  function Between(start: Event, blocks: seq<Block>): Observer {
    Observer(Some(start), blocks, false, false, Running, None, true, true)
  }

  lemma {:induction false} BlocksObserved(start: Event, blocks: seq<Block>)
    ensures ObserveAll(Between(start, []), BlocksEvents(blocks)) == Between(start, blocks)
    decreases |blocks|
  {
    hide ObserveAll, Observe, OpenBlockEvents, SignatureEvents, Between;
    if blocks == [] {
      NothingObserved(Between(start, []));
    } else {
      var n := |blocks| - 1;
      var init, b := blocks[..n], blocks[n];
      assert blocks == init + [b];
      BlocksObserved(start, init);
      var rest := SignatureEvents(b, n) + [BlockStop(n)];
      assert BlockEvents(b, n) == OpenBlockEvents(b, n) + rest;
      ObserveAllConcat(Between(start, []), BlocksEvents(init), BlockEvents(b, n));
      ObserveAllConcat(Between(start, init), OpenBlockEvents(b, n), rest);
      FragmentsObserved(start, init, b);
      ClosingObserved(start, blocks);
    }
  }

  lemma NothingObserved(o: Observer)
    ensures ObserveAll(o, []) == o
  {
  }

  lemma ClosingObserved(start: Event, blocks: seq<Block>)
    requires blocks != []
    ensures var n := |blocks| - 1;
            ObserveAll(Between(start, blocks).(open := true), SignatureEvents(blocks[n], n) + [BlockStop(n)]) ==
            Between(start, blocks)
  {
    var n := |blocks| - 1;
    var filled, rest := Between(start, blocks).(open := true), SignatureEvents(blocks[n], n) + [BlockStop(n)];
    if blocks[n].head.ThinkingHead? {
      assert rest[1..] == [BlockStop(n)];
      assert Observe(filled, rest[0]) == filled.(signed := true);
      OneObserved(filled.(signed := true), BlockStop(n));
    } else {
      assert rest == [BlockStop(n)];
      OneObserved(filled, BlockStop(n));
    }
  }

  lemma {:induction false} FragmentsObserved(start: Event, blocks: seq<Block>, b: Block)
    ensures ObserveAll(Between(start, blocks), OpenBlockEvents(b, |blocks|)) ==
            Between(start, blocks + [b]).(open := true)
    decreases |b.fragments|
  {
    var n := |blocks|;
    if b.fragments == [] {
      assert OpenBlockEvents(b, n) == [BlockStart(n, b.head)];
      assert Block(b.head, []) == b;
    } else {
      var k := |b.fragments| - 1;
      var shorter := b.(fragments := b.fragments[..k]);
      var e := BlockDeltaEvent(n, Fragment(b.head.Kind(), b.fragments[k]));
      assert OpenBlockEvents(b, n) == OpenBlockEvents(shorter, n) + [e];
      FragmentsObserved(start, blocks, shorter);
      ObserveAllConcat(Between(start, blocks), OpenBlockEvents(shorter, n), [e]);
      assert b.fragments[..k] + [b.fragments[k]] == b.fragments;
      assert (blocks + [shorter])[n := b] == blocks + [b];
    }
  }

  /** The acceptor and the grammar agree, and the grammar's blocks are the assembled ones. */
  lemma CompleteIffMessage(events: seq<Event>, blocks: seq<Block>)
    ensures (Complete(ObserveAll(NEW_OBSERVER, events)) && ObserveAll(NEW_OBSERVER, events).blocks == blocks)
            <==> IsMessage(events, blocks)
  {
    var o := ObserveAll(NEW_OBSERVER, events);
    if Complete(o) && o.blocks == blocks {
      GrammaticalReading(events);
      var MessageStart(id, model) := o.start.value;
      var MessageDelta(reason, tokens) := o.closing.value;
      assert events ==
             [MessageStart(id, model)] + BlocksEvents(blocks) + [MessageDelta(reason, tokens), MessageStop];
    }
    if IsMessage(events, blocks) {
      MessageObserved(events, blocks);
    }
  }

  // ---- what discipline means for the events themselves ----

  datatype Mark = MessageStarts | BlockStarts | BlockStops | MessageStops

  predicate Marked(e: Event, m: Mark) {
    match m
    case MessageStarts => e.MessageStart?
    case BlockStarts => e.BlockStart?
    case BlockStops => e.BlockStop?
    case MessageStops => e.MessageStop?
  }

  function Count(events: seq<Event>, m: Mark): nat
    decreases |events|
  {
    if events == [] then 0 else (if Marked(events[0], m) then 1 else 0) + Count(events[1..], m)
  }

  /** How many events of a kind the final state accounts for. */
  function Tally(o: Observer, m: Mark): int {
    match m
    case MessageStarts => if o.start.Some? then 1 else 0
    case BlockStarts => |o.blocks|
    case BlockStops => |o.blocks| - if o.open then 1 else 0
    case MessageStops => if o.ending.Stopped? then 1 else 0
  }

  lemma {:induction false} DisciplineIsLasting(o: Observer, events: seq<Event>)
    requires ObserveAll(o, events).disciplined
    ensures o.disciplined
    decreases |events|
  {
    if events != [] {
      DisciplineIsLasting(Observe(o, events[0]), events[1..]);
    }
  }

  lemma TallyStep(o: Observer, e: Event, m: Mark)
    requires Observe(o, e).disciplined
    ensures Tally(Observe(o, e), m) == Tally(o, m) + if Marked(e, m) then 1 else 0
  {
    match e
    case MessageStart(_, _) =>
    case BlockStart(_, _) =>
    case BlockDeltaEvent(_, _) =>
    case BlockStop(_) =>
    case MessageDelta(_, _) =>
    case MessageStop =>
    case ErrorEvent(_) =>
  }

  /** Disciplined events hold exactly as many starts and stops as the state that they lead to says. */
  lemma {:induction false} DisciplineCounts(o: Observer, events: seq<Event>, m: Mark)
    requires ObserveAll(o, events).disciplined
    ensures Count(events, m) == Tally(ObserveAll(o, events), m) - Tally(o, m)
    decreases |events|
  {
    if events != [] {
      var o1 := Observe(o, events[0]);
      DisciplineIsLasting(o1, events[1..]);
      TallyStep(o, events[0], m);
      DisciplineCounts(o1, events[1..], m);
    }
  }

  /** The k-th block start carries index k. */
  lemma StartsNumbered(events: seq<Event>, i: nat)
    requires ObserveAll(NEW_OBSERVER, events).disciplined
    requires i < |events| && events[i].BlockStart?
    ensures events[i].index == Count(events[..i], BlockStarts)
  {
    var o := ObserveAll(NEW_OBSERVER, events[..i]);
    assert events == events[..i] + events[i..];
    ObserveAllConcat(NEW_OBSERVER, events[..i], events[i..]);
    DisciplineIsLasting(Observe(o, events[i]), events[i..][1..]);
    DisciplineCounts(NEW_OBSERVER, events[..i], BlockStarts);
  }
}
