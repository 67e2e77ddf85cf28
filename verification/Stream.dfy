/** What the stream translator does, one upstream fact at a time. A payload is a short list of
    facts, and each fact changes the translator's state and adds events (stream.go:134-361). */
module Stream {
  import opened Text
  import opened Events

  datatype State = State(
    model: Bytes,
    messageId: Bytes,
    started: bool,
    finished: bool,
    blockIdx: int,
    current: Option<BlockKind>,
    output: int,
    usage: Usage,
    toolMap: map<int, int>,
    lastTool: int)

  function Fresh(model: Bytes, messageId: Bytes): State {
    State(model, messageId, false, false, 0, None, 0, Usage(0, 0, 0, 0), map[], -1)
  }

  /** mapFinishReason */
  function MapFinishReason(r: Bytes): Bytes {
    if r == "stop" then "end_turn"
    else if r == "tool_calls" || r == "function_call" then "tool_use"
    else if r == "length" then "max_tokens"
    else if r == "content_filter" then "content_filter"
    else "end_turn"
  }

  // ---- facts ----

  datatype Fact =
    | Begin
    | Report(usage: ChunkUsage)
    | Reason(text: Bytes)
    | Content(text: Bytes)
    | Name(index: Option<int>, id: Bytes, name: Bytes)
    | Arguments(index: Option<int>, text: Bytes)
    | Finish(stopReason: Bytes)
    | Fail(message: Bytes)

  function TextFacts(t: Option<Bytes>, thinking: bool): seq<Fact> {
    if t.None? || t.value == "" then [] else if thinking then [Reason(t.value)] else [Content(t.value)]
  }

  function ToolFacts(tc: ToolCallDelta): seq<Fact> {
    if tc.call.None? then []
    else
      (if tc.call.value.name != "" then [Name(tc.index, tc.id, tc.call.value.name)] else []) +
      (if tc.call.value.arguments != "" then [Arguments(tc.index, tc.call.value.arguments)] else [])
  }

  function ToolsFacts(tcs: seq<ToolCallDelta>): seq<Fact> {
    if tcs == [] then [] else ToolsFacts(tcs[..|tcs| - 1]) + ToolFacts(tcs[|tcs| - 1])
  }

  function FinishFacts(r: Option<Bytes>): seq<Fact> {
    if r.None? then [] else [Finish(MapFinishReason(r.value))]
  }

  function FailMessage(message: Bytes): Bytes {
    if message == "" then "upstream error" else message
  }

  function FactsOf(p: Payload): seq<Fact> {
    match p
    case Done => [Begin, Finish("end_turn")]
    case Malformed => []
    case Chunk(error, choices, usage) =>
      if error.Some? then [Fail(FailMessage(error.value)), Begin, Finish("end_turn")]
      else if choices == [] then []
      else
        [Begin] + (if usage.Some? then [Report(usage.value)] else []) +
        TextFacts(choices[0].delta.reasoning, true) + TextFacts(choices[0].delta.content, false) +
        ToolsFacts(choices[0].delta.toolCalls) + FinishFacts(choices[0].finishReason)
  }

  function FactsOfAll(ps: seq<Payload>): seq<Fact> {
    if ps == [] then [] else FactsOf(ps[0]) + FactsOfAll(ps[1..])
  }

  // ---- the meaning of a fact ----

  /** closeBlock */
  function CloseEvents(s: State): seq<Event> {
    match s.current
    case None => []
    case Some(k) =>
      (if k.Thinking? then [BlockDeltaEvent(s.blockIdx - 1, SignatureDelta)] else []) + [BlockStop(s.blockIdx - 1)]
  }

  /** A text fragment: continue the open block of its kind, or close what is open and start one. */
  function AddFragment(s: State, head: BlockHead, d: BlockDelta): (State, seq<Event>) {
    if s.current == Some(head.Kind()) then (s, [BlockDeltaEvent(s.blockIdx - 1, d)])
    else
      (s.(current := Some(head.Kind()), blockIdx := s.blockIdx + 1),
       CloseEvents(s) + [BlockStart(s.blockIdx, head), BlockDeltaEvent(s.blockIdx, d)])
  }

  function AddUsage(u: Usage, c: ChunkUsage): Usage {
    Usage(c.prompt, c.completion,
          if c.cacheHit.Some? then c.cacheHit.value else u.cacheRead,
          if c.cacheMiss.Some? then c.cacheMiss.value else u.cacheWrite)
  }

  /** The block index that the translator looks up for an argument fragment; only its sign matters. */
  function ToolIndex(s: State, index: Option<int>): int {
    if index.Some? && index.value in s.toolMap then s.toolMap[index.value] else s.lastTool
  }

  function Emit(s: State, f: Fact): (State, seq<Event>) {
    match f
    case Begin =>
      if s.started then (s, []) else (s.(started := true), [MessageStart(s.messageId, s.model)])
    case Report(c) => (s.(output := c.completion, usage := AddUsage(s.usage, c)), [])
    case Reason(t) => AddFragment(s, ThinkingHead, ThinkingDelta(t))
    case Content(t) => AddFragment(s, TextHead, TextDelta(t))
    case Name(index, id, name) =>
      (s.(current := Some(ToolUse), blockIdx := s.blockIdx + 1, lastTool := s.blockIdx,
          toolMap := if index.Some? then s.toolMap[index.value := s.blockIdx] else s.toolMap),
       CloseEvents(s) + [BlockStart(s.blockIdx, ToolHead(id, name))])
    case Arguments(index, t) =>
      (s, if ToolIndex(s, index) >= 0 then [BlockDeltaEvent(s.blockIdx - 1, InputJsonDelta(t))] else [])
    case Finish(reason) =>
      if s.finished then (s, [])
      else (s.(finished := true, current := None), CloseEvents(s) + [MessageDelta(reason, s.output), MessageStop])
    case Fail(message) => (s, [ErrorEvent(message)])
  }

  function EmitAll(s: State, facts: seq<Fact>): (State, seq<Event>)
    decreases |facts|
  {
    if facts == [] then (s, [])
    else
      var (s1, events) := Emit(s, facts[0]);
      var (s2, rest) := EmitAll(s1, facts[1..]);
      (s2, events + rest)
  }

  lemma {:induction false} EmitAllConcat(s: State, a: seq<Fact>, b: seq<Fact>)
    ensures EmitAll(s, a + b).0 == EmitAll(EmitAll(s, a).0, b).0
    ensures EmitAll(s, a + b).1 == EmitAll(s, a).1 + EmitAll(EmitAll(s, a).0, b).1
    decreases |a|
  {
    if a == [] {
      assert a + b == b;
    } else {
      hide Emit;
      var (s1, events) := Emit(s, a[0]);
      assert (a + b)[1..] == a[1..] + b;
      EmitAllConcat(s1, a[1..], b);
      var (s2, more) := EmitAll(s1, a[1..]);
      assert events + (more + EmitAll(s2, b).1) == events + more + EmitAll(s2, b).1;
    }
  }

  /** Everything the translator writes for a stream of payloads that ends normally. */
  function FactsOfStream(ps: seq<Payload>): seq<Fact> {
    FactsOfAll(ps) + [Finish("end_turn")]
  }

  function Output(model: Bytes, messageId: Bytes, ps: seq<Payload>): seq<Event> {
    EmitAll(Fresh(model, messageId), FactsOfStream(ps)).1
  }

  // ---- block discipline, for every payload sequence ----

  /** Block-making facts come only after a Begin. */
  predicate Led(facts: seq<Fact>, started: bool)
    decreases |facts|
  {
    facts == [] ||
    ((facts[0].Reason? || facts[0].Content? || facts[0].Name? ==> started) &&
     Led(facts[1..], started || facts[0].Begin?))
  }

  lemma {:induction false} LedConcat(a: seq<Fact>, b: seq<Fact>, started: bool)
    requires Led(a, started) && Led(b, started)
    ensures Led(a + b, started)
    decreases |a|
  {
    if a == [] {
      assert a + b == b;
    } else {
      assert (a + b)[1..] == a[1..] + b;
      LedMonotone(b, started);
      LedConcat(a[1..], b, started || a[0].Begin?);
    }
  }

  lemma {:induction false} LedMonotone(facts: seq<Fact>, started: bool)
    requires Led(facts, started)
    ensures Led(facts, true)
    decreases |facts|
  {
    if facts != [] {
      LedMonotone(facts[1..], started || facts[0].Begin?);
    }
  }

  lemma {:induction false} AllLed(facts: seq<Fact>)
    ensures Led(facts, true)
    decreases |facts|
  {
    if facts != [] {
      AllLed(facts[1..]);
    }
  }

  lemma FactsLed(p: Payload)
    ensures Led(FactsOf(p), false)
  {
    var facts := FactsOf(p);
    if facts != [] {
      if facts[0].Fail? {
        assert facts[1..] == [Begin, Finish("end_turn")];
        AllLed(facts[1..][1..]);
        assert Led(facts[1..], false);
      } else {
        assert facts[0].Begin?;
        AllLed(facts[1..]);
      }
    }
  }

  lemma {:induction false} StreamLed(ps: seq<Payload>, tail: seq<Fact>)
    requires Led(tail, false)
    ensures Led(FactsOfAll(ps) + tail, false)
  {
    hide Led, FactsOf;
    if ps == [] {
      assert FactsOfAll(ps) + tail == tail;
    } else {
      StreamLed(ps[1..], tail);
      FactsLed(ps[0]);
      LedConcat(FactsOf(ps[0]), FactsOfAll(ps[1..]) + tail, false);
      assert FactsOfAll(ps) + tail == FactsOf(ps[0]) + (FactsOfAll(ps[1..]) + tail);
    }
  }

  ghost predicate ToolMapSound(s: State) {
    forall i :: i in s.toolMap ==> 0 <= s.toolMap[i] <= s.lastTool
  }

  /** Looking an index up never changes whether an argument fragment is written. */
  lemma ToolIndexSign(s: State, index: Option<int>)
    requires ToolMapSound(s)
    ensures ToolIndex(s, index) >= 0 <==> s.lastTool >= 0
  {
    if index.Some? {
      var i := index.value;
      assert i in s.toolMap ==> 0 <= s.toolMap[i] <= s.lastTool;
    }
  }

  /** The observer of what was written so far agrees with the translator's fields. */
  ghost predicate Tracks(o: Observer, s: State) {
    && |o.blocks| == s.blockIdx
    && o.start.Some? == s.started
    && o.open == s.current.Some?
    && (o.open ==> s.blockIdx > 0 && s.current == Some(o.blocks[s.blockIdx - 1].head.Kind()))
    && o.ending == (if s.finished then Stopped else Running)
    && !o.signed
    && -1 <= s.lastTool < s.blockIdx
    && (s.current == Some(ToolUse) ==> s.lastTool >= 0)
    && ToolMapSound(s)
  }

  /** Closing the open block leaves the observer with the same blocks, none of them open. */
  lemma CloseObserved(o: Observer, s: State)
    requires Tracks(o, s)
    ensures var o' := ObserveAll(o, CloseEvents(s));
            && o' == o.(open := false, disciplined := o'.disciplined, grammatical := o'.grammatical)
            && (o'.disciplined <==> o.disciplined)
            && (o'.grammatical <==> o.grammatical && (s.current.Some? ==> !s.finished))
  {
    if s.current == Some(Thinking) {
      Two(o, CloseEvents(s));
    }
  }

  lemma Two(o: Observer, events: seq<Event>)
    requires |events| == 2
    ensures ObserveAll(o, events) == Observe(Observe(o, events[0]), events[1])
  {
    assert ObserveAll(o, events) == ObserveAll(Observe(o, events[0]), events[1..]);
  }

  lemma FragmentTracks(o: Observer, s: State, head: BlockHead, d: BlockDelta)
    requires Tracks(o, s) && s.started && FragmentKind(d) == Some(head.Kind()) && !head.ToolHead?
    ensures var o' := ObserveAll(o, AddFragment(s, head, d).1);
            && Tracks(o', AddFragment(s, head, d).0)
            && (o'.disciplined <==> o.disciplined)
            && (o'.grammatical <==> o.grammatical && !s.finished)
  {
    if s.current != Some(head.Kind()) {
      CloseObserved(o, s);
      var rest := [BlockStart(s.blockIdx, head), BlockDeltaEvent(s.blockIdx, d)];
      ObserveAllConcat(o, CloseEvents(s), rest);
      Two(ObserveAll(o, CloseEvents(s)), rest);
    }
  }

  lemma NameTracks(o: Observer, s: State, f: Fact)
    requires Tracks(o, s) && s.started && f.Name?
    ensures var o' := ObserveAll(o, Emit(s, f).1);
            && Tracks(o', Emit(s, f).0)
            && (o'.disciplined <==> o.disciplined)
            && (o'.grammatical <==> o.grammatical && !s.finished)
  {
    CloseObserved(o, s);
    ObserveAllConcat(o, CloseEvents(s), [BlockStart(s.blockIdx, ToolHead(f.id, f.name))]);
  }

  lemma FinishTracks(o: Observer, s: State, f: Fact)
    requires Tracks(o, s) && f.Finish?
    ensures var o' := ObserveAll(o, Emit(s, f).1);
            && Tracks(o', Emit(s, f).0)
            && (o'.disciplined <==> o.disciplined)
            && (o'.grammatical <==> o.grammatical && (s.finished || s.started))
  {
    if !s.finished {
      CloseObserved(o, s);
      var rest := [MessageDelta(f.stopReason, s.output), MessageStop];
      ObserveAllConcat(o, CloseEvents(s), rest);
      Two(ObserveAll(o, CloseEvents(s)), rest);
    }
  }

  lemma EmitTracks(o: Observer, s: State, f: Fact)
    requires Tracks(o, s)
    requires f.Reason? || f.Content? || f.Name? ==> s.started
    requires !s.started ==> s.blockIdx == 0
    ensures var o' := ObserveAll(o, Emit(s, f).1);
            var s' := Emit(s, f).0;
            Tracks(o', s') && (o'.disciplined <==> o.disciplined) && (!s'.started ==> s'.blockIdx == 0)
  {
    hide ToolIndex, CloseEvents;
    match f
    case Reason(t) => FragmentTracks(o, s, ThinkingHead, ThinkingDelta(t));
    case Content(t) => FragmentTracks(o, s, TextHead, TextDelta(t));
    case Name(_, _, _) => NameTracks(o, s, f);
    case Finish(_) => FinishTracks(o, s, f);
    case Begin =>
    case Report(_) =>
    case Arguments(index, _) => ToolIndexSign(s, index);
    case Fail(_) =>
  }

  lemma {:induction false} EmitAllTracks(o: Observer, s: State, facts: seq<Fact>)
    requires Tracks(o, s) && o.disciplined && Led(facts, s.started)
    requires !s.started ==> s.blockIdx == 0
    ensures var o' := ObserveAll(o, EmitAll(s, facts).1);
            Tracks(o', EmitAll(s, facts).0) && o'.disciplined
    decreases |facts|
  {
    if facts != [] {
      var (s1, events) := Emit(s, facts[0]);
      EmitTracks(o, s, facts[0]);
      ObserveAllConcat(o, events, EmitAll(s1, facts[1..]).1);
      EmitAllTracks(ObserveAll(o, events), s1, facts[1..]);
    }
  }

  /** Whatever arrives, blocks are numbered 0, 1, 2, ..., at most one is open, every stop and every text
      fragment names the open block, message_start comes at most once and before any block, and exactly
      one message_stop is written, directly after the one message_delta. */
  lemma BlockDiscipline(model: Bytes, messageId: Bytes, ps: seq<Payload>)
    ensures var output := Output(model, messageId, ps);
            var o := ObserveAll(NEW_OBSERVER, output);
            && o.disciplined && o.ending.Stopped?
            && Count(output, MessageStops) == 1 && Count(output, MessageStarts) <= 1
            && Count(output, BlockStarts) == |o.blocks|
            && Count(output, BlockStops) == |o.blocks| - (if o.open then 1 else 0)
  {
    StreamLed(ps, [Finish("end_turn")]);
    var facts := FactsOfStream(ps);
    var s := Fresh(model, messageId);
    EmitAllTracks(NEW_OBSERVER, s, facts);
    EmitAllConcat(s, FactsOfAll(ps), [Finish("end_turn")]);
    assert EmitAll(s, facts).0.finished;
    DisciplineCounts(NEW_OBSERVER, Output(model, messageId, ps), MessageStops);
    DisciplineCounts(NEW_OBSERVER, Output(model, messageId, ps), MessageStarts);
    DisciplineCounts(NEW_OBSERVER, Output(model, messageId, ps), BlockStarts);
    DisciplineCounts(NEW_OBSERVER, Output(model, messageId, ps), BlockStops);
  }

  // ---- the message grammar: exactly which upstream runs give one well-formed message ----

  /** Where an upstream run stands: has a choice or [DONE] arrived, has a tool been named, is the last
      named tool's block still the open one, has a finish arrived. */
  datatype Phase = Phase(begun: bool, named: bool, inTool: bool, over: bool)

  function Advance(p: Phase, f: Fact): Phase {
    match f
    case Begin => p.(begun := true)
    case Reason(_) => p.(inTool := false)
    case Content(_) => p.(inTool := false)
    case Name(_, _, _) => p.(named := true, inTool := true)
    case Finish(_) => p.(inTool := false, over := true)
    case _ => p
  }

  /** No error; nothing that makes or fills a block after the finish; arguments of a named tool only
      while its block is open (arguments before any name are dropped and harmless). */
  predicate Allowed(p: Phase, f: Fact) {
    match f
    case Begin => p.begun || !p.over
    case Report(_) => true
    case Reason(_) => !p.over
    case Content(_) => !p.over
    case Name(_, _, _) => !p.over
    case Arguments(_, _) => p.named ==> p.inTool && !p.over
    case Finish(_) => p.over || p.begun
    case Fail(_) => false
  }

  predicate Orderly(p: Phase, facts: seq<Fact>)
    decreases |facts|
  {
    facts == [] || (Allowed(p, facts[0]) && Orderly(Advance(p, facts[0]), facts[1..]))
  }

  const START := Phase(false, false, false, false)

  function PhaseOf(s: State): Phase {
    Phase(s.started, s.lastTool >= 0, s.current == Some(ToolUse), s.finished)
  }

  lemma EmitGrammar(o: Observer, s: State, f: Fact)
    requires Tracks(o, s)
    requires f.Reason? || f.Content? || f.Name? ==> s.started
    requires !s.started ==> s.blockIdx == 0
    ensures ObserveAll(o, Emit(s, f).1).grammatical <==> o.grammatical && Allowed(PhaseOf(s), f)
    ensures Allowed(PhaseOf(s), f) && (s.finished ==> s.current.None?) ==>
              PhaseOf(Emit(s, f).0) == Advance(PhaseOf(s), f)
  {
    hide ToolMapSound, ToolIndex, CloseEvents;
    match f
    case Reason(t) => FragmentTracks(o, s, ThinkingHead, ThinkingDelta(t));
    case Content(t) => FragmentTracks(o, s, TextHead, TextDelta(t));
    case Name(_, _, _) => NameTracks(o, s, f);
    case Finish(_) => FinishTracks(o, s, f);
    case Begin =>
    case Report(_) =>
    case Arguments(index, _) => ToolIndexSign(s, index);
    case Fail(_) =>
  }

  lemma {:induction false} EmitAllGrammar(o: Observer, s: State, facts: seq<Fact>)
    requires Tracks(o, s) && Led(facts, s.started)
    requires !s.started ==> s.blockIdx == 0
    requires o.grammatical ==> (s.finished ==> s.current.None?)
    ensures ObserveAll(o, EmitAll(s, facts).1).grammatical <==> o.grammatical && Orderly(PhaseOf(s), facts)
    decreases |facts|
  {
    if facts != [] {
      var (s1, events) := Emit(s, facts[0]);
      var o1 := ObserveAll(o, events);
      EmitTracks(o, s, facts[0]);
      EmitGrammar(o, s, facts[0]);
      ObserveAllConcat(o, events, EmitAll(s1, facts[1..]).1);
      EmitAllGrammar(o1, s1, facts[1..]);
    }
  }

  /** The whole output is message_start, closed blocks, message_delta, message_stop
      exactly when the upstream run is orderly. */
  lemma OutputIsMessageIff(model: Bytes, messageId: Bytes, ps: seq<Payload>)
    ensures (exists blocks :: IsMessage(Output(model, messageId, ps), blocks)) <==>
            Orderly(START, FactsOfStream(ps))
  {
    var output := Output(model, messageId, ps);
    var o := ObserveAll(NEW_OBSERVER, output);
    StreamLed(ps, [Finish("end_turn")]);
    EmitAllGrammar(NEW_OBSERVER, Fresh(model, messageId), FactsOfStream(ps));
    BlockDiscipline(model, messageId, ps);
    if Orderly(START, FactsOfStream(ps)) {
      CompleteIffMessage(output, o.blocks);
    }
    if blocks :| IsMessage(output, blocks) {
      CompleteIffMessage(output, blocks);
    }
  }

  // ---- no fragment is lost, duplicated or reordered ----

  /** The fragments of one kind, in order, as the client receives them. */
  function Received(events: seq<Event>, k: BlockKind): Bytes
    decreases |events|
  {
    if events == [] then ""
    else
      (if events[0].BlockDeltaEvent? && FragmentKind(events[0].delta) == Some(k) then events[0].delta.text else "") +
      Received(events[1..], k)
  }

  /** The choice a payload contributes, if the translator looks at one. */
  function ProcessedDelta(p: Payload): Delta {
    if p.Chunk? && p.error.None? && p.choices != [] then p.choices[0].delta else Delta(None, None, [])
  }

  function OrEmpty(t: Option<Bytes>): Bytes {
    if t.Some? then t.value else ""
  }

  /** The arguments of the calls, leaving out those that come before any call has been named. */
  function ArgumentText(calls: seq<ToolCallDelta>, named: bool): Bytes
    decreases |calls|
  {
    if calls == [] then ""
    else
      var c := calls[0].call;
      var named' := named || (c.Some? && c.value.name != "");
      (if named' && c.Some? then c.value.arguments else "") + ArgumentText(calls[1..], named')
  }

  function SentCalls(ps: seq<Payload>): seq<ToolCallDelta> {
    if ps == [] then [] else ProcessedDelta(ps[0]).toolCalls + SentCalls(ps[1..])
  }

  function Sent(ps: seq<Payload>, k: BlockKind): Bytes {
    if k == ToolUse then ArgumentText(SentCalls(ps), false)
    else if ps == [] then ""
    else
      (if k == Thinking then OrEmpty(ProcessedDelta(ps[0]).reasoning) else OrEmpty(ProcessedDelta(ps[0]).content)) +
      Sent(ps[1..], k)
  }

  /** What the facts say should arrive. */
  function FactText(facts: seq<Fact>, k: BlockKind, named: bool): Bytes
    decreases |facts|
  {
    if facts == [] then "" else FactPiece(facts[0], k, named) + FactText(facts[1..], k, named || facts[0].Name?)
  }

  function FactPiece(f: Fact, k: BlockKind, named: bool): Bytes {
    match f
    case Reason(t) => if k == Thinking then t else ""
    case Content(t) => if k == Text then t else ""
    case Arguments(_, t) => if k == ToolUse && named then t else ""
    case _ => ""
  }

  predicate Names(facts: seq<Fact>)
    decreases |facts|
  {
    facts != [] && (facts[0].Name? || Names(facts[1..]))
  }

  lemma {:induction false} FactTextConcat(a: seq<Fact>, b: seq<Fact>, k: BlockKind, named: bool)
    ensures FactText(a + b, k, named) == FactText(a, k, named) + FactText(b, k, named || Names(a))
    decreases |a|
  {
    hide FactPiece;
    if a == [] {
      assert a + b == b;
    } else {
      assert (a + b)[1..] == a[1..] + b;
      var named' := named || a[0].Name?;
      FactTextConcat(a[1..], b, k, named');
      var x, y, z := FactPiece(a[0], k, named), FactText(a[1..], k, named'), FactText(b, k, named || Names(a));
      assert x + (y + z) == x + y + z;
    }
  }

  lemma {:induction false} ReceivedConcat(a: seq<Event>, b: seq<Event>, k: BlockKind)
    ensures Received(a + b, k) == Received(a, k) + Received(b, k)
    decreases |a|
  {
    if a == [] {
      assert a + b == b;
    } else {
      assert (a + b)[1..] == a[1..] + b;
      ReceivedConcat(a[1..], b, k);
    }
  }

  lemma CloseReceived(s: State, rest: seq<Event>, k: BlockKind)
    ensures Received(CloseEvents(s) + rest, k) == Received(rest, k)
  {
    var close := CloseEvents(s);
    ReceivedConcat(close, rest, k);
    if |close| == 2 {
      assert close[1..] == [BlockStop(s.blockIdx - 1)];
    }
  }

  lemma PairReceived(a: Event, b: Event, k: BlockKind)
    ensures Received([a, b], k) == Received([a], k) + Received([b], k)
  {
    ReceivedConcat([a], [b], k);
    assert [a] + [b] == [a, b];
  }

  lemma FragmentReceived(s: State, head: BlockHead, d: BlockDelta, k: BlockKind)
    ensures Received(AddFragment(s, head, d).1, k) == if FragmentKind(d) == Some(k) then d.text else ""
  {
    if s.current != Some(head.Kind()) {
      CloseReceived(s, [BlockStart(s.blockIdx, head), BlockDeltaEvent(s.blockIdx, d)], k);
      PairReceived(BlockStart(s.blockIdx, head), BlockDeltaEvent(s.blockIdx, d), k);
      assert CloseEvents(s) + [BlockStart(s.blockIdx, head), BlockDeltaEvent(s.blockIdx, d)] ==
             AddFragment(s, head, d).1;
    }
  }

  lemma EmitReceived(s: State, f: Fact, k: BlockKind)
    requires ToolMapSound(s)
    ensures Received(Emit(s, f).1, k) == FactPiece(f, k, s.lastTool >= 0)
  {
    match f
    case Reason(t) => FragmentReceived(s, ThinkingHead, ThinkingDelta(t), k);
    case Content(t) => FragmentReceived(s, TextHead, TextDelta(t), k);
    case Name(_, id, name) => CloseReceived(s, [BlockStart(s.blockIdx, ToolHead(id, name))], k);
    case Finish(reason) =>
      CloseReceived(s, [MessageDelta(reason, s.output), MessageStop], k);
      PairReceived(MessageDelta(reason, s.output), MessageStop, k);
    case Begin =>
    case Report(_) =>
    case Arguments(index, _) => ToolIndexSign(s, index);
    case Fail(_) =>
  }

  lemma NameSeen(s: State, f: Fact)
    requires ToolMapSound(s) && -1 <= s.lastTool < s.blockIdx
    ensures Emit(s, f).0.lastTool >= 0 <==> s.lastTool >= 0 || f.Name?
    ensures Emit(s, f).0.started <==> s.started || f.Begin?
  {
  }

  lemma TrackedTool(o: Observer, s: State)
    requires Tracks(o, s)
    ensures ToolMapSound(s) && -1 <= s.lastTool < s.blockIdx
  {
  }

  lemma {:induction false} EmitAllReceived(o: Observer, s: State, facts: seq<Fact>, k: BlockKind)
    requires Tracks(o, s) && Led(facts, s.started)
    requires !s.started ==> s.blockIdx == 0
    ensures Received(EmitAll(s, facts).1, k) == FactText(facts, k, s.lastTool >= 0)
    decreases |facts|
  {
    if facts != [] {
      hide Emit, Tracks, Received, FactPiece;
      TrackedTool(o, s);
      var (s1, events) := Emit(s, facts[0]);
      NameSeen(s, facts[0]);
      EmitTracks(o, s, facts[0]);
      EmitReceived(s, facts[0], k);
      ReceivedConcat(events, EmitAll(s1, facts[1..]).1, k);
      EmitAllReceived(ObserveAll(o, events), s1, facts[1..], k);
    }
  }

  lemma {:induction false} ToolsFactsConcat(a: seq<ToolCallDelta>, b: seq<ToolCallDelta>)
    ensures ToolsFacts(a + b) == ToolsFacts(a) + ToolsFacts(b)
    decreases |b|
  {
    if b == [] {
      assert a + b == a;
    } else {
      hide ToolFacts;
      var init, last := b[..|b| - 1], ToolFacts(b[|b| - 1]);
      assert (a + b)[..|a + b| - 1] == a + init;
      ToolsFactsConcat(a, init);
      assert ToolsFacts(a) + (ToolsFacts(init) + last) == ToolsFacts(a) + ToolsFacts(init) + last;
    }
  }

  /** Tool calls as facts carry exactly the argument text that follows a name, and no other text. */
  lemma {:induction false} ToolsText(tcs: seq<ToolCallDelta>, rest: seq<ToolCallDelta>, named: bool)
    ensures ArgumentText(tcs + rest, named) ==
            FactText(ToolsFacts(tcs), ToolUse, named) + ArgumentText(rest, named || Names(ToolsFacts(tcs)))
    decreases |tcs|
  {
    hide FactText, Names, ToolsFacts, ToolFacts, ArgumentText;
    if tcs == [] {
      NoTools(named);
      assert tcs + rest == rest && "" + ArgumentText(rest, named) == ArgumentText(rest, named);
    } else {
      assert (tcs + rest)[1..] == tcs[1..] + rest;
      ToolsFactsHead(tcs);
      var first, others := ToolFacts(tcs[0]), ToolsFacts(tcs[1..]);
      var named' := named || Names(first);
      ArgumentHead(tcs + rest, named);
      FactTextConcat(first, others, ToolUse, named);
      NamesConcat(first, others);
      ToolsText(tcs[1..], rest, named');
      var a, b, c := FactText(first, ToolUse, named), FactText(others, ToolUse, named'),
                     ArgumentText(rest, named' || Names(others));
      assert a + (b + c) == a + b + c;
    }
  }

  lemma NoTools(named: bool)
    ensures FactText(ToolsFacts([]), ToolUse, named) == "" && !Names(ToolsFacts([]))
  {
  }

  lemma ArgumentHead(tcs: seq<ToolCallDelta>, named: bool)
    requires tcs != []
    ensures var first := ToolFacts(tcs[0]);
            ArgumentText(tcs, named) ==
            FactText(first, ToolUse, named) + ArgumentText(tcs[1..], named || Names(first))
  {
    hide FactText, Names;
    OneTool(tcs[0], named);
  }

  lemma OneToolFacts(tc: ToolCallDelta)
    ensures ToolsFacts([tc]) == ToolFacts(tc)
  {
    var one := [tc];
    assert one[..0] == [];
    assert ToolsFacts(one) == ToolsFacts(one[..0]) + ToolFacts(one[0]);
  }

  lemma ToolsFactsHead(tcs: seq<ToolCallDelta>)
    requires tcs != []
    ensures ToolsFacts(tcs) == ToolFacts(tcs[0]) + ToolsFacts(tcs[1..])
  {
    var one := [tcs[0]];
    OneToolFacts(tcs[0]);
    ToolsFactsConcat(one, tcs[1..]);
    assert tcs == one + tcs[1..];
  }

  lemma {:induction false} ToolsSilent(tcs: seq<ToolCallDelta>, k: BlockKind, named: bool)
    requires k != ToolUse
    ensures FactText(ToolsFacts(tcs), k, named) == ""
    decreases |tcs|
  {
    if tcs != [] {
      ToolsFactsHead(tcs);
      OneTool(tcs[0], named);
      FactTextConcat(ToolFacts(tcs[0]), ToolsFacts(tcs[1..]), k, named);
      ToolsSilent(tcs[1..], k, named || Names(ToolFacts(tcs[0])));
    }
  }

  lemma OneTool(tc: ToolCallDelta, named: bool)
    ensures var facts := ToolFacts(tc);
            && (Names(facts) <==> tc.call.Some? && tc.call.value.name != "")
            && FactText(facts, Thinking, named) == FactText(facts, Text, named) == ""
            && FactText(facts, ToolUse, named) ==
               (if (named || Names(facts)) && tc.call.Some? then tc.call.value.arguments else "")
  {
    if tc.call.Some? {
      var a := if tc.call.value.name != "" then [Name(tc.index, tc.id, tc.call.value.name)] else [];
      var b := if tc.call.value.arguments != "" then [Arguments(tc.index, tc.call.value.arguments)] else [];
      NamesConcat(a, b);
      FactTextConcat(a, b, Thinking, named);
      FactTextConcat(a, b, Text, named);
      FactTextConcat(a, b, ToolUse, named);
    }
  }

  lemma {:induction false} NamesConcat(a: seq<Fact>, b: seq<Fact>)
    ensures Names(a + b) <==> Names(a) || Names(b)
    decreases |a|
  {
    if a == [] {
      assert a + b == b;
    } else {
      assert (a + b)[1..] == a[1..] + b;
      NamesConcat(a[1..], b);
    }
  }

  /** The facts of one processed choice around its tool calls. */
  function Before(c: Choice, usage: Option<ChunkUsage>): seq<Fact> {
    [Begin] + (if usage.Some? then [Report(usage.value)] else []) +
    TextFacts(c.delta.reasoning, true) + TextFacts(c.delta.content, false)
  }

  /** What one processed delta contributes to the text of one kind. */
  function DeltaText(d: Delta, k: BlockKind, named: bool): Bytes {
    match k
    case Thinking => OrEmpty(d.reasoning)
    case Text => OrEmpty(d.content)
    case ToolUse => FactText(ToolsFacts(d.toolCalls), ToolUse, named)
  }

  lemma Glue(a: seq<Fact>, b: seq<Fact>, k: BlockKind, named: bool)
    requires !Names(a)
    ensures Names(a + b) == Names(b)
    ensures FactText(a + b, k, named) == FactText(a, k, named) + FactText(b, k, named)
  {
    FactTextConcat(a, b, k, named);
    NamesConcat(a, b);
  }

  lemma {:induction false} Mute(facts: seq<Fact>, k: BlockKind, named: bool)
    requires forall f :: f in facts ==> f.Begin? || f.Report? || f.Finish? || f.Fail?
    ensures !Names(facts) && FactText(facts, k, named) == ""
    decreases |facts|
  {
    if facts != [] {
      assert facts[0] in facts;
      Mute(facts[1..], k, named);
    }
  }

  lemma OneText(t: Option<Bytes>, thinking: bool, k: BlockKind, named: bool)
    ensures !Names(TextFacts(t, thinking))
    ensures FactText(TextFacts(t, thinking), k, named) ==
            if k == (if thinking then Thinking else Text) then OrEmpty(t) else ""
  {}

  lemma BeforeText(c: Choice, usage: Option<ChunkUsage>, k: BlockKind, named: bool)
    ensures !Names(Before(c, usage))
    ensures FactText(Before(c, usage), k, named) == if k == ToolUse then "" else DeltaText(c.delta, k, named)
  {
    hide FactText, Names, TextFacts;
    var a := [Begin] + (if usage.Some? then [Report(usage.value)] else []);
    var b, d := TextFacts(c.delta.reasoning, true), TextFacts(c.delta.content, false);
    Mute(a, k, named);
    OneText(c.delta.reasoning, true, k, named);
    OneText(c.delta.content, false, k, named);
    Glue(a, b, k, named);
    Glue(a + b, d, k, named);
    assert Before(c, usage) == a + b + d;
  }

  lemma ChoiceText(c: Choice, usage: Option<ChunkUsage>, k: BlockKind, named: bool)
    requires k != ToolUse
    ensures var facts := Before(c, usage) + ToolsFacts(c.delta.toolCalls) + FinishFacts(c.finishReason);
            && Names(facts) == Names(ToolsFacts(c.delta.toolCalls))
            && FactText(facts, k, named) == DeltaText(c.delta, k, named)
            && FactText(facts, ToolUse, named) == DeltaText(c.delta, ToolUse, named)
  {
    var before, tools, after := Before(c, usage), ToolsFacts(c.delta.toolCalls), FinishFacts(c.finishReason);
    BeforeText(c, usage, k, named);
    BeforeText(c, usage, ToolUse, named);
    Mute(after, k, named || Names(before + tools));
    Mute(after, ToolUse, named || Names(before + tools));
    Glue(before, tools, k, named);
    Glue(before, tools, ToolUse, named);
    FactTextConcat(before + tools, after, k, named);
    FactTextConcat(before + tools, after, ToolUse, named);
    NamesConcat(before + tools, after);
    ToolsSilent(c.delta.toolCalls, k, named);
  }

  lemma PayloadText(p: Payload, k: BlockKind, named: bool)
    requires k != ToolUse
    ensures Names(FactsOf(p)) == Names(ToolsFacts(ProcessedDelta(p).toolCalls))
    ensures FactText(FactsOf(p), k, named) == DeltaText(ProcessedDelta(p), k, named)
    ensures FactText(FactsOf(p), ToolUse, named) == DeltaText(ProcessedDelta(p), ToolUse, named)
  {
    if p.Chunk? && p.error.None? && p.choices != [] {
      var c := p.choices[0];
      assert FactsOf(p) == Before(c, p.usage) + ToolsFacts(c.delta.toolCalls) + FinishFacts(c.finishReason);
      ChoiceText(c, p.usage, k, named);
    } else {
      Mute(FactsOf(p), k, named);
      Mute(FactsOf(p), ToolUse, named);
    }
  }

  lemma {:induction false} PayloadsText(ps: seq<Payload>, k: BlockKind, named: bool)
    requires k != ToolUse
    ensures FactText(FactsOfAll(ps), k, named) == Sent(ps, k)
    ensures FactText(FactsOfAll(ps), ToolUse, named) == ArgumentText(SentCalls(ps), named)
  {
    if ps != [] {
      var facts, rest := FactsOf(ps[0]), FactsOfAll(ps[1..]);
      PayloadText(ps[0], k, named);
      FactTextConcat(facts, rest, k, named);
      FactTextConcat(facts, rest, ToolUse, named);
      PayloadsText(ps[1..], k, named || Names(facts));
      ToolsText(ProcessedDelta(ps[0]).toolCalls, SentCalls(ps[1..]), named);
    }
  }

  /** For every payload sequence, the thinking, text and argument fragments that are written are,
      in order, exactly those of the processed choices. */
  lemma NothingLost(model: Bytes, messageId: Bytes, ps: seq<Payload>, k: BlockKind)
    ensures Received(Output(model, messageId, ps), k) == Sent(ps, k)
  {
    var facts, last := FactsOfAll(ps), [Finish("end_turn")];
    StreamLed(ps, last);
    EmitAllReceived(NEW_OBSERVER, Fresh(model, messageId), facts + last, k);
    FactTextConcat(facts, last, k, false);
    PayloadsText(ps, if k == ToolUse then Text else k, false);
  }

}
