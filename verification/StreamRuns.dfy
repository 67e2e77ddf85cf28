/** Whole runs of the stream translator where they surprise: tool calls that are interleaved, content behind
    the finish, usage in a chunk of its own, and a source that breaks off (internal/wire/stream.go:234-361). */
module StreamRuns {
  import opened Text
  import opened Events
  import opened Stream

  // ---- argument fragments: the block they name and the block they reach ----

  /** What made the newest block: a call under the given chunk index, or something else. */
  datatype Newest = NotTool | Tool(index: Option<int>)

  function NewestAfter(newest: Newest, f: Fact): Newest {
    match f
    case Reason(_) => NotTool
    case Content(_) => NotTool
    case Name(index, _, _) => Tool(index)
    case Begin => newest
    case Report(_) => newest
    case Arguments(_, _) => newest
    case Finish(_) => newest
    case Fail(_) => newest
  }

  function NamedAfter(named: set<int>, f: Fact): set<int> {
    if f.Name? && f.index.Some? then named + {f.index.value} else named
  }

  /** Fragments come in turn: under the index of a named call while that call's block is the newest, and under
      no such index, once any call is named, while some call's block is the newest. */
  predicate InTurn(newest: Newest, named: set<int>, any: bool, facts: seq<Fact>)
    decreases |facts|
  {
    facts == [] ||
    (&& Due(newest, named, any, facts[0])
     && InTurn(NewestAfter(newest, facts[0]), NamedAfter(named, facts[0]), any || facts[0].Name?, facts[1..]))
  }

  predicate Due(newest: Newest, named: set<int>, any: bool, f: Fact) {
    f.Arguments? ==>
      if f.index.Some? && f.index.value in named then newest == Tool(f.index) else any ==> newest.Tool?
  }

  /** Whether a fragment is written to the block that the translator looks up for it. */
  predicate Reaches(s: State, f: Fact) {
    f.Arguments? && ToolIndex(s, f.index) >= 0 ==>
      Emit(s, f).1 == [BlockDeltaEvent(ToolIndex(s, f.index), InputJsonDelta(f.text))]
  }

  predicate ToItsBlock(s: State, facts: seq<Fact>)
    decreases |facts|
  {
    facts == [] || (Reaches(s, facts[0]) && ToItsBlock(Emit(s, facts[0]).0, facts[1..]))
  }

  /** The index map and the last tool know which call made the newest block. */
  ghost predicate Follows(s: State, newest: Newest, named: set<int>, any: bool) {
    && s.toolMap.Keys == named
    && (newest.Tool? ==> s.current.None? || s.current == Some(ToolUse))
    && -1 <= s.lastTool < s.blockIdx && (any <==> s.lastTool >= 0)
    && (any ==> (s.lastTool == s.blockIdx - 1 <==> newest.Tool?))
    && (forall i :: i in s.toolMap ==> EntryFollows(s, newest, i))
  }

  predicate EntryFollows(s: State, newest: Newest, i: int)
    requires i in s.toolMap
  {
    0 <= s.toolMap[i] <= s.lastTool && (s.toolMap[i] == s.blockIdx - 1 <==> newest == Tool(Some(i)))
  }

  lemma FollowsOn(s: State, newest: Newest, named: set<int>, any: bool, f: Fact)
    requires Follows(s, newest, named, any)
    ensures Follows(Emit(s, f).0, NewestAfter(newest, f), NamedAfter(named, f), any || f.Name?)
    ensures Reaches(s, f) <==> Due(newest, named, any, f)
  {
    hide CloseEvents;
    if f.Arguments? {
      ReachesWhenDue(s, newest, named, any, f);
    }
    var s', newest' := Emit(s, f).0, NewestAfter(newest, f);
    forall i | i in s'.toolMap ensures EntryFollows(s', newest', i) {
      if i in s.toolMap {
        assert EntryFollows(s, newest, i);
      }
    }
  }

  /** The fragment goes to the newest block, so it is right exactly if that is the one looked up. */
  lemma ReachesWhenDue(s: State, newest: Newest, named: set<int>, any: bool, f: Fact)
    requires Follows(s, newest, named, any) && f.Arguments?
    ensures Reaches(s, f) <==> Due(newest, named, any, f)
  {
    var idx := ToolIndex(s, f.index);
    assert idx >= 0 ==> Emit(s, f).1 == [BlockDeltaEvent(s.blockIdx - 1, InputJsonDelta(f.text))];
    assert Reaches(s, f) <==> idx >= 0 ==> idx == s.blockIdx - 1 by {
      assert idx >= 0 ==> Emit(s, f).1[0] == BlockDeltaEvent(s.blockIdx - 1, InputJsonDelta(f.text));
    }
    if f.index.Some? && f.index.value in named {
      var i := f.index.value;
      assert i in s.toolMap && EntryFollows(s, newest, i) && f.index == Some(i);
    }
  }

  lemma {:induction false} ReachIff(s: State, newest: Newest, named: set<int>, any: bool, facts: seq<Fact>)
    requires Follows(s, newest, named, any)
    ensures ToItsBlock(s, facts) <==> InTurn(newest, named, any, facts)
    decreases |facts|
  {
    hide Follows, Emit, Reaches, Due, NewestAfter, NamedAfter;
    if facts != [] {
      var f := facts[0];
      FollowsOn(s, newest, named, any, f);
      ReachIff(Emit(s, f).0, NewestAfter(newest, f), NamedAfter(named, f), any || f.Name?, facts[1..]);
    }
  }

  /** Every written fragment reaches the block that the translator looks up for it, by index or as the last
      tool's, exactly when the fragments come in turn: it is written to the newest block whatever was found. */
  lemma FragmentsReachIff(model: Bytes, messageId: Bytes, ps: seq<Payload>)
    ensures ToItsBlock(Fresh(model, messageId), FactsOfStream(ps)) <==>
            InTurn(NotTool, {}, false, FactsOfStream(ps))
  {
    hide ToItsBlock, InTurn, FactsOfStream;
    ReachIff(Fresh(model, messageId), NotTool, {}, false, FactsOfStream(ps));
  }

  // ---- argument fragments: the state of the block they reach ----

  /** Every argument fragment lands on an open tool block. */
  predicate LandsOpen(o: Observer, events: seq<Event>)
    decreases |events|
  {
    events == [] || (LandsOne(o, events[0]) && LandsOpen(Observe(o, events[0]), events[1..]))
  }

  predicate LandsOne(o: Observer, e: Event) {
    e.BlockDeltaEvent? && e.delta.InputJsonDelta? ==>
      o.open && o.blocks != [] && e.index == |o.blocks| - 1 && o.blocks[|o.blocks| - 1].head.ToolHead?
  }

  /** Once a call is named, arguments come only while no text, no reasoning and no first finish has come since
      the last name. */
  predicate WhileOpen(named: bool, open: bool, over: bool, facts: seq<Fact>)
    decreases |facts|
  {
    facts == [] ||
    (var f := facts[0];
     && (f.Arguments? && named ==> open)
     && WhileOpen(named || f.Name?, OpenAfter(open, over, f), over || f.Finish?, facts[1..]))
  }

  predicate OpenAfter(open: bool, over: bool, f: Fact) {
    if f.Name? then true
    else if f.Reason? || f.Content? || (f.Finish? && !over) then false
    else open
  }

  lemma {:induction false} LandsConcat(o: Observer, a: seq<Event>, b: seq<Event>)
    ensures LandsOpen(o, a + b) <==> LandsOpen(o, a) && LandsOpen(ObserveAll(o, a), b)
    decreases |a|
  {
    hide Observe, LandsOne;
    if a == [] {
      assert a + b == b;
    } else {
      assert (a + b)[1..] == a[1..] + b;
      LandsConcat(Observe(o, a[0]), a[1..], b);
    }
  }

  lemma {:induction false} NoArgumentsLand(o: Observer, events: seq<Event>)
    requires forall e :: e in events ==> !(e.BlockDeltaEvent? && e.delta.InputJsonDelta?)
    ensures LandsOpen(o, events)
    decreases |events|
  {
    hide Observe;
    if events != [] {
      assert events[0] in events;
      NoArgumentsLand(Observe(o, events[0]), events[1..]);
    }
  }

  lemma OthersWriteNoArguments(s: State, f: Fact)
    requires !f.Arguments?
    ensures forall e :: e in Emit(s, f).1 ==> !(e.BlockDeltaEvent? && e.delta.InputJsonDelta?)
  {
    var closing := CloseEvents(s);
    assert forall e :: e in closing ==> !(e.BlockDeltaEvent? && e.delta.InputJsonDelta?);
  }

  lemma StepLands(o: Observer, s: State, f: Fact)
    requires Tracks(o, s)
    ensures LandsOpen(o, Emit(s, f).1) <==> (f.Arguments? && s.lastTool >= 0 ==> s.current == Some(ToolUse))
  {
    if f.Arguments? {
      ToolIndexSign(s, f.index);
      assert s.lastTool >= 0 ==> Emit(s, f).1[1..] == [];
    } else {
      OthersWriteNoArguments(s, f);
      NoArgumentsLand(o, Emit(s, f).1);
    }
  }

  lemma NextOpen(s: State, f: Fact)
    requires -1 <= s.lastTool < s.blockIdx
    ensures Emit(s, f).0.current == Some(ToolUse) <==> OpenAfter(s.current == Some(ToolUse), s.finished, f)
    ensures Emit(s, f).0.lastTool >= 0 <==> s.lastTool >= 0 || f.Name?
    ensures Emit(s, f).0.finished <==> s.finished || f.Finish?
    ensures Emit(s, f).0.started <==> s.started || f.Begin?
  {
    hide CloseEvents, AddUsage;
  }

  lemma {:induction false} LandsIff(o: Observer, s: State, facts: seq<Fact>)
    requires Tracks(o, s) && Led(facts, s.started)
    requires !s.started ==> s.blockIdx == 0
    ensures LandsOpen(o, EmitAll(s, facts).1) <==>
            WhileOpen(s.lastTool >= 0, s.current == Some(ToolUse), s.finished, facts)
    decreases |facts|
  {
    if facts != [] {
      hide Emit, Tracks, OpenAfter;
      var (s1, events) := Emit(s, facts[0]);
      TrackedTool(o, s);
      EmitTracks(o, s, facts[0]);
      StepLands(o, s, facts[0]);
      NextOpen(s, facts[0]);
      LandsConcat(o, events, EmitAll(s1, facts[1..]).1);
      LandsIff(ObserveAll(o, events), s1, facts[1..]);
    }
  }

  /** Every argument fragment lands on an open tool block exactly when, once a call is named, none comes behind
      text, reasoning or the finish without another name in between. */
  lemma FragmentsLandOpenIff(model: Bytes, messageId: Bytes, ps: seq<Payload>)
    ensures LandsOpen(NEW_OBSERVER, Output(model, messageId, ps)) <==>
            WhileOpen(false, false, false, FactsOfStream(ps))
  {
    hide LandsOpen, WhileOpen;
    StreamLed(ps, [Finish("end_turn")]);
    LandsIff(NEW_OBSERVER, Fresh(model, messageId), FactsOfStream(ps));
  }

  // ---- the failing inputs ----

  predicate IsStep(s: State, f: Fact, next: State, events: seq<Event>) {
    Emit(s, f).0 == next && Emit(s, f).1 == events
  }

  /** A run of six facts, one step at a time. */
  lemma SixSteps(s: State, fs: seq<Fact>, states: seq<State>, events: seq<seq<Event>>)
    requires |fs| == |events| == 6 && |states| == 7 && states[0] == s
    requires forall i :: 0 <= i < 6 ==> IsStep(states[i], fs[i], states[i + 1], events[i])
    ensures EmitAll(s, fs).0 == states[6]
    ensures EmitAll(s, fs).1 == events[0] + events[1] + events[2] + events[3] + events[4] + events[5]
  {
    hide Emit, IsStep, EmitAll;
    NothingEmitted(states[6]);
    StepsFrom(fs, states, events, 5);
    StepsFrom(fs, states, events, 4);
    StepsFrom(fs, states, events, 3);
    StepsFrom(fs, states, events, 2);
    StepsFrom(fs, states, events, 1);
    StepsFrom(fs, states, events, 0);
    assert fs[6..] == [] && fs[0..] == fs;
  }

  lemma NothingEmitted(s: State)
    ensures EmitAll(s, []) == (s, [])
  {
  }

  lemma StepsFrom(fs: seq<Fact>, states: seq<State>, events: seq<seq<Event>>, i: nat)
    requires i < |fs| && |states| == |fs| + 1 && |events| == |fs|
    requires IsStep(states[i], fs[i], states[i + 1], events[i])
    ensures EmitAll(states[i], fs[i..]).0 == EmitAll(states[i + 1], fs[i + 1..]).0
    ensures EmitAll(states[i], fs[i..]).1 == events[i] + EmitAll(states[i + 1], fs[i + 1..]).1
  {
    hide Emit;
    assert fs[i..][1..] == fs[i + 1..] && fs[i..][0] == fs[i];
  }

  /** Two calls are named, then the first gets an argument. */
  const INTERLEAVED: Payload :=
    Chunk(None,
          [Choice(Delta(None, None,
                        [ToolCallDelta(Some(0), "a", Some(FunctionDelta("f", ""))),
                         ToolCallDelta(Some(1), "b", Some(FunctionDelta("g", ""))),
                         ToolCallDelta(Some(0), "", Some(FunctionDelta("", "x")))]),
                  Some("tool_calls"))],
          None)

  const INTERLEAVED_FACTS: seq<Fact> :=
    [Begin, Name(Some(0), "a", "f"), Name(Some(1), "b", "g"), Arguments(Some(0), "x"), Finish("tool_use"),
     Finish("end_turn")]

  lemma InterleavedFacts()
    ensures FactsOfStream([INTERLEAVED]) == INTERLEAVED_FACTS
  {
    hide ToolsFacts, FactsOfStream;
    var choice := INTERLEAVED.choices[0];
    var a, b, c := choice.delta.toolCalls[0], choice.delta.toolCalls[1], choice.delta.toolCalls[2];
    ThreeToolFacts(a, b, c);
    assert ToolFacts(a) == [Name(Some(0), "a", "f")] && ToolFacts(b) == [Name(Some(1), "b", "g")];
    assert ToolFacts(c) == [Arguments(Some(0), "x")];
    OneChunk(choice);
  }

  lemma ThreeToolFacts(a: ToolCallDelta, b: ToolCallDelta, c: ToolCallDelta)
    ensures ToolsFacts([a, b, c]) == ToolFacts(a) + ToolFacts(b) + ToolFacts(c)
  {
    hide ToolFacts;
    var abc, ab := [a, b, c], [a, b];
    OneToolFacts(a);
    assert ab[..1] == [a] && abc[..2] == ab;
    assert ToolsFacts(ab) == ToolsFacts(ab[..1]) + ToolFacts(ab[1]);
    assert ToolsFacts(abc) == ToolsFacts(abc[..2]) + ToolFacts(abc[2]);
  }

  /** A stream of one chunk with only tool calls and a finish. */
  lemma OneChunk(c: Choice)
    requires c.delta.content.None? && c.delta.reasoning.None? && c.finishReason.Some?
    ensures FactsOfStream([Chunk(None, [c], None)]) ==
            [Begin] + ToolsFacts(c.delta.toolCalls) +
            [Finish(MapFinishReason(c.finishReason.value)), Finish("end_turn")]
  {
    hide ToolsFacts, MapFinishReason;
    var p := Chunk(None, [c], None);
    assert [p][1..] == [];
    assert FactsOfAll([p]) == FactsOf(p) + FactsOfAll([p][1..]);
  }

  /** The failing input: one well-formed message in which the argument of call 0 is in the block of call 1. */
  lemma InterleavedMisplaces(model: Bytes, messageId: Bytes)
    ensures Orderly(START, FactsOfStream([INTERLEAVED]))
    ensures IsMessage(Output(model, messageId, [INTERLEAVED]),
                      [Block(ToolHead("a", "f"), []), Block(ToolHead("b", "g"), ["x"])])
    ensures !ToItsBlock(Fresh(model, messageId), FactsOfStream([INTERLEAVED]))
  {
    hide Orderly, InTurn, ToItsBlock, EmitAll, FactsOfStream, BlocksEvents, Fresh;
    InterleavedFacts();
    FreshIsFresh(model, messageId);
    var s := Fresh(model, messageId);
    var events :=
      [MessageStart(messageId, model),
       BlockStart(0, ToolHead("a", "f")), BlockStop(0),
       BlockStart(1, ToolHead("b", "g")), BlockDeltaEvent(1, InputJsonDelta("x")), BlockStop(1),
       MessageDelta("tool_use", 0), MessageStop];
    InterleavedOutput(s);
    assert Output(model, messageId, [INTERLEAVED]) == events;
    var a, b := Block(ToolHead("a", "f"), []), Block(ToolHead("b", "g"), ["x"]);
    assert BlockEvents(a, 0) == [BlockStart(0, a.head), BlockStop(0)];
    assert BlockEvents(b, 1) == [BlockStart(1, b.head), BlockDeltaEvent(1, InputJsonDelta("x")), BlockStop(1)];
    TwoBlocksEvents(a, b);
    assert events ==
           [MessageStart(messageId, model)] + BlocksEvents([a, b]) + [MessageDelta("tool_use", 0), MessageStop];
    FragmentsReachIff(model, messageId, [INTERLEAVED]);
    OutOfTurn();
  }

  lemma FreshIsFresh(model: Bytes, messageId: Bytes)
    ensures var s := Fresh(model, messageId); s == Fresh(s.model, s.messageId)
    ensures Fresh(model, messageId).model == model && Fresh(model, messageId).messageId == messageId
  {
  }

  lemma TwoBlocksEvents(a: Block, b: Block)
    ensures BlocksEvents([a, b]) == BlockEvents(a, 0) + BlockEvents(b, 1)
  {
    hide BlockEvents;
    var one, two := [a], [a, b];
    assert two[..1] == one && one[..0] == [];
    assert BlocksEvents(one) == BlocksEvents(one[..0]) + BlockEvents(one[0], 0);
    assert BlocksEvents(two) == BlocksEvents(two[..1]) + BlockEvents(two[1], 1);
  }

  lemma OutOfTurn()
    ensures !InTurn(NotTool, {}, false, INTERLEAVED_FACTS) && Orderly(START, INTERLEAVED_FACTS)
  {
    var fs := INTERLEAVED_FACTS;
    var begun, inTool, over := Phase(true, false, false, false), Phase(true, true, true, false),
                               Phase(true, true, false, true);
    assert fs[1..][1..] == fs[2..] && fs[2..][1..] == fs[3..] && fs[3..][1..] == fs[4..];
    assert fs[4..][1..] == fs[5..] && fs[5..][1..] == [];
    assert !InTurn(Tool(Some(1)), {0, 1}, true, fs[3..]);
    assert !InTurn(Tool(Some(0)), {0}, true, fs[2..]);
    assert Orderly(over, fs[5..]);
    assert Orderly(inTool, fs[4..]);
    assert Orderly(inTool, fs[3..]);
    assert Orderly(inTool, fs[2..]);
    assert Orderly(begun, fs[1..]);
  }

  /** Naming a call, with nothing or another call open. */
  lemma NameStep(s: State, index: Option<int>, id: Bytes, name: Bytes)
    requires s.current.None? || s.current == Some(ToolUse)
    ensures IsStep(s, Name(index, id, name),
                   s.(current := Some(ToolUse), blockIdx := s.blockIdx + 1, lastTool := s.blockIdx,
                      toolMap := if index.Some? then s.toolMap[index.value := s.blockIdx] else s.toolMap),
                   (if s.current.None? then [] else [BlockStop(s.blockIdx - 1)]) +
                   [BlockStart(s.blockIdx, ToolHead(id, name))])
  {
  }

  /** Text, with nothing or a call open. */
  lemma TextStep(s: State, t: Bytes)
    requires s.current.None? || s.current == Some(ToolUse)
    ensures IsStep(s, Content(t), s.(current := Some(Text), blockIdx := s.blockIdx + 1),
                   (if s.current.None? then [] else [BlockStop(s.blockIdx - 1)]) +
                   [BlockStart(s.blockIdx, TextHead), BlockDeltaEvent(s.blockIdx, TextDelta(t))])
  {
  }

  lemma ArgumentStep(s: State, index: Option<int>, t: Bytes)
    requires ToolIndex(s, index) >= 0
    ensures IsStep(s, Arguments(index, t), s, [BlockDeltaEvent(s.blockIdx - 1, InputJsonDelta(t))])
  {
  }

  lemma FinishStep(s: State, reason: Bytes)
    ensures s.finished ==> IsStep(s, Finish(reason), s, [])
    ensures !s.finished && s.current.Some? && s.current != Some(Thinking) ==>
              IsStep(s, Finish(reason), s.(finished := true, current := None),
                     [BlockStop(s.blockIdx - 1), MessageDelta(reason, s.output), MessageStop])
  {
  }

  lemma BeginStep(s: State)
    ensures !s.started ==> IsStep(s, Begin, s.(started := true), [MessageStart(s.messageId, s.model)])
    ensures s.started ==> IsStep(s, Begin, s, [])
  {
  }

  lemma InterleavedOutput(s: State)
    requires s == Fresh(s.model, s.messageId)
    ensures EmitAll(s, INTERLEAVED_FACTS).1 ==
            [MessageStart(s.messageId, s.model),
             BlockStart(0, ToolHead("a", "f")), BlockStop(0),
             BlockStart(1, ToolHead("b", "g")), BlockDeltaEvent(1, InputJsonDelta("x")), BlockStop(1),
             MessageDelta("tool_use", 0), MessageStop]
  {
    hide Emit, EmitAll, IsStep;
    var s1 := s.(started := true);
    var s2 := s1.(current := Some(ToolUse), blockIdx := 1, lastTool := 0, toolMap := s.toolMap[0 := 0]);
    var s3 := s2.(blockIdx := 2, lastTool := 1, toolMap := s2.toolMap[1 := 1]);
    var s5 := s3.(finished := true, current := None);
    var events :=
      [[MessageStart(s.messageId, s.model)], [] + [BlockStart(0, ToolHead("a", "f"))],
       [BlockStop(0)] + [BlockStart(1, ToolHead("b", "g"))], [BlockDeltaEvent(1, InputJsonDelta("x"))],
       [BlockStop(1), MessageDelta("tool_use", 0), MessageStop], []];
    BeginStep(s);
    NameStep(s1, Some(0), "a", "f");
    NameStep(s2, Some(1), "b", "g");
    ArgumentStep(s3, Some(0), "x");
    FinishStep(s3, "tool_use");
    FinishStep(s5, "end_turn");
    SixSteps(s, INTERLEAVED_FACTS, [s, s1, s2, s3, s3, s5, s5], events);
  }

  /** A call without an index is named, and its argument comes behind text. */
  const UNINDEXED: seq<Payload> :=
    [Chunk(None, [Choice(Delta(None, None, [ToolCallDelta(None, "a", Some(FunctionDelta("f", "")))]), None)], None),
     Chunk(None, [Choice(Delta(Some("t"), None, [ToolCallDelta(None, "", Some(FunctionDelta("", "x")))]), None)],
           None)]

  const UNINDEXED_FACTS: seq<Fact> :=
    [Begin, Name(None, "a", "f"), Begin, Content("t"), Arguments(None, "x"), Finish("end_turn")]

  lemma UnindexedFacts()
    ensures FactsOfStream(UNINDEXED) == UNINDEXED_FACTS
  {
    var c1, c2 := UNINDEXED[0].choices[0], UNINDEXED[1].choices[0];
    OneToolFacts(c1.delta.toolCalls[0]);
    OneToolFacts(c2.delta.toolCalls[0]);
    assert FactsOf(UNINDEXED[0]) == [Begin, Name(None, "a", "f")];
    assert FactsOf(UNINDEXED[1]) == [Begin, Content("t"), Arguments(None, "x")];
    assert UNINDEXED[1..] == [UNINDEXED[1]] && UNINDEXED[1..][1..] == [];
    assert FactsOfAll(UNINDEXED) == FactsOf(UNINDEXED[0]) + (FactsOf(UNINDEXED[1]) + FactsOfAll([]));
  }

  lemma UnindexedOutput(s: State)
    requires s == Fresh(s.model, s.messageId)
    ensures EmitAll(s, UNINDEXED_FACTS).1 ==
            [MessageStart(s.messageId, s.model),
             BlockStart(0, ToolHead("a", "f")), BlockStop(0),
             BlockStart(1, TextHead), BlockDeltaEvent(1, TextDelta("t")), BlockDeltaEvent(1, InputJsonDelta("x")),
             BlockStop(1), MessageDelta("end_turn", 0), MessageStop]
  {
    hide Emit, EmitAll, IsStep;
    var s1 := s.(started := true);
    var s2 := s1.(current := Some(ToolUse), blockIdx := 1, lastTool := 0);
    var s4 := s2.(current := Some(Text), blockIdx := 2);
    var s6 := s4.(finished := true, current := None);
    var events :=
      [[MessageStart(s.messageId, s.model)], [] + [BlockStart(0, ToolHead("a", "f"))], [],
       [BlockStop(0)] + [BlockStart(1, TextHead), BlockDeltaEvent(1, TextDelta("t"))],
       [BlockDeltaEvent(1, InputJsonDelta("x"))],
       [BlockStop(1), MessageDelta("end_turn", 0), MessageStop]];
    BeginStep(s);
    NameStep(s1, None, "a", "f");
    BeginStep(s2);
    TextStep(s2, "t");
    ArgumentStep(s4, None, "x");
    FinishStep(s4, "end_turn");
    SixSteps(s, UNINDEXED_FACTS, [s, s1, s2, s2, s4, s4, s6], events);
  }

  lemma UnindexedOutOfTurn()
    ensures !InTurn(NotTool, {}, false, UNINDEXED_FACTS) && !WhileOpen(false, false, false, UNINDEXED_FACTS)
  {
    var fs := UNINDEXED_FACTS;
    assert fs[1..][1..] == fs[2..] && fs[2..][1..] == fs[3..] && fs[3..][1..] == fs[4..];
    assert !InTurn(NotTool, {}, true, fs[4..]);
    assert !InTurn(Tool(None), {}, true, fs[3..]);
    assert !InTurn(Tool(None), {}, true, fs[2..]);
    assert !WhileOpen(true, false, false, fs[4..]);
    assert !WhileOpen(true, true, false, fs[3..]);
    assert !WhileOpen(true, true, false, fs[2..]);
  }

  /** The argument of the only call is written into a text block. */
  lemma UnindexedMisplaces(model: Bytes, messageId: Bytes)
    ensures Output(model, messageId, UNINDEXED) ==
            [MessageStart(messageId, model),
             BlockStart(0, ToolHead("a", "f")), BlockStop(0),
             BlockStart(1, TextHead), BlockDeltaEvent(1, TextDelta("t")), BlockDeltaEvent(1, InputJsonDelta("x")),
             BlockStop(1), MessageDelta("end_turn", 0), MessageStop]
    ensures !ToItsBlock(Fresh(model, messageId), FactsOfStream(UNINDEXED))
    ensures !LandsOpen(NEW_OBSERVER, Output(model, messageId, UNINDEXED))
  {
    hide InTurn, WhileOpen, ToItsBlock, LandsOpen, EmitAll, FactsOfStream;
    UnindexedFacts();
    UnindexedOutput(Fresh(model, messageId));
    UnindexedOutOfTurn();
    FragmentsReachIff(model, messageId, UNINDEXED);
    FragmentsLandOpenIff(model, messageId, UNINDEXED);
  }

  // ---- content behind the finish ----

  predicate MakesBlock(f: Fact) {
    f.Reason? || f.Content? || f.Name?
  }

  /** Something that makes or continues a block comes behind the first finish. */
  predicate LateBlock(facts: seq<Fact>, over: bool)
    decreases |facts|
  {
    facts != [] && ((over && MakesBlock(facts[0])) || LateBlock(facts[1..], over || facts[0].Finish?))
  }

  /** Behind a finish nothing closes the last block, so one is open at the end exactly if one came late. */
  lemma {:induction false} OpenAtEndIff(s: State, facts: seq<Fact>)
    requires EmitAll(s, facts).0.finished
    ensures EmitAll(s, facts).0.current.Some? <==>
            (s.finished && s.current.Some?) || LateBlock(facts, s.finished)
    decreases |facts|
  {
    if facts != [] {
      hide CloseEvents, AddUsage;
      OpenAtEndIff(Emit(s, facts[0]).0, facts[1..]);
    }
  }

  /** Every started block is stopped exactly when nothing makes a block behind the first finish. If something
      does, the last block stays open; blocks before it are closed by their successors. */
  lemma BlocksClosedIff(model: Bytes, messageId: Bytes, ps: seq<Payload>)
    ensures var output := Output(model, messageId, ps);
            Count(output, BlockStops) == Count(output, BlockStarts) <==> !LateBlock(FactsOfStream(ps), false)
  {
    hide LateBlock;
    var s, facts, last := Fresh(model, messageId), FactsOfStream(ps), [Finish("end_turn")];
    StreamLed(ps, last);
    EmitAllTracks(NEW_OBSERVER, s, facts);
    EmitAllConcat(s, FactsOfAll(ps), last);
    assert EmitAll(s, facts).0.finished;
    OpenAtEndIff(s, facts);
    BlockDiscipline(model, messageId, ps);
  }

  function TextChunk(t: Bytes, finish: Option<Bytes>): Payload {
    Chunk(None, [Choice(Delta(Some(t), None, []), finish)], None)
  }

  lemma TextChunkFacts(t: Bytes, finish: Option<Bytes>)
    requires t != ""
    ensures FactsOf(TextChunk(t, finish)) == [Begin, Content(t)] + FinishFacts(finish)
  {
  }

  const LATE: seq<Payload> := [TextChunk("a", Some("stop")), TextChunk("b", None)]

  /** The failing input: a text chunk behind a finish leaves two blocks started and one stopped. */
  lemma LateTextStaysOpen(model: Bytes, messageId: Bytes)
    ensures var output := Output(model, messageId, LATE);
            Count(output, BlockStarts) == 2 && Count(output, BlockStops) == 1
  {
    TextChunkFacts("a", Some("stop"));
    TextChunkFacts("b", None);
    var facts := [Begin, Content("a"), Finish("end_turn"), Begin, Content("b"), Finish("end_turn")];
    assert LATE[1..] == [LATE[1]] && LATE[1..][1..] == [];
    assert FactsOfAll(LATE) == FactsOf(LATE[0]) + (FactsOf(LATE[1]) + FactsOfAll([]));
    assert FactsOfStream(LATE) == facts;
    var s := Fresh(model, messageId);
    BlockDiscipline(model, messageId, LATE);
    BlocksClosedIff(model, messageId, LATE);
    assert LateBlock(facts, false) by {
      assert facts[1..][1..][1..] == [Begin, Content("b"), Finish("end_turn")];
      assert facts[1..][1..][1..][1..][0] == Content("b");
    }
    TwoBlocks(s, facts);
  }

  /** The translator's block index counts the started blocks. */
  lemma TwoBlocks(s: State, facts: seq<Fact>)
    requires s == Fresh(s.model, s.messageId)
    requires facts == [Begin, Content("a"), Finish("end_turn"), Begin, Content("b"), Finish("end_turn")]
    ensures EmitAll(s, facts).0.blockIdx == 2
    ensures |ObserveAll(NEW_OBSERVER, EmitAll(s, facts).1).blocks| == 2
  {
    hide Emit, EmitAll, IsStep, Tracks, ObserveAll;
    var s1 := s.(started := true);
    var s2 := s1.(current := Some(Text), blockIdx := 1);
    var s3 := s2.(finished := true, current := None);
    var s5 := s3.(current := Some(Text), blockIdx := 2);
    var events :=
      [[MessageStart(s.messageId, s.model)], [] + [BlockStart(0, TextHead), BlockDeltaEvent(0, TextDelta("a"))],
       [BlockStop(0), MessageDelta("end_turn", 0), MessageStop], [],
       [] + [BlockStart(1, TextHead), BlockDeltaEvent(1, TextDelta("b"))], []];
    BeginStep(s);
    TextStep(s1, "a");
    FinishStep(s2, "end_turn");
    BeginStep(s3);
    TextStep(s3, "b");
    FinishStep(s5, "end_turn");
    SixSteps(s, facts, [s, s1, s2, s3, s3, s5, s5], events);
    assert Led(facts, false) by {
      AllLed(facts[1..]);
    }
    EmitAllTracks(NEW_OBSERVER, s, facts);
  }

  // ---- usage ----

  /** The usage reports that the translator takes in: those of chunks with a choice and no error. */
  function Counted(p: Payload): seq<ChunkUsage> {
    if p.Chunk? && p.error.None? && p.choices != [] && p.usage.Some? then [p.usage.value] else []
  }

  /** The usage reports that the upstream sends. */
  function Reported(p: Payload): seq<ChunkUsage> {
    if p.Chunk? && p.usage.Some? then [p.usage.value] else []
  }

  function AllCounted(ps: seq<Payload>): seq<ChunkUsage> {
    if ps == [] then [] else Counted(ps[0]) + AllCounted(ps[1..])
  }

  function AllReported(ps: seq<Payload>): seq<ChunkUsage> {
    if ps == [] then [] else Reported(ps[0]) + AllReported(ps[1..])
  }

  function UsageAfter(u: Usage, reports: seq<ChunkUsage>): Usage
    decreases |reports|
  {
    if reports == [] then u else UsageAfter(AddUsage(u, reports[0]), reports[1..])
  }

  function ReportIn(f: Fact): seq<ChunkUsage> {
    if f.Report? then [f.usage] else []
  }

  function Reports(facts: seq<Fact>): seq<ChunkUsage> {
    if facts == [] then [] else ReportIn(facts[0]) + Reports(facts[1..])
  }

  lemma {:induction false} ReportsConcat(a: seq<Fact>, b: seq<Fact>)
    ensures Reports(a + b) == Reports(a) + Reports(b)
    decreases |a|
  {
    hide ReportIn;
    if a == [] {
      assert a + b == b;
    } else {
      assert (a + b)[1..] == a[1..] + b;
      ReportsConcat(a[1..], b);
      assert ReportIn(a[0]) + (Reports(a[1..]) + Reports(b)) == ReportIn(a[0]) + Reports(a[1..]) + Reports(b);
    }
  }

  lemma {:induction false} NoReports(facts: seq<Fact>)
    requires forall f :: f in facts ==> !f.Report?
    ensures Reports(facts) == []
    decreases |facts|
  {
    if facts != [] {
      assert facts[0] in facts;
      NoReports(facts[1..]);
    }
  }

  lemma {:induction false} ToolsReportNothing(tcs: seq<ToolCallDelta>)
    ensures forall f :: f in ToolsFacts(tcs) ==> !f.Report?
  {
    if tcs != [] {
      ToolsReportNothing(tcs[..|tcs| - 1]);
    }
  }

  lemma PayloadReports(p: Payload)
    ensures Reports(FactsOf(p)) == Counted(p)
  {
    if p.Chunk? && p.error.None? && p.choices != [] {
      hide TextFacts, ToolsFacts, FinishFacts, Reports, FactsOf;
      var d := p.choices[0].delta;
      var report := if p.usage.Some? then [Report(p.usage.value)] else [];
      var text := TextFacts(d.reasoning, true) + TextFacts(d.content, false);
      var rest := text + ToolsFacts(d.toolCalls) + FinishFacts(p.choices[0].finishReason);
      ToolsReportNothing(d.toolCalls);
      PlainFacts(d, p.choices[0].finishReason);
      NoReports(rest);
      ChoiceParts(p);
      ReportsConcat([Begin] + report, rest);
      BeginReports(p.usage);
    } else {
      NoReports(FactsOf(p));
    }
  }

  lemma BeginReports(usage: Option<ChunkUsage>)
    ensures Reports([Begin] + (if usage.Some? then [Report(usage.value)] else [])) ==
            if usage.Some? then [usage.value] else []
  {
    if usage.Some? {
      var two := [Begin, Report(usage.value)];
      assert [Begin] + [Report(usage.value)] == two;
      assert two[1..] == [Report(usage.value)] && two[1..][1..] == [];
      assert Reports(two[1..]) == [usage.value];
    }
  }

  lemma PlainFacts(d: Delta, finish: Option<Bytes>)
    ensures forall f :: f in TextFacts(d.reasoning, true) + TextFacts(d.content, false) + FinishFacts(finish) ==>
                        !f.Report?
  {
  }

  lemma ChoiceParts(p: Payload)
    requires p.Chunk? && p.error.None? && p.choices != []
    ensures var d := p.choices[0].delta;
            FactsOf(p) == [Begin] + (if p.usage.Some? then [Report(p.usage.value)] else []) +
                          (TextFacts(d.reasoning, true) + TextFacts(d.content, false) + ToolsFacts(d.toolCalls) +
                           FinishFacts(p.choices[0].finishReason))
  {
    hide TextFacts, ToolsFacts, FinishFacts;
  }

  lemma {:induction false} StreamReports(ps: seq<Payload>)
    ensures Reports(FactsOfAll(ps)) == AllCounted(ps)
  {
    hide FactsOf, Counted;
    if ps != [] {
      PayloadReports(ps[0]);
      ReportsConcat(FactsOf(ps[0]), FactsOfAll(ps[1..]));
      StreamReports(ps[1..]);
    }
  }

  lemma {:induction false} FactsUsage(s: State, facts: seq<Fact>)
    ensures EmitAll(s, facts).0.usage == UsageAfter(s.usage, Reports(facts))
    decreases |facts|
  {
    hide Emit, ReportIn;
    if facts != [] {
      var s1, rest := Emit(s, facts[0]).0, Reports(facts[1..]);
      StepUsage(s, facts[0]);
      FactsUsage(s1, facts[1..]);
      var report := ReportIn(facts[0]);
      assert report == [] ==> report + rest == rest;
      assert report != [] ==> (report + rest)[0] == report[0] && (report + rest)[1..] == rest;
    }
  }

  lemma StepUsage(s: State, f: Fact)
    ensures |ReportIn(f)| <= 1
    ensures Emit(s, f).0.usage == if ReportIn(f) == [] then s.usage else AddUsage(s.usage, ReportIn(f)[0])
  {
    hide CloseEvents, AddUsage;
  }

  /** The cache count reported last, in the reports that have one. */
  function LastHit(reports: seq<ChunkUsage>, none: int): int {
    if reports == [] then none
    else if reports[|reports| - 1].cacheHit.Some? then reports[|reports| - 1].cacheHit.value
    else LastHit(reports[..|reports| - 1], none)
  }

  function LastMiss(reports: seq<ChunkUsage>, none: int): int {
    if reports == [] then none
    else if reports[|reports| - 1].cacheMiss.Some? then reports[|reports| - 1].cacheMiss.value
    else LastMiss(reports[..|reports| - 1], none)
  }

  lemma {:induction false} UsageAfterSnoc(u: Usage, reports: seq<ChunkUsage>, r: ChunkUsage)
    ensures UsageAfter(u, reports + [r]) == AddUsage(UsageAfter(u, reports), r)
    decreases |reports|
  {
    hide AddUsage;
    if reports == [] {
      assert [] + [r] == [r] && [r][1..] == [];
      assert UsageAfter(AddUsage(u, r), []) == AddUsage(u, r);
    } else {
      assert (reports + [r])[1..] == reports[1..] + [r];
      UsageAfterSnoc(AddUsage(u, reports[0]), reports[1..], r);
    }
  }

  lemma {:induction false} UsageAfterIs(u: Usage, reports: seq<ChunkUsage>)
    ensures var v := UsageAfter(u, reports);
            && v.input == (if reports == [] then u.input else reports[|reports| - 1].prompt)
            && v.output == (if reports == [] then u.output else reports[|reports| - 1].completion)
            && v.cacheRead == LastHit(reports, u.cacheRead)
            && v.cacheWrite == LastMiss(reports, u.cacheWrite)
    decreases |reports|
  {
    if reports != [] {
      var init, r := reports[..|reports| - 1], reports[|reports| - 1];
      assert reports == init + [r];
      UsageAfterIs(u, init);
      UsageAfterSnoc(u, init, r);
    }
  }

  /** In terms of the reports that count: prompt and completion tokens are those of the last report, the cache
      numbers those of the last report that has them, 0 before any. */
  lemma UsageReported(model: Bytes, messageId: Bytes, ps: seq<Payload>)
    ensures var u, reports := EmitAll(Fresh(model, messageId), FactsOfAll(ps)).0.usage, AllCounted(ps);
            && u.input == (if reports == [] then 0 else reports[|reports| - 1].prompt)
            && u.output == (if reports == [] then 0 else reports[|reports| - 1].completion)
            && u.cacheRead == LastHit(reports, 0) && u.cacheWrite == LastMiss(reports, 0)
  {
    hide UsageAfter, LastHit, LastMiss, FactsOfAll, EmitAll, AllCounted;
    UsageOfRun(model, messageId, ps);
    UsageAfterIs(Usage(0, 0, 0, 0), AllCounted(ps));
  }

  /** The usage of a run is the fold of the reports that count. */
  lemma UsageOfRun(model: Bytes, messageId: Bytes, ps: seq<Payload>)
    ensures EmitAll(Fresh(model, messageId), FactsOfAll(ps)).0.usage ==
            UsageAfter(Usage(0, 0, 0, 0), AllCounted(ps))
  {
    FactsUsage(Fresh(model, messageId), FactsOfAll(ps));
    StreamReports(ps);
  }

  lemma {:induction false} FewerCounted(ps: seq<Payload>)
    ensures |AllCounted(ps)| <= |AllReported(ps)|
    ensures AllCounted(ps) == AllReported(ps) <==> forall p :: p in ps ==> Counted(p) == Reported(p)
  {
    if ps != [] {
      var p, rest := ps[0], ps[1..];
      FewerCounted(rest);
      assert p in ps && forall q :: q in rest ==> q in ps;
      assert forall q :: q in ps ==> q == p || q in rest;
      if Counted(p) == Reported(p) {
        assert (Counted(p) + AllCounted(rest))[|Counted(p)|..] == AllCounted(rest);
        assert (Reported(p) + AllReported(rest))[|Counted(p)|..] == AllReported(rest);
      } else {
        assert |AllCounted(ps)| < |AllReported(ps)|;
      }
    }
  }

  /** Every report the upstream sends becomes a usage fact of the run exactly when each comes in a chunk with a
      choice and without an error; a chunk that has only usage does not count. */
  lemma EveryReportCountsIff(ps: seq<Payload>)
    ensures Reports(FactsOfAll(ps)) == AllReported(ps) <==>
            forall p :: p in ps && p.Chunk? && p.usage.Some? ==> p.error.None? && p.choices != []
  {
    hide Reports, FactsOfAll, AllCounted, AllReported;
    StreamReports(ps);
    FewerCounted(ps);
    forall p | p in ps
      ensures Counted(p) == Reported(p) <==> (p.Chunk? && p.usage.Some? ==> p.error.None? && p.choices != [])
    {
    }
  }

  const USAGE_LAST: seq<Payload> :=
    [TextChunk("a", Some("stop")), Chunk(None, [], Some(ChunkUsage(7, 5, None, None))), Done]

  /** The failing input: the request asks for usage in a last chunk without choices, and that is ignored. */
  lemma LastUsageIgnored(model: Bytes, messageId: Bytes)
    ensures AllReported(USAGE_LAST) == [ChunkUsage(7, 5, None, None)]
    ensures EmitAll(Fresh(model, messageId), FactsOfAll(USAGE_LAST)).0.usage == Usage(0, 0, 0, 0)
  {
    UsageOfRun(model, messageId, USAGE_LAST);
    var ps := USAGE_LAST;
    assert ps[1..][1..] == [Done] && [Done][1..] == [];
    assert AllCounted([Done]) == [] && AllReported([Done]) == [];
    assert AllCounted(ps[1..]) == [] && AllReported(ps[1..]) == [ChunkUsage(7, 5, None, None)];
  }

  // ---- the token count that the client is told ----

  /** The completion count reported last before the first finish. */
  function TokensAtFinish(facts: seq<Fact>, n: int): int
    decreases |facts|
  {
    if facts == [] || facts[0].Finish? then n
    else TokensAtFinish(facts[1..], if facts[0].Report? then facts[0].usage.completion else n)
  }

  ghost predicate Tells(events: seq<Event>, n: int) {
    forall e :: e in events && e.MessageDelta? ==> e.outputTokens == n
  }

  lemma TellsConcat(a: seq<Event>, b: seq<Event>, n: int)
    requires Tells(a, n) && Tells(b, n)
    ensures Tells(a + b, n)
  {
  }

  lemma StepTells(s: State, f: Fact, n: int)
    requires f.Finish? && !s.finished ==> s.output == n
    ensures Tells(Emit(s, f).1, n)
  {
    var closing := CloseEvents(s);
    assert forall e :: e in closing ==> !e.MessageDelta?;
  }

  lemma {:induction false} FinishedTellsNothing(s: State, facts: seq<Fact>, n: int)
    requires s.finished
    ensures Tells(EmitAll(s, facts).1, n)
    decreases |facts|
  {
    hide CloseEvents, Tells;
    if facts == [] {
      NothingTold(n);
    } else {
      StepTells(s, facts[0], n);
      FinishedTellsNothing(Emit(s, facts[0]).0, facts[1..], n);
      TellsConcat(Emit(s, facts[0]).1, EmitAll(Emit(s, facts[0]).0, facts[1..]).1, n);
    }
  }

  lemma NothingTold(n: int)
    ensures Tells([], n)
  {
  }

  lemma {:induction false} RunTells(s: State, facts: seq<Fact>)
    requires !s.finished
    ensures Tells(EmitAll(s, facts).1, TokensAtFinish(facts, s.output))
    decreases |facts|
  {
    hide CloseEvents, Tells;
    if facts == [] {
      NothingTold(s.output);
    } else {
      var s1, n := Emit(s, facts[0]).0, TokensAtFinish(facts, s.output);
      StepTells(s, facts[0], n);
      if facts[0].Finish? {
        FinishedTellsNothing(s1, facts[1..], n);
      } else {
        RunTells(s1, facts[1..]);
      }
      TellsConcat(Emit(s, facts[0]).1, EmitAll(s1, facts[1..]).1, n);
    }
  }

  /** The token count in message_delta is the completion count reported last before the first finish. */
  lemma TokensTold(model: Bytes, messageId: Bytes, ps: seq<Payload>)
    ensures forall e :: e in Output(model, messageId, ps) && e.MessageDelta? ==>
                        e.outputTokens == TokensAtFinish(FactsOfStream(ps), 0)
  {
    RunTells(Fresh(model, messageId), FactsOfStream(ps));
  }

  // ---- a source that breaks off ----

  /** Without the finish at a clean end the events are still disciplined, with at most one message_stop. */
  lemma BrokenOffDiscipline(model: Bytes, messageId: Bytes, ps: seq<Payload>)
    ensures var events := EmitAll(Fresh(model, messageId), FactsOfAll(ps)).1;
            ObserveAll(NEW_OBSERVER, events).disciplined && Count(events, MessageStops) <= 1
  {
    var s, facts := Fresh(model, messageId), FactsOfAll(ps);
    StreamLed(ps, []);
    assert facts + [] == facts;
    EmitAllTracks(NEW_OBSERVER, s, facts);
    DisciplineCounts(NEW_OBSERVER, EmitAll(s, facts).1, MessageStops);
  }
}
