/** The streaming translator and the non-streaming one agree on every message, however it is cut. */
module Agreement {
  import opened Text
  import opened Events
  import opened Stream
  import opened Response

  // ---- cutting a message into upstream facts ----

  function TextOf(f: Fact): Bytes {
    match f
    case Reason(t) => t
    case Content(t) => t
    case Arguments(_, t) => t
    case _ => ""
  }

  function TextsOf(facts: seq<Fact>): seq<Bytes> {
    seq(|facts|, i requires 0 <= i < |facts| => TextOf(facts[i]))
  }

  function Flatten(parts: seq<seq<Fact>>): seq<Fact> {
    if parts == [] then [] else parts[0] + Flatten(parts[1..])
  }

  /** A message cut into pieces, in the order the upstream sends them. */
  datatype Cut = Cut(reasoning: seq<Fact>, content: seq<Fact>, calls: seq<seq<Fact>>, finish: seq<Fact>)
  {
    function Facts(): seq<Fact> {
      reasoning + content + Flatten(calls) + finish
    }
  }

  /** A call: its name once, then its arguments in any pieces, under any chunk indices. */
  ghost predicate CutsCall(facts: seq<Fact>, tc: ToolCall) {
    && facts != []
    && facts[0].Name? && facts[0].id == tc.id && facts[0].name == tc.name
    && (forall i :: 1 <= i < |facts| ==> facts[i].Arguments?)
    && Concat(TextsOf(facts[1..])) == tc.arguments
  }

  ghost predicate CutsMessage(cut: Cut, m: FullChoice) {
    && (forall f :: f in cut.reasoning ==> f.Reason? && f.text != "")
    && Concat(TextsOf(cut.reasoning)) == m.reasoning
    && (forall f :: f in cut.content ==> f.Content? && f.text != "")
    && Concat(TextsOf(cut.content)) == ContentText(m.content)
    && |cut.calls| == |m.toolCalls|
    && (forall i :: 0 <= i < |cut.calls| ==> CutsCall(cut.calls[i], m.toolCalls[i]))
    && (forall f :: f in cut.finish ==> f.Finish?)
    && (if cut.finish == [] then StopReason(m) == "end_turn" else cut.finish[0].stopReason == StopReason(m))
  }

  /** The facts that carry a message: all but the start marks and the usage reports. */
  function Substance(facts: seq<Fact>): seq<Fact>
    decreases |facts|
  {
    if facts == [] then []
    else (if facts[0].Begin? || facts[0].Report? then [] else [facts[0]]) + Substance(facts[1..])
  }

  ghost predicate IsCutOf(ps: seq<Payload>, m: FullChoice) {
    exists cut: Cut :: Substance(FactsOfAll(ps)) == cut.Facts() && CutsMessage(cut, m)
  }

  // ---- what the client assembles, as a fold over facts ----

  datatype Assembly = Assembly(blocks: seq<Block>, kind: Option<BlockKind>, stop: Option<Bytes>)

  const NOTHING := Assembly([], None, None)

  function Append(blocks: seq<Block>, t: Bytes): seq<Block>
    requires blocks != []
  {
    var last := |blocks| - 1;
    blocks[last := blocks[last].(fragments := blocks[last].fragments + [t])]
  }

  function GrowText(a: Assembly, head: BlockHead, t: Bytes): Assembly {
    if a.kind == Some(head.Kind()) && a.blocks != [] then a.(blocks := Append(a.blocks, t))
    else a.(blocks := a.blocks + [Block(head, [t])], kind := Some(head.Kind()))
  }

  function Grow(a: Assembly, f: Fact): Assembly {
    match f
    case Reason(t) => GrowText(a, ThinkingHead, t)
    case Content(t) => GrowText(a, TextHead, t)
    case Name(_, id, name) => a.(blocks := a.blocks + [Block(ToolHead(id, name), [])], kind := Some(ToolUse))
    case Arguments(_, t) => if a.blocks == [] then a else a.(blocks := Append(a.blocks, t))
    case Finish(r) => if a.stop.Some? then a else a.(kind := None, stop := Some(r))
    case _ => a
  }

  function GrowAll(a: Assembly, facts: seq<Fact>): Assembly
    decreases |facts|
  {
    if facts == [] then a else GrowAll(Grow(a, facts[0]), facts[1..])
  }

  /** Arguments come only while a tool's block is open. */
  predicate InTools(a: Assembly, facts: seq<Fact>)
    decreases |facts|
  {
    facts == [] ||
    ((facts[0].Arguments? ==> a.kind == Some(ToolUse)) && InTools(Grow(a, facts[0]), facts[1..]))
  }

  ghost predicate Shows(o: Observer, s: State, a: Assembly) {
    && Tracks(o, s)
    && o.blocks == a.blocks
    && s.current == a.kind
    && s.finished == a.stop.Some?
    && (a.stop.Some? ==> o.closing.Some? && o.closing.value.MessageDelta? && o.closing.value.stopReason == a.stop.value)
  }

  lemma FragmentShows(o: Observer, s: State, a: Assembly, head: BlockHead, d: BlockDelta)
    requires Shows(o, s, a) && s.started && FragmentKind(d) == Some(head.Kind()) && !head.ToolHead?
    ensures Shows(ObserveAll(o, AddFragment(s, head, d).1), AddFragment(s, head, d).0, GrowText(a, head, d.text))
  {
    hide ToolMapSound, CloseEvents;
    FragmentTracks(o, s, head, d);
    if s.current == Some(head.Kind()) {
      assert Observe(o, BlockDeltaEvent(s.blockIdx - 1, d)).blocks == Append(a.blocks, d.text);
    }
    if s.current != Some(head.Kind()) {
      CloseObserved(o, s);
      var rest := [BlockStart(s.blockIdx, head), BlockDeltaEvent(s.blockIdx, d)];
      ObserveAllConcat(o, CloseEvents(s), rest);
      Two(ObserveAll(o, CloseEvents(s)), rest);
      assert [] + [d.text] == [d.text];
      assert (o.blocks + [Block(head, [])])[|o.blocks| := Block(head, [d.text])] == o.blocks + [Block(head, [d.text])];
    }
  }

  lemma FinishShows(o: Observer, s: State, a: Assembly, r: Bytes)
    requires Shows(o, s, a)
    ensures Shows(ObserveAll(o, Emit(s, Finish(r)).1), Emit(s, Finish(r)).0, Grow(a, Finish(r)))
  {
    hide CloseEvents, ToolMapSound;
    FinishTracks(o, s, Finish(r));
    if !s.finished {
      CloseObserved(o, s);
      var rest := [MessageDelta(r, s.output), MessageStop];
      ObserveAllConcat(o, CloseEvents(s), rest);
      Two(ObserveAll(o, CloseEvents(s)), rest);
    }
  }

  lemma EmitShows(o: Observer, s: State, a: Assembly, f: Fact)
    requires Shows(o, s, a)
    requires f.Reason? || f.Content? || f.Name? ==> s.started
    requires !s.started ==> s.blockIdx == 0
    requires f.Arguments? ==> a.kind == Some(ToolUse)
    ensures Shows(ObserveAll(o, Emit(s, f).1), Emit(s, f).0, Grow(a, f))
    ensures !Emit(s, f).0.started ==> Emit(s, f).0.blockIdx == 0
  {
    hide ToolMapSound, ToolIndex, CloseEvents;
    EmitTracks(o, s, f);
    match f
    case Reason(t) => FragmentShows(o, s, a, ThinkingHead, ThinkingDelta(t));
    case Content(t) => FragmentShows(o, s, a, TextHead, TextDelta(t));
    case Name(_, id, name) =>
      CloseObserved(o, s);
      ObserveAllConcat(o, CloseEvents(s), [BlockStart(s.blockIdx, ToolHead(id, name))]);
    case Finish(r) => FinishShows(o, s, a, r);
    case Begin =>
    case Report(_) =>
    case Arguments(index, _) => ToolIndexSign(s, index);
    case Fail(_) =>
  }

  lemma {:induction false} EmitAllShows(o: Observer, s: State, a: Assembly, facts: seq<Fact>)
    requires Shows(o, s, a) && Led(facts, s.started) && InTools(a, facts)
    requires !s.started ==> s.blockIdx == 0
    ensures Shows(ObserveAll(o, EmitAll(s, facts).1), EmitAll(s, facts).0, GrowAll(a, facts))
    decreases |facts|
  {
    if facts != [] {
      var (s1, events) := Emit(s, facts[0]);
      EmitShows(o, s, a, facts[0]);
      ObserveAllConcat(o, events, EmitAll(s1, facts[1..]).1);
      EmitAllShows(ObserveAll(o, events), s1, Grow(a, facts[0]), facts[1..]);
    }
  }

  // ---- the assembly of a cut message ----

  lemma {:induction false} GrowAllConcat(a: Assembly, x: seq<Fact>, y: seq<Fact>)
    ensures GrowAll(a, x + y) == GrowAll(GrowAll(a, x), y)
    ensures InTools(a, x + y) <==> InTools(a, x) && InTools(GrowAll(a, x), y)
    decreases |x|
  {
    if x == [] {
      assert x + y == y;
    } else {
      assert (x + y)[1..] == x[1..] + y;
      GrowAllConcat(Grow(a, x[0]), x[1..], y);
    }
  }

  lemma {:induction false} GrowSubstance(a: Assembly, facts: seq<Fact>)
    ensures GrowAll(a, facts) == GrowAll(a, Substance(facts))
    ensures InTools(a, facts) <==> InTools(a, Substance(facts))
    decreases |facts|
  {
    if facts != [] {
      GrowSubstance(Grow(a, facts[0]), facts[1..]);
      if facts[0].Begin? || facts[0].Report? {
        assert Substance(facts) == Substance(facts[1..]);
      } else {
        assert Substance(facts)[1..] == Substance(facts[1..]);
      }
    }
  }

  /** Facts that all continue the open block add their texts to it. */
  lemma {:induction false} GrowRun(a: Assembly, facts: seq<Fact>)
    requires a.kind.Some? && a.blocks != []
    requires forall f :: f in facts ==>
               (f.Reason? && a.kind == Some(Thinking)) || (f.Content? && a.kind == Some(Text)) ||
               (f.Arguments? && a.kind == Some(ToolUse))
    ensures InTools(a, facts)
    ensures var last := |a.blocks| - 1;
            var b := a.blocks[last];
            GrowAll(a, facts) == a.(blocks := a.blocks[last := b.(fragments := b.fragments + TextsOf(facts))])
    decreases |facts|
  {
    var last := |a.blocks| - 1;
    var b := a.blocks[last];
    if facts == [] {
      assert b.fragments + TextsOf(facts) == b.fragments;
    } else {
      assert facts[0] in facts;
      GrowRun(Grow(a, facts[0]), facts[1..]);
      assert b.fragments + TextsOf(facts) == (b.fragments + [TextOf(facts[0])]) + TextsOf(facts[1..]);
    }
  }

  /** A run of reasoning or content facts makes one block, or none when it is empty. */
  lemma GrowPart(a: Assembly, facts: seq<Fact>, head: BlockHead)
    requires !head.ToolHead? && a.kind != Some(head.Kind())
    requires forall f :: f in facts ==> if head.ThinkingHead? then f.Reason? else f.Content?
    ensures InTools(a, facts)
    ensures GrowAll(a, facts) ==
            if facts == [] then a
            else a.(blocks := a.blocks + [Block(head, TextsOf(facts))], kind := Some(head.Kind()))
  {
    if facts != [] {
      var f := facts[0];
      assert f in facts;
      var a1 := Grow(a, f);
      GrowRun(a1, facts[1..]);
      assert [TextOf(f)] + TextsOf(facts[1..]) == TextsOf(facts);
      assert (a.blocks + [Block(head, [TextOf(f)])])[|a.blocks| := Block(head, TextsOf(facts))] ==
             a.blocks + [Block(head, TextsOf(facts))];
    }
  }

  function CallBlock(facts: seq<Fact>, tc: ToolCall): Block {
    Block(ToolHead(tc.id, tc.name), if facts == [] then [] else TextsOf(facts[1..]))
  }

  function CallBlocks(calls: seq<seq<Fact>>, tcs: seq<ToolCall>): seq<Block>
    requires |calls| == |tcs|
  {
    seq(|calls|, i requires 0 <= i < |calls| => CallBlock(calls[i], tcs[i]))
  }

  lemma {:induction false} GrowCalls(a: Assembly, calls: seq<seq<Fact>>, tcs: seq<ToolCall>)
    requires |calls| == |tcs| && forall i :: 0 <= i < |calls| ==> CutsCall(calls[i], tcs[i])
    ensures InTools(a, Flatten(calls))
    ensures GrowAll(a, Flatten(calls)) ==
            if calls == [] then a
            else a.(blocks := a.blocks + CallBlocks(calls, tcs),
                    kind := Some(ToolUse))
    decreases |calls|
  {
    hide InTools, CallBlock, CutsCall;
    if calls == [] {
      NothingToGrow(a);
    } else {
      hide GrowAll;
      var first, others := CallBlock(calls[0], tcs[0]), CallBlocks(calls[1..], tcs[1..]);
      GrowCall(a, calls[0], tcs[0]);
      GrowAllConcat(a, calls[0], Flatten(calls[1..]));
      GrowCalls(GrowAll(a, calls[0]), calls[1..], tcs[1..]);
      assert CallBlocks(calls, tcs) == [first] + others;
      assert a.blocks + [first] + others == a.blocks + ([first] + others);
    }
  }

  lemma NothingToGrow(a: Assembly)
    ensures InTools(a, []) && GrowAll(a, []) == a
  {
  }

  lemma GrowCall(a: Assembly, facts: seq<Fact>, tc: ToolCall)
    requires CutsCall(facts, tc)
    ensures InTools(a, facts)
    ensures GrowAll(a, facts) == a.(blocks := a.blocks + [CallBlock(facts, tc)], kind := Some(ToolUse))
  {
    var a1 := Grow(a, facts[0]);
    var b := Block(ToolHead(tc.id, tc.name), []);
    assert a1.blocks == a.blocks + [b];
    GrowRun(a1, facts[1..]);
    assert [] + TextsOf(facts[1..]) == TextsOf(facts[1..]);
    assert (a.blocks + [b])[|a.blocks| := CallBlock(facts, tc)] == a.blocks + [CallBlock(facts, tc)];
  }

  lemma {:induction false} GrowFinish(a: Assembly, facts: seq<Fact>)
    requires forall f :: f in facts ==> f.Finish?
    ensures InTools(a, facts)
    ensures GrowAll(a, facts).blocks == a.blocks
    ensures GrowAll(a, facts).stop ==
            if a.stop.Some? || facts == [] then a.stop else Some(facts[0].stopReason)
    decreases |facts|
  {
    if facts != [] {
      assert facts[0] in facts;
      GrowFinish(Grow(a, facts[0]), facts[1..]);
    }
  }

  /** The blocks of a cut message before they are read as content. */
  function CutBlocks(cut: Cut, m: FullChoice): seq<Block>
    requires |cut.calls| == |m.toolCalls|
  {
    (if cut.reasoning == [] then [] else [Block(ThinkingHead, TextsOf(cut.reasoning))]) +
    (if cut.content == [] then [] else [Block(TextHead, TextsOf(cut.content))]) +
    CallBlocks(cut.calls, m.toolCalls)
  }

  lemma GrowCut(cut: Cut, m: FullChoice)
    requires CutsMessage(cut, m)
    ensures var facts := cut.Facts() + [Finish("end_turn")];
            && InTools(NOTHING, facts)
            && GrowAll(NOTHING, facts).blocks == CutBlocks(cut, m)
            && GrowAll(NOTHING, facts).stop == Some(StopReason(m))
  {
    hide GrowAll, InTools, Flatten, CutsCall, TextsOf;
    var finish := cut.finish + [Finish("end_turn")];
    assert cut.Facts() + [Finish("end_turn")] == cut.reasoning + cut.content + Flatten(cut.calls) + finish;
    var a1 := GrowAll(NOTHING, cut.reasoning);
    GrowPart(NOTHING, cut.reasoning, ThinkingHead);
    var a2 := GrowAll(a1, cut.content);
    GrowPart(a1, cut.content, TextHead);
    var a3 := GrowAll(a2, Flatten(cut.calls));
    GrowCalls(a2, cut.calls, m.toolCalls);
    GrowFinish(a3, finish);
    GrowAllConcat(NOTHING, cut.reasoning, cut.content);
    GrowAllConcat(NOTHING, cut.reasoning + cut.content, Flatten(cut.calls));
    GrowAllConcat(NOTHING, cut.reasoning + cut.content + Flatten(cut.calls), finish);
    assert a3.blocks == CutBlocks(cut, m);
  }

  // ---- the theorem ----

  /** How a client reads an assembled block. */
  function ReadBlock(decode: Decoder, b: Block): ContentBlock {
    match b.head
    case ThinkingHead => ThinkingContent(Concat(b.fragments))
    case TextHead => TextContent(Concat(b.fragments))
    case ToolHead(id, name) => ToolUseContent(id, name, ToolInput(decode, Concat(b.fragments)))
  }

  function ReadBlocks(decode: Decoder, blocks: seq<Block>): seq<ContentBlock> {
    seq(|blocks|, i requires 0 <= i < |blocks| => ReadBlock(decode, blocks[i]))
  }

  lemma ConcatEmpty(facts: seq<Fact>)
    requires forall f :: f in facts ==> TextOf(f) != ""
    ensures Concat(TextsOf(facts)) == "" <==> facts == []
  {
    if facts != [] {
      assert facts[0] in facts;
      assert TextsOf(facts)[0] == TextOf(facts[0]);
    }
  }

  /** Read as content, the blocks are those of the whole-message translation, except that only the latter adds
      an empty text block to a message with empty content and no calls. */
  predicate ReadsAs(decode: Decoder, blocks: seq<Block>, m: FullChoice) {
    ReadBlocks(decode, blocks) +
    (if !m.content.Null? && ContentText(m.content) == "" && m.toolCalls == [] then [TextContent("")] else [])
    == MessageBlocks(decode, m)
  }

  /** The client of a stream assembles the blocks and the stop reason of the whole-message translation,
      except that only the latter adds an empty text block to a message with empty content and no calls. */
  lemma StreamAgrees(decode: Decoder, model: Bytes, messageId: Bytes, ps: seq<Payload>, m: FullChoice)
    requires IsCutOf(ps, m)
    ensures var o := ObserveAll(NEW_OBSERVER, Output(model, messageId, ps));
            && ReadsAs(decode, o.blocks, m)
            && o.closing.Some? && o.closing.value.MessageDelta? && o.closing.value.stopReason == StopReason(m)
  {
    hide ReadsAs, CutsMessage, GrowAll, InTools, Substance, FactsOfAll, EmitAll, CutBlocks, Tracks;
    var cut: Cut :| Substance(FactsOfAll(ps)) == cut.Facts() && CutsMessage(cut, m);
    var last := [Finish("end_turn")];
    var facts := FactsOfAll(ps);
    GrowCut(cut, m);
    GrowSubstance(NOTHING, facts);
    GrowAllConcat(NOTHING, facts, last);
    GrowAllConcat(NOTHING, cut.Facts(), last);
    StreamLed(ps, last);
    FreshShows(model, messageId);
    EmitAllShows(NEW_OBSERVER, Fresh(model, messageId), NOTHING, facts + last);
    CutReads(decode, cut, m);
  }

  lemma FreshShows(model: Bytes, messageId: Bytes)
    ensures Shows(NEW_OBSERVER, Fresh(model, messageId), NOTHING)
  {
  }

  lemma CutReads(decode: Decoder, cut: Cut, m: FullChoice)
    requires CutsMessage(cut, m)
    ensures ReadsAs(decode, CutBlocks(cut, m), m)
  {
    ConcatEmpty(cut.reasoning);
    ConcatEmpty(cut.content);
    var r := if cut.reasoning == [] then [] else [Block(ThinkingHead, TextsOf(cut.reasoning))];
    var c := if cut.content == [] then [] else [Block(TextHead, TextsOf(cut.content))];
    var t := CallBlocks(cut.calls, m.toolCalls);
    ReadBlocksConcat(decode, r + c, t);
    ReadBlocksConcat(decode, r, c);
    CallsRead(decode, cut.calls, m.toolCalls);
    assert r != [] ==> ReadBlocks(decode, r) == [ThinkingContent(m.reasoning)];
    assert c != [] ==> ReadBlocks(decode, c) == [TextContent(ContentText(m.content))];
  }

  lemma ReadBlocksConcat(decode: Decoder, a: seq<Block>, b: seq<Block>)
    ensures ReadBlocks(decode, a + b) == ReadBlocks(decode, a) + ReadBlocks(decode, b)
  {}

  lemma CallsRead(decode: Decoder, calls: seq<seq<Fact>>, tcs: seq<ToolCall>)
    requires |calls| == |tcs| && forall i :: 0 <= i < |calls| ==> CutsCall(calls[i], tcs[i])
    ensures ReadBlocks(decode, CallBlocks(calls, tcs)) ==
            ToolBlocks(decode, tcs)
  {
    forall i | 0 <= i < |tcs|
      ensures ReadBlocks(decode, CallBlocks(calls, tcs))[i] == ToolBlock(decode, tcs[i])
    {
      assert CutsCall(calls[i], tcs[i]);
    }
  }

  // ---- the uncut message is one of its cuts ----

  function WholeCall(tc: ToolCall): ToolCallDelta {
    ToolCallDelta(None, tc.id, Some(FunctionDelta(tc.name, tc.arguments)))
  }

  function WholeCalls(tcs: seq<ToolCall>): seq<ToolCallDelta> {
    seq(|tcs|, i requires 0 <= i < |tcs| => WholeCall(tcs[i]))
  }

  function WholeCallFacts(tcs: seq<ToolCall>): seq<seq<Fact>> {
    seq(|tcs|, i requires 0 <= i < |tcs| => ToolFacts(WholeCall(tcs[i])))
  }

  /** The whole message as a single chunk. */
  function WholeChunk(m: FullChoice): Payload {
    Chunk(None,
          [Choice(Delta(Some(ContentText(m.content)), Some(m.reasoning), WholeCalls(m.toolCalls)), m.finishReason)],
          None)
  }

  lemma {:induction false} SubstanceConcat(a: seq<Fact>, b: seq<Fact>)
    ensures Substance(a + b) == Substance(a) + Substance(b)
    decreases |a|
  {
    if a == [] {
      assert a + b == b;
    } else {
      assert (a + b)[1..] == a[1..] + b;
      SubstanceConcat(a[1..], b);
    }
  }

  lemma {:induction false} SubstanceKeeps(facts: seq<Fact>)
    requires forall f :: f in facts ==> !f.Begin? && !f.Report?
    ensures Substance(facts) == facts
    decreases |facts|
  {
    if facts != [] {
      assert facts[0] in facts;
      SubstanceKeeps(facts[1..]);
    }
  }

  lemma {:induction false} WholeCallsFacts(tcs: seq<ToolCall>)
    requires forall tc :: tc in tcs ==> tc.name != ""
    ensures var calls := WholeCallFacts(tcs);
            && ToolsFacts(WholeCalls(tcs)) == Flatten(calls)
            && (forall i :: 0 <= i < |tcs| ==> CutsCall(calls[i], tcs[i]))
            && (forall f :: f in Flatten(calls) ==> f.Name? || f.Arguments?)
    decreases |tcs|
  {
    hide ToolsFacts, ToolFacts, CutsCall, WholeCall;
    if tcs == [] {
      assert WholeCalls(tcs) == [];
      NoToolsFacts();
    } else {
      var calls := WholeCallFacts(tcs);
      var rest := WholeCallFacts(tcs[1..]);
      assert calls[1..] == rest;
      assert WholeCalls(tcs)[1..] == WholeCalls(tcs[1..]);
      ToolsFactsHead(WholeCalls(tcs));
      WholeCallsFacts(tcs[1..]);
      assert tcs[0] in tcs;
      WholeCallCuts(tcs[0]);
      forall i | 0 <= i < |tcs| ensures CutsCall(calls[i], tcs[i]) {
        if i > 0 {
          assert calls[i] == rest[i - 1];
        }
      }
    }
  }

  lemma NoToolsFacts()
    ensures ToolsFacts([]) == []
  {
  }

  lemma WholeCallCuts(tc: ToolCall)
    requires tc.name != ""
    ensures CutsCall(ToolFacts(WholeCall(tc)), tc)
    ensures forall f :: f in ToolFacts(WholeCall(tc)) ==> f.Name? || f.Arguments?
  {
    var facts := ToolFacts(WholeCall(tc));
    if tc.arguments == "" {
      assert facts == [Name(None, tc.id, tc.name)];
    } else {
      assert facts == [Name(None, tc.id, tc.name), Arguments(None, tc.arguments)];
      assert TextsOf(facts[1..]) == [tc.arguments];
      assert Concat([tc.arguments]) == tc.arguments + Concat([]);
    }
  }

  function WholeCut(m: FullChoice): Cut {
    Cut(TextFacts(Some(m.reasoning), true), TextFacts(Some(ContentText(m.content)), false),
        WholeCallFacts(m.toolCalls),
        FinishFacts(m.finishReason))
  }

  lemma WholeCutCuts(m: FullChoice)
    requires forall tc :: tc in m.toolCalls ==> tc.name != ""
    ensures CutsMessage(WholeCut(m), m)
  {
    hide CutsCall, TextsOf, Flatten, ToolsFacts;
    OneTextCut(m.reasoning, true);
    OneTextCut(ContentText(m.content), false);
    WholeCallsFacts(m.toolCalls);
  }

  lemma ChoiceFacts(c: Choice)
    ensures FactsOf(Chunk(None, [c], None)) ==
            [Begin] + (TextFacts(c.delta.reasoning, true) + TextFacts(c.delta.content, false) +
                       ToolsFacts(c.delta.toolCalls) + FinishFacts(c.finishReason))
  {
    hide TextFacts, ToolsFacts, FinishFacts;
    var a, b := TextFacts(c.delta.reasoning, true), TextFacts(c.delta.content, false);
    var t, f := ToolsFacts(c.delta.toolCalls), FinishFacts(c.finishReason);
    assert [Begin] + [] + a + b + t + f == [Begin] + (a + b + t + f);
  }

  lemma WholeChunkFacts(m: FullChoice)
    requires forall tc :: tc in m.toolCalls ==> tc.name != ""
    ensures FactsOfAll([WholeChunk(m)]) == [Begin] + WholeCut(m).Facts()
  {
    OnePayload(WholeChunk(m));
    ChoiceFacts(WholeChunk(m).choices[0]);
    assert ToolsFacts(WholeCalls(m.toolCalls)) == Flatten(WholeCallFacts(m.toolCalls)) by {
      WholeCallsFacts(m.toolCalls);
    }
  }

  lemma OnePayload(p: Payload)
    ensures FactsOfAll([p]) == FactsOf(p)
  {
    assert [p][1..] == [];
  }

  lemma WholeFactsKept(m: FullChoice)
    requires forall tc :: tc in m.toolCalls ==> tc.name != ""
    ensures Substance(WholeCut(m).Facts()) == WholeCut(m).Facts()
  {
    var cut := WholeCut(m);
    WholeCallsFacts(m.toolCalls);
    SubstanceKeeps(cut.reasoning);
    SubstanceKeeps(cut.content);
    SubstanceKeeps(Flatten(cut.calls));
    SubstanceKeeps(cut.finish);
    SubstanceConcat(cut.reasoning, cut.content);
    SubstanceConcat(cut.reasoning + cut.content, Flatten(cut.calls));
    SubstanceConcat(cut.reasoning + cut.content + Flatten(cut.calls), cut.finish);
  }

  /** Sending a message in one chunk is one way of cutting it, when its calls have names. */
  lemma WholeMessageIsCut(m: FullChoice)
    requires forall tc :: tc in m.toolCalls ==> tc.name != ""
    ensures IsCutOf([WholeChunk(m)], m)
  {
    var facts := WholeCut(m).Facts();
    WholeChunkFacts(m);
    WholeCutCuts(m);
    WholeFactsKept(m);
    SubstanceConcat([Begin], facts);
  }

  lemma OneTextCut(t: Bytes, thinking: bool)
    ensures Concat(TextsOf(TextFacts(Some(t), thinking))) == t
  {
    var facts := TextFacts(Some(t), thinking);
    if t != "" {
      assert TextsOf(facts) == [t];
      assert Concat([t]) == t + Concat([]);
    }
  }
}
