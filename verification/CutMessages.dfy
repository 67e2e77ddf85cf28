/** Two limits of the agreement between the stream and the whole-message translation: when the stream of a cut
    message is a well-formed message, and which messages can be cut at all. */
module CutMessages {
  import opened Text
  import opened Events
  import opened Stream
  import opened Response
  import opened Agreement

  // ---- a cut message that has begun is a well-formed message ----

  function AdvanceAll(p: Phase, facts: seq<Fact>): Phase
    decreases |facts|
  {
    if facts == [] then p else AdvanceAll(Advance(p, facts[0]), facts[1..])
  }

  lemma {:induction false} OrderlyConcat(p: Phase, a: seq<Fact>, b: seq<Fact>)
    ensures Orderly(p, a + b) <==> Orderly(p, a) && Orderly(AdvanceAll(p, a), b)
    ensures AdvanceAll(p, a + b) == AdvanceAll(AdvanceAll(p, a), b)
    decreases |a|
  {
    hide Allowed, Advance;
    if a == [] {
      assert a + b == b;
    } else {
      assert (a + b)[1..] == a[1..] + b;
      OrderlyConcat(Advance(p, a[0]), a[1..], b);
    }
  }

  /** In the middle of a message: anything but stray arguments may follow. */
  predicate Ongoing(p: Phase) {
    p.begun && !p.over
  }

  lemma {:induction false} TextOrderly(p: Phase, facts: seq<Fact>)
    requires Ongoing(p) && forall f :: f in facts ==> f.Reason? || f.Content?
    ensures Orderly(p, facts) && Ongoing(AdvanceAll(p, facts))
    decreases |facts|
  {
    if facts != [] {
      assert facts[0] in facts;
      TextOrderly(Advance(p, facts[0]), facts[1..]);
    }
  }

  lemma {:induction false} ArgumentsOrderly(p: Phase, facts: seq<Fact>)
    requires Ongoing(p) && p.inTool && forall f :: f in facts ==> f.Arguments?
    ensures Orderly(p, facts) && AdvanceAll(p, facts) == p
    decreases |facts|
  {
    if facts != [] {
      assert facts[0] in facts;
      ArgumentsOrderly(p, facts[1..]);
    }
  }

  lemma {:induction false} CallsOrderly(p: Phase, calls: seq<seq<Fact>>, tcs: seq<ToolCall>)
    requires Ongoing(p) && |calls| == |tcs| && forall i :: 0 <= i < |calls| ==> CutsCall(calls[i], tcs[i])
    ensures Orderly(p, Flatten(calls)) && Ongoing(AdvanceAll(p, Flatten(calls)))
    decreases |calls|
  {
    if calls != [] {
      hide Orderly, AdvanceAll;
      CallOrderly(p, calls[0], tcs[0]);
      CallsOrderly(AdvanceAll(p, calls[0]), calls[1..], tcs[1..]);
      OrderlyConcat(p, calls[0], Flatten(calls[1..]));
    }
  }

  lemma CallOrderly(p: Phase, facts: seq<Fact>, tc: ToolCall)
    requires Ongoing(p) && CutsCall(facts, tc)
    ensures Orderly(p, facts) && Ongoing(AdvanceAll(p, facts))
  {
    ArgumentsOrderly(Advance(p, facts[0]), facts[1..]);
  }

  lemma {:induction false} FinishesOrderly(p: Phase, facts: seq<Fact>)
    requires p.begun && forall f :: f in facts ==> f.Finish?
    ensures Orderly(p, facts)
    decreases |facts|
  {
    if facts != [] {
      assert facts[0] in facts;
      FinishesOrderly(Advance(p, facts[0]), facts[1..]);
    }
  }

  const BEGUN := Phase(true, false, false, false)

  lemma CutOrderly(cut: Cut, m: FullChoice)
    requires CutsMessage(cut, m)
    ensures Orderly(BEGUN, cut.Facts() + [Finish("end_turn")])
  {
    hide Orderly, AdvanceAll, Flatten, CutsCall, TextsOf;
    var text, calls, finish := cut.reasoning + cut.content, Flatten(cut.calls), cut.finish + [Finish("end_turn")];
    assert cut.Facts() + [Finish("end_turn")] == text + (calls + finish);
    TextOrderly(BEGUN, text);
    var p := AdvanceAll(BEGUN, text);
    CallsOrderly(p, cut.calls, m.toolCalls);
    FinishesOrderly(AdvanceAll(p, calls), finish);
    OrderlyConcat(BEGUN, text, calls + finish);
    OrderlyConcat(p, calls, finish);
  }

  /** Start marks and usage reports do not disturb a message that has begun. */
  lemma {:induction false} SubstanceOrderly(p: Phase, facts: seq<Fact>)
    requires p.begun
    ensures Orderly(p, facts) <==> Orderly(p, Substance(facts))
    decreases |facts|
  {
    if facts != [] {
      SubstanceOrderly(Advance(p, facts[0]), facts[1..]);
      if !facts[0].Begin? && !facts[0].Report? {
        assert Substance(facts)[1..] == Substance(facts[1..]);
      } else {
        assert Substance(facts) == Substance(facts[1..]) && Advance(p, facts[0]) == p;
      }
    }
  }

  lemma {:induction false} FirstFact(ps: seq<Payload>)
    requires FactsOfAll(ps) != []
    ensures FactsOfAll(ps)[0].Begin? || FactsOfAll(ps)[0].Fail?
  {
    if FactsOf(ps[0]) == [] {
      FirstFact(ps[1..]);
    }
  }

  lemma CutRunOrderlyIff(ps: seq<Payload>, m: FullChoice)
    requires IsCutOf(ps, m)
    ensures Orderly(START, FactsOfStream(ps)) <==> FactsOfAll(ps) != []
  {
    hide CutsMessage, FactsOfAll, Substance, Orderly;
    var cut: Cut :| Substance(FactsOfAll(ps)) == cut.Facts() && CutsMessage(cut, m);
    var facts, last := FactsOfAll(ps), [Finish("end_turn")];
    CutOrderly(cut, m);
    if facts == [] {
      assert facts + last == last;
      NotBegun();
    } else {
      FirstFact(ps);
      SubstanceConcat(facts, last);
      KeepFinish();
      SubstanceOrderly(BEGUN, facts + last);
      BeginFirst(facts + last);
    }
  }

  lemma NotBegun()
    ensures !Orderly(START, [Finish("end_turn")])
  {
  }

  lemma KeepFinish()
    ensures Substance([Finish("end_turn")]) == [Finish("end_turn")]
  {
  }

  lemma BeginFirst(facts: seq<Fact>)
    requires facts != [] && (facts[0].Begin? || facts[0].Fail?) && Orderly(BEGUN, facts)
    ensures Orderly(START, facts)
  {
    assert facts[0].Begin?;
    assert Advance(BEGUN, Begin) == BEGUN == Advance(START, Begin);
  }

  /** The stream of a cut message is one well-formed message, made of exactly the blocks that the client
      assembles, as soon as any payload counts; with none there is only the closing, without a start. */
  lemma CutIsMessageIff(model: Bytes, messageId: Bytes, ps: seq<Payload>, m: FullChoice)
    requires IsCutOf(ps, m)
    ensures var output := Output(model, messageId, ps);
            IsMessage(output, ObserveAll(NEW_OBSERVER, output).blocks) <==> FactsOfAll(ps) != []
  {
    hide IsCutOf, Orderly, IsMessage, Complete, FactsOfAll, FactsOfStream;
    var output := Output(model, messageId, ps);
    CutRunOrderlyIff(ps, m);
    OutputIsMessageIff(model, messageId, ps);
    if blocks :| IsMessage(output, blocks) {
      CompleteIffMessage(output, blocks);
    }
  }

  // ---- calls without a name ----

  predicate NamedTools(blocks: seq<Block>) {
    forall b :: b in blocks && b.head.ToolHead? ==> b.head.name != ""
  }

  predicate StartsNamed(events: seq<Event>) {
    forall e :: e in events && e.BlockStart? && e.head.ToolHead? ==> e.head.name != ""
  }

  predicate FactsNamed(facts: seq<Fact>) {
    forall f :: f in facts && f.Name? ==> f.name != ""
  }

  lemma StepNamed(o: Observer, e: Event)
    requires NamedTools(o.blocks) && StartsNamed([e])
    ensures NamedTools(Observe(o, e).blocks)
  {
    var blocks := Observe(o, e).blocks;
    assert e in [e];
    forall b | b in blocks && b.head.ToolHead? ensures b.head.name != "" {
      var i :| 0 <= i < |blocks| && blocks[i] == b;
      if i < |o.blocks| {
        assert o.blocks[i] in o.blocks && o.blocks[i].head == b.head;
      }
    }
  }

  lemma {:induction false} ObservedNamed(o: Observer, events: seq<Event>)
    requires NamedTools(o.blocks) && StartsNamed(events)
    ensures NamedTools(ObserveAll(o, events).blocks)
    decreases |events|
  {
    hide NamedTools, Observe;
    if events != [] {
      assert events[0] in events;
      StepNamed(o, events[0]);
      ObservedNamed(Observe(o, events[0]), events[1..]);
    }
  }

  lemma {:induction false} EmittedNamed(s: State, facts: seq<Fact>)
    requires FactsNamed(facts)
    ensures StartsNamed(EmitAll(s, facts).1)
    decreases |facts|
  {
    if facts != [] {
      hide CloseEvents;
      assert facts[0] in facts;
      ClosesNamed(s);
      EmittedNamed(Emit(s, facts[0]).0, facts[1..]);
    }
  }

  lemma ClosesNamed(s: State)
    ensures forall e :: e in CloseEvents(s) ==> !e.BlockStart?
  {
  }

  lemma {:induction false} ToolsNamed(tcs: seq<ToolCallDelta>)
    ensures FactsNamed(ToolsFacts(tcs))
  {
    if tcs != [] {
      ToolsNamed(tcs[..|tcs| - 1]);
    }
  }

  lemma PayloadNamed(p: Payload)
    ensures FactsNamed(FactsOf(p))
  {
    if p.Chunk? && p.choices != [] {
      hide ToolsFacts;
      ToolsNamed(p.choices[0].delta.toolCalls);
    }
  }

  lemma {:induction false} StreamNamed(ps: seq<Payload>)
    ensures FactsNamed(FactsOfAll(ps))
  {
    hide FactsOf;
    if ps != [] {
      PayloadNamed(ps[0]);
      StreamNamed(ps[1..]);
    }
  }

  lemma OutputNamed(model: Bytes, messageId: Bytes, ps: seq<Payload>)
    ensures NamedTools(ObserveAll(NEW_OBSERVER, Output(model, messageId, ps)).blocks)
  {
    StreamNamed(ps);
    EmittedNamed(Fresh(model, messageId), FactsOfStream(ps));
    ObservedNamed(NEW_OBSERVER, Output(model, messageId, ps));
  }

  predicate AllNamed(m: FullChoice) {
    forall tc :: tc in m.toolCalls ==> tc.name != ""
  }

  lemma NamelessBlock(decode: Decoder, m: FullChoice)
    requires !AllNamed(m)
    ensures exists b :: b in MessageBlocks(decode, m) && b.ToolUseContent? && b.name == ""
  {
    var tc :| tc in m.toolCalls && tc.name == "";
    var i :| 0 <= i < |m.toolCalls| && m.toolCalls[i] == tc;
    var blocks := ToolBlocks(decode, m.toolCalls);
    assert blocks[i] in blocks;
    assert blocks[i] in MessageBlocks(decode, m);
  }

  lemma ReadNamed(decode: Decoder, blocks: seq<Block>)
    requires NamedTools(blocks)
    ensures forall b :: b in ReadBlocks(decode, blocks) && b.ToolUseContent? ==> b.name != ""
  {
    var read := ReadBlocks(decode, blocks);
    forall b | b in read && b.ToolUseContent? ensures b.name != "" {
      var i :| 0 <= i < |read| && read[i] == b;
      assert blocks[i] in blocks;
    }
  }

  /** The stream drops a call without a name, the whole-message translation keeps it: no chunks at all make the
      stream agree on a message with such a call. */
  lemma NamelessNeverAgrees(decode: Decoder, model: Bytes, messageId: Bytes, ps: seq<Payload>, m: FullChoice)
    requires !AllNamed(m)
    ensures !ReadsAs(decode, ObserveAll(NEW_OBSERVER, Output(model, messageId, ps)).blocks, m)
  {
    hide Output, ObserveAll, AllNamed, MessageBlocks;
    var blocks := ObserveAll(NEW_OBSERVER, Output(model, messageId, ps)).blocks;
    OutputNamed(model, messageId, ps);
    NamelessBlock(decode, m);
    var b :| b in MessageBlocks(decode, m) && b.ToolUseContent? && b.name == "";
    ReadNamed(decode, blocks);
    assert b !in ReadBlocks(decode, blocks) && b != TextContent("");
    assert b !in ReadBlocks(decode, blocks) + [TextContent("")] && b !in ReadBlocks(decode, blocks) + [];
  }

  /** Sent in one chunk, a message reads the same from the stream exactly when all its calls have names. */
  lemma WholeMessageAgreesIff(decode: Decoder, model: Bytes, messageId: Bytes, m: FullChoice)
    ensures ReadsAs(decode, ObserveAll(NEW_OBSERVER, Output(model, messageId, [WholeChunk(m)])).blocks, m) <==>
            AllNamed(m)
  {
    hide Output, ObserveAll, ReadsAs, IsCutOf;
    if AllNamed(m) {
      WholeMessageIsCut(m);
      StreamAgrees(decode, model, messageId, [WholeChunk(m)], m);
    } else {
      NamelessNeverAgrees(decode, model, messageId, [WholeChunk(m)], m);
    }
  }
}
