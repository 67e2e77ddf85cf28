/** The bytes that the stream translator writes and the one payload that is no JSON
    (internal/wire/stream.go:109-196, 234-242). */
module WireText {
  import opened Text
  import opened Events
  import opened Stream
  import opened Sse
  import opened StreamReader
  import EventLines

  /** Every event is written as its type, its JSON and a blank line. */
  lemma EventBytes(c: Codec, e: Event)
    ensures Render(c, [e]) ==
            "event: " + (if e.MessageStart? then "message_start"
                         else if e.BlockStart? then "content_block_start"
                         else if e.BlockDeltaEvent? then "content_block_delta"
                         else if e.BlockStop? then "content_block_stop"
                         else if e.MessageDelta? then "message_delta"
                         else if e.MessageStop? then "message_stop"
                         else "error") + "\ndata: " + c.encode(e) + "\n\n"
  {
    hide Frame;
    var w := Wire(c, [e]);
    assert w == [(EventType(e), c.encode(e))] && w[1..] == [];
    assert Frames(w) == Frame(EventType(e), c.encode(e)) + "";
    TypeNames(e);
    FrameBytes(EventType(e), c.encode(e));
  }

  lemma TypeNames(e: Event)
    ensures EventType(e) ==
            if e.MessageStart? then "message_start"
            else if e.BlockStart? then "content_block_start"
            else if e.BlockDeltaEvent? then "content_block_delta"
            else if e.BlockStop? then "content_block_stop"
            else if e.MessageDelta? then "message_delta"
            else if e.MessageStop? then "message_stop"
            else "error"
  {
  }

  lemma FrameBytes(kind: Bytes, json: Bytes)
    ensures Frame(kind, json) == "event: " + kind + "\ndata: " + json + "\n\n"
  {
  }

  /** A source that says only [DONE] becomes an empty message, whatever JSON makes of the word. */
  lemma DoneAlone(c: Codec, model: Bytes, messageId: Bytes, end: SourceEnd)
    ensures Upcoming(c, Fresh(model, messageId), "data: [DONE]\n\n", end) ==
            Render(c, [MessageStart(messageId, model), MessageDelta("end_turn", 0), MessageStop])
  {
    hide Payloads, Upcoming, Render;
    var source := "data: [DONE]\n\n";
    var s := Fresh(model, messageId);
    DonePayload();
    UpcomingIsFold(c, s, source, end);
    assert ["[DONE]"][1..] == [];
    assert DecodeAll(c, ["[DONE]"]) == [Done];
    assert [Done][1..] == [] && FactsOfAll([Done]) == FactsOf(Done) + FactsOfAll([]);
    DoneEvents(s, if end.Clean? then [Finish("end_turn")] else []);
  }

  lemma DoneEvents(s: State, last: seq<Fact>)
    requires s == Fresh(s.model, s.messageId) && (last == [] || last == [Finish("end_turn")])
    ensures EmitAll(s, [Begin, Finish("end_turn")] + last).1 ==
            [MessageStart(s.messageId, s.model), MessageDelta("end_turn", 0), MessageStop]
  {
    var s1 := s.(started := true);
    var s2 := s1.(finished := true);
    EmitAllConcat(s, [Begin, Finish("end_turn")], last);
    EmitAllSnoc(s, [Begin], Finish("end_turn"));
    assert [Begin] + [Finish("end_turn")] == [Begin, Finish("end_turn")];
    EmitOne(s, Begin);
    assert EmitAll(s, [Begin]) == (s1, [MessageStart(s.messageId, s.model)]);
    if last != [] {
      EmitOne(s2, Finish("end_turn"));
    }
  }

  const DONE_LINE := EventLines.DataLine(" [DONE]", 0)

  lemma DonePayload()
    ensures Payloads("data: [DONE]\n\n") == ["[DONE]"]
  {
    hide Payloads, TrimSpace, EventLines.StreamBytes, EventLines.IsEvent;
    var e := EventLines.WireEvent([DONE_LINE], 0);
    DoneEvent(e);
    DoneBytes();
    assert [e][1..] == [] && EventLines.EventLinesOf([e]) == [DONE_LINE, EventLines.BlankLine(0)];
    EventLines.EventsReadBack([e]);
    DoneTrimmed();
    assert [DONE_LINE][1..] == [] && EventLines.DataTexts([DONE_LINE]) == ["[DONE]"];
  }

  lemma DoneEvent(e: EventLines.WireEvent)
    requires e == EventLines.WireEvent([DONE_LINE], 0)
    ensures EventLines.IsEvent(e)
  {
    assert DONE_LINE in e.lines;
  }

  lemma DoneBytes()
    ensures EventLines.StreamBytes([DONE_LINE, EventLines.BlankLine(0)]) == "data: [DONE]\n\n"
  {
    var b := EventLines.BlankLine(0);
    assert [DONE_LINE, b][1..] == [b] && [b][1..] == [];
    assert EventLines.StreamBytes([b]) == "\n";
    assert EventLines.LineBytes(DONE_LINE) == "data: [DONE]\n";
  }

  lemma DoneTrimmed()
    ensures TrimSpace(" [DONE]") == "[DONE]"
  {
    hide TrimSpace, SpaceAt, SpaceEnd;
    var t := "[DONE]";
    NoSpaceAtEnds(t);
    Untouched(t);
    LeadingSpace(t);
    assert " [DONE]" == " " + t;
  }

  lemma NoSpaceAtEnds(t: Bytes)
    requires |t| >= 3 && (forall i :: 0 <= i < |t| ==> '!' <= t[i] <= '~')
    ensures SpaceAt(t) == 0 && SpaceEnd(t) == 0
  {
  }
}
