/** The resumable reader around the stream translator (internal/wire/stream.go:12-196, 233-361), and the
    loop that copies it to the client (internal/proxy/server.go:495-552). */
module StreamReader {
  import opened Text
  import opened Events
  import opened Stream
  import opened Sse
  import StreamRuns

  /** JSON is not modelled: `encode` is json.Marshal of an event, `json` is json.Unmarshal of a chunk. */
  datatype Codec = Codec(encode: Event -> Bytes, json: Bytes -> Payload)

  function EventType(e: Event): Bytes {
    match e
    case MessageStart(_, _) => "message_start"
    case BlockStart(_, _) => "content_block_start"
    case BlockDeltaEvent(_, _) => "content_block_delta"
    case BlockStop(_) => "content_block_stop"
    case MessageDelta(_, _) => "message_delta"
    case MessageStop => "message_stop"
    case ErrorEvent(_) => "error"
  }

  function Wire(c: Codec, events: seq<Event>): seq<(Bytes, Bytes)> {
    seq(|events|, i requires 0 <= i < |events| => (EventType(events[i]), c.encode(events[i])))
  }

  /** The bytes that the emit calls for these events produce. */
  function Render(c: Codec, events: seq<Event>): Bytes {
    Frames(Wire(c, events))
  }

  lemma RenderConcat(c: Codec, a: seq<Event>, b: seq<Event>)
    ensures Render(c, a + b) == Render(c, a) + Render(c, b)
  {
    assert Wire(c, a + b) == Wire(c, a) + Wire(c, b);
    FramesConcat(Wire(c, a), Wire(c, b));
  }

  function Decode(c: Codec, payload: Bytes): Payload {
    if payload == "[DONE]" then Done else c.json(payload)
  }

  function DecodeAll(c: Codec, payloads: seq<Bytes>): seq<Payload> {
    if payloads == [] then [] else [Decode(c, payloads[0])] + DecodeAll(c, payloads[1..])
  }

  /** The end of the source: io.EOF, or another read error (after which no finish is written). */
  datatype SourceEnd = Clean | Broken

  /** Everything the translator will still write, from a state and the bytes that are left. */
  function Upcoming(c: Codec, s: State, src: Bytes, end: SourceEnd): Bytes
    decreases |src|
  {
    var (payload, rest) := NextEvent(src, []);
    if payload.Some? then
      var (s1, events) := EmitAll(s, FactsOf(Decode(c, payload.value)));
      Render(c, events) + Upcoming(c, s1, rest, end)
    else if end.Clean? then Render(c, Emit(s, Finish("end_turn")).1)
    else ""
  }

  /** The event-by-event output is the rendering of one fold over all the payloads of the source,
      followed, at a clean end only, by the finish. */
  lemma {:induction false} UpcomingIsFold(c: Codec, s: State, src: Bytes, end: SourceEnd)
    ensures Upcoming(c, s, src, end) ==
            Render(c, EmitAll(s, FactsOfAll(DecodeAll(c, Payloads(src))) +
                                 (if end.Clean? then [Finish("end_turn")] else [])).1)
    decreases |src|
  {
    hide Emit, FactsOf, NextEvent;
    var (payload, rest) := NextEvent(src, []);
    var last := if end.Clean? then [Finish("end_turn")] else [];
    if payload.Some? {
      hide EmitAll, Render, FactsOfAll;
      var p := Decode(c, payload.value);
      var facts := FactsOf(p);
      FoldStep(c, p, Payloads(src));
      RenderedInParts(c, s, facts, FactsOfAll(DecodeAll(c, Payloads(rest))), last);
      UpcomingIsFold(c, EmitAll(s, facts).0, rest, end);
    } else {
      EmitAllSnoc(s, [], Finish("end_turn"));
      assert [] + [Finish("end_turn")] == [Finish("end_turn")];
      assert [] + Emit(s, Finish("end_turn")).1 == Emit(s, Finish("end_turn")).1;
    }
  }

  lemma RenderedInParts(c: Codec, s: State, facts: seq<Fact>, more: seq<Fact>, last: seq<Fact>)
    ensures Render(c, EmitAll(s, facts + more + last).1) ==
            Render(c, EmitAll(s, facts).1) + Render(c, EmitAll(EmitAll(s, facts).0, more + last).1)
  {
    hide Emit, Render;
    assert facts + more + last == facts + (more + last);
    EmitAllConcat(s, facts, more + last);
    RenderConcat(c, EmitAll(s, facts).1, EmitAll(EmitAll(s, facts).0, more + last).1);
  }

  lemma FoldStep(c: Codec, p: Payload, payloads: seq<Bytes>)
    requires payloads != [] && p == Decode(c, payloads[0])
    ensures FactsOfAll(DecodeAll(c, payloads)) == FactsOf(p) + FactsOfAll(DecodeAll(c, payloads[1..]))
  {
    var ps := DecodeAll(c, payloads[1..]);
    assert ([p] + ps)[1..] == ps;
  }

  lemma EmitAllSnoc(s: State, facts: seq<Fact>, f: Fact)
    ensures EmitAll(s, facts + [f]).0 == Emit(EmitAll(s, facts).0, f).0
    ensures EmitAll(s, facts + [f]).1 == EmitAll(s, facts).1 + Emit(EmitAll(s, facts).0, f).1
  {
    EmitAllConcat(s, facts, [f]);
  }

  lemma EmitOne(s: State, f: Fact)
    ensures EmitAll(s, [f]) == Emit(s, f)
  {
    EmitAllSnoc(s, [], f);
    assert [] + [f] == [f] && [] + Emit(s, f).1 == Emit(s, f).1;
  }

  lemma ReportIsSilent(s: State, u: ChunkUsage)
    ensures Emit(s, Report(u)).1 == []
  {
  }

  lemma EmitText(s: State, t: Bytes)
    ensures Emit(s, Reason(t)) == AddFragment(s, ThinkingHead, ThinkingDelta(t))
    ensures Emit(s, Content(t)) == AddFragment(s, TextHead, TextDelta(t))
  {
  }

  lemma Associate(a: Bytes, b: Bytes, c: Bytes)
    ensures a + b + c == a + (b + c)
  {}

  datatype ReadError = NoError | Eof | SourceFailed

  class OpenAIStream {
    const codec: Codec
    const end: SourceEnd
    const model: Bytes
    const messageId: Bytes
    var src: Bytes
    var started: bool
    var finished: bool
    var blockIdx: int
    var current: Option<BlockKind>
    var output: int
    var usage: Usage
    var toolMap: map<int, int>
    var lastTool: int
    var out: Bytes
    var done: bool

    ghost function Fields(): State
      reads this`started, this`finished, this`blockIdx, this`current, this`output, this`usage, this`toolMap,
            this`lastTool
    {
      State(model, messageId, started, finished, blockIdx, current, output, usage, toolMap, lastTool)
    }

    ghost predicate Valid()
      reads this`done
    {
      done ==> end.Clean?
    }

    ghost function Later(): Bytes
      reads this`started, this`finished, this`blockIdx, this`current, this`output, this`usage, this`toolMap,
            this`lastTool, this`src, this`done
    {
      if done then "" else Upcoming(codec, Fields(), src, end)
    }

    /** Every byte that later reads will return. */
    ghost function Remaining(): Bytes
      reads this
    {
      out + Later()
    }

    constructor (codec: Codec, source: Bytes, end: SourceEnd, model: Bytes, messageId: Bytes)
      ensures Valid() && this.codec == codec && this.end == end
      ensures Fields() == Fresh(model, messageId)
      ensures Remaining() == Upcoming(codec, Fresh(model, messageId), source, end)
    {
      this.codec, this.end, this.model, this.messageId := codec, end, model, messageId;
      hide Upcoming;
      src, out, done := source, "", false;
      started, finished, blockIdx, current, output := false, false, 0, None, 0;
      usage, toolMap, lastTool := Usage(0, 0, 0, 0), map[], -1;
    }

    // ---- events ----

    method EmitMessageStart() returns (events: seq<Event>)
      modifies this`started
      ensures started && events == [MessageStart(messageId, model)]
    {
      started := true;
      events := [MessageStart(messageId, model)];
    }

    /** The message starts with the first choice, [DONE] or error, and only once. */
    method StartMessage() returns (events: seq<Event>)
      modifies this`started
      ensures Fields() == Emit(old(Fields()), Begin).0
      ensures events == Emit(old(Fields()), Begin).1
    {
      if started {
        return [];
      }
      events := EmitMessageStart();
    }

    method OpenBlock(head: BlockHead) returns (events: seq<Event>)
      modifies this`blockIdx, this`current
      ensures blockIdx == old(blockIdx) + 1 && current == Some(head.Kind())
      ensures events == [BlockStart(old(blockIdx), head)]
    {
      var idx := blockIdx;
      blockIdx := blockIdx + 1;
      current := Some(head.Kind());
      events := [BlockStart(idx, head)];
    }

    method CloseBlock() returns (events: seq<Event>)
      modifies this`current
      ensures current.None? && events == CloseEvents(old(Fields()))
    {
      if current.None? {
        return [];
      }
      var idx, blockType := blockIdx - 1, current.value;
      current := None;
      events := [];
      if blockType.Thinking? {
        events := events + [BlockDeltaEvent(idx, SignatureDelta)];
      }
      events := events + [BlockStop(idx)];
    }

    method AppendBlock(d: BlockDelta) returns (events: seq<Event>)
      ensures events == [BlockDeltaEvent(blockIdx - 1, d)]
    {
      events := [BlockDeltaEvent(blockIdx - 1, d)];
    }

    method FinishStream(reason: Bytes) returns (events: seq<Event>)
      modifies this`finished, this`current
      ensures Fields() == Emit(old(Fields()), Finish(reason)).0
      ensures events == Emit(old(Fields()), Finish(reason)).1
      ensures old(finished) ==> events == [] && Fields() == old(Fields())
    {
      if finished {
        return [];
      }
      finished := true;
      events := CloseBlock();
      events := events + [MessageDelta(reason, output), MessageStop];
    }

    /** The reasoning and content branches of processEvent. */
    method AddText(head: BlockHead, d: BlockDelta) returns (events: seq<Event>)
      modifies this`blockIdx, this`current
      ensures Fields() == AddFragment(old(Fields()), head, d).0
      ensures events == AddFragment(old(Fields()), head, d).1
    {
      events := [];
      if current.Some? && current != Some(head.Kind()) {
        var closed := CloseBlock();
        events := events + closed;
      }
      if current != Some(head.Kind()) {
        var start := OpenBlock(head);
        events := events + start;
      }
      var added := AppendBlock(d);
      events := events + added;
    }

    method StartTool(index: Option<int>, id: Bytes, name: Bytes) returns (events: seq<Event>)
      modifies this`blockIdx, this`current, this`lastTool, this`toolMap
      ensures Fields() == Emit(old(Fields()), Name(index, id, name)).0
      ensures events == Emit(old(Fields()), Name(index, id, name)).1
    {
      events := [];
      if current.Some? {
        events := CloseBlock();
      }
      var idx := blockIdx;
      blockIdx := blockIdx + 1;
      current := Some(ToolUse);
      lastTool := idx;
      if index.Some? {
        toolMap := toolMap[index.value := idx];
      }
      events := events + [BlockStart(idx, ToolHead(id, name))];
    }

    method AddArguments(index: Option<int>, arguments: Bytes) returns (events: seq<Event>)
      ensures events == Emit(Fields(), Arguments(index, arguments)).1
    {
      events := [];
      var idx := lastTool;
      if index.Some? && index.value in toolMap {
        idx := toolMap[index.value];
      }
      if idx >= 0 {
        events := AppendBlock(InputJsonDelta(arguments));
      }
    }

    /** One round of the tool_calls loop of processEvent. */
    method ProcessToolCall(tc: ToolCallDelta) returns (events: seq<Event>)
      modifies this`blockIdx, this`current, this`lastTool, this`toolMap
      ensures Fields() == EmitAll(old(Fields()), ToolFacts(tc)).0
      ensures events == EmitAll(old(Fields()), ToolFacts(tc)).1
    {
      ghost var s := Fields();
      ghost var facts: seq<Fact> := [];
      events := [];
      if tc.call.Some? && tc.call.value.name != "" {
        events := StartTool(tc.index, tc.id, tc.call.value.name);
        facts := [Name(tc.index, tc.id, tc.call.value.name)];
        EmitAllSnoc(s, [], facts[0]);
        assert [] + facts == facts;
      }
      assert Fields() == EmitAll(s, facts).0 && events == EmitAll(s, facts).1;
      if tc.call.Some? && tc.call.value.arguments != "" {
        EmitAllSnoc(s, facts, Arguments(tc.index, tc.call.value.arguments));
        var more := AddArguments(tc.index, tc.call.value.arguments);
        events := events + more;
        facts := facts + [Arguments(tc.index, tc.call.value.arguments)];
      }
      assert ToolFacts(tc) == facts;
    }

    method ProcessToolCalls(tcs: seq<ToolCallDelta>) returns (events: seq<Event>)
      modifies this`blockIdx, this`current, this`lastTool, this`toolMap
      ensures Fields() == EmitAll(old(Fields()), ToolsFacts(tcs)).0
      ensures events == EmitAll(old(Fields()), ToolsFacts(tcs)).1
    {
      events := [];
      for i := 0 to |tcs|
        invariant Fields() == EmitAll(old(Fields()), ToolsFacts(tcs[..i])).0
        invariant events == EmitAll(old(Fields()), ToolsFacts(tcs[..i])).1
      {
        var more := ProcessToolCall(tcs[i]);
        events := events + more;
        EmitAllConcat(old(Fields()), ToolsFacts(tcs[..i]), ToolFacts(tcs[i]));
        assert tcs[..i + 1][..i] == tcs[..i];
      }
      assert tcs[..|tcs|] == tcs;
    }

    method RecordUsage(u: ChunkUsage)
      modifies this`output, this`usage
      ensures Fields() == Emit(old(Fields()), Report(u)).0
    {
      output := u.completion;
      usage := usage.(input := u.prompt, output := u.completion);
      if u.cacheHit.Some? {
        usage := usage.(cacheRead := u.cacheHit.value);
      }
      if u.cacheMiss.Some? {
        usage := usage.(cacheWrite := u.cacheMiss.value);
      }
    }

    /** [DONE] and error payloads: start the message if need be, and finish it. */
    method StartAndFinish(ghost s: State, ghost facts: seq<Fact>, events: seq<Event>) returns (all: seq<Event>)
      requires Fields() == EmitAll(s, facts).0 && events == EmitAll(s, facts).1
      modifies this`started, this`finished, this`current
      ensures Fields() == EmitAll(s, facts + [Begin, Finish("end_turn")]).0
      ensures all == EmitAll(s, facts + [Begin, Finish("end_turn")]).1
    {
      hide Emit, EmitAll;
      all := events;
      EmitAllSnoc(s, facts, Begin);
      EmitAllSnoc(s, facts + [Begin], Finish("end_turn"));
      assert facts + [Begin] + [Finish("end_turn")] == facts + [Begin, Finish("end_turn")];
      var begun := StartMessage();
      all := all + begun;
      var closing := FinishStream("end_turn");
      all := all + closing;
    }

    /** The start mark, the usage report and the two text branches for one choice. */
    method ProcessTexts(delta: Delta, reported: Option<ChunkUsage>) returns (events: seq<Event>)
      modifies this`started, this`output, this`usage, this`blockIdx, this`current
      ensures var facts := [Begin] + (if reported.Some? then [Report(reported.value)] else []) +
                           TextFacts(delta.reasoning, true) + TextFacts(delta.content, false);
              Fields() == EmitAll(old(Fields()), facts).0 && events == EmitAll(old(Fields()), facts).1
    {
      hide Emit, EmitAll;
      ghost var s := Fields();
      ghost var facts := [Begin];
      EmitOne(s, Begin);
      events := StartMessage();
      if reported.Some? {
        EmitAllSnoc(s, facts, Report(reported.value));
        ReportIsSilent(Fields(), reported.value);
        assert events + [] == events;
        facts := facts + [Report(reported.value)];
        RecordUsage(reported.value);
      }
      assert Fields() == EmitAll(s, facts).0 && events == EmitAll(s, facts).1;
      if delta.reasoning.Some? && delta.reasoning.value != "" {
        EmitAllSnoc(s, facts, Reason(delta.reasoning.value));
        EmitText(Fields(), delta.reasoning.value);
        facts := facts + [Reason(delta.reasoning.value)];
        var more := AddText(ThinkingHead, ThinkingDelta(delta.reasoning.value));
        events := events + more;
      }
      assert Fields() == EmitAll(s, facts).0 && events == EmitAll(s, facts).1;
      if delta.content.Some? && delta.content.value != "" {
        EmitAllSnoc(s, facts, Content(delta.content.value));
        EmitText(Fields(), delta.content.value);
        facts := facts + [Content(delta.content.value)];
        var more := AddText(TextHead, TextDelta(delta.content.value));
        events := events + more;
      }
      assert facts == [Begin] + (if reported.Some? then [Report(reported.value)] else []) +
                      TextFacts(delta.reasoning, true) + TextFacts(delta.content, false);
    }

    /** processEvent on a decoded payload. */
    method ProcessEvent(p: Payload) returns (events: seq<Event>)
      modifies this`started, this`finished, this`output, this`usage, this`blockIdx, this`current,
               this`lastTool, this`toolMap
      ensures Fields() == EmitAll(old(Fields()), FactsOf(p)).0
      ensures events == EmitAll(old(Fields()), FactsOf(p)).1
    {
      ghost var s := Fields();
      if p.Done? {
        events := StartAndFinish(s, [], []);
        assert [] + [Begin, Finish("end_turn")] == FactsOf(p);
        return;
      }
      if p.Malformed? {
        return [];
      }
      if p.error.Some? {
        var message := p.error.value;
        if message == "" {
          message := "upstream error";
        }
        EmitAllSnoc(s, [], Fail(message));
        assert [] + [Fail(message)] == [Fail(message)];
        events := StartAndFinish(s, [Fail(message)], [ErrorEvent(message)]);
        assert [Fail(message)] + [Begin, Finish("end_turn")] == FactsOf(p);
        return;
      }
      if |p.choices| == 0 {
        return [];
      }
      var choice := p.choices[0];
      events := ProcessChoice(choice, p.usage);
    }

    method ProcessChoice(choice: Choice, reported: Option<ChunkUsage>) returns (events: seq<Event>)
      modifies this`started, this`finished, this`output, this`usage, this`blockIdx, this`current,
               this`lastTool, this`toolMap
      ensures var facts := Before(choice, reported) + ToolsFacts(choice.delta.toolCalls) +
                           FinishFacts(choice.finishReason);
              Fields() == EmitAll(old(Fields()), facts).0 && events == EmitAll(old(Fields()), facts).1
    {
      ghost var s := Fields();
      events := ProcessTexts(choice.delta, reported);
      ghost var facts := Before(choice, reported);
      var tools := ProcessToolCalls(choice.delta.toolCalls);
      EmitAllConcat(s, facts, ToolsFacts(choice.delta.toolCalls));
      facts := facts + ToolsFacts(choice.delta.toolCalls);
      events := events + tools;
      if choice.finishReason.Some? {
        EmitAllSnoc(s, facts, Finish(MapFinishReason(choice.finishReason.value)));
        var closing := FinishStream(MapFinishReason(choice.finishReason.value));
        events := events + closing;
      } else {
        assert facts + FinishFacts(choice.finishReason) == facts;
      }
    }

    // ---- reading ----

    /** One SSE event's payload; None when the source is exhausted. */
    method ReadEvent() returns (payload: Option<Bytes>)
      modifies this`src
      ensures (payload, src) == NextEvent(old(src), [])
    {
      hide FirstLine, DataOf, TrimNewlines, Join;
      var data: seq<Bytes> := [];
      while true
        invariant NextEvent(old(src), []) == NextEvent(src, data)
        decreases |src|
      {
        var line := FirstLine(src);
        var atEnd := line == [] || line[|line| - 1] != '\n';
        src := src[|line|..];
        if |line| > 0 {
          data := data + DataOf(line);
          if TrimNewlines(line) == "" && |data| > 0 {
            return Some(Join(data, "\n"));
          }
        }
        if atEnd {
          if |data| > 0 {
            return Some(Join(data, "\n"));
          }
          return None;
        }
      }
    }

    /** One turn of the loop in Read: translate the next event, or finish at the end of the source. */
    method Fill() returns (err: ReadError)
      requires Valid() && out == "" && !done
      modifies this
      ensures Valid() && Remaining() == old(Remaining())
      ensures !err.Eof? && (err.SourceFailed? ==> end.Broken? && Remaining() == "")
      ensures err.NoError? ==> done || |src| < |old(src)|
    {
      var event := ReadEvent();
      if event.None? {
        if end.Broken? {
          return SourceFailed;
        }
        var closing := FinishStream("end_turn");
        out := Render(codec, closing);
        done := true;
      } else {
        var events := ProcessEvent(Decode(codec, event.value));
        out := Render(codec, events);
      }
      err := NoError;
    }

    /** The copy out of the buffered output at the head of Read. */
    method TakeOut(size: nat) returns (data: Bytes)
      requires out != ""
      modifies this`out
      ensures data + out == old(out)
      ensures |data| == if size < |old(out)| then size else |old(out)|
    {
      var n := if size < |out| then size else |out|;
      data := out[..n];
      out := out[n..];
    }

    /** Read into a buffer of the given size. */
    method Read(size: nat) returns (data: Bytes, err: ReadError)
      requires Valid()
      modifies this
      ensures Valid()
      ensures old(Remaining()) == data + Remaining()
      ensures |data| <= size
      ensures err.NoError? <==> old(Remaining()) != ""
      ensures err.NoError? && size > 0 ==> data != ""
      ensures err.Eof? ==> end.Clean?
      ensures err.SourceFailed? ==> end.Broken?
    {
      while true
        invariant Valid() && Remaining() == old(Remaining())
        decreases !done, |src|
      {
        if |out| > 0 {
          ghost var later := Later();
          data := TakeOut(size);
          Associate(data, out, later);
          return data, NoError;
        }
        if done {
          return "", Eof;
        }
        err := Fill();
        if !err.NoError? {
          return "", err;
        }
      }
    }
  }

  const BUFFER_SIZE := 32 * 1024

  /** copyStream without the watchdog: what the client receives of a stream. */
  method CopyStream(r: OpenAIStream, maxBodyBytes: nat) returns (written: Bytes)
    requires r.Valid()
    modifies r
    ensures written <= old(r.Remaining())
    ensures |old(r.Remaining())| <= maxBodyBytes ==> written == old(r.Remaining())
    ensures |written| <= maxBodyBytes
  {
    hide OpenAIStream.Remaining, OpenAIStream.Valid, Upcoming, Render;
    written := "";
    var total := 0;
    ghost var all, left := r.Remaining(), r.Remaining();
    while true
      invariant r.Valid() && left == r.Remaining()
      invariant all == written + left
      invariant total == |written| <= maxBodyBytes
      decreases |left|
    {
      var data, err := r.Read(BUFFER_SIZE);
      if |data| > 0 {
        total := total + |data|;
        if total > maxBodyBytes {
          return;
        }
        written := written + data;
      }
      left := r.Remaining();
      if !err.NoError? {
        return;
      }
    }
  }

  /** Any run of reads: the pieces are the next bytes of the stream, a read with room takes some as long as there
      are any, and once the end is reached every later read is at the end. */
  method ReadRun(r: OpenAIStream, sizes: seq<nat>) returns (out: Bytes, errs: seq<ReadError>)
    requires r.Valid()
    modifies r
    ensures r.Valid() && out + r.Remaining() == old(r.Remaining())
    ensures |errs| == |sizes|
    ensures forall i, j :: 0 <= i < j < |errs| && !errs[i].NoError? ==> !errs[j].NoError?
    ensures (forall i :: 0 <= i < |sizes| ==> sizes[i] > 0) ==> r.Remaining() == "" || |out| >= |sizes|
  {
    hide OpenAIStream.Remaining, OpenAIStream.Valid, Upcoming, Render;
    out, errs := "", [];
    ghost var all := r.Remaining();
    assert "" + all == all;
    for k := 0 to |sizes|
      invariant r.Valid() && out + r.Remaining() == all && |errs| == k
      invariant forall i, j :: 0 <= i < j < k && !errs[i].NoError? ==> !errs[j].NoError?
      invariant forall i :: 0 <= i < k && !errs[i].NoError? ==> r.Remaining() == ""
      invariant (forall i :: 0 <= i < |sizes| ==> sizes[i] > 0) ==> r.Remaining() == "" || |out| >= k
    {
      ghost var before := r.Remaining();
      var data, err := r.Read(sizes[k]);
      assert out + (data + r.Remaining()) == out + data + r.Remaining();
      assert before == "" ==> data == "" && r.Remaining() == "";
      out := out + data;
      errs := errs + [err];
    }
  }

  /** What the events of a source are, with the finish that only a clean end brings. */
  function Written(c: Codec, model: Bytes, messageId: Bytes, source: Bytes, end: SourceEnd): seq<Event> {
    var ps := DecodeAll(c, Payloads(source));
    if end.Clean? then Output(model, messageId, ps) else EmitAll(Fresh(model, messageId), FactsOfAll(ps)).1
  }

  /** Exactly one message_stop comes out of a source that ends, at most one of a source that breaks off. */
  lemma OneStop(c: Codec, model: Bytes, messageId: Bytes, source: Bytes, end: SourceEnd)
    ensures var events := Written(c, model, messageId, source, end);
            && Upcoming(c, Fresh(model, messageId), source, end) == Render(c, events)
            && ObserveAll(NEW_OBSERVER, events).disciplined
            && Count(events, MessageStops) <= 1 && (end.Clean? ==> Count(events, MessageStops) == 1)
  {
    hide Upcoming, Render, EmitAll, ObserveAll, Count;
    var ps := DecodeAll(c, Payloads(source));
    UpcomingIsFold(c, Fresh(model, messageId), source, end);
    if end.Clean? {
      BlockDiscipline(model, messageId, ps);
    } else {
      assert FactsOfAll(ps) + [] == FactsOfAll(ps);
      StreamRuns.BrokenOffDiscipline(model, messageId, ps);
    }
  }

  lemma WireFramable(c: Codec, events: seq<Event>)
    requires forall e: Event :: '\n' !in c.encode(e) && TrimSpace(c.encode(e)) == c.encode(e)
    ensures forall w :: w in Wire(c, events) ==> Framable(w)
  {
    forall i | 0 <= i < |events| ensures Framable(Wire(c, events)[i]) {
      var e := events[i];
      assert '\n' !in EventType(e);
    }
  }

  /** A client that parses the bytes of a stream reads exactly the translated events, in order. */
  lemma ClientReadsEvents(c: Codec, model: Bytes, messageId: Bytes, source: Bytes)
    requires forall e: Event :: '\n' !in c.encode(e) && TrimSpace(c.encode(e)) == c.encode(e)
    ensures var events := Output(model, messageId, DecodeAll(c, Payloads(source)));
            Payloads(Upcoming(c, Fresh(model, messageId), source, Clean)) ==
            seq(|events|, i requires 0 <= i < |events| => c.encode(events[i]))
  {
    var events := Output(model, messageId, DecodeAll(c, Payloads(source)));
    UpcomingIsFold(c, Fresh(model, messageId), source, Clean);
    WireFramable(c, events);
    FramesRoundTrip(Wire(c, events));
  }

  /** How the events of the source are framed does not matter: line ends, comments, other fields and the
      splitting of data into lines change nothing as long as the payloads decode to the same. */
  lemma OnlyPayloadsMatter(c: Codec, s: State, a: Bytes, b: Bytes, end: SourceEnd)
    requires DecodeAll(c, Payloads(a)) == DecodeAll(c, Payloads(b))
    ensures Upcoming(c, s, a, end) == Upcoming(c, s, b, end)
  {
    UpcomingIsFold(c, s, a, end);
    UpcomingIsFold(c, s, b, end);
  }
}
