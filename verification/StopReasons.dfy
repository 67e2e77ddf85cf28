/** What a stream tells about its end: the one stop reason and the error messages, as a function of the upstream
    payloads alone (internal/wire/stream.go:29-43, 182-264, 356-358). */
module StopReasons {
  import opened Text
  import opened Events
  import opened Stream

  /** How a stream ends first: with the finish reason of a processed choice, or otherwise ([DONE], an error, the
      end of the source). */
  datatype End = Finished(reason: Bytes) | Otherwise

  function EndOf(p: Payload): Option<End> {
    match p
    case Done => Some(Otherwise)
    case Malformed => None
    case Chunk(error, choices, _) =>
      if error.Some? then Some(Otherwise)
      else if choices != [] && choices[0].finishReason.Some? then Some(Finished(choices[0].finishReason.value))
      else None
  }

  function FirstEnd(ps: seq<Payload>): End {
    if ps == [] then Otherwise
    else
      match EndOf(ps[0])
      case Some(e) => e
      case None => FirstEnd(ps[1..])
  }

  /** The stop reasons in the message_delta events. */
  function Told(events: seq<Event>): seq<Bytes> {
    if events == [] then []
    else (if events[0].MessageDelta? then [events[0].stopReason] else []) + Told(events[1..])
  }

  /** The reason of the first finish. */
  function FirstReason(facts: seq<Fact>): Option<Bytes> {
    if facts == [] then None
    else if facts[0].Finish? then Some(facts[0].stopReason)
    else FirstReason(facts[1..])
  }

  lemma {:induction false} ToldConcat(a: seq<Event>, b: seq<Event>)
    ensures Told(a + b) == Told(a) + Told(b)
    decreases |a|
  {
    if a == [] {
      assert a + b == b;
    } else {
      assert (a + b)[1..] == a[1..] + b;
      ToldConcat(a[1..], b);
      var first := if a[0].MessageDelta? then [a[0].stopReason] else [];
      assert first + (Told(a[1..]) + Told(b)) == first + Told(a[1..]) + Told(b);
    }
  }

  lemma {:induction false} NothingTold(events: seq<Event>)
    requires forall e :: e in events ==> !e.MessageDelta?
    ensures Told(events) == []
  {
    if events != [] {
      assert events[0] in events;
      NothingTold(events[1..]);
    }
  }

  lemma ClosingTellsNothing(s: State)
    ensures forall e :: e in CloseEvents(s) ==> !e.MessageDelta?
  {
  }

  lemma StepTold(s: State, f: Fact)
    ensures Told(Emit(s, f).1) == if f.Finish? && !s.finished then [f.stopReason] else []
    ensures Emit(s, f).0.finished <==> s.finished || f.Finish?
  {
    hide CloseEvents;
    ClosingTellsNothing(s);
    if f.Finish? && !s.finished {
      var end := [MessageDelta(f.stopReason, s.output), MessageStop];
      NothingTold(CloseEvents(s));
      ToldConcat(CloseEvents(s), end);
      assert end[1..] == [MessageStop] && end[1..][1..] == [];
      assert Told(end[1..]) == [];
    } else {
      NothingTold(Emit(s, f).1);
    }
  }

  lemma {:induction false} RunTold(s: State, facts: seq<Fact>)
    ensures Told(EmitAll(s, facts).1) ==
            if s.finished || FirstReason(facts).None? then [] else [FirstReason(facts).value]
    decreases |facts|
  {
    hide Emit, Told;
    if facts == [] {
      NothingTold([]);
    } else {
      var (s1, events) := Emit(s, facts[0]);
      StepTold(s, facts[0]);
      RunTold(s1, facts[1..]);
      ToldConcat(events, EmitAll(s1, facts[1..]).1);
    }
  }

  lemma {:induction false} ReasonOfConcat(a: seq<Fact>, b: seq<Fact>)
    ensures FirstReason(a + b) == if FirstReason(a).Some? then FirstReason(a) else FirstReason(b)
    decreases |a|
  {
    if a == [] {
      assert a + b == b;
    } else {
      assert (a + b)[1..] == a[1..] + b;
      ReasonOfConcat(a[1..], b);
    }
  }

  lemma {:induction false} NoReason(facts: seq<Fact>)
    requires forall f :: f in facts ==> !f.Finish?
    ensures FirstReason(facts).None?
  {
    if facts != [] {
      assert facts[0] in facts;
      NoReason(facts[1..]);
    }
  }

  lemma {:induction false} ToolsDoNotFinish(tcs: seq<ToolCallDelta>)
    ensures forall f :: f in ToolsFacts(tcs) ==> !f.Finish?
  {
    if tcs != [] {
      ToolsDoNotFinish(tcs[..|tcs| - 1]);
    }
  }

  /** The stop reason that stands for an end, written out. */
  predicate Means(e: End, stop: Bytes) {
    if e == Finished("length") then stop == "max_tokens"
    else if e == Finished("tool_calls") || e == Finished("function_call") then stop == "tool_use"
    else if e == Finished("content_filter") then stop == "content_filter"
    else stop == "end_turn"
  }

  lemma PayloadReason(p: Payload)
    ensures EndOf(p).None? ==> FirstReason(FactsOf(p)).None?
    ensures EndOf(p).Some? ==> FirstReason(FactsOf(p)).Some? && Means(EndOf(p).value, FirstReason(FactsOf(p)).value)
  {
    if p.Done? {
      assert FactsOf(p)[1..] == [Finish("end_turn")];
    } else if p.Chunk? && p.error.Some? {
      var facts := FactsOf(p);
      assert facts[1..] == [Begin, Finish("end_turn")] && facts[1..][1..] == [Finish("end_turn")];
      assert FirstReason(facts[1..][1..]) == Some("end_turn");
      assert FirstReason(facts[1..]) == Some("end_turn");
    } else if p.Chunk? && p.choices != [] {
      ChoiceReason(p);
    }
  }

  lemma ChoiceReason(p: Payload)
    requires p.Chunk? && p.error.None? && p.choices != []
    ensures FirstReason(FactsOf(p)) ==
            if p.choices[0].finishReason.None? then None else Some(MapFinishReason(p.choices[0].finishReason.value))
  {
    hide MapFinishReason;
    var c := p.choices[0];
    var before := Before(c, p.usage);
    ToolsDoNotFinish(c.delta.toolCalls);
    NoReason(before);
    NoReason(ToolsFacts(c.delta.toolCalls));
    ReasonOfConcat(before, ToolsFacts(c.delta.toolCalls));
    ReasonOfConcat(before + ToolsFacts(c.delta.toolCalls), FinishFacts(c.finishReason));
    assert FactsOf(p) == before + ToolsFacts(c.delta.toolCalls) + FinishFacts(c.finishReason);
  }

  lemma {:induction false} StreamReason(ps: seq<Payload>)
    ensures FirstReason(FactsOfStream(ps)).Some? && Means(FirstEnd(ps), FirstReason(FactsOfStream(ps)).value)
  {
    hide FactsOf, EndOf, Means;
    if ps == [] {
      EndMeans();
      assert FactsOfStream([]) == [Finish("end_turn")];
    } else {
      PayloadReason(ps[0]);
      StreamReason(ps[1..]);
      assert FactsOfStream(ps) == FactsOf(ps[0]) + FactsOfStream(ps[1..]);
      ReasonOfConcat(FactsOf(ps[0]), FactsOfStream(ps[1..]));
    }
  }

  lemma EndMeans()
    ensures Means(Otherwise, "end_turn")
  {
  }

  /** The client is told exactly one stop reason: "max_tokens" when the first end is the finish reason "length",
      "tool_use" when it is "tool_calls" or "function_call", "content_filter" when it is that, and "end_turn" for
      every other reason and for every other end. */
  lemma StopReasonTold(model: Bytes, messageId: Bytes, ps: seq<Payload>)
    ensures var told, end := Told(Output(model, messageId, ps)), FirstEnd(ps);
            && |told| == 1
            && (told[0] == "max_tokens" <==> end == Finished("length"))
            && (told[0] == "tool_use" <==> end == Finished("tool_calls") || end == Finished("function_call"))
            && (told[0] == "content_filter" <==> end == Finished("content_filter"))
            && (told[0] == "end_turn" <==>
                  end !in {Finished("length"), Finished("tool_calls"), Finished("function_call"),
                           Finished("content_filter")})
  {
    hide FactsOfStream, FirstEnd, FirstReason, EmitAll, Told;
    RunTold(Fresh(model, messageId), FactsOfStream(ps));
    StreamReason(ps);
  }

  // ---- error messages ----

  /** The messages of the error events. */
  function ErrorsTold(events: seq<Event>): seq<Bytes> {
    if events == [] then []
    else (if events[0].ErrorEvent? then [events[0].message] else []) + ErrorsTold(events[1..])
  }

  /** The messages of the error payloads, with a stand-in for an empty one. */
  function ErrorsSent(ps: seq<Payload>): seq<Bytes> {
    if ps == [] then []
    else
      (if !ps[0].Chunk? || ps[0].error.None? then []
       else if ps[0].error == Some("") then ["upstream error"]
       else [ps[0].error.value]) +
      ErrorsSent(ps[1..])
  }

  function Failures(facts: seq<Fact>): seq<Bytes> {
    if facts == [] then [] else (if facts[0].Fail? then [facts[0].message] else []) + Failures(facts[1..])
  }

  lemma {:induction false} ErrorsConcat(a: seq<Event>, b: seq<Event>)
    ensures ErrorsTold(a + b) == ErrorsTold(a) + ErrorsTold(b)
    decreases |a|
  {
    if a == [] {
      assert a + b == b;
    } else {
      assert (a + b)[1..] == a[1..] + b;
      ErrorsConcat(a[1..], b);
      var first := if a[0].ErrorEvent? then [a[0].message] else [];
      assert first + (ErrorsTold(a[1..]) + ErrorsTold(b)) == first + ErrorsTold(a[1..]) + ErrorsTold(b);
    }
  }

  lemma {:induction false} FailuresConcat(a: seq<Fact>, b: seq<Fact>)
    ensures Failures(a + b) == Failures(a) + Failures(b)
    decreases |a|
  {
    if a == [] {
      assert a + b == b;
    } else {
      assert (a + b)[1..] == a[1..] + b;
      FailuresConcat(a[1..], b);
      var first := if a[0].Fail? then [a[0].message] else [];
      assert first + (Failures(a[1..]) + Failures(b)) == first + Failures(a[1..]) + Failures(b);
    }
  }

  lemma {:induction false} NoErrors(events: seq<Event>)
    requires forall e :: e in events ==> !e.ErrorEvent?
    ensures ErrorsTold(events) == []
  {
    if events != [] {
      assert events[0] in events;
      NoErrors(events[1..]);
    }
  }

  lemma {:induction false} NoFailures(facts: seq<Fact>)
    requires forall f :: f in facts ==> !f.Fail?
    ensures Failures(facts) == []
  {
    if facts != [] {
      assert facts[0] in facts;
      NoFailures(facts[1..]);
    }
  }

  lemma StepErrors(s: State, f: Fact)
    ensures ErrorsTold(Emit(s, f).1) == if f.Fail? then [f.message] else []
  {
    if f.Fail? {
      assert Emit(s, f).1[1..] == [];
    } else {
      var closing := CloseEvents(s);
      assert forall e :: e in closing ==> !e.ErrorEvent?;
      NoErrors(Emit(s, f).1);
    }
  }

  lemma {:induction false} RunErrors(s: State, facts: seq<Fact>)
    ensures ErrorsTold(EmitAll(s, facts).1) == Failures(facts)
    decreases |facts|
  {
    hide Emit;
    if facts != [] {
      var (s1, events) := Emit(s, facts[0]);
      StepErrors(s, facts[0]);
      RunErrors(s1, facts[1..]);
      ErrorsConcat(events, EmitAll(s1, facts[1..]).1);
    }
  }

  lemma {:induction false} ToolsDoNotFail(tcs: seq<ToolCallDelta>)
    ensures forall f :: f in ToolsFacts(tcs) ==> !f.Fail?
  {
    if tcs != [] {
      ToolsDoNotFail(tcs[..|tcs| - 1]);
    }
  }

  lemma PayloadErrors(p: Payload)
    ensures Failures(FactsOf(p)) ==
            if !p.Chunk? || p.error.None? then []
            else if p.error == Some("") then ["upstream error"]
            else [p.error.value]
  {
    if p.Chunk? && p.error.Some? {
      NoFailures(FactsOf(p)[1..]);
    } else if p.Chunk? && p.choices != [] {
      ChoiceDoesNotFail(p);
    } else {
      NoFailures(FactsOf(p));
    }
  }

  lemma ChoiceDoesNotFail(p: Payload)
    requires p.Chunk? && p.error.None? && p.choices != []
    ensures Failures(FactsOf(p)) == []
  {
    hide Failures, ToolsFacts;
    var c := p.choices[0];
    var before, tools, finish := Before(c, p.usage), ToolsFacts(c.delta.toolCalls), FinishFacts(c.finishReason);
    ToolsDoNotFail(c.delta.toolCalls);
    NoFailures(before);
    NoFailures(tools);
    NoFailures(finish);
    FailuresConcat(before, tools);
    FailuresConcat(before + tools, finish);
    assert FactsOf(p) == before + tools + finish;
  }

  lemma {:induction false} StreamErrors(ps: seq<Payload>)
    ensures Failures(FactsOfAll(ps)) == ErrorsSent(ps)
  {
    hide FactsOf, Failures;
    if ps == [] {
      NoFailures([]);
    } else {
      PayloadErrors(ps[0]);
      StreamErrors(ps[1..]);
      FailuresConcat(FactsOf(ps[0]), FactsOfAll(ps[1..]));
    }
  }

  /** The client is told the message of every error payload, in order, and no other error. */
  lemma EveryErrorTold(model: Bytes, messageId: Bytes, ps: seq<Payload>)
    ensures ErrorsTold(Output(model, messageId, ps)) == ErrorsSent(ps)
  {
    hide FactsOfAll, EmitAll, ErrorsTold, ErrorsSent;
    var last := [Finish("end_turn")];
    RunErrors(Fresh(model, messageId), FactsOfStream(ps));
    FailuresConcat(FactsOfAll(ps), last);
    NoFailures(last);
    StreamErrors(ps);
    assert ErrorsSent(ps) + [] == ErrorsSent(ps);
  }
}
