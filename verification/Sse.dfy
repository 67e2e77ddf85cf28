/** Server-sent event framing as the stream reader understands it (stream.go:84-112). */
module Sse {
  import opened Text

  /** ReadString('\n'): the first line with its newline, or all that is left. */
  function FirstLine(src: Bytes): (line: Bytes)
    ensures line <= src
    ensures src != [] ==> line != []
    ensures line == [] || line[|line| - 1] != '\n' ==> line == src
  {
    var i := IndexByte(src, '\n');
    if i < |src| then src[..i + 1] else src
  }

  function DataOf(line: Bytes): seq<Bytes> {
    var trimmed := TrimNewlines(line);
    if HasPrefix(trimmed, "data:") then [TrimSpace(trimmed[5..])] else []
  }

  /** The payload of the next event, given the data lines already read, and the bytes after it. */
  function NextEvent(src: Bytes, data: seq<Bytes>): (r: (Option<Bytes>, Bytes))
    ensures r.0.None? ==> r.1 == [] && data == []
    ensures |r.1| <= |src|
    ensures r.0.Some? && data == [] ==> |r.1| < |src|
    decreases |src|
  {
    if src == [] then (if data == [] then None else Some(Join(data, "\n")), [])
    else
      var line := FirstLine(src);
      var rest := src[|line|..];
      var data' := data + DataOf(line);
      if TrimNewlines(line) == "" && data' != [] then (Some(Join(data', "\n")), rest)
      else NextEvent(rest, data')
  }

  /** The payloads of all events in a byte stream. */
  function Payloads(src: Bytes): seq<Bytes>
    decreases |src|
  {
    var (payload, rest) := NextEvent(src, []);
    if payload.None? then [] else [payload.value] + Payloads(rest)
  }

  /** emit: one event with its type line, its data line and the blank line. */
  function Frame(eventType: Bytes, json: Bytes): Bytes {
    ("event: " + eventType) + "\n" + ("data: " + json) + "\n" + "\n"
  }

  function Frames(events: seq<(Bytes, Bytes)>): Bytes {
    if events == [] then "" else Frame(events[0].0, events[0].1) + Frames(events[1..])
  }

  lemma {:induction false} FramesConcat(a: seq<(Bytes, Bytes)>, b: seq<(Bytes, Bytes)>)
    ensures Frames(a + b) == Frames(a) + Frames(b)
    decreases |a|
  {
    if a == [] {
      assert a + b == b;
    } else {
      assert (a + b)[1..] == a[1..] + b;
      FramesConcat(a[1..], b);
    }
  }

  /** A type with no newline, and a payload with no newline and no white space around it. */
  predicate Framable(e: (Bytes, Bytes)) {
    '\n' !in e.0 && '\n' !in e.1 && TrimSpace(e.1) == e.1
  }

  lemma LineSplit(line: Bytes, rest: Bytes)
    requires '\n' !in line
    ensures FirstLine(line + "\n" + rest) == line + "\n"
    ensures (line + "\n" + rest)[|line| + 1..] == rest
  {
    var src := line + "\n" + rest;
    forall j | 0 <= j < |line| ensures src[j] != '\n' {
      assert src[j] == line[j];
    }
    IndexByteUnique(src, '\n', |line|);
  }

  /** A line whose last byte is no carriage return keeps everything but its newline. */
  lemma TrimOneNewline(line: Bytes)
    requires line == [] || line[|line| - 1] !in {'\r', '\n'}
    ensures TrimNewlines(line + "\n") == line
  {
    assert (line + "\n")[..|line|] == line;
  }

  lemma LeadingSpace(s: Bytes)
    ensures TrimSpace(" " + s) == TrimSpace(s)
  {
    assert (" " + s)[1..] == s;
  }

  lemma DataTrims(json: Bytes)
    requires TrimSpace(json) == json
    ensures TrimNewlines("data: " + json + "\n") == "data: " + json
  {
    TrimmedEnds(json);
    var line := "data: " + json;
    assert line[|line| - 1] == if json == [] then ' ' else json[|json| - 1];
    TrimOneNewline(line);
  }

  lemma DataLine(json: Bytes)
    requires TrimSpace(json) == json && '\n' !in json
    ensures TrimNewlines("data: " + json + "\n") != "" && '\n' !in "data: " + json
    ensures DataOf("data: " + json + "\n") == [json]
  {
    hide TrimNewlines, TrimSpace;
    DataTrims(json);
    var line := "data: " + json;
    assert line[..5] == "data:" && line[5..] == " " + json;
    LeadingSpace(json);
  }

  lemma TypeLine(eventType: Bytes)
    requires '\n' !in eventType
    ensures TrimNewlines("event: " + eventType + "\n") != "" && '\n' !in "event: " + eventType
    ensures DataOf("event: " + eventType + "\n") == []
  {
    var line := "event: " + eventType + "\n";
    TrimKeepsFront(line, 6);
    assert line[0] == 'e';
  }

  lemma {:induction false} TrimKeepsFront(line: Bytes, n: nat)
    requires 0 < n <= |line| && line[n - 1] !in {'\r', '\n'}
    ensures |TrimNewlines(line)| >= n
    decreases |line|
  {
    if |line| > n && line[|line| - 1] in {'\r', '\n'} {
      TrimKeepsFront(line[..|line| - 1], n);
    }
  }

  /** Reading one complete line. */
  lemma ReadLine(line: Bytes, rest: Bytes, data: seq<Bytes>)
    requires '\n' !in line
    ensures var data' := data + DataOf(line + "\n");
            NextEvent(line + "\n" + rest, data) ==
            if TrimNewlines(line + "\n") == "" && data' != [] then (Some(Join(data', "\n")), rest)
            else NextEvent(rest, data')
  {
    LineSplit(line, rest);
  }

  lemma BlankLine()
    ensures TrimNewlines("\n") == "" && DataOf("\n") == []
  {
    TrimOneNewline("");
    assert "" + "\n" == "\n";
  }

  lemma FrameLines(a: Bytes, b: Bytes, rest: Bytes)
    ensures a + "\n" + b + "\n" + "\n" + rest == a + "\n" + (b + "\n" + ("" + "\n" + rest))
  {}

  /** An ignored line, a data line and a blank line make one event. */
  lemma ThreeLines(a: Bytes, b: Bytes, rest: Bytes, json: Bytes)
    requires '\n' !in a && '\n' !in b
    requires TrimNewlines(a + "\n") != "" && DataOf(a + "\n") == []
    requires TrimNewlines(b + "\n") != "" && DataOf(b + "\n") == [json]
    ensures NextEvent(a + "\n" + (b + "\n" + ("" + "\n" + rest)), []) == (Some(json), rest)
  {
    ReadLine(a, b + "\n" + ("" + "\n" + rest), []);
    ReadLine(b, "" + "\n" + rest, []);
    assert [] + [json] == [json];
    BlankLine();
    assert "" + "\n" == "\n";
    ReadLine("", rest, [json]);
    assert Join([json], "\n") == json;
  }

  lemma FrameRead(e: (Bytes, Bytes), rest: Bytes)
    requires Framable(e)
    ensures NextEvent(Frame(e.0, e.1) + rest, []) == (Some(e.1), rest)
  {
    TypeLine(e.0);
    DataLine(e.1);
    FrameLines("event: " + e.0, "data: " + e.1, rest);
    ThreeLines("event: " + e.0, "data: " + e.1, rest, e.1);
  }

  /** Reading back framed events recovers their payloads, in order, and nothing else. */
  lemma {:induction false} FramesRoundTrip(events: seq<(Bytes, Bytes)>)
    requires forall e :: e in events ==> Framable(e)
    ensures Payloads(Frames(events)) == seq(|events|, i requires 0 <= i < |events| => events[i].1)
    decreases |events|
  {
    hide NextEvent, Frame, Framable, Payloads;
    if events == [] {
      NoPayloads();
    } else {
      assert events[0] in events;
      FrameRead(events[0], Frames(events[1..]));
      PayloadFront(Frames(events), events[0].1, Frames(events[1..]));
      FramesRoundTrip(events[1..]);
    }
  }

  lemma NoPayloads()
    ensures Payloads("") == []
  {
  }

  lemma PayloadFront(src: Bytes, payload: Bytes, rest: Bytes)
    requires NextEvent(src, []) == (Some(payload), rest)
    ensures Payloads(src) == [payload] + Payloads(rest)
  {
    hide NextEvent;
  }
}
