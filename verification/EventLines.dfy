/** What the reader makes of any event stream, line by line, whatever ends the lines
    (internal/wire/stream.go:84-105). */
module EventLines {
  import opened Text
  import opened Sse

  /** A line of an event stream, without its end; `crs` carriage returns stand before its newline. */
  datatype Line = DataLine(text: Bytes, crs: nat) | OtherLine(text: Bytes, crs: nat) | BlankLine(crs: nat)

  /** The bytes before the end of a line. */
  function Body(l: Line): Bytes {
    match l
    case DataLine(text, _) => "data:" + text
    case OtherLine(text, _) => text
    case BlankLine(_) => ""
  }

  function Crs(n: nat): Bytes {
    if n == 0 then "" else Crs(n - 1) + "\r"
  }

  function LineBytes(l: Line): Bytes {
    Body(l) + Crs(l.crs) + "\n"
  }

  function StreamBytes(lines: seq<Line>): Bytes {
    if lines == [] then "" else LineBytes(lines[0]) + StreamBytes(lines[1..])
  }

  /** A line has no newline inside, its carriage returns at the end are counted, and a line of another kind is
      neither blank nor data: a comment or another field. */
  predicate IsLine(l: Line) {
    && '\n' !in Body(l)
    && (Body(l) != "" ==> Body(l)[|Body(l)| - 1] != '\r')
    && (l.OtherLine? ==> l.text != "" && !HasPrefix(l.text, "data:"))
  }

  /** The events of a stream: at a blank line the data lines since the last one, trimmed and joined, if there are
      any; and those that are left at the end. */
  function EventsOf(lines: seq<Line>, pending: seq<Bytes>): seq<Bytes>
    decreases |lines|
  {
    if lines == [] then (if pending == [] then [] else [Join(pending, "\n")])
    else if lines[0].DataLine? then EventsOf(lines[1..], pending + [TrimSpace(lines[0].text)])
    else if lines[0].OtherLine? then EventsOf(lines[1..], pending)
    else (if pending == [] then [] else [Join(pending, "\n")]) + EventsOf(lines[1..], [])
  }

  lemma {:induction false} CrsTrimmed(body: Bytes, n: nat)
    requires body != "" ==> body[|body| - 1] !in {'\r', '\n'}
    ensures TrimNewlines(body + Crs(n)) == body
  {
    if n == 0 {
      assert body + "" == body;
    } else {
      CrsTrimmed(body, n - 1);
      var s := body + Crs(n);
      assert s[|s| - 1] == '\r' && s[..|s| - 1] == body + Crs(n - 1);
    }
  }

  lemma {:induction false} NoNewlineInCrs(n: nat)
    ensures '\n' !in Crs(n)
  {
    if n > 0 {
      NoNewlineInCrs(n - 1);
    }
  }

  lemma LineTrimmed(l: Line)
    requires IsLine(l)
    ensures '\n' !in Body(l) + Crs(l.crs)
    ensures TrimNewlines(Body(l) + Crs(l.crs) + "\n") == Body(l)
  {
    var s := Body(l) + Crs(l.crs);
    NoNewlineInCrs(l.crs);
    CrsTrimmed(Body(l), l.crs);
    assert (s + "\n")[..|s|] == s && (s + "\n")[|s|] == '\n';
    assert Body(l) != "" ==> Body(l)[|Body(l)| - 1] in Body(l);
  }

  lemma LineData(l: Line)
    requires IsLine(l)
    ensures DataOf(LineBytes(l)) == if l.DataLine? then [TrimSpace(l.text)] else []
    ensures TrimNewlines(LineBytes(l)) == "" <==> l.BlankLine?
  {
    hide TrimNewlines, TrimSpace;
    LineTrimmed(l);
    if l.DataLine? {
      assert ("data:" + l.text)[5..] == l.text;
    }
  }

  /** Reading one line of a stream. */
  lemma LineRead(l: Line, rest: Bytes, pending: seq<Bytes>)
    requires IsLine(l)
    ensures NextEvent(LineBytes(l) + rest, pending) ==
            if l.DataLine? then NextEvent(rest, pending + [TrimSpace(l.text)])
            else if l.OtherLine? || pending == [] then NextEvent(rest, pending)
            else (Some(Join(pending, "\n")), rest)
  {
    hide NextEvent, TrimNewlines, TrimSpace, DataOf, IsLine;
    LineTrimmed(l);
    LineData(l);
    ReadLine(Body(l) + Crs(l.crs), rest, pending);
    assert pending + [] == pending;
  }

  /** The events from here on, with data lines already read. */
  function Onwards(src: Bytes, pending: seq<Bytes>): seq<Bytes> {
    var (payload, rest) := NextEvent(src, pending);
    if payload.None? then [] else [payload.value] + Payloads(rest)
  }

  lemma OnwardsFresh(src: Bytes)
    ensures Onwards(src, []) == Payloads(src)
  {
    hide NextEvent;
  }

  lemma OnwardsEnd(pending: seq<Bytes>)
    ensures Onwards("", pending) == if pending == [] then [] else [Join(pending, "\n")]
  {
    assert NextEvent("", []) == (None, "");
    assert Payloads("") == [];
  }

  lemma {:induction false} LinesRead(lines: seq<Line>, pending: seq<Bytes>)
    requires forall l :: l in lines ==> IsLine(l)
    ensures Onwards(StreamBytes(lines), pending) == EventsOf(lines, pending)
    decreases |lines|
  {
    hide IsLine, LineBytes, TrimSpace, NextEvent, Payloads;
    if lines == [] {
      OnwardsEnd(pending);
    } else {
      var l, rest := lines[0], StreamBytes(lines[1..]);
      assert l in lines;
      LineRead(l, rest, pending);
      if l.DataLine? {
        LinesRead(lines[1..], pending + [TrimSpace(l.text)]);
      } else if l.OtherLine? {
        LinesRead(lines[1..], pending);
      } else {
        LinesRead(lines[1..], []);
        OnwardsFresh(rest);
        assert [] + EventsOf(lines[1..], []) == EventsOf(lines[1..], []);
      }
    }
  }

  /** For every stream of complete lines, with any ends and any other lines among them, the payloads read are
      exactly its events. */
  lemma EveryLineRead(lines: seq<Line>)
    requires forall l :: l in lines ==> IsLine(l)
    ensures Payloads(StreamBytes(lines)) == EventsOf(lines, [])
  {
    hide Payloads, StreamBytes, IsLine, EventsOf, Onwards;
    LinesRead(lines, []);
    OnwardsFresh(StreamBytes(lines));
  }

  // ---- events one after the other ----

  /** An event: its lines, some of them data and none blank, and the blank line behind it. */
  datatype WireEvent = WireEvent(lines: seq<Line>, blankCrs: nat)

  predicate IsEvent(e: WireEvent) {
    && (forall l :: l in e.lines ==> IsLine(l) && !l.BlankLine?)
    && (exists l :: l in e.lines && l.DataLine?)
  }

  /** The data lines of an event, trimmed. */
  function DataTexts(lines: seq<Line>): seq<Bytes> {
    if lines == [] then []
    else (if lines[0].DataLine? then [TrimSpace(lines[0].text)] else []) + DataTexts(lines[1..])
  }

  function EventLinesOf(events: seq<WireEvent>): seq<Line> {
    if events == [] then [] else events[0].lines + [BlankLine(events[0].blankCrs)] + EventLinesOf(events[1..])
  }

  lemma {:induction false} EventGathered(lines: seq<Line>, crs: nat, rest: seq<Line>, pending: seq<Bytes>)
    requires forall l :: l in lines ==> !l.BlankLine?
    requires pending + DataTexts(lines) != []
    ensures EventsOf(lines + [BlankLine(crs)] + rest, pending) ==
            [Join(pending + DataTexts(lines), "\n")] + EventsOf(rest, [])
    decreases |lines|
  {
    var all := lines + [BlankLine(crs)] + rest;
    if lines == [] {
      assert all[1..] == rest && pending + [] == pending;
    } else {
      hide TrimSpace, Join;
      var l, more := lines[0], lines[1..];
      assert l in lines && all[1..] == more + [BlankLine(crs)] + rest;
      var pending' := pending + (if l.DataLine? then [TrimSpace(l.text)] else []);
      assert pending' + DataTexts(more) == pending + DataTexts(lines);
      assert pending + [] == pending;
      EventGathered(more, crs, rest, pending');
    }
  }

  lemma {:induction false} SomeData(lines: seq<Line>)
    requires exists l :: l in lines && l.DataLine?
    ensures DataTexts(lines) != []
  {
    hide TrimSpace;
    if !lines[0].DataLine? {
      var l :| l in lines && l.DataLine?;
      assert l in lines[1..];
      SomeData(lines[1..]);
    }
  }

  /** Each event gives one payload: its data lines, trimmed and joined with newlines. */
  lemma {:induction false} EventsGathered(events: seq<WireEvent>)
    requires forall e :: e in events ==> IsEvent(e)
    ensures EventsOf(EventLinesOf(events), []) ==
            seq(|events|, i requires 0 <= i < |events| => Join(DataTexts(events[i].lines), "\n"))
    decreases |events|
  {
    hide EventsOf, DataTexts, Join;
    if events == [] {
      NoEvents();
    } else {
      var e := events[0];
      assert e in events;
      SomeData(e.lines);
      assert [] + DataTexts(e.lines) == DataTexts(e.lines);
      EventGathered(e.lines, e.blankCrs, EventLinesOf(events[1..]), []);
      EventsGathered(events[1..]);
    }
  }

  lemma NoEvents()
    ensures EventsOf([], []) == []
  {
  }

  lemma {:induction false} AllLines(events: seq<WireEvent>)
    requires forall e :: e in events ==> IsEvent(e)
    ensures forall l :: l in EventLinesOf(events) ==> IsLine(l)
  {
    if events != [] {
      assert events[0] in events;
      AllLines(events[1..]);
    }
  }

  /** Any list of events, with LF or CRLF ends, comments and other fields between the data, is read back. */
  lemma EventsReadBack(events: seq<WireEvent>)
    requires forall e :: e in events ==> IsEvent(e)
    ensures Payloads(StreamBytes(EventLinesOf(events))) ==
            seq(|events|, i requires 0 <= i < |events| => Join(DataTexts(events[i].lines), "\n"))
  {
    hide Payloads, StreamBytes, IsEvent, EventsOf, EventLinesOf, DataTexts, Join;
    AllLines(events);
    EveryLineRead(EventLinesOf(events));
    EventsGathered(events);
  }

  const CRLF_LINES: seq<Line> := [DataLine(" A", 1), BlankLine(1), DataLine(" B", 1), BlankLine(1)]

  lemma CrlfBytes()
    ensures StreamBytes(CRLF_LINES) == "data: A\r\n\r\ndata: B\r\n\r\n"
  {
    var lines := CRLF_LINES;
    assert Crs(1) == "\r";
    assert LineBytes(lines[0]) == "data: A\r\n" && LineBytes(lines[2]) == "data: B\r\n";
    assert LineBytes(lines[1]) == "\r\n";
    FourLines(lines);
  }

  lemma FourLines(lines: seq<Line>)
    requires |lines| == 4
    ensures StreamBytes(lines) == LineBytes(lines[0]) + LineBytes(lines[1]) + LineBytes(lines[2]) + LineBytes(lines[3])
  {
    hide LineBytes;
    StreamStep(lines, 0);
    StreamStep(lines, 1);
    StreamStep(lines, 2);
    StreamStep(lines, 3);
    assert lines[4..] == [] && lines[0..] == lines;
  }

  lemma StreamStep(lines: seq<Line>, i: nat)
    requires i < |lines|
    ensures StreamBytes(lines[i..]) == LineBytes(lines[i]) + StreamBytes(lines[i + 1..])
  {
    hide LineBytes;
    assert lines[i..][1..] == lines[i + 1..];
  }

  lemma CrlfEvents()
    ensures EventsOf(CRLF_LINES, []) == ["A", "B"]
  {
    hide TrimSpace;
    var lines := CRLF_LINES;
    TrimOne('A');
    TrimOne('B');
    assert lines[1..][1..] == lines[2..] && lines[2..][1..] == lines[3..] && lines[3..][1..] == [];
    assert EventsOf(lines[3..], ["B"]) == ["B"];
    assert EventsOf(lines[2..], []) == EventsOf(lines[3..], [] + ["B"]) && [] + ["B"] == ["B"];
    assert EventsOf(lines[1..], ["A"]) == ["A"] + EventsOf(lines[2..], []);
    assert EventsOf(lines, []) == EventsOf(lines[1..], [] + ["A"]) && [] + ["A"] == ["A"];
  }

  /** Two events with CRLF ends stay two events. */
  lemma CrlfSeparates()
    ensures Payloads("data: A\r\n\r\ndata: B\r\n\r\n") == ["A", "B"]
  {
    hide Payloads, StreamBytes, EventsOf;
    CrlfBytes();
    CrlfEvents();
    EveryLineRead(CRLF_LINES);
  }

  lemma TrimOne(c: char)
    requires c in {'A', 'B'}
    ensures TrimSpace([' ', c]) == [c]
  {
    hide TrimSpace, SpaceAt, SpaceEnd;
    assert !IsSpaceRune([c]);
    OneByte(c);
    Untouched([c]);
    LeadingSpace([c]);
    assert [' ', c] == " " + [c];
  }
}
