/** Reading token usage off an Anthropic event stream while it passes through
    (internal/wire/usage.go:66-133). */
module UsageTee {
  import opened Text
  import Events

  type Usage = Events.Usage

  /** The numbers the tee looks for in an event: usage.input_tokens, usage.output_tokens and
      message.usage.input_tokens, 0 where absent. */
  datatype Numbers = Numbers(input: int, output: int, messageInput: int)

  /** Decoding of a payload, None where it is not such an event. */
  type Decoder = Bytes -> Option<Numbers>

  // ---- what a stream of bytes says ----

  /** The newline-terminated lines of `s`, without their newlines. */
  function Lines(s: Bytes): seq<Bytes>
    decreases |s|
  {
    var i := IndexByte(s, '\n');
    if i == |s| then [] else [s[..i]] + Lines(s[i + 1..])
  }

  /** What follows the last newline. */
  function Tail(s: Bytes): Bytes
    decreases |s|
  {
    var i := IndexByte(s, '\n');
    if i == |s| then s else Tail(s[i + 1..])
  }

  /** The numbers a line carries, if it is a data line with a decodable payload. */
  function NumbersIn(line: Bytes, decode: Decoder): Option<Numbers> {
    var s := TrimSpace(line);
    if !HasPrefix(s, "data:") then None
    else
      var payload := TrimSpace(s[5..]);
      if payload == "" || payload == "[DONE]" then None else decode(payload)
  }

  /** Input counts in the order in which they override each other. */
  function Inputs(lines: seq<Bytes>, decode: Decoder): seq<int> {
    if lines == [] then []
    else
      Inputs(lines[..|lines| - 1], decode) +
      (match NumbersIn(lines[|lines| - 1], decode)
       case None => []
       case Some(n) => [n.messageInput, n.input])
  }

  function Outputs(lines: seq<Bytes>, decode: Decoder): seq<int> {
    if lines == [] then []
    else
      Outputs(lines[..|lines| - 1], decode) +
      (match NumbersIn(lines[|lines| - 1], decode)
       case None => []
       case Some(n) => [n.output])
  }

  function LastPositive(counts: seq<int>, none: int): int {
    if counts == [] then none
    else if counts[|counts| - 1] > 0 then counts[|counts| - 1]
    else LastPositive(counts[..|counts| - 1], none)
  }

  /** The usage that complete lines leave behind, starting from `u`: the last positive count of each kind. */
  function UsageOf(lines: seq<Bytes>, u: Usage, decode: Decoder): Usage {
    u.(input := LastPositive(Inputs(lines, decode), u.input), output := LastPositive(Outputs(lines, decode), u.output))
  }

  lemma {:induction false} LastPositiveAppend(a: seq<int>, b: seq<int>, none: int)
    ensures LastPositive(a + b, none) == LastPositive(b, LastPositive(a, none))
    decreases |b|
  {
    if b == [] {
      assert a + b == a;
    } else {
      assert (a + b)[..|a + b| - 1] == a + b[..|b| - 1];
      LastPositiveAppend(a, b[..|b| - 1], none);
    }
  }

  /** Each further line works on the usage so far. */
  lemma UsageAppend(lines: seq<Bytes>, line: Bytes, u: Usage, decode: Decoder)
    ensures UsageOf(lines + [line], u, decode) == UsageOf([line], UsageOf(lines, u, decode), decode)
  {
    hide NumbersIn, LastPositive;
    assert (lines + [line])[..|lines|] == lines && [line][..0] == [];
    LastPositiveAppend(Inputs(lines, decode), Inputs([line], decode), u.input);
    LastPositiveAppend(Outputs(lines, decode), Outputs([line], decode), u.output);
    assert Inputs(lines + [line], decode) == Inputs(lines, decode) + Inputs([line], decode);
    assert Outputs(lines + [line], decode) == Outputs(lines, decode) + Outputs([line], decode);
  }

  lemma OneLine(line: Bytes, u: Usage, decode: Decoder)
    ensures var r := UsageOf([line], u, decode);
            match NumbersIn(line, decode)
            case None => r == u
            case Some(n) =>
              && r.cacheRead == u.cacheRead && r.cacheWrite == u.cacheWrite
              && r.input == (if n.input > 0 then n.input else if n.messageInput > 0 then n.messageInput else u.input)
              && r.output == if n.output > 0 then n.output else u.output
  {
    hide NumbersIn, LastPositive;
    var one := [line];
    assert one[..|one| - 1] == [] && one[|one| - 1] == line;
    assert Inputs(one, decode) ==
           match NumbersIn(line, decode) case None => [] case Some(n) => [n.messageInput, n.input];
    assert Outputs(one, decode) == match NumbersIn(line, decode) case None => [] case Some(n) => [n.output];
    match NumbersIn(line, decode)
    case None =>
      LastPositiveFew(0, 0, u.input);
      LastPositiveFew(0, 0, u.output);
    case Some(n) =>
      LastPositiveFew(n.messageInput, n.input, u.input);
      LastPositiveFew(0, n.output, u.output);
  }

  lemma LastPositiveFew(a: int, b: int, none: int)
    ensures LastPositive([], none) == none
    ensures LastPositive([b], none) == if b > 0 then b else none
    ensures LastPositive([a, b], none) == if b > 0 then b else if a > 0 then a else none
  {
    assert [a, b][..1] == [a] && [a][..0] == [] && [b][..0] == [];
  }

  // ---- lines do not depend on how the bytes are cut ----

  lemma FirstLine(s: Bytes, i: nat)
    requires i < |s| && s[i] == '\n' && '\n' !in s[..i]
    ensures Lines(s) == [s[..i]] + Lines(s[i + 1..]) && Tail(s) == Tail(s[i + 1..])
  {
    IndexByteUnique(s, '\n', i);
  }

  lemma NoNewlineYet(s: Bytes)
    requires '\n' !in s
    ensures Lines(s) == [] && Tail(s) == s
  {
  }

  lemma {:induction false} LinesAppend(a: Bytes, b: Bytes)
    ensures Lines(a + b) == Lines(a) + Lines(Tail(a) + b)
    ensures Tail(a + b) == Tail(Tail(a) + b)
    decreases |a|
  {
    hide Lines, Tail, IndexByte;
    var i := IndexByte(a, '\n');
    if i < |a| {
      FirstLine(a, i);
      assert (a + b)[..i] == a[..i] && (a + b)[i + 1..] == a[i + 1..] + b;
      FirstLine(a + b, i);
      LinesAppend(a[i + 1..], b);
    } else {
      assert a[..|a|] == a;
      NoNewlineYet(a);
    }
  }

  /** A newline completes the line that the tail began. */
  lemma LineEnds(line: Bytes, s: Bytes, i: nat)
    requires '\n' !in line && i < |s| && s[i] == '\n' && '\n' !in s[..i]
    ensures Lines(line + s[..i + 1]) == [line + s[..i]] && Tail(line + s[..i + 1]) == ""
  {
    var all := line + s[..i + 1];
    forall j | 0 <= j < |line| + i ensures all[j] != '\n' {
      if j >= |line| {
        assert all[j] == s[..i][j - |line|];
      }
    }
    IndexByteUnique(all, '\n', |line| + i);
    assert all[..|line| + i] == line + s[..i] && all[|line| + i + 1..] == "";
  }

  lemma NoNewlineIn(a: Bytes, b: Bytes)
    requires '\n' !in a && IndexByte(b, '\n') == |b|
    ensures Lines(a + b) == [] && Tail(a + b) == a + b
  {
    assert b[..|b|] == b;
    NoNewlineYet(a + b);
  }

  lemma {:induction false} TailHasNoNewline(s: Bytes)
    ensures '\n' !in Tail(s)
    decreases |s|
  {
    var i := IndexByte(s, '\n');
    if i < |s| {
      TailHasNoNewline(s[i + 1..]);
    }
  }

  /** The two ways in which the tee moves on. */
  lemma LineGrows(seen: Bytes, chunk: Bytes)
    requires IndexByte(chunk, '\n') == |chunk|
    ensures Lines(seen + chunk) == Lines(seen) && Tail(seen + chunk) == Tail(seen) + chunk
  {
    hide Lines, Tail, IndexByte;
    TailHasNoNewline(seen);
    NoNewlineIn(Tail(seen), chunk);
    LinesAppend(seen, chunk);
    assert Lines(seen) + [] == Lines(seen);
  }

  lemma LineCompleted(seen: Bytes, chunk: Bytes, i: nat, u: Usage, decode: Decoder)
    requires i == IndexByte(chunk, '\n') < |chunk|
    ensures Tail(seen + chunk[..i + 1]) == ""
    ensures UsageOf(Lines(seen + chunk[..i + 1]), u, decode) ==
            UsageOf([Tail(seen) + chunk[..i]], UsageOf(Lines(seen), u, decode), decode)
    ensures seen + chunk[..i + 1] + chunk[i + 1..] == seen + chunk
  {
    hide Lines, Tail, IndexByte, UsageOf;
    TailHasNoNewline(seen);
    LineEnds(Tail(seen), chunk, i);
    LinesAppend(seen, chunk[..i + 1]);
    UsageAppend(Lines(seen), Tail(seen) + chunk[..i], u, decode);
    assert chunk[..i + 1] + chunk[i + 1..] == chunk;
  }

  function Terminated(lines: seq<Bytes>): Bytes {
    if lines == [] then "" else lines[0] + "\n" + Terminated(lines[1..])
  }

  /** Lines and tail are the only way to write the bytes as newline-free lines, each with its newline, and a
      newline-free rest. */
  lemma {:induction false} LinesAreTheOnlyCut(s: Bytes, lines: seq<Bytes>, tail: Bytes)
    ensures (forall l :: l in lines ==> '\n' !in l) && '\n' !in tail && s == Terminated(lines) + tail <==>
            lines == Lines(s) && tail == Tail(s)
    decreases |s|
  {
    var i := IndexByte(s, '\n');
    if i == |s| {
      if lines == [] {
        assert Terminated(lines) + tail == tail;
      } else {
        assert (Terminated(lines) + tail)[|lines[0]|] == '\n';
      }
    } else {
      LinesAreTheOnlyCut(s[i + 1..], if lines == [] then [] else lines[1..], tail);
      if lines == [] {
        assert Terminated(lines) + tail == tail;
      } else {
        CutFront(s, i, lines, tail);
      }
    }
  }

  lemma CutFront(s: Bytes, i: nat, lines: seq<Bytes>, tail: Bytes)
    requires lines != [] && i < |s| && s[i] == '\n' && '\n' !in s[..i]
    ensures '\n' !in lines[0] && s == Terminated(lines) + tail <==>
            lines[0] == s[..i] && s[i + 1..] == Terminated(lines[1..]) + tail
  {
    var n, rest := |lines[0]|, Terminated(lines[1..]) + tail;
    assert Terminated(lines) + tail == lines[0] + "\n" + rest;
    assert s == s[..i] + "\n" + s[i + 1..];
    if '\n' !in lines[0] && s == lines[0] + "\n" + rest {
      IndexByteUnique(s, '\n', i);
      IndexByteUnique(s, '\n', n);
      assert s[..n] == lines[0] && s[n + 1..] == rest;
    }
  }

  // ---- the tee ----

  class Tee {
    /** Bytes the source has not handed over yet. */
    var src: Bytes
    var line: Bytes
    var dst: Usage
    const decode: Decoder
    /** Every byte that went through, and the usage before the first of them. */
    ghost var seen: Bytes
    ghost const initial: Usage

    ghost predicate Valid()
      reads this
    {
      line == Tail(seen) && dst == UsageOf(Lines(seen), initial, decode)
    }

    constructor (bytes: Bytes, usage: Usage, decoder: Decoder)
      ensures Valid() && src == bytes && seen == "" && initial == usage && decode == decoder
    {
      src, line, dst, decode := bytes, "", usage, decoder;
      seen, initial := "", usage;
    }

    /** The source hands over its next `n` bytes, however many it likes, and an error or none; both are passed
        on, and bytes that come with an error are scanned too. */
    method Read(n: nat, failure: Option<Bytes>) returns (p: Bytes, err: Option<Bytes>)
      requires Valid() && n <= |src|
      modifies this
      ensures Valid()
      ensures p == old(src)[..n] && src == old(src)[n..] && seen == old(seen) + p
      ensures err == failure
    {
      err := failure;
      p := src[..n];
      src := src[n..];
      if n > 0 {
        Scan(p);
      } else {
        assert seen + p == seen;
      }
    }

    method Scan(bytes: Bytes)
      requires Valid()
      modifies this`line, this`dst, this`seen
      ensures Valid() && seen == old(seen) + bytes
    {
      hide Lines, Tail, UsageOf, IndexByte;
      var chunk := bytes;
      while |chunk| > 0
        invariant Valid() && seen + chunk == old(seen) + bytes
        decreases |chunk|
      {
        var i := IndexByte(chunk, '\n');
        if i == |chunk| {
          LineGrows(seen, chunk);
          line := line + chunk;
          seen := seen + chunk;
          return;
        }
        LineCompleted(seen, chunk, i, initial, decode);
        var complete := line + chunk[..i];
        line := "";
        ProcessLine(complete);
        seen := seen + chunk[..i + 1];
        chunk := chunk[i + 1..];
      }
      assert seen + chunk == seen;
    }

    method ProcessLine(complete: Bytes)
      modifies this`dst
      ensures dst == UsageOf([complete], old(dst), decode)
    {
      OneLine(complete, dst, decode);
      var s := TrimSpace(complete);
      if !HasPrefix(s, "data:") {
        return;
      }
      var payload := TrimSpace(s[5..]);
      if payload == "" || payload == "[DONE]" {
        return;
      }
      var ev := decode(payload);
      if ev == None {
        return;
      }
      if ev.value.messageInput > 0 {
        dst := dst.(input := ev.value.messageInput);
      }
      if ev.value.input > 0 {
        dst := dst.(input := ev.value.input);
      }
      if ev.value.output > 0 {
        dst := dst.(output := ev.value.output);
      }
    }
  }

  function Sum(cuts: seq<nat>): nat {
    if cuts == [] then 0 else cuts[0] + Sum(cuts[1..])
  }

  /** Whatever the sizes of the reads, the client gets the source's bytes and the usage is that of the complete
      lines among them. */
  method Relay(source: Bytes, usage: Usage, decode: Decoder, cuts: seq<nat>) returns (out: Bytes, tee: Tee)
    requires Sum(cuts) == |source|
    ensures fresh(tee)
    ensures out == source && tee.line == Tail(source) && tee.dst == UsageOf(Lines(source), usage, decode)
  {
    hide Lines, Tail, UsageOf;
    tee := new Tee(source, usage, decode);
    out := "";
    assert cuts[0..] == cuts;
    for i := 0 to |cuts|
      invariant fresh(tee) && tee.Valid() && tee.initial == usage && tee.decode == decode
      invariant out + tee.src == source && tee.seen == out && |tee.src| == Sum(cuts[i..])
    {
      assert cuts[i..][1..] == cuts[i + 1..];
      var p, err := tee.Read(cuts[i], None);
      out := out + p;
    }
    assert tee.src == "";
  }
}
