/** Translation of a Messages transcript to chat-completion messages (internal/wire/wire.go:145-150,
    203-331), and why it keeps every tool call next to its results. */
module Pairing {
  import opened Text
  import Events

  /** Raw JSON, already classified; a null is Missing. */
  datatype RawJson = Missing | JsonString(text: Bytes) | OtherJson(raw: Bytes)

  datatype Block = Block(
    kind: Bytes, text: Bytes, id: Bytes, name: Bytes, input: RawJson, toolUseId: Bytes, content: RawJson)

  /** Message content after decoding. A null decodes as the empty string; a missing value, or one that is
      neither a string nor an array of blocks, is unreadable. */
  datatype Content = Plain(text: Bytes) | Blocks(blocks: seq<Block>) | Unreadable

  datatype Message = Message(role: Bytes, content: Content)

  type ToolCall = Events.ToolCall

  /** `content` is None where the source leaves it nil. */
  datatype ChatMessage = ChatMessage(role: Bytes, content: Option<Bytes>, toolCalls: seq<ToolCall>, toolCallId: Bytes)

  function StringifyContent(raw: RawJson): Bytes {
    match raw
    case Missing => ""
    case JsonString(t) => t
    case OtherJson(r) => r
  }

  /** The raw bytes; `quoted` is the JSON text of a string input. */
  function StringifyJson(raw: RawJson, quote: Bytes -> Bytes): Bytes {
    match raw
    case Missing => "{}"
    case JsonString(t) => quote(t)
    case OtherJson(r) => r
  }

  // ---- per-block meaning ----

  predicate IsResult(b: Block) {
    (b.kind == "tool_result" || b.kind == "web_search_tool_result" || b.kind == "web_fetch_tool_result") &&
    b.toolUseId != ""
  }

  predicate IsText(b: Block) {
    b.kind == "text" && b.text != ""
  }

  function Texts(blocks: seq<Block>): seq<Bytes> {
    if blocks == [] then []
    else Texts(blocks[..|blocks| - 1]) + (if IsText(blocks[|blocks| - 1]) then [blocks[|blocks| - 1].text] else [])
  }

  function ResultOf(b: Block): ChatMessage {
    ChatMessage("tool", Some(StringifyContent(b.content)), [], b.toolUseId)
  }

  function ToolMessages(blocks: seq<Block>): seq<ChatMessage> {
    if blocks == [] then []
    else
      ToolMessages(blocks[..|blocks| - 1]) +
      (if IsResult(blocks[|blocks| - 1]) then [ResultOf(blocks[|blocks| - 1])] else [])
  }

  function ResultIds(blocks: seq<Block>): seq<Bytes> {
    if blocks == [] then []
    else
      ResultIds(blocks[..|blocks| - 1]) +
      (if IsResult(blocks[|blocks| - 1]) then [blocks[|blocks| - 1].toolUseId] else [])
  }

  function CallOf(b: Block, quote: Bytes -> Bytes): ToolCall {
    Events.ToolCall(b.id, b.name, StringifyJson(b.input, quote))
  }

  function Calls(blocks: seq<Block>, quote: Bytes -> Bytes): seq<ToolCall> {
    if blocks == [] then []
    else
      Calls(blocks[..|blocks| - 1], quote) +
      (if blocks[|blocks| - 1].kind == "tool_use" then [CallOf(blocks[|blocks| - 1], quote)] else [])
  }

  function CallIds(blocks: seq<Block>): seq<Bytes> {
    if blocks == [] then []
    else
      CallIds(blocks[..|blocks| - 1]) +
      (if blocks[|blocks| - 1].kind == "tool_use" then [blocks[|blocks| - 1].id] else [])
  }

  // ---- the conversions ----

  method ConvertUserMessage(blocks: seq<Block>) returns (out: seq<ChatMessage>)
    ensures out == UserMessages(blocks)
  {
    out := [];
    var textParts: seq<Bytes> := [];
    for i := 0 to |blocks|
      invariant out == ToolMessages(blocks[..i]) && textParts == Texts(blocks[..i])
    {
      assert blocks[..i + 1][..i] == blocks[..i];
      var b := blocks[i];
      if b.kind == "text" {
        if b.text != "" {
          textParts := textParts + [b.text];
        }
      } else if b.kind == "tool_result" || b.kind == "web_search_tool_result" || b.kind == "web_fetch_tool_result" {
        if b.toolUseId != "" {
          out := out + [ChatMessage("tool", Some(StringifyContent(b.content)), [], b.toolUseId)];
        }
      }
    }
    assert blocks[..|blocks|] == blocks;
    if |out| > 0 {
      if |textParts| > 0 {
        out := out + [ChatMessage("user", Some(Join(textParts, "\n")), [], "")];
      }
      return;
    }
    out := [ChatMessage("user", Some(Join(textParts, "\n")), [], "")];
  }

  /** The tool messages first, then the text, which is left out only when it is empty and results stand in
      for it. */
  function UserMessages(blocks: seq<Block>): seq<ChatMessage> {
    ToolMessages(blocks) +
    (if Texts(blocks) != [] || ToolMessages(blocks) == []
     then [ChatMessage("user", Some(Join(Texts(blocks), "\n")), [], "")]
     else [])
  }

  function AssistantMessage(blocks: seq<Block>, quote: Bytes -> Bytes): ChatMessage {
    ChatMessage("assistant", if Texts(blocks) == [] then None else Some(Join(Texts(blocks), "\n")),
                Calls(blocks, quote), "")
  }

  method ConvertAssistantMessage(blocks: seq<Block>, quote: Bytes -> Bytes) returns (out: seq<ChatMessage>)
    ensures out == [AssistantMessage(blocks, quote)]
  {
    var textParts: seq<Bytes> := [];
    var toolCalls: seq<ToolCall> := [];
    for i := 0 to |blocks|
      invariant textParts == Texts(blocks[..i]) && toolCalls == Calls(blocks[..i], quote)
    {
      assert blocks[..i + 1][..i] == blocks[..i];
      var b := blocks[i];
      if b.kind == "text" {
        if b.text != "" {
          textParts := textParts + [b.text];
        }
      } else if b.kind == "tool_use" {
        toolCalls := toolCalls + [Events.ToolCall(b.id, b.name, StringifyJson(b.input, quote))];
      }
    }
    assert blocks[..|blocks|] == blocks;
    var m := ChatMessage("assistant", None, [], "");
    if |textParts| > 0 {
      m := m.(content := Some(Join(textParts, "\n")));
    }
    if |toolCalls| > 0 {
      m := m.(toolCalls := toolCalls);
    }
    out := [m];
  }

  /** All text blocks, empty ones included, of a message with another role. */
  function AllTexts(blocks: seq<Block>): seq<Bytes> {
    if blocks == [] then []
    else
      AllTexts(blocks[..|blocks| - 1]) +
      (if blocks[|blocks| - 1].kind == "text" then [blocks[|blocks| - 1].text] else [])
  }

  function Converted(msg: Message, quote: Bytes -> Bytes): seq<ChatMessage> {
    match msg.content
    case Plain(t) => [ChatMessage(msg.role, Some(t), [], "")]
    case Unreadable => [ChatMessage(msg.role, None, [], "")]
    case Blocks(blocks) =>
      if msg.role == "user" then UserMessages(blocks)
      else if msg.role == "assistant" then [AssistantMessage(blocks, quote)]
      else [ChatMessage(msg.role, Some(Join(AllTexts(blocks), "\n")), [], "")]
  }

  method ConvertMessage(msg: Message, quote: Bytes -> Bytes) returns (out: seq<ChatMessage>)
    ensures out == Converted(msg, quote)
  {
    match msg.content
    case Plain(t) => out := [ChatMessage(msg.role, Some(t), [], "")];
    case Unreadable => out := [ChatMessage(msg.role, None, [], "")];
    case Blocks(blocks) =>
      if msg.role == "user" {
        out := ConvertUserMessage(blocks);
      } else if msg.role == "assistant" {
        out := ConvertAssistantMessage(blocks, quote);
      } else {
        var text: seq<Bytes> := [];
        for i := 0 to |blocks|
          invariant text == AllTexts(blocks[..i])
        {
          assert blocks[..i + 1][..i] == blocks[..i];
          if blocks[i].kind == "text" {
            text := text + [blocks[i].text];
          }
        }
        assert blocks[..|blocks|] == blocks;
        out := [ChatMessage(msg.role, Some(Join(text, "\n")), [], "")];
      }
  }

  function ConvertedAll(msgs: seq<Message>, quote: Bytes -> Bytes): seq<ChatMessage> {
    if msgs == [] then [] else Converted(msgs[0], quote) + ConvertedAll(msgs[1..], quote)
  }

  lemma {:induction false} ConvertedAllSnoc(msgs: seq<Message>, m: Message, quote: Bytes -> Bytes)
    ensures ConvertedAll(msgs + [m], quote) == ConvertedAll(msgs, quote) + Converted(m, quote)
    decreases |msgs|
  {
    if msgs == [] {
      assert [] + [m] == [m];
      assert ConvertedAll([m], quote) == Converted(m, quote) + ConvertedAll([m][1..], quote);
    } else {
      assert (msgs + [m])[1..] == msgs[1..] + [m];
      ConvertedAllSnoc(msgs[1..], m, quote);
    }
  }

  function SystemText(system: Content): Bytes {
    match system
    case Plain(t) => t
    case Unreadable => ""
    case Blocks(blocks) => Join(Texts(blocks), "\n")
  }

  function Transcript(system: Content, msgs: seq<Message>, quote: Bytes -> Bytes): seq<ChatMessage> {
    (if SystemText(system) != "" then [ChatMessage("system", Some(SystemText(system)), [], "")] else []) +
    ConvertedAll(msgs, quote)
  }

  lemma OneMoreConverted(head: seq<ChatMessage>, msgs: seq<Message>, i: nat, quote: Bytes -> Bytes)
    requires i < |msgs|
    ensures head + ConvertedAll(msgs[..i + 1], quote) ==
            head + ConvertedAll(msgs[..i], quote) + Converted(msgs[i], quote)
  {
    hide ConvertedAll, Converted;
    assert msgs[..i + 1] == msgs[..i] + [msgs[i]];
    ConvertedAllSnoc(msgs[..i], msgs[i], quote);
    var before, more := ConvertedAll(msgs[..i], quote), Converted(msgs[i], quote);
    assert head + (before + more) == head + before + more;
  }

  /** The message part of anthropicToOpenAI. */
  method ConvertTranscript(system: Content, msgs: seq<Message>, quote: Bytes -> Bytes) returns (out: seq<ChatMessage>)
    ensures out == Transcript(system, msgs, quote)
  {
    hide SystemText, Converted;
    out := [];
    var sys := SystemToString(system);
    if sys != "" {
      out := out + [ChatMessage("system", Some(sys), [], "")];
    }
    ghost var head := out;
    assert msgs[..0] == [] && head + [] == head;
    for i := 0 to |msgs|
      invariant out == head + ConvertedAll(msgs[..i], quote)
    {
      hide ConvertedAll;
      var more := ConvertMessage(msgs[i], quote);
      OneMoreConverted(head, msgs, i, quote);
      out := out + more;
    }
    assert msgs[..|msgs|] == msgs;
  }

  method SystemToString(system: Content) returns (r: Bytes)
    ensures r == SystemText(system)
  {
    match system
    case Plain(t) => r := t;
    case Unreadable => r := "";
    case Blocks(blocks) =>
      var parts: seq<Bytes> := [];
      for i := 0 to |blocks|
        invariant parts == Texts(blocks[..i])
      {
        assert blocks[..i + 1][..i] == blocks[..i];
        if blocks[i].kind == "text" && blocks[i].text != "" {
          parts := parts + [blocks[i].text];
        }
      }
      assert blocks[..|blocks|] == blocks;
      r := Join(parts, "\n");
  }

  // ---- tool pairing ----

  /** The tool_use ids of an assistant message and the result ids of a user message. */
  function UsesOf(m: Message): seq<Bytes> {
    if m.role == "assistant" && m.content.Blocks? then CallIds(m.content.blocks) else []
  }

  function AnswersOf(m: Message): seq<Bytes> {
    if m.role == "user" && m.content.Blocks? then ResultIds(m.content.blocks) else []
  }

  /** Every assistant message's calls are answered by exactly the next user message, and nothing else is. */
  predicate Answered(msgs: seq<Message>, pending: seq<Bytes>)
    decreases |msgs|
  {
    if msgs == [] then pending == []
    else
      && msgs[0].role != "tool"
      && multiset(AnswersOf(msgs[0])) == multiset(pending)
      && Answered(msgs[1..], UsesOf(msgs[0]))
  }

  function IdsOfCalls(calls: seq<ToolCall>): seq<Bytes> {
    seq(|calls|, i requires 0 <= i < |calls| => calls[i].id)
  }

  function IdsOfTools(ms: seq<ChatMessage>): (ids: seq<Bytes>)
    ensures |ids| == |ms|
  {
    seq(|ms|, i requires 0 <= i < |ms| => ms[i].toolCallId)
  }

  predicate OnlyTools(ms: seq<ChatMessage>) {
    forall m :: m in ms ==> m.role == "tool" && m.toolCalls == []
  }

  /** A chat transcript in which every message with tool calls is followed at once by tool messages for
      exactly its calls, and there are no other tool messages. */
  predicate WellPaired(ms: seq<ChatMessage>)
    decreases |ms|
  {
    ms == [] ||
    (var n := |ms[0].toolCalls|;
     && ms[0].role != "tool"
     && n < |ms|
     && OnlyTools(ms[1..n + 1])
     && multiset(IdsOfCalls(ms[0].toolCalls)) == multiset(IdsOfTools(ms[1..n + 1]))
     && WellPaired(ms[n + 1..]))
  }

  lemma {:induction false} CallsIds(blocks: seq<Block>, quote: Bytes -> Bytes)
    ensures IdsOfCalls(Calls(blocks, quote)) == CallIds(blocks)
  {
    if blocks != [] {
      CallsIds(blocks[..|blocks| - 1], quote);
    }
  }

  lemma {:induction false} ToolMessagesIds(blocks: seq<Block>)
    ensures IdsOfTools(ToolMessages(blocks)) == ResultIds(blocks)
    ensures OnlyTools(ToolMessages(blocks))
  {
    if blocks != [] {
      ToolMessagesIds(blocks[..|blocks| - 1]);
    }
  }

  /** The same read from left to right, with the ids that are still to be answered. */
  predicate PairedFrom(ms: seq<ChatMessage>, pending: multiset<Bytes>)
    decreases |ms|
  {
    if ms == [] then pending == multiset{}
    else if ms[0].role == "tool" then
      ms[0].toolCalls == [] && ms[0].toolCallId in pending &&
      PairedFrom(ms[1..], pending - multiset{ms[0].toolCallId})
    else
      pending == multiset{} && PairedFrom(ms[1..], multiset(IdsOfCalls(ms[0].toolCalls)))
  }

  /** `tools` answer exactly what is pending, and what comes behind them is paired. */
  predicate Settles(tools: seq<ChatMessage>, pending: multiset<Bytes>, behind: seq<ChatMessage>) {
    OnlyTools(tools) && multiset(IdsOfTools(tools)) == pending && WellPaired(behind)
  }

  predicate OpensWith(ms: seq<ChatMessage>, pending: multiset<Bytes>) {
    |pending| <= |ms| && Settles(ms[..|pending|], pending, ms[|pending|..])
  }

  lemma SettlesStep(m: ChatMessage, tools: seq<ChatMessage>, pending: multiset<Bytes>, behind: seq<ChatMessage>)
    requires m.role == "tool"
    ensures Settles([m] + tools, pending, behind) <==>
            m.toolCalls == [] && m.toolCallId in pending && Settles(tools, pending - multiset{m.toolCallId}, behind)
  {
    hide WellPaired, OnlyTools, IdsOfTools;
    OnlyToolsFront(m, tools);
    IdsFront(m, tools);
    OneLess(m.toolCallId, multiset(IdsOfTools(tools)), pending);
  }

  lemma OneLess(x: Bytes, rest: multiset<Bytes>, all: multiset<Bytes>)
    ensures multiset{x} + rest == all <==> x in all && rest == all - multiset{x}
  {
  }

  lemma OpensWithTool(ms: seq<ChatMessage>, pending: multiset<Bytes>)
    requires ms != [] && ms[0].role == "tool"
    ensures OpensWith(ms, pending) <==>
            ms[0].toolCalls == [] && ms[0].toolCallId in pending &&
            OpensWith(ms[1..], pending - multiset{ms[0].toolCallId})
  {
    hide Settles, WellPaired;
    var m, tail, k := ms[0], ms[1..], |pending|;
    if pending == multiset{} {
      assert ms[..0] == [] && ms[0..] == ms;
      NoToolFirst(ms);
    } else if k <= |ms| {
      assert k > 0 && ms == [m] + tail;
      TakeFront(m, tail, k);
      SettlesStep(m, tail[..k - 1], pending, ms[k..]);
    }
  }

  lemma TakeFront(m: ChatMessage, tail: seq<ChatMessage>, k: nat)
    requires 0 < k <= |tail| + 1
    ensures ([m] + tail)[..k] == [m] + tail[..k - 1] && ([m] + tail)[k..] == tail[k - 1..]
  {
  }

  lemma NoToolFirst(ms: seq<ChatMessage>)
    requires ms != [] && ms[0].role == "tool"
    ensures !Settles([], multiset{}, ms)
  {
  }

  lemma OnlyToolsFront(m: ChatMessage, ms: seq<ChatMessage>)
    ensures OnlyTools([m] + ms) <==> m.role == "tool" && m.toolCalls == [] && OnlyTools(ms)
  {
    assert m in [m] + ms;
    assert forall t :: t in ms ==> t in [m] + ms;
  }

  lemma IdsFront(m: ChatMessage, ms: seq<ChatMessage>)
    ensures IdsOfTools([m] + ms) == [m.toolCallId] + IdsOfTools(ms)
    ensures multiset(IdsOfTools([m] + ms)) == multiset{m.toolCallId} + multiset(IdsOfTools(ms))
  {
  }

  lemma OpensWithOther(ms: seq<ChatMessage>, pending: multiset<Bytes>)
    requires ms != [] && ms[0].role != "tool"
    ensures OpensWith(ms, pending) <==>
            pending == multiset{} && OpensWith(ms[1..], multiset(IdsOfCalls(ms[0].toolCalls)))
  {
    var k, calls := |pending|, IdsOfCalls(ms[0].toolCalls);
    var n := |calls|;
    assert |multiset(calls)| == n;
    if pending != multiset{} {
      if k <= |ms| {
        assert ms[0] in ms[..k];
      }
    } else {
      assert ms[0..] == ms;
      if n < |ms| {
        assert ms[1..][..n] == ms[1..n + 1] && ms[1..][n..] == ms[n + 1..];
      }
    }
  }

  lemma {:induction false} PairedFromMeans(ms: seq<ChatMessage>, pending: multiset<Bytes>)
    ensures PairedFrom(ms, pending) <==> OpensWith(ms, pending)
    decreases |ms|
  {
    hide OpensWith;
    if ms == [] {
      OpensWithNothing(pending);
    } else if ms[0].role == "tool" {
      OpensWithTool(ms, pending);
      PairedFromMeans(ms[1..], pending - multiset{ms[0].toolCallId});
    } else {
      OpensWithOther(ms, pending);
      PairedFromMeans(ms[1..], multiset(IdsOfCalls(ms[0].toolCalls)));
    }
  }

  lemma OpensWithNothing(pending: multiset<Bytes>)
    ensures OpensWith([], pending) <==> pending == multiset{}
  {
  }

  /** Being well paired is being paired from the start with nothing pending. */
  lemma WellPairedIff(ms: seq<ChatMessage>)
    ensures WellPaired(ms) <==> PairedFrom(ms, multiset{})
  {
    hide WellPaired, PairedFrom;
    PairedFromMeans(ms, multiset{});
    assert ms[..0] == [] && ms[0..] == ms;
  }

  lemma {:induction false} ToolsAnswer(tools: seq<ChatMessage>, rest: seq<ChatMessage>, pending: multiset<Bytes>)
    requires OnlyTools(tools)
    ensures PairedFrom(tools + rest, pending) <==>
            multiset(IdsOfTools(tools)) <= pending && PairedFrom(rest, pending - multiset(IdsOfTools(tools)))
    decreases |tools|
  {
    if tools == [] {
      assert tools + rest == rest;
      assert pending - multiset(IdsOfTools(tools)) == pending;
    } else {
      var m, tail := tools[0], tools[1..];
      var left := pending - multiset{m.toolCallId};
      assert tools == [m] + tail && (tools + rest)[1..] == tail + rest;
      IdsFront(m, tail);
      ToolsAnswer(tail, rest, left);
      var ids := multiset(IdsOfTools(tail));
      assert m.toolCallId in pending ==> pending - (multiset{m.toolCallId} + ids) == left - ids;
      assert multiset{m.toolCallId} + ids <= pending <==> m.toolCallId in pending && ids <= left;
    }
  }

  // ---- what the translation of one message does to the pending ids ----

  /** The ids a message answers. A message that itself has the role "tool" answers the empty id. */
  function Answers(m: Message): multiset<Bytes> {
    if m.role == "tool" then multiset{""} else multiset(AnswersOf(m))
  }

  /** Whether the message becomes more than tool messages. */
  predicate Speaks(m: Message) {
    m.role != "tool" &&
    (m.role == "user" && m.content.Blocks? ==> Texts(m.content.blocks) != [] || AnswersOf(m) == [])
  }

  /** Every call is answered before anything else is said, over one message or several without text. */
  predicate Settled(msgs: seq<Message>, pending: multiset<Bytes>)
    decreases |msgs|
  {
    if msgs == [] then pending == multiset{}
    else if Speaks(msgs[0]) then
      Answers(msgs[0]) == pending && Settled(msgs[1..], multiset(UsesOf(msgs[0])))
    else
      Answers(msgs[0]) <= pending && Settled(msgs[1..], pending - Answers(msgs[0]))
  }

  /** The tool messages and the other message, if any, that a message becomes. */
  function ToolPart(m: Message): seq<ChatMessage> {
    if m.role == "tool" then [ChatMessage("tool", ToolText(m.content), [], "")]
    else if m.role == "user" && m.content.Blocks? then ToolMessages(m.content.blocks)
    else []
  }

  function ToolText(c: Content): Option<Bytes> {
    match c
    case Plain(t) => Some(t)
    case Unreadable => None
    case Blocks(blocks) => Some(Join(AllTexts(blocks), "\n"))
  }

  /** What Parts says, about the translation `out` of `m`. */
  predicate InParts(m: Message, out: seq<ChatMessage>) {
    var k := |ToolPart(m)|;
    if Speaks(m) then
      |out| == k + 1 && out[..k] == ToolPart(m) && out[k].role != "tool" && IdsOfCalls(out[k].toolCalls) == UsesOf(m)
    else out == ToolPart(m)
  }

  lemma UserParts(m: Message)
    requires m.role == "user" && m.content.Blocks?
    ensures OnlyTools(ToolPart(m)) && multiset(IdsOfTools(ToolPart(m))) == Answers(m)
    ensures InParts(m, UserMessages(m.content.blocks))
  {
    hide Texts, ToolMessages, ResultIds, Join, OnlyTools, IdsOfTools;
    var tools, texts := ToolMessages(m.content.blocks), Texts(m.content.blocks);
    ToolMessagesIds(m.content.blocks);
    if texts != [] || tools == [] {
      assert UserMessages(m.content.blocks) == tools + [ChatMessage("user", Some(Join(texts, "\n")), [], "")];
    } else {
      assert UserMessages(m.content.blocks) == tools;
    }
  }

  lemma Parts(m: Message, quote: Bytes -> Bytes)
    ensures OnlyTools(ToolPart(m)) && multiset(IdsOfTools(ToolPart(m))) == Answers(m)
    ensures InParts(m, Converted(m, quote))
  {
    hide Texts, Calls, CallIds, Join, AllTexts, UserMessages;
    if m.role == "user" && m.content.Blocks? {
      UserParts(m);
    } else if m.role == "assistant" && m.content.Blocks? {
      CallsIds(m.content.blocks, quote);
    }
  }

  lemma ConvertedStep(m: Message, rest: seq<ChatMessage>, pending: multiset<Bytes>, quote: Bytes -> Bytes)
    ensures PairedFrom(Converted(m, quote) + rest, pending) <==>
            if Speaks(m) then Answers(m) == pending && PairedFrom(rest, multiset(UsesOf(m)))
            else Answers(m) <= pending && PairedFrom(rest, pending - Answers(m))
  {
    hide OnlyTools, Converted, ToolPart, Answers, UsesOf, Speaks, IdsOfCalls, IdsOfTools;
    var tools, all := ToolPart(m), Converted(m, quote) + rest;
    Parts(m, quote);
    if Speaks(m) {
      var other := Converted(m, quote)[|tools|];
      assert Converted(m, quote) == tools + [other];
      assert all == tools + ([other] + rest) && ([other] + rest)[1..] == rest;
      ToolsAnswer(tools, [other] + rest, pending);
      assert Answers(m) <= pending && pending - Answers(m) == multiset{} <==> Answers(m) == pending;
    } else {
      ToolsAnswer(tools, rest, pending);
    }
  }

  lemma {:induction false} SettledIff(msgs: seq<Message>, pending: multiset<Bytes>, quote: Bytes -> Bytes)
    ensures PairedFrom(ConvertedAll(msgs, quote), pending) <==> Settled(msgs, pending)
    decreases |msgs|
  {
    hide Converted, Speaks, Answers, UsesOf, PairedFrom;
    if msgs == [] {
      NothingPaired(pending);
    } else {
      var m, rest := msgs[0], ConvertedAll(msgs[1..], quote);
      ConvertedStep(m, rest, pending, quote);
      SettledIff(msgs[1..], if Speaks(m) then multiset(UsesOf(m)) else pending - Answers(m), quote);
    }
  }

  lemma NothingPaired(pending: multiset<Bytes>)
    ensures PairedFrom([], pending) <==> pending == multiset{}
  {
  }

  /** The translation is well paired exactly when the transcript settles its calls: every call is followed
      at once by exactly its results, text comes only behind them, and there is no stray result. */
  lemma PairedIff(system: Content, msgs: seq<Message>, quote: Bytes -> Bytes)
    ensures WellPaired(Transcript(system, msgs, quote)) <==> Settled(msgs, multiset{})
  {
    hide WellPaired, Settled, ConvertedAll, SystemText;
    var all := ConvertedAll(msgs, quote);
    SettledIff(msgs, multiset{}, quote);
    WellPairedIff(Transcript(system, msgs, quote));
    assert [] + all == all;
    if SystemText(system) != "" {
      assert ([ChatMessage("system", Some(SystemText(system)), [], "")] + all)[1..] == all;
    }
  }

  lemma {:induction false} AnsweredSettles(msgs: seq<Message>, pending: seq<Bytes>)
    requires Answered(msgs, pending)
    ensures Settled(msgs, multiset(pending))
    decreases |msgs|
  {
    hide AnswersOf, Texts;
    if msgs != [] {
      AnsweredSettles(msgs[1..], UsesOf(msgs[0]));
    }
  }

  /** The transcripts a client sends, with each assistant's calls answered by the next message, stay paired. */
  lemma PairingPreserved(system: Content, msgs: seq<Message>, quote: Bytes -> Bytes)
    requires Answered(msgs, [])
    ensures WellPaired(Transcript(system, msgs, quote))
  {
    hide WellPaired, Settled, Answered, Transcript;
    AnsweredSettles(msgs, []);
    PairedIff(system, msgs, quote);
  }

  // ---- no call or result is lost, with no condition at all ----

  function AllUses(msgs: seq<Message>): seq<Bytes> {
    if msgs == [] then [] else UsesOf(msgs[0]) + AllUses(msgs[1..])
  }

  function AllAnswers(msgs: seq<Message>): seq<Bytes> {
    if msgs == [] then [] else AnswersOf(msgs[0]) + AllAnswers(msgs[1..])
  }

  function ChatCallIds(ms: seq<ChatMessage>): seq<Bytes> {
    if ms == [] then [] else IdsOfCalls(ms[0].toolCalls) + ChatCallIds(ms[1..])
  }

  function ChatResultIds(ms: seq<ChatMessage>): seq<Bytes> {
    if ms == [] then [] else (if ms[0].toolCallId != "" then [ms[0].toolCallId] else []) + ChatResultIds(ms[1..])
  }

  lemma ChatIdsConcat(a: seq<ChatMessage>, b: seq<ChatMessage>)
    ensures ChatCallIds(a + b) == ChatCallIds(a) + ChatCallIds(b)
    ensures ChatResultIds(a + b) == ChatResultIds(a) + ChatResultIds(b)
  {
    ChatCallIdsConcat(a, b);
    ChatResultIdsConcat(a, b);
  }

  lemma {:induction false} ChatCallIdsConcat(a: seq<ChatMessage>, b: seq<ChatMessage>)
    ensures ChatCallIds(a + b) == ChatCallIds(a) + ChatCallIds(b)
    decreases |a|
  {
    hide IdsOfCalls;
    if a == [] {
      assert a + b == b;
    } else {
      assert (a + b)[0] == a[0] && (a + b)[1..] == a[1..] + b;
      ChatCallIdsConcat(a[1..], b);
      Reassociate(IdsOfCalls(a[0].toolCalls), ChatCallIds(a[1..]), ChatCallIds(b));
    }
  }

  lemma {:induction false} ChatResultIdsConcat(a: seq<ChatMessage>, b: seq<ChatMessage>)
    ensures ChatResultIds(a + b) == ChatResultIds(a) + ChatResultIds(b)
    decreases |a|
  {
    if a == [] {
      assert a + b == b;
    } else {
      assert (a + b)[0] == a[0] && (a + b)[1..] == a[1..] + b;
      ChatResultIdsConcat(a[1..], b);
      Reassociate(if a[0].toolCallId != "" then [a[0].toolCallId] else [], ChatResultIds(a[1..]), ChatResultIds(b));
    }
  }

  lemma OneChatIds(m: ChatMessage)
    ensures ChatCallIds([m]) == IdsOfCalls(m.toolCalls)
    ensures ChatResultIds([m]) == if m.toolCallId != "" then [m.toolCallId] else []
  {
    assert [m][1..] == [];
  }

  lemma {:induction false} ToolMessagesChatIds(blocks: seq<Block>)
    ensures ChatCallIds(ToolMessages(blocks)) == []
    ensures ChatResultIds(ToolMessages(blocks)) == ResultIds(blocks)
  {
    if blocks != [] {
      var init, b := blocks[..|blocks| - 1], blocks[|blocks| - 1];
      ToolMessagesChatIds(init);
      if IsResult(b) {
        ChatIdsConcat(ToolMessages(init), [ResultOf(b)]);
        OneChatIds(ResultOf(b));
      } else {
        assert ToolMessages(blocks) == ToolMessages(init);
      }
    }
  }

  lemma ConvertedIds(m: Message, quote: Bytes -> Bytes)
    ensures ChatCallIds(Converted(m, quote)) == UsesOf(m)
    ensures ChatResultIds(Converted(m, quote)) == AnswersOf(m)
  {
    if m.role == "user" && m.content.Blocks? {
      var blocks := m.content.blocks;
      var tail := UserMessages(blocks)[|ToolMessages(blocks)|..];
      assert UserMessages(blocks) == ToolMessages(blocks) + tail;
      ChatIdsConcat(ToolMessages(blocks), tail);
      ToolMessagesChatIds(blocks);
      if tail != [] {
        assert tail == [tail[0]];
        OneChatIds(tail[0]);
      }
    } else {
      OneChatIds(Converted(m, quote)[0]);
      if m.role == "assistant" && m.content.Blocks? {
        CallsIds(m.content.blocks, quote);
      }
    }
  }

  lemma {:induction false} ConvertedAllIds(msgs: seq<Message>, quote: Bytes -> Bytes)
    ensures ChatCallIds(ConvertedAll(msgs, quote)) == AllUses(msgs)
    ensures ChatResultIds(ConvertedAll(msgs, quote)) == AllAnswers(msgs)
  {
    if msgs != [] {
      ConvertedIds(msgs[0], quote);
      ChatIdsConcat(Converted(msgs[0], quote), ConvertedAll(msgs[1..], quote));
      ConvertedAllIds(msgs[1..], quote);
    }
  }

  /** The overall sequences of call ids and of result ids are those of the transcript, always. */
  lemma IdsPreserved(system: Content, msgs: seq<Message>, quote: Bytes -> Bytes)
    ensures ChatCallIds(Transcript(system, msgs, quote)) == AllUses(msgs)
    ensures ChatResultIds(Transcript(system, msgs, quote)) == AllAnswers(msgs)
  {
    hide ConvertedAll, SystemText, ChatCallIds, ChatResultIds;
    var all := ConvertedAll(msgs, quote);
    ConvertedAllIds(msgs, quote);
    assert [] + all == all;
    if SystemText(system) != "" {
      var first := ChatMessage("system", Some(SystemText(system)), [], "");
      OneChatIds(first);
      ChatIdsConcat([first], all);
    }
  }

  // ---- calls and results keep their names, arguments and contents ----

  function UsesIn(blocks: seq<Block>): seq<Block> {
    if blocks == [] then []
    else
      UsesIn(blocks[..|blocks| - 1]) +
      (if blocks[|blocks| - 1].kind == "tool_use" then [blocks[|blocks| - 1]] else [])
  }

  predicate HoldsResult(b: Block) {
    b.toolUseId != "" && b.kind in {"tool_result", "web_search_tool_result", "web_fetch_tool_result"}
  }

  function ResultsIn(blocks: seq<Block>): seq<Block> {
    if blocks == [] then []
    else
      ResultsIn(blocks[..|blocks| - 1]) +
      (if HoldsResult(blocks[|blocks| - 1]) then [blocks[|blocks| - 1]] else [])
  }

  lemma ResultsAnswer(b: Block)
    ensures IsResult(b) <==> HoldsResult(b)
  {
  }

  /** The tool_use blocks of the assistant and the tool results of the user, in order. */
  function UseBlocks(m: Message): seq<Block> {
    if m.role == "assistant" && m.content.Blocks? then UsesIn(m.content.blocks) else []
  }

  function ResultBlocks(m: Message): seq<Block> {
    if m.role == "user" && m.content.Blocks? then ResultsIn(m.content.blocks) else []
  }

  function AllUseBlocks(msgs: seq<Message>): seq<Block> {
    if msgs == [] then [] else UseBlocks(msgs[0]) + AllUseBlocks(msgs[1..])
  }

  function AllResultBlocks(msgs: seq<Message>): seq<Block> {
    if msgs == [] then [] else ResultBlocks(msgs[0]) + AllResultBlocks(msgs[1..])
  }

  /** The calls and the results of a chat transcript, in order. */
  function ChatCalls(ms: seq<ChatMessage>): seq<ToolCall> {
    if ms == [] then [] else ms[0].toolCalls + ChatCalls(ms[1..])
  }

  function ChatResults(ms: seq<ChatMessage>): seq<ChatMessage> {
    if ms == [] then [] else (if ms[0].toolCallId != "" then [ms[0]] else []) + ChatResults(ms[1..])
  }

  /** The call has the id and name of the block and the JSON text of its input, an empty object for none. */
  predicate CallStands(c: ToolCall, b: Block, quote: Bytes -> Bytes) {
    && c.id == b.id && c.name == b.name
    && (b.input.Missing? ==> c.arguments == "{}")
    && (b.input.JsonString? ==> c.arguments == quote(b.input.text))
    && (b.input.OtherJson? ==> c.arguments == b.input.raw)
  }

  /** The tool message answers the id of the block with its content: a string as it is, other JSON as its text. */
  predicate ResultStands(m: ChatMessage, b: Block) {
    && m.role == "tool" && m.toolCallId == b.toolUseId
    && (b.content.Missing? ==> m.content == Some(""))
    && (b.content.JsonString? ==> m.content == Some(b.content.text))
    && (b.content.OtherJson? ==> m.content == Some(b.content.raw))
  }

  ghost predicate CallsStand(calls: seq<ToolCall>, blocks: seq<Block>, quote: Bytes -> Bytes) {
    |calls| == |blocks| && forall i :: 0 <= i < |calls| ==> CallStands(calls[i], blocks[i], quote)
  }

  ghost predicate ResultsStand(ms: seq<ChatMessage>, blocks: seq<Block>) {
    |ms| == |blocks| && forall i :: 0 <= i < |ms| ==> ResultStands(ms[i], blocks[i])
  }

  lemma {:induction false} CallsAreUses(blocks: seq<Block>, quote: Bytes -> Bytes)
    ensures CallsStand(Calls(blocks, quote), UsesIn(blocks), quote)
  {
    if blocks != [] {
      CallsAreUses(blocks[..|blocks| - 1], quote);
    }
  }

  lemma {:induction false} ToolMessagesAreResults(blocks: seq<Block>)
    ensures ResultsStand(ToolMessages(blocks), ResultsIn(blocks))
    ensures ChatResults(ToolMessages(blocks)) == ToolMessages(blocks) && ChatCalls(ToolMessages(blocks)) == []
  {
    hide IsResult, HoldsResult;
    if blocks != [] {
      var init, b := blocks[..|blocks| - 1], blocks[|blocks| - 1];
      ToolMessagesAreResults(init);
      ResultsAnswer(b);
      if IsResult(b) {
        OneMoreResult(ToolMessages(init), ResultsIn(init), b);
      } else {
        assert ToolMessages(blocks) == ToolMessages(init);
      }
    }
  }

  lemma OneMoreResult(ms: seq<ChatMessage>, blocks: seq<Block>, b: Block)
    requires ResultsStand(ms, blocks) && ChatResults(ms) == ms && ChatCalls(ms) == [] && IsResult(b)
    ensures var one := ms + [ResultOf(b)];
            ResultsStand(one, blocks + [b]) && ChatResults(one) == one && ChatCalls(one) == []
  {
    hide ChatResults, ChatCalls;
    ChatConcat(ms, [ResultOf(b)]);
    ChatOne(ResultOf(b));
  }

  lemma ChatConcat(a: seq<ChatMessage>, b: seq<ChatMessage>)
    ensures ChatCalls(a + b) == ChatCalls(a) + ChatCalls(b)
    ensures ChatResults(a + b) == ChatResults(a) + ChatResults(b)
  {
    ChatCallsConcat(a, b);
    ChatResultsConcat(a, b);
  }

  lemma {:induction false} ChatCallsConcat(a: seq<ChatMessage>, b: seq<ChatMessage>)
    ensures ChatCalls(a + b) == ChatCalls(a) + ChatCalls(b)
    decreases |a|
  {
    if a == [] {
      assert a + b == b;
    } else {
      assert (a + b)[0] == a[0] && (a + b)[1..] == a[1..] + b;
      ChatCallsConcat(a[1..], b);
      Reassociate(a[0].toolCalls, ChatCalls(a[1..]), ChatCalls(b));
    }
  }

  lemma {:induction false} ChatResultsConcat(a: seq<ChatMessage>, b: seq<ChatMessage>)
    ensures ChatResults(a + b) == ChatResults(a) + ChatResults(b)
    decreases |a|
  {
    if a == [] {
      assert a + b == b;
    } else {
      assert (a + b)[0] == a[0] && (a + b)[1..] == a[1..] + b;
      ChatResultsConcat(a[1..], b);
      Reassociate(if a[0].toolCallId != "" then [a[0]] else [], ChatResults(a[1..]), ChatResults(b));
    }
  }

  lemma Reassociate<T>(a: seq<T>, b: seq<T>, c: seq<T>)
    ensures a + b + c == a + (b + c)
  {
  }

  lemma ChatOne(m: ChatMessage)
    ensures ChatCalls([m]) == m.toolCalls
    ensures ChatResults([m]) == if m.toolCallId != "" then [m] else []
  {
    assert [m][1..] == [];
  }

  lemma MessageStands(m: Message, quote: Bytes -> Bytes)
    ensures CallsStand(ChatCalls(Converted(m, quote)), UseBlocks(m), quote)
    ensures ResultsStand(ChatResults(Converted(m, quote)), ResultBlocks(m))
  {
    hide Texts, AllTexts, Join, Calls, ToolMessages, UsesIn, ResultsIn, CallStands, ResultStands;
    hide ChatCalls, ChatResults;
    if m.role == "user" && m.content.Blocks? {
      var blocks := m.content.blocks;
      var tail := UserMessages(blocks)[|ToolMessages(blocks)|..];
      assert UserMessages(blocks) == ToolMessages(blocks) + tail;
      ChatConcat(ToolMessages(blocks), tail);
      ToolMessagesAreResults(blocks);
      if tail == [] {
        NoChat(quote);
      } else {
        assert tail == [tail[0]];
        ChatOne(tail[0]);
      }
    } else {
      ChatOne(Converted(m, quote)[0]);
      if m.role == "assistant" && m.content.Blocks? {
        CallsAreUses(m.content.blocks, quote);
      }
    }
  }

  lemma NoChat(quote: Bytes -> Bytes)
    ensures ChatCalls([]) == [] && ChatResults([]) == []
    ensures CallsStand([], [], quote) && ResultsStand([], [])
  {
  }

  lemma CallsJoin(c: seq<ToolCall>, u: seq<Block>, d: seq<ToolCall>, v: seq<Block>, quote: Bytes -> Bytes)
    requires CallsStand(c, u, quote) && CallsStand(d, v, quote)
    ensures CallsStand(c + d, u + v, quote)
  {
    hide CallStands;
  }

  lemma ResultsJoin(r: seq<ChatMessage>, a: seq<Block>, s: seq<ChatMessage>, b: seq<Block>)
    requires ResultsStand(r, a) && ResultsStand(s, b)
    ensures ResultsStand(r + s, a + b)
  {
    hide ResultStands;
  }

  lemma {:induction false} AllStand(msgs: seq<Message>, quote: Bytes -> Bytes)
    ensures CallsStand(ChatCalls(ConvertedAll(msgs, quote)), AllUseBlocks(msgs), quote)
    ensures ResultsStand(ChatResults(ConvertedAll(msgs, quote)), AllResultBlocks(msgs))
  {
    hide Converted, CallsStand, ResultsStand, UseBlocks, ResultBlocks, ChatCalls, ChatResults;
    if msgs == [] {
      NoChat(quote);
    } else {
      var first, rest := Converted(msgs[0], quote), ConvertedAll(msgs[1..], quote);
      MessageStands(msgs[0], quote);
      AllStand(msgs[1..], quote);
      ChatConcat(first, rest);
      CallsJoin(ChatCalls(first), UseBlocks(msgs[0]), ChatCalls(rest), AllUseBlocks(msgs[1..]), quote);
      ResultsJoin(ChatResults(first), ResultBlocks(msgs[0]), ChatResults(rest), AllResultBlocks(msgs[1..]));
    }
  }

  /** In every translated transcript the calls are the tool_use blocks, each with its id, name and arguments, and
      the tool messages are the tool results, each with its id and content, in order. */
  lemma ContentsPreserved(system: Content, msgs: seq<Message>, quote: Bytes -> Bytes)
    ensures CallsStand(ChatCalls(Transcript(system, msgs, quote)), AllUseBlocks(msgs), quote)
    ensures ResultsStand(ChatResults(Transcript(system, msgs, quote)), AllResultBlocks(msgs))
  {
    hide ConvertedAll, SystemText, ChatCalls, ChatResults, CallsStand, ResultsStand;
    var all := ConvertedAll(msgs, quote);
    AllStand(msgs, quote);
    assert [] + all == all;
    if SystemText(system) != "" {
      var first := ChatMessage("system", Some(SystemText(system)), [], "");
      ChatOne(first);
      ChatConcat([first], all);
      assert [] + ChatCalls(all) == ChatCalls(all) && [] + ChatResults(all) == ChatResults(all);
    }
  }
}
