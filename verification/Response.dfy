/** The non-streaming translator of a whole chat completion (internal/wire/response.go). */
module Response {
  import opened Text
  import Events
  import Stream

  /** The `content` of an upstream message, which may be any JSON value. For an array, one entry per
      element: its text when it is an object with a text string. `Other` carries Go's %v rendering. */
  datatype MessageContent =
    | Null
    | Plain(text: Bytes)
    | Parts(parts: seq<Option<Bytes>>)
    | Other(printed: Bytes)

  type ToolCall = Events.ToolCall

  datatype FullChoice = FullChoice(
    content: MessageContent, reasoning: Bytes, toolCalls: seq<ToolCall>, finishReason: Option<Bytes>)

  const NO_CHOICE := FullChoice(Null, "", [], None)

  datatype Completion = Completion(id: Bytes, choices: seq<FullChoice>, usage: Option<Events.ChunkUsage>)

  datatype ContentBlock =
    | ThinkingContent(text: Bytes)
    | TextContent(text: Bytes)
    | ToolUseContent(id: Bytes, name: Bytes, input: Bytes)

  datatype ResponseUsage = ResponseUsage(
    input: int, output: int, cacheRead: Option<int>, cacheCreation: Option<int>, serverTools: Option<(nat, nat)>)

  datatype Message = Message(
    id: Bytes, model: Bytes, content: seq<ContentBlock>, stopReason: Bytes, usage: ResponseUsage)

  /** JSON decoding and re-encoding of a tool input; None when the text is not JSON. */
  type Decoder = Bytes -> Option<Bytes>

  function PartTexts(parts: seq<Option<Bytes>>): seq<Bytes> {
    if parts == [] then []
    else PartTexts(parts[..|parts| - 1]) + (if parts[|parts| - 1].Some? then [parts[|parts| - 1].value] else [])
  }

  function ContentText(c: MessageContent): Bytes {
    match c
    case Null => ""
    case Plain(t) => t
    case Parts(ps) => Join(PartTexts(ps), "\n")
    case Other(t) => t
  }

  /** A tool input that is missing or not JSON is the empty object. */
  function ToolInput(decode: Decoder, arguments: Bytes): Bytes {
    if arguments == "" || decode(arguments).None? then "{}" else decode(arguments).value
  }

  function ToolBlock(decode: Decoder, tc: ToolCall): ContentBlock {
    ToolUseContent(tc.id, tc.name, ToolInput(decode, tc.arguments))
  }

  /** The blocks of a whole message: thinking, then text, then one block a call. */
  function MessageBlocks(decode: Decoder, c: FullChoice): seq<ContentBlock> {
    (if c.reasoning != "" then [ThinkingContent(c.reasoning)] else []) +
    (if !c.content.Null? && (ContentText(c.content) != "" || c.toolCalls == [])
     then [TextContent(ContentText(c.content))] else []) +
    ToolBlocks(decode, c.toolCalls)
  }

  function ToolBlocks(decode: Decoder, tcs: seq<ToolCall>): seq<ContentBlock> {
    seq(|tcs|, i requires 0 <= i < |tcs| => ToolBlock(decode, tcs[i]))
  }

  function StopReason(c: FullChoice): Bytes {
    Stream.MapFinishReason(if c.finishReason.Some? then c.finishReason.value else "")
  }

  function FirstChoice(c: Completion): FullChoice {
    if c.choices == [] then NO_CHOICE else c.choices[0]
  }

  predicate FinishedWith(c: Completion, reason: Bytes) {
    c.choices != [] && c.choices[0].finishReason == Some(reason)
  }

  predicate FinishedOtherwise(c: Completion) {
    !FinishedWith(c, "length") && !FinishedWith(c, "tool_calls") && !FinishedWith(c, "function_call") &&
    !FinishedWith(c, "content_filter")
  }

  /** The stop reason in words: a missing finish reason is like any that has no counterpart. */
  predicate SaysWhy(body: Completion, stop: Bytes) {
    && (stop == "max_tokens" <==> FinishedWith(body, "length"))
    && (stop == "tool_use" <==> FinishedWith(body, "tool_calls") || FinishedWith(body, "function_call"))
    && (stop == "content_filter" <==> FinishedWith(body, "content_filter"))
    && (stop == "end_turn" <==> FinishedOtherwise(body))
  }

  lemma StopReasonSays(body: Completion)
    ensures SaysWhy(body, StopReason(FirstChoice(body)))
  {
  }

  /** Number of calls to the tool of that name. */
  function Calls(tcs: seq<ToolCall>, name: Bytes): nat {
    if tcs == [] then 0
    else Calls(tcs[..|tcs| - 1], name) + if tcs[|tcs| - 1].name == name then 1 else 0
  }

  /** server_tool_use appears only when some web tool was called, with the two call counts. */
  function ServerTools(tcs: seq<ToolCall>): Option<(nat, nat)> {
    var searches, fetches := Calls(tcs, "web_search"), Calls(tcs, "web_fetch");
    if searches > 0 || fetches > 0 then Some((searches, fetches)) else None
  }

  method ContentToString(c: MessageContent) returns (r: Bytes)
    ensures r == ContentText(c)
  {
    match c
    case Null => r := "";
    case Plain(t) => r := t;
    case Parts(ps) =>
      var parts: seq<Bytes> := [];
      for i := 0 to |ps|
        invariant parts == PartTexts(ps[..i])
      {
        assert ps[..i + 1][..i] == ps[..i];
        if ps[i].Some? {
          parts := parts + [ps[i].value];
        }
      }
      assert ps[..|ps|] == ps;
      r := Join(parts, "\n");
    case Other(t) => r := t;
  }

  /** The tool_use blocks of a message and the number of web searches and fetches among its calls. */
  method ConvertToolCalls(decode: Decoder, toolCalls: seq<ToolCall>)
    returns (blocks: seq<ContentBlock>, webSearch: nat, webFetch: nat)
    ensures blocks == ToolBlocks(decode, toolCalls)
    ensures webSearch == Calls(toolCalls, "web_search")
    ensures webFetch == Calls(toolCalls, "web_fetch")
  {
    blocks, webSearch, webFetch := [], 0, 0;
    for i := 0 to |toolCalls|
      invariant |blocks| == i
      invariant forall j :: 0 <= j < i ==> blocks[j] == ToolBlock(decode, toolCalls[j])
      invariant webSearch == Calls(toolCalls[..i], "web_search")
      invariant webFetch == Calls(toolCalls[..i], "web_fetch")
    {
      var tc := toolCalls[i];
      var input := "{}";
      if tc.arguments != "" {
        var decoded := decode(tc.arguments);
        if decoded.Some? {
          input := decoded.value;
        }
      }
      blocks := blocks + [ToolUseContent(tc.id, tc.name, input)];
      assert toolCalls[..i + 1][..i] == toolCalls[..i];
      if tc.name == "web_search" {
        webSearch := webSearch + 1;
      } else if tc.name == "web_fetch" {
        webFetch := webFetch + 1;
      }
    }
    assert toolCalls[..|toolCalls|] == toolCalls;
  }

  /** cache_creation_input_tokens comes with cache_read_input_tokens, 0 when the misses are not reported. */
  function CacheCreation(reported: Option<Events.ChunkUsage>): Option<int> {
    if reported.None? || reported.value.cacheHit.None? then None
    else if reported.value.cacheMiss.Some? then reported.value.cacheMiss
    else Some(0)
  }

  method ConvertUsage(reported: Option<Events.ChunkUsage>, webSearch: nat, webFetch: nat) returns (usage: ResponseUsage)
    ensures usage.serverTools == if webSearch > 0 || webFetch > 0 then Some((webSearch, webFetch)) else None
    ensures reported.None? ==> usage.input == 0 && usage.output == 0
    ensures reported.Some? ==> usage.input == reported.value.prompt && usage.output == reported.value.completion
    ensures usage.cacheRead == (if reported.Some? then reported.value.cacheHit else None)
    ensures usage.cacheCreation == CacheCreation(reported)
  {
    usage := ResponseUsage(0, 0, None, None, None);
    if reported.Some? {
      var u := reported.value;
      usage := usage.(input := u.prompt, output := u.completion);
      if u.cacheHit.Some? {
        var miss := 0;
        if u.cacheMiss.Some? {
          miss := u.cacheMiss.value;
        }
        usage := usage.(cacheRead := u.cacheHit, cacheCreation := Some(miss));
      }
    }
    if webSearch > 0 || webFetch > 0 {
      usage := usage.(serverTools := Some((webSearch, webFetch)));
    }
  }

  /** TranslateOpenAIResponse on a decoded body; `freshId` is the random id used when the body has none. */
  method TranslateOpenAIResponse(decode: Decoder, body: Completion, model: Bytes, freshId: Bytes) returns (m: Message)
    ensures m.id == if body.id == "" then freshId else body.id
    ensures m.model == model
    ensures m.content == MessageBlocks(decode, FirstChoice(body))
    ensures m.stopReason == StopReason(FirstChoice(body))
    ensures SaysWhy(body, m.stopReason)
    ensures m.usage.serverTools == ServerTools(FirstChoice(body).toolCalls)
    ensures body.usage.None? ==> m.usage.input == 0 && m.usage.output == 0
    ensures body.usage.Some? ==>
              m.usage.input == body.usage.value.prompt && m.usage.output == body.usage.value.completion
    ensures m.usage.cacheRead == (if body.usage.Some? then body.usage.value.cacheHit else None)
    ensures m.usage.cacheCreation == CacheCreation(body.usage)
  {
    hide ContentText, ToolBlocks, ToolBlock, CacheCreation, Calls, Stream.MapFinishReason, SaysWhy;
    StopReasonSays(body);
    var content: seq<ContentBlock> := [];
    var msgContent, msgToolCalls, msgReasoning, finishReason := Null, [], "", "";
    ghost var c := FirstChoice(body);
    if |body.choices| > 0 {
      msgContent := body.choices[0].content;
      msgToolCalls := body.choices[0].toolCalls;
      msgReasoning := body.choices[0].reasoning;
      if body.choices[0].finishReason.Some? {
        finishReason := body.choices[0].finishReason.value;
      }
    }

    assert msgContent == c.content && msgToolCalls == c.toolCalls && msgReasoning == c.reasoning;

    if msgReasoning != "" {
      content := content + [ThinkingContent(msgReasoning)];
    }
    if !msgContent.Null? {
      var text := ContentToString(msgContent);
      if text != "" || |msgToolCalls| == 0 {
        content := content + [TextContent(text)];
      }
    }
    var blocks, webSearch, webFetch := ConvertToolCalls(decode, msgToolCalls);
    content := content + blocks;

    var usage := ConvertUsage(body.usage, webSearch, webFetch);
    var id := body.id;
    if id == "" {
      id := freshId;
    }
    m := Message(id, model, content, Stream.MapFinishReason(finishReason), usage);
  }

  lemma {:induction false} CallsPositive(tcs: seq<ToolCall>, name: Bytes)
    ensures Calls(tcs, name) > 0 <==> exists i :: 0 <= i < |tcs| && tcs[i].name == name
    decreases |tcs|
  {
    if tcs != [] {
      CallsPositive(tcs[..|tcs| - 1], name);
    }
  }
}
