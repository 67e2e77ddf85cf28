# A verified model of defiant-claude

defiant-claude is a local proxy that speaks the Anthropic Messages protocol to a client and routes each
request to one of many upstream providers. This project models the parts of it whose correctness spans many
steps, in Dafny 4.11, and proves what they promise over every input and every run. `dafny verify
dfyconfig.toml` checks all of it.

Each stateful part has two descriptions that are proved equal: the Go code's own form (classes with the
same fields, loops, in-place arrays) and a specification function or state machine over a log of calls. The
theorems are about the specification, so they hold of the code's form through the methods' contracts.

| file | what it models |
|---|---|
| `Text.dfy` | byte strings and the operations of Go's `strings` and `bytes` that are used |
| `Events.dfy`, `Stream.dfy` | upstream chunks, client events, what the stream translator does with each upstream fact, the message grammar |
| `StreamRuns.dfy`, `StopReasons.dfy` | whole runs of the translator: interleaved calls, content behind the finish, usage, broken sources, the stop reason and errors that the client is told |
| `Sse.dfy`, `StreamReader.dfy` | server-sent event framing, the resumable reader with its output buffer, the copy loop |
| `EventLines.dfy`, `WireText.dfy` | the very bytes: what is read from any lines with any line ends, what is written for each event |
| `Response.dfy`, `Agreement.dfy`, `CutMessages.dfy` | the non-streaming translator, its agreement with the stream on every message however it is cut, and the limits of that agreement |
| `Breaker.dfy`, `Canary.dfy`, `Momentum.dfy` | circuit breakers, gradual rollout with its 32-bit hash, session momentum |
| `Routing.dfy` | model resolution, fallbacks, and the launcher that writes the names to be resolved |
| `Fallback.dfy`, `Accounting.dfy` | retries, the provider chain and its in-place reordering, the bookkeeping of a request by the statuses of its responses |
| `Limiter.dfy` | the concurrency limiter as interleaved atomic steps of any number of threads |
| `MergeRank.dfy`, `TopHits.dfy` | merging and ranking of search results, and what the ranking means for the results that were read |
| `Pairing.dfy` | transcript translation |
| `Strip.dfy`, `Duplicates.dfy` | body stripping, and what it removes in terms of roles, contents and field names |
| `UsageTee.dfy` | usage accounting on a passing stream |

A `char` stands for a byte. Times are nanoseconds. The upstream is an arbitrary function from request
numbers to outcomes, sleeping adds to a counter, the clock is an input that never goes back, and JSON
encoding and decoding are function parameters.

Where the code differs from what its comments or its users may expect, the model follows the code:

- Content that arrives after a finish opens a block again. A later block closes it, but nothing closes the
  last one (`StreamRuns.LateTextStaysOpen`). Starts and stops are equally many exactly when nothing makes a
  block behind the first finish (`StreamRuns.BlocksClosedIff`), and exactly which upstream runs give one
  well-formed message is `Stream.OutputIsMessageIff`.
- The block looked up for a tool-argument fragment, by its index or as the last tool's, decides only whether
  the fragment is written (`Stream.ToolIndexSign`); it always goes to the newest block. With two calls
  interleaved, an argument of the first ends in the block of the second, in a message that is otherwise well
  formed (`StreamRuns.InterleavedMisplaces`); behind text it ends in the text block
  (`StreamRuns.UnindexedMisplaces`). Every written fragment reaches the block looked up for it exactly when
  the fragments come in turn (`StreamRuns.FragmentsReachIff`), and lands on an open tool block exactly when
  none comes behind text, reasoning or the finish without another name (`StreamRuns.FragmentsLandOpenIff`).
- A request asks for usage in the stream, which comes in a last chunk without choices, and the translator
  ignores such a chunk (`StreamRuns.LastUsageIgnored`). All reported usage counts exactly when each report
  comes in a chunk with a choice and without an error (`StreamRuns.EveryReportCountsIff`).
- A tool call without a name is dropped by the stream and kept by the non-streaming translator, so the two
  agree exactly on messages whose calls have names (`CutMessages.WholeMessageAgreesIff`).
- `active` of the limiter can exceed the limit during a release (`Limiter.ActiveCanExceedLimit`), exactly when
  more threads are in mid-release than there are free permits and threads in mid-acquire
  (`Limiter.ActiveMeetsTokens`).
- The comment on `stripCacheControl` speaks of every content block, but only message blocks are cleaned: a
  system block keeps its mark (`Strip.SystemStaysMarked`). A stripped body has no cache_control on any content
  block exactly when the system blocks that stay had none (`Strip.CacheFreeIff`).
- `stripBillingHeader` removes only the first marked block, so stripping is idempotent exactly when there is
  at most one (`Strip.StripTwiceIff`; `Strip.TwoMarkedBlocksRemain` is a body with two).
- `stripDuplicateMessages` compares two roles with `==`, which panics in Go when both are maps or both are
  slices: `Strip.ObjectRolesPanic`, and exactly when in `Strip.PanicsIff`.
- The canary's success streak is not reset when a slot enters WARMING, so successes from before count
  towards ACTIVE (`Canary.EarlyPromotion`). The successes in WARMING alone earn a promotion exactly when the
  stay had an error or a single success is enough (`Canary.EarnedInWarmingIff`).
- A bare model name that is the alias of a slot resolves to the backend's spec for the slot only if expansion
  leaves it alone and no other slot has the same alias (`Routing.AllAliasesResolveIff`,
  `Routing.SharedAliasLost`).
- The status that `forward` reports when everything failed is the last HTTP status of the last provider
  alone, 0 when that provider only had transport errors (`Fallback.LatestStatusLost`). It is the latest status
  of all exactly when the last provider responded or nobody did (`Fallback.StatusIsLatestIff`).

## Model

| member | source | states |
|---|---|---|
| Events.GrammaticalReading | internal/wire/stream.go:107-196 | whatever an observer has accepted as grammatical is, event for event, the unfolding of the message it has assembled |
| Events.MessageObserved | internal/wire/stream.go:107-196 | a well-formed message is accepted and yields exactly its blocks |
| Events.CompleteIffMessage | internal/wire/stream.go:107-196 | the observer accepts with given blocks if and only if the events are message_start, those blocks opened, filled, closed and numbered from 0, message_delta, message_stop |
| Events.DisciplineCounts | internal/wire/stream.go:134-196 | disciplined events hold exactly as many starts and stops of each kind as the final state accounts for |
| Events.StartsNumbered | internal/wire/stream.go:134-143 | the k-th content_block_start carries index k |
| Stream.EmitAllConcat | internal/wire/stream.go:234-361 | translating a concatenation is translating the parts one after the other, with the state carried over |
| Stream.ToolIndexSign | internal/wire/stream.go:341-348 | looking a tool index up never changes whether an argument fragment is written; where it is written is the subject of StreamRuns.FragmentsReachIff |
| Stream.EmitTracks | internal/wire/stream.go:134-361 | every single step keeps the translator's fields in agreement with what a client has seen, and keeps the block discipline |
| Stream.BlockDiscipline | internal/wire/stream.go:134-178 | for every payload sequence: blocks numbered 0, 1, 2, ..., at most one open, stops and text and thinking fragments on the open block, at most one message_start and before any block, exactly one message_stop |
| Stream.EmitGrammar | internal/wire/stream.go:234-361 | one step keeps the output a prefix of a well-formed message exactly when the fact is allowed in the current phase |
| Stream.OutputIsMessageIff | internal/wire/stream.go:234-361 | the whole output is one well-formed message if and only if the upstream run is orderly: begun by a choice or [DONE], no error, nothing block-making after the finish, arguments only while the named tool's block is open |
| Stream.EmitReceived | internal/wire/stream.go:287-354 | a step delivers to each kind of block exactly the text of its fact, argument text only once a tool has been named |
| Stream.NothingLost | internal/wire/stream.go:271-354 | for every payload sequence the thinking, text and argument text received is, in order, exactly that of the processed choices |
| StopReasons.StopReasonTold | internal/wire/stream.go:29-43 | for every payload sequence the client is told one stop reason: "max_tokens" if and only if the first end among the payloads (finish_reason of a processed choice, [DONE], error) is the reason "length", "tool_use" for "tool_calls" or "function_call", "content_filter" for itself, "end_turn" for everything else |
| StopReasons.EveryErrorTold | internal/wire/stream.go:249-264 | for every payload sequence the error events carry the messages of the error payloads, in order, with "upstream error" for an empty one, and there are no others |
| StreamRuns.FollowsOn | internal/wire/stream.go:318-354 | one step keeps the index map and the last tool in agreement with what made the newest block, and a fragment reaches the block looked up for it exactly if it is due |
| StreamRuns.FragmentsReachIff | internal/wire/stream.go:341-353 | for every payload sequence, every written argument fragment, under a known index, an unknown one or none, goes to the block looked up for it if and only if each comes while the call meant is the newest block |
| StreamRuns.FragmentsLandOpenIff | internal/wire/stream.go:341-353 | for every payload sequence, every argument fragment lands on an open tool block if and only if, once a call is named, none comes behind text, reasoning or the first finish without another name |
| StreamRuns.UnindexedMisplaces | internal/wire/stream.go:302-353 | the failing input: the argument of a call without an index, behind text, is written into the text block |
| StreamRuns.InterleavedMisplaces | internal/wire/stream.go:317-353 | the failing input: two calls interleaved give one well-formed message with the argument of the first in the block of the second |
| StreamRuns.OpenAtEndIff | internal/wire/stream.go:182-187 | from any state, a block is open at the end exactly if one came behind the finish |
| StreamRuns.BlocksClosedIff | internal/wire/stream.go:180-361 | block stops equal block starts if and only if nothing makes a block behind the first finish |
| StreamRuns.LateTextStaysOpen | internal/wire/stream.go:302-358 | the failing input: text behind a finish leaves two blocks started and one stopped |
| StreamRuns.UsageOfRun | internal/wire/stream.go:266-285 | the usage of a run is the fold of the reports in chunks with a choice and without an error |
| StreamRuns.EveryReportCountsIff | internal/wire/stream.go:249-285 | every report the upstream sends becomes a usage fact of the run if and only if each comes in a chunk with a choice and without an error |
| StreamRuns.LastUsageIgnored | internal/wire/wire.go:161-163 | the failing input: the usage chunk that the request asks for, without choices, leaves the usage at zero |
| StreamRuns.TokensTold | internal/wire/stream.go:189-193 | the token count in message_delta is the completion count reported last before the first finish |
| StreamRuns.UsageReported | internal/wire/stream.go:275-285 | after any run the input and output counts are those of the last report, and each cache count is that of the last report that had one |
| StreamRuns.BrokenOffDiscipline | internal/wire/stream.go:72-79 | without the finish at a clean end the events are still disciplined, with at most one message_stop |
| Sse.FrameRead | internal/wire/stream.go:84-112 | reading one emitted frame gives back its payload and leaves exactly the bytes behind it |
| Sse.FramesRoundTrip | internal/wire/stream.go:84-112 | reading back any list of framed events recovers their payloads, in order, and nothing else |
| Text.TrimSpaceCuts | internal/wire/stream.go:92 | what is trimmed is white space only, at both ends, and what is left neither starts nor ends with white space |
| Text.SpaceCodePoints | internal/wire/stream.go:92 | white space is exactly the code points that unicode.IsSpace names, in UTF-8 |
| Text.JoinTwo | internal/wire/stream.go:95 | joining puts the separator between the parts |
| EventLines.LineRead | internal/wire/stream.go:86-98 | what one line of any kind, ending in any number of carriage returns and a newline, does to the event being read |
| EventLines.EveryLineRead | internal/wire/stream.go:84-105 | for every list of lines the payloads read are, at each blank line, the data lines since the last one, trimmed and joined with newlines |
| EventLines.EventsReadBack | internal/wire/stream.go:84-105 | for every list of events, with LF or CRLF line ends, several data lines, comments and other fields between them, reading gives one payload an event: its data lines, trimmed and joined |
| EventLines.CrlfSeparates | internal/wire/stream.go:90-96 | "data: A" and "data: B" with CRLF line ends and a blank line behind each are two events, A and B |
| WireText.EventBytes | internal/wire/stream.go:109-196 | every event is written as "event: ", its type, a newline, "data: ", its JSON and an empty line |
| StreamReader.UpcomingIsFold | internal/wire/stream.go:61-82 | the bytes produced event by event are the rendering of one fold over all payloads, followed by the finish at a clean end only |
| StreamReader.OpenAIStream.constructor | internal/wire/stream.go:14-22 | a new reader will return exactly the translation of its source |
| StreamReader.OpenAIStream.StartMessage | internal/wire/stream.go:271-274 | the message starts with the first choice, [DONE] or error, and only once |
| StreamReader.OpenAIStream.CloseBlock | internal/wire/stream.go:145-165 | closes whatever is open, a thinking block with its signature first, and leaves nothing open |
| StreamReader.OpenAIStream.FinishStream | internal/wire/stream.go:180-196 | equals the finish step of the specification, and does nothing the second time |
| StreamReader.OpenAIStream.AddText | internal/wire/stream.go:287-315 | the reasoning and content branches equal the text step of the specification |
| StreamReader.OpenAIStream.StartTool | internal/wire/stream.go:319-340 | the naming branch of a tool call equals the naming step, including the index maps |
| StreamReader.OpenAIStream.AddArguments | internal/wire/stream.go:341-353 | the argument branch equals the argument step |
| StreamReader.OpenAIStream.ProcessToolCall | internal/wire/stream.go:318-354 | one round of the tool loop equals the fold over that call's facts |
| StreamReader.OpenAIStream.ProcessToolCalls | internal/wire/stream.go:317-354 | the tool loop equals the fold over the facts of all calls |
| StreamReader.OpenAIStream.RecordUsage | internal/wire/stream.go:275-285 | the usage branch equals the report step; missing cache counts keep their old values |
| StreamReader.OpenAIStream.StartAndFinish | internal/wire/stream.go:235-264 | [DONE] and error payloads start the message if need be and finish it |
| StreamReader.OpenAIStream.ProcessTexts | internal/wire/stream.go:271-315 | the part of a choice before its tool calls equals the fold over its facts |
| StreamReader.OpenAIStream.ProcessChoice | internal/wire/stream.go:269-360 | a whole choice equals the fold over its facts |
| StreamReader.OpenAIStream.ProcessEvent | internal/wire/stream.go:234-361 | one payload equals the fold over its facts, in new fields and in written events |
| StreamReader.OpenAIStream.ReadEvent | internal/wire/stream.go:84-105 | the line loop returns the next event's payload and leaves exactly the bytes behind it |
| StreamReader.OpenAIStream.Fill | internal/wire/stream.go:68-80 | a turn of the loop changes nothing about the bytes still to come, and uses up input or finishes |
| StreamReader.OpenAIStream.TakeOut | internal/wire/stream.go:63-67 | the buffered bytes are handed out in order, as many as fit |
| StreamReader.OpenAIStream.Read | internal/wire/stream.go:61-82 | each read returns the next bytes of what is still to come, some if there are any and the buffer has room, and reports an end exactly when there are none |
| StreamReader.CopyStream | internal/proxy/server.go:524-553 | the client receives a prefix of the translation within the body cap, and all of it when it fits |
| StreamReader.ReadRun | internal/wire/stream.go:61-82 | for every sequence of read sizes the pieces are the next bytes of the stream, non-zero reads make progress until nothing is left, and after an end every read is at an end |
| StreamReader.OneStop | internal/wire/stream.go:61-82 | the bytes of a source render disciplined events with exactly one message_stop at a clean end and at most one from a source that breaks off |
| StreamReader.ClientReadsEvents | internal/wire/stream.go:84-112 | a client that parses the bytes reads exactly the translated events, in order |
| StreamReader.OnlyPayloadsMatter | internal/wire/stream.go:61-105 | sources whose events decode to the same payloads give the same bytes, whatever the line ends, other fields and comments around them |
| WireText.DoneAlone | internal/wire/stream.go:234-242 | a source that says only [DONE] becomes message_start, message_delta with "end_turn" and no tokens, message_stop, whatever a JSON decoder makes of the word |
| Response.ContentToString | internal/wire/response.go:116-135 | the text of a message content of any JSON kind |
| Response.ConvertToolCalls | internal/wire/response.go:61-77 | one tool block a call, with undecodable input as the empty object, and the number of web searches and fetches |
| Response.ConvertUsage | internal/wire/response.go:79-97 | the usage object; cache counts appear together, tool counts only when a web tool was called |
| Response.TranslateOpenAIResponse | internal/wire/response.go:9-114 | the content, ids and the whole usage of the non-streaming translation; the stop reason is "max_tokens" if and only if the first choice finished with "length", "tool_use" for "tool_calls" and "function_call", "content_filter" for itself, "end_turn" for anything else and for none |
| Response.StopReasonSays | internal/wire/response.go:37-44 | the same of the mapping alone, a missing finish reason included |
| Response.CallsPositive | internal/wire/response.go:72-76 | a tool counter is positive exactly when that tool was called |
| Agreement.EmitShows | internal/wire/stream.go:234-361 | every step keeps what the client sees equal to an assembly over facts alone |
| Agreement.GrowCut | internal/wire/stream.go:287-358 | any cut of a message assembles to its thinking, its text and its calls, with its stop reason |
| Agreement.StreamAgrees | internal/wire/response.go:33-77 | for every message and every cut of it into chunks, the client of the stream assembles the blocks and stop reason of the non-streaming translation; only the latter adds an empty text block to empty content without calls |
| Agreement.WholeMessageIsCut | internal/wire/stream.go:234-361 | sending a message whose calls have names in one chunk is one of its cuts; CutMessages.WholeMessageAgreesIff decides the others |
| CutMessages.CutOrderly | internal/wire/stream.go:287-358 | the pieces of a cut message, closed by the finish, are an orderly run |
| CutMessages.CutIsMessageIff | internal/wire/stream.go:234-361 | the stream of a cut message is one well-formed message, of exactly the blocks that the client assembles, if and only if any payload counts |
| CutMessages.OutputNamed | internal/wire/stream.go:319-340 | the stream never starts a tool block without a name, for every payload sequence |
| CutMessages.NamelessNeverAgrees | internal/wire/response.go:62-71 | for a message with a call without a name no chunks at all make the stream agree with the non-streaming translation |
| CutMessages.WholeMessageAgreesIff | internal/wire/response.go:62-71 | a message sent in one chunk reads the same from the stream if and only if all its calls have names |
| Breaker.EntriesWellFormed | internal/resilience/breaker.go:136-212 | in every reachable state no entry is CLOSED, an OPEN one has cooldown min(300s, 60s times 2^probes), a HALF_OPEN one that of one probe fewer, with at most five probes |
| Breaker.StatsAreCounts | internal/resilience/breaker.go:80-103 | the counters are the numbers of requests, successes and failures of the run, and requests are successes, failures and throttlings |
| Breaker.LosesHealthIff | internal/resilience/breaker.go:94-102 | a healthy provider becomes unhealthy exactly on a failure other than 429 after which there are at least five requests, 34% of them failed |
| Breaker.RegainsHealthIff | internal/resilience/breaker.go:192-212 | an unhealthy provider becomes healthy exactly on a successful probe result while HALF_OPEN |
| Breaker.NoFailuresNoOutage | internal/resilience/breaker.go:77-103 | a run without failures other than 429 never costs a provider its health |
| Breaker.AtMostOneProbe | internal/resilience/breaker.go:168-212 | HALF_OPEN is exactly an outstanding probe, and no probe starts while one is outstanding |
| Breaker.ScheduleKept | internal/resilience/breaker.go:168-212 | with a clock that never goes back every entry stands where the schedule of its outage puts it |
| Breaker.ProbeNotBefore | internal/resilience/breaker.go:168-190 | the n-th probe of an outage starts no earlier than its opening plus the first n waits of 60, 120, 240, 300, 300, 300, 120, ... seconds |
| Breaker.WaitSumClosedForm | internal/resilience/breaker.go:10-13 | the sum of the waits in closed form: 21 minutes for every five probes after the first |
| Breaker.Breakers.constructor | internal/resilience/breaker.go:69-75 | new breakers have seen nothing |
| Breaker.Breakers.RecordStat | internal/resilience/breaker.go:80-103 | the state stays the one that the log of all calls determines, with this call appended |
| Breaker.Breakers.OpenBreaker | internal/resilience/breaker.go:136-146 | opens the breaker unless it is already open or half open |
| Breaker.Breakers.RecordUsage | internal/resilience/breaker.go:105-119 | the state stays the one that the log determines; health is untouched |
| Breaker.Breakers.RecordCost | internal/resilience/breaker.go:121-134 | the state stays the one that the log determines; health is untouched |
| Breaker.Breakers.IsHealthy | internal/resilience/breaker.go:148-155 | reports the health that the log determines |
| Breaker.Breakers.MaybeStartProbe | internal/resilience/breaker.go:168-190 | succeeds exactly when the entry is OPEN and its cooldown has passed; the reset after five probes lets none start early |
| Breaker.Breakers.RecordProbeResult | internal/resilience/breaker.go:192-212 | the state stays the one that the log determines: recovery on success, a doubled and capped cooldown on failure |
| Canary.CountersClosedForm | internal/resilience/canary.go:101-127 | the streak is the all-success suffix since creation or the last rollback; the recent counters count since creation, the last rollback or entry to WARMING |
| Canary.PhaseSteps | internal/resilience/canary.go:110-126 | each phase change happens exactly on its condition over the run; COLD never goes to ACTIVE directly; promotions need a success |
| Canary.ActiveForever | internal/resilience/canary.go:110-126 | ACTIVE is never left, over any continuation |
| Canary.WarmingWithinBound | internal/resilience/canary.go:116-126 | a slot still WARMING has fewer than five recent requests, or its errors are at most the rollback rate times its requests |
| Canary.ActiveWasEarned | internal/resilience/canary.go:116-118 | an ACTIVE slot had, at some point, at least the required number of successes in a row |
| Canary.WarmingStreak | internal/resilience/canary.go:103-118 | in a stay without errors the streak goes on from the promotion out of COLD, and a slot still WARMING is below the number for ACTIVE |
| Canary.EarnedInWarmingIff | internal/resilience/canary.go:110-118 | the successes in WARMING alone earn a promotion to ACTIVE if and only if the stay had an error or one success is enough |
| Canary.EarlyPromotion | internal/resilience/canary.go:110-118 | the input: ACTIVE asks for three successes and comes after one in WARMING |
| Canary.BodyHash | internal/resilience/canary.go:129-140 | the wrapped 32-bit loop computes the absolute value of the base-31 polynomial of the bytes reduced to int32, the smallest int32 included |
| Canary.HashStep | internal/resilience/canary.go:134 | one shift-subtract-add step in wrapped arithmetic is one polynomial step |
| Canary.HashConcat | internal/resilience/canary.go:131-135 | the hash of a concatenation is determined by the hashes of the parts and the length of the second |
| Canary.PolyConcat | internal/resilience/canary.go:131-135 | the polynomial of a concatenation decomposes |
| Canary.RaisingKeepsUsers | internal/resilience/canary.go:81-88 | raising the warm-up percentage never takes a body off the canary |
| Canary.UsedWhenEarned | internal/resilience/canary.go:67-127 | a body uses the canary only if the slot at some point had as many successes in a row as the first promotion asks for; once ACTIVE, every body uses it in any continuation |
| Canary.WarmingShare | internal/resilience/canary.go:81-88 | while WARMING a body uses the canary if and only if the remainder of its hash by 100 is below the percentage |
| Canary.RolledBackIff | internal/resilience/canary.go:116-126 | a WARMING slot falls back to COLD if and only if the outcome leaves its streak below the number for ACTIVE and its stay has at least five outcomes with an error rate above the bound |
| Canary.SlotsAreIndependent | internal/resilience/canary.go:52-62 | under one enabled configuration each slot runs on its own outcomes alone |
| Canary.Canary.constructor | internal/resilience/canary.go:48-50 | a new canary has seen nothing |
| Canary.Canary.ShouldUse | internal/resilience/canary.go:64-89 | the routing decision for the slot's current state, and tracking exactly when enabled |
| Canary.Canary.RecordResult | internal/resilience/canary.go:91-127 | the entries stay those that the log of all calls determines |
| Momentum.Momentum.constructor | internal/resilience/momentum.go:28-33 | a new memory has no decisions |
| Momentum.Momentum.Record | internal/resilience/momentum.go:35-47 | each ring holds the last five decisions of its session, over any run |
| Momentum.Momentum.Get | internal/resilience/momentum.go:49-73 | returns a provider that made most of the last five decisions and how many it made; the confidence is that number over five |
| Momentum.RingStep | internal/resilience/momentum.go:42-46 | appending to a ring and trimming it is taking the last five of the longer history |
| Momentum.RecentIsLastFive | internal/resilience/momentum.go:12 | what a session remembers is the last five of its decisions, all of them if there are no more |
| Momentum.VotesPositive | internal/resilience/momentum.go:60-63 | a provider has votes exactly when it is in the ring |
| Routing.RemoveAppended | cmd/defiant-claude/launcher.go:20-25 | removing markers undoes appending one to a name that has none |
| Routing.ExpandEndsChain | internal/routing/routing.go:120-130 | expansion goes to the end of an alias chain of at most eight steps and stops after eight steps of a longer or cyclic one |
| Routing.ExpandSettlesIff | internal/routing/routing.go:120-130 | expansion reaches a name that is no alias exactly when the chain ends within eight steps |
| Routing.FallbacksInOrder | internal/routing/routing.go:151-184 | fallback targets keep the slot, name known providers, follow the fallback list in order and leave out exactly the keys that do not resolve |
| Routing.LauncherRoundTrip | cmd/defiant-claude/launcher.go:18-25 | the name the launcher writes for a slot and a provider:model spec resolves to that provider, the alias-expanded model and that slot, marker or not |
| Routing.LauncherTarget | cmd/defiant-claude/launcher.go:18-34 | for each of the five slot names: the launcher's name for a known provider and a model that is no alias resolves to that provider, its endpoint, that very model and that slot |
| Routing.LastPartOnly | cmd/defiant-claude/launcher.go:12-16 | the model id is what follows the last colon, however many parts stand before it |
| Routing.MarkedIff | cmd/defiant-claude/launcher.go:18-25 | a name is marked if and only if the context limit of its model id is at least 1,000,000 |
| Routing.FirstMarkerGoes | internal/routing/routing.go:75 | removing markers removes the first one and goes on behind it |
| Routing.TargetFields | internal/routing/routing.go:132-149 | a target carries the provider's endpoint, headers, wire format and fallbacks, the slot, the model at the end of its aliases, and a key only if the provider asks for one |
| Routing.FallbackTierMatched | internal/routing/routing.go:165-209 | a fallback with a spec of its own for the slot gets that provider and model, slot by slot |
| Routing.FallbackSameModel | internal/routing/routing.go:181-184 | any other fallback gets the primary's model |
| Routing.OverrideReplacesSpec | internal/routing/routing.go:83-101 | with an override set for the slot, the launcher's name resolves to the override's provider and model, whatever spec it carries |
| Routing.AliasResolvesIff | internal/routing/routing.go:103-115 | the alias of a slot, as a bare name, resolves to the backend's spec for the slot if and only if expansion leaves it alone and the reverse map names the slot |
| Routing.BareNameServed | internal/routing/routing.go:103-115 | a bare name that resolves as an alias of its slot goes to the provider and model of the slot's override, and without one to those of the active backend |
| Routing.AllAliasesResolveIff | internal/routing/routing.go:59-66 | all slot aliases resolve to the backend's specs for their slots if and only if expansion leaves each alone and no two are the same name |
| Routing.SharedAliasLost | internal/routing/routing.go:61-66 | the failing configurations: of two slots with one alias, one is lost |
| Routing.ModelIdOf | cmd/defiant-claude/launcher.go:12-16 | the part behind the last colon |
| Routing.Resolver.constructor | internal/routing/routing.go:44-68 | the backend is the named config or some config, and the reverse map covers exactly the aliases of the three slots |
| Routing.Resolver.ExpandAlias | internal/routing/routing.go:120-130 | the bounded loop equals the bounded expansion |
| Routing.Resolver.ResolveTarget | internal/routing/routing.go:132-149 | the target of a known provider, nothing for an unknown one |
| Routing.Resolver.CutSlot | internal/routing/routing.go:211-218 | the prefix loop finds the slot exactly when the part before the first colon is a slot name |
| Routing.Resolver.Resolve | internal/routing/routing.go:73-118 | the imperative resolution equals the meaning of the name without markers and surrounding white space |
| Routing.Resolver.ResolveFallback | internal/routing/routing.go:165-184 | the fallback provider's own spec for the slot, else the same model there |
| Routing.Resolver.FallbackTargets | internal/routing/routing.go:151-163 | the resolvable fallbacks in list order |
| Fallback.PromoteMovesOne | internal/proxy/server.go:380-392 | promotion is a permutation that moves one element and keeps the order of the others |
| Fallback.PromotedComesSecond | internal/proxy/server.go:380-402 | a wanted provider behind the primary ends right behind it |
| Fallback.MoveUp | internal/proxy/server.go:385-387 | the in-place overlapping copy is the promotion of one element |
| Fallback.MoveToIndex1 | internal/proxy/server.go:380-392 | promotes the first entry from index 2 on with the key, in place |
| Fallback.MoveFreeToIndex1 | internal/proxy/server.go:394-402 | promotes the first free entry from index 2 on, in place |
| Fallback.ChainShape | internal/proxy/server.go:353-374 | the chain keeps its primary, holds only healthy fallbacks behind it, has length min(3, 1 + healthy), and before the cut is a permutation that moves at most one element |
| Fallback.FavouriteExists | internal/resilience/momentum.go:60-71 | whenever a session has decisions, some provider made the most of the recent ones |
| Fallback.PromotedComes | internal/proxy/server.go:380-402 | promotion brings a healthy fallback of the wanted kind to index 1 if there is one, and keeps the order if there is none |
| Fallback.MomentumDecides | internal/proxy/server.go:363-369 | in a session some provider among the most frequent recent ones decides: if its confidence and health allow, it ends at index 1 when it is a fallback and the order is kept when it is not; otherwise, and without recent decisions, a free provider ends there when any healthy fallback is free and the order is kept when none is |
| Fallback.SecondPlaceInWords | internal/proxy/server.go:363-369 | in a session with decisions some most frequent provider decides: with at least two of five decisions and healthy it comes second if it is a fallback; otherwise oc, um or lo comes second if one of them is a healthy fallback |
| Fallback.NoSessionKeepsOrder | internal/proxy/server.go:361-373 | without a session the chain keeps the order of the fallback list |
| Fallback.ProbesAfterTraffic | internal/resilience/breaker.go:168-190 | after any traffic of a server, whose clock never goes back, a probe starts no earlier than its outage's opening plus the waits before it |
| Fallback.Server.constructor | internal/proxy/server.go:70-93 | a server that has sent nothing yet, from some clock reading on |
| Fallback.Server.RetryBackoff | internal/proxy/server.go:341-349 | any delay below the bound of the attempt |
| Fallback.DelayBounds | internal/proxy/server.go:341-349 | that bound is half a second, one second, two, and four for every attempt from the fourth on |
| Fallback.Server.Report | internal/proxy/server.go:316-329 | exactly one statistics record with the key, success and status, and the log's clock readings stay in order |
| Fallback.Server.Attempt | internal/proxy/server.go:316-333 | one request, recorded at once exactly when its outcome is retryable |
| Fallback.Server.RequestWithRetry | internal/proxy/server.go:306-339 | one to three requests, all but the last retryable; gives up only after three retryable outcomes; one record for each failed attempt; less than 1.5 s of sleep |
| Fallback.Server.Account | internal/proxy/server.go:295-298 | a served response adds one success record and, in a session, one momentum decision |
| Fallback.Server.TryProvider | internal/proxy/server.go:285-302 | one record for each request to the provider, served or not; a served response leaves one momentum decision in its session |
| Fallback.Server.ForwardChain | internal/proxy/server.go:285-303 | request j goes to chain entry j/3, only the last request can have been answered, nothing is served only when every entry failed three times, and then no momentum decision is left |
| Fallback.Server.BuildChain | internal/proxy/server.go:351-374 | the chain is the reordering of primary and healthy fallbacks that session momentum calls for, cut to three |
| Fallback.Server.Reorder | internal/proxy/server.go:363-369 | the in-place reordering is the one that momentum calls for |
| Fallback.Server.Forward | internal/proxy/server.go:277-304 | a request runs through the chain built for it: at most nine upstream requests and 4.5 s of sleep, one record for each request, one success and, in a session, one momentum decision if and only if a response is served; the status served is none of 408, 429, 500, 502, 503, 504, each request before the last was a transport error or one of these, and a last one outside them is served |
| Fallback.ServedByStatus | internal/proxy/server.go:592-599 | of any run through a chain: served or not by these six statuses, three requests to each entry before the next, and all entries tried when nothing is served |
| Accounting.TalliesFollowOutcomes | internal/resilience/breaker.go:80-103 | each counter of a provider grows by exactly the number of its outcomes of that kind, by status: 429 is a throttling, a transport error or 408, 500, 502, 503 or 504 a failure, any other status a success |
| Accounting.TotalsAreSums | internal/resilience/breaker.go:80-134 | after any run of calls a provider's milliseconds and tokens are the sums over its calls, its spend that of its positive costs, and its last request the last one reported |
| Accounting.ThrottledFallsBack | internal/proxy/server.go:312-339 | a provider that answers 429 three times is left and the next one serves; that is three throttlings and no failure for the first, one success for the second |
| Fallback.StatusIsLatestIff | internal/proxy/server.go:283-303 | when a run through the chain fails, the reported status is that of the latest response to any of its requests if and only if the last provider responded or nobody did |
| Fallback.LatestStatusLost | internal/proxy/server.go:283-303 | such a run of two providers: the first answers 500, the second cannot be reached, and 0 is reported |
| Fallback.OneAnswer | internal/proxy/server.go:285-303 | when only the last request can have been answered, its records hold one success if it was and none if not |
| Fallback.CountersFollowRequests | internal/resilience/breaker.go:80-95 | a provider's Requests grow by its requests and its Successes by its answered requests |
| Limiter.StepConsistent | internal/proxy/concurrency.go:55-68 | every atomic step keeps tokens, active and waiting equal to the numbers of threads between their increments and decrements |
| Limiter.AlwaysConsistent | internal/proxy/concurrency.go:16-31 | so they are in every interleaving of any number of threads on both pools, within the limits |
| Limiter.ActiveMeetsTokens | internal/proxy/concurrency.go:55-68 | active plus threads in mid-acquire is tokens plus threads in mid-release; active is never negative, at most the limit plus the threads in mid-release, and above the limit exactly when those outnumber the free permits and the threads in mid-acquire |
| Limiter.Quiescence | internal/proxy/concurrency.go:55-72 | at quiescence active is the number of holders, nobody waits, and no permit is lost |
| Limiter.ReleaseEnabled | internal/proxy/concurrency.go:61-64 | a release never blocks |
| Limiter.BlockedOnlyWhenFull | internal/proxy/concurrency.go:58-67 | an acquire is refused only while every permit is taken |
| Limiter.PoolsIndependent | internal/proxy/concurrency.go:25-31 | each pool ends as if only its own moves had been made |
| Limiter.SlotPools | internal/proxy/concurrency.go:25-31 | moves of other slots never change the subagent pool, and moves of "sub" and "subagent" never change the default pool |
| Limiter.OtherPoolFree | internal/proxy/concurrency.go:25-31 | whatever subagent requests are under way, a first chat request gets a permit at once |
| Limiter.ActiveCanExceedLimit | internal/proxy/concurrency.go:59-64 | the bound is tight: one permit, two threads counted active |
| MergeRank.SortedKeys | internal/servertools/fanout.go:112-116 | the source names in byte order |
| MergeRank.AddResult | internal/servertools/fanout.go:118-138 | reading one more result keeps every hit what the results read so far make it |
| MergeRank.AddSource | internal/servertools/fanout.go:117-139 | so does reading a whole source |
| MergeRank.RankHits | internal/servertools/fanout.go:140-149 | an order of all hits in which none is better than an earlier one |
| MergeRank.TakeResults | internal/servertools/fanout.go:150-154 | the results of the first hits, up to the limit |
| MergeRank.MergeAndRank | internal/servertools/fanout.go:101-155 | the output is the first `limit` results of some ranking of the merged hits, sources read in byte order |
| MergeRank.NamesUnique | internal/servertools/fanout.go:112-116 | the reading order of the sources is determined by their names |
| MergeRank.MergedUnique | internal/servertools/fanout.go:105-139 | the merged map is determined by the results read: one hit for each distinct key, with URL of the first occurrence, first non-empty title, first longest snippet, exactly its sources and their greatest weight |
| MergeRank.TopKIsBest | internal/servertools/fanout.go:144-154 | min(limit, distinct keys) results, of distinct keys in order of score, with no dropped key better than a kept one |
| TopHits.OutputIsBest | internal/servertools/fanout.go:86-155 | the same over the results read, without the comparator: of two kept keys the earlier is reported by more sources, or by as many with none heavier; the same holds between any kept key and any dropped one |
| TopHits.HitWeight | internal/servertools/fanout.go:86-99 | a hit weighs 3.0 if exa or parallel reports it, else 2.5 if keenable does, else 2.0 if wikipedia does, else 1.0 |
| TopHits.LessIsByteOrder | internal/servertools/fanout.go:116 | the order of the source names: one stops inside the other, or they part at a smaller byte |
| MergeRank.RankBounds | internal/servertools/fanout.go:144-149 | a key's rank lies between the number of better keys and the number of keys that are not worse |
| MergeRank.RankingsTie | internal/servertools/fanout.go:144-149 | two rankings of the same hits have equal scores at every rank: ties are the only freedom |
| Pairing.ConvertUserMessage | internal/wire/wire.go:253-281 | tool messages first, then the text, which is left out only when it is empty and results stand in for it |
| Pairing.ConvertAssistantMessage | internal/wire/wire.go:283-313 | one message with the joined texts and one call for each tool_use |
| Pairing.ConvertMessage | internal/wire/wire.go:226-251 | plain, unreadable and block content for every role |
| Pairing.ConvertTranscript | internal/wire/wire.go:145-150 | the system prompt, if any, and every message in order |
| Pairing.SystemToString | internal/wire/wire.go:203-224 | the text of a system prompt |
| Pairing.WellPairedIff | internal/wire/wire.go:253-313 | being well paired is being paired when read from left to right with nothing pending |
| Pairing.ConvertedStep | internal/wire/wire.go:226-313 | what the translation of one message does to the ids still to be answered |
| Pairing.PairedIff | internal/wire/wire.go:226-313 | the translated transcript is well paired (each call followed at once by exactly its results, text only behind them, no stray result) if and only if every call is answered before anything else is said |
| Pairing.PairingPreserved | internal/wire/wire.go:226-313 | so it is whenever each assistant's calls are answered by exactly the next message and nowhere else |
| Pairing.IdsPreserved | internal/wire/wire.go:253-313 | the sequences of call ids and of result ids are unchanged, for every transcript |
| Pairing.ContentsPreserved | internal/wire/wire.go:253-331 | in every translated transcript the calls are the tool_use blocks of the assistant, each with its id, name and arguments (an empty object for none), and the tool messages are the tool results of the user, each with its id and content, in order |
| Strip.Body.constructor | internal/wire/strip.go:44-47 | the decoded body |
| Strip.Body.DeleteFields | internal/wire/strip.go:48-50 | exactly the listed fields are gone |
| Strip.Body.StripBillingHeader | internal/wire/strip.go:57-75 | the first marked text block of the system prompt is gone, nothing else |
| Strip.Body.StripCacheControl | internal/wire/strip.go:77-100 | cache_control is gone from every message content block, nothing else |
| Strip.Body.StripBlocks | internal/wire/strip.go:94-98 | the blocks of one message without cache_control |
| Strip.Body.StripDuplicateMessages | internal/wire/strip.go:102-121 | the shrinking loop keeps exactly the messages that do not repeat their neighbour, and panics exactly when some neighbours have incomparable roles |
| Strip.Strip | internal/wire/strip.go:39-55 | the four removals in order, with unlisted providers, undecodable bodies and null bodies as in the source |
| Strip.PanicsIff | internal/wire/strip.go:110-114 | the whole of Strip panics if and only if the body has neighbouring messages whose roles are both objects or both arrays |
| Strip.ObjectRolesPanic | internal/wire/strip.go:113 | such a body |
| Strip.TwoMarkedBlocksRemain | internal/wire/strip.go:65-74 | a body that changes when it is stripped again |
| Strip.CacheFreeIff | internal/wire/strip.go:77-100 | a stripped body has no cache_control on any system or message content block if and only if the system blocks that stay had none |
| Strip.SystemStaysMarked | internal/wire/strip.go:77-100 | the failing input: a system block keeps its cache_control |
| Strip.FirstsDoNotRepeat | internal/wire/strip.go:102-121 | no two neighbours with equal role and content are left |
| Strip.FirstsIdempotent | internal/wire/strip.go:102-121 | removing repetitions a second time changes nothing |
| Strip.FirstsPrefix | internal/wire/strip.go:102-121 | a longer conversation keeps the kept messages of the shorter one in front |
| Strip.EachStaysOrRepeats | internal/wire/strip.go:102-121 | every message is kept or an equal one of the same role stands for it, in the same order |
| Duplicates.OnlyRepetitionsGo | internal/wire/strip.go:102-121 | said of roles and contents: each message has one that stands for it, itself or of equal role and content, in the same order; neighbours that are left differ in one of the two; nothing changes if and only if no two neighbouring objects are equal in both |
| Duplicates.StrippedKeepsMessages | internal/wire/strip.go:34-55 | so no message of the cleaned body is lost from the stripped one |
| Duplicates.DifferentContentsStay | internal/wire/strip.go:113-114 | two neighbouring user messages with the contents "first" and "second" both stay |
| Duplicates.PanicsOnClash | internal/wire/strip.go:113 | the panic condition in terms of the two role values |
| Duplicates.BillingMeans | internal/wire/strip.go:66-71 | a billing block is an object of type "text" whose text holds "x-anthropic-billing-header" anywhere |
| Duplicates.FieldsLost | internal/wire/strip.go:11-32 | which fields a stripped body lacks, provider by provider: metadata, top_k and stop_sequences where listed, and nothing else |
| Duplicates.OthersUntouched | internal/wire/strip.go:40-43 | the body of any other provider is passed on as it is |
| Strip.CacheStable | internal/wire/strip.go:34-38 | bodies that differ only in listed fields, in cache_control on message blocks and in their first billing block strip to the same bytes |
| Strip.TurnsExtend | internal/wire/strip.go:34-38 | the next turn of a conversation strips to messages that start with the previous turn's, and to otherwise equal fields |
| Strip.StripTwiceIff | internal/wire/strip.go:57-75 | stripping again changes nothing if and only if the system prompt held at most one billing block |
| UsageTee.UsageAppend | internal/wire/usage.go:101-133 | each further line works on the usage so far |
| UsageTee.LinesAppend | internal/wire/usage.go:87-99 | the lines of a concatenation are those of the first part and those of its tail joined with the second |
| UsageTee.LinesAreTheOnlyCut | internal/wire/usage.go:87-99 | lines and tail are the only way to write bytes as newline-free terminated lines and a newline-free rest |
| UsageTee.Tee.constructor | internal/wire/usage.go:69-71 | a tee that has seen nothing |
| UsageTee.Tee.Read | internal/wire/usage.go:79-85 | bytes and the source's error pass through unchanged; buffer and usage are those of everything seen so far |
| UsageTee.Tee.Scan | internal/wire/usage.go:87-99 | the buffer is the newline-free tail and the usage that of the complete lines, whatever the chunk |
| UsageTee.Tee.ProcessLine | internal/wire/usage.go:101-133 | one line overrides the counts it reports as positive |
| UsageTee.Relay | internal/wire/usage.go:66-99 | for every way of cutting a stream into reads, the client gets its bytes and the usage is the last positive count of each kind among its complete lines |

## Left out

- HTTP plumbing, headers, sockets, the idle watchdog of `copyStream`, and write errors towards the client.
- JSON encoding and decoding: decoded bodies are datatypes, raw payloads are byte strings, and encoders and decoders are function parameters. Bodies that do not parse are modelled in `Strip`, and as `Malformed` payloads in the stream; the non-streaming translator starts from a decoded body.
- `internal/crypto` and `internal/ssrf`, and key lookup in the environment: a provider's key is a field.
- `normalizeURL` is any function from URLs to keys; nothing is claimed about it.
- The wiring of probes and the canary: no code outside the tests calls them, so they are driven by arbitrary call sequences.
- Hot reload during a request: one resolver serves the whole request.
- Int64 overflow of counters and token counts; durations overflow only after centuries.
- Floating point: 0.34 and 0.4 are compared by cross-multiplication, the rollback bound, source weights and costs are reals.
- Breaker entries, statistics and canary slots are values in a map, where the source keeps pointers in it; no two of them are ever shared.
- Each emitting helper of the stream returns events; their bytes are rendered when they enter the buffer in `Read`.
- The error type of an upstream error event is a constant in the source and is not a field of the event.
- Resolver errors: the two kinds of failure are one `None`.
- The tools and thinking parts of the request translation, session keys, prompt tiers, token caps, the cost formula, the friendly error's text, health, metrics, doctor, lint and search vendors: case tables or I/O.
- MergeRank.RankHits: `sort.Slice` is replaced by selection of some best remaining hit, which allows every order the source can give and no other.
- MergeRank.MergeAndRank: a negative limit makes the source panic when it allocates its result, so the limit is a natural number.
- MergeRank.AddResult: the hit is replaced in the map, where the source updates it through a pointer.
- Strip.Body.StripCacheControl: nested maps are replaced, where the source deletes from them in place.
- Canary.BodyHash: the input is required to hold bytes, which in Go every string does.
- Fallback.Server.RetryBackoff: attempts are at most 35, beyond which the shift of the base overflows int64; only attempts 1 and 2 occur.
- Breaker.Breakers.MaybeStartProbe: its two clock readings are required to be in order, as a monotonic clock gives them.
- Limiter: threads are numbers and time-outs may happen at any time; the use of one release function twice is not modelled.
