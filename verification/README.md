# Verified models of the memory services

These Dafny modules model the parts of the repository that keep invariants over unbounded inputs and runs: the
conversation import, the server-sent-event filter and taps, the batch writers, the upstream cache, the lease lock, the
cache sweep, and token and credit accounting. The HTTP shell around them is not modelled.

Loops and objects that the program updates in place are methods and classes, each proved against a function on values;
the properties are lemmas about those functions. Asynchronous code is a state machine whose steps are the pieces of the
event loop between two awaits, and its properties hold for every sequence of steps. `JsText` and `JsValue` hold the
little of JavaScript that is needed: strings of UTF-16 code units, JSON values, and `Js`, the runtime's own functions
(JSON parsing and printing, conversions) as arbitrary functions. Lemmas that need printing and parsing to fit together
require `Js.Valid`: a printed value holds no raw newline and parses back to itself, numbers aside. Event streams are
framed by blank lines, in the style of section 9.2 of the WHATWG HTML Living Standard, with two newlines as the only
separator.

## Where code and documentation part

Each of these comes with a proved counterexample and the exact condition under which the promise holds.

- The upstream cache is documented to evict the oldest-written entry (`MemoryProxy/src/instance-upstream-cache.ts:12`).
  Fetching an expired key again leaves it at its place, so it goes first although written last:
  `InstanceCache.RefetchedKeyIsEvicted`, `InstanceCache.RefetchAfterExpiry`. One eviction is right exactly when the first
  key was written first, all coming ones exactly when the keys stand in write order, which a write in place ends:
  `InstanceCache.EvictsOldestIff`, `InstanceCache.InWriteOrderIff`, `InstanceCache.WriteOrderLostIff`.
- A checkpoint write whose lease was lost is documented as not written
  (`MemoryCore/src/utils/checkpoint.ts:229-235`). The loss is looked at only after the write, so an update another node
  has committed can disappear: `CheckpointWrites.StalledWriterLosesUpdate`. Nothing is lost exactly when no write is
  overtaken by another since its own read: `CheckpointWrites.NothingLostIff`.
- The import separates an assistant's text from a tool call nested below the top level, and from no other:
  `ImportCases.NestedCallIsCutOff`, `ImportMemory.RoundsSplitRecords`. JSON sessions do not have this gap:
  `ImportResponses.RoundsKeepEveryCall`.
- A tool call without arguments is never posted, its result is: `ImportCases.CallWithoutArgumentsIsLost`,
  `ImportUpload.PairingSurvivesIff`. A database row without text loses all the calls it lists:
  `ImportHermes.SilentRowLosesItsCalls`.
- The memory path is documented to send only user, assistant and system (`agents/asset-import.ts:928-932`). An item
  with role tool_result is sent under that role: `ImportResponses.ToolResultItemIsRefused`,
  `ImportResponses.MemoryRolesAreItemRoles`.
- The dsh parser sets no record index, so its sessions collapse into one memory message: `ImportDsh.SessionCollapses`,
  `ImportMemory.OneGroupIff`, `ImportMemory.GroupPerMessageIff`.
- The proxy's writers lose the order of rows when flushes overlap (`ProxyWriter.OverlapReorders`,
  `ProxyWriter.StepKeepsOrderIff`) and keep every row pushed while there is no client
  (`ProxyWriter.UnboundedWhileDisconnected`); what they hold beyond their limit is never more than that:
  `ProxyWriter.BufferBound`. The knowledge service's writer has neither problem: `KnowledgeTelemetry.EveryRunKeepsInv`.
- The two Anthropic taps differ on usage in an unterminated tail, which only the main one drains: `SseTaps.TapsDiffer`,
  `SseTaps.TapsAgree`.
- An anomalous credit goes without its raw record when the usage is empty and a price is not finite:
  `Credit.AnomalyWithoutRecord`, `Credit.AnomalyIsRecordedUnless`.

## Model

| member | source | states |
|---|---|---|
| SseFrames.ChunkingIrrelevant | MemoryProxy/src/anthropicHandler.ts:1864-1870 | the read loop shared by filter and taps: for every list of chunks the carried buffer and the accumulator are those of the whole text fed at once, for any frame handler |
| SseFrames.FramesAppend | MemoryProxy/src/anthropicHandler.ts:1867-1868 | what is carried between chunks suffices: the frames of a + b are the frames of a followed by those of (carried rest of a) + b |
| SseFrames.FramesUnique | MemoryProxy/src/anthropicHandler.ts:1867-1868 | cutting at blank lines is the only way to cut a text into frames without an inner break and a rest without one |
| SseFrames.Reassemble | MemoryProxy/src/anthropicHandler.ts:1867-1868 | the frames, each followed by a blank line, and the rest put together are the text |
| SseFrames.PiecesFramed | MemoryProxy/src/anthropicHandler.ts:1867-1868 | no frame holds a break and neither does the carried rest |
| SseLines.FramedByLines | MemoryProxy/src/anthropicHandler.ts:1871-1878 | a text is a possible frame exactly when none of its lines but the first is empty |
| SseLines.FindLastDataLine | MemoryProxy/src/anthropicHandler.ts:1872-1878 | the loop over the lines leaves the last line that starts with `data: ` |
| SseLines.FindLastData | MemoryProxy/src/anthropicHandler.ts:2264-2272 | the loop over the lines leaves what follows the prefix on the last `data: ` or `data:` line |
| SseLines.DataLineAt | MemoryProxy/src/anthropicHandler.ts:1872-1878 | the filter picks the last line that starts with `data: `, whatever lines stand around it |
| SseLines.DataAt | MemoryProxy/src/anthropicHandler.ts:2264-2272 | a tap reads what follows `data: `, or `data:` where no space follows, on the last data line, whatever lines stand around it |
| SseLines.EveryFrameHasData | MemoryProxy/src/anthropicHandler.ts:2264-2272 | every frame is of one of two kinds: some line is its last data line and carries its data, or it has none |
| TextLines.LinesJoin | MemoryProxy/src/anthropicHandler.ts:1871 | splitting a frame into lines and joining them again is the identity, and no line holds a newline |
| TextLines.JoinThenLines | MemoryProxy/src/anthropicHandler.ts:1927-1930 | lines without newlines survive joining and splitting |
| ThinkingFix.ThinkingFixStream.ProcessFrame | MemoryProxy/src/anthropicHandler.ts:1870-1937 | one turn of the loop over frames emits the rewritten frame and counts a patch, on every early exit alike |
| ThinkingFix.ThinkingFixStream.Transform | MemoryProxy/src/anthropicHandler.ts:1864-1938 | after any chunk, buffer, output and patch count are functions of all the text received so far |
| ThinkingFix.ThinkingFixStream.Flush | MemoryProxy/src/anthropicHandler.ts:1940-1947 | when the stream ends the client has received the filtered text: rewritten frames in order, each followed by a blank line, then the tail unless it is blank |
| ThinkingFix.FilterIgnoresChunking | MemoryProxy/src/anthropicHandler.ts:1864-1947 | for every chunking the output is that filtered text |
| ThinkingFix.FilterTransparent | MemoryProxy/src/anthropicHandler.ts:1853-1949 | the output equals the input if and only if no frame needs a patch and no non-empty blank tail is dropped |
| ThinkingFix.FilterIdempotent | MemoryProxy/src/anthropicHandler.ts:1853-1949 | filtering twice equals filtering once |
| ThinkingFix.FilteredFrames | MemoryProxy/src/anthropicHandler.ts:1924-1933 | the output has as many frames as the input, frame by frame the rewritten ones |
| ThinkingFix.FrameWithEvent | MemoryProxy/src/anthropicHandler.ts:1870-1937 | by its lines: a frame whose last `data: ` line carries an event that is neither null nor the end marker has every data line replaced by the printed patched event when the event needs a patch, and passes through unchanged if and only if it needs none |
| ThinkingFix.FrameWithoutEvent | MemoryProxy/src/anthropicHandler.ts:1879-1893 | a frame whose data is empty, the end marker, no JSON or null passes through |
| ThinkingFix.FrameWithoutData | MemoryProxy/src/anthropicHandler.ts:1879-1882 | so does a frame without a `data: ` line |
| ThinkingFix.OneLineFrame | MemoryProxy/src/anthropicHandler.ts:1885-1930 | a one-line frame with an event becomes `data: ` and the patched event printed, or stays as it is |
| ThinkingFix.FilteredByFrames | MemoryProxy/src/anthropicHandler.ts:1864-1947 | a stream of frames and an unterminated tail is filtered frame by frame, and of the tail only a blank one is dropped |
| ThinkingFix.FilteredInPlace | MemoryProxy/src/anthropicHandler.ts:1864-1938 | wherever a frame stands in a stream, it is rewritten as if alone and what surrounds it is filtered as if alone |
| ThinkingFix.EventInStream | MemoryProxy/src/anthropicHandler.ts:1864-1938 | wherever a one-line event stands in a stream, the client receives it patched in its place |
| ThinkingFix.PatchedIff | MemoryProxy/src/anthropicHandler.ts:1895-1922 | an event is patched if and only if it starts a thinking block or carries a thinking delta whose `thinking` is not a string and can be made one |
| ThinkingFix.PatchTouchesThinkingOnly | MemoryProxy/src/anthropicHandler.ts:1895-1922 | a patched event differs from the original in the `thinking` field of its block or delta only, which becomes empty or the text of the old value |
| ThinkingFix.FixedHolder | MemoryProxy/src/anthropicHandler.ts:1897-1904 | the same for the block or delta itself |
| ThinkingFix.PatchSettles | MemoryProxy/src/anthropicHandler.ts:1924-1930 | a patched event, printed and parsed again, needs no further patch |
| ThinkingFix.RewrittenLines | MemoryProxy/src/anthropicHandler.ts:1926-1930 | a patched frame keeps its lines but for the data lines, which all become one line that parses to the patched event; it stays a single frame |
| ThinkingFix.RewrittenSettles | MemoryProxy/src/anthropicHandler.ts:1926-1930 | a rewritten frame needs no patch and differs from the original |
| SseTaps.TapsIgnoreChunking | MemoryProxy/src/codexHandler.ts:1376-1422 | main, direct and Codex tap collect the same state and carry the same rest for any two chunkings of one text |
| SseTaps.TapsAgree | MemoryProxy/src/directHandler.ts:328-371 | main and direct tap agree on the output text of every stream, and on usage if and only if the unterminated tail holds no message_delta usage, or none of its counts is new or different; in particular for streams ending on a frame boundary |
| SseTaps.TapsDiffer | MemoryProxy/src/anthropicHandler.ts:2326-2345 | after any complete frames, an unterminated message_delta that reports a new count is in the usage of the main tap and not of the direct one |
| FilterAndTaps.FilterIsInvisible | MemoryProxy/src/anthropicHandler.ts:1855-1949 | main and direct tap collect the same from the filtered stream as from the original, for every stream |
| FilterAndTaps.FrameStepSame | MemoryProxy/src/anthropicHandler.ts:1924-1933 | so frame by frame, from every state, also when a frame holds several data lines |
| SseTaps.FoldsAgree | MemoryProxy/src/directHandler.ts:338-371 | over complete frames the direct state is the main state without its tools |
| SseTaps.EventOfFrame | MemoryProxy/src/anthropicHandler.ts:2263-2276 | by its lines: a frame whose data parses to an event that is not null, and is not the end marker where that is skipped, yields exactly that event; a frame without data, or with other data, yields none |
| SseTaps.EveryFrameTells | MemoryProxy/src/anthropicHandler.ts:2263-2276 | that covers every frame: what a frame carries by its lines is what is read from it, in both directions |
| SseTaps.EventsOfStream | MemoryProxy/src/anthropicHandler.ts:2255-2276 | for every chunking, the events read from a stream are those its frames carry, in order |
| SseTaps.OneLineTells | MemoryProxy/src/anthropicHandler.ts:2264-2276 | a line with an event behind `data: `, or behind `data:` alone, is a frame that carries it |
| SseTaps.TailByLines | MemoryProxy/src/anthropicHandler.ts:2326-2345 | the drain takes the usage of a message_delta on the last `data: ` line of a tail, and of nothing else |
| SseTaps.TapMeaning | MemoryProxy/src/anthropicHandler.ts:2252-2324 | for every chunking of a stream whose frames carry these events, by their lines: the text is that of all text deltas, each usage count the one reported last, the tool count the number of tool blocks started, and the id, name and arguments at an index those of the block last opened there; the direct tap ends with the same text and usage |
| SseTaps.CollectedMeaning | MemoryProxy/src/anthropicHandler.ts:2289-2318 | the same for text and tool arguments over a list of events |
| SseTaps.ToolsMeaning | MemoryProxy/src/anthropicHandler.ts:2305-2318 | the same for tool count, tool ids and tool names |
| SseTaps.UsageIsLastReported | MemoryProxy/src/anthropicHandler.ts:2280-2288 | the same for usage |
| SseTaps.StepTool | MemoryProxy/src/anthropicHandler.ts:2293-2318 | what one event does to the id, name and arguments at every index: an opening resets exactly its own index, a JSON delta extends exactly its own |
| SseTaps.CodexTapMeaning | MemoryProxy/src/codexHandler.ts:1376-1422 | for every chunking of a stream whose frames carry these events, by their lines: the text of all deltas, the number of function calls, the last stop reason, and each usage count as reported last |
| SseTaps.IncompleteStops | MemoryProxy/src/codexHandler.ts:1411-1416 | an incomplete response stops for the reason given, "unknown" when there is none, and leaves everything alone when the reason has no text |
| SseTaps.AnthropicTap.ProcessEvent | MemoryProxy/src/anthropicHandler.ts:2277-2319 | the event handler makes exactly the step of the state function |
| SseTaps.AnthropicTap.ProcessFrame | MemoryProxy/src/anthropicHandler.ts:2263-2323 | so does the handling of a frame, malformed data included |
| SseTaps.AnthropicTap.Read | MemoryProxy/src/anthropicHandler.ts:2255-2324 | after any chunk the collected state is the one the received text determines |
| SseTaps.AnthropicTap.CompleteStream | MemoryProxy/src/anthropicHandler.ts:2028-2031 | the latch: the first of timeout and stream end closes it and starts its first report on the state it finds, a later one does nothing |
| SseTaps.AnthropicTap.Finish | MemoryProxy/src/anthropicHandler.ts:2326-2350 | the end of the stream drains the tail; the tap has then reported exactly once |
| SseTaps.DirectTap.Read | MemoryProxy/src/directHandler.ts:330-372 | the same for the direct tap |
| SseTaps.DirectTap.ProcessFrame | MemoryProxy/src/directHandler.ts:338-371 | handling of one frame in the direct tap |
| SseTaps.CodexTap.ProcessEvent | MemoryProxy/src/codexHandler.ts:1396-1417 | the Codex event handler, also when building the stop reason throws |
| SseTaps.CodexTap.Read | MemoryProxy/src/codexHandler.ts:1378-1422 | the same for the Codex tap |
| SanitizeThinking.SanitizedBody | MemoryProxy/src/anthropicHandler.ts:286-317 | the body keeps its other fields and every message its place; other roles are untouched; an assistant loses exactly its unsigned thinking blocks, the others stay in order; the number reported is that of the blocks gone; sanitizing again changes nothing |
| SanitizeThinking.MessageCleaned | MemoryProxy/src/anthropicHandler.ts:295-313 | the same for one message |
| SanitizeThinking.SignatureIsLongBase64 | MemoryProxy/src/anthropicHandler.ts:272-279 | a signature is accepted if and only if it is a string of at least 40 digits, letters, plus, slash or equals signs; the UUID test never decides |
| SanitizeThinking.UnsignedIff | MemoryProxy/src/anthropicHandler.ts:299-306 | a block is taken out if and only if its type is thinking or redacted_thinking and it has no such signature |
| SanitizeThinking.SanitizeThrowsIff | MemoryProxy/src/anthropicHandler.ts:292-306 | sanitizing throws if and only if a message is null or an assistant message has a null block; a body without a list of messages is left alone |
| Utf16Split.SplitLongContent | agents/asset-import.ts:805-818 | the loop terminates and yields the pieces of the specification |
| Utf16Split.SplitFits | agents/asset-import.ts:805-818 | the pieces concatenate to the content, have at most 8192 units, are empty only for empty content, and their number lies between ceil(n/8192) and ceil(n/8191) |
| Utf16Split.SplitGreedy | agents/asset-import.ts:810-815 | every piece but the last is full, or one unit short exactly because a full one would end inside a surrogate pair |
| Utf16Split.SplitKeepsCharacters | agents/asset-import.ts:804-826 | well-formed UTF-16 (section 2.1 of RFC 2781) gives well-formed pieces that decode, in order, to the same characters |
| Utf16Split.SplitKeepsEveryText | agents/asset-import.ts:805-826 | whatever characters a text is made of, its pieces decode to them, in order |
| Utf16Split.DecodeCut | agents/asset-import.ts:811-813 | well-formed text cut anywhere but inside a pair decodes to two parts of its characters |
| ImportParse.ExpandAppend | agents/asset-import.ts:325-333 | expanding a list of blocks expands its parts in order, or throws when one of them does |
| ImportParse.CallAndAnswerPair | agents/asset-import.ts:280-315 | a call and its answer, in any of the dialects, become one call and one result anchored by the same id |
| ImportParse.ContentTyped | agents/asset-import.ts:276-333 | expansion, however deeply nested, only ever assigns the roles tool_call and tool_result |
| ImportDialects.CallDialects | agents/asset-import.ts:277-308 | a call in any of the five spellings, whatever else the block holds, gives one fragment with its id, its name or "unknown", and its arguments |
| ImportDialects.ArgumentsReadBack | agents/asset-import.ts:237-245 | arguments given as a string are kept; any other arguments can be parsed back from the fragment |
| ImportDialects.EntriesEach | agents/asset-import.ts:291-308 | a list of calls gives one fragment for each, in order, and throws if and only if one is null |
| ImportDialects.AnswerDialects | agents/asset-import.ts:309-314 | an answer in either spelling gives one fragment with its call id, its tool name and the text of its content |
| ImportDialects.ResultText | agents/asset-import.ts:248-259 | a result's text is that of its parts that say something, line by line, however deep they are wrapped |
| ImportDialects.PlainBlock | agents/asset-import.ts:315-320 | any other block gives its text, or else what its content gives, or nothing |
| ImportDialects.ContentForms | agents/asset-import.ts:325-333 | a content is a string, a list of blocks, or an object around another content; nothing else speaks |
| ImportDialects.MessageInRecord | agents/asset-import.ts:406-416 | a message inside a record of any kind that is not skipped says what it says on its own line |
| ImportDialects.MessageInPayload | agents/asset-import.ts:405-409 | so does a message that is the payload of a response item |
| ImportDialects.SkippedRecords | agents/asset-import.ts:402-408 | records of the four harness kinds are skipped, and response items that are no messages |
| ImportDialects.BareSpeakers | agents/asset-import.ts:410-423 | a message is read if and only if its role is the assistant's, the user's or a tool's and no null stands where a call or block is looked for; tool output is the user's turn |
| ImportDialects.TypedSpeakers | agents/asset-import.ts:410-423 | a record without a role speaks by its type, as the user or the assistant |
| ImportDialects.BareSays | agents/asset-import.ts:425-430 | a message says its content, then its calls |
| ImportDialects.LineAsRead | agents/asset-import.ts:397-400 | whitespace around a line changes nothing, and a line without JSON adds nothing |
| ImportDialects.NoiseIff | agents/asset-import.ts:220-233 | text is dropped as noise if and only if a developer or the system says it or it begins, after whitespace, with one of the eight marks |
| ImportParse.HasToolIff | agents/asset-import.ts:356-373 | a record counts as having a tool call if and only if it or its message lists calls or has a block of one of the four call types at the top level of its content |
| ImportParse.ReadCallIsSeen | agents/asset-import.ts:356-373 | a call at the top level of the content that is read, or among the calls that are read, is never missed |
| ImportParse.LineInTranscript | agents/asset-import.ts:394-466 | the messages of a line stand in the transcript directly after those of the lines before it, whatever follows |
| ImportParse.PushFragments | agents/asset-import.ts:431-459 | the loop over the fragments appends the messages of the record and tells whether there were any |
| ImportParse.ParseJsonlLines | agents/asset-import.ts:394-466 | the loop over the lines yields the messages of the specification |
| ImportParse.MessagesCarryFrags | agents/asset-import.ts:432-459 | a record's messages carry its kept fragments one by one, in order; a kept text is neither empty nor harness noise |
| ImportParse.ParseLosesNothing | agents/asset-import.ts:394-466 | the messages of a transcript are, record by record, those of the accepted records that keep anything |
| ImportParse.ParseTagsRecords | agents/asset-import.ts:396-460 | record indices start at 0, never fall and never skip; each message has its record's conversation role, user or assistant, and counts as a tool turn exactly when its record does |
| ImportParse.AppendRun | agents/asset-import.ts:460 | messages that all carry the next index keep the numbering gap-free |
| ImportResponses.NormalizeResponsesJson | agents/asset-import.ts:468-540 | the loop over the items yields the messages of the specification, nothing when an expansion throws |
| ImportResponses.ItemsOfDocument | agents/asset-import.ts:482-486 | the items are the input, or else the messages, or else the output of the response |
| ImportResponses.ToolItem | agents/asset-import.ts:494-498 | an item in a tool's role is one result under its call's id, for the user's turn unless the role is tool_result |
| ImportResponses.CallItem | agents/asset-import.ts:492-493 | a function call is one call, the assistant's when it has no role |
| ImportResponses.SaidItem | agents/asset-import.ts:499-505 | any other item says its content, or its text when the content is neither a string nor a list |
| ImportResponses.CallsBeside | agents/asset-import.ts:507-509 | calls listed beside the content follow it, one fragment each |
| ImportResponses.ItemSpeaker | agents/asset-import.ts:490-511 | an item speaks in its own role, or its type's, or as the assistant |
| ImportResponses.RoundsKeepEveryCall | agents/asset-import.ts:512-534 | for every JSON session: two messages of one item fall in different rounds if and only if the item holds no tool call at any depth and an assistant text stands between |
| ImportResponses.ReadLosesNothing | agents/asset-import.ts:487-539 | the messages of a JSON session are, item by item, those of the items that keep anything |
| ImportResponses.MemoryRolesAreItemRoles | agents/asset-import.ts:490-538 | the memory messages of a JSON session all have roles the service takes if and only if every item that says anything has such a role, a tool's role, or none |
| ImportResponses.ToolResultItemIsRefused | agents/asset-import.ts:494-511 | counterexample: an item with role tool_result yields a memory message with that role, which the service does not take |
| ImportHermes.ReadStateDb | agents/asset-import.ts:2412-2433 | the loops group the rows by session in order of first message and number the messages; when reading a row throws, no session is listed |
| ImportHermes.SessionsOnce | agents/asset-import.ts:2412-2428 | unless a row throws, every session with messages is listed once, with its messages numbered from zero |
| ImportHermes.ListingRow | agents/asset-import.ts:2454-2476 | an assistant row that lists calls gives its text, unless blank, and then each call with its id, name and the arguments found first |
| ImportHermes.PlainRow | agents/asset-import.ts:2478-2493 | any other row with a text is one message: a tool's is a result under the row's call id, the others keep their role |
| ImportHermes.SilentOrThrowing | agents/asset-import.ts:2450-2452 | a row throws if and only if expanding its content does, and gives nothing without text |
| ImportHermes.RowText | agents/asset-import.ts:351-353 | a row's text is its string, or the lines of its list |
| ImportHermes.RowsStayInOneRound | agents/asset-import.ts:2443-2493 | the messages of one row always stay in one round, whatever rows surround it |
| ImportHermes.MemoryPathOfRows | agents/asset-import.ts:2422-2426 | numbering keeps the memory path from collapsing the session: each message that is not blank is sent on its own, in order, in a role the service takes |
| ImportHermes.SkillRolesOfRow | agents/asset-import.ts:2437-2493 | a row's messages have roles the skill service takes if and only if the row's own role is known or the row is silent |
| ImportHermes.SilentRowLosesItsCalls | agents/asset-import.ts:2451-2475 | a row that lists n calls yields n calls if it has text, and none at all if it has not |
| ImportHermes.CallAndResultPair | agents/asset-import.ts:2456-2488 | a listed call and the tool row that answers it carry the same id |
| ImportUpload.BatchMessages | agents/asset-import.ts:829-849 | both loops: the batches are the pieces of the valid messages, cut by 100 |
| ImportUpload.ChunkedFits | agents/asset-import.ts:844-848 | the batches concatenate to the pieces and hold 1 to 100 of them |
| ImportUpload.PiecesFit | agents/asset-import.ts:830-843 | every piece has 1 to 8192 units and a role |
| ImportUpload.PiecesCarryMessage | agents/asset-import.ts:832-843 | the pieces of a message put together are its content, each with its role, time, source and pairing anchor |
| ImportUpload.PieceOrigin | agents/asset-import.ts:829-843 | every piece comes from a valid message, with its role and pairing anchor |
| ImportUpload.SplitIntoRounds | agents/asset-import.ts:1010-1025 | loop and filter yield the rounds of the specification |
| ImportUpload.CutAtFinalAnswers | agents/asset-import.ts:1013-1022 | the rounds concatenate to the session; each closed round ends with its only final answer, the open one has none |
| ImportUpload.RoundsCoverPrefix | agents/asset-import.ts:1010-1025 | the rounds kept concatenate to a prefix of the session; what is withheld has no assistant or tool message |
| ImportUpload.WithheldIff | agents/asset-import.ts:1019-1025 | exactly a last round of neither assistant's nor tool's messages is withheld, and everything else is submitted |
| ImportUpload.RoundOfMessage | agents/asset-import.ts:1013-1019 | message i lies in the round numbered by the final answers before it |
| ImportUpload.FinalAnswersBetween | agents/asset-import.ts:1013-1019 | two messages have the same number of final answers before them if and only if none stands at or after the first and before the second |
| ImportUpload.UploadViaConversationAdd | agents/asset-import.ts:1051-1075 | for any replies of the server the posts sent are a prefix of the plan, complete unless its last post was the first to be refused |
| ImportUpload.PostsCarryPieces | agents/asset-import.ts:1053-1074 | the posts planned for a list of rounds concatenate to the pieces of the rounds |
| ImportUpload.PostsStayInRounds | agents/asset-import.ts:1053-1074 | no post mixes two rounds |
| ImportUpload.SkillPathDelivers | agents/asset-import.ts:1010-1075 | the skill path posts exactly the pieces of the valid messages of a prefix of the session, in order, in posts of 1 to 100 messages of 1 to 8192 units that never mix rounds; the rest has nothing of the agent's |
| ImportUpload.PostedIffSaid | agents/asset-import.ts:829-843 | for every session, role and anchor: a call or result with it is posted if and only if the session has one that is not blank |
| ImportUpload.PairingSurvivesIff | agents/asset-import.ts:829-849 | for every session: every posted result has a posted call under its anchor if and only if every result that is not blank has a call that is not blank |
| ImportCases.CallWithoutArgumentsIsLost | agents/asset-import.ts:830 | counterexample, in every dialect: of a two-line transcript with a call without arguments and its answer the result is posted and the call is not |
| ImportMemory.ToMemoryMessages | agents/asset-import.ts:933-969 | both loops, with the map in insertion order, yield the flat messages of the specification |
| ImportMemory.GroupsAreRuns | agents/asset-import.ts:934-939 | when indices never fall, grouping by map equals grouping adjacent messages |
| ImportMemory.RunsAreRecords | agents/asset-import.ts:934-939 | when indices start at 0 and never skip, the k-th group holds exactly the messages of record k |
| ImportMemory.MemoryPathOfTranscript | agents/asset-import.ts:933-969 | for every transcript: at most one memory message per record, in order, map grouping equal to adjacent grouping, roles user or assistant only, pieces within the limits |
| ImportMemory.MemoryPathOfRecords | agents/asset-import.ts:933-969 | the same for any parser that numbers its records |
| ImportMemory.MemoryOfRecords | agents/asset-import.ts:933-969 | with numbered records the memory messages are those of the records, one by one |
| ImportMemory.OneGroupIff | agents/asset-import.ts:934-939 | the messages form a single group if and only if they all have the same record index, or all have none |
| ImportMemory.GroupPerMessageIff | agents/asset-import.ts:934-939 | every message is a group of its own if and only if no two have the same index |
| ImportMemory.SameIndexCollapses | agents/asset-import.ts:933-969 | messages without an index become a single memory message in the first one's role |
| ImportDsh.ParseDshSessionLines | agents/asset-import.ts:2022-2047 | the loop over the event lines yields the messages of the specification, skipping lines that do not parse or throw |
| ImportDsh.DshLine | agents/asset-import.ts:2024-2027 | whitespace around a line changes nothing, and a line without JSON says nothing |
| ImportDsh.EventSays | agents/asset-import.ts:2028-2042 | a user event says what its data says, an assistant event what its message says, in the role given there; empty text and noise say nothing |
| ImportDsh.SessionCollapses | agents/asset-import.ts:2022-2047 | every session of this parser becomes at most one memory message, in its first message's role; it is grouped as by the other parsers if and only if it has at most one message |
| ImportMemory.CappedIsOneLine | agents/asset-import.ts:946-953 | a tool's text becomes a single line of at most 4000 units and an ellipsis |
| ImportMemory.CappedIsWords | agents/asset-import.ts:335-346 | a tool's text is shown as its words with one space between them, cut after 4000 units with an ellipsis |
| ImportMemory.ExtractShows | agents/asset-import.ts:350-353 | a content of one fragment has the flat text of the message that fragment would become |
| ImportMemory.FlatTextShows | agents/asset-import.ts:335-348 | calls and results stand in the memory text under their labels and names, any other text as it is |
| ImportMemory.RoundsSplitRecords | agents/asset-import.ts:1010-1025 | two messages of one record fall in different rounds if and only if the record counts as having no tool call and an assistant text stands between |
| ImportMemory.RoundsEndAfterAnswers | agents/asset-import.ts:430-442 | a message ends its round if and only if it is an assistant text whose record counts as having no tool call |
| ImportMemory.RoundsKeepTopLevelCalls | agents/asset-import.ts:356-442 | for every line of every transcript: two of its messages fall in different rounds if and only if the line's record and message show no tool call at the top level and an assistant text stands between; so no text is separated from such a call |
| ImportCases.NestedCallIsCutOff | agents/asset-import.ts:356-373 | counterexample below the top level: in the transcript of one record whose call is nested one level deeper a round ends between its text and the call |
| ImportMemory.UploadBatches | agents/asset-import.ts:981-999 | the memory path sends a prefix of its plan, all of it unless a post is refused |
| ImportMemory.UploadSession | agents/asset-import.ts:1159-1190 | both paths work on the same tagged messages; a refusal on the memory path keeps the skill path from starting |
| KnowledgeTelemetry.EveryRunKeepsInv | MemoryKnowledge/src/clickhouse-telemetry.ts:187-229 | over every interleaving: inserted, then in-flight, then buffered rows are an order-preserving, duplicate-free subsequence of the recorded ones; every recorded row is accounted for once; buffer and flight never exceed 10000 |
| KnowledgeTelemetry.NoRowTwice | MemoryKnowledge/src/clickhouse-telemetry.ts:205-222 | when recorded rows are distinct no row is held or inserted twice |
| KnowledgeTelemetry.RecordFlushesIff | MemoryKnowledge/src/clickhouse-telemetry.ts:187-209 | after every run: recording a row starts a flush if and only if none is under way and as many rows as the threshold are kept; the flush takes them all |
| KnowledgeTelemetry.FailedRowsReturn | MemoryKnowledge/src/clickhouse-telemetry.ts:210-217 | after every run: a failed insert puts its rows back in front, and of all these the newest stay |
| KnowledgeTelemetry.TrimKeepsNewest | MemoryKnowledge/src/clickhouse-telemetry.ts:224-229 | what stays is everything up to 10000 rows, beyond that the newest 5000 |
| KnowledgeTelemetry.ShutdownEmptiesBuffer | MemoryKnowledge/src/clickhouse-telemetry.ts:197-203 | from every reachable state: shutdown leaves nothing in flight, and an empty buffer if and only if the last insert it waits for succeeds; then every recorded row was inserted or counted as dropped |
| KnowledgeTelemetry.ClickHouseKnowledgeTelemetry.RecordToolCall | MemoryKnowledge/src/clickhouse-telemetry.ts:187-195 | push, trim and threshold flush make exactly the step of the state machine |
| KnowledgeTelemetry.ClickHouseKnowledgeTelemetry.FlushBuffer | MemoryKnowledge/src/clickhouse-telemetry.ts:205-209 | a flush starts only when none is under way and takes all rows |
| KnowledgeTelemetry.ClickHouseKnowledgeTelemetry.OnInsertFail | MemoryKnowledge/src/clickhouse-telemetry.ts:210-217 | failed rows go back in front and the buffer is trimmed |
| KnowledgeTelemetry.ClickHouseKnowledgeTelemetry.OnInsertOk | MemoryKnowledge/src/clickhouse-telemetry.ts:209-222 | a successful insert ends the flight |
| KnowledgeTelemetry.ClickHouseKnowledgeTelemetry.OnSettled | MemoryKnowledge/src/clickhouse-telemetry.ts:218-220 | the flight is cleared only after its handlers |
| KnowledgeTelemetry.ClickHouseKnowledgeTelemetry.TrimBuffer | MemoryKnowledge/src/clickhouse-telemetry.ts:224-229 | above 10000 rows the newest 5000 stay |
| KnowledgeTelemetry.ClickHouseKnowledgeTelemetry.Shutdown | MemoryKnowledge/src/clickhouse-telemetry.ts:197-203 | shutdown stops the timer and flushes once, twice when rows are left |
| Subsequences.SubseqPositions | MemoryKnowledge/src/clickhouse-telemetry.ts:187-229 | what subsequence means here: strictly increasing positions in the recorded rows |
| Utf8Truncate.TruncateFits | MemoryKnowledge/src/clickhouse-telemetry.ts:72-76 | the result is a prefix of the text whose UTF-8 form (section 3 of RFC 3629) fits; text that fits is kept whole, otherwise at most 3 bytes are given up, wherever the cut falls |
| Utf8Truncate.DecodeCut | MemoryKnowledge/src/clickhouse-telemetry.ts:75 | bytes cut at any position decode to whole characters and at most one replacement character |
| Utf8Truncate.DecodeText | MemoryKnowledge/src/clickhouse-telemetry.ts:73-75 | decoding undoes encoding |
| Utf8Truncate.DecodePartial | MemoryKnowledge/src/clickhouse-telemetry.ts:75 | a character cut anywhere inside decodes to one replacement character |
| ProxyWriter.EveryRunConserves | MemoryProxy/src/clickhouse.ts:826-869 | with any number of overlapping flushes pushed rows are, as a multiset, the inserted, in-flight, buffered and dropped ones |
| ProxyWriter.RequeueBounds | MemoryProxy/src/clickhouse.ts:826-833 | a requeue leaves at most 10000 rows, and a trim exactly the newest 5000 of those there |
| ProxyWriter.BufferBound | MemoryProxy/src/clickhouse.ts:826-869 | in every run the buffer holds at most 10000 rows, or what stays below the flush threshold, and the rows pushed while there was no client |
| ProxyWriter.ConnectedRunsAreBounded | MemoryProxy/src/clickhouse.ts:826-869 | runs in which every row is pushed with a client never exceed 10000 rows or the threshold |
| ProxyWriter.UnboundedWhileDisconnected | MemoryProxy/src/clickhouse.ts:849-850 | without a client the buffer holds every row pushed, so the excess cannot be bounded otherwise |
| ProxyWriter.OverlapReorders | MemoryProxy/src/clickhouse.ts:849-869 | counterexample to order: two overlapping flushes that fail put their rows back reversed |
| ProxyWriter.StepKeepsOrderIff | MemoryProxy/src/clickhouse.ts:849-869 | a step keeps the order of distinct rows if and only if it is no outcome, the success of the oldest flight, or a failure whose rows go back behind no younger flight: of the youngest flight, or with every row of it trimmed away |
| ProxyWriter.OrderLostIff | MemoryProxy/src/clickhouse.ts:849-869 | over whole runs: after a run of such steps the next one loses the order exactly when it is not one |
| ProxyWriter.CarefulRunsKeepOrder | MemoryProxy/src/clickhouse.ts:849-869 | runs of such steps keep inserted, in-flight and buffered rows an order-preserving subsequence of those pushed |
| ProxyWriter.SingleFlightOrders | MemoryProxy/src/clickhouse.ts:849-869 | so do all runs in which no two flushes overlap |
| ProxyWriter.BatchWriter.EnqueueRow | MemoryProxy/src/clickhouse.ts:1118-1133 | push and threshold flush on the current array, so that no row is stranded in a replaced one |
| ProxyWriter.BatchWriter.FlushBuffer | MemoryProxy/src/clickhouse.ts:1142-1150 | takes the rows out of the array and leaves the array in place; nothing without a client |
| ProxyWriter.BatchWriter.RequeueWithOverflowGuard | MemoryProxy/src/clickhouse.ts:1179-1196 | returns the same array, or a fresh one with the newest 5000 rows on overflow |
| ProxyWriter.BatchWriter.OnInsertFail | MemoryProxy/src/clickhouse.ts:1202-1208 | requeues into the array current at that time and makes the result current |
| InstanceCache.EveryRunRefines | MemoryProxy/src/instance-upstream-cache.ts:84-128 | under every interleaving of calls, arriving fetches and evictions: at most 256 entries, each the last successful fetch of its space, and `lastGood` the map of last successful fetches |
| InstanceCache.RepliesAreLastFetch | MemoryProxy/src/instance-upstream-cache.ts:88-128 | every reply for a non-empty space is its last successful fetch or the empty list, and a cached reply is younger than five minutes |
| InstanceCache.EntryHitsIff | MemoryProxy/src/instance-upstream-cache.ts:90-94 | after every run: a call for a space with an entry is answered without a fetch if and only if its last successful fetch is less than five minutes old |
| InstanceCache.FetchServesItsTtl | MemoryProxy/src/instance-upstream-cache.ts:90-111 | after every run: a fetch that succeeds answers every call of the next five minutes, and none after |
| InstanceCache.StepKeepsEntries | MemoryProxy/src/instance-upstream-cache.ts:165-173 | a step removes an entry only when the cache is full, and then the first one alone |
| InstanceCache.WriteKeepsOrderIff | MemoryProxy/src/instance-upstream-cache.ts:105-110 | a write keeps keys in write order if and only if its key is new to the cache or already last |
| InstanceCache.EvictsOldestIff | MemoryProxy/src/instance-upstream-cache.ts:165-173 | an eviction removes the entry written before all that stay, as documented, if and only if the first key was written first |
| InstanceCache.InWriteOrderIff | MemoryProxy/src/instance-upstream-cache.ts:165-173 | every one of the coming evictions removes the oldest-written entry left if and only if the keys stand in write order |
| InstanceCache.RunKeepsWriteOrder | MemoryProxy/src/instance-upstream-cache.ts:105-111 | runs that never write a key in place keep write order, so that every eviction is as documented |
| InstanceCache.WriteOrderLostIff | MemoryProxy/src/instance-upstream-cache.ts:105-111 | after such a run the next step loses write order if and only if it writes a key in place |
| InstanceCache.RefetchedKeyIsEvicted | MemoryProxy/src/instance-upstream-cache.ts:84-128 | counterexample to the documented rule, after every run that has filled the cache: calls that fetch its expired second key again and then two new keys evict that key, although every other old entry was written before it |
| InstanceCache.RefetchAfterExpiry | MemoryProxy/src/instance-upstream-cache.ts:84-128 | such calls exist: 256 instances are fetched, the second again five minutes later, and it is gone while the third stays |
| InstanceCache.FillReaches | MemoryProxy/src/instance-upstream-cache.ts:84-111 | full caches are reachable |
| InstanceCache.InstanceUpstreamCache.Begin | MemoryProxy/src/instance-upstream-cache.ts:88-94 | a call up to its fetch: empty space, hit, or wait |
| InstanceCache.InstanceUpstreamCache.Complete | MemoryProxy/src/instance-upstream-cache.ts:105-127 | a call after its fetch: evict, write and reply, or fall back to the last good value |
| InstanceCache.InstanceUpstreamCache.Store | MemoryProxy/src/instance-upstream-cache.ts:108-109 | writes both maps, keeping the place of a key that is there |
| InstanceCache.InstanceUpstreamCache.EvictOldest | MemoryProxy/src/instance-upstream-cache.ts:165-173 | removes the first key of a full cache and nothing else |
| LeaseLock.LeasesNeverOverlap | MemoryCore/scripts/bench-checkpoint-lock.ts:50-75 | in every run no two leases granted on one key overlap in time |
| LeaseLock.GrantedIffFree | MemoryCore/scripts/bench-checkpoint-lock.ts:51-54 | in every run a lease is granted if and only if it asks for time and the last one on its key is over |
| LeaseLock.EveryRunKeepsInv | MemoryCore/scripts/bench-checkpoint-lock.ts:50-75 | each lease ends before the next starts, and the stored key is the last lease while that is live |
| LeaseLock.HolderHasTheLastLease | MemoryCore/scripts/bench-checkpoint-lock.ts:50-75 | whoever holds the key holds the last lease granted, and it covers the present |
| LeaseLock.OnlyOwnerEndsLease | MemoryCore/scripts/bench-checkpoint-lock.ts:55-74 | while a lease is live another owner's request changes nothing, and the lease survives a request if and only if it is not its own owner's release or renewal without time to live |
| LeaseLock.LeaseRunsToItsEnd | MemoryCore/scripts/bench-checkpoint-lock.ts:50-75 | in every run a granted lease stays its owner's until its expiry, as renewed, whatever others request, unless the owner releases it or renews it without time to live |
| LeaseLock.LeaseEndsIff | MemoryCore/scripts/bench-checkpoint-lock.ts:55-74 | the next request while it runs ends it if and only if it is one of those two |
| LeaseLock.LockStore.AcquireLock | MemoryCore/scripts/bench-checkpoint-lock.ts:51-54 | set if absent, with a time to live |
| LeaseLock.LockStore.RenewLock | MemoryCore/scripts/bench-checkpoint-lock.ts:55-65 | owner-checked renewal |
| LeaseLock.LockStore.ReleaseLock | MemoryCore/scripts/bench-checkpoint-lock.ts:66-74 | owner-checked release |
| BenchWorkers.EveryRunClaimsOnce | MemoryCore/scripts/bench-checkpoint-lock.ts:104-116 | under every interleaving an index the cursor has passed is with exactly one worker or finished once |
| BenchWorkers.AllSubmittedOnce | MemoryCore/scripts/bench-checkpoint-lock.ts:108-118 | when all workers have stopped every session was submitted exactly once |
| BenchWorkers.RunEndsIff | MemoryCore/scripts/bench-checkpoint-lock.ts:104-119 | however the workers interleave, all have stopped after exactly two steps for each session and one for each worker |
| BenchWorkers.Bench.Claim | MemoryCore/scripts/bench-checkpoint-lock.ts:110-111 | claiming an index or stopping |
| BenchWorkers.Bench.Finish | MemoryCore/scripts/bench-checkpoint-lock.ts:113-114 | recording a latency |
| CheckpointWrites.NothingLostIff | MemoryCore/src/utils/checkpoint.ts:364-375 | in every run the stored object holds every update ever written if and only if no write comes after another write made since its own read |
| CheckpointWrites.NoLostUpdate | MemoryCore/src/utils/checkpoint.ts:388-476 | that is so whenever every write comes before its writer's lease runs out |
| CheckpointWrites.UnlockHandsOver | MemoryCore/src/utils/checkpoint.ts:388-476 | whoever unlocks hands over at once: the next manager to try gets the lock, and could not have before |
| CheckpointWrites.LeavingBlocks | MemoryCore/src/utils/checkpoint.ts:388-476 | whoever leaves without unlocking blocks the others until the lease runs out, and no longer |
| CheckpointWrites.KeepExtends | MemoryCore/src/utils/checkpoint.ts:400-455 | the heartbeat moves the end of a lease that runs, and revives none |
| CheckpointWrites.OutOfTurn | MemoryCore/src/utils/checkpoint.ts:388-476 | a manager only locks outside a call, reads with the lock, writes what it has read; anything else lets time pass |
| CheckpointWrites.StalledWriterLosesUpdate | MemoryCore/src/utils/checkpoint.ts:456-465 | counterexample without that condition: a stalled writer overwrites an accepted update before the loss of its lease is noticed |
| Credit.AnthropicInputIsPrompt | MemoryProxy/src/credit-reporter.ts:138-146 | for every usage object in Anthropic form, whatever else it holds: the four billed input classes sum to the row's prompt tokens if and only if the 5-minute writes are part of all writes |
| Credit.AnthropicBilled | MemoryProxy/src/credit-reporter.ts:129-146 | what the reporter bills for one |
| Credit.AnthropicRow | MemoryProxy/src/clickhouse.ts:589-612 | what the row reads from one |
| Credit.OpenAiInputIsPrompt | MemoryProxy/src/credit-reporter.ts:147-159 | for every usage object in OpenAI form, whatever else it holds: the billed input sums to the row's prompt tokens if and only if the cached tokens billed are part of the prompt or, without a prompt count, are those of the details |
| Credit.OpenAiBilled | MemoryProxy/src/credit-reporter.ts:129-159 | what the reporter bills for one |
| Credit.OpenAiRow | MemoryProxy/src/clickhouse.ts:589-612 | what the row reads from one |
| Credit.LangfuseReadsTheRow | MemoryProxy/src/langfuse.ts:241-271 | for every usage object Langfuse is sent the row's total and output, its cache counts when positive, and its prompt without the cached tokens |
| Credit.LangfusePartsSumToTotal | MemoryProxy/src/langfuse.ts:260-269 | without an upstream total the parts sum to the row's total if and only if the cached tokens do not exceed the prompt |
| Credit.DialectsCostTheSame | MemoryProxy/src/credit-reporter.ts:127-178 | through any one TokenHub base URL, any two usage objects, one in each form, with the same counts and no cache writes cost the same at /v1/messages and at /v1/chat/completions, for every price table and tier |
| Credit.AnthropicUrlIff | MemoryProxy/src/credit-reporter.ts:45-50 | a URL is read in Anthropic form if and only if it holds /v1/messages, in any letter case, before a slash, a question mark or its end |
| Credit.MessagesUrl | MemoryProxy/src/credit-reporter.ts:45-50 | so the messages endpoint is, whatever stands before it and after such a mark |
| Credit.OtherPaths | MemoryProxy/src/credit-reporter.ts:45-50 | /v1/chat/completions and /v1/messages_admin leave the form of the URL before them, which is OpenAI unless that holds the messages endpoint |
| Credit.TokenHubIff | MemoryProxy/src/credit-reporter.ts:121-125 | an upstream is TokenHub if and only if its URL holds that word in any letter case |
| Credit.RowReads | MemoryProxy/src/clickhouse.ts:584-640 | the row takes the upstream total as given and else the sum, keeps the bare input count, and is missing exactly for an error record; without a raw table there is no raw record |
| Credit.CompletionFirst | MemoryProxy/src/clickhouse.ts:605-612 | where a usage gives an output count in both forms, row and bill take the completion count, unless it is 0 |
| Credit.TextCounts | MemoryProxy/src/credit-reporter.ts:201-209 | a count sent as a numeric text is billed while the row shows none |
| Credit.SameLetterIff | MemoryProxy/src/pricing.ts:28-29 | two letters match exactly when they are equal or the two cases of one ASCII letter |
| Credit.OnlyPricedCost | MemoryProxy/src/credit-reporter.ts:115-185 | a request costs nothing unless it has usage, goes through TokenHub and names a model of the table; then the first model of that name prices it |
| Credit.FindModelIff | MemoryProxy/src/pricing.ts:22-30 | the model found is the first of the table with the name, in any letter case |
| Credit.EachClassAtItsPrice | MemoryProxy/src/credit-reporter.ts:173-178 | each of the five token classes is billed per thousand at its own price |
| Credit.JoinedCostsTheSame | MemoryProxy/src/credit-reporter.ts:167-178 | two requests cost what the one that joins them costs when the same tier prices all three |
| Credit.NoRawRecordIff | MemoryProxy/src/clickhouse.ts:666-700 | a usage that reports something leaves no raw record if and only if it came through TokenHub, its model is in the table (or there is none to look up), both counts are numbers, and it costs between 0 and a million |
| Credit.RawRecordSaysWhy | MemoryProxy/src/clickhouse.ts:666-700 | the record names the first of these that fails |
| Credit.MoreTokensNeverCostLess | MemoryProxy/src/credit-reporter.ts:167-178 | with tiers whose prices never fall, a request with more tokens of any class never costs less |
| Credit.FallingTierCostsLess | MemoryProxy/src/pricing.ts:147-160 | counterexample without that: one tier prices the whole request, so a longer input can be cheaper |
| Credit.TierRises | MemoryProxy/src/pricing.ts:147-160 | a longer input never gets a cheaper tier when prices never fall |
| Credit.FirstFittingTier | MemoryProxy/src/pricing.ts:147-160 | one tier prices the whole request: the first that fits, the model's own price when none does |
| Credit.CreditPlusSaved | MemoryProxy/src/clickhouse.ts:526-551 | on routed usage rows credit and saved credit sum to the larger of actual and original credit, if and only if it is not the case that the actual one is minus infinity and the original larger; zero saved on all other rows |
| Credit.FinitePricesFiniteCredit | MemoryProxy/src/credit-reporter.ts:115-200 | with a table of finite prices every credit is finite, whatever upstream reports, so the exceptions of the neighbouring rows cannot occur |
| Credit.AnomalyIsRecordedUnless | MemoryProxy/src/clickhouse.ts:792-815 | with a raw table, a main-table row with an anomalous credit lacks a raw record if and only if its usage is empty and its model has a price that is not finite |
| Credit.AnomalyWithoutRecord | MemoryProxy/src/clickhouse.ts:672 | such an entry: no usage, and a model with an infinite price for input |
| Credit.EmptyUsageCredit | MemoryProxy/src/credit-reporter.ts:173-178 | no tokens cost nothing, or nothing meaningful when a price is not finite |
| SweepCaches.SweepKeepsNewest | MemoryCore/index.ts:122-153 | after a sweep no entry is expired and at most 10000 are left; an unexpired entry is deleted only when more than 10000 are unexpired, and is then no newer than any entry kept |
| SweepCaches.CappedKeepsNewest | MemoryCore/index.ts:138-145 | the hard limit keeps exactly the newest 10000 |
| SweepCaches.SortSorts | MemoryCore/index.ts:139 | the sort is sorted and a permutation |
| SweepCaches.SessionCaches.SweepStaleCaches | MemoryCore/index.ts:122-153 | the four loops: both maps end as specified, the recall-end map loses exactly the swept prompt keys, and keeps having a prompt for each key if it had before |
| SweepCaches.SessionCaches.DropExpiredPrompts | MemoryCore/index.ts:125-130 | the first loop deletes exactly the expired entries and their recall-end keys |
| SweepCaches.SessionCaches.CapPrompts | MemoryCore/index.ts:138-145 | the third loop deletes exactly the oldest entries beyond the limit |

## Left out

- Bytes to text: streams start from decoded chunks, and a tap's reader is not modelled failing half-way.
- JSON syntax: parsing and printing are arbitrary functions; `Js.Valid` states what the filter needs of them.
- JavaScript objects: the taps' and the import's values are JSON trees, so key order and prototypes play no part; an id or
  tool name that is not a string counts as absent in database rows.
- ImportParse.ParseJsonlLines: takes a record's timestamp from an arbitrary function, because date parsing is foreign code.
- ImportHermes.ReadStateDb: starts from rows already read; opening the database and rounding its timestamps are I/O and
  floating point.
- ImportResponses.NormalizeResponsesJson: starts from the text of the file; an exception is a missing result.
- ImportUpload.UploadViaConversationAdd: leaves out the archive request sent before the first post, whose failure is ignored,
  and the fields of a body that do not depend on the messages.
- SseTaps.AnthropicTap.CompleteStream: models the latch and the state its first report starts from. The reports after that
  (logging, archiving, credit) follow an await, so after a timeout they read state the stream has collected since.
- The OpenAI tap of the direct handler and the other stream consumers: the same read loop with simpler events.
- KnowledgeTelemetry.ClickHouseKnowledgeTelemetry.RecordToolCall: takes the finished row; building it (redaction, hashing)
  is left out, as are the schema query and the timer's ticks, which are flush steps.
- ProxyWriter.BatchWriter.EnqueueRow: one writer stands for the five tables, which share this code or repeat it; shutdown and
  the disabled state are left out.
- InstanceCache.EveryRunRefines: times are those the steps are given; no assumption on the clock is needed or made.
- The choice among cached upstream rows and the override test (`MemoryProxy/src/instance-upstream-cache.ts:138-163`): plain
  searches over a list.
- LeaseLock.LockStore.AcquireLock: a lease is over from the instant its time to live has passed; the store's own lag in
  removing keys is not modelled.
- BenchWorkers.AllSubmittedOnce: assumes no submission fails, as a failure ends the benchmark; latencies are counted, not
  measured.
- CheckpointWrites.NoLostUpdate: managers are values in a state machine, not objects, and the checkpoint is the list of the
  updates in it; waiting for the lock is a sequence of attempts, and the lock inside one process is left out.
- Credit.CreditPlusSaved: counts and prices are reals, infinities and NaN; rounding and overflow of doubles are not modelled.
- Credit.AnomalyIsRecordedUnless: model names are compared ignoring the case of ASCII letters only.
- Credit.LangfusePartsSumToTotal: for counts that are non-negative numbers, as every provider reports them.
- Utf8Truncate.TruncateFits: for Unicode scalar values; unpaired surrogates, which Node encodes as replacement characters, are
  left out.
- The other importers, skills and memory files, archives, configuration, DDL and the SDK calls: I/O around the modelled code.
