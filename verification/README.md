# Verified model of the Bedrock gateway's translators

This project models the parts of the gateway that carry state from one event, byte or request to the next,
and proves what their clients rely on. There are five areas.

1. **The ConverseStream to Responses lifecycle machine** (`Trace`, `StreamModel`, `StreamInvariant`, `StreamRuns`,
   `StreamTheorems`, `StreamItems`, `StreamVerdict`, `StreamReopened`, `StreamSkipped`, `StreamTelling`,
   `StreamAnswers`, `StreamLastItems`, `StreamRefinement`, `StreamMachine`, with the non-streaming mapper in
   `ConverseMapper`, `ConverseReport` and `ToolRegistry`). `StreamModel` gives every method of the machine as a
   function of its state; `StreamMachine` is the object with its fields updated in place, each method tied to its
   function. The theorems are about whole runs of the receive loop: numbering, the single terminal event, the
   protocol and the one identity of each output item, conservation of fragments, the verdict, the all-or-nothing tool
   completion and the terminal response told from the upstream events alone, the tally, and refinement of the
   non-streaming mapper under every fragmentation.
2. **The Responses to Chat adapter** (`SseDecoding`, `ReasoningDedup`, `ChatReplay`, `ChatAssistant`, `ChatRoundTrip`,
   `ChatAdapter`, `ChatEvents`, `ChatWire`, `ChatStream`, `ChatStreamInvariant`, `ChatStreamRuns`, `ChatCanonical`,
   `ChatAgreement`, `ChatRoom`, `ChatContent`, `ChatChunking`, `ChatDelivery`, `ChatEcho`, `ChatRefusals`, `ChatMachine`): the
   incremental SSE decoder, the wire form of the events, the second streaming machine and its driver, the plain
   translation, the reverse translation of what a client echoes back, and the round trip from streamed bytes to the
   next request.
3. **The terminal-frame recogniser** of the raw Responses proxy (`SseTerminator`, `SseMetadata`): a byte automaton,
   proved against an independent reading that cuts the whole byte stream into lines and frames, and where in the
   event each of the metadata comes from.
4. **Reasoning capsules** (`Base64Url`, `Capsule`, `CapsuleRuntime`, `ChatMapper`): both namespaces' printers and
   parsers, authenticity, key rotation, and the Chat response mapper that mints them.
5. **Prompt-cache points** (`Cache`, `CacheAssembly`, `CacheReport`, `CacheSupport`, `CacheProtocol`): placement under
   one budget, and many interleaved requests over one negative cache.

`WireNames` puts the event names of the first three side by side. `Prelude`, `Json`, `SseBytes`, `ResponsesSchema`
and `ChatSchema` hold what they share. `dafny verify dfyconfig.toml` checks everything.

What the program calls but these files do not define is a parameter: the JSON parser and printer, the MAC of
section 2 of RFC 2104, the sealed reasoning envelope, the token estimate, the frame reader. The laws assumed of
them are `requires` clauses (`Capsule.Lawful`: a MAC has 32 octets, JSON text is not empty, parsing undoes
printing). Base64url is section 5 of RFC 4648 without padding (section 3.2). The SSE subset is LF and CRLF line
ends with `event` and `data` fields, out of sections 9.2.5 and 9.2.6 of the WHATWG HTML Living Standard.

Where the code and its comments or the obvious expectation disagree, the code is followed:

- A stream that ends without `messageStop` still completes its stopped tools; the comment promises completion only
  after a successful stop (`src/bedrock/responses_stream.rs:24-27`, `910`). `DoneToolsMayHaveNoStop` is such a run,
  and `DoneOnlyBehindStopIff` says for which event sequences the promise holds.
- The test for a truncated stop compares exact strings, the reported status ignores case: with `MAX_TOKENS` the
  tools are done and the response is `incomplete`. `DoneToolsMayEndIncomplete` is the run;
  `DoneToolsEndCompletedIff` is the exact condition on the events.
- A reopened message or reasoning item keeps its old text, so a closing event carries the text of the whole stream
  so far (`ClosingEventsAreTruthful`). `ReopenedReasoningRepeats` is such a run, and `ClosingIsOwnIff` says when a
  closing text is its own item's only.
- The adapter does not stream refusal texts (`RefusalIsNotStreamed`), leaves text in front of a summary where it is
  (`TextBeforeSummaryIsMoved`) and wraps each summary part in think tags of its own; `ContentAgreesIff` and, for
  texts without angle brackets, `TagFreeContentAgreesIff` say when its content is the plain one all the same. A
  summary is shown twice exactly when none was streamed before it is closed (`SummaryShowsTwiceIff`). The finish
  reason differs from the plain form's exactly for an incomplete response with calls (`FinishesAlikeIff`;
  `IncompleteCallFinishes` is one).
- The streaming form keeps all fields of a reasoning item for the capsules of its calls, the plain form only those
  of its type. So the ids of calls differ when there are others (`FurtherFieldChangesIds`, `CallsAgreeIff`), and a
  response can be too large for its capsules in one form only (`SomeStatusIsRefused`; `StreamAgreesWithPlain` has
  the condition). What is sent upstream again is the same (`EchoRestoresIff`).
- The driver maps a batch to its end but looks at no further one once the answer has ended. So text behind the end
  is sent in one cut of the bytes into chunks and not in another (`LateTextDependsOnChunks`);
  `BodyChunksMatterUnless` says for which bodies the chunks do not matter.
- The SSE decoder refuses a large frame only where a chunk boundary falls inside it
  (`ChunkingIndependentIffFits`).
- The system prompt takes its cache point whatever the budget (`SystemOverrunsCeiling`, `WithinCeilingIff`), and
  decorating messages twice is not idle (`SecondPassDecoratesEarlier`, `SecondPassIsIdleIff`).

## Model

| member | source | states |
|---|---|---|
| StreamTheorems.RunIsNumberedAndEndsOnce | src/bedrock/responses_stream.rs:1153-1235 | for every sequence of upstream events and every way the receiver ends: sequence numbers are 0, 1, 2, ... without a gap, exactly one terminal event is sent, and it is the last |
| StreamTheorems.ClosingEventsAreTruthful | src/bedrock/responses_stream.rs:475-565 | in every run each text or reasoning done, part done and item done carries the concatenation of all deltas of its kind sent before it; function arguments done carries that call's deltas, or `{}` when they are blank |
| StreamReopened.ClosingIsOwnIff | src/bedrock/responses_stream.rs:653-770 | in every run a closing text or reasoning carries exactly the deltas sent under its own output index if and only if no delta of its kind that is not empty was sent under another index before it |
| StreamReopened.ReopenedReasoningRepeats | src/bedrock/responses_stream.rs:475-530 | reasoning, text and reasoning again, for all texts: the second reasoning item closes with both pieces although only the second was sent under its index |
| StreamTheorems.ItemsFollowTheirProtocol | src/bedrock/responses_stream.rs:347-604 | at every moment of every run the events that carry an output index are a prefix of a word of the item's protocol; a second use of an index would break it |
| StreamTheorems.BrokenStays | src/bedrock/responses_stream.rs:347-604 | the protocol automaton never recovers, so a whole log in order has every prefix in order |
| StreamTheorems.CompletedRunsLeaveNothingOpen | src/bedrock/responses_stream.rs:897-982 | after a completed ending every allocated output index has a complete word and no other index has any event |
| StreamItems.ToolEventsAreTheirCalls | src/bedrock/responses_stream.rs:371-414 | in every run each event of an output index is of the response's message or reasoning, or of the one call that has the index: the calls are those the events tell of, one for one with the machine's tools, whose indices ascend, and an added or done item has its call's id under the prefix of its kind, `call_id`, client name, namespace, wire type and stage, the deltas and dones its id; what is added before its arguments has none yet |
| StreamItems.EachIndexHasOneItem | src/bedrock/responses_stream.rs:347-890 | in every run every event of an index but the first names the id of the item that was added there, and the item declared done is that item: same kind, wire type, `call_id`, name and namespace |
| StreamItems.RunOpensOnce | src/bedrock/responses_stream.rs:296-340 | a run that is told anything opens with `created` and `in_progress`, each with the bare skeleton of the response, and neither comes again |
| WireNames.NamesAreUnderstood | src/openai/responses_schema.rs:882-912 | for every event the gateway streams: its name is the one the chat adapter hears its kind by, or skips it by, and the recogniser of raw streams takes exactly the names of terminal events for the end |
| StreamVerdict.VerdictIs | src/bedrock/responses_stream.rs:897-1008 | how every run ends, from its events: it fails exactly when they come to no clean end or, without a truncating stop, a call is not stopped or not valid; otherwise it is incomplete exactly when the last stop reason truncates in any letter case |
| StreamVerdict.FailureIsTold | src/bedrock/responses_stream.rs:989-1008 | the failure of a run carries the bare response with status `failed` and why: the receiver's error or the idle timeout that broke it off, and otherwise malformed arguments |
| StreamVerdict.PositionIsFirst | src/bedrock/responses_stream.rs:545-547 | input and stop of a block go to the first tool that was started for it, and nowhere exactly when there is none |
| StreamVerdict.ToolCompletionIsAllOrNothing | src/bedrock/responses_stream.rs:776-890 | every call of the events gets exactly one item done, in arrival order, if the events end cleanly, their last stop reason is neither exact truncation reason and every call is stopped with valid arguments; otherwise none gets one |
| StreamVerdict.SomeCallDoneIff | src/bedrock/responses_stream.rs:806-825 | some call is done if and only if these conditions hold and the events tell of a call |
| StreamVerdict.RunReads | src/bedrock/responses_stream.rs:347-464 | the calls and the stop reason the machine ends with are those an independent reading of the events gives, up to the first `metadata` |
| StreamVerdict.DoneToolsEndCompletedIff | src/bedrock/responses_response.rs:342-354 | events whose calls are completed end the run completed if and only if their last stop reason is no truncation reason in any letter case |
| StreamVerdict.DoneOnlyBehindStopIff | src/bedrock/responses_stream.rs:806-825 | "calls are done only behind a `messageStop`" holds of a run if and only if its events have one before `metadata`, or tell of no call, or do not complete their calls |
| StreamVerdict.DoneToolsMayHaveNoStop | src/bedrock/responses_stream.rs:897-925 | the run of one stopped call without `messageStop`, which is done and ends completed |
| StreamVerdict.StopSeenIff | src/bedrock/responses_stream.rs:420-440 | there is a last stop reason if and only if some `messageStop` comes before any `metadata` |
| StreamVerdict.DoneToolsMayEndIncomplete | src/bedrock/responses_stream.rs:786-791 | the run with stop reason `MAX_TOKENS` whose tool call is done although the response is reported incomplete |
| StreamTheorems.TallyMatchesTheRun | src/bedrock/responses_stream.rs:276-285 | types in order of first emission, with the exact counts of what was emitted, except that a failure raised by the receive loop itself is not counted |
| StreamTheorems.TallySinceAgrees | src/bedrock/responses_stream.rs:276-285 | tallying what came after a base on top of an exact tally of the base is an exact tally of the whole |
| StreamSkipped.EssentialIsEnough | src/bedrock/responses_stream.rs:347-464 | runs that differ only in events without content, which may stand anywhere, are the same |
| StreamRefinement.StreamingRefinesNonStreaming | src/bedrock/responses_stream.rs:1015-1064 | for every content of reasoning, text, tool and other blocks, every fragmentation of it into stream events ending in `metadata`, and any events without content in between, the response in the terminal event is what the non-streaming mapper gives on the whole output |
| StreamRefinement.StreamingRefinesWithoutMetadata | src/bedrock/responses_stream.rs:897-982 | the same for a stream that ends without `metadata`, whose usage reads as absent |
| StreamRefinement.ReasoningBlockCollects | src/bedrock/responses_stream.rs:606-644 | the accumulator of a fragmented reasoning block adds the same visible text and the same replayable block as the block itself |
| StreamTelling.EverythingToldIsSent | src/bedrock/responses_stream.rs:467-569 | in every run, also one that fails, all text and all reasoning that is streamed is what the events tell of, the usage is that of the first `metadata`, and for each block exactly its own pieces of text, signature and redacted bytes are kept, in the order of the block indices |
| StreamAnswers.AnswerIsTold | src/bedrock/responses_stream.rs:1015-1064 | the terminal response of every run that does not fail is the mapping of the one Converse output the events tell of: the kept reasoning, all text as one block, every call with valid arguments in arrival order, the last stop reason or `end_turn`, and the reported usage or zeros |
| StreamAnswers.CallsAreAnswered | src/bedrock/responses_stream.rs:1021-1033 | when the calls are completed the terminal response ends with exactly their items, in arrival order, each with its call's identity and input, behind reasoning and message items only |
| StreamAnswers.DoneCallsArePaid | src/bedrock/responses_stream.rs:827-890 | in every run each item declared done at a call's index is the item of the call the events tell of, with its full arguments or the payload they stand for; just before it stands the done of the same arguments or input, or the late start of the same item |
| StreamLastItems.LastItemsAreAnswered | src/bedrock/responses_stream.rs:653-770 | of a run that does not fail, the message in the terminal response is the last one declared done, if there was any text, and its reasoning item has the id and the sealed content of the last one declared done |
| StreamInvariant.MapDeltaKeeps | src/bedrock/responses_stream.rs:467-569 | every content delta keeps the invariant: texts equal what was sent, closing events truthful, every index untouched, open, a tool's, or complete |
| StreamInvariant.CloseItemsKeeps | src/bedrock/responses_stream.rs:653-770 | closing the message and then the reasoning leaves both closed, completes their indices, moves no other, and keeps the tools |
| StreamInvariant.StartToolKeeps | src/bedrock/responses_stream.rs:373-414 | a new tool takes the next index and is in the phase of its kind; the late kinds show nothing yet |
| StreamInvariant.AppendArgumentsKeeps | src/bedrock/responses_stream.rs:545-564 | an input fragment goes to the first tool of its block, and a function's arguments stay equal to its deltas sent |
| StreamRuns.FinalizeToolsKeeps | src/bedrock/responses_stream.rs:806-890 | completing the tools from a position on leaves all of them done exactly once, in arrival order, each at the end of its protocol |
| StreamRuns.SettleEnds | src/bedrock/responses_stream.rs:897-982 | settling ends in one terminal event whose kind agrees with what happened to the tools and with the stop reason |
| StreamRuns.MapEventKeeps | src/bedrock/responses_stream.rs:347-464 | mapping an event keeps the invariant, or, for `metadata`, reaches the final one |
| StreamRuns.RunEnds | src/bedrock/responses_stream.rs:1153-1235 | every run reaches the final invariant |
| StreamMachine.Receive | src/bedrock/responses_stream.rs:1153-1235 | the receive loop over the object yields exactly the log of the specified run |
| StreamMachine.ReceiveEvents | src/bedrock/responses_stream.rs:1175-1187 | feeds events until one finalizes the response, and no further |
| StreamMachine.ReceiveEnding | src/bedrock/responses_stream.rs:1188-1231 | a clean end finishes, an error or an idle timeout fails, and nothing happens once finalized |
| StreamMachine.ResponsesStreamState.constructor | src/bedrock/responses_stream.rs:240-272 | the new object is in the initial state |
| StreamMachine.ResponsesStreamState.Push | src/bedrock/responses_stream.rs:288-292 | an event is pushed under the next sequence number and nothing else changes |
| StreamMachine.ResponsesStreamState.MapEvent | src/bedrock/responses_stream.rs:347-464 | the object's new state and the events returned are those of the specified step |
| StreamMachine.ResponsesStreamState.MapContentBlockDelta | src/bedrock/responses_stream.rs:467-569 | likewise for one delta, in each of its kinds |
| StreamMachine.ResponsesStreamState.EnsureStarted | src/bedrock/responses_stream.rs:325-340 | the opening pair is pushed once |
| StreamMachine.ResponsesStreamState.EnsureReasoningItem | src/bedrock/responses_stream.rs:579-604 | opens the reasoning item under the next index, if it is not open |
| StreamMachine.ResponsesStreamState.CloseReasoningItem | src/bedrock/responses_stream.rs:653-697 | closes it with its texts, which are left out when empty, its part and its sealed item |
| StreamMachine.ResponsesStreamState.EnsureMessageItem | src/bedrock/responses_stream.rs:699-729 | opens the message item under the next index, if it is not open |
| StreamMachine.ResponsesStreamState.CloseMessageItem | src/bedrock/responses_stream.rs:733-770 | closes it with text done, part done and item done |
| StreamMachine.ResponsesStreamState.StartToolBlock | src/bedrock/responses_stream.rs:381-413 | records the tool under the next index and announces it unless its kind is late; whose item that is, `ToolEventsAreTheirCalls` says |
| StreamMachine.ResponsesStreamState.AppendToolInput | src/bedrock/responses_stream.rs:545-564 | appends the fragment to the block's first tool and echoes it for functions only |
| StreamMachine.ResponsesStreamState.StopToolBlock | src/bedrock/responses_stream.rs:776-784 | marks the block's first tool as stopped and emits nothing |
| StreamMachine.ResponsesStreamState.FinalizeToolBlock | src/bedrock/responses_stream.rs:827-890 | marks one tool done and pushes its closing pair; what the pair carries, `DoneCallsArePaid` says |
| StreamMachine.ResponsesStreamState.FinalizeClosedTools | src/bedrock/responses_stream.rs:806-825 | completes all tools when every one is stopped and valid; otherwise changes nothing and says so |
| StreamMachine.ResponsesStreamState.TallyType | src/bedrock/responses_stream.rs:279-283 | the loop that finds an entry and bumps it, or appends one |
| StreamMachine.ResponsesStreamState.Tally | src/bedrock/responses_stream.rs:276-285 | counts exactly the pushed events |
| StreamMachine.ResponsesStreamState.BuildFinalResponse | src/bedrock/responses_stream.rs:1015-1064 | rebuilds a Converse output from the accumulators and maps it with the non-streaming mapper |
| StreamMachine.ResponsesStreamState.Finish | src/bedrock/responses_stream.rs:897-982 | closes, completes or gives up, and emits the terminal event; a second call does nothing |
| StreamMachine.ResponsesStreamState.Fail | src/bedrock/responses_stream.rs:989-1008 | emits one failure, and nothing once finalized |
| ConverseMapper.FromConverseOutput | src/bedrock/responses_response.rs:91-236 | the pass over the blocks gives the mapped response, of which `OutputIsInOrder`, `NumbersAreUpstreams` and `StatusIsTheStops` tell the items, the numbers and the status |
| ConverseMapper.CollectReasoningText | src/bedrock/responses_response.rs:321-335 | the loop concatenates the reasoning texts of all blocks |
| ConverseReport.OutputIsInOrder | src/bedrock/responses_response.rs:123-202 | the items of a mapped response: one reasoning item with all the reasoning text and what upstream sealed, if there is either; one message with all the text, which only calls without text go without; then the calls one for one and in order, each with its identity and its input |
| ConverseReport.HeadIs | src/bedrock/responses_response.rs:204-235 | an output is refused exactly when it has no content; otherwise the response has the given id and model, the request's parameters, and no error |
| ConverseReport.NumbersAreUpstreams | src/bedrock/responses_response.rs:110-117 | the input tokens are upstream's input, cache reads and cache writes, the output tokens upstream's, the total their sum, the cached tokens the reads only, and the reasoning tokens the count of the reasoning text; without usage all are 0 but the last |
| ConverseReport.StatusIsTheStops | src/bedrock/responses_response.rs:342-354 | a response is incomplete if and only if the stop reason is `max_tokens` or `content_filtered` in any letter case, and the reason it names is `max_output_tokens` for the first and `content_filter` for the second |
| ConverseReport.BothCountAlike | src/bedrock/response.rs:93-103 | for every output both mappers report the same numbers; the chat answer leaves out cached tokens when the cache was neither read nor written, and reasoning tokens when there are none; its finish reason is that of the stop reason |
| ToolRegistry.ResolveIsFirst | src/bedrock/responses_translate.rs:187-191 | a tool is known by the first binding of its Bedrock name, and is a plain function exactly when there is none |
| Json.Int32Is | src/bedrock/responses_response.rs:357-362 | a count is truncated to the 32-bit number that differs from it by a multiple of 2 to the 32 |
| ResponsesSchema.BareIdIs | src/bedrock/responses_stream.rs:209-219 | what the ids of the message and the reasoning are made from: the response id without any leading copies of `resp_` |
| ToolRegistry.ToolItemCarries | src/bedrock/responses_response.rs:238-318 | the item of a call keeps its id, under the prefix of its kind and as `call_id`, its client name and namespace, its arguments or its payload with the fall-back of each kind, and shows a status exactly for functions, shell and patch calls |
| SseDecoding.BoundaryIsStable | src/bedrock/responses_chat_provider.rs:859-869 | a frame boundary that is found stays the first one whatever bytes follow, also where LF LF and CR LF CR LF mix |
| SseDecoding.DrainInPieces | src/bedrock/responses_chat_provider.rs:831-847 | draining a buffer and then more bytes gives the events, leftover or error of draining all at once |
| SseDecoding.DecodingIsChunkingIndependent | src/bedrock/responses_chat_provider.rs:831-847 | when every frame fits, pushing the bytes in any pieces gives the events and the leftover, or the error, of all bytes at once |
| SseDecoding.ChunkingIndependentIffFits | src/bedrock/responses_chat_provider.rs:831-847 | for bytes whose frames all parse, no chunking matters if and only if no frame is over the limit before its boundary is complete |
| SseDecoding.RefusedChunking | src/bedrock/responses_chat_provider.rs:833-838 | where a frame is over the limit there is a chunking that is refused |
| SseDecoding.PushIs | src/bedrock/responses_chat_provider.rs:831-847 | a push is refused, and nothing read, if and only if it leaves more than 4 MiB without a blank line; without one it keeps all bytes, and with one it drains them |
| SseDecoding.FrameIsInvalid | src/bedrock/responses_chat_provider.rs:871-897 | a frame with data that is no JSON is an invalid event |
| SseDecoding.FramesSurviveTheWire | src/bedrock/responses_chat_provider.rs:871-897 | frames written with either line end, with any data lines, comments and other fields, and in any chunks, decode to exactly the events they carry and leave nothing buffered |
| SseDecoding.Find | src/bedrock/responses_chat_provider.rs:859-869 | the first position at which the pattern occurs, and nothing exactly when it occurs nowhere |
| SseDecoding.SseDecoder.Push | src/bedrock/responses_chat_provider.rs:831-847 | the events and the new buffer of one push, also when it fails |
| SseDecoding.SseDecoder.TakeFrames | src/bedrock/responses_chat_provider.rs:839-846 | the draining loop delivers every complete frame's event, or the first error, and keeps the rest |
| SseDecoding.SseDecoder.Finish | src/bedrock/responses_chat_provider.rs:849-857 | what is left is read as one last frame unless it is blank, and the buffer is emptied |
| ReasoningDedup.Dedupe | src/bedrock/responses_chat_provider.rs:304-325 | the in-place pass gives the specified result, on errors too |
| ReasoningDedup.DedupeKeepsEachIdOnce | src/bedrock/responses_chat_provider.rs:304-325 | it fails if and only if two items share an id and differ; otherwise each reasoning id is left exactly once, none is lost, all other items keep their order, and a second pass changes nothing |
| ReasoningDedup.DistinctIsUntouched | src/bedrock/responses_chat_provider.rs:304-325 | items whose reasoning ids are distinct are left as they are |
| ChatAdapter.GatherOutput | src/bedrock/responses_chat_provider.rs:605-672 | the loop over output items gathers reasoning, valid reasoning, text and calls, or stops at the first item that is refused |
| ChatAdapter.WireAll | src/bedrock/responses_chat_provider.rs:688-708 | numbers the calls and mints their ids; the first that cannot be minted fails them all |
| ChatAdapter.ResponsesToChat | src/bedrock/responses_chat_provider.rs:591-746 | the translation of a finished response, with each of its errors |
| ChatAdapter.CollectCalls | src/bedrock/responses_chat_provider.rs:378-418 | the loop over echoed calls collects upstream calls and the shared reasoning, or the first error |
| ChatAdapter.AppendAssistantItems | src/bedrock/responses_chat_provider.rs:368-443 | the loop over an assistant turn gives its specified items, of which `AssistantKeepsItsContent` tells role and content |
| ChatAssistant.AssistantKeepsItsContent | src/bedrock/responses_chat_provider.rs:368-514 | an assistant's message that is accepted becomes the reasoning its calls carry, the same for all, field by field; at most one message under the assistant's role, with its text parts joined in order or, if there is an image, with every part kept; and its calls one for one under their upstream ids. Only the rendered summary of that very reasoning is gone |
| ChatAssistant.RefusedForACall | src/bedrock/responses_chat_provider.rs:378-418 | such a message is refused only for what its error says of one of its calls: no id, no name, a capsule that is not accepted, reasoning that differs from an earlier call's, or a capsule among plain ids |
| ChatAssistant.InputRefusedForAMessage | src/bedrock/responses_chat_provider.rs:224-228 | the input of a request is refused for the first message that is, with its error, or because two reasoning items have one id and differ |
| ChatReplay.MessageKeepsItsContent | src/bedrock/responses_chat_provider.rs:327-366 | a message that is no assistant's becomes one item: an instruction or question of the same role with the same content part by part, refused exactly when an instruction has an image; a tool result under the upstream id of its call, refused exactly when its capsule is not accepted |
| ChatAdapter.SystemContentToResponses | src/bedrock/responses_chat_provider.rs:516-534 | the loop over the parts of an instruction, refused at the first image |
| ChatAdapter.ChatRequestInput | src/bedrock/responses_chat_provider.rs:224-228 | the loop over the messages and the de-duplication behind it: all messages' items in order, each reasoning id once; the first error wins |
| ChatRoundTrip.ToolTurnRoundTrip | src/bedrock/responses_chat_provider.rs:591-746 | a response with calls, turned into a message and echoed with one result for each call behind any history, becomes exactly its reasoning items, its text without the summary, every call under its upstream id, and each result under the id of its call |
| ChatRoundTrip.ToolTurnReachesUpstream | src/bedrock/responses_chat_provider.rs:304-469 | with distinct reasoning ids the whole request input, after de-duplication, is the history followed by that turn |
| ChatRoundTrip.AssistantIsRestored | src/bedrock/responses_chat_provider.rs:368-443 | the assistant message alone restores the reasoning, the text as one message of the assistant's, and the calls |
| ChatRoundTrip.WiredCallsAreCollected | src/bedrock/responses_chat_provider.rs:378-418 | ids minted for a turn's calls are read back to its calls and its one list of reasoning items |
| ChatRoundTrip.SummaryIsStripped | src/bedrock/responses_chat_provider.rs:445-469 | the rendered summary comes off again whatever text follows it |
| ChatRoundTrip.ThoughtsAreReplayed | src/bedrock/responses_chat_provider.rs:420-436 | reasoning output items, written to JSON and read as input items, keep id, content, summary and encrypted content |
| ChatStreamInvariant.ApplyKeeps | src/bedrock/responses_chat_provider.rs:1184-1357 | every accepted event keeps tags balanced, positions dense, ids minted from the reasoning as it is, and fragments accounted for |
| ChatStreamRuns.EveryRunEndsVisibly | src/bedrock/responses_chat_provider.rs:104-187 | whatever arrives, the client is given chunks and then an error as the last item, or a finish chunk |
| ChatStreamRuns.ThinkTagsAreBalanced | src/bedrock/responses_chat_provider.rs:1003-1008 | in every run the adapter's think tags alternate at depth at most one and are closed at each tool announcement and each finish |
| ChatStreamRuns.ToolsAreNumberedDensely | src/bedrock/responses_chat_provider.rs:1098-1162 | positions number the output indices 0, 1, 2, ... in the order first seen, one each; fragments name only announced tools and are what is accumulated |
| ChatStreamRuns.CompletionIsExact | src/bedrock/responses_chat_provider.rs:1164-1182 | after an accepted done the fragments sent are exactly the completed arguments, and the same done again sends nothing |
| ChatStreamRuns.ReasoningIsFrozen | src/bedrock/responses_chat_provider.rs:1238-1246 | once a tool is announced the stored reasoning never changes |
| ChatStreamRuns.StreamedTurnIsReplayable | src/bedrock/responses_chat_provider.rs:1078-1128 | the calls a client puts together from any run are accepted back whatever content comes with them, share one reasoning list or have none, and give every call's upstream id, name and arguments |
| ChatStreamRuns.AssembledAreWired | src/bedrock/responses_chat_provider.rs:1098-1128 | streamed calls carry the ids the plain form gives the same calls |
| ChatWire.ReadIffCarried | src/bedrock/responses_chat_provider.rs:1184-1341 | the adapter takes a JSON for an event if and only if it carries that event, for every kind of event: its type, its output index in 32 bits, its item, delta, text, arguments and usage, each with what stands in for a missing one; any other type, and items that mean nothing to a chat, are skipped |
| ChatWire.WrittenIsRead | src/bedrock/responses_chat_provider.rs:1184-1341 | every event is read back from its wire form |
| ChatWire.WrittenAreCarried | src/bedrock/responses_chat_provider.rs:1184-1341 | so events in order are carried by their wire forms in order, which is what `DeliveryAgreesWithPlain` and `StreamedTurnRoundTrip` start from |
| ChatRefusals.JsonRefusedForAReason | src/bedrock/responses_chat_provider.rs:1010-1056 | JSON is refused as an event only for what its error says: no type, no item, an item without a type, an unknown kind of call in an item event or a final output, a call without id or name, or a final output that is no array |
| ChatRefusals.EventRefusedForAReason | src/bedrock/responses_chat_provider.rs:1078-1182 | an event is refused in a state only for what its error says: reasoning behind a call, a new call whose reasoning cannot be replayed or whose id cannot be minted, arguments before their call, arguments that do not extend what was sent, or a failure upstream |
| ChatRefusals.RunBrokenOffForAReason | src/bedrock/responses_chat_provider.rs:104-187 | every run ends with the answer, or with an error that says what broke it off: the transport, bytes that are too many for a frame or hold no event, an event refused in the state that was reached, or a body that ended too soon |
| ChatRefusals.PlainRefusedForAReason | src/bedrock/responses_chat_provider.rs:591-708 | a finished response is refused only for what its error says: upstream's own error, reasoning behind a call, an unknown kind of call, calls with reasoning that cannot be replayed, with the encoder off, or an id that cannot be minted |
| ChatAgreement.StreamAgreesWithPlain | src/bedrock/responses_chat_provider.rs:1184-1357 | for every event sequence that tells of a response, in any fragments, with argument fragments that stop anywhere, any skipped events before, between and behind, and any further fields in its reasoning items: it is accepted on the same grounds as the plain form, each form needing room for its own capsules; the client then has the response's calls with the ids of the reasoning sent, its finish reason, and the content of the items in order |
| ChatAgreement.AcceptedAlikeWhen | src/bedrock/responses_chat_provider.rs:605-708 | without calls, or when no reasoning item has further fields, the stream is accepted exactly when the plain form accepts |
| ChatAgreement.CallsAgreeIff | src/bedrock/responses_chat_provider.rs:1078-1128 | both forms give the same calls at the same positions with the same names and arguments; the ids are the same if and only if there are no calls or no reasoning item has further fields |
| ChatAgreement.FurtherFieldChangesIds | src/bedrock/responses_chat_provider.rs:1058-1076 | a reasoning item that is sent with its status, and a call: the two forms give the call different ids |
| ChatRoom.SomeStatusIsRefused | src/bedrock/responses_chat_provider.rs:1078-1096 | for every response of reasoning and a call that the plain form accepts there is a status that, sent on the reasoning item, has the stream of the same response refused for want of room |
| ChatAgreement.KeptReadsTheSame | src/bedrock/responses_chat_provider.rs:1058-1076 | what the machine stores of a response's reasoning reads as its typed form does: same validity, same summary, same input items |
| ChatAgreement.FinishesAlikeIff | src/bedrock/responses_chat_provider.rs:709-715 | the finish reasons differ exactly for an incomplete response with calls |
| ChatAgreement.IncompleteCallFinishes | src/bedrock/responses_chat_provider.rs:709-715 | an incomplete response of one call: `length` when streamed, `tool_calls` in the plain form |
| ChatCanonical.HeardIsEnough | src/bedrock/responses_chat_provider.rs:1184-1357 | events the adapter skips, and the arguments of an unfinished call, make no difference to any state |
| ChatContent.ContentAgreesIff | src/bedrock/responses_chat_provider.rs:674-687 | for every response: with at most one summary part speaking, streamed and plain content are equal if and only if there are no refusals and the text in front of the summary swaps with the summary's block; without refusals, if and only if besides at most one part speaks; otherwise they can only be equal when the refusals are as long as the extra think tags |
| ChatContent.TagFreeContentAgreesIff | src/bedrock/responses_chat_provider.rs:674-687 | for every response without `<` in its texts and summaries, whatever its refusals: the contents are equal if and only if nothing is refused, at most one summary part speaks, and no text stands in front of it |
| ChatContent.RefusalsMayMakeUpForTags | src/bedrock/responses_chat_provider.rs:674-687 | two parts that speak, one of them of tags, and a refusal of tags, with equal contents: with `<` in the texts several parts and a refusal do not exclude equality |
| ChatContent.RefusalIsNotStreamed | src/bedrock/responses_chat_provider.rs:626-640 | a refusal alone: nothing is streamed, the plain content is the refusal |
| ChatContent.TextBeforeSummaryIsMoved | src/bedrock/responses_chat_provider.rs:674-687 | text and then a summary: the stream keeps this order, the plain content has the summary first |
| ChatAgreement.UsageIsRead | src/bedrock/responses_chat_provider.rs:791-809 | the usage chunk has the numbers of the response's usage, a missing detail as 0 |
| ChatAgreement.MissingNumbersAre | src/bedrock/responses_chat_provider.rs:1359-1382 | of the numbers of a usage each that is missing counts as 0, but a missing total is the sum of the two others |
| ChatAgreement.FinishIsRemembered | src/bedrock/responses_chat_provider.rs:1323-1335 | the finish reason kept in the state is always the one that was last sent |
| ChatAgreement.AdmissibleIff | src/bedrock/responses_chat_provider.rs:605-672 | an output is accepted item by item if and only if nothing in it is refused and every call's id can be minted with all the reasoning kept |
| ChatCanonical.SummaryShowsTwiceIff | src/bedrock/responses_chat_provider.rs:1207-1255 | in every state before a call, closing a summary part and then its item shows the summary twice if and only if none was streamed before; otherwise at most an open think block is closed |
| ChatChunking.DriveIsChunkingIndependent | src/bedrock/responses_chat_provider.rs:119-153 | when nothing behind the end of the answer sends a chunk or fails, every chunking of the body gives the client the same |
| ChatChunking.ChunkingMattersUnless | src/bedrock/responses_chat_provider.rs:136-153 | for any machine whose ended answer stays ended: every cut of a decodable body gives the client the same chunks and error if and only if each event behind the one that ended the answer is accepted and sends nothing |
| ChatChunking.BodyChunksMatterUnless | src/bedrock/responses_chat_provider.rs:136-153 | for the adapter, from the events: any two cuts of a body give the client the same if and only if something fails before the end, or every event behind it is skipped, empty, a repetition of what was completed, or a reasoning item before any call with nothing new to show |
| ChatChunking.LateTextDependsOnChunks | src/bedrock/responses_chat_provider.rs:136-153 | `response.completed` and then a text delta: in one chunk the text is sent behind the finish chunk, in two it is not |
| ChatDelivery.DeliveryAgreesWithPlain | src/bedrock/responses_chat_provider.rs:84-187 | bytes to client: any event sequence that tells of a response, in frames with either line end and any lines besides the data, cut into any chunks, is accepted and shown as `StreamAgreesWithPlain` says, or ends in an error |
| ChatEcho.EchoRestoresIff | src/bedrock/responses_chat_provider.rs:368-443 | the message a client puts together from a stream is read back with the turn's reasoning and its calls in every case, and as the whole turn if and only if the stream showed the plain content, or only the text |
| ChatEcho.StreamedTurnRoundTrip | src/bedrock/responses_chat_provider.rs:104-187 | bytes to the next request: a streamed tool turn that showed the plain content, sent back with a result for each call behind any history, becomes exactly its reasoning, text, calls under their upstream ids, and results |
| ChatMachine.DriveStream | src/bedrock/responses_chat_provider.rs:104-187 | the driver over the two objects yields exactly what the specified run gives |
| ChatMachine.DriveLoop | src/bedrock/responses_chat_provider.rs:119-182 | the loop over arrivals, and the end of the body |
| ChatMachine.MapBatch | src/bedrock/responses_chat_provider.rs:136-150 | a batch is mapped to its end, also behind a terminal event, and stops at the first error |
| ChatMachine.Receive | src/bedrock/responses_chat_provider.rs:120-153 | one arrival: a transport error, a decoding error, or a batch, with the decoder's new buffer |
| ChatMachine.Finish | src/bedrock/responses_chat_provider.rs:155-182 | the last frame, and the error for a missing terminal event |
| ChatMachine.ResponsesChatStreamState.constructor | src/bedrock/responses_chat_provider.rs:926-958 | the new object is in the initial state, behind the role chunk |
| ChatMachine.ResponsesChatStreamState.MapEvent | src/bedrock/responses_chat_provider.rs:1184-1357 | an event's chunks and the new state, or its error; which event a JSON is, `ReadIffCarried` says |
| ChatMachine.ResponsesChatStreamState.CloseThink | src/bedrock/responses_chat_provider.rs:1003-1008 | writes the closing tag exactly when a block is open |
| ChatStreamInvariant.StoreReplacesOne | src/bedrock/responses_chat_provider.rs:1058-1076 | storing a reasoning item replaces the one under its index and no other, keeps the order of the indices, and takes over the encrypted content and the summary exactly where the new item has none |
| ChatStreamInvariant.ItemsStayAscending | src/bedrock/responses_chat_provider.rs:1058-1076 | every accepted event keeps the stored items in the order of their indices |
| ChatMachine.ResponsesChatStreamState.ToolMetadataChunk | src/bedrock/responses_chat_provider.rs:1098-1128 | announces a new output index under the next position with its minted id |
| ChatMachine.ResponsesChatStreamState.ToolArgumentsChunk | src/bedrock/responses_chat_provider.rs:1130-1162 | sends and accumulates a fragment; fails for a tool not announced, and skips an empty fragment |
| ChatMachine.ResponsesChatStreamState.CompleteToolArguments | src/bedrock/responses_chat_provider.rs:1164-1182 | sends the missing end, or fails when the fragments are no prefix |
| ChatMachine.ResponsesChatStreamState.OnSummaryDelta | src/bedrock/responses_chat_provider.rs:1190-1206 | opens a think block with the first fragment and continues it with the others |
| ChatMachine.ResponsesChatStreamState.OnSummaryDone | src/bedrock/responses_chat_provider.rs:1207-1219 | shows an unstreamed summary whole, and closes a streamed one |
| ChatMachine.ResponsesChatStreamState.OnTextDelta | src/bedrock/responses_chat_provider.rs:1220-1229 | closes the think block and shows the text |
| ChatMachine.ResponsesChatStreamState.OnReasoningItem | src/bedrock/responses_chat_provider.rs:1238-1255 | stores the item and shows an unstreamed summary; fails behind a tool call |
| ChatMachine.ResponsesChatStreamState.OnCallItem | src/bedrock/responses_chat_provider.rs:1256-1284 | closes the think block, announces a new call, and completes its arguments on done |
| ChatMachine.ResponsesChatStreamState.OnTerminal | src/bedrock/responses_chat_provider.rs:1314-1341 | closes the think block, sends the finish reason, and when asked for the numbers read from the usage |
| SseTerminator.ObserveInPieces | src/bedrock/mantle_client.rs:115-180 | cutting a chunk in two does not change what is recognised, nor at which byte |
| SseTerminator.ObserveStaysCoherent | src/bedrock/mantle_client.rs:115-180 | the flag is set exactly when metadata is held, so a hit always has metadata |
| SseTerminator.ForwardIsChunkingIndependent | src/bedrock/mantle_client.rs:214-245 | on any chunking the wrapper reports what the automaton sees in the uncut bytes, forwards a prefix of its input that holds the whole terminal frame, and overruns it by less than one chunk |
| SseTerminator.SameBytesSameTerminal | src/bedrock/mantle_client.rs:214-245 | the same bytes in other chunks report the same terminal |
| SseTerminator.RecognisedIffTerminal | src/bedrock/mantle_client.rs:133-175 | a frame is recognised if and only if some line declares it terminal and no later line names another event |
| SseTerminator.ObserveIsFirstTerminal | src/bedrock/mantle_client.rs:115-180 | the byte automaton finds the first terminal frame of an independent reading by lines, frames and declarations, with the metadata that reading calls for, at the same byte |
| SseTerminator.ReadFrameHolds | src/bedrock/mantle_client.rs:133-175 | the metadata held behind any lines, which `MetadataAreTheEvents` reads off their JSON: the JSON is that of the last data line that parses from the first standing declaration on, the name the last terminal type such a line has, or else the declaring event line's |
| SseMetadata.MetadataAreTheEvents | src/bedrock/mantle_client.rs:56-97 | for every event: status and each count come from their paths in its response, or in the event itself if it has none; the error is the response's, its kind under `error_type` or else `type`; an `error` event without one is its own error; a bare event name has no further metadata |
| SseMetadata.NamesAre | src/bedrock/mantle_client.rs:193-205 | the same four names end an answer as the event line and as the type of the JSON |
| SseMetadata.TrimIs | src/bedrock/mantle_client.rs:183-191 | the value of a line is what white space around it leaves |
| SseMetadata.NestedIsReported | src/bedrock/mantle_client.rs:56-97 | an event written around a response with a status, counts and an error reports exactly these |
| SseMetadata.FlatIsReported | src/bedrock/mantle_client.rs:56-97 | so does one without a `response`, written with them as its own fields |
| SseMetadata.BareIsReported | src/bedrock/mantle_client.rs:56-97 | an `error` event with its error at the top level reports its code and kind and nothing else |
| SseMetadata.FrameReportsItsEvent | src/bedrock/mantle_client.rs:151-173 | a frame of one data line with the JSON of a terminal event is recognised with that event's metadata |
| SseTerminator.DeclarationStands | src/bedrock/mantle_client.rs:133-175 | that declaration is the first line that declares the frame terminal and is not retracted by a later line; without one the frame is not terminal |
| SseTerminator.ForwardsUpToFirstTerminalFrame | src/bedrock/mantle_client.rs:214-245 | the wrapper on any chunking reports the first terminal frame of the bytes and forwards up to the chunk in which it ends; without one it forwards everything up to a transport error |
| SseTerminator.ResponsesSseTerminator.ObserveChunk | src/bedrock/mantle_client.rs:115-180 | the byte loop over the object's fields computes the specified state and finding |
| SseTerminator.Terminate | src/bedrock/mantle_client.rs:214-245 | the wrapper's loop forwards the specified items and calls the observer at most once, with the metadata of `ReadFrameHolds` |
| Base64Url.DecodeIffEncoded | src/bedrock/capsule.rs:194-259 | text decodes to octets if and only if it is their encoding: no second spelling is accepted |
| Base64Url.GroupKeepsBits | src/bedrock/capsule.rs:175-191 | three octets and their four sextets are the same number, and what is missing of a last group counts as zeros |
| Base64Url.Vectors | src/bedrock/capsule.rs:175-191 | the encodings of section 10 of RFC 4648 without padding, and the two marks of its section 5 |
| Capsule.MintedIs | src/bedrock/capsule.rs:156-192 | what the Bedrock encoder writes, character by character: tag, payload with the id and the blocks in version 1 of both, and its MAC under the active key; it fails exactly without an active key that is known, or beyond 65536 bytes |
| Capsule.MintedResponsesIs | src/bedrock/capsule.rs:261-304 | the same in the Responses namespace, which first wants a call id and items that can be replayed |
| Capsule.DecodingIs | src/bedrock/capsule.rs:194-259 | the verdict on any text: one with the form of a Bedrock capsule and a readable payload is refused for its version, then its key, then its MAC, then its content, and otherwise decoded; any other is malformed, or too long |
| Capsule.ResponsesDecodingIs | src/bedrock/capsule.rs:306-374 | the same in the Responses namespace |
| Capsule.BlockIsValidIff | src/bedrock/capsule.rs:376-389 | a block can be replayed if and only if it is a text with a signature, or redacted content |
| Capsule.ItemIsValidIff | src/bedrock/capsule.rs:391-404 | an item can be replayed if and only if it is reasoning with an id and encrypted content, neither of them empty |
| Capsule.MintedCapsuleDecodes | src/bedrock/capsule.rs:156-259 | what the Bedrock encoder mints, under any keyring: unknown key id, other MAC, block not replayable, or exactly the id and blocks; never the size limit or malformed |
| Capsule.MintedResponsesCapsuleDecodes | src/bedrock/capsule.rs:261-374 | the same for the Responses namespace |
| Capsule.CapsuleRoundTrip | src/bedrock/capsule.rs:156-259 | round trip under every keyring that keeps the signing key; the other namespace's decoder refuses the wire |
| Capsule.ResponsesCapsuleRoundTrip | src/bedrock/capsule.rs:261-374 | round trip under every keyring that keeps the signing key; the other namespace's decoder refuses the wire |
| Capsule.AcceptedIffSigned | src/bedrock/capsule.rs:194-259 | a Bedrock capsule is accepted if and only if it is, character for character, the signed form of a replayable version 1 payload under the key its key id names, within the size limit |
| Capsule.AcceptedResponsesIffSigned | src/bedrock/capsule.rs:306-374 | the same for the Responses namespace |
| CapsuleRuntime.ReadEntries | src/bedrock/capsule.rs:47-69 | the loop fills the key map; the first bad entry fails, a later entry replaces |
| CapsuleRuntime.EntriesAre | src/bedrock/capsule.rs:43-48 | the entries are what commas separate in the setting, and blank text has none |
| CapsuleRuntime.EntryIsRead | src/bedrock/capsule.rs:48-66 | an entry is a key id and a key in base64url around a colon, with any white space around either; anything else behind the colon is invalid key data |
| CapsuleRuntime.EntryIsMalformed | src/bedrock/capsule.rs:48-60 | without a colon, or with nothing on one side of the first, it is malformed |
| CapsuleRuntime.SettingsResolveIff | src/bedrock/capsule.rs:70-93 | good entries resolve to their keyring unless minting is enabled without an active key id, or with one that has no key, each with its own error |
| CapsuleRuntime.ResolveCapsuleRuntime | src/bedrock/capsule.rs:40-93 | the keyring of the settings, with an enabled encoder only if its active key exists |
| CapsuleRuntime.EnabledRuntimeMints | src/bedrock/capsule.rs:70-93 | under settings accepted with the encoder enabled, minting never fails for want of a key: only for size, or for content that would not decode |
| CapsuleRuntime.AddedEntriesKeepKey | src/bedrock/capsule.rs:47-69 | entries for other key ids added behind take no key away |
| CapsuleRuntime.RotationKeepsCapsules | src/bedrock/capsule.rs:40-93 | a capsule stays decodable after keys are added and another is made active |
| ChatMapper.Gather | src/bedrock/response.rs:94-161 | the loop over the blocks; it fails exactly when the encoder is enabled and reasoning stands behind a tool use |
| ChatMapper.MintCalls | src/bedrock/response.rs:163-186 | every call's id becomes a capsule of the turn's reasoning, or the first failure fails them all |
| ChatMapper.MapLoop | src/bedrock/response.rs:103-217 | the message the blocks stand for, with each of its errors |
| ChatMapper.FromConverseOutput | src/bedrock/response.rs:71-251 | the whole answer of an output, with its finish reason, its token numbers and the details attached when there is something to tell; an output without its content array is refused |
| ConverseReport.MessageIsTheTurn | src/bedrock/response.rs:119-202 | for every output: the content is all the reasoning in think tags and the last text, or that text alone, and absent only for calls without either; the calls are upstream's one for one with their positions, names and inputs, and with their own ids unless reasoning is put into them |
| ConverseReport.TurnRefusedForAReason | src/bedrock/response.rs:119-186 | an answer is refused only for what its error says: no content, or, with an enabled encoder, reasoning behind a tool use, tool uses with reasoning that cannot be replayed, or an id that cannot be encoded |
| ConverseReport.AcceptedTurnIsSound | src/bedrock/response.rs:119-186 | a turn that an enabled encoder accepts has no reasoning behind a tool use, and only reasoning that can be replayed if it uses tools |
| ConverseReport.FinishReasonIs | src/bedrock/response.rs:281-294 | the finish reason for every stop reason in any letter case: `tool_calls`, `stop`, `length` or `content_filter` for the seven known ones, and any other in lower case |
| ChatMapper.CountReasoning | src/bedrock/response.rs:257-270 | the token estimate is made on the reasoning text of all blocks |
| ChatMapper.FinishReasonIsStable | src/bedrock/response.rs:281-294 | letter case does not matter to the finish reason, and a finish reason stands for itself |
| ChatMapper.FoldedIsGathered | src/bedrock/response.rs:94-161 | block by block gathering gives the calls, reasoning, valid blocks and last text of the whole |
| ChatMapper.ToolTurnIsReplayable | src/bedrock/response.rs:119-186 | with the encoder enabled every call of an accepted turn keeps its name and arguments; its id is upstream's when there is no reasoning, and otherwise decodes to it and to the one list of reasoning blocks |
| Cache.PlaceMessagePoint | src/bedrock/cache.rs:348-408 | the search from the end and the push into the turn found |
| Cache.ToolsGainAtMostOne | src/bedrock/cache.rs:223-262 | tools change by nothing but one point, placed exactly when caching is supported and on, there is room, and the tail is no point |
| Cache.SystemGainsAtMostOne | src/bedrock/cache.rs:282-322 | the system prompt changes by nothing but one point, placed whatever the budget |
| Cache.MessagesGainAtMostOne | src/bedrock/cache.rs:348-408 | messages change by nothing but one point, and only with room in the budget |
| Cache.OnlyLastEligibleTurnChanges | src/bedrock/cache.rs:348-408 | a turn changes if and only if it is the last eligible user turn and caching may decorate |
| Cache.SecondPassIsIdleIff | src/bedrock/cache.rs:381-399 | a second pass changes nothing if and only if no two turns are eligible |
| Cache.SecondPassDecoratesEarlier | src/bedrock/cache.rs:381-399 | two questions in a row: the second pass decorates the first of them too |
| CacheReport.WordsAdd | src/bedrock/cache.rs:186-200 | the words on the two sides of a white space add up |
| CacheReport.BlockWordsAdd | src/bedrock/cache.rs:186-200 | the words of blocks are those of their texts; a block without text has none |
| CacheReport.EstimateIs | src/bedrock/cache.rs:186-200 | the estimate is 1.3 tokens a word rounded half up, within 32 bits |
| CacheReport.PointsAre | src/bedrock/provider.rs:1099-1113 | the points of a zone are those of its blocks, and of the content of blocks that are no points |
| CacheAssembly.DecorateZones | src/bedrock/provider.rs:893-941 | tools, then system, then messages on one running budget, and whether any point landed |
| CacheReport.ToolsTakeAPoint | src/bedrock/provider.rs:893-905 | the tools end in a point if and only if the request's system switch, or else the default, wants caching, the model takes any points, and their list has no point at its end; the point lives as long as asked, or by default, and an hour only where the model offers it |
| CacheReport.SystemTakesAPoint | src/bedrock/provider.rs:906-920 | the system prompt takes the same point if and only if it is wanted, the model caches, and it is long enough |
| CacheReport.LastQuestionTakesAPoint | src/bedrock/provider.rs:921-941 | the last user turn with content that is not only tool results takes the point at its end if and only if the request's message switch, or else the default, wants it and the other zones have left room of the model's points, four unless it is known; no other turn changes |
| CacheAssembly.DecorationAddsOnlyPoints | src/bedrock/provider.rs:893-941 | each zone gains at most one point, exactly when due for tools and system; messages only while the others leave room; nothing else changes |
| CacheAssembly.OffTouchesNothing | src/bedrock/provider.rs:848-860 | with caching off the request is untouched |
| CacheAssembly.ErasingUndoesDecoration | src/bedrock/provider.rs:893-941 | erasing the points of a decorated request gives the request, which is what caching off gives |
| CacheAssembly.WithinCeilingIff | src/bedrock/provider.rs:893-941 | the points stay within the ceiling if and only if it is at least 2, or the system takes none, or it is 1 and the tools take none |
| CacheAssembly.SystemOverrunsCeiling | src/bedrock/provider.rs:893-941 | a policy that allows no point and a system prompt: one point is placed |
| CacheSupport.CacheSupportRegistry.MarkUnsupported | src/bedrock/cache_support.rs:76-83 | a marked model is added and none is lost |
| CacheSupport.CacheSupportRegistry.SendWithCacheStripRetry | src/bedrock/cache_support.rs:168-202 | a second send happens exactly after a rejection of injected points, marks the model, and its result is final |
| CacheSupport.RejectionIs | src/bedrock/cache_support.rs:118-140 | which service errors count as a rejection of cache points: by exact code, and by what the message mentions in any letter case |
| CacheSupport.RetryIs | src/bedrock/cache_support.rs:168-202 | one call of the retrying send: exactly a rejection of injected points is tried again, once, and remembered; the result is what the last reply says, error code and message included |
| CacheSupport.NormalizedIs | src/bedrock/capabilities.rs:67-76 | the name a model is compared by: in lower case and without one leading region of the seven, in any letter case |
| CacheProtocol.Serve | src/bedrock/provider.rs:1117-1131 | a request is assembled under the negative cache and sent with the strip and retry; result, number of sends and new negative cache are those of the specified call |
| CacheProtocol.EveryRunIsSafe | src/bedrock/cache_support.rs:168-202 | in every interleaving each request sends at most twice, the second send has no points and follows a rejection of injected ones, the result is the last reply's, and a model is marked only for a real rejection |
| CacheProtocol.NegativeCacheGrows | src/bedrock/cache_support.rs:43-83 | no step removes a model |
| CacheProtocol.NoInjectionAfterMark | src/bedrock/provider.rs:848-860 | a request assembled once its model is marked never sends a point, whatever others do, and so sends at most once |
| CacheProtocol.ServedIsOneCall | src/bedrock/provider.rs:1117-1143 | the steps of one request without others in between are one call of the retrying send |
| CacheProtocol.ServingIsUninterrupted | src/bedrock/provider.rs:1117-1131 | all steps of a new request without others in between end with the result, the number of sends and the negative cache that serving it promises |
| CacheProtocol.OneRetryForEachModel | src/bedrock/cache_support.rs:168-202 | when requests are served one after the other at most one for each normalised model is retried |
| CacheProtocol.JobsStripWhenOff | src/bedrock/provider.rs:848-860 | requests that come without points have none when caching is off |

## Left out

- Clocks, generated ids and request ids: `created_at` is not part of a response here, and the response id is a parameter.
- Logging, metrics and the `Drop` diagnostics: they do not change what is sent.
- AWS SDK, reqwest, region routing, credentials and HTTP status mapping: each send is one reply chosen by the environment.
- Integer widths: counters are unbounded, so their wrap-around is not modelled; the truncation of output indices and of usage numbers to 32 bits and the clamp of the cache token estimate are.
- JSON: numbers are integers, objects are maps without an order of keys, and the grammar is a parser parameter; the order of keys on the wire is not modelled.
- Non-ASCII lower-casing: `to_lowercase` acts on ASCII letters. Trimming has the Unicode white space of Rust's `trim`.
- The 1.3 factor of the cache token estimate is exact arithmetic rounded half up, not `f64`.
- HMAC, the sealed reasoning envelope and tiktoken counts are uninterpreted.
- `StreamRefinement.StreamingRefinesNonStreaming`: a reasoning block without any text key is left out, because no stream event can carry that absence and the Bedrock block type always has its text.
- The fallback of `build_final_response` for an output the mapper rejects: the rebuilt output always has its content array, so it is never taken.
- `ChatMachine.ResponsesChatStreamState.MapEvent`: says nothing about the object's fields after an error, because the driver drops the object then.
- `ChatMachine.ResponsesChatStreamState.OnReasoningItem`: the summary text that the state keeps only feeds log lines, and nothing is said about it.
- `StreamMachine.ResponsesStreamState.MapEvent`: `last_bedrock_event` and `tool_progress` only feed log lines and are not kept.
- Concurrent use of one stream object: each has one owner; the shared negative cache is modelled with interleaved steps, its lock is not.
- Tool-result normalization behind the cache decoration (`src/bedrock/provider.rs:943-959`), the JSON to SDK builders and image blocks: field copying.
- `ChatAdapter.ChatRequestInput`: only the `input` of the request; the refusal of `n` and `stop`, and tools, tool choice, response format and parameters, which are copied field by field, are not part of it.
- `ChatMapper.FromConverseOutput`: sums of token numbers are unbounded, so the overflow of the `i32` sums is not modelled.
- `CapsuleRuntime.ResolveCapsuleRuntime`: the zeroing of key material and the error texts are not modelled.
- Reading `extra_body.prompt_caching` out of a request: the switches and the requested lifetime are given.
