# Stream translation, authorization, admission and tariffs: a verified model

This project models the parts of an LLM gateway that keep state or combine many cases,
and proves what the gateway relies on. Times, tokens and indices are integers, prices are
real numbers whose products are rounded to 53 binary digits, random identifiers are fresh serial
numbers, and JSON text is opaque. Every source object that updates its fields is a class, proved
step by step against functions on values; the theorems are then lemmas about those functions, for
every input and every run.

* **Streams.** Three protocols (Chat Completions, Responses, Anthropic Messages) are
  translated event by event and chained. `ChatToResponses`, `ResponsesToAnthropic`,
  `AnthropicToResponses` and `ResponsesToChat` are the translators;
  `ChatToAnthropicChain`/`ChatToAnthropicPump`, `ResponsesToAnthropicPump`, `ChatToResponsesPump` and
  `AnthropicToChat` are the chains and pumps; `ChatToResponsesContent`, `ChatToResponsesCalls` and
  `ChatToResponsesOrder` compare the deltas of a chat answer with its output array,
  `ChatToResponsesDone` with the events that report its items done. Each theorem
  compares a run with a reader that knows nothing of the translators: what the chunks and their
  fragments say (`ChatChunks`, `FragmentHistory`), what the events mean (`ResponsesMeaning`,
  `AnthropicToChat.Hear`, `UnbufferedStream.Tally`, `AnthropicToResponsesItems`), why an answer ended
  (`ChatFinish`), or whether a stream is well formed (`AnthropicEvents.Read`,
  `AnthropicToResponsesSpec.Accept`). `Sse` reads the `data` field of section 9.2.6 of the WHATWG
  HTML Living Standard, one line at a time.
* **Histories.** `ChatHistoryBuild` turns input items into chat messages; `ChatHistory` and
  `AnthropicHistory` repair the pairing of calls and replies. `ChatHistoryReasoning`,
  `ChatHistoryPairs` and `AnthropicHistoryRoles` say message by message what comes of it.
* **Authorization.** `Scopes` gives scopes one meaning, and `Decisions` shows that point
  decisions and query scopes share it, and for how long a decision holds. `ScopeLaws` and
  `DecisionLaws` read both off the clauses and the grants alone.
* **Admission.** `ConcurrencyLimiter.dfy` holds the in-process slots and the Redis lease
  protocol as interleaved atomic steps, and `LeaseLaws` says how long a lease lasts; `RpmLimiter` is
  the sliding minute.
* **Companions.** `ContentProbe` splits lines; `Tariff` and `TimeBands` price requests, over the
  rounding of `Binary64`, and `TariffLaws` says what a charge is.

## What turned out different

* Late reasoning. `ensureChatReasoningItem` never reopens its item, yet late deltas are still
  emitted, into a block that has been closed. `ChatToAnthropicChain.WellFormedExactly` gives the
  exact condition on the chunks and `LateReasoningBreaks` the smallest answer. Texts, calls and stop
  reason are right all the same (`ChainTheorem`).
* Tool slots. `closeChatToolItems` and `chatOutput` look at slots 0..n-1 for n calls. Items on
  other slots are never reported done (`ChatToResponsesPump.FinishedExactly`, `SlotOneStaysOpen`), and
  in the Anthropic stream such calls keep the identity of their first fragment
  (`ChatToAnthropicChain.ShownIdentity`), with complete arguments.
* Streamed and listed. The comment at lines 632-634 of `chatcompletions_responses_bridge.go` promises
  that streamed output indices match the output array. They do exactly for an upstream that keeps
  the array's order (`ChatToResponsesOrder.OrderTheorem`); and the two tell the same calls and the
  same finish reason exactly under the conditions of `ChatToResponsesCalls`.
* Unbuffered blocks. An item's block is closed by whatever ends it first, and later deltas for it
  go to the closed block. `UnbufferedStream.WellFormedExactly` tells for every event list when that
  happens; `InterleavedCallsBreak`, `SecondSummaryBreaks` and `LateArgumentsBreak` are the smallest
  upstreams. A running `Read` call takes the deltas of other calls (`ReadSwallows`), and is shown
  without arguments when it is closed without an arguments-done event (`UnbufferedStream.SeenCalls`).
* Dropped blocks. Inside another dropped block, a dropped block's stop ends the outer one too
  early (`SearchBlockLeavesNoTrace`, `NestedSearchShows`).
* Read intersections. Two scopes may both cover an object for reading while their intersection
  does not (`ReadsMayDiverge`); `IntersectionForReads` gives the exact condition.
* Decisions. A reused decision is wrong at one moment only, the zero time (`DecisionStable`,
  `ZeroTimeRefuses`), which no clock that has been set comes to again (`DecisionStableOnClock`).
* Leases. The bound (N + 1) times the limit holds for slots and fallbacks. Requests in flight exceed
  it by the callers whose slot was taken, which `LostExactly` tells exactly and nothing bounds
  (`LapsedLeasesExceedAnyCap`). A replica whose clock runs ahead of Redis can get a deadline beyond
  the expiry of the key (`NoEarlyDropsExactly`).
* The minute window reads the clock before it takes the lock. With a reading d late, only spans of
  a minute less d are sure to stay within the limit (`NoSpanExceedsLimit`, `SpanIsTight`), and the
  whole minute is exactly when no reading is late or the limit is one (`MinuteHoldsExactly`).
* Reservations. The comment in `service_tier.go` allows four units for rounding. They are enough for
  reservations of up to 2^51 units (`ReservationCovers`); beyond that the floating-point products
  alone can differ by more (`ReservationFallsShort`). The bound is one way: which of the larger
  reservations fall short depends on how each product happens to be rounded.

## Model

| member | source | states |
|---|---|---|
| ChatToResponses.StreamState.ConvertChunk | internal/apicompat/chatcompletions_responses_bridge.go:683-790 | one chunk has exactly the effect of feeding its fragments, choice by choice, in the order reasoning, content, tools, finish |
| ChatToResponses.StreamState.AppendTool | internal/apicompat/chatcompletions_responses_bridge.go:731-786 | a tool fragment opens a slot once, may later correct its identity, and appends its argument piece |
| ChatToResponses.StreamState.Finalize | internal/apicompat/chatcompletions_responses_bridge.go:792-857 | the terminal events: close reasoning, fall back to reasoning as text, close the message and tools 0..n-1, one terminal event; nothing on a second call |
| ChatToResponses.StreamState.ChatOutput | internal/apicompat/chatcompletions_responses_bridge.go:1038-1081 | the output array of the terminal event: reasoning, message (also when there is nothing else to show), calls of slots 0..n-1, with an identifier drawn for each item that lacks one |
| ChatToResponsesContent.OutputIdsDistinct | internal/apicompat/chatcompletions_responses_bridge.go:1038-1081 | no two items of the output array share an identifier |
| ChatToResponsesSpec.FeedChoice | internal/apicompat/chatcompletions_responses_bridge.go:695-786 | reading a choice field by field is feeding its fragments in order |
| ChatToResponsesPump.FinishedExactly | internal/apicompat/chatcompletions_responses_bridge.go:995-1036 | events are numbered by position, the one terminal event is last, and every announced item is reported done exactly when the tool slots in use are 0..n-1 |
| ChatToResponsesPump.SlotOneStaysOpen | internal/apicompat/chatcompletions_responses_bridge.go:995-1036 | one call on slot 1 is never reported done |
| ChatToResponsesPump.FinalizeReads | internal/apicompat/chatcompletions_responses_bridge.go:792-857 | the items never reported done are exactly those of the slots outside 0..n-1 |
| ChatToResponsesPump.PumpChatToResponses | internal/adaptor/oauth_stream.go:287-345 | the pump writes the finalized stream when the upstream ended cleanly, otherwise what came so far and one failure |
| ChatToResponsesPump.PumpEndsOnce | internal/adaptor/oauth_stream.go:287-345 | exactly one terminal event, the last one, and it reports success exactly when the stream ended cleanly |
| ChatToResponsesContent.ContentTheorem | internal/apicompat/chatcompletions_responses_bridge.go:683-1081 | the streamed deltas and the output array of the terminal event say the same text and reasoning, those of the fragments; the array lists the calls of slots 0..n-1 with latest identity and whole arguments, and every call exactly when those are the slots in use |
| ChatToResponsesContent.OutputReads | internal/apicompat/chatcompletions_responses_bridge.go:1038-1081 | reading the output array gives back the message text, the reasoning and the calls of slots 0..n-1 in slot order |
| ChatToResponsesCalls.StreamedCalls | internal/apicompat/chatcompletions_responses_bridge.go:731-786 | the calls joined from the streamed deltas are one per slot in order of first appearance, each with the first identity of its slot and all its arguments |
| ChatToResponsesCalls.StreamAndArrayAgree | internal/apicompat/chatcompletions_responses_bridge.go:1038-1081 | a client of the output array and a client of the deltas see the same answer exactly when the slots are 0..n-1 and each slot's latest identity and arguments are those of the streamed call at its place |
| ChatToResponsesCalls.RegularExactly | internal/apicompat/chatcompletions_responses_bridge.go:731-786 | for calls with identifiers of their own, that is exactly when slots first appear as 0, 1, ..., n-1, no identity is corrected later and no arguments are blank |
| ChatToResponsesCalls.FinishesAgree | internal/apicompat/chatcompletions_responses_bridge.go:792-857 | their finish reasons agree exactly when the answer was cut at its length, or made no call, or some slot in use is below the number of calls |
| ChatToResponsesOrder.OrderTheorem | internal/apicompat/chatcompletions_responses_bridge.go:625-790 | items are announced at output indices 0, 1, 2, ... in order of first appearance, and the output array lists reasoning, message and then each slot with its own call; the indices match the places in the array exactly when the upstream kept that order |
| ChatToResponsesOrder.InOrderExactly | internal/apicompat/chatcompletions_responses_bridge.go:1038-1081 | that order on the fragments: reasoning before text before tools, slots 0..n-1 first appearing in increasing order, and something to say |
| ChatToResponsesDone.DoneRepeats | internal/apicompat/chatcompletions_responses_bridge.go:878-1036 | every event that reports something done carries exactly the deltas sent under its identifier; an item is reported right after its content and its part are, or its arguments; an announced reasoning or message is followed at once by its part |
| FragmentHistory.LateReasoningMeans | internal/apicompat/chatcompletions_responses_bridge.go:878-931 | reasoning is late exactly when some reasoning fragment follows content, or a new tool slot, that itself follows reasoning |
| FragmentHistory.SlotsDistinct | internal/apicompat/chatcompletions_responses_bridge.go:731-750 | tool slots are listed once each, in order of first appearance, and are those some fragment names |
| ChatChunks.ChunksTell | internal/apicompat/chatcompletions_responses_bridge.go:683-790 | the fragments of the chunks say what their choices say: every word and tool fragment in order, the last finish reason given, and reasoning is late exactly when a choice brings some after an earlier choice ended it |
| ChatChunks.SlotsTell | internal/apicompat/chatcompletions_responses_bridge.go:731-750 | the slots in use are those of the tool fragments, one without an index being on slot 0 |
| ChatChunks.ClientHears | internal/adaptor/oauth_stream.go:350-426 | the answer a client of the chain reads, straight from the choices: thinking, text, soundness of the block structure, stop reason |
| ResponsesToAnthropic.StreamState.Convert | internal/apicompat/responses_to_anthropic.go:235-269 | one Responses event has exactly the effect of the step function, in both modes, for every event |
| ResponsesToAnthropic.StreamState.FlushPendingTools | internal/apicompat/responses_to_anthropic.go:725-773 | pending calls are emitted in order of output index; at the first whose arguments are no JSON object nothing is emitted and that call is reported |
| ResponsesToAnthropic.StreamState.HandleCompleted | internal/apicompat/responses_to_anthropic.go:661-723 | closing the open block, flushing, then stop reason and stop, or a single error; nothing on a second call |
| ResponsesToAnthropic.StreamState.Finalize | internal/apicompat/responses_to_anthropic.go:273-308 | the synthetic end of a stream without terminal event |
| ResponsesToAnthropic.SortedIndices | internal/apicompat/responses_to_anthropic.go:725-735 | the keys of the pending calls in increasing order |
| ResponsesToAnthropicSpec.IncreasingUnique | internal/apicompat/responses_to_anthropic.go:730-735 | only one increasing sequence has given members, so the flush order is determined |
| ResponsesToAnthropicSpec.FromCallIdShows | internal/apicompat/anthropic_to_responses.go:318-327 | the identifier shown for a call: unchanged unless it starts with fc_toolu_ or fc_call_, and then without its first three characters |
| AnthropicEvents.ToldApart | internal/apicompat/anthropic_to_responses.go:318-327 | calls with different identifiers, both or neither in that legacy form, are shown under different ones |
| ResponsesToAnthropicSpec.EveryRunIsOutlined | internal/apicompat/responses_to_anthropic.go:235-799 | for every upstream event list and both modes, blocks open and close one at a time at indices 0, 1, 2, ... until an error ends the stream; the visible text is the concatenation of the text deltas, and the thinking text that of the reasoning deltas whose item was announced |
| UnbufferedStream.WellFormedExactly | internal/apicompat/responses_to_anthropic.go:235-799 | unbuffered, for every event list: the block structure is broken exactly when some event is out of place (outside the message, a delta for an announced item that is not running, or closing arguments for a call that has ended without a delta), and otherwise the reader is where the events are |
| UnbufferedStream.ClientReads | internal/apicompat/responses_to_anthropic.go:235-799 | for every event list without such an event the client reads the words of the events, the calls announced, in order, each with what was streamed or closed for it, broken off or not, and the stop reason of the status |
| UnbufferedCalls.CallsMean | internal/apicompat/responses_to_anthropic.go:459-607 | if moreover only the running call is spoken of while it runs, those calls are the calls the events mean, read off independently: all deltas of the call, or else its closing arguments; for Read the cleaned closing arguments or deltas, and nothing if only the item is closed; each under its own identifier, that of the legacy form cut |
| UnbufferedCalls.EveryCallShown | internal/apicompat/responses_to_anthropic.go:371-400 | for every event list at all, each announced call is shown under its own identifier and name, in order |
| UnbufferedCalls.InterleavedCallsBreak | internal/apicompat/responses_to_anthropic.go:459-492 | the smallest interleaved upstream: two calls announced, then a delta for the first |
| UnbufferedCalls.SecondSummaryBreaks | internal/apicompat/responses_to_anthropic.go:546-571 | a delta of a second summary part of one reasoning item breaks the stream |
| UnbufferedCalls.LateArgumentsBreak | internal/apicompat/responses_to_anthropic.go:496-544 | so do closing arguments after the item was reported done |
| UnbufferedCalls.ReadSwallows | internal/apicompat/responses_to_anthropic.go:459-480 | a running Read call takes the delta of another call for its own, in a stream that stays well formed |
| ResponsesToAnthropicPump.PumpResponsesToAnthropic | internal/adaptor/oauth_stream.go:194-234 | the pump writes the translated events, and one error unless a terminal event came and the connection held |
| ResponsesToAnthropicPump.PumpTheorem | internal/adaptor/oauth_stream.go:194-234 | for every upstream the client receives every word, in a stream whose phase is determined by whether some event was out of place, the upstream ended and the connection held; in place also the calls, and after the end the stop reason |
| AnthropicEvents.FailedStream | internal/apicompat/responses_to_anthropic.go:661-723 | a well-formed stream that failed ends with its only error and has no stop; a complete one ends with its only stop |
| ChatToAnthropicChain.TrackAll | internal/apicompat/chatcompletions_responses_bridge.go:683-790 | after every fragment history the two chained states, and what a reader of the Anthropic stream has read, are determined by the history |
| ChatToAnthropicChain.FlushShows | internal/apicompat/responses_to_anthropic.go:725-773 | flushing shows every pending call, in order, each as start, one JSON piece and stop at the next index |
| ChatToAnthropicChain.FlushStops | internal/apicompat/responses_to_anthropic.go:725-773 | otherwise the error names the first call whose arguments are no JSON object |
| ChatToAnthropicChain.ViewCloseTools | internal/apicompat/chatcompletions_responses_bridge.go:995-1036 | the closing events of slots 0..n-1 confirm the identity and the complete arguments of each buffered call |
| ChatToAnthropicChain.ChainTheorem | internal/adaptor/oauth_stream.go:350-426 | for every cleanly ended chunk list: text, thinking, tool calls in order of first appearance with their whole arguments, and stop reason are those of the fragments, each call under its own identifier; or exactly one error, for the first call whose arguments are no JSON object |
| ChatToAnthropicChain.CallsToldApart | internal/apicompat/responses_to_anthropic.go:725-773 | two calls of different identifiers, neither in the legacy form, are shown under different ones |
| ChatToAnthropicChain.WellFormedExactly | internal/apicompat/chatcompletions_responses_bridge.go:878-931 | the chained stream is well bracketed (start, blocks 0, 1, 2, ... with deltas only inside their own block, stop or error) exactly when no reasoning is late |
| ChatToAnthropicChain.LateReasoningBreaks | internal/apicompat/chatcompletions_responses_bridge.go:878-931 | the smallest such answer: reasoning and content in one choice, then reasoning again |
| Sse.SentinelIsNoData | internal/adaptor/oauth_stream.go:440-464 | a [DONE] line is never read as data, so the order of the two tests does not matter |
| Sse.DataMeans | internal/adaptor/oauth_stream.go:440-464 | data is exactly what stands behind `data:` at the start of a line, white space around it apart, unless that is nothing or the sentinel |
| Sse.DoneMeans | internal/adaptor/oauth_stream.go:440-464 | the sentinel is `data:` and `[DONE]`, with white space allowed before, between and after |
| Sse.BlankMeans | internal/apicompat/chatcompletions_responses_bridge.go:933-956 | blank text is white space and nothing else |
| ChatToAnthropicPump.LineMeans | internal/adaptor/oauth_stream.go:382-401 | every line on its characters: the sentinel; data that is no chunk or reports an error; a chunk |
| ChatToAnthropicPump.Inspect | internal/adaptor/oauth_stream.go:382-401 | a line is the sentinel, of no interest, refused (no chunk, or an error finish) or a chunk |
| ChatToAnthropicPump.PumpChatToAnthropic | internal/adaptor/oauth_stream.go:350-426 | the two translator objects, driven line by line, write exactly the translated answer, or what came so far and one error |
| ChatToAnthropicPump.PumpTheorem | internal/adaptor/oauth_stream.go:350-426 | a cleanly ended stream is the translated answer; any other carries the text so far, no stop, and one error as its last event, in a block structure that is sound unless reasoning was late |
| ChatToAnthropicPump.QuietUntilStopped | internal/apicompat/responses_to_anthropic.go:661-723 | before the terminal event neither a stop nor an error is emitted |
| AnthropicToResponses.StreamState.Convert | internal/apicompat/anthropic_to_responses_response.go:214-234 | one Anthropic event has exactly the effect of the step function |
| AnthropicToResponses.StreamState.CloseCurrentItem | internal/apicompat/anthropic_to_responses_response.go:540-581 | the open item is reported done under its own index and identifier with its own content, and everything is reset |
| AnthropicToResponses.StreamState.Finalize | internal/apicompat/anthropic_to_responses_response.go:238-252 | the synthetic end of a stream without message stop |
| AnthropicToResponsesSpec.EveryRunIsFaithful | internal/apicompat/anthropic_to_responses_response.go:265-581 | for every event list: numbers 0, 1, 2, ...; at most one open item, at indices 0, 1, 2, ...; each reported done once, under its own index and identifier, with the concatenation of the deltas sent under that identifier, before the next opens and before the one terminal event |
| AnthropicToResponsesSpec.WellPlacedPairs | internal/apicompat/anthropic_to_responses_response.go:540-640 | in a stream the reader accepts, the i-th item announced is the i-th reported done, at index i, and only the last may be missing |
| AnthropicToResponsesSpec.WellPlacedTerminals | internal/apicompat/anthropic_to_responses_response.go:518-536 | such a stream has at most one terminal event |
| AnthropicToResponsesItems.ItemsTheorem | internal/apicompat/anthropic_to_responses_response.go:265-581 | for every event list the items reported done are those the Anthropic blocks mean, in order, each with its call and its content: a text block joins the message before it, any other is an item of its own; every word outside dropped blocks arrives, and the events that frame the items stand where the blocks say; after the stop nothing is missing |
| AnthropicToResponsesSpec.StoppedMeans | internal/apicompat/anthropic_to_responses_response.go:265-290 | the stream is open once a message start came, and complete once a message stop came |
| AnthropicToResponsesSpec.SearchBlockLeavesNoTrace | internal/apicompat/anthropic_to_responses_response.go:369-390 | inserting a whole server-side search block changes neither the events nor the final state, whatever follows, exactly when no dropped block was started without a stop since; otherwise the next piece of text already shows |
| AnthropicToResponsesSpec.NestedSearchShows | internal/apicompat/anthropic_to_responses_response.go:369-390 | the smallest such stream: a search block inside another |
| AnthropicToResponses.PumpAnthropicToResponses | internal/adaptor/oauth_stream.go:77-126 | the pump writes the translated events, and a failure unless the message stopped |
| AnthropicToResponses.PumpEndsOnce | internal/adaptor/oauth_stream.go:77-126 | exactly one terminal event, and it reports success exactly when the upstream sent a message stop |
| ResponsesToChat.StreamState.Convert | internal/apicompat/responses_to_chatcompletions.go:137-164 | one Responses event has exactly the effect of the step function |
| ResponsesToChat.StreamState.Finalize | internal/apicompat/responses_to_chatcompletions.go:170-195 | the final chunk of a stream without terminal event; nothing on a second call |
| ResponsesToChat.BufferedResponseAccumulator.ProcessEvent | internal/apicompat/responses_to_chatcompletions.go:452-478 | what the accumulator gathers from one event |
| ResponsesToChat.BufferedResponseAccumulator.BuildOutput | internal/apicompat/responses_to_chatcompletions.go:488-522 | the output array: reasoning, message, calls |
| ResponsesToChat.BufferedResponseAccumulator.SupplementOutput | internal/apicompat/responses_to_chatcompletions.go:527-535 | an empty output array is filled in, any other is kept |
| ResponsesToChat.ResponsesToChatCompletions | internal/apicompat/responses_to_chatcompletions.go:19-106 | the chat answer and finish reason of an output array |
| ResponsesToChatSpec.BothKeepMeaning | internal/apicompat/responses_to_chatcompletions.go:137-286 | for every event list, joined chunks and accumulated content both equal the text, reasoning and calls read directly from the events |
| ResponsesToChatSpec.OutputRoundTrip | internal/apicompat/responses_to_chatcompletions.go:488-522 | building the output array and reading it back loses nothing |
| ChatFinish.CallsAreAnnounced | internal/apicompat/responses_to_chatcompletions.go:227-268 | the calls of a stream are the announced function and custom tool calls, in order, each with the identity it was announced with |
| ChatFinish.RoleSentOnce | internal/apicompat/responses_to_chatcompletions.go:137-226 | the role is sent once if the stream says that it begins, however often, and otherwise not at all |
| ChatFinish.TerminalFits | internal/apicompat/responses_to_chatcompletions.go:287-326 | a terminal event causes one last chunk: Length exactly for an answer cut at its token limit, ToolCalls exactly when the status is completed, or there is no response in the event, and some call was announced, Stop otherwise |
| ChatFinish.StreamFinishes | internal/apicompat/responses_to_chatcompletions.go:137-326 | over a whole stream there is one such finish for each terminal event, in order, and no other |
| ChatFinish.FinalizeFits | internal/apicompat/responses_to_chatcompletions.go:170-195 | a stream without terminal event ends in ToolCalls exactly when some call was announced, and in Stop otherwise |
| ChatFinish.OutputMeans | internal/apicompat/responses_to_chatcompletions.go:19-106 | the answer of an output array: its message and reasoning texts joined, and its function calls in order |
| ChatFinish.BufferedFits | internal/apicompat/responses_to_chatcompletions.go:81-106 | its finish reason: Length exactly for an answer cut at its token limit, ToolCalls exactly when the status is completed and the array holds a function call, Stop otherwise |
| ChatFinish.StreamedIsBuffered | internal/apicompat/responses_to_chatcompletions.go:227-326 | streamed and buffered clients see the same text, reasoning, ordered (id, name, arguments) calls and finish reason when the terminal event has no output of its own |
| ResponsesMeaning.CallsExtend | internal/apicompat/responses_to_chatcompletions.go:236-278 | an argument delta extends the call whose announcement is the latest for its output index |
| ResponsesToChat.PumpResponsesToChat | internal/adaptor/oauth_stream.go:239-282 | the pump writes the translated chunks, and an error chunk unless a terminal event came and the connection held |
| ResponsesToChat.PumpKeepsMeaning | internal/adaptor/oauth_stream.go:239-282 | the client receives the whole meaning of the events, one fitting finish for each terminal event, and an error finish exactly in those cases |
| AnthropicToChat.ChainKeepsAnswer | internal/adaptor/oauth_stream.go:132-167 | across both translators the client joins exactly the text, reasoning and tool calls of the Anthropic stream, dropped blocks apart |
| AnthropicToChat.ChainFinishes | internal/adaptor/oauth_stream.go:132-189 | across both translators the client sees one finish, once the message has stopped: ToolCalls exactly when the answer had a call by then, else Stop |
| AnthropicToChat.PumpAnthropicToChat | internal/adaptor/oauth_stream.go:132-189 | the two translator objects, driven line by line, write exactly the delivered chunks |
| AnthropicToChat.PumpKeepsAnswer | internal/adaptor/oauth_stream.go:132-189 | the whole answer arrives, and the stream is marked as cut exactly when the connection broke or no message stop came; the finish is that of the Anthropic stream |
| ChatHistory.NormalizeChatMessages | internal/apicompat/chatcompletions_responses_bridge.go:231-283 | the repaired history |
| ChatHistory.NormalizeTheorem | internal/apicompat/chatcompletions_responses_bridge.go:212-283 | every announcing message is followed at once by exactly one reply per kept call in call order, and there are no other replies; exactly the answered calls are kept, in order; each reply is the last one for its call; of all else only announcers with nothing left to say are dropped, in order |
| ChatHistory.RepliesMean | internal/apicompat/chatcompletions_responses_bridge.go:232-238 | the index holds, for every identifier, the last reply that names it |
| ChatHistory.FixedPoints | internal/apicompat/chatcompletions_responses_bridge.go:231-283 | a history is left as it is exactly when calls and replies are adjacent already, no two different replies share an identifier, and every call is answered |
| ChatHistory.NormalizeIdempotent | internal/apicompat/chatcompletions_responses_bridge.go:231-283 | repairing twice is repairing once |
| ChatHistoryPairs.PairedMeans | internal/apicompat/chatcompletions_responses_bridge.go:212-230 | a paired history, message by message: the reply to call j stands j + 1 places behind its call, and a reply stands nowhere else |
| ChatHistoryPairs.MessagesStay | internal/apicompat/chatcompletions_responses_bridge.go:231-283 | every message but a named reply stays, in order, with exactly the calls that some tool message names; it goes only if it had calls, has none left, and its content is blank |
| AnthropicHistory.MergeConsecutiveMessages | internal/apicompat/responses_to_anthropic_request.go:506-526 | merging runs of one role |
| AnthropicHistory.NormalizeToolPairing | internal/apicompat/responses_to_anthropic_request.go:267-347 | the pairing pass |
| AnthropicHistory.RepairHistory | internal/apicompat/responses_to_anthropic_request.go:222-229 | merge, pair, merge |
| AnthropicHistory.RepairTheorem | internal/apicompat/responses_to_anthropic_request.go:222-347 | roles alternate; each turn opens with results of exactly the calls of the turn before, in order, and no call is left open; all other blocks stand in their order; exactly the answered calls are kept, each with the last result for it |
| AnthropicHistory.StrictMeans | internal/apicompat/responses_to_anthropic_request.go:245-266 | what a strict history is, position by position |
| AnthropicHistory.MergedStrict | internal/apicompat/responses_to_anthropic_request.go:506-526 | merging a history that reads well gives alternating roles without separating calls from results |
| AnthropicHistory.IndexMeans | internal/apicompat/responses_to_anthropic_request.go:268-280 | the index holds, for every call, the last result that names it |
| AnthropicHistoryRoles.FlatMeans | internal/apicompat/responses_to_anthropic_request.go:530-548 | the blocks the theorem speaks of: arrays as they are, plain text as one block |
| AnthropicHistoryRoles.RepairSaid | internal/apicompat/responses_to_anthropic_request.go:222-347 | for every history at all, everything but calls and results stays, in order, and in the role that said it |
| AnthropicHistoryRoles.CallsStay | internal/apicompat/responses_to_anthropic_request.go:267-347 | the calls that stay are those that some result names, in order |
| AnthropicHistoryRoles.CallsComeLast | internal/apicompat/responses_to_anthropic_request.go:282-330 | and in the repaired history they come last in their turn |
| ChatHistoryBuild.BuildChatMessages | internal/apicompat/chatcompletions_responses_bridge.go:93-210 | the chat messages of the input items, or a failure when one cannot be decoded |
| ChatHistoryBuild.BuildKeeps | internal/apicompat/chatcompletions_responses_bridge.go:93-210 | every call, every output and every word of the items is in the built history, once and in order, however they interleave |
| ChatHistoryBuild.ConvertItems | internal/apicompat/chatcompletions_responses_bridge.go:59-89 | building and repairing, or a failure when an item cannot be decoded |
| ChatHistoryBuild.ConvertTheorem | internal/apicompat/chatcompletions_responses_bridge.go:59-89 | whatever messages it starts from and whatever the items, the converted history is strictly paired and its calls are exactly the answered calls of both, in order |
| ChatHistoryBuild.AnsweredItems | internal/apicompat/chatcompletions_responses_bridge.go:59-89 | a call counts as answered exactly when it has an identifier that some output, of the start or of the items, names |
| ChatHistoryBuild.InstructionsAreSilent | internal/apicompat/chatcompletions_responses_bridge.go:59-66 | the message that carries the instructions adds no call and no output |
| ChatHistoryBuild.ParallelCallsShare | internal/apicompat/chatcompletions_responses_bridge.go:125-151 | calls separated only by reasoning or skipped items share one assistant message, with the reasoning that message had or else the reasoning before the first of them |
| ChatHistoryReasoning.ShapeMeans | internal/apicompat/chatcompletions_responses_bridge.go:93-210 | how many messages the items make, and when the last is the assistant's: every output and message stands alone, a call joins an assistant message just before it |
| ChatHistoryReasoning.SpokenPlaced | internal/apicompat/chatcompletions_responses_bridge.go:152-205 | at the place so given an output is the reply to its call, and a message keeps its role and its words |
| ChatHistoryReasoning.PendingMeans | internal/apicompat/chatcompletions_responses_bridge.go:100-106 | the reasoning that waits for a call is that of the last reasoning item that nothing has ended: calls, outputs, messages that are not the assistant's and skipped items do |
| ChatHistoryReasoning.CallCarries | internal/apicompat/chatcompletions_responses_bridge.go:125-151 | the message of a call keeps the reasoning it had before the call, or else takes the reasoning that waited for it |
| ChatHistoryReasoning.ReasoningOnlyFromCalls | internal/apicompat/chatcompletions_responses_bridge.go:93-210 | and no message is given reasoning in any other way |
| Scopes.Validate | domain/authorization/scope.go:32-64 | a scope is valid when every clause constrains something of a supported kind, with positive identifiers and `all` standing alone |
| Scopes.AllowCovers | domain/authorization/scope.go:115-143 | the de-duplicating counter decides exactly: all scopes valid, and some matching clause without groups, or every group (for reading: one group) of the object reached by some matching clause |
| Scopes.DenyMatches | domain/authorization/scope.go:146-153 | a deny matches when it is invalid or covers the object for reading |
| Text.SameLength | domain/authorization/scope.go:117-142 | among lists without repeats, one inside another is as long exactly when it holds all of it: why counting distinct groups is enough |
| Scopes.OrderIndependent | domain/authorization/scope.go:115-153 | only which clauses occur matters, not their order or how they are spread over scopes |
| ScopeLaws.OneDimension | domain/authorization/scope.go:107-143 | what each dimension constrains: resources are those listed, with a positive identifier; users own the object; self is a real acting user who owns it; `all` is everything; groups are those of the object, all of them for writing, one for reading |
| ScopeLaws.DimensionsJoin | domain/authorization/scope.go:107-143 | a clause covers exactly what all its dimensions cover |
| ScopeLaws.ClausesUnite | domain/authorization/scope.go:115-143 | clauses unite: for reading object by object, for writing group by group |
| ScopeLaws.ValidMeans | domain/authorization/scope.go:32-64 | what makes a scope invalid, clause by clause |
| ScopeLaws.MalformedFailsShut | domain/authorization/scope.go:115-153 | a malformed clause anywhere allows nothing and denies everything |
| Scopes.WholeImpliesRead | domain/authorization/scope.go:113-143 | covering for writing implies covering for reading; the same thing on objects with one group |
| Scopes.Intersect | domain/authorization/scope.go:68-105 | the clause-by-clause intersection, with the de-duplicated common identifiers |
| Scopes.IntersectionValid | domain/authorization/scope.go:66-89 | the intersection of two scopes valid for the same kinds is valid for them |
| Scopes.IntersectionForWrites | domain/authorization/scope.go:68-143 | for writing, the intersection covers exactly what both scopes cover |
| Scopes.IntersectionForReads | domain/authorization/scope.go:68-143 | for reading, it covers exactly the objects that both scopes reach together, through a common group or whatever the groups |
| Scopes.ReadsMayDiverge | domain/authorization/scope.go:68-143 | two scopes that cover an object through different groups have an intersection that does not |
| Scopes.ScopeContained | domain/authorization/containment.go:8-68 | the containment test |
| Scopes.ContainmentSound | domain/authorization/containment.go:8-68 | whatever a contained scope covers for its user, the ceiling covers for its user, reading and writing |
| Scopes.ContainmentReflexive | domain/authorization/containment.go:8-68 | containment is reflexive exactly for valid, given scopes whose `self` clauses, if any, stand for a real user or that hold an `all` clause |
| Scopes.ContainmentTransitive | domain/authorization/containment.go:8-68 | containment composes through the shared middle user |
| ScopeLaws.ContainedExactly | domain/authorization/containment.go:8-68 | and exactly: one scope is contained in another exactly when both are given and valid and each clause of the first covers nothing, or only objects that one clause of the second covers, for objects in one group |
| Decisions.Decide | domain/authorization/decision.go:25-114 | the decision, gate by gate and grant by grant |
| DecisionLaws.SurveyMeans | domain/authorization/decision.go:72-104 | which grants count: those of the context and the operation in force, an allow only while active; one that makes no sense refuses the request; and what they amount to, role scope and boundary together for an allow, the role scope alone for a deny |
| DecisionLaws.ClausesMean | domain/authorization/decision.go:74-103 | clause by clause: the allows are what a role clause and a boundary clause of a counting allow have in common, the denies the role clauses of the counting denies |
| DecisionLaws.CommonClause | domain/authorization/scope.go:68-111 | what two clauses have in common holds of an object exactly where both hold |
| DecisionLaws.DecideMeans | domain/authorization/decision.go:25-114 | the decision is the first condition that fails of the thirteen a request must meet, in order, or else it allows; it names the grants that count |
| DecisionLaws.OneGroupPermits | domain/authorization/decision.go:98-107 | for an object with at most one group: some counting allow covers it with its role scope and with its boundary |
| Decisions.DecisionStable | domain/authorization/decision.go:72-114 | until it expires, the same facts give the same decision, sources and expiry at every later moment, with the zero time as the only exception |
| Decisions.DecisionStableOnClock | domain/authorization/decision.go:72-114 | from a set clock on there is no exception |
| Decisions.ZeroTimeRefuses | domain/authorization/decision.go:25-48 | before it there is one: a decision made at -1 and valid until 10 is refused at the zero time |
| Decisions.ExpiryIsFirstTurn | domain/authorization/decision.go:72-96 | the expiry is the first moment at which a grant of the operation begins or ceases to count, or the end of the actor's session |
| Decisions.QueryFromSources | domain/authorization/query.go:17-45 | the query scope, or none |
| DecisionLaws.QueryMeans | domain/authorization/query.go:17-57 | the query scope exists for a valid session and sensible grants, and matches exactly the platform objects that the counting grants permit and none denies |
| Decisions.Matches | domain/authorization/query.go:47-57 | whether a query scope matches an object |
| Decisions.PointAndQueryAgree | domain/authorization/query.go:17-57 | once the other gates pass, a decision allows exactly the objects the query scope matches, and both expire at the same moment |
| Decisions.Global | domain/authorization/query.go:59-61 | whether a query scope is global |
| Decisions.GlobalMatchesAll | domain/authorization/query.go:47-61 | a global scope of a real actor matches every well-formed platform object, read or written |
| Decisions.KeyDetermines | domain/authorization/model.go:28-46 | the canonical key alone tells contexts apart: no organization can pass for another or for the platform |
| MemoryConcurrencyLimiter.Limiter.TryAcquire | internal/biz/account_concurrency.go:48-83 | admits exactly while fewer than the limit of the account's tickets are outstanding |
| MemoryConcurrencyLimiter.Limiter.Release | internal/biz/account_concurrency.go:72-83 | releases once; again changes nothing |
| RedisConcurrencyLimiter.SortedSet.Acquire | internal/biz/account_concurrency.go:105-114 | the acquire script: reap, count, add, set the key expiry |
| RedisConcurrencyLimiter.SortedSet.Refresh | internal/biz/account_concurrency.go:284-291 | the refresh script: only a lease still in the set is prolonged |
| RedisConcurrencyLimiter.EveryRunSafe | internal/biz/account_concurrency.go:172-224 | in every interleaving, with replica clocks late by any amount and ahead by at most the skew, the set stays within the limit, no deadline lies beyond the key expiry by more than the skew, and each fallback stays within the limit |
| RedisConcurrencyLimiter.LeavesExactly | internal/biz/account_concurrency.go:105-138 | a lease leaves the set by its own release, by a caller whose clock has reached its deadline, or by the expiry of the key, and in no other way |
| RedisConcurrencyLimiter.LiveLeaseStays | internal/biz/account_concurrency.go:105-114 | a lease whose deadline is ahead on every clock leaves the set only by its own release, never by reaping or key expiry |
| RedisConcurrencyLimiter.NoEarlyDropsExactly | internal/biz/account_concurrency.go:105-114 | no lease is ever dropped before its deadline on the clock of Redis exactly when no replica's clock runs ahead |
| RedisConcurrencyLimiter.NeverResurrected | internal/biz/account_concurrency.go:246-270 | a lease that was released, reaped, expired or refused never comes back, whatever refreshes arrive late |
| LeaseLaws.StampLasts | internal/biz/account_concurrency.go:246-291 | a lease taken or refreshed at a reading is in the set after every further run in which it is not released, no acquiring caller reads a lease time later or more, later refreshes are no earlier, and the clock of Redis stays short of a lease time |
| LeaseLaws.RefreshedNeverLost | internal/biz/account_concurrency.go:246-291 | so a caller that refreshes in time never loses its slot |
| LeaseLaws.LetInExactly | internal/biz/account_concurrency.go:105-114 | after any run a caller is let in exactly when fewer than the limit of the leases have a deadline ahead of its reading |
| LeaseLaws.FallbackExactly | internal/biz/account_concurrency.go:125-138 | and by the fallback exactly while fewer than the limit of its own replica are in |
| RedisConcurrencyLimiter.HeldSlotsBounded | internal/biz/account_concurrency.go:125-138 | slots and fallback requests together are at most (N + 1) times the limit over N replicas |
| RedisConcurrencyLimiter.InFlightBounded | internal/biz/account_concurrency.go:246-270 | the requests in flight are at most that many and the callers whose slot was taken from them |
| RedisConcurrencyLimiter.LostExactly | internal/biz/account_concurrency.go:246-270 | a caller is in flight without its slot exactly when it has not released and some step of the run took the slot: a reaping caller whose clock had reached the deadline, or the expiry of the key |
| RedisConcurrencyLimiter.LapsedLeasesExceedAnyCap | internal/biz/account_concurrency.go:246-270 | such callers have no bound, whatever the configuration: after n leases have run out n requests are in flight |
| RpmLimiter.PruneEvents | internal/biz/account_rpm.go:70-80 | drops the leading events up to the cutoff, and nothing behind the first later one |
| RpmLimiter.MemoryLimiter.TryAcquire | internal/biz/account_rpm.go:36-68 | one request is one step of its account and no other account changes; with the readings of the account in order it is admitted exactly when fewer than its limit of all the account's admissions lie in the last minute |
| RpmLimiter.NoSpanExceedsLimit | internal/biz/account_rpm.go:36-80 | if no reading is more than d behind an earlier one, no span of a minute less d, wherever it begins, holds more admissions than the largest limit asked for |
| RpmLimiter.SpanIsTight | internal/biz/account_rpm.go:36-80 | one millisecond more than that span can hold one admission too many, for every limit from 2 and every d up to a minute |
| RpmLimiter.AdmittedExactly | internal/biz/account_rpm.go:57-68 | with readings in order a request is admitted exactly when fewer than its own limit of all past admissions lie in the 60000 milliseconds that end with it |
| RpmLimiter.RefusedWhenFull | internal/biz/account_rpm.go:57-68 | with readings up to d late, a refusal means that a minute, widened by d on either side, holds at least as many admissions as the limit |
| RpmLimiter.AdmittedMeans | internal/biz/account_rpm.go:57-68 | and an admission that a minute less d, up to d later, held fewer than the request's own limit |
| RpmLimiter.OneAtATime | internal/biz/account_rpm.go:36-80 | under a limit of one, each admission is a minute after the one before, whatever the clocks read |
| RpmLimiter.MinuteHoldsExactly | internal/biz/account_rpm.go:36-80 | every run keeps every minute within the limit exactly when readings come in order or the limit is at most one |
| RpmLimiter.SpacedMeans | internal/biz/account_rpm.go:57-68 | for admissions in order, never exceeding the limit in any minute is the same as admissions `limit` places apart being a minute apart |
| ContentProbe.ContentProbe.Feed | domain/requesttrace/content.go:28-43 | feeding a chunk has exactly the effect of feeding its bytes |
| ContentProbe.ContentProbe.Append | domain/requesttrace/content.go:45-56 | an overlong line is discarded whole and flagged |
| ContentProbe.ChunkingIndependent | domain/requesttrace/content.go:28-56 | feeding a and then b gives the same complete state as feeding a + b |
| ContentProbe.ProbeMeans | domain/requesttrace/content.go:28-56 | the state is a function of the bytes: findings from the complete lines of at most 64 KiB in order, a flag for any longer line, and the unfinished line |
| ContentProbe.SplitMeans | domain/requesttrace/content.go:28-43 | splitting into lines loses nothing and leaves no line end inside a line |
| Tariff.ValidateTierPrices | domain/billing/service_tier.go:127-147 | exactly three tiers with complete, non-negative base prices |
| Tariff.ValidateLongContext | domain/billing/long_context.go:24-63 | complete long-context prices, never below the base price of the same tier and bucket; complete supplier prices, if any |
| Tariff.Validate | domain/billing/service_tier.go:99-126 | version, source identity, tiers, supplier prices, peak prices and long-context prices fit together |
| Tariff.MaxTierPrice | domain/billing/service_tier.go:164-186 | the least upper bound of the tier prices in every bucket |
| Tariff.MaximumPrice | domain/billing/long_context.go:99-105 | the least upper bound over tiers and context tariffs |
| Tariff.CalculateCanonicalCost | app/billing/internal/biz/billing.go:2671-2730 | the saturating sum of the five separately rounded buckets, each product rounded in floating point after every multiplication |
| TariffLaws.BucketsAdd | app/billing/internal/biz/billing.go:2671-2730 | a charge is the sum of its buckets, each at its own price, stopped at the largest amount: cached input at its price or as input, cache creation at the price for its lifetime or for nothing |
| TariffLaws.AtPriceNear | app/billing/internal/biz/billing.go:2731-2784 | each is tokens times price times multiplier to the nearest unit, up to the rounding of the products |
| TariffLaws.ChargeMeans | domain/billing/long_context.go:95-114 | the price list of a request: of its band, and of the long context exactly above the threshold |
| Binary64.DoubleNear | app/billing/internal/biz/billing.go:2759-2771 | a multiplication is off by at most one part in 2^53 |
| Binary64.DoubleMono | app/billing/internal/biz/billing.go:2759-2771 | and it keeps order |
| Tariff.CostMono | app/billing/internal/biz/billing.go:2671-2784 | neither a higher rate nor more usage ever costs less |
| Tariff.MaximumBoundsCost | domain/billing/long_context.go:95-114 | in either band the maximum price bounds the cost under every tier and every input size |
| Tariff.MoreUsageCostsNoLess | domain/billing/long_context.go:24-52 | cost never falls as usage grows, even across the long-context threshold |
| Tariff.Reserve | app/billing/internal/biz/service_tier.go:107-124 | the amount set aside before the answer is known |
| TariffLaws.BaseIsACharge | app/billing/internal/biz/service_tier.go:107-121 | before padding it is itself a charge at the maximum prices, for the input bound in the dearest bucket and the output bound |
| TariffLaws.PaddingMeans | app/billing/internal/biz/service_tier.go:107-124 | padding adds four units, stays below the largest amount, and reserves at least one |
| Tariff.ReservationCovers | app/billing/internal/biz/service_tier.go:107-147 | one way: the reservation covers the charge for every usage within the token bounds, under every tier or the fallback for an unknown one, wherever the products are rounded, for every reservation of up to 2^51 units and every saturated one |
| Tariff.InputBuckets | app/billing/internal/biz/service_tier.go:115-119 | rounding four buckets one by one, products included, adds at most the four units reserved for it, up to 2^51 units |
| Tariff.ReservationFallsShort | app/billing/internal/biz/service_tier.go:107-121 | above that it may not: at a price of 1000001 for each token, 40000003 and 40000007 tokens are charged 60 units more than was reserved for 80000010 |
| TimeBands.ValidateWindows | domain/billing/time_pricing.go:98-116 | accepts exactly the calendars of well-formed windows in which no minute of a weekday is claimed twice |
| TimeBands.OverlapMeans | domain/billing/time_pricing.go:98-116 | no minute is claimed twice exactly when windows on the same day lie one after the other and none names a day twice |
| TimeBands.BandAt | domain/billing/time_pricing.go:131-159 | the band of a local day and minute |
| TimeBands.PeakWindowUnique | domain/billing/time_pricing.go:98-116 | in an accepted calendar every peak minute lies in exactly one window |

## Left out

- JSON decoding and encoding, SSE framing on output and HTTP: a decoder from data lines to events
  is a parameter of the pumps, and writing never fails.
- Token usage, model names, response identifiers and timestamps in stream events.
- The encrypted-content, image and citation fields of items and blocks; a message item's text
  stands for its text parts joined.
- The non-streaming conversions from Anthropic to Responses and from Responses to Anthropic: they
  add no harder property.
- Decoding of single input items and content parts. `AnthropicHistory` takes from the conversion
  before it that calls stand in assistant turns and results in user turns.
- Blankness of chat content is a parameter of `ChatHistory`; parsed content is one of a block
  list, a plain string or neither in `AnthropicHistory`.
- The content of a `ContentProbe` frame (`Frame` on a trimmed line) is a parameter.
- The operation catalogue is a parameter of `Decisions`; versions carried through decisions, the
  JSON form of scopes and the cutover gate are left out.
- Redis itself: the concurrency scripts are atomic steps on one account with one limit; replicas
  read clocks of their own, any amount behind that of Redis and ahead of it by at most a given skew.
  Connection handling, metrics and `Inflight` are left out.
- The Redis minute window and its fallback: the script is the acquire script of the leases with a
  cutoff in place of deadlines; only the in-process window is modelled.
- 32-bit counters: a slot counter never exceeds its limit, so it cannot wrap.
- Tariff.CalculateCanonicalCost: rounds to 53 binary digits over all exponents, so the overflow to
  infinity and the underflow of floating point are not modelled; of the breakdown only the total is.
- Tariff.ReservationCovers: one way, up to 2^51 units or saturated; between 2^51 and saturation it
  promises nothing, and `ReservationFallsShort` is an input there.
- Tariff.InputBuckets: four units up to 2^51 units; larger products can be rounded apart by more.
- Tariff.Validate: does not look at time zones, calendar dates and holiday lists, which
  `TimeBands.BandAt` takes as facts about the moment. Digests of a tariff are left out too.
