# Verification of the tool-tag parsers, the agent run loop and their neighbours

A model, in Dafny, of the parts of this repository where the most can go wrong
without anyone noticing, and proofs of what they promise. `dafny verify
dfyconfig.toml` checks all of it.

- **Tool tags** (`ToolTag*.dfy`). The language `<t:ID>args</t>`, with JSON-style
  quoting inside the arguments (section 7 of RFC 8259), is recognised twice: by a
  batch scanner and by a machine that takes one character at a time. A reference
  grammar (`ToolTagGrammar`) gives every text one well-formed document. The stream
  class refines the machine, the machine recognises the grammar on every text, and
  the batch class does so except on texts that end with a half-open tag. `ToolTagJson`
  writes messages from their strings and escapes, without the scanner, and both parsers
  read them back.
- **The agent run loop** (`Agent*.dfy`). Two nested retry loops, a bounded
  history, tool execution with early stops, and an event stream whose sink can
  fail. The completer, the tools, the sink, the text handlers, the hook and the
  predicates on errors are oracles that answer anything. What happens is recorded
  in a ghost trace; monitors watch the trace, and lemmas say what the monitors mean.
  What fails outside is recorded as well, so that every error has to be accounted for:
  by the last failure, by the response, or by the number of turns.
- **The persist queue and the session loader** (`PersistQueue.dfy`,
  `SessionLoader.dfy`). The code between two awaits is a transition, a run is any
  interleaving of transitions, and the classes refine them segment by segment. That
  a put is answered and that the flush loop goes on after it are two transitions.
- **The sidebar** (`SidebarTree.dfy`, `SidebarSources.dfy`, `SidebarListing.dfy`).
  Grouping sessions into partitions, merging source partitions, limiting the tree, rows
  and search; and which partitions are listed with which sessions, said of the sessions.
- **Task-run cards** (`RunCards.dfy`). Snapshots and live events merged into cards.
- **Provider sync and signaling** (`ProviderSync.dfy`, `ProviderSyncEntries.dfy`,
  `Signaling.dfy`).

`Options`, `Text` and `StableSort` hold what several of these share.

What the proofs bring to light:

- The batch parser stops at the end of the text even inside a tag, so a final `<t:`
  or `<t:N>` is lost there and kept by the stream
  (`apps/web/lib/toolTagText.parse.ts:18`). These are the only differences.
- After the first commit the agent holds the run's own history, not a copy
  (`core/bridge/agent/loop_history.go:9-14`), so a turn that fails later has already
  changed it. Before the first commit the agent's history is untouched.
- A turn is repeated only after the completion protocol error. If a sink or a text
  handler fails with that same error after events were sent, the turn is repeated as
  well (`core/bridge/agent/turn_retry.go:25`). A failed tool event, three fruitless
  turns, a tool that stops the run and the event that ends it are followed by something
  more only then: the statements demand such a failure between the two positions, or
  since the last request.
- A system message that is not at the head is pinned once it slides to the head of the
  window (`core/bridge/agent/history.go:64-91`), unless one is pinned there already.
- A failed put discards the edit queued behind it, and a hydration that ends during a
  put can leave the queue at rest showing what was never confirmed.
- A load requested between the exit of the loader's loop and its callback waits for
  the next request.
- A live event for a card that is not listed yet is dropped; a snapshot that brings
  the card later shows the event only if it contains it.
- Reconciling providers reports a change each time if two of them write one name in
  different ways, although the state stays the same. Records with ids of their own can
  take over each other's entries, and then the next pass may open another one. The only
  caller reads its records from a file that holds no ids
  (`core/bridge/config/internal/storage/schema.go:12-21`).
- A connection that announces several ids to the signaling server is named for the
  earlier ones even after it has gone.

## Model

| member | source | states |
|---|---|---|
| ToolTagSyntax.ValidIDs | apps/web/lib/toolTagText.shared.ts:4-14 | an identifier is valid exactly if it is a digit string with some digit other than zero; a valid one is its own trimmed form and has no `>` |
| ToolTagSyntax.IndexOfIsFirst | apps/web/lib/toolTagText.parse.ts:104 | `indexOf` finds the first occurrence, and -1 only if there is none |
| ToolTagSyntax.FindCloseIsFirst | apps/web/lib/toolTagText.parse.ts:38-72 | the close token found is the first one outside every JSON string, and none is found only if there is none |
| ToolTagSyntax.OpenTokenDoesNotOverlap | apps/web/lib/toolTagText.shared.ts:1 | after text without an open token, the first open token is where the next part begins: no occurrence straddles the seam |
| ToolTagSyntax.CloseTokenDoesNotOverlap | apps/web/lib/toolTagText.shared.ts:2 | arguments that end outside a JSON string and contain no close token are ended by exactly the close token that follows them |
| ToolTagGrammar.ReadingIsLossless | apps/web/lib/toolTagText.parse.ts:16-27 | every text is the rendering of the well-formed document read from it: reading loses no character |
| ToolTagGrammar.ReadingIsUnique | apps/web/lib/toolTagText.parse.ts:16-27 | no other well-formed document renders to that text, so the grammar is unambiguous |
| ToolTagParse.ToolTagParseContext.FindToolTagCloseIndex | apps/web/lib/toolTagText.parse.ts:38-72 | the loop with its string and escape flags returns the first close token outside every JSON string, or -1 |
| ToolTagParse.ToolTagParseContext.ParseNormalSpan | apps/web/lib/toolTagText.parse.ts:103-115 | moves the cursor forward without changing what the whole run will return |
| ToolTagParse.ToolTagParseContext.ParseToolIdSpan | apps/web/lib/toolTagText.parse.ts:117-139 | the same for the identifier: a rejected tag becomes text, a valid one opens a call |
| ToolTagParse.ToolTagParseContext.ParseArgsSpan | apps/web/lib/toolTagText.parse.ts:141-158 | the same for the arguments of a call, closed or running to the end of the text |
| ToolTagParse.ToolTagParseContext.ParseNextToolTagSpan | apps/web/lib/toolTagText.parse.ts:91-101 | every span makes progress and leaves the results of the run as they were determined at its start |
| ToolTagParse.ParseToolTagText | apps/web/lib/toolTagText.parse.ts:16-27 | visible text and calls are those of the reference grammar, less a tag that is half open at the very end |
| ToolTagParse.StripToolTagCalls | apps/web/lib/toolTagText.parse.ts:29-31 | the text is the visible text of the grammar, less a half-open tag at the end |
| ToolTagParse.IsPureToolTagDocument | apps/web/lib/toolTagText.parse.ts:33-36 | holds exactly if there is a call and nothing but white space is visible |
| ToolTagMachine.StepValid | apps/web/lib/toolTagText.stream.ts:67-145 | a pending token is always a proper prefix of its token, and none is pending inside a JSON string |
| ToolTagMachine.FeedFollows | apps/web/lib/toolTagText.stream.ts:30-65 | from any state on, the units of a call of the consumer follow the protocol: calls numbered one after the other, each open followed only by its own arguments and then by its close, whose text is the concatenation of the deltas |
| ToolTagMachine.ReturnedUnitsFollow | apps/web/lib/toolTagText.stream.ts:231-277 | joining adjacent units keeps the protocol |
| ToolTagMachine.JoinedInParts | apps/web/lib/toolTagText.stream.ts:231-277 | joining each chunk's units first and then joining across chunks is joining everything at once |
| ToolTagTheorems.RunNormal | apps/web/lib/toolTagText.stream.ts:67-86 | up to and including the next open token the machine emits exactly the text before it; without one, everything but what it holds back |
| ToolTagTheorems.RunInArgs | apps/web/lib/toolTagText.stream.ts:122-184 | the machine closes a call at the first close token outside a JSON string, with exactly the text before it |
| ToolTagTheorems.StreamRecognisesGrammar | apps/web/lib/toolTagText.stream.ts:30-229 | for every text, the finalized stream yields the text and the calls of the grammar, in their order |
| ToolTagTheorems.BatchAgainstStream | apps/web/lib/toolTagText.parse.ts:16-27 | the batch parser and the finalized stream agree if and only if the text does not end half open; otherwise the batch result lacks exactly `<t:` or one call without arguments |
| ToolTagTheorems.LoneOpenTokenIsLost | apps/web/lib/toolTagText.parse.ts:18 | a concrete text, a lone open token, that the stream shows and the batch parser loses |
| ToolTagTheorems.BatchAgainstStreamResults | apps/web/lib/toolTagText.parse.ts:16-158 | the same for what callers get: the visible text and the list of calls |
| ToolTagTheorems.HalfOpenEndings | apps/web/lib/toolTagText.parse.ts:18 | a text ends half open exactly if it is a document followed by `<t:`, or by `<t:` and a valid identifier and `>` |
| ToolTagTheorems.RoundTrip | apps/web/lib/toolTagText.parse.ts:38-158 | a rendered document is read back exactly by the stream, and by the batch parser if and only if it does not end half open |
| ToolTagTheorems.SentIsReceived | apps/web/lib/toolTagText.parse.ts:38-158 | any alternation of text and closed calls with valid identifiers and balanced arguments is returned unchanged by both parsers |
| ToolTagJson.WrittenIsRead | apps/web/lib/toolTagText.parse.ts:38-72 | messages whose arguments are written out as plain characters and JSON strings, each string as characters and escapes: whatever the strings contain, both parsers read every message as it was written |
| ToolTagJson.WrittenIsReadResults | apps/web/lib/toolTagText.parse.ts:16-158 | the same for what callers get: the text shown is the text written, and the calls are the calls written |
| ToolTagJson.AnyTextIsPassed | apps/web/lib/toolTagText.parse.ts:38-72 | every text, with a backslash before each quote and each backslash and quotes around it, is passed as an argument unchanged by both parsers, close tokens inside it included |
| ToolTagJson.UnclosedStringTakesAll | apps/web/lib/toolTagText.stream.ts:158-184 | an argument whose last string is not closed takes in all that follows it |
| ToolTagJson.TextWithoutCallsIsShown | apps/web/lib/toolTagText.parse.ts:16-31 | where no call is found, the visible text is the text, whole |
| ToolTagTheorems.ChunkInvariance | apps/web/lib/toolTagText.stream.ts:30-65 | any way of cutting a text into chunks ends in the same state and, once joined, yields the units of a single chunk |
| ToolTagTheorems.ChunkedStreamRecognisesGrammar | apps/web/lib/toolTagText.stream.ts:30-65 | visible text and calls of a chunked stream are those of the grammar for the whole text |
| ToolTagTheorems.StreamFollowsProtocol | apps/web/lib/toolTagText.stream.ts:30-65 | the units returned over all calls of the consumer follow the protocol without a break, also where a call spans chunks |
| ToolTagTheorems.StreamNumbersCalls | apps/web/lib/toolTagText.stream.ts:88-120 | a stream opens calls 1, 2, 3 and so on, as many as its counter says, and ends in normal mode with nothing pending |
| ToolTagTheorems.NothingIsTakenBack | apps/web/lib/toolTagText.stream.ts:30-86 | over any calls of the consumer so far, what they returned is a prefix of what the grammar says about any continuation, and at most two characters of visible text are held back |
| ToolTagTheorems.EventsAreUnitsWithoutText | apps/web/lib/toolTagText.stream.ts:231-277 | per call of the consumer, the events are the units without the text |
| ToolTagTheorems.EventsChunkInvariance | apps/web/lib/toolTagText.stream.ts:30-65 | any way of cutting a text into chunks yields, once joined, the events of a single chunk |
| ToolTagStream.ToolTagStreamOutput.AppendTextPart | apps/web/lib/toolTagText.stream.ts:231-248 | text parts, units and events stay the three projections of everything that was emitted |
| ToolTagStream.ToolTagStreamOutput.AppendToolStreamEvent | apps/web/lib/toolTagText.stream.ts:250-277 | the same for an event; adjacent argument deltas of one call are joined |
| ToolTagStream.ToolTagStreamState.ConsumeNormalChar | apps/web/lib/toolTagText.stream.ts:67-86 | is one step of the machine, in state and in output |
| ToolTagStream.ToolTagStreamState.ConsumeCaptureIDChar | apps/web/lib/toolTagText.stream.ts:88-120 | is one step of the machine, in state and in output |
| ToolTagStream.ToolTagStreamState.ConsumeCaptureArgsChar | apps/web/lib/toolTagText.stream.ts:122-145 | is one step of the machine, in state and in output |
| ToolTagStream.ToolTagStreamState.FlushCloseCandidateAsArgs | apps/web/lib/toolTagText.stream.ts:147-156 | gives up the fewest characters after which the rest can start a close token |
| ToolTagStream.ToolTagStreamState.AppendArgsChar | apps/web/lib/toolTagText.stream.ts:158-196 | collects and emits one character and keeps the JSON string state |
| ToolTagStream.ToolTagStreamState.FinalizeToolTagStreamState | apps/web/lib/toolTagText.stream.ts:198-229 | is the end of the machine's stream: held text is emitted, an open call closed |
| ToolTagStream.ToolTagStreamState.ConsumeToolTagStreamChunk | apps/web/lib/toolTagText.stream.ts:30-65 | refines one feed of the machine: new state, units, events and visible text |
| AgentMessages.ValidateToolCall | core/bridge/agent/tool_executor.go:113-130 | no issue is found exactly if id and name are not blank and the arguments are a JSON object |
| AgentMessages.SanitizeAssistantToolCalls | core/bridge/agent/tool_call_sanitizer.go:23-53 | the message keeps exactly its executable calls, in order; every other call is reported with its position and its issue |
| AgentMessages.CallsArePartitioned | core/bridge/agent/tool_call_sanitizer.go:23-53 | rejected and executable calls partition the positions of the response, so step ids never coincide |
| AgentMessages.History.Append | core/bridge/agent/history.go:52-57 | the history is one step of the sliding window |
| AgentMessages.History.TrimToMax | core/bridge/agent/history.go:60-92 | never more than the limit: a pinned system message at the head and the most recent messages |
| AgentMessages.WindowOfLog | core/bridge/agent/history.go:51-92 | the window over any log and any messages appended to it, as a function of the two: the end of the whole log, or a system message that reached the head and stays pinned there, and the end of the log |
| AgentMessages.SlidingWindow | core/bridge/agent/history.go:51-92 | trimming message after message is trimming the whole log once if and only if there is nothing to trim, the log begins with a system message, no later one slides to the head of the window, or the one that does is where the last window begins anyhow; the limit is never exceeded |
| AgentMessages.SystemOnlyAtHead | core/bridge/agent/history.go:64-91 | the condition holds for every log in which a system message occurs at most at the head |
| AgentMessages.LateSystemMessageIsPinned | core/bridge/agent/history.go:64-91 | a concrete log for which it is not: a later system message slides to the head and is pinned there |
| AgentMessages.NothingTrimmed | core/bridge/agent/history.go:60-63 | a window that is large enough keeps every message |
| AgentMessages.History.UpdateSystemPrompt | core/bridge/agent/history.go:95-120 | replaces the pinned prompt or puts one in front; a blank prompt changes nothing |
| AgentMessages.CloneHistoryForRun | core/bridge/agent/loop_runtime.go:72-81 | an independent, always bounded copy |
| AgentTrace.MixedMeans | core/bridge/agent/completion_runner.go:104-136 | the monitor is set exactly if some completer call follows a delta of the same turn |
| AgentTrace.CallsMean | core/bridge/agent/completion_runner.go:85-136 | the counter is the number of positions at which the completer is called |
| AgentTrace.TurnsMean | core/bridge/agent/loop.go:204-207 | the counter is the number of positions at which a turn begins |
| AgentTrace.PairedMeans | core/bridge/agent/tool_executor_resolution.go:38-194 | if the monitor is not broken, each delivered start is next met by its own finish, and a finish by a start or a new request; after a tool event that failed only a new request can follow, and only if between the two a sink or a text handler failed with the error that asks for one |
| AgentTrace.DistinctMeans | core/bridge/agent/tool_executor.go:53-70 | if the monitor is not broken, no step is started twice within one response |
| AgentTrace.PlacesMean | core/bridge/agent/event_emitter.go:54-140 | if no event was misplaced, every event of a tool call carries the number of the turn it happens in |
| AgentTrace.StopsMean | core/bridge/agent/tool_executor_execute.go:101-151 | if the monitor is not broken, no turn begins, no request is made and no tool starts after a tool that asked a human or handed off, unless a sink or a text handler failed with the error that asks for a new request in between |
| AgentTrace.StoppedMeans | core/bridge/agent/tool_executor_execute.go:101-151 | the flag is set exactly if a tool asked a human or handed off since the last request, with no such failure after it |
| AgentTrace.LateMeans | core/bridge/agent/loop_finish.go:220-248 | if the monitor is not late, no turn begins and no request is made once the last three tool-call turns ran no tool, unless a sink or a text handler failed with the error that asks for a new request after the third |
| AgentTrace.StreakIsFruitless | core/bridge/agent/loop_finish.go:220-248 | the counter of fruitless turns is three or more exactly if the last three tool-call turns ran no tool |
| AgentTrace.OddMeans | core/bridge/agent/turn_retry.go:25 | the flag is set exactly if a sink or a text handler failed with the error that asks for a new request since the last request |
| AgentTrace.EndMeans | core/bridge/agent/turn_retry.go:9-38 | if the monitor saw nothing, whatever follows an event that ends the run follows a failure that asks for a new attempt, made since the last request |
| AgentTrace.OneEndPerRun | core/bridge/agent/event_emitter.go:142-193 | so without such a failure a run tells its end at most once, as the last thing that happens |
| AgentEvents.AgentEventEmitter.Emit | core/bridge/agent/event_emitter.go:36-45 | one event is delivered or fails; an error comes back exactly if building it or the sink failed, and only a failure of the sink counts as an emit error |
| AgentEvents.AgentEventEmitter.TerminalRunError | core/bridge/agent/loop_runtime.go:127-136 | a canceled run ends silently; any other error is told by exactly one error event and comes back itself, or the failure to tell it does, which then is the last failure there was |
| AgentEvents.AgentEventEmitter.TerminalSuccess | core/bridge/agent/event_emitter.go:142-175 | success is the message followed by the end of the run, nothing between |
| AgentCompletion.LLMDeltaBridge.OnDelta | core/bridge/agent/stream_bridge.go:41-72 | the attempt is marked before the sink is asked, so a sink that fails counts as well |
| AgentCompletion.ShouldRetryCompletion | core/bridge/agent/completion_runner.go:153-170 | repeats exactly before the last attempt, after no delta, in a live context, and for a transient error |
| AgentCompletion.CompletionRunner.CompleteNonStreaming | core/bridge/agent/completion_runner.go:85-102 | at most one call of the completer per attempt, and no delta; a transient failure comes back only after all attempts, unless somebody gave up |
| AgentCompletion.CompletionRunner.CompleteStreaming | core/bridge/agent/completion_runner.go:104-136 | no attempt follows one that passed a delta; the shared flag says whether one was passed; a transient failure comes back only after all attempts, unless somebody gave up or a delta was passed |
| AgentCompletion.CompletionRunner.Complete | core/bridge/agent/completion_runner.go:70-151 | at most retryCount + 1 calls of the completer, none of them after a delta, and exactly that many if a transient failure comes back though nobody gave up and no delta was passed; what comes back is what the completer answered last, with a role, or the last failure there was |
| AgentTools.ToolCallExecutor.StartToolCall | core/bridge/agent/tool_executor_resolution.go:38-64 | opens a call under a step not used before in this response |
| AgentTools.ToolCallExecutor.FinishToolCall | core/bridge/agent/event_emitter.go:82-109 | closes the call that is open, under its own step |
| AgentTools.ToolCallExecutor.FinishToolFailure | core/bridge/agent/tool_executor_execute.go:93-99 | a failed tool leaves its result in the history even if the event cannot be sent |
| AgentTools.ToolCallExecutor.FinishSuccessfulToolCall | core/bridge/agent/tool_executor_execute.go:101-151 | a result is appended unless the call waits for a human or an event failed |
| AgentTools.ToolCallExecutor.RunResolvedToolCall | core/bridge/agent/tool_executor_execute.go:73-91 | the tool runs exactly once, its one result answers this call, and the last event tells how the call ended; it waits for a human or hands off exactly if the tool's answer does, and fails only if an event could not be sent |
| AgentTools.ToolCallExecutor.ExecuteIndexedCall | core/bridge/agent/tool_executor_execute.go:60-71 | one start, one finish, at most one result; a call that waits for a human adds none; an executable call runs its tool unless there is no such tool; a failure is the last one there was, and the steps and the last event tell whether the start or a later event failed |
| AgentTools.ToolCallExecutor.Execute | core/bridge/agent/tool_executor_execute.go:12-27 | results answer an in-order prefix of the calls: all if execution finished; otherwise the steps started and the last event determine the call j at which it stopped, and there are j results if j waits for a human, could not be started or failed before its result, j + 1 if it handed off or if the finish of a failed call could not be sent; if j could not be started, the last thing that happened is that failed start or the delivered finish of the call before it; execution stops only because a tool asked for it, or with the last failure there was |
| AgentTools.ToolCallExecutor.ReportInvalidCalls | core/bridge/agent/tool_executor.go:53-70 | each rejected call is started and finished under its own position, up to the first event that fails; the history is not touched |
| AgentTools.ToolCallExecutor.ExecuteSingleWithStepIndex | core/bridge/agent/tool_executor_execute.go:40-58 | as for a native call, but an invalid call is an error of the turn and leaves no result |
| AgentLoop.AgentRunState.PrepareToolCallTurn | core/bridge/agent/loop_finish.go:204-218 | calls that stay are those that can be executed, under steps that no rejected call uses; it fails only with the last failure there was |
| AgentLoop.AgentRunState.RecordNonExecutableToolCallTurn | core/bridge/agent/loop_finish.go:220-232 | the counter stays the number of tool turns since the last one that ran a tool, and the third such turn is an error |
| AgentLoop.AgentRunState.FinalizeToolCallTurn | core/bridge/agent/loop_finish.go:234-248 | the same; a turn in which a tool ran resets the counter |
| AgentLoop.Agent.HandleToolCallExecutionError | core/bridge/agent/loop_finish.go:185-202 | a partial turn is committed if it waits or hands off, or if an event failed after a result was appended; otherwise not |
| AgentLoop.Agent.ExecuteToolCallTurn | core/bridge/agent/loop_finish.go:165-182 | the history grows by the sanitized message and an in-order prefix of results, whose length, with the steps started and the last event, is fixed by how and at which call execution ended; a question or a handoff that comes back is the error that stopped it, any other stop is followed by one error event at most; the turn is committed if it succeeds, waits or hands off, or if an event failed with a result in the history |
| AgentLoop.Agent.FinishToolCallTurn | core/bridge/agent/loop_finish.go:165-202 | what follows execution: a turn that was stopped returns the error that stopped it, or the failure to report it, and is committed by the kind of that error; any other is counted, never returns a question or a handoff, and is committed unless it is the third fruitless one |
| AgentLoop.Agent.HandleToolCallTurn | core/bridge/agent/loop_finish.go:152-183 | the same for the whole turn, including a response none of whose calls can be executed: a question or a handoff that comes back determines the number of results, and which history the agent holds afterwards is determined in every case; if nothing failed, an error means that a tool stopped the run or that too many turns in a row ran none |
| AgentLoop.Agent.FinalizeCompletedTextTurn | core/bridge/agent/loop_finish.go:137-150 | the answer is appended and committed before the final events are sent, so it is kept even if they fail |
| AgentLoop.Agent.FinalizeAssistantTextTurn | core/bridge/agent/loop_assistant_text.go:54-90 | a handled text turn appends the assistant message and the handler's feedback, and commits on success; one that fails has appended nothing, the message, or the message with what its first calls added; it fails if the handler did, if a human is asked or a tool stops the run, and otherwise only with the last failure there was |
| AgentLoop.Agent.FinishAssistantTextTurn | core/bridge/agent/loop_assistant_text.go:68-89 | the same where the handler has run its tool itself; after an error the agent holds the new history exactly if the question to a human was delivered |
| AgentLoop.Agent.FinishAssistantTextTurnAwaitingHuman | core/bridge/agent/loop_assistant_text.go:204-234 | the turn waits for a human, and is committed, exactly if the question could be sent |
| AgentLoop.Agent.FinishAssistantTextToolInvocations | core/bridge/agent/loop_assistant_text.go:92-135 | the history grows by the message with the calls found in it and, per call, its result and feedback, then the closing feedback; if execution was stopped, the steps started, the last event and the number of parts determine the call and the way, as for native calls, and what comes back and is committed follows from that |
| AgentLoop.Agent.RunTextInvocation | core/bridge/agent/loop_assistant_text.go:101-129 | one such call with its feedback, or how it stopped the turn; the feedback is missing only if there is no such tool |
| AgentLoop.Agent.HandleAssistantTextTurn | core/bridge/agent/loop_assistant_text.go:13-29 | the handlers are asked one after the other until one recognizes the text: one that none recognizes was declined by every handler, unless it is blank, and leaves history and commit state alone |
| AgentLoop.Agent.HandleCompletedTextTurn | core/bridge/agent/loop_finish.go:120-135 | a turn that ends the run was declined by every handler and returns the output whose message and end were delivered last |
| AgentLoop.Agent.HandleTurnResponse | core/bridge/agent/loop_finish.go:54-92 | a turn that succeeds appends exactly its messages: the message and its results, the answer, or the text with the results and feedback of its calls; one that fails appends the first of them, and none at all if the failure asks for a new request, unless a sink or a handler failed with that error since the last request; if nothing failed, an error means that the response cannot be processed or that it stops the run; the conversation goes on from the response, unless calls were left out of it |
| AgentLoop.Agent.HandleNativeTurn | core/bridge/agent/loop_finish.go:54-92 | where only the text protocol is allowed, native calls are an error that leaves the history alone |
| AgentLoop.ShouldRetryTurnProcessing | core/bridge/agent/turn_retry.go:9-26 | a turn is repeated exactly before the last attempt, in a live context, after a protocol error, and if no delta was passed |
| AgentLoop.Agent.FinalizeTurnProcessingError | core/bridge/agent/turn_retry.go:28-38 | an error that asks for another attempt is told to the client now, unless the run was canceled; any other comes back as it is, with nothing more told |
| AgentLoop.Agent.RunTurnOnce | core/bridge/agent/loop_finish.go:42-52 | one attempt calls the completer at most retryCount + 1 times, and at least once if there is a response, which is what the completer answered last; the history grows by what the attempt appends; an error is the last failure there was, or has its cause in the response |
| AgentLoop.Agent.RunTurn | core/bridge/agent/loop_finish.go:16-40 | over all attempts of a turn, no completer call follows a delta, and there are at most (retryCount + 1) squared calls; the history grows by what the attempts append, one after the other, and all but the last failed with the error that asks for a new one; if the last one did too, though nobody gave up and no delta was passed, there were retryCount + 1 attempts; the turn fails as its last attempt did |
| AgentLoop.Agent.GoOnAfter | core/bridge/agent/loop_finish.go:26-39 | after a failed attempt another one follows if the error asks for it, one is left, no delta was passed and nobody gave up, and only if the first three hold |
| AgentLoop.Agent.RunTurns | core/bridge/agent/loop.go:201-217 | the same over the turns of a run: an error means that the last turn failed, or that all maxTurns turns have begun and none ended the run; none begins only if maxTurns is zero; the last turn is remembered |
| AgentLoop.Agent.RunWithSink | core/bridge/agent/loop.go:180-217 | every run makes at most maxTurns times (retryCount + 1) squared completer calls, mixes no attempts, goes on after three fruitless tool turns only as stated for its trace, and changes nothing that existed before except which history the agent holds; without a hook, a history it commits is the old one, the user's message, and what the attempts appended, in order: exactly the messages of each turn that succeeded, and nothing for a repeated attempt unless a sink or a handler failed with the protocol error; on success it ends with the answer, and the conversation goes on from it; on an error the start could not be told, or the last turn failed as its last attempt did, with the last failure there was or with a cause in its response, or all maxTurns turns have begun and none ended the run |
| AgentLoop.Agent.RunMessage | core/bridge/agent/loop.go:168-217 | in the trace of every run there are at most maxTurns times (retryCount + 1) squared calls of the completer, none follows a delta of its turn, tool events are paired, numbered by their turn, and steps distinct per response; a failed tool event, three fruitless turns, and a tool that asks a human or hands off end the run unless a sink or a handler fails with the protocol error after them, and whatever follows an event that ends the run follows such an error, or one of the completer, since the last request; a success ends with the message returned and the end of the run, and the history is the one stated for the run; an error is accounted for as stated there, the turns counted by the positions at which they begin |
| AgentLoop.AppendUserMessage | core/bridge/agent/loop_history.go:17-37 | the trimmed input is appended as the user's, unless it is blank and carries nothing else |
| PersistQueue.EveryRunIsConsistent | apps/web/hooks/sessionSidebarPartitionStorePersistence.ts:48-63 | over every interleaving of edits, answers, resumptions of the flush and the unmount, at most one put is in flight, the store shown is the pending one, else the requested, else the confirmed one, and an idle queue shows what was confirmed |
| PersistQueue.EveryRunIsExplained | apps/web/hooks/sessionSidebarPartitionStorePersistence.ts:48-172 | over every interleaving, loads during puts included: an idle queue shows what was confirmed if and only if no store is left on display that a load showed during a put and that no edit, failure or equal answer has replaced |
| PersistQueue.ConfirmedIsLastSaid | apps/web/hooks/sessionSidebarPartitionStorePersistence.ts:65-157 | over every run, what is confirmed is the store the server delivered last while the hook was mounted: with the page, after a migration, or in answer to the put in flight; and an error is shown exactly if the last request that came back failed and no edit was made since |
| PersistQueue.LastEditIsHeld | apps/web/hooks/sessionSidebarPartitionStorePersistence.ts:48-63 | over every run, the last edit that no failed put has discarded is waiting to be sent or was sent last |
| PersistQueue.ShownIsLastEditOrSaid | apps/web/hooks/sessionSidebarPartitionStorePersistence.ts:48-157 | if no load comes during a put, the user is shown the last edit while it is waiting or in flight, and what the server said last otherwise |
| PersistQueue.EveryRunFromStart | apps/web/hooks/useSessionSidebarPartitionStore.ts:108-160 | the same from the start of the hook on, for any events: never two puts in flight, and the puts are a subsequence of the edits; a queue at rest without a stray load shows what the server said last |
| PersistQueue.EditRestores | apps/web/hooks/useSessionSidebarPartitionStore.ts:151-156 | an edit puts everything right, whatever was on display before |
| PersistQueue.PutsAreEdits | apps/web/hooks/sessionSidebarPartitionStorePersistence.ts:48-63 | over every interleaving, what is sent from a state on is a subsequence of what is pending and the edits to come: only stores that were applied, and never out of order |
| PersistQueue.LoadDuringPut | apps/web/hooks/sessionSidebarPartitionStorePersistence.ts:65-108 | a queue that comes to rest after a hydration or migration during a put, with no further load, shows what is confirmed if and only if an edit came after it, or a put failed, or the load brought what was wanted or what the server confirmed in the end |
| PersistQueue.LateHydrationLosesTheAnswer | apps/web/hooks/sessionSidebarPartitionStorePersistence.ts:133-147 | a concrete run that comes to rest showing what was never confirmed |
| PersistQueue.FailureDiscardsQueuedEdit | apps/web/hooks/sessionSidebarPartitionStorePersistence.ts:149-157 | a failed put also discards the edit queued behind it: whatever happens afterwards, only later edits are sent |
| PersistQueue.PartitionPersistQueue.ApplyOptimisticStore | apps/web/hooks/useSessionSidebarPartitionStore.ts:151-156 | an edit is shown at once and queued, or sent if no put is in flight |
| PersistQueue.PartitionPersistQueue.FlushQueuedPartitionPersist | apps/web/hooks/sessionSidebarPartitionStorePersistence.ts:48-63 | the segment up to the first await: no second flush is started |
| PersistQueue.PartitionPersistQueue.SendNext | apps/web/hooks/sessionSidebarPartitionStorePersistence.ts:110-116 | the head of the loop: sends the pending store or ends the flush |
| PersistQueue.PartitionPersistQueue.ResumePersist | apps/web/hooks/sessionSidebarPartitionStorePersistence.ts:118-131 | the segment after a put is answered: commits or rolls back, up to the end of the request |
| PersistQueue.PartitionPersistQueue.ResumeFlush | apps/web/hooks/sessionSidebarPartitionStorePersistence.ts:55-62 | the flush loop after its await: the next put, or the end of the flush |
| PersistQueue.PartitionPersistQueue.CommitPersistedPartitionStore | apps/web/hooks/sessionSidebarPartitionStorePersistence.ts:133-147 | the answer is shown only if nothing newer is |
| PersistQueue.PartitionPersistQueue.RollbackPartitionStore | apps/web/hooks/sessionSidebarPartitionStorePersistence.ts:149-157 | returns to the store confirmed last and forgets what was queued |
| PersistQueue.PartitionPersistQueue.ResumeHydration | apps/web/hooks/sessionSidebarPartitionStorePersistence.ts:65-83 | the segment after the initial load |
| PersistQueue.PartitionPersistQueue.ResumeMigration | apps/web/hooks/sessionSidebarPartitionStorePersistence.ts:85-108 | the segment after a migration |
| SessionLoader.MergeIsLeastUpperBound | apps/web/hooks/useSessionLoader.ts:246-259 | merging requests is an associative, commutative, idempotent join that asks for no more than both of them |
| SessionLoader.DefaultsDominate | apps/web/hooks/useSessionLoader.ts:239-244 | options that are set are taken as they are; with none set, a load does everything that any load can be asked for |
| SessionLoader.EveryRunIsConsistent | apps/web/hooks/useSessionLoader.ts:152-190 | loads never overlap, and a request waits with no load running if and only if one came between the exit of the loop and its callback and no load has begun since |
| SessionLoader.EveryLoadIsTheMerge | apps/web/hooks/useSessionLoader.ts:152-190 | over every run, a request begins a load exactly if the loader is inactive, and the end of a load exactly if a request is pending; a load asks for the least that serves all requests since the one before it |
| SessionLoader.RequestIsServedNext | apps/web/hooks/useSessionLoader.ts:167-173 | a request made while a load runs is served by the very next load, whatever else is requested meanwhile |
| SessionLoader.GapRequestWaits | apps/web/hooks/useSessionLoader.ts:159-190 | the gap is real: a request made in it waits with the loader inactive |
| SessionLoader.DominatingLoadCommits | apps/web/hooks/useSessionLoader.ts:205-214 | a load that dominates a request commits whatever the request would commit |
| SessionLoader.ShouldCommitSessionList | apps/web/hooks/useSessionLoader.ts:205-237 | a list is committed exactly if it differs or, in the other mode, if it has a session whose id no session of the current list has |
| SessionLoader.SessionListsEqual | apps/web/hooks/useSessionLoader.ts:192-223 | compares the lists element by element and field by field |
| SessionLoader.HasNewSessionID | apps/web/hooks/useSessionLoader.ts:225-237 | finds a new id exactly if there is one |
| SessionLoader.QueuedSessionLoader.LoadSessions | apps/web/hooks/useSessionLoader.ts:152-165 | a request, with its options filled in, is merged into the queue and starts a load if none is active |
| SessionLoader.QueuedSessionLoader.ResumeAfterLoad | apps/web/hooks/useSessionLoader.ts:167-181 | the segment after a load: the next one, or out of the loop |
| SessionLoader.QueuedSessionLoader.ClearActiveSessionLoad | apps/web/hooks/useSessionLoader.ts:183-190 | the callback after the loop |
| SidebarTree.CountAllIsLength | apps/web/components/SessionSidebarFlatList.ts:25-32 | counting is the length of what is shown, collapsed partitions left out |
| SidebarTree.LimitAllKeepsFirst | apps/web/components/SessionSidebarFlatList.ts:34-53 | limiting keeps exactly the first sessions of what is shown, and reports how many more would fit |
| SidebarTree.LimitAllTwice | apps/web/components/SessionSidebarFlatList.ts:34-53 | limiting by more and then by less is limiting by less: showing more never moves what was shown |
| SidebarTree.LimitPartitionViewsBySessionCount | apps/web/components/SessionSidebarFlatList.ts:34-53 | the loop computes the limited tree, a negative limit counting as zero |
| SidebarTree.LimitPartitionViewBySessionCount | apps/web/components/SessionSidebarFlatList.ts:157-228 | the same for one partition with its children |
| SidebarTree.AllRowsShowFlattened | apps/web/components/SessionSidebarFlatList.ts:9-122 | the session rows are what is shown, in order, whatever is being dragged |
| SidebarTree.LimitedTreeRows | apps/web/components/SessionSidebarFlatList.ts:34-228 | for every limit, the rows of the limited tree are, in order, those of the partitions that are collapsed, or empty and writable, or hold one of the first sessions, or have such a partition below them: each with its header, name and level, its hint, and those of its sessions that are among the first |
| SidebarTree.DropLineIsPlaced | apps/web/components/SessionSidebarFlatList.ts:87-141 | the line of a drop stands before the session with the target's index, or after the last one, and nowhere in a partition that is empty or read only |
| SidebarTree.FindSessionIndexInPartitionViews | apps/web/components/SessionSidebarHistoryBody.tsx:250-264 | the index is the first position of the session among what is shown, or -1 exactly if it is not there |
| SidebarTree.FindSessionIndexInPartition | apps/web/components/SessionSidebarHistoryBody.tsx:266-293 | the same from a start index on |
| SidebarTree.FocusedSessionHasRow | apps/web/hooks/useSessionSidebarVisibleCount.ts:59-75 | a session that the search finds has a row, at the position found, once the focused count is applied |
| SidebarTree.VisibleCountStaysInRange | apps/web/hooks/useSessionSidebarVisibleCount.ts:20-168 | the first effect after mounting shows the first batch, and over every run of the effects from there on, whether key and total change apart or together, the count stays between 1 and the total, or 0 if there is nothing |
| SidebarTree.ChangedKeyOrTotal | apps/web/hooks/useSessionSidebarVisibleCount.ts:20-168 | a new key shows the first batch again, a new total as much as before as far as there is so much |
| SidebarTree.ScrollingShowsMore | apps/web/hooks/useSessionSidebarVisibleCount.ts:20-168 | each scroll to the end shows thirty more, until everything is shown |
| SidebarSources.SortIsSorted | apps/web/lib/sessionSidebarSessionSort.ts:3-13 | most recent activity first, ties by descending id |
| SidebarSources.DedupePartitions | apps/web/lib/sessionSidebarPartitions.ts:253-268 | blank, reserved and repeated ids are dropped; the first one wins |
| SidebarSources.DedupedIsDistinct | apps/web/lib/sessionSidebarPartitions.ts:253-268 | the ids that remain are distinct and none is the reserved one |
| SidebarSources.BuildOrderedSessionsByPartition | apps/web/lib/sessionSidebarPartitions.ts:232-251 | each partition gets exactly the sessions that belong to it, sorted |
| SidebarSources.MovingRetargetsOne | apps/web/lib/sessionSidebarPartitions.ts:118-148 | a move succeeds exactly if session and partition exist; it changes where that session belongs and no other |
| SidebarSources.GroupSourceSessions | apps/web/lib/sessionSidebarSourcePartitionViews.ts:162-195 | sessions of a kind are grouped by owner, groups in the order of their first session, which names them |
| SidebarSources.GroupsPartition | apps/web/lib/sessionSidebarSourcePartitionViews.ts:162-195 | each session of a kind is in the group of its owner and in no other, as often as it occurred |
| SidebarSources.SystemViewListsItsChildren | apps/web/lib/sessionSidebarSourcePartitionViews.ts:135-150 | the sessions a source partition lists itself are a sorted permutation of those of its children |
| SidebarSources.SplitManualViews | apps/web/lib/sessionSidebarSourcePartitionViews.ts:96-104 | splitting off the unclassified view loses none |
| SidebarSources.SidebarConservesSessions | apps/web/lib/sessionSidebarSourcePartitionViews.ts:59-209 | for every query, with unique ids, each session is at exactly one leaf if it is to be shown and at none otherwise |
| SidebarSources.UnsearchedSidebarShowsAll | apps/web/lib/sessionSidebarSourcePartitionViews.ts:59-94 | without a query exactly the hidden sessions that belong to no source are missing, and none is shown twice |
| SidebarSources.SidebarIsSorted | apps/web/lib/sessionSidebarSourcePartitionViews.ts:197-214 | every partition at every level lists its sessions by recent activity, the most recent first |
| SidebarListing.SidebarLists | apps/web/lib/sessionSidebarSourcePartitionViews.ts:59-117 | the sidebar lists, in this order, the unclassified partition, the source kinds and the user's partitions: under a query exactly those with a session to be shown, without one also the user's empty ones; each partition of the user's holds exactly the sessions to be shown in it |
| SidebarListing.KindListsOwners | apps/web/lib/sessionSidebarSourcePartitionViews.ts:135-209 | a source partition lists, in the order of the groups and under their names, exactly the owners with a session to be shown, each with exactly these sessions |
| SidebarListing.OwnersHaveSessions | apps/web/lib/sessionSidebarSourcePartitionViews.ts:162-195 | a kind has one group for each owner of one of its sessions, and no other |
| SidebarListing.OwnerOfSession | apps/web/lib/sessionSidebarSourcePartitionViews.ts:182 | the owner of a session is the trimmed owner id, or the kind if that is blank |
| SidebarListing.GroupsKeepTheirOrder | apps/web/lib/sessionSidebarSourcePartitionViews.ts:162-195 | groups come in the order of their first sessions: more sessions only add groups at the end |
| SidebarListing.FirstSessionNames | apps/web/lib/sessionSidebarSourcePartitionViews.ts:188-194 | a group is named by its first session: by the trimmed name of its owner, or by the owner if that is blank |
| SidebarListing.FirstEntryWins | apps/web/lib/sessionSidebarPartitions.ts:253-268 | a partition is kept exactly if an entry names it and no earlier entry names one with its id |
| SidebarListing.EntriesKeepTheirOrder | apps/web/lib/sessionSidebarPartitions.ts:253-268 | partitions come in the order of their entries |
| RunCards.MergeCardSourceEvents | apps/web/lib/taskRunViewerCards.ts:173-188 | the nested loops with their set of keys compute the merged events of all lists together |
| RunCards.MergedKeys | apps/web/lib/taskRunViewerCards.ts:173-188 | merging loses no key and leaves none twice |
| RunCards.MergedKeepsFirst | apps/web/lib/taskRunViewerCards.ts:173-188 | an event survives exactly if no earlier one has its key |
| RunCards.MergedAppends | apps/web/lib/taskRunViewerCards.ts:173-188 | merging more events only appends to what was merged |
| RunCards.OneIDOneEvent | apps/web/lib/taskRunViewerCards.ts:173-188 | two events are one if they have one id, white space aside; what they carry counts only if neither has an id |
| RunCards.ResolveSourceSessionIDFromEvents | apps/web/lib/taskRunViewerCards.ts:190-198 | the session of the last event that names one, white space aside, and none exactly if no event does |
| RunCards.LatestActiveCard | apps/web/lib/taskRunViewerCards.ts:136-144 | the last active card, and none exactly if no card is active |
| RunCards.EndedRunHasNoActiveCard | apps/web/lib/taskRunViewerCards.ts:56-77 | once the run has ended no card is active |
| RunCards.HydratedIsGood | apps/web/lib/taskRunViewerCards.ts:15-28 | hydrated cards are sorted and unique and hold no event twice |
| RunCards.EveryRunIsGood | apps/web/lib/taskRunViewerCards.ts:15-128 | over every run of snapshots, starts, events, finishes and status changes: one card for an id, earlier cards first, by start time and then by id, no event twice in a card |
| RunCards.EveryCardOnItsOwn | apps/web/lib/taskRunViewerCards.ts:15-128 | over every run, each card goes its own way: a step does to the card of an id what it would do if there were no other |
| RunCards.StartedCardIsListed | apps/web/lib/taskRunViewerCards.ts:79-91 | a card that is started is listed as it was announced, with its events, whether or not it was listed before, and no other card comes or goes |
| RunCards.SnapshotCardIsShown | apps/web/lib/taskRunViewerCards.ts:30-54 | a card of a snapshot is shown as the snapshot has it, with the events of both sides and the session that the snapshot gives, or that its events name last, or that it was shown live from |
| RunCards.EventIsRecorded | apps/web/lib/taskRunViewerCards.ts:93-107 | a live event is added to its card, which is shown from the session that came with it, if one did |
| RunCards.FinishIsRecorded | apps/web/lib/taskRunViewerCards.ts:109-128 | a card that finishes takes over how it ended, its text and its session only if the announcement has them; any other card stays as it is |
| RunCards.RunEndIsRecorded | apps/web/lib/taskRunViewerCards.ts:56-77 | the end of a run gives every active card its status and fills in what the card lacks; a card that has ended stays as it is |
| RunCards.RedeliveryIsNoOp | apps/web/lib/taskRunViewerCards.ts:93-107 | delivering an event once more changes nothing at all |
| RunCards.SnapshotAndEventCommute | apps/web/lib/taskRunViewerCards.ts:30-107 | a live event and a snapshot give, in either order, the same cards in the same order with the same events in the same order, all but the session they are shown live from, if and only if the event is not for a card that only the snapshot has and whose event the snapshot lacks |
| RunCards.SnapshotAndEventKeys | apps/web/lib/taskRunViewerCards.ts:30-107 | even then the same cards result, and every other card has the same events |
| RunCards.EarlyEventIsLost | apps/web/lib/taskRunViewerCards.ts:93-107 | a concrete event that is dropped because its card is not listed yet, and would be kept after the snapshot |
| RunCards.DeliveredEventsStay | apps/web/lib/taskRunViewerCards.ts:30-107 | an event delivered to a card stays on it through any steps that neither restart the card nor leave it out of a snapshot |
| ProviderSync.NormalizeProviderSyncState | core/bridge/config/provider_sync_store.go:158-188 | the loop with its set of keys computes the normalized state |
| ProviderSync.NormalizedIsTidy | core/bridge/config/provider_sync_store.go:158-188 | a normalized state is trimmed and has distinct keys that are not blank |
| ProviderSync.TidyIsNormalized | core/bridge/config/provider_sync_store.go:75-88 | a tidy state survives being written and loaded |
| ProviderSyncEntries.FirstEntryIsKept | core/bridge/config/provider_sync_store.go:158-188 | loading keeps the first entry of every provider, trimmed, and nothing else: two entries stand for one provider if they have one id, or no id and one name ignoring case |
| ProviderSyncEntries.LoadingKeepsOrder | core/bridge/config/provider_sync_store.go:158-188 | entries keep their order |
| ProviderSync.FindProviderSyncEntryValue | core/bridge/config/provider_sync_store.go:292-312 | the first entry with the id, else the first with the name ignoring case, else none |
| ProviderSync.FindProviderSyncEntry | core/bridge/config/provider_sync_store.go:281-290 | the position of that entry |
| ProviderSync.FindFinds | core/bridge/config/provider_sync_store.go:292-312 | in a loaded state a search yields the entry with the id, or else the first with the name ignoring case, or none exactly if there is neither |
| ProviderSync.ReconcileProviderSyncState | core/bridge/config/provider_sync_store.go:94-156 | the two loops compute the reconciled state and whether anything was changed |
| ProviderSync.ActivateRecords | core/bridge/config/provider_sync_store.go:100-136 | the loop over the configured providers, with the names it collects |
| ProviderSync.BuryInactive | core/bridge/config/provider_sync_store.go:138-153 | the loop that turns entries without a provider into tombstones |
| ProviderSync.RefreshEntry | core/bridge/config/provider_sync_store.go:117-135 | brings an entry back and up to date, reporting a change exactly if something was missing or different |
| ProviderSync.ReconciledIsTidy | core/bridge/config/provider_sync_store.go:94-156 | what reconciling yields is what writing and loading it would yield, for any records, if generated ids are fresh |
| ProviderSync.ReconcileTwice | core/bridge/config/provider_sync_store.go:94-156 | for records without own ids, reconciling again never alters the state; it reports a change if and only if two records write one name in different ways |
| ProviderSync.TwoSpellingsAreReported | core/bridge/config/provider_sync_store.go:122-125 | two concrete records that write one name in different ways: the next pass reports a change and alters nothing |
| ProviderSync.ReconcileTwiceByID | core/bridge/config/provider_sync_store.go:94-156 | for records that differ in name and id, over any entries: reconciling again reports a change if and only if in the first pass a record took, by name, an entry with the id of a later record, and the first entry with its name and nobody's id is missing or not up to date; otherwise the state stays as it is |
| ProviderSync.UpToDateUnlessConflict | core/bridge/config/provider_sync_store.go:100-136 | after one pass every record has its entry, settled and spelled as the record spells it, under exactly the same condition |
| ProviderSync.UncontestedIsUpToDate | core/bridge/config/provider_sync_store.go:100-136 | in particular if no entry has the name of one record and the id of a later one |
| ProviderSyncEntries.ConfiguredEntryIs | core/bridge/config/provider_sync_store.go:100-136 | unless entries are contested, every configured provider has its entry: the one with its id or its name, or a new one, live, under its name; an id that is there stays, and so does the time of the last update of an entry that was live; any other time is the one configured, or now |
| ProviderSync.ReconcilingTwiceMayAdd | core/bridge/config/provider_sync_store.go:281-312 | a concrete state and two records for which reconciling again opens another entry |
| ProviderSync.UnreportedIsUnchanged | core/bridge/config/provider_sync_store.go:41-156 | for any records, no change is reported if and only if every configured provider has its entry with nothing missing or different and no entry needs a tombstone; and then the state is what loading gave |
| ProviderSync.LiveNamesAreActive | core/bridge/config/provider_sync_store.go:138-153 | live names are always names of configured providers, and for records without own ids exactly these |
| ProviderSync.LiveNamesByID | core/bridge/config/provider_sync_store.go:138-153 | the same equality for records with ids of their own, under the condition of `UpToDateUnlessConflict` |
| ProviderSync.TombstoneStays | core/bridge/config/provider_sync_store.go:138-153 | a tombstone keeps the time of its deletion until its provider is configured again, under its id or its name |
| ProviderSyncEntries.GoneEntryIsBuried | core/bridge/config/provider_sync_store.go:138-153 | the entry of a provider that is gone becomes a tombstone with the time of its last update, or now if it has none, and is else unchanged |
| ProviderSync.UpsertProviderSyncEntry | core/bridge/config/provider_sync_store.go:238-279 | changes or appends one entry, found by id, by old name or by new name |
| ProviderSync.UpsertedIsTidy | core/bridge/config/provider_sync_store.go:238-279 | the result survives writing and loading, and every other entry is what it was |
| ProviderSyncEntries.ChangedEntryIs | core/bridge/config/provider_sync_store.go:238-279 | a change replaces the entry that is meant, by id, or else the first with the prior name, or else the first with the new name, or adds one; it has the new name, the id it had, or the one given, or a new one, and the time of the change, which is that of its deletion if it is deleted |
| Signaling.Server.AddClient | core/signaling/server.go:149-153 | a connection is listed, and no table changes |
| Signaling.Server.RemoveClient | core/signaling/server.go:155-165 | only entries that still name this connection are removed |
| Signaling.Server.RegisterPC | core/signaling/server.go:206-224 | the id is spoken for by this connection, and the one it displaced is reported |
| Signaling.Server.ConnectMobile | core/signaling/server.go:226-259 | the same for a mobile, which is forwarded to its PC if that is there; its id is the trimmed mobile id, or else the trimmed device id |
| Signaling.MobileIDGoesFirst | core/signaling/server.go:344-351 | taking the first id that is not blank, trimmed, is taking the mobile id if it is not blank and else the device id |
| Signaling.EveryRunRecords | core/signaling/server.go:149-259 | over every run in which a connection is added once and sends nothing before or after it is there: the server records for each connection what it announced last |
| Signaling.EveryRunSpeaksForLatest | core/signaling/server.go:206-259 | over every such run an id is in its table if and only if the connection that announced it last is there, or has gone after announcing something else; and then the table names that connection |
| Signaling.RemovalIsExact | core/signaling/server.go:155-165 | a removal takes away the entry of what the connection announced last, if that still names it, and nothing else: a displaced connection never evicts its successor |
| Signaling.OrderlyRunSpeaksForLatest | core/signaling/server.go:206-259 | if connections announce one kind and one id each, an id is spoken for exactly while the connection that announced it last is there |
| Signaling.SecondIDOutlivesConnection | core/signaling/server.go:206-224 | a concrete run in which an entry outlives a connection that registered for two ids |
| Text.TrimTwice | apps/web/lib/sessionSidebarPartitions.ts:270-272 | trimming is idempotent, so trimmed ids and names compare as they are stored |
| Text.TrimIs | apps/web/lib/sessionSidebarPartitions.ts:270-272 | trimming cuts off white space at both ends, and nothing else |
| Text.TrimSpaceIs | core/bridge/agent/loop_history.go:17-37 | the same for the bridge |
| StableSort.Sort | apps/web/lib/taskRunViewerCards.ts:53 | the result is a permutation |
| StableSort.SortMapped | apps/web/lib/taskRunViewerCards.ts:53 | what does not touch the order may be done before or after sorting |
| StableSort.SortIsSorted | apps/web/lib/taskRunViewerCards.ts:219-226 | the result is in the order that the comparison defines, for any total order |

## Left out

Outside the model:

- React rendering, hooks plumbing, drag and drop and user-interface copy.
- HTTP, WebSocket, file and git I/O, the command line, and configuration loading.
- The packages `llm`, `streaming` and `tools` are not part of this model; the agent
  sees them through oracles, and step ids are the positions they are built from.
- Checks for nil receivers and missing components (`validateAgentForRun`), logging,
  and the wording of errors, notices and tool results.
- Slicing of new messages after a run (`GetNewMessages`): it would only add easy members.
- Tracing of saved partitions and the JSON codec of the partition store.
- Forwarding of offers, answers and candidates, heartbeats and stale connections in
  the signaling server; what its tables say to a lookup is stated, the lookups are not.
- Listing providers with their tombstones (`applyProviderSyncMetadata`,
  `tombstoneProviderRecords`): plain maps and filters over the reconciled state.

Represented in a simpler way:

- Text is a sequence of characters; the stream of the original iterates over code
  points and the batch parser over UTF-16 code units, which agree because the tokens
  are ASCII and the cuts fall only at tokens and at the end.
- `toLowerCase`, `localeCompare`, `Date.parse` and the keys built with
  `JSON.stringify` are represented by a function that keeps blank text blank, a
  position in the order, a number and a key.
- Fields that may be missing are empty text where the original treats both alike.
- Partition ids of source groups are not URL-encoded.
- Sessions are grouped as the id map resolves them, instead of as ids that are
  resolved afterwards.
- `Array.prototype.sort` is represented by a stable insertion sort.
- Emission of deltas, the raw tool arguments and the payloads of events carry no
  content of their own: only their order and the steps they belong to are modelled.
- Waiting between attempts is an arbitrary interruption. What fails outside is logged
  by the oracle that fails; a handler whose answer is not valid counts as one that failed.
- Some longer functions are split: the two loops of `reconcileProviderSyncState`, the loop
  of `consumeNormalChar`, the loops of `runWithSink` and
  `finishAssistantTextToolInvocations`, the retry decision of `runTurn`, and the parts of
  `handleToolCallTurn`, `finalizeAssistantTextTurn` and `terminalSuccess` are methods of
  their own.

Stated weaker than it could be:

- AgentMessages.History.Append: pairing of a call with its result after trimming is not claimed, because trimming can drop a call and keep its result.
- AgentTrace.EndMeans: a run may go on after its error event if the completer itself failed with the protocol error, because the source repeats such a turn.
- ProviderSync.ReconcileTwiceByID: says nothing where two records share a name, or share an id of their own; `ReconcileTwice` covers shared names without ids, and `UnreportedIsUnchanged` says for any records when a pass has nothing to do.
- RunCards.SnapshotAndEventCommute: leaves out the session a card is shown live from, because there the last word counts by design.
