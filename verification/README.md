# Verified model of the trading assistant's core

A Dafny 4.11 model of the parts of the repository that hold unbounded state, loops or concurrency, with proofs about
every run of them. `dafny verify dfyconfig.toml` checks all of it.

**The agent transcript.** A session keeps an append-only journal of messages and compaction checkpoints and derives
from it what the model is shown; the agent loop keeps a live message list of its own (`Transcript`, `Compaction`,
`Serialization`, `Summarizer`, `AgentWorld`, `AgentLoop`, `Session`; token arithmetic in `Text`, `Tokens`, `Budget`).
The language model is an arbitrary function from request number to reply, tools answer any text or raise, the token
estimator is any function where that is enough and the program's own where its shape matters. The main results are that
the live list and the journal's projection are the same at every request, through any number of compactions, forced or
not, and that the journal holds everything the model and the tools said, in order.

**The stream hub.** `HubModel` states each method that holds the lock, and a consumer's read, as one step of a state
machine. Next to the hub's own maps it keeps what an observer would write down: the log of every stream id, the message
that closed it, and for each queue how every message left it. `HubInvariant` proves what every step keeps, `HubSteps`
what an observer sees each of them do, `HubResults` what follows for all runs, `HubSessions` what a client gets across
reconnects, and the class `Sse.StreamHub` carries out the steps with the source's loops. Its `Valid` says that its
state is the one the steps taken so far lead to, so every result about runs is about the object.

**The event stream and the tool batch.** `StreamModel` interleaves the atomic stretches of a producer, a consumer,
whoever closes the stream and the finalizer; `EventStream` is the object. `ToolBatch` interleaves the stretches of tool
calls under a semaphore that share one failure ledger, over all the batches of a prompt run.

**The trace reducer.** `TraceReducer` is the fold over typed events, `TraceEditing` the same work done on a copy that
is changed in place, and `TraceMeaning` what each event means.

**Reconstruction and order directives.** `Reconstruction` replays fills with a calibrated fee scale. `OrderModels`,
`DirectiveParsing`, `DirectiveSettlement` and `OrderHandoff` follow a directive from a model's JSON through the handoff
check to the settlement of each order. Prices there are floats: a real number, an infinity or NaN.

## What the proofs found

- A stream's second consumer waits forever when the first took the terminal event and left without asking for more,
  because only asking for more marks the stream as consumed. `StrandedExactly` is the exact condition. The client's own
  `chat` leaves in just this way (`backend/llm/client.py:178-187`), so its streams must not be read twice.
- A directive with a line at infinity or NaN is reported as needing watching although no price can meet it
  (`AuthorityIsExact`, `WatchedForNothing`).
- `parse_directives` promises to report malformed entries, but two of them raise an `OverflowError`, which is no
  `ValueError`, and lose the whole list: a price that is an integer too large for a float, and a clock text whose hour
  or minute does not fit a C int, such as `9999999999:00` (`EscapesExactly`, `LargePriceEscapes`, `LargeClockEscapes`).
- An event can be put into an event stream after its terminal one exactly when somebody closes it, or leaves it early,
  while an emitter that is not the attached producer waits for room (`OverrunExactly`).
- In parallel mode an identical call can fail C + 1 times rather than two, and for every C it can (`BoundIsReached`).
- The re-check of a summary prompt's size at `backend/agent/kernel/context_compaction.py:493-499` can never fail.
- Of the two limits on what a compaction keeps verbatim (`backend/agent/kernel/context_compaction.py:142`), half the
  token budget is never the smaller one (`HalfNeverLimits`).
- Reconstruction closes the books for any order of fills when every fill's day is listed exactly once and there
  was a fee to scale; a day listed twice replays its fills twice (`BooksClose`, `DuplicateDayCountsTwice`).

## Model

| member | source | states |
|---|---|---|
| Session.RunPrompts | backend/agent/harness.py:242-289 | over any number of prompts, with any system prompt, tools, model and listeners: each outcome is what the loop makes of that prompt's own words, world and listener on the journal left before it (see AgentLoop.Run), including when and why it failed; the journal is what the completed ones asked to be committed, each left the session showing exactly what its loop returned, calls and results stay paired, and the harness's own system message stays the first one shown |
| Session.AgentHarness.Prompt | backend/agent/harness.py:264-273 | the outcome is that of a run of the loop on this message; a completed turn is committed whole and the session then shows exactly the messages the loop returned; a turn that raises before the commit leaves the journal unchanged; the commit is never refused and nothing recorded is lost |
| Session.AgentSession.CommitTurn | backend/agent/session.py:70-79 | all mutations are appended, or none when a checkpoint has a blank summary |
| AgentLoop.Run | backend/agent/actors/agent_loop.py:310-515 | whatever model and tools do: the record is the system text and the prompt word for word, then every reply with its text and calls and every tool answer under its call's id, in order and whatever was compacted; each checkpoint in it is a compaction of what was shown just then, with the model's own summary of all it stands for; every request was made with all of that on record, paired, showing the user's words, and input, output cap and margin fit the window. A result is the trimmed text of the model's first reply without calls, given before the abort was seen; a failure happens only when aborted, when a batch raised, when the model failed or overflowed twice, or when a compaction that was needed failed |
| AgentLoop.RanInFull | backend/agent/actors/agent_loop.py:310-515 | the same of every run, said without the loop's own functions: by the fields of the replies and answers and their places in the record |
| AgentWorld.SaidWordForWord | backend/agent/actors/agent_loop.py:155-171 | what is recorded of any number of replies is each complete one, its content kept when replayable or not blank and its calls as they are, followed by one tool message per call with the tool's text, and nothing else |
| AgentWorld.PromptOpens | backend/agent/actors/agent_loop.py:70-87 | an empty history starts with the trimmed system prompt or, when that is blank, a text naming every tool; then come the user's words, unchanged |
| AgentLoop.GenerateTurn | backend/agent/actors/agent_loop.py:264-304 | one turn with at most one forced compaction keeps that record; its reply is the model's answer to the last request, which showed the list it returns, and its failures are those of the two requests or of a compaction that was needed |
| AgentLoop.CompactThenGenerate | backend/agent/actors/agent_loop.py:189-261 | a compaction, the checkpoint recorded for it and the request that follows keep live list and journal equal, and the reply is the model's answer to that request, which showed the list returned |
| AgentLoop.SettlesOnce | backend/agent/actors/agent_loop.py:366-515 | what the model and the tools say decides the answer: there is only one number of requests with which a run can end well |
| AgentLoop.UnobstructedRunsAnswer | backend/agent/actors/agent_loop.py:346-448 | when the model replies every time, every list fits and nobody aborts, the run returns the text of the model's first reply without calls |
| AgentLoop.Generate | backend/agent/actors/agent_loop.py:351-378 | a list within the token budget always gets an output cap: working it out never raises |
| AgentLoop.AnswerCalls | backend/agent/actors/agent_loop.py:497-515 | the tools' own answers are recorded one per call, in order, and settle every call; nothing is recorded when the batch raised |
| Transcript.ProjectAppend | backend/agent/session.py:29-68 | recording a message appends it to what the model is shown |
| Transcript.ProjectCheckpoint | backend/agent/session.py:29-68 | a checkpoint replaces everything shown except the first system message |
| Transcript.SummaryRoundTrip | backend/agent/kernel/context_compaction.py:284-289 | the summary read back from a summary message is the summary put in |
| Transcript.PairedMeansAnswered | backend/agent/actors/agent_loop.py:452-515 | the pairing automaton accepts a transcript exactly when every call is answered right after its message, in place and under its id, and every result answers a call |
| Transcript.AnsweredUnderOwnId | backend/agent/actors/tool_executor.py:22-31 | a call is answered under the id the model gave it exactly when that id is non-blank and has no white space around it |
| Transcript.CutKeepsPairing | backend/agent/kernel/context_compaction.py:316-330 | a paired transcript may be cut before anything but a tool result |
| Transcript.HistoryIsPaired | backend/agent/kernel/context_compaction.py:292-313 | taking out system message, summaries and user request leaves calls and results paired |
| Transcript.SplitOfAssemble | backend/agent/kernel/context_compaction.py:351-364 | splitting an assembled transcript gives back system message, request, summary and kept history exactly |
| Compaction.CompactContext | backend/agent/kernel/context_compaction.py:90-195 | success means within budget; either nothing was needed, or a non-empty prefix of whole turns was summarised: the last requests told the model every message of it in full, beside the summary before, and the summary is the trimmed last reply. The suffix kept is the longest that fits; everything is summarised only when forced, when all would have been kept, or when every attempt at the first cut was in vain |
| Serialization.EntriesTellAll | backend/agent/kernel/context_compaction.py:635-668 | nothing of a message is left out, in order: text, calls with names and arguments, tool results whole or their first 2000 characters and how many are missing, each under its label |
| Serialization.RoundTellsModel | backend/agent/kernel/context_compaction.py:462-512 | the requests of a round spell all of that out, after the old summary where it is folded in, and the new summary is the answer to the last without the white space around it |
| Serialization.PromptShowsAll | backend/agent/kernel/context_compaction.py:620-629 | the prompt of a request contains each of its fragments and the summary so far |
| Transcript.PartsAreSplit | backend/agent/kernel/context_compaction.py:292-313 | splitting loses nothing: the first system message, the last thing the user said, the last summary, and all other messages in order |
| Compaction.TurnTokensAdd | backend/agent/kernel/context_compaction.py:333-348 | the tokens of some turns are those of each, added up |
| Compaction.CompactionKeepsPairing | backend/agent/kernel/context_compaction.py:183-195 | a compaction of a paired transcript is paired |
| Compaction.CompactedSplitsAgain | backend/agent/kernel/context_compaction.py:351-364 | a compacted transcript splits into the same system message, the same request word for word, the new summary and the kept suffix |
| Compaction.CheckpointProjects | backend/agent/session.py:29-68 | recording the checkpoint makes the journal project to the compacted transcript |
| Compaction.SplitTranscript | backend/agent/kernel/context_compaction.py:292-313 | the loop finds the first system message, the last real user message, the last summary and the rest in order |
| Compaction.HistoryTurns | backend/agent/kernel/context_compaction.py:316-330 | the turns flatten back to the history, and each is an assistant message with what follows it |
| Compaction.TurnCutKeepsPairing | backend/agent/kernel/context_compaction.py:316-330 | cutting between two turns never separates a call from its results |
| Compaction.RetainedHistorySuffix | backend/agent/kernel/context_compaction.py:333-348 | the suffix kept is the longest run of whole turns within the budget |
| Compaction.HalfNeverLimits | backend/agent/kernel/context_compaction.py:142-142 | the tokens kept verbatim are those configured for recent messages: half the token budget is never the smaller limit |
| Compaction.CompactCandidate | backend/agent/kernel/context_compaction.py:367-419 | of up to four attempts, each with half the output cap and every request granted it in full, the candidate is the first whose summary fits, and that summary is the trimmed last reply of its attempt; without one every attempt was in vain or not even an empty summary fits |
| Compaction.CapsHalve | backend/agent/kernel/context_compaction.py:384-418 | the four attempts ask for the summary output, its half, its quarter and its eighth, but for at least one token |
| Compaction.CompactUserPrompt | backend/agent/kernel/context_compaction.py:198-277 | a compacted prompt fits its budget, keeps its prefix and contains the summary; the first round told the model the whole payload, each later one the answer before it; a prompt is unchanged when it fitted already |
| Summarizer.SummarizeEntries | backend/agent/kernel/context_compaction.py:462-512 | for every model the fold ends, every prompt fits the input budget with the full cap granted, chunks use up the entries exactly, and each request carries the trimmed reply before it |
| Summarizer.FoldEntries | backend/agent/kernel/context_compaction.py:478-512 | the same for the loop alone, which terminates on characters plus entries left and whose second budget check never fires |
| Summarizer.TakenIsLess | backend/agent/kernel/context_compaction.py:478-512 | every round takes a character or an entry away |
| Summarizer.TakeSummaryChunk | backend/agent/kernel/context_compaction.py:515-552 | greedy packing: whole entries while they fit, else a split of the first; nothing is lost and one entry more would not fit |
| Summarizer.SplitSummaryEntry | backend/agent/kernel/context_compaction.py:555-582 | head and tail rejoin, the head is non-empty and fits, and one character more does not; with a monotone estimate no longer prefix fits, and failing means that no prefix does |
| Summarizer.PayloadEstimateIsMonotone | backend/llm/context.py:47-108 | whatever JSON surrounds the prompt in a provider's payload, longer prefixes never estimate lower, so the binary search is exact |
| Summarizer.OwnEstimateIsMonotone | backend/agent/kernel/context_compaction.py:598-608 | so with the estimator used when no provider is known |
| Summarizer.EntriesRejoin | backend/agent/kernel/context_compaction.py:515-582 | each entry is spelt by a run of its own fragments |
| Summarizer.ConsumedSpellsTheSame | backend/agent/kernel/context_compaction.py:515-582 | the fragments sent spell the same text as the entries |
| Tokens.InsertionNeverCheaper | backend/llm/context.py:32-39 | inserting text anywhere never lowers the estimate |
| Tokens.EstimateIs | backend/llm/context.py:32-39 | four ASCII characters make a token, begun ones count whole, and every other character makes one |
| Tokens.InsertionNeverCheaperWhenEscaped | backend/llm/context.py:101-108 | the same through JSON escaping of the text inside a payload |
| Budget.TokenBudgetIsExact | backend/agent/kernel/context_budget.py:45-97 | an input is within the token budget exactly when a request with it is granted the reserve, and then input, cap and margin fit the window |
| Budget.CapIsLargest | backend/agent/kernel/context_budget.py:73-97 | a request gets the largest cap it may have that leaves input and margin room in the window, and none exactly when not one token is left |
| Budget.ReserveAndMargin | backend/agent/kernel/context_budget.py:36-62 | what is set aside: a third of the window or the output limit, a twentieth or 64, and the bounds of what is kept and of a summary |
| Budget.BudgetsInFigures | backend/agent/kernel/context_budget.py:27-64 | the figures for the default window and for the smallest one |
| Budget.SummaryCapIsUnclamped | backend/agent/kernel/context_budget.py:64-97 | a summary request within its input budget gets exactly the cap it asks for, and no other does |
| Budget.FromRuntime | backend/agent/kernel/context_budget.py:27-34 | every configuration built has a window of at least 1000 and a positive output limit |
| HubResults.ExactlyOnce | backend/api/sse/stream_hub.py:60-87 | for any steps after a subscription: replay, then what left the queue, then what is in it are consecutive messages starting right after the requested number, complete while subscribed; reads ascend and skip only what the queue dropped |
| HubSessions.ExactlyOnceAcrossReconnects | backend/api/sse/stream_hub.py:60-111 | however often a client resubscribes after the last number it got, all it got of its stream is from the log, ascending and without repetition, and without a gap unless a queue it gave up dropped a message or a replay could not reach back |
| HubSessions.ReconnectIsWhole | backend/api/sse/stream_hub.py:252-276 | a reconnect on the same stream loses nothing exactly when the client has the latest message or the history reaches back to its number |
| HubResults.ReplayIsExact | backend/api/sse/stream_hub.py:252-276 | a replay is exactly the log after the requested number if id matches, the number is in range and the history reaches back, and empty otherwise |
| HubResults.LostOnlyWhenFull | backend/api/sse/stream_hub.py:235-250 | a step takes at most the oldest message out of a queue: by a read, or dropped because the queue was full and a newer one was published |
| HubResults.TerminalIsLastAndUnique | backend/api/sse/stream_hub.py:113-173 | over whole runs a stream's messages are numbered from 1 and about one run, nothing follows the message that closed it, and a terminal checkpoint always closes |
| HubResults.MapsAgree | backend/api/sse/stream_hub.py:89-111 | over whole runs the known runs are exactly those retained or subscribed, every map agrees, a terminal entry means subscribed and not retained, and the retention bound holds or no retained run is idle |
| HubResults.EvictsOldestIdle | backend/api/sse/stream_hub.py:205-217 | eviction removes exactly the longest-idle runs, only as many as are too many, and never the run being tracked |
| HubInvariant.StepSound | backend/api/sse/stream_hub.py:60-250 | every step keeps the invariant and takes nothing published or closed back |
| HubInvariant.InvAlways | backend/api/sse/stream_hub.py:60-250 | so does every sequence of steps |
| Sse.StreamHub.constructor | backend/api/sse/stream_hub.py:43-58 | a new hub is the empty state with the limits raised as the source does |
| Sse.StreamHub.SubscribeRun | backend/api/sse/stream_hub.py:60-87 | one new empty queue listens to the run, which keeps its stream or gets one with an empty log and is now the latest in use; only idle runs are dropped for it, and only when too many are kept; returns the queue, the stream id, its last number and the replay |
| Sse.StreamHub.UnsubscribeRun | backend/api/sse/stream_hub.py:89-111 | this queue listens no more, all others do; a run nobody listens to is forgotten when asked for, not retained, or too many are |
| Sse.StreamHub.FinishRun | backend/api/sse/stream_hub.py:113-136 | publishes the snapshot as a last checkpoint and closes the stream with it, or returns the message that closed it before; the run's replay data is gone and, when nobody listens, everything about it |
| Sse.StreamHub.PublishSnapshot | backend/api/sse/stream_hub.py:148-173 | for a retained run the stream's log grows by exactly this checkpoint, numbered next, which is last in the queue of every subscriber; a terminal one closes the stream; otherwise nothing is published |
| Sse.StreamHub.PublishTraceStepDelta | backend/api/sse/stream_hub.py:175-203 | for a retained run and a non-empty delta the stream's log grows by exactly this delta, numbered next and last in the queue of every subscriber, and the history by one up to its limit; otherwise nothing changes |
| Sse.StreamHub.TrackRunLocked | backend/api/sse/stream_hub.py:205-217 | the eviction loop computes the eviction of the model |
| Sse.StreamHub.PublishLocked | backend/api/sse/stream_hub.py:235-250 | the loops over queues deliver to every subscriber exactly as broadcasting does |
| Sse.StreamHub.ReplayLocked | backend/api/sse/stream_hub.py:252-276 | the filter and the number check compute the replay of the model |
| Sse.StreamHub.Take | backend/api/sse/stream_hub.py:384-396 | a consumer gets the oldest message of its queue and leaves the others, or waits |
| HubSteps.SnapshotShows | backend/api/sse/stream_hub.py:148-173 | what publishing a checkpoint changes in logs, queues and maps, said without the step functions |
| HubSteps.DeltaShows | backend/api/sse/stream_hub.py:175-203 | the same for a delta |
| HubSteps.FinishShows | backend/api/sse/stream_hub.py:113-136 | the same for finishing a run |
| HubSteps.SubscribeShows | backend/api/sse/stream_hub.py:60-87 | the same for subscribing |
| HubSteps.LeaveShows | backend/api/sse/stream_hub.py:89-111 | the same for unsubscribing |
| Sse.StreamHub.CurrentSeqIsLatest | backend/api/sse/stream_hub.py:143-146 | the current number is how many messages the run's stream has |
| StreamModel.EndsExactlyOnce | backend/llm/events.py:146-206 | in every interleaving in which nobody closes the open stream on an emitter it cannot cancel, the buffer keeps its bound, at most one terminal event is put and nothing after it, and the result exists exactly when one was and is its message |
| StreamModel.OverrunExactly | backend/llm/events.py:146-174 | that condition is exact: a run of any length can be wound down to an event after the terminal one if and only if somebody closed the open stream while an unattached emitter waited for room |
| StreamModel.RunKeepsBasic | backend/llm/events.py:146-235 | in every interleaving without exception the buffer keeps its bound, closed means resolved, and a result never changes |
| StreamModel.ResultIsFinal | backend/llm/events.py:192-206 | once a stream has ended properly, every further run is proper, keeps the result and puts nothing |
| StreamModel.NothingElseIsLost | backend/llm/events.py:197-206 | an event put is delivered in order or was thrown away by a forced end |
| StreamModel.FinishedMeansResolved | backend/llm/events.py:208-235 | in every interleaving from a new stream, a finished attached producer leaves a result, or a scheduled callback or finalizer, and once these have run there is a result |
| StreamModel.StrandedExactly | backend/llm/events.py:176-190 | a new consumer of an ended stream waits forever exactly when an earlier one left while holding the terminal event |
| StreamModel.NeverStrandedUnlessAbandoned | backend/llm/events.py:176-190 | no consumer waits in vain otherwise, over all proper runs |
| StreamModel.StrandedForever | backend/llm/events.py:176-190 | nothing anyone does wakes such a consumer: over all runs in which it does not leave, it goes on waiting |
| StreamModel.SecondConsumerWaitsForever | backend/llm/events.py:176-190 | a run in which that happens |
| StreamModel.UnattachedEmitterOverrunsTheEnd | backend/llm/events.py:146-174 | the smallest such run: two events, room for one, and the stream closed before the second was put |
| EventStream.AssistantMessageEventStream.AttachProducer | backend/llm/events.py:137-144 | attaching succeeds exactly on an open stream without a producer |
| EventStream.AssistantMessageEventStream.EmitEvent | backend/llm/events.py:146-151 | on an open stream the event is put behind the others, or the emitter waits with it when the queue is full; a terminal one closes the stream and becomes the result; on a closed stream nothing happens |
| EventStream.AssistantMessageEventStream.ResumeEmit | backend/llm/events.py:146-151 | a waiting put lands behind the others exactly when there is room |
| EventStream.AssistantMessageEventStream.InterruptProducer | backend/llm/events.py:170-174 | a producer cancelled while it waits for room puts nothing |
| EventStream.AssistantMessageEventStream.EndProducer | backend/llm/events.py:137-144 | an attached producer that is over schedules its callback |
| EventStream.AssistantMessageEventStream.ProducerDone | backend/llm/events.py:208-211 | the callback schedules the finalizer exactly when there is no result |
| EventStream.AssistantMessageEventStream.OpenIteration | backend/llm/events.py:176-179 | an iteration starts exactly when none is active and none took the terminal event to its end |
| EventStream.AssistantMessageEventStream.ContinueIteration | backend/llm/events.py:180-190 | asking for more after the terminal event ends the iteration on a closed, resolved stream |
| EventStream.AssistantMessageEventStream.ForceTerminal | backend/llm/events.py:197-206 | the drain loop leaves only the terminal event and resolves the result |
| EventStream.AssistantMessageEventStream.Aclose | backend/llm/events.py:159-174 | closing an unresolved stream leaves one aborted failure in the queue as the result; an earlier result is kept with what is queued; no put of the producer lands later |
| EventStream.AssistantMessageEventStream.FinalizeUnterminatedProducer | backend/llm/events.py:213-235 | an unresolved stream ends in one failure: aborted when the producer was cancelled, else an error with the producer's own text or the name of its kind |
| EventStream.AssistantMessageEventStream.TakeEvent | backend/llm/events.py:182-184 | takes the oldest event; an ended stream has nothing to take only after a consumer left at the terminal event |
| EventStream.AssistantMessageEventStream.LeaveIteration | backend/llm/events.py:187-190 | leaving closes an open stream with an aborted failure and leaves a closed one as it is |
| ToolBatch.FailuresAreBounded | backend/agent/actors/tool_executor.py:297-350 | with at most C calls in flight, identical calls fail at most C + 1 times in a whole prompt run, in every interleaving of every sequence of batches |
| ToolBatch.BoundIsReached | backend/agent/actors/tool_executor.py:297-350 | for every C there is a run with exactly C + 1 failures |
| ToolBatch.RefusedExactlyAfterTwoFailures | backend/agent/actors/tool_executor.py:181-190 | a call is let through exactly when identical ones failed fewer than twice; a refusal quotes the last error |
| ToolBatch.ResultsFollowCalls | backend/agent/actors/tool_executor.py:336-350 | results come back one per call in source order |
| ToolBatch.SomethingCanHappen | backend/agent/actors/tool_executor.py:312-334 | a batch with an unfinished call is never stuck |
| ToolBatch.RepeatedFailureLedger.RecordFailure | backend/agent/kernel/repeat_guard.py:48-51 | the count of the key goes up by one from what it was or from none, its error becomes the latest, and every other key stays as it was |
| ToolBatch.RepeatedFailureLedger.RefusalFor | backend/agent/kernel/repeat_guard.py:53-68 | a call is refused exactly when identical ones failed twice or more, and the refusal carries their count and last error |
| ToolBatch.ToolCallBatch.BeginCall | backend/agent/actors/tool_executor.py:315-334 | takes a slot, then the checks in the source's order: an aborted, invalid, denied or exhausted call has its result at once, with the reason given, and any other goes out to its tool |
| ToolBatch.ToolCallBatch.EndCall | backend/agent/actors/tool_executor.py:204-246 | an answer is a success without error, a failure carries the tool's error and is counted for that key before it is reported |
| ToolBatch.ToolCallBatch.RunInOrder | backend/agent/actors/tool_executor.py:336-340 | the sequential mode finishes every call in order; each result is what checks and tool make of the call with the failures counted up to then |
| TraceReducer.TextIsWhatWasStreamed | backend/business/runs/trace_reducer.py:306-330 | after any accepted events the text of every step is the concatenation, in order, of the deltas addressed to it |
| TraceReducer.ShapedAlways | backend/business/runs/trace_reducer.py:31-62 | after any accepted events stage keys and step ids are unique, the current stage exists, and the counter grew by at least one per event |
| TraceReducer.AcceptedEvent | backend/business/runs/trace_reducer.py:31-62 | an event changes its own stage as its handler says and no other |
| TraceReducer.SettledForGood | backend/business/runs/trace_reducer.py:129-208 | a settled stage is never pending or running again |
| TraceReducer.ClosingIsQuiet | backend/business/runs/trace_reducer.py:150-208 | ending a stage settles it and leaves no step running |
| TraceReducer.OnlyTextReopens | backend/business/runs/trace_reducer.py:306-330 | a step of a quiet settled stage runs again exactly when a late text delta arrives |
| TraceReducer.ToolEventsKeepResultLast | backend/business/runs/trace_reducer.py:222-303 | after a tool event the result step is last and the others keep their order |
| TraceEditing.ReduceTrace | backend/business/runs/trace_reducer.py:31-62 | an accepted event does exactly what it means and a refused one has one of the reasons for it (TraceMeaning), and the working copy computes the model's reduction |
| TraceMeaning.ReducingMeans | backend/business/runs/trace_reducer.py:31-330 | what each event makes of its stage and steps, without the handlers: the status, times and summary of a stage, the status every running step ends in, what a tool's step says before and after, the text that grows, the order of the steps, the current stage; all else is as it was |
| TraceMeaning.RefusingMeans | backend/business/runs/trace_reducer.py:31-330 | an event is refused exactly when its number does not advance, it names no stage, or its stage cannot take it |
| TraceEditing.WorkingTrace.ApplyEvent | backend/business/runs/trace_reducer.py:129-330 | every handler leaves stages and current stage as the model says |
| TraceEditing.LatestStageForKey | backend/business/runs/trace_reducer.py:83-89 | the backward search finds the newest stage |
| TraceEditing.CloseRunningSteps | backend/business/runs/trace_reducer.py:150-154 | the loop closes exactly the running steps |
| TraceEditing.MoveResultToEnd | backend/business/runs/trace_reducer.py:298-303 | the loop moves the result step last |
| Reconstruction.BooksClose | backend/business/performance/reconstruction.py:51-64 | with the calibrated scale the replay ends on exactly the broker's cash if and only if there was a fee to scale or the schedule was right anyway |
| Reconstruction.CashAfter | backend/business/performance/reconstruction.py:98-117 | for any days whatever, each fill moves the cash as often as its day is listed |
| Reconstruction.DuplicateDayCountsTwice | backend/business/performance/reconstruction.py:106-117 | a day listed twice replays its fills twice |
| Reconstruction.FeesArePositive | backend/business/performance/reconstruction.py:31-38 | fills of non-negative amounts always have fees to scale |
| Reconstruction.SaleCostsDutyMore | backend/business/performance/reconstruction.py:31-38 | of two fills of one amount a sale costs a thousandth of it more |
| Reconstruction.FeeIsCommissionAndTransfer | backend/business/performance/reconstruction.py:31-38 | other fills cost five yuan or three in ten thousand, whichever is more, and two in a hundred thousand |
| Reconstruction.SalesBringIn | backend/business/performance/reconstruction.py:41-48 | a sale brings its amount in and a purchase takes it out, in the sum over fills and in the replay |
| Reconstruction.HoldingsAgree | backend/business/performance/reconstruction.py:67-73 | after the last day the replay holds what the fills alone leave |
| Reconstruction.HoldingsAfter | backend/business/performance/reconstruction.py:67-73 | the loop returns exactly the non-zero net positions, each the shares bought less those given away |
| Reconstruction.NetIsBoughtLessGiven | backend/business/performance/reconstruction.py:67-73 | the net position is the sum of purchases less the sum of all other fills |
| Reconstruction.MissingIsExact | backend/business/performance/reconstruction.py:118-127 | missing closes are exactly the days and symbols held without a close |
| Reconstruction.AlwaysListed | backend/business/performance/reconstruction.py:116-127 | every held symbol has a last known price, so no lookup fails |
| Reconstruction.PricesAreLastKnown | backend/business/performance/reconstruction.py:116-126 | the price remembered of a symbol is the close of the last day it was held over that has one, else the price of its first fill |
| Reconstruction.ValueIsHoldingsAtLastKnown | backend/business/performance/reconstruction.py:118-138 | a day's value is its holdings at those prices, beside the cash |
| Reconstruction.OnlyThePastMatters | backend/business/performance/reconstruction.py:106-138 | for a fixed scale the values up to a date are settled by the fills and closes of the listed days up to that date, in whatever order the days were listed |
| Reconstruction.CashOfDay | backend/business/performance/reconstruction.py:98-138 | when every fill's day is listed once, the cash reported for a date is what the fills up to that date leave, in whatever order days and fills come |
| Reconstruction.HoldingsOfDay | backend/business/performance/reconstruction.py:106-117 | and the holdings valued are the net positions of those fills |
| Reconstruction.Reconstruct | backend/business/performance/reconstruction.py:82-138 | the loops compute the replay over the sorted days: one value for each listed day, in the order of their dates, and the last reports the rounded final cash |
| Reconstruction.ComputeCash | backend/business/performance/reconstruction.py:41-48 | the loop computes the cash the fills leave |
| DirectiveSettlement.AuthorityIsExact | backend/business/order_directives/models.py:105-153 | some market price and time make a pass act on an order exactly when it needs watching and one of its conditions can be met |
| DirectiveSettlement.WatchingIsExactWithOrdinaryLines | backend/business/order_directives/models.py:105-124 | with finite positive lines that is exactly needing watching |
| DirectiveSettlement.WatchedForNothing | backend/business/order_directives/models.py:105-124 | a line at infinity or NaN is watched though it can never act |
| DirectiveSettlement.ReasonIsTrue | backend/business/order_directives/settlement.py:156-167 | the reason given for a withdrawal is a condition of the directive that holds |
| DirectiveSettlement.WithholdingPricesNeverActs | backend/business/order_directives/settlement.py:66-79 | withholding prices never turns inaction into action |
| DirectiveSettlement.OneSettlementEach | backend/business/order_directives/settlement.py:80-109 | every known order is settled exactly once exactly when no two directives name the same order |
| DirectiveSettlement.SettlementsOf | backend/business/order_directives/settlement.py:80-109 | how many settlements any order gets |
| DirectiveSettlement.Settle | backend/business/order_directives/settlement.py:66-109 | each directive is settled as it says, at every price and moment, or reported vanished when its order does not rest; then every resting order nobody named is reported once |
| DirectiveSettlement.SettledAsDirected | backend/business/order_directives/settlement.py:112-153 | an order is withdrawn exactly when its directive says at once, a line is passed or the time has come, placed anew at the plan's price exactly when a trigger is passed and attempts are left, and held otherwise |
| DirectiveSettlement.AboveIs | backend/business/order_directives/models.py:58-61 | prices compare as floats do: by size, infinities beyond all numbers, NaN never |
| DirectiveSettlement.CountIsMultiplicity | backend/business/order_directives/handoff.py:61-63 | ids are counted as often as they occur |
| DirectiveParsing.ParseDirectives | backend/business/order_directives/parsing.py:120-143 | each order named gets exactly one directive, what the last entry for it says: field by field as written when all of it can be read, a bare HOLD otherwise; entries that name no order are counted; it raises exactly when the OverflowError of some entry escapes |
| DirectiveParsing.EntryIsKept | backend/business/order_directives/parsing.py:34-117 | what is written is what is kept, and nothing else: texts trimmed, the first 500 characters of the note, action, every price, time and plan field exactly as the JSON value says or absent when it is null or missing; a bare HOLD exactly when no directive is written there |
| DirectiveParsing.FiledKeepsPlaces | backend/business/order_directives/parsing.py:131-143 | an order keeps the place of its first directive |
| DirectiveParsing.EscapesExactly | backend/business/order_directives/parsing.py:34-117 | an OverflowError escapes exactly when a price reached before any unreadable field is too large for a float, or the conditions are reached and the clock's hour or minute is no C integer |
| DirectiveParsing.LargePriceEscapes | backend/business/order_directives/parsing.py:34-42 | for every order and reader of integers, a hold with the smallest integer no float can hold as its line escapes |
| DirectiveParsing.LargeClockEscapes | backend/business/order_directives/parsing.py:45-56 | so does a hold whose clock text has an hour or minute that is no C integer |
| DirectiveParsing.LargeHourOverflows | backend/business/order_directives/parsing.py:45-56 | such a text: any hour above the largest C integer, a colon and any minute |
| DirectiveParsing.IntactExactlyWhenReadable | backend/business/order_directives/parsing.py:76-117 | an entry arrives intact exactly when every field it declares is readable |
| DirectiveParsing.DowngradedNeverActs | backend/business/order_directives/parsing.py:76-117 | a downgraded entry holds its order at every price and time and needs no watching |
| DirectiveParsing.AuthorityIsDeclared | backend/business/order_directives/parsing.py:76-117 | whatever a pass does to an order, the entry as written declared |
| DirectiveParsing.ParsedIsWellFormed | backend/business/order_directives/parsing.py:76-117 | what is read satisfies its own constructor, for the named order and this run |
| OrderHandoff.CompleteHandoffSettles | backend/business/order_directives/settlement.py:66-153 | after a complete handoff every active order is settled exactly once by a withdrawal or a hold, and a held buy at its own price is withdrawn only for the time |
| OrderHandoff.CompleteExactly | backend/business/order_directives/handoff.py:53-132 | a handoff is complete exactly when every order is over or clear with one usable plan |
| OrderHandoff.CheckHandoff | backend/business/order_directives/handoff.py:53-132 | the counts are how many orders can still fill and how many of them are provided for; unknown means that some order is in doubt, complete that each is over or provided for; every other order has one issue, in order, and what it says is so |
| OrderHandoff.ReportTells | backend/business/order_directives/handoff.py:53-132 | the same, from the findings |

## Left out

- AgentLoop.Run: the abort signal is seen at the head of the loop and as a batch that raises, not between two events; the number of iterations before an abort is a parameter, so every run is finite but of any length. When a needed compaction fails, which of the budget errors is raised is not stated.
- AgentLoop.AnswerCalls: a batch answers with arbitrary texts or raises; how its calls interleave is the subject of the tool batch, which is not connected to the loop's messages.
- Session.AgentHarness.Prompt: event listeners are reduced to one that fails after the commit, which makes the prompt raise although its turn is recorded (the outcome `FailedAfterCommit`), or does not; a second prompt while one is running is not modelled, and the source refuses it.
- Summarizer.PayloadEstimateIsMonotone: a provider's payload is fixed JSON text around the prompt as one escaped string; that the drivers build it so is not modelled. The five per cent margin is the window divided by twenty.
- Prompt wording: summary prefixes, prompt frames, refusal and failure texts are constants without a value, and proofs hold for any; reasoning text, error flags and provider payloads of messages are not modelled.
- Arguments of tool calls are their JSON text; how two argument objects come to the same text is not modelled.
- HubSessions.ExactlyOnceAcrossReconnects: a client whose run has a new stream starts afresh, and what it got of the old one is no longer counted; the checkpoint sent in place of a replay is not a hub message.
- Sse.StreamHub.constructor: requires one of the two sizes not to be negative; the source accepts both negative and fails at its first publish.
- Sse.StreamHub.Take: the polling, keep-alives and disconnects of the HTTP route around a queue are not modelled; a queue lives on under its id after its subscriber left.
- Sse.StreamHub.SubscribeRun: stream ids are numbers handed out in order instead of random UUIDs; a client may ask for any number.
- HubResults.ExactlyOnce: queues with a size of zero or less never fill up, as in asyncio; waking of waiting consumers is left to the schedule.
- StreamModel.EndsExactlyOnce: covers attached and unattached emitters alike, but one emitter and one iteration at a time.
- ToolBatch.FailuresAreBounded: a batch whose result callback raises ends the prompt run; calls still out at that moment are not followed further.
- ToolBatch.ResultsFollowCalls: contents and details of results are left out.
- TraceReducer.TextIsWhatWasStreamed: starts from the empty trace; traces loaded from storage are covered as far as they have unique keys and ids.
- TraceEditing.ReduceTrace: stages and steps are values held in the copy's lists, so aliasing between a stage found and the list it is in is not modelled; titles, descriptions, rounds and stock call lists are left out.
- Reconstruction.BooksClose: amounts are real numbers; binary rounding is not modelled and rounding to cents is an arbitrary function.
- DirectiveParsing.ParseDirectives: how Python reads an integer from a text is a parameter, an integer becomes a real without rounding, and the texts of problems are only counted.
- OrderHandoff.CheckHandoff: texts of issues are replaced by named reasons; the time stamp is left out.
- FastAPI routes, database repositories, workers, provider drivers, notification and rendering: plumbing or effects.
- The other recorder of run traces (`backend/business/runs/traces/recorder.py`) edits traces outside the reducer and is not modelled.
