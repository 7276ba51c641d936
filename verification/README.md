# A verified model of an agent core

This project models the parts of a C++ agent library in which state, concurrency and text processing
meet, and proves what they keep. Three stacks are covered.

**From bytes to an answer.** `SseText`, `SseEvents`, `SseDecoder`, `SseRoundTrip` and `SseWire` model the
incremental event-stream decoder, an independent meaning of a whole stream (the unique cut of a text at its
blank lines), and every way to write events (sections 9.2.5 and 9.2.6 of the WHATWG HTML Standard). `StreamDeltas`,
`StreamLaws`, `StreamPackets`, `StreamParsers` and `GeminiStream` model the chunk parsers, which fold packets into an
answer in place and swallow exceptions half way. `Backoff`, `HttpRetry` and `Pipeline` model one request
with its retries and put the layers together: the consumer has seen exactly the events of the last
attempt. `GeminiSchema` and `SchemaMeaning` model the schema rewrite and what it does to the meaning of
a schema (sections 10.2 and 10.3 of JSON Schema Core draft 2020-12).

**From a prompt to a workflow.** `History` and `DeepSeekProvider` model the conversation history, its
trimming, and a model turn. `AgentLog` and `AgentHost` record what a run does to the outside world;
`Permissions`, `AgentSession` and `AgentRuntime` model which tools are exposed, the bounded loop of tool
rounds, and the outcome of a run. The outside world (cancel flag, confirmations, tools, network, model)
is an arbitrary function of everything that happened so far, so each theorem holds against every
behaviour of it. `RuntimeMachine` models a runtime under concurrent
cancellation. `OrchestratorData`, `OrchestratorMachine` and `AgentOrchestrator` model the four-stage
workflow and the single agent execution: first as a state machine with any number of cancellers
interleaved between any two accesses to the shared fields, then as the code itself, whose fields are
proved equal to those of the machine.

**The confirmation gate.** `ConfirmationGate` and `GateLaws` model the token protocol as the atomic regions
of its mutex, with any number of waits blocking at once, and prove over every interleaving what a wait
returns; `Decimal` is the number rendering that makes tokens distinct.

## How the parts fit

- A class method that changes state is tied by its `ensures` to a function of the old state
  (`Decode`, `Replay`, `Trimmed`, `TurnEffect`, the machine's `Next`), and the lemmas are about that function.
- A log is judged event by event: `Sound`, `Explained` and `AllExplained` say what each event implies about
  the log before it, and the lemmas on whole runs are read off that.
- Three documented promises do not hold of the code, and the model says exactly when they do.
  `docs/providers.md:208`: trimming keeps calls and replies together. `TrimKeepsPairsExactly` gives the
  condition, `TrimCanSplitAPair` a history on which it fails.
  `docs/architecture.md:139`: several threads can wait on one gate. `NewestWaitDecides` says what each wait
  returns. `BeginIsSafeExactly` gives the rule a caller has to keep: on an uncancelled gate one more question
  is safe if and only if nobody waits. Otherwise a wait without an approval can return true
  (`LaterApprovalIsTaken`), an accepted approval can be forgotten (`ApprovalIsForgotten`), and a wait can be
  left without any way to be answered (`ReturnShutsOthersOut`); each holds from every state it applies to.
  `docs/confirmations.md:171`: `cancel()` unblocks waiting threads with false. `CancelDecidesUnlessReset` gives
  the condition, `CancelCanBeOvertaken` the failing runs, in which a reset comes before the woken thread, and
  `CancelUnblocks` the part that holds.
- A cancel of an orchestrator has two halves: it stores the flag, then calls the published runtime under the
  mutex. `LooksSeeStores` says which stored flags a run sees, and `StoreBeforeResetIsCleared` that one stored
  between the busy flag and the reset is not seen; `SecondHalfReachesARuntime` says that the call reaches a
  runtime exactly when the mutex is taken while one is published, whatever happened to the flag, and
  `ClearedCancelCanReachARuntime` shows both in one run.

- A cancel forwarded to an agent runtime reaches the flag of a run only while that run has its session
  attached. `RuntimeMachine` says so exactly, and that a cancel before or after leaves no trace there; only
  the orchestrator's own flag is left to stop the workflow after the run.
- `TeamRuns` joins the layers: for a workflow whose runtimes are agent runtimes it bounds the model calls of
  all stages together, and traces every tool effect to the profile of its stage.

## Model

| member | source | states |
|---|---|---|
| SseEvents.SegmentsAreUnique | include/arn/core/net/sse_decoder.hpp:36-41 | a text has exactly one cut into parts without blank lines, so cutting at the leftmost blank line is the meaning of "split at blank lines" |
| SseEvents.SegmentInTwoSteps | include/arn/core/net/sse_decoder.hpp:32-41 | cutting a text in two steps, with the unfinished tail carried over, cuts it as one step does |
| SseEvents.JoinOneMore | include/arn/core/net/sse_decoder.hpp:56-58 | appending a data line to the collected text is joining all data lines with leading empty ones left out |
| SseEvents.DecodeInTwoSteps | include/arn/core/net/sse_decoder.hpp:29-67 | decoding a concatenation is decoding the first part, then its rest followed by the second |
| SseEvents.FlushEmitsAtMostOne | include/arn/core/net/sse_decoder.hpp:77-90 | ending a stream emits at most one event, namely that of the unfinished body, and leaves at most a single newline |
| SseDecoding.SseDecoder.Push | include/arn/core/net/sse_decoder.hpp:29-67 | emitted events and remaining buffer are the batch meaning of old buffer plus chunk; no blank line and no carriage return stays buffered |
| SseDecoding.SseDecoder.Drain | include/arn/core/net/sse_decoder.hpp:36-66 | the erase loop emits what the buffer decodes to and keeps the unfinished rest |
| SseDecoding.Assemble | include/arn/core/net/sse_decoder.hpp:43-63 | the line loop of one block yields the joined payloads of its data lines |
| SseDecoding.SseDecoder.Finish | include/arn/core/net/sse_decoder.hpp:77-90 | the end of the stream: nothing on an empty buffer, a completed last block, or any other tail verbatim as one event |
| SseDecoding.ChunkIndependence | include/arn/core/net/sse_decoder.hpp:29-67 | every division of a text into chunks gives the events and the rest of one whole decoding, and never a buffered blank line |
| SseDecoding.SameBytesSameEvents | include/arn/core/net/sse_decoder.hpp:30-35 | two streams with the same bytes up to carriage returns cannot be told apart |
| SseRoundTrip.DecodeEncoding | include/arn/core/net/sse_decoder.hpp:29-67 | an encoding followed by any unfinished text decodes to its surviving payloads and leaves that text |
| SseRoundTrip.RoundTrip | include/arn/core/net/sse_decoder.hpp:17-18 | encoding and then decoding, under any chunking and with carriage returns anywhere, gives the payloads without leading newlines and an empty buffer |
| SseRoundTrip.RoundTripExactly | include/arn/core/net/sse_decoder.hpp:17-18 | the decoder returns exactly the encoded list if and only if every payload is non-empty, free of carriage returns and does not start with a newline |
| SseRoundTrip.TruncatedRoundTrip | include/arn/core/net/sse_decoder.hpp:72-86 | with the last one or two newlines missing, the end of the stream still yields the last payload, and leaves a newline or nothing |
| SseWire.PayloadOfWritten | include/arn/core/net/sse_decoder.hpp:50-59 | a line written as `data:` or `data: ` yields exactly its text, and any other line nothing |
| SseWire.AnyWritingRoundTrips | include/arn/core/net/sse_decoder.hpp:29-67 | however events are written, with or without the space line by line, with other lines inside and between them, under any chunking and carriage returns, the decoder gives back what was said |
| SseWire.PayloadsComeBack | include/arn/core/net/sse_decoder.hpp:29-67 | blocks that carry faithful payloads, among blocks that carry none, give back exactly those payloads |
| SseWire.UnfinishedWritingIsFlushed | include/arn/core/net/sse_decoder.hpp:72-86 | the last event may lack its final newlines, however it is written, if it starts with a data line |
| StreamParsing.Accumulator.ApplyChange | src/providers/provider_utils.cpp:191-213 | one tool-call change grows the array and patches its slot; it stops where an access throws, keeping what was done |
| StreamParsing.Accumulator.ParseDeepSeekChunk | src/providers/provider_utils.cpp:168-219 | one event has exactly the effects of its packets up to the first malformed spot |
| StreamParsing.Accumulator.ParseOpenRouterChunk | src/providers/provider_utils.cpp:315-368 | one event leaves what the DeepSeek parser leaves on the same event with its error packets removed |
| StreamLaws.WithoutErrorsExactly | src/providers/provider_utils.cpp:325-327 | exactly the packets without an error are left, in their order |
| StreamLaws.ParsersAgree | src/providers/provider_utils.cpp:326-327 | on streams whose error packets carry no delta the two parsers have the same effects |
| StreamPackets.AnswerOfStream | src/providers/provider_utils.cpp:168-219 | for every stream, malformed packets included: the text is the contents that were said, with one slot for each index up to the largest meant, a missing index meaning the first, and in each slot its arguments in order and the last id, type and name; the end marker says nothing |
| StreamPackets.PacketsSay | src/providers/provider_utils.cpp:176-214 | what takes effect of an event: all up to the first malformed spot, and of a change with malformed arguments everything else |
| StreamLaws.ReplayInClosedForm | src/providers/provider_utils.cpp:185-214 | from any answer: text and callback grow by the spoken chunks, the array to the largest index, each slot by its own changes |
| StreamLaws.AnswerInClosedForm | src/providers/provider_utils.cpp:185-214 | a finished answer has one slot per index up to the largest, with all its fragments in order and the last id, type and name sent; its text is what the callback received |
| StreamLaws.SlotsAreIndependent | src/providers/provider_utils.cpp:191-213 | changes for different slots may be reordered freely without any effect on the answer |
| StreamLaws.SplitEvent | src/providers/provider_utils.cpp:175-177 | the packets of an event may be split over two events, unless the first part breaks off |
| GeminiStream.GeminiAccumulator.TakePart | src/providers/provider_utils.cpp:127-137 | one part is kept and its text and call are read off; text and calls always match the kept parts |
| GeminiStream.GeminiAccumulator.ParseGeminiChunk | src/providers/provider_utils.cpp:108-142 | an event adds all its parts up to and with the first one whose text is no string, and text and calls stay those of the parts |
| GeminiStream.KeptConcat | src/providers/provider_utils.cpp:127-141 | cutting off at the first bad part may be done piece by piece |
| GeminiStream.SplitGeminiEvent | src/providers/provider_utils.cpp:115-116 | the packets of an event may be split over two events, unless the first one breaks off |
| GeminiSchema.GeminiFunctionSchema | src/providers/provider_utils.cpp:48-78 | the loops on a copy compute the recursive rewrite |
| GeminiSchema.RewriteExactly | src/providers/provider_utils.cpp:48-78 | the rewrite keyword by keyword, each named: which are descended into and how, which one goes, and that all else stays |
| SchemaMeaning.RewriteAtEveryPosition | src/providers/provider_utils.cpp:48-78 | every position that is descended into is kept and rewritten as a schema of its own |
| SchemaMeaning.OnlyTheKeywordIsGone | src/providers/provider_utils.cpp:42-61 | at each position exactly the one keyword disappears; properties keep their names, also one named like the keyword |
| SchemaMeaning.RewriteIsClean | src/providers/provider_utils.cpp:42-47 | no reached position carries the keyword afterwards |
| SchemaMeaning.UnchangedExactlyWhenClean | src/providers/provider_utils.cpp:48-78 | the rewrite changes nothing if and only if no position carries the keyword; it is idempotent |
| SchemaMeaning.RewriteIsDirected | src/providers/provider_utils.cpp:42-78 | without references and unevaluated keywords the rewrite works in one direction by polarity: a negation turns it around, an exclusive choice needs both, and downwards the keyword must be absent |
| SchemaMeaning.RewriteAcceptsNoLess | src/providers/provider_utils.cpp:42-78 | on schemas directed upwards every accepted instance stays accepted |
| SchemaMeaning.RewriteKeepsMeaning | src/providers/provider_utils.cpp:42-78 | on clean schemas, and on those directed both ways, the rewrite changes no verdict |
| SchemaMeaning.DoubleNegationWidens | src/providers/provider_utils.cpp:63-67 | under two negations accepted instances stay accepted |
| SchemaMeaning.NegationNarrowsExactly | src/providers/provider_utils.cpp:63-67 | a negation rejects what it accepted exactly where the schema under it accepts what it rejected |
| SchemaMeaning.NegationCanNarrow | src/providers/provider_utils.cpp:63-67 | under a negation the rewrite rejects an instance that was accepted |
| Backoff.BackoffFitsExactly | src/net/http_client.cpp:54-57 | the 32-bit delay expression stays in range for every jitter if and only if the attempt index is at most 22 |
| Backoff.TotalBackoff | src/net/http_client.cpp:54-57 | without a usable Retry-After the total wait for n retries lies between 500 (2^n - 1) ms and that plus 250 n ms |
| Backoff.EachDelayIsBounded | src/net/http_client.cpp:42-58 | a single wait is at most a minute or its own backoff, and fits 32 bits for up to 23 retries |
| HttpRetry.StreamRequest.StreamPost | src/net/http_client.cpp:60-105 | one attempt hands over the decoded events of a successful body, or collects the body of a failure, up to the piece at which cancellation was seen |
| HttpRetry.RetriedExactly | src/net/http_client.cpp:33-40 | a reply is worth retrying if and only if it was lost, has status 500, 502, 503 or 504, or is a 429 whose text names no exhausted quota |
| HttpRetry.QuotaExactly | src/net/http_client.cpp:12-31 | a reply reports an exhausted quota if and only if it is a 429 whose text holds one of six markers, in any case of its letters |
| HttpRetry.AcceptedExactly | src/net/http_client.cpp:83-96 | the pieces of a body are accepted up to the first at which the cancel flag was seen |
| HttpRetry.StreamRequest.ExecuteStreamWithRetry | include/arn/core/net/http_client.hpp:104-143 | at most max(1, maximum) attempts; every reply followed by another was lost or has one of the five retryable statuses; a call that stops early, uncancelled, with no event and no read timeout, got another status or a 429 for an exhausted quota; no earlier attempt delivered an event; events and answer are those of the last attempt on the state before the call; each wait is that of its Retry-After or its backoff |
| HttpRetry.ExecuteWithRetry | include/arn/core/net/http_client.hpp:71-86 | the plain loop: attempt bound, which replies are followed by another attempt and which end it early, and its waits |
| Pipeline.AttemptsWithSameBytes | src/net/http_client.cpp:83-96 | where the network cuts a body leaves no trace in the delivered events |
| Pipeline.AttemptDeliversPayloads | src/net/http_client.cpp:83-104 | a successful attempt whose body encodes faithful payloads delivers them, complete or with the final newlines missing |
| History.TrimmedIsLongestSuffix | src/providers/deepseek_provider.cpp:59-64 | trimming keeps the system head, if there is one, and a suffix, and no longer suffix would fit with the head |
| History.TrimTwice | src/providers/deepseek_provider.cpp:59-64 | trimming to a and then to b is trimming to the smaller one |
| History.TrimKeepsPairsExactly | docs/providers.md:206-209 | calls and replies stay together if and only if nothing is removed, nothing but the head is kept, or the message at which the kept suffix starts is no tool reply |
| History.TrimCanSplitAPair | docs/providers.md:208 | a history on which trimming leaves a tool reply without its call |
| History.KeptCallsKeepTheirReplies | docs/providers.md:208 | a call that is kept keeps every reply to it, at the same distance |
| History.MessageKeepsPairs | src/providers/deepseek_provider.cpp:73-76 | a message that is no tool reply leaves no reply without its call |
| History.RepliesKeepPairs | src/providers/deepseek_provider.cpp:88-94 | replies to all calls of the last message, in order, leave none without its call |
| DeepSeekProviding.DeepSeekProvider.TrimHistory | src/providers/deepseek_provider.cpp:59-64 | the erase loop computes the trimmed history |
| DeepSeekProviding.DeepSeekProvider.StartTurn | src/providers/deepseek_provider.cpp:66-78 | the opening request is the history, or the system instruction on an empty one, followed by the prompt text as user message; and what the turn makes of it |
| DeepSeekProviding.DeepSeekProvider.ContinueTurn | src/providers/deepseek_provider.cpp:80-96 | the continuation request is the history followed by one reply per response, with its id and its result |
| DeepSeekProviding.DeepSeekProvider.ExecuteTurnRequest | src/providers/deepseek_provider.cpp:98-173 | a good turn appends one message whose text and calls are those of the last attempt alone, and its calls have the ids, names and parsed arguments of that message's slots, `{}` for arguments that do not parse; a cancelled or failed turn appends none; an unreadable call fails the turn with its message kept |
| DeepSeekProviding.DeepSeekProvider.StreamAnswer | src/providers/deepseek_provider.cpp:113-128 | the accumulators that outlive the retries hold one clean run of the last attempt |
| AgentLog.EffectsAreApproved | src/agent/agent_runtime.cpp:29-43 | a tool takes effect only if registered and right after the flag was seen down, and if it needs approval, right after an approving confirmation of the same name and arguments before that |
| AgentLog.OneCallAfterCancel | src/agent/agent_session.cpp:60-126 | of two tool or model calls of a run the first one started with the flag down: at most one call starts after a cancel |
| AgentHosting.Host.Ask | src/agent/agent_runtime.cpp:138-147 | a missing handler and a refusal are recorded, and the outcome flags follow the record |
| AgentHosting.Host.ExecuteTool | src/agent/agent_runtime.cpp:29-43 | an adapter call is answered by the tool's own result, by the cancellation or by the refusal that came last |
| Permissions.Inspect | src/agent/agent_runtime.cpp:107-113 | the flag loop denies a binding unless it has operations, all configured and not denied, and all reads in a read-only task; it asks if one is configured to ask, and changes state if one is no read |
| Permissions.BuildRegistry | src/agent/agent_runtime.cpp:96-116 | it fails exactly on null, unnamed or doubly named tools; otherwise the registry holds the tools of all bindings whose name is allowed and whose operations are configured, and of no others, each asking as configured |
| Permissions.EffectsArePermitted | include/arn/core/agent/agent_permissions.hpp:21-32 | over a whole run every tool effect belongs to a binding allowed by name, with operations that are all in the profile's own map with a decision other than denial, and all reads in a read-only task; if one is configured to ask, or the tool asks itself, an approving confirmation of the same call came right before the last look at the flag |
| AgentSessions.AgentSession.RunCall | src/agent/agent_session.cpp:94-110 | a call is answered by what happened in the log during this very call, or by the lookup that failed |
| AgentSessions.AgentSession.RunTools | src/agent/agent_session.cpp:90-111 | one response per call in order, each from its own tool in its own piece of the log, the pieces disjoint and in order; or the cancellation or exception that stopped it |
| AgentSessions.AgentSession.OneRound | src/agent/agent_session.cpp:85-124 | a continuation goes out only with every call of the turn answered in order; a round costs at most one model call |
| AgentSessions.AgentSession.ToolLoop | src/agent/agent_session.cpp:84-126 | the loop ends within its rounds without counter overflow, and each way of ending is justified by the log and the last turn |
| AgentSessions.AgentSession.NextTurn | src/agent/agent_session.cpp:113-123 | the continuation request carries the answered calls, leaves no reply without its call, and each early stop is justified |
| AgentSessions.AgentSession.FirstTurn | src/agent/agent_session.cpp:60-82 | a prompt looks at the flag before it touches the history, opens with the trimmed history and the question, and goes on only with the flag seen down twice after the answer |
| AgentSessions.AgentSession.Prompt | src/agent/agent_session.cpp:50-127 | a whole prompt: the first request ends with the question, each later one with all calls of a turn answered by the responses of that round; at most one more model call than rounds, and exactly that when the rounds are used up; no reply without its call if trimming at the start leaves none; success only with a last turn without calls at the end of the history |
| AgentSessions.TurnKeepsPairs | src/providers/deepseek_provider.cpp:98-173 | a model turn, however it ends, leaves no reply without its call |
| AgentSessions.AnsweredInOrder | src/providers/deepseek_provider.cpp:88-94 | the replies put behind a turn's message pair its calls with the same identifiers in the same order |
| AgentRuntimes.AgentRuntime.Preflight | src/agent/agent_runtime.cpp:86-137 | a run gets a session if and only if task, profile, limits, environment, tools and capabilities are usable, and otherwise the code of the first check that fails |
| AgentRuntimes.AgentRuntime.Execute | src/agent/agent_runtime.cpp:73-186 | a run starts from and leaves an empty conversation, sends the instruction and the prompt first and no reply without its call, makes at most as many model calls as the profile's limit and as the task's limit, exactly the smaller one when its rounds are used up, and is reported completed if and only if the session succeeded uncancelled with no confirmation declined or unattended |
| RuntimeMachine.RunKeeps | src/agent/agent_runtime.cpp:148-172 | the inductive invariant over every interleaving of runs and cancellers of one runtime |
| RuntimeMachine.CancelledExactly | src/agent/agent_runtime.cpp:199-205 | the flag of a run is up at its end if and only if a cancel reached it, and a cancel reaches a run if and only if it falls between attaching and detaching its session |
| RuntimeMachine.AtMostOneCallAfterHit | src/agent/agent_runtime.cpp:199-205 | after a cancel has reached a run at most one more tool or model call starts in it |
| RuntimeMachine.MissedCancelsLeaveNoTrace | src/agent/agent_runtime.cpp:199-205 | deleting every cancel that finds no session leaves all fields of a runtime equal, and the log equal apart from those cancels |
| RuntimeMachine.SessionsAreRuns | src/agent/agent_session.cpp:50-127 | everything a session can log under an arbitrary monotone cancel flag happens in some run of the machine |
| TeamRuns.RunsBehind | src/agent/agent_orchestrator.cpp:158-197 | behind every record of a workflow made of agent runtimes stands one run of the runtime of its stage, or a start callback that threw |
| TeamRuns.WorkflowKeepsBudgets | src/agent/agent_runtime.cpp:90-92 | the model calls of all runs of a workflow are at most the sum of its stages' limits, whether that of the profile or that of the task is taken for each |
| TeamRuns.WorkflowKeepsPermissions | include/arn/core/agent/agent_permissions.hpp:21-32 | every tool effect of a workflow is permitted by the profile and the task of its own stage, with approval where one asks |
| TeamRuns.CompletedWorkflowWasApproved | src/agent/agent_runtime.cpp:176-181 | in a completed workflow of agent runtimes no confirmation was declined or unattended, and each run last saw its flag down |
| AgentRuntimes.AgentRuntime.Conclude | src/agent/agent_runtime.cpp:170-185 | each outcome of a run, in terms of the session's result and the log |
| AgentRuntimes.EmptyRegistry | src/agent/agent_runtime.cpp:136-137 | the registry is empty if and only if no binding is exposed |
| OrchestratorData.ArtifactsForStage | src/agent/agent_orchestrator.cpp:48-75 | the selection by profile name is the scope of that profile's stage |
| OrchestratorData.ExplorerScope | src/agent/agent_orchestrator.cpp:48-55 | the explorer sees the initial artifacts only |
| OrchestratorData.PlannerScope | src/agent/agent_orchestrator.cpp:53-60 | the planner sees the initial artifacts and one report with the explorer's summary |
| OrchestratorData.CoderScope | src/agent/agent_orchestrator.cpp:61-63 | the coder sees exactly the report with the explorer's summary and the plan with the planner's |
| OrchestratorData.ReviewerScope | src/agent/agent_orchestrator.cpp:64-73 | the reviewer sees the plan and the changes with their summaries and all test results in their places, then the initial test results |
| OrchestratorData.OutputExactly | src/agent/agent_orchestrator.cpp:210-213 | a stage produces an artifact of its own kind and name with the run's summary, then the test results |
| OrchestratorData.TestsExactly | src/agent/agent_orchestrator.cpp:212-213 | the test results of a list are exactly its artifacts of that kind, in their order |
| OrchestratorData.NoReportForReviewer | src/agent/agent_orchestrator.cpp:64-67 | no exploration report reaches the reviewer from the produced artifacts, whatever they are |
| OrchestratorMachine.RunKeeps | src/agent/agent_orchestrator.cpp:94-310 | the inductive invariant over every interleaving of a worker, other callers and cancellers |
| OrchestratorMachine.PointerIsAlive | src/agent/agent_orchestrator.cpp:306-310 | a canceller never calls a runtime that is gone, however it is delayed |
| OrchestratorMachine.BusyCallsLeaveNoTrace | src/agent/agent_orchestrator.cpp:94-95 | over whole runs, deleting every call that is turned away leaves all fields equal, pending cancels included, and the log equal apart from the entries of those calls |
| OrchestratorMachine.AtMostOneRunAfterCancel | src/agent/agent_orchestrator.cpp:174-182 | after a cancel stored in a run at most one more runtime call begins |
| OrchestratorMachine.CompletedWasNotCancelled | src/agent/agent_orchestrator.cpp:197-201 | completion rules out any cancel stored in the run before its last look at the flag; also for a single execution |
| OrchestratorMachine.LooksSeeStores | src/agent/agent_orchestrator.cpp:94-100 | each look at the flag sees it up if and only if a cancel was stored before it and no run has reset the flag since |
| OrchestratorMachine.StoreBeforeResetIsCleared | src/agent/agent_orchestrator.cpp:94-100 | whenever a run has taken the busy flag and not yet reset the cancel flag, a cancel stored now leaves the flag down; only the second half of that cancel remains |
| OrchestratorMachine.SecondHalfReachesARuntime | src/agent/agent_orchestrator.cpp:306-310 | the second half of a cancel calls a runtime if and only if it takes the mutex while one is published, however late the call is then made |
| OrchestratorMachine.ClearedCancelCanReachARuntime | src/agent/agent_orchestrator.cpp:306-310 | a run in which the reset clears a stored cancel, the first look sees the flag down, and the delayed second half still calls the live runtime |
| AgentOrchestrators.AgentOrchestrator.CancelActiveExecution | src/agent/agent_orchestrator.cpp:306-310 | stores the flag and calls the published runtime, if there is one |
| AgentOrchestrators.AgentOrchestrator.Preflight | src/agent/agent_orchestrator.cpp:102-117 | a workflow starts if and only if its task is named, described and budgeted, a factory exists, four runs are allowed and all four profiles are registered, and otherwise the code of the first check that fails |
| AgentOrchestrators.AgentOrchestrator.RunStage | src/agent/agent_orchestrator.cpp:122-238 | one stage is a run of the machine, and adds its record, its context and its artifacts, or ends the workflow |
| AgentOrchestrators.AgentOrchestrator.UseRuntime | src/agent/agent_orchestrator.cpp:158-195 | the runtime is published only around the run, and a record holds what the call begun in this stage gave for its context, or the failure of the start callback |
| AgentOrchestrators.AgentOrchestrator.Judge | src/agent/agent_orchestrator.cpp:197-208 | a run that did not complete ends the workflow with its own status, summary and error, unless a cancel overrides it |
| AgentOrchestrators.AgentOrchestrator.Assess | src/agent/agent_orchestrator.cpp:197-238 | artifacts are added only for a completed run: its typed output with its summary, then its test results; every other end carries the status, summary and error of the run or of the callback that failed |
| AgentOrchestrators.AgentOrchestrator.Heed | src/agent/agent_orchestrator.cpp:228-237 | what the last look of a stage saw overrides the host's decision |
| AgentOrchestrators.AgentOrchestrator.Decide | src/agent/agent_orchestrator.cpp:216-237 | between two stages the host is asked; an exception fails the workflow, and otherwise its answer and the last look at the flag decide together; without a host, or after the last stage, nothing stops |
| AgentOrchestrators.AgentOrchestrator.RunStages | src/agent/agent_orchestrator.cpp:119-244 | the stage loop: how it ends, and what the records, contexts and artifacts are then |
| AgentOrchestrators.AgentOrchestrator.Execute | src/agent/agent_orchestrator.cpp:91-244 | records are a prefix of explorer, planner, coder, reviewer, each from the runtime call of its own stage in this run; every stage is handed the user's objective and exactly the summaries and test results of the stages before it that it may see; completed means four completed records and all their artifacts; an error has no profile if and only if the workflow never started; every other end is explained; a busy call leaves everything as it is |
| AgentOrchestrators.ErrorNamesItsStage | include/arn/core/agent/agent_orchestrator.hpp:53-58 | an error after the start names the stage about to run if its runtime could not be made, and otherwise the stage of the last record |
| AgentOrchestrators.AgentOrchestrator.ExecuteAgent | src/agent/agent_orchestrator.cpp:246-304 | a single execution returns what the call it began gave for the task's own inputs, or a cancellation if the flag was up before it, overridden by what its last look at the flag saw; no run means a failed check or a factory that made none |
| AgentOrchestrators.AgentOrchestrator.PreflightAgent | src/agent/agent_orchestrator.cpp:258-266 | a single execution starts if and only if task, factory and profile are there |
| AgentOrchestrators.AppendTests | src/agent/agent_orchestrator.cpp:211-213 | exactly the test results of a run are appended, in order |
| AgentOrchestrators.StageCompleted | src/agent/agent_orchestrator.cpp:210-213 | a completed stage leads to the next stage head: all artifacts are those of the completed records |
| Decimals.DecimalInjective | include/arn/core/confirmation/confirmation_gate.hpp:84 | different sequence numbers render differently |
| Decimals.DecimalReadsBack | include/arn/core/confirmation/confirmation_gate.hpp:84 | a rendering has digits only, no leading zero, and reads as its number |
| ConfirmationGates.ConfirmationGate.Answer | include/arn/core/confirmation/confirmation_gate.hpp:62-70 | an answer is taken exactly for the pending token, once, while not cancelled |
| ConfirmationGates.ConfirmationGate.BeginWait | include/arn/core/confirmation/confirmation_gate.hpp:81-86 | a wait publishes an unanswered token made of the prefix, the nonce and the next 64-bit number, or is refused while cancelled |
| ConfirmationGates.ConfirmationGate.EndWait | include/arn/core/confirmation/confirmation_gate.hpp:88-90 | the verdict of a wait, and the token withdrawn |
| ConfirmationGates.EveryRunIsExplained | include/arn/core/confirmation/confirmation_gate.hpp:42-91 | in every interleaving, with any number of waits at once, the fields agree with the log, and each event with the log before it |
| GateLaws.NewestWaitDecides | include/arn/core/confirmation/confirmation_gate.hpp:87-90 | however many wait: a wait returns true if and only if the answers ever accepted for the newest wait are one approval and the gate is not cancelled at that moment |
| GateLaws.OwnVerdictExactly | include/arn/core/confirmation/confirmation_gate.hpp:87-90 | a wait returns its own verdict if and only if the gate is cancelled at that moment, or it has one approval just when the newest wait has |
| GateLaws.BeginIsSafeExactly | docs/architecture.md:139 | on an uncancelled gate, one more wait is safe, in the sense that every return until the next one is the own verdict of its wait, if and only if no wait is open |
| GateLaws.ApprovalIsForgotten | docs/architecture.md:139 | whenever a wait whose approval was accepted blocks on an uncancelled gate, one more wait makes the first return false |
| GateLaws.ApprovedWaitIsReachable | include/arn/core/confirmation/confirmation_gate.hpp:62-70 | from every uncancelled state two steps lead to an open wait with an accepted approval |
| GateLaws.CancelUnblocks | docs/confirmations.md:171 | after a cancel, as long as no reset has followed, every open wait can return without a timeout, and returns false |
| GateLaws.WaitReturnsItsAnswer | include/arn/core/confirmation/confirmation_gate.hpp:87-90 | a wait before whose return no later wait began returns true if and only if the answers ever accepted for it are one approval and the gate is not cancelled at that moment |
| GateLaws.OneWaiterGetsItsAnswer | include/arn/core/confirmation/confirmation_gate.hpp:80-91 | with one wait at a time every wait returns its own verdict |
| GateLaws.CancelDecidesUnlessReset | docs/confirmations.md:171 | after a cancel a wait still returns true if and only if the newest wait is approved and a reset, with no cancel after it, came before the return |
| GateLaws.CancelCanBeOvertaken | docs/confirmations.md:171 | whenever an unanswered token is pending, cancel, reset and an approval make its wait return true |
| GateLaws.AtMostOneAnswer | include/arn/core/confirmation/confirmation_gate.hpp:64-66 | no wait is answered twice |
| GateLaws.AnswersReachTheirOwnWait | include/arn/core/confirmation/confirmation_gate.hpp:64 | below the 64-bit limit an accepted answer carries the token of its own, open wait and of no other |
| GateLaws.TokensRepeatExactly | include/arn/core/confirmation/confirmation_gate.hpp:84 | two tokens of a run are equal if and only if 2^64 divides the distance of their waits |
| GateLaws.LaterApprovalIsTaken | docs/architecture.md:139 | whenever a wait without an approval blocks on an uncancelled gate, one more wait and its approval make the first return true |
| GateLaws.ReturnShutsOthersOut | docs/architecture.md:139 | whenever two waits block, the timeout of one makes every answer for the other be turned down |

## Left out

- Transport: sockets, TLS, headers, payload builders and timeouts; an attempt is an arbitrary status, list of body pieces and final reply.
- JSON text: reading it is a parameter, and a packet keeps what the chunk parsers look at, with a case for every access that throws.
- Clocks and random numbers: a wait is one choice "cancelled meanwhile or not", and the jitter any value up to 250.
- Delays beyond attempt 22: the arithmetic there is that of the integers, where the original overflows a 32-bit expression.
- Gemini and OpenRouter providers: their history handling repeats the modelled one; only their chunk parsers are here.
- The forwarding of a cancel from a session to its provider, which closes a connection: an attempt then ends as the network decides.
- Model catalogs, API paths, tool and agent registries: simple lookups; registries are maps and sets.
- Messages and notices for people: several error texts are shortened, and progress callbacks are silent.
- The system instruction and the prompt text of a run: parameters, not assembled from profile and task.
- Text callbacks that throw, allocation failures, and a provider without a client.
- Memory order and move semantics: every access to a shared field is one atomic step.
- DeepSeekProviding.DeepSeekProvider.TrimHistory: requires room for a system head, since erasing behind a lone head is undefined in the original.
- AgentSessions.AgentSession.Prompt: requires a round limit below the largest 32-bit value, at which the round counter would overflow.
- AgentSessions.AgentSession.Exchange: the flag read after a network exchange is taken before the model evaluates the exchange, which is the same for an outside world that reacts to the log.
- AgentOrchestrators.AgentOrchestrator.Execute: a canceller acts as a whole before any step of the worker, and during a runtime call; that its two halves can be apart is covered by the machine, of which this is a run.
- AgentOrchestrators.AgentOrchestrator.ExecuteAgent: the same; its result is stated by the last look at the flag, not by the flag at the end.
- TeamRuns.WorkflowKeepsBudgets: assumes that every runtime call is a run of an agent runtime, which is what AgentRuntimes.AgentRuntime.Execute ensures of one.
- AgentRuntimes.AgentRuntime.Execute: the session drives the DeepSeek provider; what another provider would do with the same responses is not modelled.
- ConfirmationGates.EveryRunIsExplained: the callback of a wait neither throws nor re-enters the gate, which runs it with the mutex held.
- GateLaws.AnswersReachTheirOwnWait: for at most 2^64 waits, after which tokens repeat.
