# fomo-core: a verified model of its stateful core

This project models the parts of fomo-core that keep state over a whole run and must agree with something simpler: the agent execution loop and its stream decoder, cost and rate enforcement, the windowed and cached registries, the campaign engine, and context pruning with template interpolation. Everything outside (LLM providers, databases, channels, MCP servers, the clock) is an arbitrary function or a monotone time argument, so each theorem holds for every behaviour of the environment.

Code that changes things step by step is a method with a loop or a class with fields, proved equal to a specification function; what the code promises is proved about that function. Budget enforcement, the agent registry, the MCP manager and reply marking are also step relations: each piece between two awaits is one step, and a theorem over all step sequences covers every interleaving of any number of calls. Money, rates and weights are exact reals; JavaScript's 32-bit arithmetic is written out.

`dafny verify dfyconfig.toml` checks the project (Dafny 4.11).

## Modules

- `Messages`, `StreamDecoder`, `LlmCall`, `AgentRunner`, `AgentRunProperties`, `AgentDialogue`, `Pairing`: the wire decoder, the collector, one LLM call with retry and failover, the main loop, what holds of every run, and what its conversation and trace contain.
- `MemoryManager`: what of a conversation is shown to the LLM.
- `UsageLedger`, `RequestWindow`, `CostGuard`, `CostGuardSharpness`, `CostSummary`: usage queries, the pruned request window, enforcement under interleaving, and the aggregated report.
- `MessageDedup`, `ErrorTracker`, `AgentRegistry`, `AgentRegistrySteps`, `ChannelResolver`, `McpManager`: compact mutable state against the full history or the backing store.
- `VariantSelection`, `WinnerCalculation`, `CampaignRun`, `CampaignSends`, `CampaignSendSteps`, `CampaignMetrics`, `Interpolation`: the campaign engine and template substitution.
- `Wrappers`, `InsertionMap`, `StableSort`, `Sums`: options, the insertion-ordered JavaScript `Map`, its stable `sort`, and sums.

## Where the code does less than it says

Each of these is a lemma or a contract, with the exact condition under which the promise holds.

- Streaming: the assembled message depends on how the stream was cut when a message has tool calls and only empty text deltas (`StreamDecoder.ChunkingInvariance`, `StreamDecoder.EmptyDeltaChangesTheMessage`).
- An abort does not always end the run `aborted`. Unless a provider uses the runner's own abort code, it does exactly when the signal was up at the start, or the last turn called the LLM and the last attempt of that call was stopped by the check between two stream events (`AgentRunProperties.RunIsAbortedIff`). An abort during a retry wait, or before a stream that fails without an event, ends the run `failed` (`AgentRunProperties.AbortCanEndAsFailure`).
- What the LLM is shown can hold a tool result without its call, exactly when pruning or compaction cuts through a round (`AgentRunProperties.LlmSeesPairedMessages`).
- Rate limits are overshot by up to the number of callers in flight minus one, and that bound is reached (`CostGuardSharpness.OvershootIsReached`). A budget is overspent by less than one call per caller that found it open and is not billed, and every smaller amount is reached (`CostGuardSharpness.BudgetOvershootIsSharp`); counting only the admitted callers is not enough (`CostGuardSharpness.CountingAdmittedIsNotEnough`).
- Cost summary: a client's total leaves out its records without an agent (`CostSummary.ClientTotalMissesAgentless`). `topModel` is the model of the oldest record that cost anything, although a comment says the costliest (`CostSummary.TopModelIsCostliestIff`, `CostSummary.TopModelCanBeTheCheapest`). A client's agent line keeps the tokens, average and model of its first record (`CostSummary.LineAverageIsStale`, `CostSummary.LineTopModelIsStale`). The agents listed under a project carry their spend over all projects (`CostSummary.AttachedCostIsGlobal`).
- A comment in `src/channels/inbound-processor.ts:315-317` says the event-bus path and the direct call cannot double-mark a reply. No send is ever marked twice, but one message is counted twice exactly when the paths choose different sends (`CampaignSendSteps.BothPathsMarkIff`). One after the other that means two eligible sends (`CampaignSends.CampaignDb.HandleOnBothPaths`); when one path marks between the other's lookups it means that the campaign has another send to the contact still `sent`, even one outside the window (`CampaignSendSteps.OverlapMarksTwoIff`, `CampaignSendSteps.OneMessageCountsTwice`).
- A conversion leaves a reply unmarked that comes in between its read and its transaction (`CampaignSendSteps.ConversionFlagsReplyIff`).
- A recorded conversion can be overwritten by a reply that was being marked, or by the campaign loop (`CampaignSendSteps.ConversionHoldsIff`).
- A campaign paused after its last status check is overwritten with `completed` (`CampaignRun.HaltSurvives`).
- The live reply tally and the metrics count `sent` differently (`CampaignMetrics.TallyAgainstMetrics`).
- Token-based pruning drops free messages when the first message uses the budget exactly (`MemoryManager.SurvivorsAreMaximal`), and keeps calls and results together exactly when in every round each tool message fits what newer messages left if and only if its call does (`MemoryManager.TokenPruningAndPairs`, `MemoryManager.TokenPruningCanOrphanAResult`). Turn-based pruning exceeds a limit below four, and splits a round unless both cuts are clean or the halves meet (`MemoryManager.TurnPruningRespectsLimit`, `MemoryManager.TurnPruningAndPairs`).
- Two MCP servers with one prefix lose tools to each other's disconnect; a server registered from the cache but not connected, or whose stale connection was dropped, cannot be disconnected (`McpManager.DisconnectKeepsExactIff`, `McpManager.DisconnectNeedsConnection`, `McpManager.StaleServerKeepsItsTools`).
- Invalidating an agent does not keep later lookups from showing an older version while a lookup that fetched it earlier is under way, and only then (`AgentRegistrySteps.InvalidationHoldsIff`, `AgentRegistrySteps.OutdatedAfterInvalidate`). Invalidating a project's adapters also evicts those of projects whose id continues it after a colon (`ChannelResolver.PrefixOfKey`).
- An unknown placeholder is not always left as it is: names inherited from `Object.prototype` are replaced (`Interpolation.EmptyVariablesAreIdentity`).

## Model

| member | source | states |
|---|---|---|
| Messages.ExtractRecoversTools | src/core/agent-runner.ts:881-895 | reading tool calls back out of an assembled assistant message gives exactly the collected ones, in order |
| Messages.BuiltMessageSaysAll | src/core/agent-runner.ts:773-783 | the assembled message says the fragments joined in order, and is plain text if and only if it carries no tool call |
| StreamDecoder.Decode | src/providers/anthropic.ts:145-206 | the transducer over three local variables yields, event by event, what the decoder specification says; an API error becomes an error event, another exception is thrown on; what a response then means is stated by `ResponseMeansItsBlocks` |
| StreamDecoder.CollectStream | src/core/agent-runner.ts:722-783 | the collecting loop returns the folded text pieces, tools, usage and stop reason; an abort, a stream error or a missing end event becomes the error that the fold gives |
| StreamDecoder.AbortCodeMeansCut | src/core/agent-runner.ts:728-740 | when the provider never uses the runner's abort code, collection ends with it if and only if the signal is up before the last event is read and no stream error came first |
| StreamDecoder.FailuresAreReported | src/core/agent-runner.ts:741-802 | the first stream error that is reached, or else the exception at the end of the stream, is returned: the system's own error as raised, any other as a provider error of status 502 |
| StreamDecoder.ResponseIsCollected | src/providers/anthropic.ts:145-206 | for every well-formed response, decoder plus collector yields the text fragments in order, one call per tool block, usage and stop reason |
| StreamDecoder.ResponseMeansItsBlocks | src/providers/anthropic.ts:145-206 | for every well-formed response, what is collected says the text blocks' fragments in order and has one use per tool block, with its id and name, and as input what the parser yields for its joined fragments (of an empty record for none), or an empty record if and only if the parser refuses; usage and stop reason are the response's |
| StreamDecoder.ChunkingInvariance | src/core/agent-runner.ts:722-783 | two fragmentations of the same content give the same message if and only if there is no tool call or both or neither carry a text delta |
| StreamDecoder.VisibleTextIsChunkIndependent | src/core/agent-runner.ts:722-783 | content with non-empty text is received the same way however it was cut |
| StreamDecoder.EmptyDeltaChangesTheMessage | src/core/agent-runner.ts:773-783 | one empty text delta before a tool call changes the assembled message |
| LlmCall.AttemptCall | src/core/agent-runner.ts:690-803 | one attempt adds `llm_request`, and `llm_response` exactly when the stream was collected, and returns the collected message or error; what they contain is stated by `CallIsTraced` and `AttemptAnswersResponse` |
| LlmCall.AttemptAnswersResponse | src/core/agent-runner.ts:690-803 | an attempt that receives a whole response answers with an assistant message that says what its text blocks say and asks for what its tool blocks ask for, and with its usage |
| LlmCall.ExecuteLLMCall | src/core/agent-runner.ts:805-859 | the retry and failover loop appends exactly the specified events and returns the specified result |
| LlmCall.FailOver | src/core/agent-runner.ts:839-859 | after the last primary attempt the fallback is tried once, exactly when there is one and the error allows it |
| LlmCall.CallAnswersResponse | src/core/agent-runner.ts:805-859 | the call answers with the first whole response that reaches it on the primary, whatever was retried before |
| LlmCall.CallAnswersFallback | src/core/agent-runner.ts:839-859 | with the primary's attempts used up, it answers with the whole response of the fallback |
| LlmCall.RetriedFailures | src/core/agent-runner.ts:865-876 | which failures are retried: server errors, rate limits and timeouts each under its own switch, an abort never |
| LlmCall.RetriesAreClamped | src/core/agent-runner.ts:805-816 | the number of retries is the configured one, kept between 0 and 3 |
| LlmCall.WaitsDouble | src/core/agent-runner.ts:816 | the wait starts at one second, doubles, and stays at eight seconds |
| LlmCall.CallGrammar | src/core/agent-runner.ts:805-876 | a call's events are llm_request (retry llm_request)^n, n at most min(maxRetries, 3), then nothing, a trailing retry (exactly on an aborted wait) or a failover attempt (exactly when retries are used up and a fallback exists); llm_response is last exactly on success |
| LlmCall.CallIsTraced | src/core/agent-runner.ts:805-876 | each event of a call: every attempt with its provider, every retry with its number, wait and cause, the failover with both providers, and the response with the tool count, usage and text of the answer |
| LlmCall.AttemptBound | src/core/agent-runner.ts:805-859 | one call makes between 1 and min(maxRetries, 3) + 2 attempts |
| LlmCall.AbortEndsTheCall | src/core/agent-runner.ts:728-740 | an attempt that ends in the abort error is the last thing the call does: no retry, no failover, and the abort is returned |
| LlmCall.AbortWhileWaitingIsReportedAsFailure | src/core/agent-runner.ts:829-834 | an abort noticed during a retry wait is returned as the provider's retryable error, never as an abort |
| AgentRunner.ExecuteTools | src/core/agent-runner.ts:437-580 | the tool loop appends a call event and its answer per tool, collects one tool message per answered call, stops at a throw, and marks the trace when approval is needed; what the messages and events contain is stated by `AgentDialogue` |
| AgentRunner.FitContext | src/core/agent-runner.ts:314-345 | the messages for the LLM are the fitted conversation, or its compacted form when fitting dropped something, compaction is enabled and a summary was had; a compaction event is added exactly then |
| AgentRunner.ExecuteTurn | src/core/agent-runner.ts:277-345 | one iteration of the main loop takes the run to exactly the specified next state: turn limit, budget gate, context fitting, compaction event, then the call with the fitted messages |
| AgentRunner.ExecuteCall | src/core/agent-runner.ts:361-600 | the LLM call of a turn, on the messages that fitting left, and its consequences on trace, tokens, cost, conversation and status |
| AgentRunner.MainLoop | src/core/agent-runner.ts:274-293 | the loop ends, in the state that the recursive specification gives |
| AgentRunner.Run | src/core/agent-runner.ts:105-657 | a whole run leaves the events, status, tokens, cost and turn count of the specified final state, and rejects exactly when something threw |
| AgentDialogue.LlmIsToldWhatTheToolsDid | src/core/agent-runner.ts:494-577 | the first call of a run is made on history and user message; each later one on the conversation before, the answer, and for each of its tool calls, in order, one message with that call's id and the tool's output, or its error marked as one |
| AgentDialogue.ToolsAreTraced | src/core/agent-runner.ts:437-580 | for every turn that went on, the trace holds one block with each tool call's id, name and input, followed at once by how it came out |
| AgentDialogue.RunEndsBecause | src/core/agent-runner.ts:274-657 | every turn before the last went on, and status, outcome and final event of the run show the first thing that stopped the last one: limits, budget, an error, an abort, a final answer, too many tools, a tool that threw, or an approval |
| AgentDialogue.MemoriesAreTraced | src/core/agent-runner.ts:245-270 | a run's trace opens with the number of retrieved memories if and only if it asked for memories and there were some |
| AgentDialogue.ShownAtEveryCall | src/core/agent-runner.ts:314-345 | at every call the LLM is shown the whole conversation when it fits; otherwise what fitting leaves, or a summary and the last four messages when compaction is on and succeeds |
| AgentDialogue.CompactionIsTraced | src/core/agent-runner.ts:314-345 | a turn records a compaction if and only if it shows the compacted form |
| AgentRunProperties.RunTerminatesWithinLimits | src/core/agent-runner.ts:274-293 | every run ends, never with status `running`, after at most maxTurns LLM calls and maxTurns * (min(maxRetries, 3) + 2) attempts |
| AgentRunProperties.ConversationIsPairedAtEveryCall | src/core/agent-runner.ts:414-587 | at every LLM call the conversation is the opening followed by complete rounds: each assistant message with one tool message per tool use, in order, with equal ids |
| AgentRunProperties.ConversationStaysWellPaired | src/core/agent-runner.ts:414-587 | on a well paired history, the conversation handed to context fitting is well paired at every LLM call |
| AgentRunProperties.LlmSeesPairedMessages | src/core/agent-runner.ts:314-345 | call i is shown exactly what fitting or compaction makes of its conversation, and that is well paired if and only if compaction's four kept messages do not start inside a round or, without compaction, fitting meets the condition of `MemoryManager.FittingAndPairs` |
| AgentRunProperties.TraceIsPaired | src/core/agent-runner.ts:437-580 | each `tool_call` is answered by the next event with its id, except one just before the final error; no LLM attempt follows an approval request |
| AgentRunProperties.ApprovalStatus | src/core/agent-runner.ts:455-480 | the run ends waiting for approval if and only if it finished and its trace holds an approval request |
| AgentRunProperties.TotalsAreConserved | src/core/agent-runner.ts:396-412 | tokens and cost of a finished run are the sums over its `llm_response` events; a rejected run can lack only the last one |
| AgentRunProperties.RunIsAbortedIff | src/core/agent-runner.ts:379-394 | unless a provider reports the runner's own abort code, a run ends `aborted` if and only if the signal was up at the start, or its last turn called the LLM and the last attempt of that call was cut by the abort check |
| AgentRunProperties.AbortCanEndAsFailure | src/core/agent-runner.ts:829-834 | two aborted runs that end `failed`: the signal goes up during a retry wait, or before a stream that fails without an event |
| Pairing.HeadIsPairedIffCleanCut | src/memory/memory-manager.ts:112-130 | the part of a well paired conversation before a cut is well paired if and only if the cut is not inside a round |
| Pairing.TailIsPairedIffCleanCut | src/memory/memory-manager.ts:112-130 | the same for the part after a cut |
| Pairing.CutsAndPairs | src/memory/memory-manager.ts:112-130 | with distinct tool ids, a head joined to a tail is well paired if and only if both cuts are clean or they are the same cut |
| Pairing.RoundsAreWellPaired | src/core/agent-runner.ts:414-587 | the rounds a run appends form a well paired conversation |
| MemoryManager.EstimateMessageTokens | src/memory/memory-manager.ts:93-104 | the loop over the parts computes the estimate: a quarter of the counted characters, rounded up |
| MemoryManager.Estimate | src/memory/memory-manager.ts:93-104 | the least number of tokens that covers the counted characters at four to a token; which characters count is stated by `EstimateIsAQuarter` |
| MemoryManager.EstimateIsAQuarter | src/memory/memory-manager.ts:93-104 | the estimate is a quarter, rounded up, of the length of a plain text, or of all texts, tool results and tool inputs of a part list written one after the other; media count nothing |
| MemoryManager.PruneTokenBased | src/memory/memory-manager.ts:137-172 | the backward loop returns the first message and, in their order, the greedily selected ones |
| MemoryManager.GreedyIsLatest | src/memory/memory-manager.ts:155-164 | the greedy selection fits, and no fitting selection that agrees with it on everything newer than a message keeps that message when it does not |
| MemoryManager.LatestFitIsUnique | src/memory/memory-manager.ts:155-164 | that property determines the selection |
| MemoryManager.LatestKeepsSuffix | src/memory/memory-manager.ts:155-164 | every whole run of newest messages that fits is kept |
| MemoryManager.LatestIsMaximal | src/memory/memory-manager.ts:155-164 | no dropped message fits the remaining budget |
| MemoryManager.SurvivorsAreLatest | src/memory/memory-manager.ts:144-164 | what pruning keeps next to the first message is the latest fitting selection if and only if the first message leaves budget, or leaves none and every other message costs something |
| MemoryManager.SurvivorsAreMaximal | src/memory/memory-manager.ts:144-164 | no dropped message fits, if and only if it is not the case that the first message uses the budget exactly and another one costs nothing |
| MemoryManager.PrunedFitsTheBudget | src/memory/memory-manager.ts:144-172 | the result is within the budget, by the estimate, if and only if the first message is |
| MemoryManager.PlainPruningFitsTheBudget | src/memory/memory-manager.ts:144-172 | for plain messages: the first message's tokens and a quarter of each other kept text are within the budget if and only if the first message is |
| MemoryManager.PrunedIsAtPositions | src/memory/memory-manager.ts:112-130 | the turn-based result is the head and tail positions of the history |
| MemoryManager.TurnPruningRepeatsNothing | src/memory/memory-manager.ts:112-130 | an over-long history is cut without repeating a message if and only if it holds two heads' worth |
| MemoryManager.TurnPruningRespectsLimit | src/memory/memory-manager.ts:112-130 | an over-long history comes out within maxTurns if and only if maxTurns is at least 4; then duplicate-free and of length 2 * floor(maxTurns / 2) |
| MemoryManager.TurnPruningAndPairs | src/memory/memory-manager.ts:112-130 | an over-long history with distinct tool ids comes out well paired if and only if neither cut is inside a round or head and tail meet; each half exactly when its own cut is clean |
| MemoryManager.FitToContextWindow | src/memory/memory-manager.ts:184-204 | a history within the window is returned as it is; otherwise the configured strategy is applied to it |
| MemoryManager.CompactionAndPairs | src/memory/memory-manager.ts:206-232 | a compacted conversation is well paired if and only if its four kept messages do not start inside a round |
| MemoryManager.TokenPruningAndPairs | src/memory/memory-manager.ts:155-164 | a well paired history with distinct tool ids comes out well paired if and only if in every round each tool message fits the budget that newer messages left exactly when its call does |
| MemoryManager.TokenPruningCanOrphanAResult | src/memory/memory-manager.ts:155-164 | a concrete history whose pruned form keeps a tool result and drops its call |
| MemoryManager.FittingAndPairs | src/memory/memory-manager.ts:184-204 | fitting keeps a well paired history well paired if and only if it fits the window or the configured strategy's own condition holds |
| RequestWindow.RequestWindow.GetRequestsLastMinute | src/cost/prisma-usage-store.ts:95-102 | after any pruning, the count over the kept timestamps is the count over everything ever recorded |
| RequestWindow.RequestWindow.GetRequestsLastHour | src/cost/prisma-usage-store.ts:104-111 | the same for the hour |
| RequestWindow.RequestWindow.RecordRequest | src/cost/prisma-usage-store.ts:113-117 | the full history grows by the request, and no kept timestamp is older than two hours |
| RequestWindow.RequestWindow.PruneTimestamps | src/cost/prisma-usage-store.ts:23-30 | pruning loses no history and leaves a first timestamp within two hours when there is one |
| RequestWindow.KeptWindowCounts | src/cost/prisma-usage-store.ts:23-30 | dropping timestamps before a window changes no count over it |
| CostGuard.RateLimitUnderInterleaving | src/cost/cost-guard.ts:139-175 | for any interleaving with at most k callers past the rate read and not recorded, every closed minute and hour window holds at most max + k - 1 requests |
| CostGuard.BudgetUnderInterleaving | src/cost/cost-guard.ts:139-219 | for any interleaving with at most k callers that found the budget open and are still checking, or admitted and not billed, each costing at most c, the spend stays below budget + k * c |
| CostGuard.SequentialLimits | src/core/agent-runner.ts:295-309 | one caller at a time keeps both rate limits and overspends a budget by less than one call |
| CostGuard.PreCheck | src/cost/cost-guard.ts:139-175 | uninterrupted, it does its four steps, admits exactly when both rates and both budgets are open (as the budget status reports them), records a request exactly then, and otherwise names the first limit reached with its value |
| CostGuard.PercentUsed | src/cost/cost-guard.ts:240-258 | the percentage reaches 100 exactly when the spend reaches the budget |
| CostGuard.StatusReportsBudgets | src/cost/cost-guard.ts:240-258 | the status reports the spends since midnight and since the first of the month, each against its own budget: over exactly when it is used up, with the percentage spent |
| CostGuard.InMemoryUsageStore.RecordRequest | src/cost/cost-guard.ts:269-352 | afterwards every window of the project that reaches back to now counts one request more, and no other count changes |
| CostGuard.InMemoryUsageStore.RecordUsage | src/cost/cost-guard.ts:269-352 | afterwards every spend of the project since now or earlier is higher by the cost, and no other spend changes |
| CostGuardSharpness.OvershootIsReached | src/cost/cost-guard.ts:139-175 | for every k and every pair of limits of at least 1 there is a run with at most k callers in flight whose minute and hour hold exactly the tighter limit + k - 1 requests |
| CostGuardSharpness.BudgetOvershootIsSharp | src/cost/cost-guard.ts:139-219 | for every k, c and positive shortfall up to the daily budget there is a run of calls of at most c, at most k of them in flight, that spends budget + k * c - shortfall, when the rate limits leave room for the calls |
| CostGuardSharpness.CountingAdmittedIsNotEnough | src/cost/cost-guard.ts:139-219 | a run with never more than one admitted call of at most 1.0 spends a whole call beyond its budget, because a second caller had read it before |
| CostSummary.FoldRecords | src/cost/prisma-usage-store.ts:138-235 | the single pass fills each map with exactly one bucket per key that occurs, holding its own records' cost, count and tokens; which records these are is stated by `SummaryGroupsRecords` |
| CostSummary.SummaryGroupsRecords | src/cost/prisma-usage-store.ts:138-235 | a model's, project's or agent's bucket exists exactly when some record names it, and holds the number and the summed cost of the records that do; a client's, those that name it and an agent; the total sums all records |
| CostSummary.LinesGroupRecords | src/cost/prisma-usage-store.ts:197-232 | a client's line for an agent stands for the records that name both |
| CostSummary.AgentCountsTokens | src/cost/prisma-usage-store.ts:173-195 | an agent's tokens and average are those of the records that name it |
| CostSummary.ChargeClient | src/cost/prisma-usage-store.ts:197-232 | a record with agent and client updates the client's bucket and one line of its nested agent list; the lines stay equal to the client's own records per agent |
| CostSummary.GetCostSummary | src/cost/prisma-usage-store.ts:119-317 | every list is sorted by cost, complete and exact; names and client budgets come from the database where it has them; each project lists the agents and clients its records name; the five costliest agents are a prefix of the agents |
| CostSummary.ReportNames | src/cost/prisma-usage-store.ts:140-292 | names, budgets and percentages come from the database where it has them, and from the first eight characters of the id otherwise; a budget of zero counts as none |
| CostSummary.GetAgentSpend | src/cost/prisma-usage-store.ts:320-348 | an agent's own cost, count and tokens, with average times count equal to the cost, and zeros when it has no records |
| CostSummary.SummaryConserves | src/cost/prisma-usage-store.ts:132-235 | the models and the projects each sum to the total cost and to the number of records; each client's agent lines sum to its cost and count |
| CostSummary.AgentsCoverTheTotal | src/cost/prisma-usage-store.ts:173-195 | the agents sum to the total cost if and only if every record without an agent was free |
| CostSummary.ClientTotalMissesAgentless | src/cost/prisma-usage-store.ts:197-232 | a client's total is the cost of all its records if and only if those without an agent were free |
| CostSummary.AttachedCostIsGlobal | src/cost/prisma-usage-store.ts:251-258 | the cost shown for an agent under a project is what it cost that project if and only if its records of other projects were free |
| CostSummary.TopModelIsOldestPaid | src/cost/prisma-usage-store.ts:190-193 | an agent's top model is the model of its oldest record that cost anything |
| CostSummary.TopModelIsCostliestIff | src/cost/prisma-usage-store.ts:190-193 | the top model has the greatest cost among the agent's models if and only if the model of its oldest paid record, if there is one, has |
| CostSummary.TopModelCanBeTheCheapest | src/cost/prisma-usage-store.ts:190-193 | 100.0 on one model and, longer ago, 1.0 on another: the second is the top model |
| CostSummary.LineAverageIsStale | src/cost/prisma-usage-store.ts:212-230 | for any records, a client's agent line shows the right average if and only if its first record cost the mean, and the right token counts if and only if its later records have none |
| CostSummary.LineTopModelIsStale | src/cost/prisma-usage-store.ts:212-230 | the line shows the model that the rule for agents would give if and only if the oldest paid record, if any, is on the first record's model |
| MessageDedup.InMemoryDedup.IsDuplicate | src/channels/message-dedup.ts:69-84 | true exactly when the key occurs among the last maxEntries accepted calls with accept time + ttl later than now; otherwise the call is accepted |
| MessageDedup.InMemoryDedup.EvictExpired | src/channels/message-dedup.ts:48-56 | removes every expired entry and nothing else of the accepted history |
| MessageDedup.InMemoryDedup.EvictOverflow | src/channels/message-dedup.ts:58-66 | drops oldest entries until maxEntries are left, keeping the map a suffix of the accepted history |
| MessageDedup.SuffixDecides | src/channels/message-dedup.ts:69-84 | a lookup in the unexpired suffix answers the question about the whole history |
| MessageDedup.NoDoubleProcessing | src/channels/message-dedup.ts:45-84 | a key is accepted twice only after its time to live or more than maxEntries later acceptances |
| MessageDedup.CallIsProcessedIff | src/channels/message-dedup.ts:69-84 | a call is processed if and only if its key is not among the last maxEntries processed ones within their time to live |
| ErrorTracker.ErrorTracker.EvictExpired | src/observability/error-tracker.ts:72-86 | the kept entries number all records of the key newer than the window |
| ErrorTracker.ErrorTracker.Record | src/observability/error-tracker.ts:89-138 | an alert fires exactly when the window holds the threshold and every earlier alert of the key is at least the cooldown old; two alerts of one key are at least the cooldown apart |
| ErrorTracker.ErrorTracker.GetCount | src/observability/error-tracker.ts:140-142 | the number of all records of the key since the reset that are newer than the window |
| ErrorTracker.ErrorTracker.Reset | src/observability/error-tracker.ts:144-147 | forgets history and alerts |
| AgentRegistry.Registry.Probe | src/agents/agent-registry.ts:51-56 | a hit is exactly the cached configuration while it is fresh, and is what the repository held at most one lifetime (and one fetch) ago |
| AgentRegistry.Registry.ProbeByName | src/agents/agent-registry.ts:71-88 | a hit is the first fresh entry, in insertion order, with the requested project and name, and is that recent; a miss means no fresh entry has them |
| AgentRegistry.Registry.GetAgent | src/agents/agent-registry.ts:51-69 | a lookup returns a configuration the repository held within the lifetime, or exactly what it holds when nothing fresh is cached |
| AgentRegistry.Registry.GetByName | src/agents/agent-registry.ts:71-100 | a result has the requested project and name; none means the repository has none |
| AgentRegistry.Registry.Refresh | src/agents/agent-registry.ts:107-114 | afterwards the cache holds what the repository held during the refresh, or nothing |
| AgentRegistry.Registry.Invalidate | src/agents/agent-registry.ts:116-122 | removes exactly that agent's entry |
| AgentRegistry.Registry.LookUpAfterInvalidate | src/agents/agent-registry.ts:51-122 | after an invalidation the next lookup by id reflects the repository |
| AgentRegistry.Registry.InvalidateDuringLookup | src/agents/agent-registry.ts:51-122 | the next lookup after an invalidation during a lookup reflects the repository if and only if the entry has expired by then or the repository holds what was fetched |
| AgentRegistrySteps.AnswersAreRecent | src/agents/agent-registry.ts:51-122 | under any interleaving of lookups and invalidations a lookup answers what the repository held less than one lifetime (and one fetch) ago, or holds now |
| AgentRegistrySteps.AnswerIsCurrentIff | src/agents/agent-registry.ts:51-69 | the answer is up to date if and only if nothing fresh is cached or the repository has not changed the agent since the fetch |
| AgentRegistrySteps.LookupFetchesIff | src/agents/agent-registry.ts:51-100 | a lookup by id or by name goes to the repository if and only if no fresh entry answers it |
| AgentRegistrySteps.InvalidationHoldsIff | src/agents/agent-registry.ts:116-122 | after an invalidation no run ever shows an older version if and only if no lookup that fetched the agent earlier is under way, or entries never live |
| AgentRegistrySteps.OutdatedAfterInvalidate | src/agents/agent-registry.ts:51-122 | a repository and a run in which a lookup after the invalidation answers the version from before the change |
| ChannelResolver.KeyIsUnique | src/channels/channel-resolver.ts:72-74 | a cache key belongs to one project and provider |
| ChannelResolver.AdapterNeedsActiveIntegration | src/channels/channel-resolver.ts:226-266 | there is an adapter exactly when the project has an active integration for the provider whose secrets can be read, and it carries them |
| ChannelResolver.PrefixOfKey | src/channels/channel-resolver.ts:352-358 | the eviction prefix fits the keys of the project and of projects whose id continues it after a colon, and no others |
| ChannelResolver.Resolver.ResolveAdapter | src/channels/channel-resolver.ts:226-266 | an adapter is what database and secrets yielded at most one lifetime (and one read) ago, or yield now when none is cached |
| ChannelResolver.Resolver.Invalidate | src/channels/channel-resolver.ts:352-358 | evicts exactly the entries whose key starts with the project id and a colon, keeping the others in order |
| ChannelResolver.Resolver.LookUpAfterInvalidate | src/channels/channel-resolver.ts:352-358 | after an invalidation the project's adapters are looked up afresh; those of unrelated projects are still served from the cache |
| ChannelResolver.Send | src/channels/channel-resolver.ts:288-350 | at most three attempts; success exactly when one of them succeeds, with its result; otherwise the last error, after waits of one and two seconds |
| McpManager.ReachableIsIndexed | src/mcp/mcp-manager.ts:125-287 | after any interleaving, tools and schemas have the same keys, agree, and each tool is listed by the server that owns it |
| McpManager.ReachableIndexIsExact | src/mcp/mcp-manager.ts:125-287 | with colon-free prefixes each owned by one server, every reachable state lists exactly the tools it has, and servers list disjoint ids |
| McpManager.IdDeterminesPrefix | src/mcp/mcp-tool-adapter.ts:44-45 | prefix and tool name can be read back from an id with a colon-free prefix |
| McpManager.DisconnectRemovesOwnTools | src/mcp/mcp-manager.ts:253-265 | disconnecting a connected server removes exactly its own tools |
| McpManager.DisconnectKeepsExactIff | src/mcp/mcp-manager.ts:253-265 | a disconnect keeps the index exact if and only if no other server lists one of the removed ids |
| McpManager.SharedPrefixLosesATool | src/mcp/mcp-manager.ts:253-265 | with a shared prefix, disconnecting one server removes a tool that the other still lists |
| McpManager.DisconnectNeedsConnection | src/mcp/mcp-manager.ts:253-256 | a disconnect leaves the tools alone if and only if the server is not connected or lists no registered tool |
| McpManager.PrepareRestoresAfterDisconnect | src/mcp/mcp-manager.ts:197-250 | preparing a known server after its disconnect restores its tools, schemas and ids with no connection |
| McpManager.PrepareRestoresLater | src/mcp/mcp-manager.ts:197-250 | with prefixes owned by one server each, the same after any steps of other servers in between: the registry is as if the disconnect had not happened |
| McpManager.Manager.RegisterToolsFromInfo | src/mcp/mcp-manager.ts:125-146 | updates the three maps as specified and returns the registered ids |
| McpManager.Manager.PrepareTools | src/mcp/mcp-manager.ts:197-250 | run alone, it does the cached registrations and then one connection per unseen server, and returns the ids of both, all registered |
| McpManager.PrepareConnectsToUnknown | src/mcp/mcp-manager.ts:197-250 | preparing connects exactly to the servers without a known tool list that can be reached, and afterwards knows the lists of those that gave one |
| McpManager.Manager.Disconnect | src/mcp/mcp-manager.ts:253-274 | run alone, it drops a connected server's ids from tools and schemas and then its connection; an unconnected server is left alone |
| McpManager.PrepareAfterDisconnectAll | src/mcp/mcp-manager.ts:276-287 | after disconnecting all, preparing servers with a cached tool list registers exactly their cached tools without connecting, and the index stays consistent |
| McpManager.Manager.EnsureConnected | src/mcp/mcp-manager.ts:86-118 | reuses a connection that answers, drops a stale one, and reconnects exactly when the configuration is known and connecting works |
| McpManager.StaleServerKeepsItsTools | src/mcp/mcp-manager.ts:86-118 | dropping a stale connection leaves the server's tools, and a disconnect after it leaves them too |
| VariantSelection.SeededRandom | src/campaigns/ab-test-engine.ts:19-28 | the shift-subtract-truncate loop computes the signed 32-bit integer congruent to the base-31 polynomial of the seed, reduced to a fraction in [0, 1) |
| VariantSelection.HashStep | src/campaigns/ab-test-engine.ts:21-25 | one round is 31 * hash + c, wrapped to 32 bits |
| VariantSelection.PolynomialOfParts | src/campaigns/ab-test-engine.ts:19-28 | the polynomial weighs each code unit with the power of 31 given by its distance from the end of the seed |
| VariantSelection.SelectVariant | src/campaigns/ab-test-engine.ts:37-62 | the first variant whose cumulative weight exceeds the percentage, or the last; a single variant always; an error for none |
| VariantSelection.SelectionIsProportional | src/campaigns/ab-test-engine.ts:37-62 | for two or more whole percentages summing to 100, exactly 10000 * w of the million residues select a variant of weight w, and the fallback never decides |
| WinnerCalculation.ChiSquareClosedForm | src/campaigns/ab-test-engine.ts:76-104 | with positive margins the four-term sum is N (ad - bc)^2 over the product of the margins |
| WinnerCalculation.ChiSquareRange | src/campaigns/ab-test-engine.ts:76-104 | with positive margins the statistic lies in [0, N] and is 0 if and only if the reply rates are equal |
| WinnerCalculation.ChiSquareSymmetric | src/campaigns/ab-test-engine.ts:76-104 | it does not depend on the order of the two variants |
| WinnerCalculation.PositiveMeansDifferentRates | src/campaigns/ab-test-engine.ts:76-104 | for all counts, the statistic is positive if and only if both variants were sent and their reply rates differ |
| WinnerCalculation.WinnerBeatsEveryOther | src/campaigns/ab-test-engine.ts:107-140 | a declared winner has a strictly higher reply rate than every other variant |
| WinnerCalculation.WinnerCriterion | src/campaigns/ab-test-engine.ts:107-140 | the best variant wins if and only if its statistic against the runner-up exceeds 3.84, with confidence 0.99 beyond 6.63 and 0.95 otherwise |
| WinnerCalculation.WinnerIgnoresOrder | src/campaigns/ab-test-engine.ts:107-140 | with distinct rates the outcome does not depend on the order of the list |
| StableSort.SortDescSorts | src/campaigns/ab-test-engine.ts:115-117 | the sort orders descending and keeps the elements |
| StableSort.SortDescIsStable | src/campaigns/ab-test-engine.ts:115-117 | equal keys keep their order |
| CampaignRun.CampaignTables.SendOne | src/campaigns/campaign-runner.ts:479-549 | one reachable contact gets one row, queued and then sent or failed with the error, and one message with the chosen variant's interpolated text |
| CampaignRun.CampaignTables.SendToAll | src/campaigns/campaign-runner.ts:438-562 | the loop handles contacts up to the first checkpoint that sees a pause or cancellation, with rows, messages and counters as specified |
| CampaignRun.CampaignTables.ExecuteCampaign | src/campaigns/campaign-runner.ts:378-601 | only an active campaign with a resolved audience runs; a refusal changes nothing; otherwise rows, counters and final status are as specified |
| CampaignRun.RunConservation | src/campaigns/campaign-runner.ts:438-562 | sent + failed + skipped equals the contacts handled; one row and one message per reachable contact; each row sent or failed, none queued |
| CampaignRun.EachContactGetsItsMessage | src/campaigns/campaign-runner.ts:465-549 | every handled contact with a non-empty address on the channel gets one message there, with its own fields in the template its id draws, and a row with the same variant that records how the send came out |
| CampaignRun.NoAddressNoMessage | src/campaigns/campaign-runner.ts:465-474 | a contact without an address on the channel is counted as skipped and gets no message |
| CampaignRun.NoContactTwice | src/campaigns/campaign-runner.ts:438-562 | an audience without duplicates is sent to without duplicates |
| CampaignRun.HaltTakesEffect | src/campaigns/campaign-runner.ts:440-461 | a pause or cancellation after p contacts stops the run at the next multiple of ten, at most ten contacts later |
| CampaignRun.HaltSurvives | src/campaigns/campaign-runner.ts:578-587 | the operator's status survives the run if and only if a checkpoint still follows it; otherwise it becomes completed |
| CampaignRun.UndisturbedRunCompletes | src/campaigns/campaign-runner.ts:438-587 | without a pause or cancellation every contact is handled |
| CampaignSends.CampaignDb.MarkCampaignReply | src/campaigns/campaign-tracker.ts:31-92 | marks a latest send of the campaign to the contact that is still sent, and adds one reply; nothing changes when there is none |
| CampaignSends.CampaignDb.MarkConversion | src/campaigns/campaign-tracker.ts:101-128 | marks a send converted, and its reply if it has one, keeping the note unless a new one is given |
| CampaignSends.CampaignDb.HandleInbound | src/campaigns/reply-tracker.ts:69-95 | an inbound message marks exactly one eligible send, a latest one, or none if none is eligible; the windowed and the per-campaign lookup agree |
| CampaignSends.CampaignDb.HandleOnBothPaths | src/channels/inbound-processor.ts:315-345 | handling one message on both paths marks a second send if and only if two were eligible |
| CampaignSends.CampaignDb.LatestIsUnique | src/campaigns/reply-tracker.ts:76-84 | with distinct send times there is only one latest send to choose |
| CampaignSends.CampaignDb.CreateQueued | src/campaigns/campaign-runner.ts:490-498 | adds a queued row and keeps the reply lifecycle: at most one reply per send, none while sent |
| CampaignSends.CampaignDb.FinishSend | src/campaigns/campaign-runner.ts:523-538 | records the outcome of a queued row and keeps the reply lifecycle |
| CampaignSendSteps.ReachableKeepsInv | src/campaigns/campaign-tracker.ts:31-128 | under any interleaving of handlings, conversions and a sending campaign, a send has at most one reply, a replied send has one, none is still `sent` with one, and each reply belongs to one handling |
| CampaignSendSteps.EveryChosenSendIsAnsweredOnce | src/campaigns/campaign-tracker.ts:38-71 | once all handlings have ended, exactly the sends that some handling chose have a reply, and each was marked by exactly one |
| CampaignSendSteps.BothPathsMarkIff | src/channels/inbound-processor.ts:315-345 | two handlings of one message, however they overlap, leave two replies if and only if they chose different sends |
| CampaignSendSteps.ChoiceInWindowIff | src/campaigns/reply-tracker.ts:69-95 | the second lookup chooses a send of the window if and only if the campaign still has one there; it has while the send that the first lookup found is `sent` |
| CampaignSendSteps.OverlapMarksTwoIff | src/campaigns/reply-tracker.ts:69-95 | a handling whose two lookups surround the other's transaction marks a second send if and only if the found send's campaign has another one to the contact that is still `sent`, inside the window or not |
| CampaignSendSteps.OneMessageCountsTwice | src/channels/inbound-processor.ts:315-345 | a run from empty tables in which one message with a single eligible send leaves two replies |
| CampaignSendSteps.ConversionHoldsIff | src/campaigns/campaign-tracker.ts:101-128 | no later run overwrites a converted status if and only if the campaign loop has finished with the row and the send has its reply or no handling has chosen it |
| CampaignSendSteps.ConversionFlagsReplyIff | src/campaigns/campaign-tracker.ts:101-128 | whatever happens between its read and its transaction, a conversion marks the send, and marks its reply if and only if there was one at the read |
| CampaignMetrics.GetCampaignMetrics | src/campaigns/campaign-tracker.ts:138-222 | the counters, rates and rounded mean response time over all rows; days strictly increasing, one per day that occurs, each with its own rows' counts, summing to the totals |
| CampaignMetrics.CountSends | src/campaigns/campaign-tracker.ts:162-205 | the single pass counts every class of rows and books each row under its day |
| CampaignMetrics.DayShowsItsRows | src/campaigns/campaign-tracker.ts:162-205 | a day shows the sent, replied and converted counts of the rows sent, or if not sent created, within its 24 hours, and appears when there is one |
| CampaignMetrics.ResponsesOfAnsweredRows | src/campaigns/campaign-tracker.ts:162-205 | the mean response time is taken over exactly the rows replied to at or after the time they were sent |
| CampaignMetrics.MetricsConservation | src/campaigns/campaign-tracker.ts:162-205 | converted <= replied <= delivered <= sent, sent + failed at most the rows, and sent is made of its parts |
| CampaignMetrics.ProgressTally | src/campaigns/reply-tracker.ts:106-122 | the live tally counts sent and replied rows, but neither delivered nor unsubscribed ones, as sent |
| CampaignMetrics.TallyAgainstMetrics | src/campaigns/reply-tracker.ts:106-122 | tally and metrics agree on sent if and only if no row is delivered or unsubscribed |
| Interpolation.ScanSegments | src/prompts/prompt-builder.ts:57-65 | scanning splits a template into characters and placeholders whose raw text is the template, placeholders leftmost first |
| Interpolation.SegmentationIsUnique | src/prompts/prompt-builder.ts:57-65 | there is only one leftmost segmentation |
| Interpolation.MatchMeansPlaceholder | src/prompts/prompt-builder.ts:62 | the matcher succeeds exactly where a placeholder starts |
| Interpolation.EachPlaceholderIsReplacedOnce | src/prompts/prompt-builder.ts:61-64 | wherever a placeholder occurs it becomes its value, or stays; the text before and after is treated on its own, so a value is never rescanned |
| Interpolation.UnknownPlaceholdersStay | src/prompts/prompt-builder.ts:61-64 | a template of unknown placeholders is returned unchanged |
| Interpolation.EmptyVariablesAreIdentity | src/prompts/prompt-builder.ts:61-64 | with no variables, interpolation is the identity on every template if and only if nothing is inherited under a word name |
| Interpolation.InheritedNameIsReplaced | src/prompts/prompt-builder.ts:63 | the placeholder `constructor` is replaced although nobody supplied it |
| Interpolation.ContactSwitchIsSubstitution | src/campaigns/campaign-runner.ts:119-134 | the campaign's switch over contact fields is the prompt substitution with four variables, on templates that name nothing inherited |

## Left out

- Prisma and SQL, Redis, HTTP routes, WebSocket, channel adapters, MCP transports, LLM SDK calls and media fetching: arbitrary functions or tables here.
- Logging, stream events to the client, notifier text, progress events of the campaign loop and budget alerts: they change no modelled state.
- Floating-point rounding: costs, rates and weights are exact.
- `AgentRunner`: the system prompt and the formatting of tools for the provider are not modelled; the price of a usage is one arbitrary function.
- `CostGuard`: `preCheckAgent` reads the summary that `CostSummary.GetAgentSpend` models and has no state of its own; prices per model are not modelled.
- `getClientSpend` and the date filter of the cost summary's query: the records are an argument.
- CampaignSends.CampaignDb.HandleInbound: states calls that run one after the other; `CampaignSendSteps` lets them overlap.
- `CampaignSendSteps`: of a reply row, only its send, its handling and its converted flag; the routes that mark a send delivered or unsubscribed are not steps.
- CampaignRun.CampaignTables.ExecuteCampaign: database writes succeed; an update that throws after `sent++` would also count as failed.
- CampaignMetrics.GetCampaignMetrics: a day is a number, so sorting by day stands for sorting ISO date strings, which agrees for four-digit years.
- `getVariantMetrics` and `checkAndSelectWinner` (`src/campaigns/ab-test-engine.ts:148-250`): the replies of a variant are never counted there, so `calculateWinner` is modelled over arbitrary metrics.
- VariantSelection.SelectionIsProportional: counts residues; it does not say that contact ids hash evenly to them.
- AgentRegistry.Registry.GetAgent: models one lookup without interruption; `AgentRegistrySteps` lets any number of them overlap.
- ChannelResolver.Resolver.ResolveAdapter: models one lookup without interruption, so an eviction during a lookup is not covered; how each provider's adapter is built from its secrets is one arbitrary function.
- Audience resolution and the import of contacts from MCP servers: the audience is an argument.
- MemoryManager.PrunedFitsTheBudget: the budget is met by the estimate, which is what the code uses; the provider's counter may disagree. A string's length is its number of characters, not of UTF-16 units.
- `connectAll` of the MCP manager: its segments are steps of `McpManager`, but the call itself is not a method here.
- `storeMemory`, `retrieveMemories` and the summarizer of `compact`: external calls.
- `buildPrompt` beyond `interpolate`: concatenation of sections.
- `contact-scorer.ts`, `pagination.ts`, `openclaw-task-registry.ts`, `agent-comms.ts`, `agent-role-shim.ts`, `handoff.ts`, `metrics.ts`: scoring, paging, task and message queues, escalation rules and counters, none of which the modelled parts use.
- Authentication and scope checks.
