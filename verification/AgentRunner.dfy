/**
 The agent execution loop (src/core/agent-runner.ts, `createAgentRunner().run`).

 Everything the loop awaits is an arbitrary `World`: the cost guard, context
 fitting, the LLM, usage recording and the tools may return or throw anything
 at any turn. The loop mutates an `ExecutionTrace` and a conversation; it is
 proved equal to a step function on run states, and the properties of whole
 runs are proved about that function.
 */
module AgentRunner {
  import opened Wrappers
  import opened Messages
  import opened StreamDecoder
  import opened LlmCall
  import MemoryManager

  datatype PreCheckOutcome = WithinLimits | OverBudget(code: string) | PreCheckThrows(error: Thrown)

  datatype SummaryOutcome = Summarized(text: string) | SummaryThrows

  /** What fitting the conversation meets: the provider's token counter, the summarizer, or an error. */
  datatype ContextScript = ContextScript(count: MemoryManager.TokenCounter, summary: SummaryOutcome,
                                         thrown: Option<Thrown>)

  datatype ToolOutcome =
    | Executed(output: Json, success: bool)
    | ToolFailed(message: string)
    | NeedsApproval(approvalId: string)
    | ToolThrows(error: Thrown)

  datatype MemoryOutcome = Retrieved(count: nat) | RetrievalThrows(error: Thrown)

  /** The environment of one run, indexed by turn number (and by position for tools). */
  datatype World = World(
    memories: MemoryOutcome,
    preCheck: nat -> PreCheckOutcome,
    context: nat -> ContextScript,
    call: nat -> CallWorld,
    recordUsage: nat -> Option<Thrown>,
    tool: (nat, nat) -> ToolOutcome)

  datatype Config = Config(maxTurns: int, maxToolCallsPerTurn: int, window: MemoryManager.Window,
                           compactionEnabled: bool, failover: FailoverConfig, price: Usage -> real)

  datatype Request = Request(history: seq<Message>, userMessage: Option<Message>, queriesMemory: bool,
                             abortedAtStart: bool)

  datatype Phase = Looping | Stopped | Threw(error: Thrown)

  /** The conversation as it stood at an LLM call, and the messages the LLM was shown of it. */
  datatype LlmInput = LlmInput(conversation: seq<Message>, shown: seq<Message>)

  datatype RunState = RunState(turn: nat, status: Status, events: seq<TraceEvent>, conversation: seq<Message>,
                               calls: seq<LlmInput>, tokens: nat, cost: real, phase: Phase)

  datatype RunOutcome = Finished | Rejected(error: NexusError)

  // ---------------------------------------------------------- specification

  function Opening(req: Request): seq<Message> {
    req.history + (if req.userMessage.Some? then [req.userMessage.value] else [])
  }

  function CallWorldAt(w: World, cfg: Config, turn: nat): CallWorld {
    w.call(turn).(config := cfg.failover)
  }

  function ToolMessage(id: string, content: string, isError: bool): Message {
    Message(Tool, Parts([ToolResultPart(id, content, isError)]))
  }

  datatype ToolRun = ToolRun(events: seq<TraceEvent>, results: seq<Message>, approvalPending: bool,
                             thrown: Option<Thrown>)

  /** The trace event that answers a tool call. */
  function AnswerEvent(use: ToolUse, outcome: ToolOutcome): TraceEvent
    requires !outcome.ToolThrows?
  {
    match outcome
    case NeedsApproval(approvalId) => ApprovalRequested(use.id, approvalId)
    case ToolFailed(_) => LlmCall.ToolResult(use.id, false)
    case Executed(_, success) => LlmCall.ToolResult(use.id, success)
  }

  /** The tool message that answers a tool call; a call awaiting approval gets none. */
  function Reply(use: ToolUse, outcome: ToolOutcome): seq<Message>
    requires !outcome.ToolThrows?
  {
    match outcome
    case NeedsApproval(_) => []
    case ToolFailed(message) => [ToolMessage(use.id, "Error: " + message, true)]
    case Executed(output, _) => [ToolMessage(use.id, output, false)]
  }

  function CallEvent(use: ToolUse): TraceEvent {
    ToolCall(use.id, use.name, use.input)
  }

  /** The first `n` tool calls of a turn, one after the other, up to a throw. */
  function RunTools(w: World, turn: nat, uses: seq<ToolUse>, n: nat): ToolRun
    requires n <= |uses|
  {
    if n == 0 then ToolRun([], [], false, None)
    else
      var before := RunTools(w, turn, uses, n - 1);
      var outcome := w.tool(turn, n - 1);
      if before.thrown.Some? then before
      else if outcome.ToolThrows? then
        before.(events := before.events + [CallEvent(uses[n - 1])], thrown := Some(outcome.error))
      else
        ToolRun(before.events + [CallEvent(uses[n - 1]), AnswerEvent(uses[n - 1], outcome)],
                before.results + Reply(uses[n - 1], outcome),
                before.approvalPending || outcome.NeedsApproval?,
                None)
  }

  lemma {:induction false} ThrowStopsTheTools(w: World, turn: nat, uses: seq<ToolUse>, n: nat, m: nat)
    requires n <= m <= |uses| && RunTools(w, turn, uses, n).thrown.Some?
    ensures RunTools(w, turn, uses, m) == RunTools(w, turn, uses, n)
    decreases m
  {
    if n < m {
      ThrowStopsTheTools(w, turn, uses, n, m - 1);
    }
  }

  function Fitted(w: World, cfg: Config, turn: nat, conversation: seq<Message>): seq<Message> {
    MemoryManager.FittedTo(conversation, w.context(turn).count, cfg.window)
  }

  /** The conversation is compacted when fitting dropped something and a summary can be had. */
  predicate Compacts(w: World, cfg: Config, turn: nat, conversation: seq<Message>) {
    && |Fitted(w, cfg, turn, conversation)| < |conversation|
    && cfg.compactionEnabled
    && w.context(turn).summary.Summarized?
  }

  /** What the LLM is shown of a conversation. */
  function Shown(w: World, cfg: Config, turn: nat, conversation: seq<Message>): seq<Message> {
    if Compacts(w, cfg, turn, conversation) then MemoryManager.Compact(conversation, w.context(turn).summary.text)
    else Fitted(w, cfg, turn, conversation)
  }

  function CompactionEvents(w: World, cfg: Config, turn: nat, conversation: seq<Message>): seq<TraceEvent> {
    if Compacts(w, cfg, turn, conversation) then [Compaction(|conversation|)] else []
  }

  /** The part of a turn that follows an answered LLM call. */
  function AfterAnswer(w: World, cfg: Config, s: RunState, message: Message, usage: Usage): RunState {
    if w.recordUsage(s.turn).Some? then s.(phase := Threw(w.recordUsage(s.turn).value))
    else
      var s1 := s.(tokens := s.tokens + usage.inputTokens + usage.outputTokens,
                   cost := s.cost + cfg.price(usage),
                   conversation := s.conversation + [message]);
      var uses := ExtractToolCalls(message);
      if |uses| == 0 then s1.(status := Completed, phase := Stopped)
      else if |uses| > cfg.maxToolCallsPerTurn then
        s1.(status := Failed, events := s1.events + [ErrorEvent("max_tool_calls_exceeded")], phase := Stopped)
      else
        var run := RunTools(w, s.turn, uses, |uses|);
        var s2 := s1.(events := s1.events + run.events,
                      status := if run.approvalPending then HumanApprovalPending else s1.status);
        if run.thrown.Some? then s2.(phase := Threw(run.thrown.value))
        else if run.approvalPending then s2.(phase := Stopped)
        else s2.(conversation := s2.conversation + run.results)
  }

  function AfterContext(w: World, cfg: Config, s: RunState): RunState {
    var cw := CallWorldAt(w, cfg, s.turn);
    var input := LlmInput(s.conversation, Shown(w, cfg, s.turn, s.conversation));
    var s1 := s.(events := s.events + CallEvents(cw), calls := s.calls + [input]);
    match ResultOf(cw)
    case CallFailed(error) =>
      if error.code == "ABORTED" then s1.(status := AbortedByUser, phase := Stopped)
      else s1.(status := Failed, events := s1.events + [ErrorEvent(error.code)], phase := Stopped)
    case Answered(message, usage) => AfterAnswer(w, cfg, s1, message, usage)
  }

  /** One iteration of the main loop. */
  function Turn(w: World, cfg: Config, s: RunState): RunState {
    var s1 := s.(turn := s.turn + 1);
    if s1.turn > cfg.maxTurns then
      s1.(status := MaxTurns, events := s1.events + [ErrorEvent("max_turns_exceeded")], phase := Stopped)
    else
      match w.preCheck(s1.turn)
      case OverBudget(code) =>
        s1.(status := BudgetExceeded, events := s1.events + [CostAlert(code)], phase := Stopped)
      case PreCheckThrows(t) => s1.(phase := Threw(t))
      case WithinLimits =>
        if w.context(s1.turn).thrown.Some? then s1.(phase := Threw(w.context(s1.turn).thrown.value))
        else AfterContext(w, cfg, s1.(events := s1.events + CompactionEvents(w, cfg, s1.turn, s1.conversation)))
  }

  /** The main loop from any state; every turn that goes on uses up one of the allowed turns. */
  function Loop(w: World, cfg: Config, s: RunState): RunState
    decreases cfg.maxTurns - s.turn
  {
    if s.phase.Looping? && s.turn <= cfg.maxTurns then Loop(w, cfg, Turn(w, cfg, s))
    else if s.phase.Looping? then Turn(w, cfg, s)
    else s
  }

  function InitialState(req: Request): RunState {
    RunState(0, Running, [], Opening(req), [], 0, 0.0, Looping)
  }

  /** The state in which the main loop is entered, or the run stopped before it. */
  function Entry(w: World, req: Request): RunState {
    var s := InitialState(req);
    if req.abortedAtStart then s.(status := AbortedByUser, phase := Stopped)
    else if !req.queriesMemory then s
    else
      match w.memories
      case RetrievalThrows(t) => s.(phase := Threw(t))
      case Retrieved(n) => if n > 0 then s.(events := [MemoryRetrieval(n)]) else s
  }

  function AsRunError(t: Thrown): NexusError {
    match t
    case OwnError(e) => e
    case ForeignError => NexusError("AGENT_RUN_FAILED", 500)
  }

  /** The `catch` around the whole run. */
  function Settle(s: RunState): RunState {
    if s.phase.Threw? then s.(status := Failed, events := s.events + [ErrorEvent(AsRunError(s.phase.error).code)])
    else s
  }

  function FinalState(w: World, cfg: Config, req: Request): RunState {
    Settle(Loop(w, cfg, Entry(w, req)))
  }

  function OutcomeOf(s: RunState): RunOutcome {
    if s.phase.Threw? then Rejected(AsRunError(s.phase.error)) else Finished
  }

  // --------------------------------------------------------- implementation

  method ExecuteTools(trace: ExecutionTrace, w: World, turn: nat, uses: seq<ToolUse>)
    returns (toolResults: seq<Message>, approvalPending: bool, thrown: Option<Thrown>)
    modifies trace`events, trace`status
    ensures var run := RunTools(w, turn, uses, |uses|);
            && trace.events == old(trace.events) + run.events
            && toolResults == run.results
            && approvalPending == run.approvalPending
            && thrown == run.thrown
            && trace.status == if run.approvalPending then HumanApprovalPending else old(trace.status)
  {
    ghost var base := trace.events;
    toolResults, approvalPending, thrown := [], false, None;
    var i := 0;
    while i < |uses|
      invariant 0 <= i <= |uses|
      invariant var run := RunTools(w, turn, uses, i);
                && trace.events == base + run.events
                && toolResults == run.results
                && approvalPending == run.approvalPending
                && run.thrown.None?
      invariant trace.status == if approvalPending then HumanApprovalPending else old(trace.status)
    {
      var use := uses[i];
      ghost var done := RunTools(w, turn, uses, i).events;
      trace.AddTraceEvent(ToolCall(use.id, use.name, use.input));
      assert trace.events == base + (done + [CallEvent(use)]);
      match w.tool(turn, i) {
        case ToolThrows(t) =>
          thrown := Some(t);
          ThrowStopsTheTools(w, turn, uses, i + 1, |uses|);
          return;
        case NeedsApproval(approvalId) =>
          approvalPending := true;
          trace.status := HumanApprovalPending;
          trace.AddTraceEvent(ApprovalRequested(use.id, approvalId));
        case ToolFailed(message) =>
          trace.AddTraceEvent(LlmCall.ToolResult(use.id, false));
          toolResults := toolResults + [ToolMessage(use.id, "Error: " + message, true)];
        case Executed(output, success) =>
          trace.AddTraceEvent(LlmCall.ToolResult(use.id, success));
          toolResults := toolResults + [ToolMessage(use.id, output, false)];
      }
      assert trace.events == base + (done + [CallEvent(use), AnswerEvent(use, w.tool(turn, i))]);
      i := i + 1;
    }
  }

  /** The trace and the local variables of the run, read back as a run state. */
  ghost function StateOf(trace: ExecutionTrace, turn: nat, conversation: seq<Message>,
                         calls: seq<LlmInput>, phase: Phase): RunState
    reads trace
  {
    RunState(turn, trace.status, trace.events, conversation, calls, trace.totalTokensUsed, trace.totalCostUSD, phase)
  }

  /** The body of the main loop; `calls` only records what each LLM call was given. */
  method ExecuteTurn(trace: ExecutionTrace, w: World, cfg: Config, turnCount: nat, conversation: seq<Message>,
                     ghost calls: seq<LlmInput>)
    returns (turnCount': nat, conversation': seq<Message>, phase: Phase, ghost calls': seq<LlmInput>)
    modifies trace`events, trace`status, trace`totalTokensUsed, trace`totalCostUSD
    ensures StateOf(trace, turnCount', conversation', calls', phase)
         == Turn(w, cfg, old(StateOf(trace, turnCount, conversation, calls, Looping)))
  {
    turnCount', conversation', phase, calls' := turnCount + 1, conversation, Stopped, calls;
    if turnCount' > cfg.maxTurns {
      trace.status := MaxTurns;
      trace.AddTraceEvent(ErrorEvent("max_turns_exceeded"));
      return;
    }
    match w.preCheck(turnCount') {
      case OverBudget(code) =>
        trace.status := BudgetExceeded;
        trace.AddTraceEvent(CostAlert(code));
        return;
      case PreCheckThrows(t) =>
        phase := Threw(t);
        return;
      case WithinLimits =>
    }
    var script := w.context(turnCount');
    if script.thrown.Some? {
      phase := Threw(script.thrown.value);
      return;
    }
    var fittedMessages := FitContext(trace, w, cfg, turnCount', conversation);
    phase, conversation', calls' := ExecuteCall(trace, w, cfg, turnCount', conversation, fittedMessages, calls);
  }

  /** Fits the conversation, and replaces the pruned messages by a compacted form when there is one. */
  method FitContext(trace: ExecutionTrace, w: World, cfg: Config, turn: nat, conversation: seq<Message>)
    returns (fittedMessages: seq<Message>)
    modifies trace`events
    ensures fittedMessages == Shown(w, cfg, turn, conversation)
    ensures trace.events == old(trace.events) + CompactionEvents(w, cfg, turn, conversation)
  {
    var script := w.context(turn);
    fittedMessages := MemoryManager.FitToContextWindow(conversation, script.count, cfg.window);
    if |fittedMessages| < |conversation| && cfg.compactionEnabled {
      match script.summary {
        case Summarized(text) =>
          var compactedMessages := MemoryManager.Compact(conversation, text);
          if |compactedMessages| > 0 {
            fittedMessages := compactedMessages;
            trace.AddTraceEvent(Compaction(|conversation|));
          }
        case SummaryThrows =>
      }
    }
  }

  /** The LLM call of a turn and everything that follows it. */
  method ExecuteCall(trace: ExecutionTrace, w: World, cfg: Config, turn: nat, conversation: seq<Message>,
                     fittedMessages: seq<Message>, ghost calls: seq<LlmInput>)
    returns (phase: Phase, conversation': seq<Message>, ghost calls': seq<LlmInput>)
    requires fittedMessages == Shown(w, cfg, turn, conversation)
    modifies trace`events, trace`status, trace`totalTokensUsed, trace`totalCostUSD
    ensures StateOf(trace, turn, conversation', calls', phase)
         == AfterContext(w, cfg, old(StateOf(trace, turn, conversation, calls, Looping)))
  {
    phase, conversation', calls' := Stopped, conversation, calls + [LlmInput(conversation, fittedMessages)];
    var chatResult := ExecuteLLMCall(trace, CallWorldAt(w, cfg, turn));
    if chatResult.CallFailed? {
      if chatResult.error.code == "ABORTED" {
        trace.status := AbortedByUser;
        return;
      }
      trace.status := Failed;
      trace.AddTraceEvent(ErrorEvent(chatResult.error.code));
      return;
    }
    var usageThrown := w.recordUsage(turn);
    if usageThrown.Some? {
      phase := Threw(usageThrown.value);
      return;
    }
    trace.totalTokensUsed := trace.totalTokensUsed + chatResult.usage.inputTokens + chatResult.usage.outputTokens;
    trace.totalCostUSD := trace.totalCostUSD + cfg.price(chatResult.usage);
    conversation' := conversation' + [chatResult.message];
    var toolCalls := ExtractToolCalls(chatResult.message);
    if |toolCalls| > 0 {
      if |toolCalls| > cfg.maxToolCallsPerTurn {
        trace.status := Failed;
        trace.AddTraceEvent(ErrorEvent("max_tool_calls_exceeded"));
        return;
      }
      var toolResults, approvalPending, thrown := ExecuteTools(trace, w, turn, toolCalls);
      if thrown.Some? {
        phase := Threw(thrown.value);
        return;
      }
      if approvalPending {
        return;
      }
      conversation' := conversation' + toolResults;
      phase := Looping;
      return;
    }
    trace.status := Completed;
  }

  method RetrieveMemories(trace: ExecutionTrace, w: World, req: Request) returns (phase: Phase)
    requires !req.abortedAtStart && trace.events == []
    modifies trace`events
    ensures phase == Entry(w, req).phase && trace.events == Entry(w, req).events
  {
    phase := Looping;
    if req.queriesMemory {
      match w.memories {
        case RetrievalThrows(t) =>
          phase := Threw(t);
        case Retrieved(n) =>
          if n > 0 {
            trace.AddTraceEvent(MemoryRetrieval(n));
          }
      }
    }
  }

  method MainLoop(trace: ExecutionTrace, w: World, cfg: Config, opening: seq<Message>, start: Phase)
    returns (turnCount: nat, conversation: seq<Message>, phase: Phase, ghost calls: seq<LlmInput>)
    modifies trace`events, trace`status, trace`totalTokensUsed, trace`totalCostUSD
    ensures StateOf(trace, turnCount, conversation, calls, phase)
         == Loop(w, cfg, old(StateOf(trace, 0, opening, [], start)))
  {
    turnCount, conversation, phase, calls := 0, opening, start, [];
    ghost var entry := StateOf(trace, 0, opening, [], start);
    while phase.Looping?
      invariant Loop(w, cfg, StateOf(trace, turnCount, conversation, calls, phase)) == Loop(w, cfg, entry)
      decreases phase.Looping?, cfg.maxTurns - turnCount
    {
      turnCount, conversation, phase, calls := ExecuteTurn(trace, w, cfg, turnCount, conversation, calls);
    }
  }

  method Run(w: World, cfg: Config, req: Request)
    returns (trace: ExecutionTrace, outcome: RunOutcome, ghost final: RunState)
    ensures final == FinalState(w, cfg, req)
    ensures fresh(trace) && trace.events == final.events && trace.status == final.status
            && trace.totalTokensUsed == final.tokens && trace.totalCostUSD == final.cost
    ensures outcome == OutcomeOf(final)
    ensures outcome.Finished? && !req.abortedAtStart ==> trace.turnCount == final.turn
  {
    trace := new ExecutionTrace();
    var conversation := req.history;
    if req.userMessage.Some? {
      conversation := conversation + [req.userMessage.value];
    }
    assert conversation == Opening(req);
    ghost var calls: seq<LlmInput> := [];
    if req.abortedAtStart {
      trace.status := AbortedByUser;
      final := StateOf(trace, 0, conversation, calls, Stopped);
      return trace, Finished, final;
    }
    var phase := RetrieveMemories(trace, w, req);
    assert StateOf(trace, 0, conversation, calls, phase) == Entry(w, req);
    var turnCount;
    turnCount, conversation, phase, calls := MainLoop(trace, w, cfg, conversation, phase);
    final := Settle(StateOf(trace, turnCount, conversation, calls, phase));
    if phase.Threw? {
      trace.status := Failed;
      trace.AddTraceEvent(ErrorEvent(AsRunError(phase.error).code));
      return trace, Rejected(AsRunError(phase.error)), final;
    }
    trace.turnCount := turnCount;
    outcome := Finished;
  }
}
