/**
 What holds of every run of the agent loop, for every environment: bounded
 LLM attempts, no run that ends `running`, paired tool messages at each LLM
 call, paired tool events in the trace, nothing sent to the LLM after an
 approval request, and token totals that agree with the trace.
 */
module AgentRunProperties {
  import opened Wrappers
  import opened Messages
  import opened StreamDecoder
  import opened LlmCall
  import opened AgentRunner
  import opened Pairing

  // --------------------------------------------------- conversation pairing

  lemma {:induction false} ToolsAnswerInOrder(w: World, turn: nat, uses: seq<ToolUse>, n: nat)
    requires n <= |uses|
    requires RunTools(w, turn, uses, n).thrown.None? && !RunTools(w, turn, uses, n).approvalPending
    ensures AnswersInOrder(uses[..n], RunTools(w, turn, uses, n).results)
  {
    if n > 0 {
      ToolsAnswerInOrder(w, turn, uses, n - 1);
      assert uses[..n] == uses[..n - 1] + [uses[n - 1]];
    }
  }

  // ----------------------------------------------------------- trace pairing

  predicate Answers(call: TraceEvent, answer: TraceEvent) {
    && call.ToolCall?
    && (answer.ToolResult? || answer.ApprovalRequested?)
    && answer.toolCallId == call.toolCallId
  }

  /** Every tool call is answered by the very next event, and nothing else is an answer. */
  predicate ToolPaired(events: seq<TraceEvent>) {
    && (forall i | 0 <= i < |events| && events[i].ToolCall? ::
          i + 1 < |events| && Answers(events[i], events[i + 1]))
    && (forall i | 0 <= i < |events| && (events[i].ToolResult? || events[i].ApprovalRequested?) ::
          i > 0 && Answers(events[i - 1], events[i]))
  }

  lemma ToolPairedAppend(a: seq<TraceEvent>, b: seq<TraceEvent>)
    requires ToolPaired(a) && ToolPaired(b)
    ensures ToolPaired(a + b)
  {
    var s := a + b;
    forall i | 0 <= i < |s| && s[i].ToolCall?
      ensures i + 1 < |s| && Answers(s[i], s[i + 1])
    {
      if i < |a| {
        assert s[i] == a[i];
      } else {
        assert s[i] == b[i - |a|] && s[i + 1] == b[i - |a| + 1];
      }
    }
    forall i | 0 <= i < |s| && (s[i].ToolResult? || s[i].ApprovalRequested?)
      ensures i > 0 && Answers(s[i - 1], s[i])
    {
      if i < |a| {
        assert s[i] == a[i] && s[i - 1] == a[i - 1];
      } else {
        assert s[i] == b[i - |a|] && s[i - 1] == b[i - |a| - 1];
      }
    }
  }

  /** A tool that threw leaves its call as the last event, unanswered. */
  predicate PairedButLast(events: seq<TraceEvent>) {
    events != [] && events[|events| - 1].ToolCall? && ToolPaired(events[..|events| - 1])
  }

  predicate HasApproval(events: seq<TraceEvent>) {
    exists i | 0 <= i < |events| :: events[i].ApprovalRequested?
  }

  predicate NoRequestAfterApproval(events: seq<TraceEvent>) {
    forall i, j | 0 <= i < j < |events| :: events[i].ApprovalRequested? ==> !events[j].LlmRequest?
  }

  predicate OnlyLlmEvents(events: seq<TraceEvent>) {
    forall e | e in events :: e.LlmRequest? || e.LlmResponse? || e.Retry? || e.Failover?
  }

  predicate OnlyToolEvents(events: seq<TraceEvent>) {
    forall e | e in events :: e.ToolCall? || e.ToolResult? || e.ApprovalRequested?
  }

  lemma {:induction false} PrimaryIsLlmOnly(w: CallWorld, r: nat)
    ensures OnlyLlmEvents(PrimaryEvents(w, r))
  {
    if r > 0 {
      PrimaryIsLlmOnly(w, r - 1);
    }
  }

  lemma CallIsLlmOnly(w: CallWorld)
    ensures OnlyLlmEvents(CallEvents(w))
  {
    PrimaryIsLlmOnly(w, LastPrimary(w, 0));
  }

  lemma {:induction false} ToolsEmitToolEvents(w: World, turn: nat, uses: seq<ToolUse>, n: nat)
    requires n <= |uses|
    ensures OnlyToolEvents(RunTools(w, turn, uses, n).events)
  {
    if n > 0 {
      ToolsEmitToolEvents(w, turn, uses, n - 1);
    }
  }

  lemma HasApprovalAppend(a: seq<TraceEvent>, b: seq<TraceEvent>)
    ensures HasApproval(a + b) <==> HasApproval(a) || HasApproval(b)
  {
    if HasApproval(a) {
      var i :| 0 <= i < |a| && a[i].ApprovalRequested?;
      assert (a + b)[i].ApprovalRequested?;
    }
    if HasApproval(b) {
      var i :| 0 <= i < |b| && b[i].ApprovalRequested?;
      assert (a + b)[|a| + i].ApprovalRequested?;
    }
  }

  lemma {:induction false} ApprovalIsTraced(w: World, turn: nat, uses: seq<ToolUse>, n: nat)
    requires n <= |uses|
    ensures HasApproval(RunTools(w, turn, uses, n).events) <==> RunTools(w, turn, uses, n).approvalPending
  {
    if n > 0 {
      ApprovalIsTraced(w, turn, uses, n - 1);
      var before, outcome := RunTools(w, turn, uses, n - 1), w.tool(turn, n - 1);
      if before.thrown.None? && outcome.ToolThrows? {
        HasApprovalAppend(before.events, [CallEvent(uses[n - 1])]);
      } else if before.thrown.None? {
        var pair := [CallEvent(uses[n - 1]), AnswerEvent(uses[n - 1], outcome)];
        HasApprovalAppend(before.events, pair);
        assert pair[1].ApprovalRequested? <==> outcome.NeedsApproval?;
      }
    }
  }

  lemma {:induction false} ToolEventsArePaired(w: World, turn: nat, uses: seq<ToolUse>, n: nat)
    requires n <= |uses|
    ensures var run := RunTools(w, turn, uses, n);
            if run.thrown.None? then ToolPaired(run.events) else PairedButLast(run.events)
  {
    if n > 0 {
      ToolEventsArePaired(w, turn, uses, n - 1);
      var before, outcome := RunTools(w, turn, uses, n - 1), w.tool(turn, n - 1);
      if before.thrown.None? {
        OneToolPaired(before.events, uses[n - 1], outcome);
      }
    }
  }

  /** A call and its answer keep the events paired; a call alone is left over. */
  lemma OneToolPaired(events: seq<TraceEvent>, use: ToolUse, outcome: ToolOutcome)
    requires ToolPaired(events)
    ensures PairedButLast(events + [CallEvent(use)])
    ensures !outcome.ToolThrows? ==> ToolPaired(events + [CallEvent(use), AnswerEvent(use, outcome)])
  {
    var all := events + [CallEvent(use)];
    assert all[..|all| - 1] == events;
    if !outcome.ToolThrows? {
      ToolPairedAppend(events, [CallEvent(use), AnswerEvent(use, outcome)]);
    }
  }

  // ------------------------------------------------------- tokens and cost

  /** The usage reported by the `llm_response` events, in order. */
  function UsagesIn(events: seq<TraceEvent>): seq<Usage> {
    if events == [] then []
    else if events[0].LlmResponse? then [events[0].usage] + UsagesIn(events[1..])
    else UsagesIn(events[1..])
  }

  function TokensOf(us: seq<Usage>): nat {
    if us == [] then 0
    else TokensOf(us[..|us| - 1]) + us[|us| - 1].inputTokens + us[|us| - 1].outputTokens
  }

  function CostOf(price: Usage -> real, us: seq<Usage>): real
    decreases |us|
  {
    if us == [] then 0.0 else CostOf(price, us[..|us| - 1]) + price(us[|us| - 1])
  }

  lemma {:induction false} UsagesAppend(a: seq<TraceEvent>, b: seq<TraceEvent>)
    ensures UsagesIn(a + b) == UsagesIn(a) + UsagesIn(b)
  {
    if a == [] {
      assert a + b == b;
    } else {
      UsagesAppend(a[1..], b);
      var ra, rb := UsagesIn(a[1..]), UsagesIn(b);
      assert (a + b)[1..] == a[1..] + b && (a + b)[0] == a[0];
      if a[0].LlmResponse? {
        assert ([a[0].usage] + ra) + rb == [a[0].usage] + (ra + rb);
      }
    }
  }

  lemma {:induction false} NoResponseNoUsage(events: seq<TraceEvent>)
    requires forall e | e in events :: !e.LlmResponse?
    ensures UsagesIn(events) == []
  {
    if events != [] {
      NoResponseNoUsage(events[1..]);
    }
  }

  function UsageOf(r: CallResult): seq<Usage> {
    if r.Answered? then [r.usage] else []
  }

  lemma UsageOfAttempt(provider: string, s: AttemptScript)
    ensures UsagesIn(AttemptEvents(provider, s)) == UsageOf(AttemptResult(s))
  {
    var response := ResponseEvents(provider, s);
    UsagesAppend([LlmRequest(provider)], response);
    NoResponseNoUsage([LlmRequest(provider)]);
    if response != [] {
      assert response[1..] == [];
    }
  }

  lemma UsagesAround(a: seq<TraceEvent>, e: TraceEvent, b: seq<TraceEvent>)
    requires !e.LlmResponse?
    ensures UsagesIn(a + [e] + b) == UsagesIn(a) + UsagesIn(b)
  {
    NoResponseNoUsage([e]);
    UsagesAppend(a, [e]);
    UsagesAppend(a + [e], b);
  }

  lemma {:induction false} UsageOfPrimary(w: CallWorld, r: nat)
    requires forall j | 0 <= j < r :: Retryable(w, j)
    ensures UsagesIn(PrimaryEvents(w, r)) == UsageOf(AttemptResult(w.primary(r)))
  {
    UsageOfAttempt(w.primaryId, w.primary(r));
    if r > 0 {
      UsageOfPrimary(w, r - 1);
      RetryableHasNoUsage(w, r - 1);
      UsagesAround(PrimaryEvents(w, r - 1), RetryEvent(w, r), AttemptEvents(w.primaryId, w.primary(r)));
    }
  }

  lemma RetryableHasNoUsage(w: CallWorld, j: nat)
    requires Retryable(w, j)
    ensures UsageOf(AttemptResult(w.primary(j))) == []
  {
  }

  /** Only the attempt that succeeds contributes usage to the trace of a call. */
  lemma UsageOfCall(w: CallWorld)
    ensures UsagesIn(CallEvents(w)) == UsageOf(ResultOf(w))
  {
    var r := LastPrimary(w, 0);
    LastPrimaryMeets(w, 0);
    UsageOfPrimary(w, r);
    UsagesAppend(PrimaryEvents(w, r), EndingEvents(w, r));
    if EndingAt(w, r).FailedOver? {
      var announce := [EndingEvents(w, r)[0]];
      UsageOfAttempt(w.fallbackId.value, w.fallback);
      NoResponseNoUsage(announce);
      UsagesAppend(announce, AttemptEvents(w.fallbackId.value, w.fallback));
    } else {
      NoResponseNoUsage(EndingEvents(w, r));
    }
  }

  // -------------------------------------------------- what every turn keeps

  function TurnLimit(cfg: Config): nat {
    if cfg.maxTurns < 0 then 0 else cfg.maxTurns
  }

  function AttemptLimit(cfg: Config): nat {
    RetryLimit(cfg.failover) + 2
  }

  /** LLM calls are bounded by the turns, attempts by the calls. */
  predicate Bounded(cfg: Config, s: RunState) {
    && |s.calls| <= s.turn
    && |s.calls| <= TurnLimit(cfg)
    && Requests(s.events) <= |s.calls| * AttemptLimit(cfg)
  }

  /** Only a run that goes on, or one that threw, still has status `running`. */
  predicate StatusSettled(s: RunState) {
    && (s.phase.Looping? ==> s.status == Running)
    && (s.phase.Stopped? ==> s.status != Running)
    && (!s.phase.Threw? ==> (s.status == HumanApprovalPending <==> HasApproval(s.events)))
    && (s.phase.Looping? ==> !HasApproval(s.events))
  }

  /** At each LLM call the conversation is the opening followed by complete rounds. */
  predicate ConversationPaired(base: seq<Message>, s: RunState) {
    && base <= s.conversation
    && (s.phase.Looping? ==> Rounds(s.conversation[|base|..]))
    && forall c | c in s.calls :: base <= c.conversation && Rounds(c.conversation[|base|..])
  }

  predicate TracePaired(s: RunState) {
    || ToolPaired(s.events)
    || (s.phase.Threw? && PairedButLast(s.events))
  }

  predicate TotalsAre(cfg: Config, s: RunState, us: seq<Usage>) {
    s.tokens == TokensOf(us) && s.cost == CostOf(cfg.price, us)
  }

  /** The totals cover every response, or all but the last when recording that one threw. */
  predicate TotalsAgree(cfg: Config, s: RunState) {
    var us := UsagesIn(s.events);
    TotalsAre(cfg, s, us) || (s.phase.Threw? && us != [] && TotalsAre(cfg, s, us[..|us| - 1]))
  }

  /** Call `i` was made in turn `i + 1`, and the LLM was shown what fitting made of the conversation. */
  predicate CallsInOrder(w: World, cfg: Config, s: RunState) {
    && (s.phase.Looping? ==> |s.calls| == s.turn)
    && forall i | 0 <= i < |s.calls| :: s.calls[i].shown == Shown(w, cfg, i + 1, s.calls[i].conversation)
  }

  lemma {:induction false} NoRequestsIn(events: seq<TraceEvent>)
    requires forall e | e in events :: !e.LlmRequest?
    ensures Requests(events) == 0
  {
    if events != [] {
      NoRequestsIn(events[1..]);
    }
  }

  lemma AddNonRequests(a: seq<TraceEvent>, b: seq<TraceEvent>)
    requires forall e | e in b :: !e.LlmRequest?
    ensures Requests(a + b) == Requests(a)
  {
    RequestsAppend(a, b);
    NoRequestsIn(b);
  }

  lemma AddNonResponses(a: seq<TraceEvent>, b: seq<TraceEvent>)
    requires forall e | e in b :: !e.LlmResponse?
    ensures UsagesIn(a + b) == UsagesIn(a)
  {
    UsagesAppend(a, b);
    NoResponseNoUsage(b);
  }

  lemma NoApprovalIn(events: seq<TraceEvent>)
    requires forall e | e in events :: !e.ApprovalRequested?
    ensures !HasApproval(events)
  {
  }

  // The events that `AfterAnswer` adds to the trace.
  function AnswerEvents(w: World, cfg: Config, turn: nat, message: Message): seq<TraceEvent> {
    var uses := ExtractToolCalls(message);
    if w.recordUsage(turn).Some? || |uses| == 0 then []
    else if |uses| > cfg.maxToolCallsPerTurn then [ErrorEvent("max_tool_calls_exceeded")]
    else RunTools(w, turn, uses, |uses|).events
  }

  // The events that `AfterContext` adds to the trace after those of the call.
  function ConsequenceEvents(w: World, cfg: Config, turn: nat): seq<TraceEvent> {
    match ResultOf(CallWorldAt(w, cfg, turn))
    case CallFailed(error) => if error.code == "ABORTED" then [] else [ErrorEvent(error.code)]
    case Answered(message, _) => AnswerEvents(w, cfg, turn, message)
  }

  lemma ConsequencesAreNotLlmEvents(w: World, cfg: Config, turn: nat)
    ensures forall e | e in ConsequenceEvents(w, cfg, turn) ::
              e.ToolCall? || e.ToolResult? || e.ApprovalRequested? || e.ErrorEvent?
  {
    match ResultOf(CallWorldAt(w, cfg, turn)) {
      case CallFailed(_) =>
      case Answered(message, _) =>
        var uses := ExtractToolCalls(message);
        ToolsEmitToolEvents(w, turn, uses, |uses|);
    }
  }

  lemma EventsOfAfterContext(w: World, cfg: Config, s: RunState)
    ensures AfterContext(w, cfg, s).events
         == s.events + CallEvents(CallWorldAt(w, cfg, s.turn)) + ConsequenceEvents(w, cfg, s.turn)
    ensures AfterContext(w, cfg, s).calls == s.calls + [LlmInput(s.conversation, Shown(w, cfg, s.turn, s.conversation))]
    ensures AfterContext(w, cfg, s).turn == s.turn
  {
    var before := s.events + CallEvents(CallWorldAt(w, cfg, s.turn));
    assert before + [] == before;
  }

  /** The state in which a turn calls the LLM, if it gets that far. */
  function BeforeCall(w: World, cfg: Config, s: RunState): RunState {
    s.(turn := s.turn + 1, events := s.events + CompactionEvents(w, cfg, s.turn + 1, s.conversation))
  }

  predicate CallsLlm(w: World, cfg: Config, s: RunState) {
    && s.turn + 1 <= cfg.maxTurns
    && w.preCheck(s.turn + 1).WithinLimits?
    && w.context(s.turn + 1).thrown.None?
  }

  /** A turn either calls the LLM or adds at most one closing event and ends the run. */
  lemma TurnCases(w: World, cfg: Config, s: RunState)
    ensures CallsLlm(w, cfg, s) ==> Turn(w, cfg, s) == AfterContext(w, cfg, BeforeCall(w, cfg, s))
    ensures !CallsLlm(w, cfg, s) ==>
              var t := Turn(w, cfg, s);
              && t.turn == s.turn + 1 && t.calls == s.calls && t.conversation == s.conversation
              && t.tokens == s.tokens && t.cost == s.cost
              && !t.phase.Looping?
              && (t.phase.Stopped? ==> t.status != Running && t.status != HumanApprovalPending)
              && (|| t.events == s.events
                  || exists e: TraceEvent :: (e.ErrorEvent? || e.CostAlert?) && t.events == s.events + [e])
  {
    if !CallsLlm(w, cfg, s) {
      var t := Turn(w, cfg, s);
      if t.events != s.events {
        var e := t.events[|t.events| - 1];
        assert t.events == s.events + [e];
      }
    }
  }

  lemma TurnKeepsBounds(w: World, cfg: Config, s: RunState)
    requires s.phase.Looping? && Bounded(cfg, s)
    ensures Bounded(cfg, Turn(w, cfg, s))
  {
    var t := Turn(w, cfg, s);
    TurnCases(w, cfg, s);
    if CallsLlm(w, cfg, s) {
      var b := BeforeCall(w, cfg, s);
      var cw := CallWorldAt(w, cfg, b.turn);
      EventsOfAfterContext(w, cfg, b);
      ConsequencesAreNotLlmEvents(w, cfg, b.turn);
      AddNonRequests(s.events, CompactionEvents(w, cfg, b.turn, s.conversation));
      RequestsAppend(b.events, CallEvents(cw));
      AttemptBound(cw);
      AddNonRequests(b.events + CallEvents(cw), ConsequenceEvents(w, cfg, b.turn));
      assert (|s.calls| + 1) * AttemptLimit(cfg) == |s.calls| * AttemptLimit(cfg) + AttemptLimit(cfg);
    } else if t.events != s.events {
      var e: TraceEvent :| (e.ErrorEvent? || e.CostAlert?) && t.events == s.events + [e];
      AddNonRequests(s.events, [e]);
    }
  }

  lemma TurnKeepsStatus(w: World, cfg: Config, s: RunState)
    requires s.phase.Looping? && StatusSettled(s)
    ensures StatusSettled(Turn(w, cfg, s))
  {
    var t := Turn(w, cfg, s);
    TurnCases(w, cfg, s);
    if CallsLlm(w, cfg, s) {
      var b := BeforeCall(w, cfg, s);
      var cw := CallWorldAt(w, cfg, b.turn);
      EventsOfAfterContext(w, cfg, b);
      CallIsLlmOnly(cw);
      NoApprovalIn(CompactionEvents(w, cfg, b.turn, s.conversation));
      HasApprovalAppend(s.events, CompactionEvents(w, cfg, b.turn, s.conversation));
      NoApprovalIn(CallEvents(cw));
      HasApprovalAppend(b.events, CallEvents(cw));
      HasApprovalAppend(b.events + CallEvents(cw), ConsequenceEvents(w, cfg, b.turn));
      match ResultOf(cw) {
        case CallFailed(_) =>
          NoApprovalIn(ConsequenceEvents(w, cfg, b.turn));
        case Answered(message, _) =>
          var uses := ExtractToolCalls(message);
          ApprovalIsTraced(w, b.turn, uses, |uses|);
      }
    } else if t.events != s.events {
      var e: TraceEvent :| (e.ErrorEvent? || e.CostAlert?) && t.events == s.events + [e];
      HasApprovalAppend(s.events, [e]);
      NoApprovalIn([e]);
    }
  }

  lemma AssistantAnswers(w: CallWorld)
    ensures ResultOf(w).Answered? ==> ResultOf(w).message.role == Assistant
  {
  }

  /** When a turn goes on, the conversation has grown by exactly one complete round. */
  lemma TurnThatGoesOn(w: World, cfg: Config, s: RunState) returns (message: Message, results: seq<Message>)
    requires AfterContext(w, cfg, s).phase.Looping? && s.phase.Looping?
    ensures AfterContext(w, cfg, s).conversation == s.conversation + ([message] + results)
    ensures Rounds([message] + results)
  {
    message := ResultOf(CallWorldAt(w, cfg, s.turn)).message;
    var uses := ExtractToolCalls(message);
    results := RunTools(w, s.turn, uses, |uses|).results;
    ToolsAnswerInOrder(w, s.turn, uses, |uses|);
    assert uses[..|uses|] == uses;
    AssistantAnswers(CallWorldAt(w, cfg, s.turn));
    OneRound(message, results);
    assert s.conversation + [message] + results == s.conversation + ([message] + results);
  }

  lemma ConversationGrows(w: World, cfg: Config, s: RunState)
    ensures s.conversation <= AfterContext(w, cfg, s).conversation
  {
  }

  lemma RoundsExtend(base: seq<Message>, conversation: seq<Message>, round: seq<Message>)
    requires base <= conversation && Rounds(conversation[|base|..]) && Rounds(round)
    ensures base <= conversation + round && Rounds((conversation + round)[|base|..])
  {
    var tail := conversation[|base|..];
    assert (conversation + round)[|base|..] == tail + round;
    RoundsAppend(tail, round);
  }

  lemma TurnKeepsConversation(w: World, cfg: Config, base: seq<Message>, s: RunState)
    requires s.phase.Looping? && ConversationPaired(base, s)
    ensures ConversationPaired(base, Turn(w, cfg, s))
  {
    var t := Turn(w, cfg, s);
    TurnCases(w, cfg, s);
    if CallsLlm(w, cfg, s) {
      var b := BeforeCall(w, cfg, s);
      EventsOfAfterContext(w, cfg, b);
      ConversationGrows(w, cfg, b);
      if t.phase.Looping? {
        var message, results := TurnThatGoesOn(w, cfg, b);
        RoundsExtend(base, s.conversation, [message] + results);
      }
    }
  }

  lemma LlmEventsArePaired(events: seq<TraceEvent>)
    requires OnlyLlmEvents(events)
    ensures ToolPaired(events)
  {
    assert forall i | 0 <= i < |events| :: events[i] in events;
  }

  lemma PairedThenPairedButLast(a: seq<TraceEvent>, b: seq<TraceEvent>)
    requires ToolPaired(a) && PairedButLast(b)
    ensures PairedButLast(a + b)
  {
    ToolPairedAppend(a, b[..|b| - 1]);
    assert (a + b)[..|a + b| - 1] == a + b[..|b| - 1];
  }

  lemma ConsequencesArePaired(w: World, cfg: Config, s: RunState)
    ensures var events := ConsequenceEvents(w, cfg, s.turn);
            ToolPaired(events) || (PairedButLast(events) && AfterContext(w, cfg, s).phase.Threw?)
  {
    var result := ResultOf(CallWorldAt(w, cfg, s.turn));
    if result.Answered? {
      var uses := ExtractToolCalls(result.message);
      ToolEventsArePaired(w, s.turn, uses, |uses|);
    }
  }

  lemma TurnKeepsTrace(w: World, cfg: Config, s: RunState)
    requires s.phase.Looping? && TracePaired(s)
    ensures TracePaired(Turn(w, cfg, s))
  {
    var t := Turn(w, cfg, s);
    TurnCases(w, cfg, s);
    if CallsLlm(w, cfg, s) {
      var b := BeforeCall(w, cfg, s);
      var cw := CallWorldAt(w, cfg, b.turn);
      EventsOfAfterContext(w, cfg, b);
      CallIsLlmOnly(cw);
      LlmEventsArePaired(CallEvents(cw));
      ToolPairedAppend(s.events, CompactionEvents(w, cfg, b.turn, s.conversation));
      ToolPairedAppend(b.events, CallEvents(cw));
      ConsequencesArePaired(w, cfg, b);
      if ToolPaired(ConsequenceEvents(w, cfg, b.turn)) {
        ToolPairedAppend(b.events + CallEvents(cw), ConsequenceEvents(w, cfg, b.turn));
      } else {
        PairedThenPairedButLast(b.events + CallEvents(cw), ConsequenceEvents(w, cfg, b.turn));
      }
    } else if t.events != s.events {
      var e: TraceEvent :| (e.ErrorEvent? || e.CostAlert?) && t.events == s.events + [e];
      ToolPairedAppend(s.events, [e]);
    }
  }

  /** What an answered call adds to the totals, unless recording its usage threw. */
  lemma TotalsAfterContext(w: World, cfg: Config, s: RunState)
    ensures var t := AfterContext(w, cfg, s);
            match ResultOf(CallWorldAt(w, cfg, s.turn))
            case CallFailed(_) => t.tokens == s.tokens && t.cost == s.cost
            case Answered(_, usage) =>
              if w.recordUsage(s.turn).Some? then t.tokens == s.tokens && t.cost == s.cost && t.phase.Threw?
              else t.tokens == s.tokens + usage.inputTokens + usage.outputTokens && t.cost == s.cost + cfg.price(usage)
  {
  }

  lemma OneMoreUsage(cfg: Config, us: seq<Usage>, u: Usage)
    ensures TokensOf(us + [u]) == TokensOf(us) + u.inputTokens + u.outputTokens
    ensures CostOf(cfg.price, us + [u]) == CostOf(cfg.price, us) + cfg.price(u)
    ensures (us + [u])[..|us + [u]| - 1] == us
  {
    assert (us + [u])[..|us|] == us;
  }

  lemma TurnKeepsTotals(w: World, cfg: Config, s: RunState)
    requires s.phase.Looping? && TotalsAgree(cfg, s)
    ensures TotalsAgree(cfg, Turn(w, cfg, s))
  {
    var t := Turn(w, cfg, s);
    TurnCases(w, cfg, s);
    if CallsLlm(w, cfg, s) {
      var b := BeforeCall(w, cfg, s);
      var cw := CallWorldAt(w, cfg, b.turn);
      EventsOfAfterContext(w, cfg, b);
      ConsequencesAreNotLlmEvents(w, cfg, b.turn);
      AddNonResponses(s.events, CompactionEvents(w, cfg, b.turn, s.conversation));
      UsagesAppend(b.events, CallEvents(cw));
      UsageOfCall(cw);
      AddNonResponses(b.events + CallEvents(cw), ConsequenceEvents(w, cfg, b.turn));
      TotalsAfterContext(w, cfg, b);
      if ResultOf(cw).Answered? {
        OneMoreUsage(cfg, UsagesIn(s.events), ResultOf(cw).usage);
      } else {
        assert UsagesIn(s.events) + [] == UsagesIn(s.events);
      }
    } else if t.events != s.events {
      var e: TraceEvent :| (e.ErrorEvent? || e.CostAlert?) && t.events == s.events + [e];
      AddNonResponses(s.events, [e]);
    }
  }

  lemma CallsAfterTurn(w: World, cfg: Config, s: RunState) returns (t: RunState)
    ensures t == Turn(w, cfg, s) && t.turn == s.turn + 1
    ensures !CallsLlm(w, cfg, s) ==> t.calls == s.calls && !t.phase.Looping?
    ensures CallsLlm(w, cfg, s) ==>
              t.calls == s.calls + [LlmInput(s.conversation, Shown(w, cfg, s.turn + 1, s.conversation))]
  {
    t := Turn(w, cfg, s);
    TurnCases(w, cfg, s);
    if CallsLlm(w, cfg, s) {
      EventsOfAfterContext(w, cfg, BeforeCall(w, cfg, s));
    }
  }

  lemma TurnKeepsCalls(w: World, cfg: Config, s: RunState)
    requires s.phase.Looping? && CallsInOrder(w, cfg, s)
    ensures CallsInOrder(w, cfg, Turn(w, cfg, s))
    ensures var t := Turn(w, cfg, s); t.turn == s.turn + 1 && (|t.calls| == t.turn <==> CallsLlm(w, cfg, s))
  {
    var t := CallsAfterTurn(w, cfg, s);
  }

  lemma OrderAppend(a: seq<TraceEvent>, b: seq<TraceEvent>)
    requires !HasApproval(a) && forall e | e in b :: !e.LlmRequest?
    ensures NoRequestAfterApproval(a + b)
  {
    var s := a + b;
    forall i, j | 0 <= i < j < |s| && s[i].ApprovalRequested?
      ensures !s[j].LlmRequest?
    {
      assert forall k | 0 <= k < |a| :: !a[k].ApprovalRequested?;
      assert s[j] == b[j - |a|];
    }
  }

  lemma TurnKeepsOrder(w: World, cfg: Config, s: RunState)
    requires s.phase.Looping? && StatusSettled(s)
    ensures NoRequestAfterApproval(Turn(w, cfg, s).events)
  {
    var t := Turn(w, cfg, s);
    TurnCases(w, cfg, s);
    if CallsLlm(w, cfg, s) {
      var b := BeforeCall(w, cfg, s);
      var cw := CallWorldAt(w, cfg, b.turn);
      EventsOfAfterContext(w, cfg, b);
      CallIsLlmOnly(cw);
      ConsequencesAreNotLlmEvents(w, cfg, b.turn);
      HasApprovalAppend(s.events, CompactionEvents(w, cfg, b.turn, s.conversation));
      HasApprovalAppend(b.events, CallEvents(cw));
      NoApprovalIn(CallEvents(cw));
      OrderAppend(b.events + CallEvents(cw), ConsequenceEvents(w, cfg, b.turn));
    } else if t.events != s.events {
      var e: TraceEvent :| (e.ErrorEvent? || e.CostAlert?) && t.events == s.events + [e];
      OrderAppend(s.events, [e]);
    }
  }

  // -------------------------------------------------------------- whole runs

  predicate Sound(w: World, cfg: Config, base: seq<Message>, s: RunState) {
    && Bounded(cfg, s)
    && CallsInOrder(w, cfg, s)
    && StatusSettled(s)
    && ConversationPaired(base, s)
    && TracePaired(s)
    && TotalsAgree(cfg, s)
    && NoRequestAfterApproval(s.events)
  }

  lemma {:induction false} LoopKeepsSound(w: World, cfg: Config, base: seq<Message>, s: RunState)
    requires Sound(w, cfg, base, s)
    ensures Sound(w, cfg, base, Loop(w, cfg, s))
    ensures !Loop(w, cfg, s).phase.Looping?
    decreases cfg.maxTurns - s.turn
  {
    if s.phase.Looping? {
      TurnKeepsBounds(w, cfg, s);
      TurnKeepsStatus(w, cfg, s);
      TurnKeepsConversation(w, cfg, base, s);
      TurnKeepsTrace(w, cfg, s);
      TurnKeepsTotals(w, cfg, s);
      TurnKeepsCalls(w, cfg, s);
      TurnKeepsOrder(w, cfg, s);
      if s.turn <= cfg.maxTurns {
        LoopKeepsSound(w, cfg, base, Turn(w, cfg, s));
      }
    }
  }

  lemma EntryIsSound(w: World, cfg: Config, req: Request)
    ensures Sound(w, cfg, Opening(req), Entry(w, req))
  {
    var s := Entry(w, req);
    assert Opening(req)[|Opening(req)|..] == [];
    NoApprovalIn(s.events);
    NoRequestsIn(s.events);
    NoResponseNoUsage(s.events);
  }

  /** The `catch` block adds one error event to a run that threw and settles its status. */
  lemma SettleKeeps(s: RunState)
    requires !s.phase.Looping? && StatusSettled(s)
    ensures Settle(s).status != Running
    ensures s.phase.Threw? ==> Settle(s).status == Failed
    ensures Requests(Settle(s).events) == Requests(s.events)
    ensures UsagesIn(Settle(s).events) == UsagesIn(s.events)
    ensures NoRequestAfterApproval(s.events) ==> NoRequestAfterApproval(Settle(s).events)
    ensures TracePaired(s) ==>
              var events := Settle(s).events;
              || ToolPaired(events)
              || (s.phase.Threw? && PairedButLast(events[..|events| - 1]) && events[|events| - 1].ErrorEvent?)
  {
    if s.phase.Threw? {
      var e := ErrorEvent(AsRunError(s.phase.error).code);
      AddNonRequests(s.events, [e]);
      AddNonResponses(s.events, [e]);
      assert (s.events + [e])[..|s.events + [e]| - 1] == s.events;
      if ToolPaired(s.events) {
        ToolPairedAppend(s.events, [e]);
      }
    }
  }

  /** The state in which the main loop of any run ends. */
  lemma LoopEnd(w: World, cfg: Config, req: Request) returns (s: RunState)
    ensures FinalState(w, cfg, req) == Settle(s)
    ensures Sound(w, cfg, Opening(req), s) && !s.phase.Looping?
  {
    s := Loop(w, cfg, Entry(w, req));
    EntryIsSound(w, cfg, req);
    LoopKeepsSound(w, cfg, Opening(req), Entry(w, req));
  }

  /** No run ends with status `running`; it makes at most maxTurns LLM calls of at most m + 2 attempts each. */
  lemma RunTerminatesWithinLimits(w: World, cfg: Config, req: Request)
    ensures var s := FinalState(w, cfg, req);
            && !s.phase.Looping?
            && s.status != Running
            && |s.calls| <= TurnLimit(cfg)
            && Requests(s.events) <= TurnLimit(cfg) * (RetryLimit(cfg.failover) + 2)
  {
    var s := LoopEnd(w, cfg, req);
    SettleKeeps(s);
    assert |s.calls| * AttemptLimit(cfg) <= TurnLimit(cfg) * AttemptLimit(cfg);
  }

  /**
   At every LLM call the conversation is the history and user message followed
   by complete rounds: each assistant message of this run is followed at once
   by one tool message per tool call, in order and with equal ids.
   */
  lemma ConversationIsPairedAtEveryCall(w: World, cfg: Config, req: Request, i: nat)
    requires i < |FinalState(w, cfg, req).calls|
    ensures var conversation := FinalState(w, cfg, req).calls[i].conversation;
            && Opening(req) <= conversation
            && Rounds(conversation[|Opening(req)|..])
  {
    var s := LoopEnd(w, cfg, req);
  }

  /** So a run on a well paired history only ever fits a well paired conversation. */
  lemma ConversationStaysWellPaired(w: World, cfg: Config, req: Request, i: nat)
    requires i < |FinalState(w, cfg, req).calls| && WellPaired(Opening(req))
    ensures WellPaired(FinalState(w, cfg, req).calls[i].conversation)
  {
    ConversationIsPairedAtEveryCall(w, cfg, req, i);
    RoundsKeepWellPaired(Opening(req), FinalState(w, cfg, req).calls[i].conversation);
  }

  /** When what the LLM is shown of a conversation in a turn is well paired: by compaction, or by pruning. */
  ghost predicate ShownKeepsPairs(w: World, cfg: Config, turn: nat, conversation: seq<Message>) {
    if Compacts(w, cfg, turn, conversation)
    then |conversation| <= 4 || CleanCut(conversation, |conversation| - 4)
    else MemoryManager.FittingKeepsPairs(conversation, w.context(turn).count, cfg.window)
  }

  /**
   At every LLM call the messages shown to the LLM are well paired exactly when
   the fitting of that turn does not cut a round: nothing had to be dropped, the
   cuts of the head and tail or of the compacted form are clean, or each round fits
   as a whole. The history is well paired and tool ids are not reused.
   */
  lemma LlmSeesPairedMessages(w: World, cfg: Config, req: Request, i: nat)
    requires i < |FinalState(w, cfg, req).calls| && WellPaired(Opening(req))
    requires DistinctAnswers(FinalState(w, cfg, req).calls[i].conversation)
    ensures var input := FinalState(w, cfg, req).calls[i];
            && input.shown == Shown(w, cfg, i + 1, input.conversation)
            && (WellPaired(input.shown) <==> ShownKeepsPairs(w, cfg, i + 1, input.conversation))
  {
    var input := FinalState(w, cfg, req).calls[i];
    var s := LoopEnd(w, cfg, req);
    ConversationStaysWellPaired(w, cfg, req, i);
    if Compacts(w, cfg, i + 1, input.conversation) {
      MemoryManager.CompactionAndPairs(input.conversation, w.context(i + 1).summary.text);
    } else {
      MemoryManager.FittingAndPairs(input.conversation, w.context(i + 1).count, cfg.window);
    }
  }

  /**
   In the trace of every run each `tool_call` is answered by the very next
   event, a `tool_result` or `approval_requested` with its id, and there are no
   other answers; only a tool that throws leaves its call unanswered, just
   before the final error. After an approval request no LLM attempt follows.
   */
  lemma TraceIsPaired(w: World, cfg: Config, req: Request)
    ensures var s := FinalState(w, cfg, req);
            var n := |s.events|;
            && NoRequestAfterApproval(s.events)
            && (|| ToolPaired(s.events)
                || (OutcomeOf(s).Rejected? && n >= 2 && s.events[n - 1].ErrorEvent?
                    && s.events[n - 2].ToolCall? && ToolPaired(s.events[..n - 2])))
  {
    var s := LoopEnd(w, cfg, req);
    SettleKeeps(s);
    var events := Settle(s).events;
    if !ToolPaired(events) {
      assert events[..|events| - 1][..|events| - 2] == events[..|events| - 2];
    }
  }

  /** The run waits for approval exactly when its trace shows a request and nothing threw. */
  lemma ApprovalStatus(w: World, cfg: Config, req: Request)
    ensures var s := FinalState(w, cfg, req);
            s.status == HumanApprovalPending <==> OutcomeOf(s).Finished? && HasApproval(s.events)
  {
    var s := LoopEnd(w, cfg, req);
  }

  /**
   The token and cost totals of a run are those of its `llm_response` events; a
   run that was rejected may lack the last one, whose recording threw.
   */
  lemma TotalsAreConserved(w: World, cfg: Config, req: Request)
    ensures var s := FinalState(w, cfg, req);
            var us := UsagesIn(s.events);
            || TotalsAre(cfg, s, us)
            || (OutcomeOf(s).Rejected? && us != [] && TotalsAre(cfg, s, us[..|us| - 1]))
  {
    var s := LoopEnd(w, cfg, req);
    SettleKeeps(s);
  }

  // ------------------------------------------------------------------ aborts

  /** The last attempt that a call makes. */
  function LastAttempt(w: CallWorld): AttemptScript {
    var r := LastPrimary(w, 0);
    if EndingAt(w, r).FailedOver? then w.fallback else w.primary(r)
  }

  predicate IsCut(a: AttemptScript) {
    CutByAbort(a.stream, a.untilAbort)
  }

  /** No provider reports the runner's own abort code. */
  ghost predicate NoForeignAborts(w: World) {
    forall turn: nat, j: nat ::
      NeverRaisesAbort(w.call(turn).primary(j).stream) && NeverRaisesAbort(w.call(turn).fallback.stream)
  }

  lemma CutAttempts(a: AttemptScript)
    requires NeverRaisesAbort(a.stream)
    ensures AttemptResult(a).CallFailed? && AttemptResult(a).error.code == "ABORTED" <==> IsCut(a)
  {
    AbortCodeMeansCut(NOTHING_COLLECTED, a.stream, a.untilAbort);
  }

  predicate AbortedTurn(w: World, cfg: Config, turn: nat) {
    IsCut(LastAttempt(CallWorldAt(w, cfg, turn)))
  }

  /** A turn marks the run aborted exactly when it calls the LLM and the last attempt of the call is cut. */
  lemma TurnIsAbortedIff(w: World, cfg: Config, s: RunState)
    requires s.status == Running && NoForeignAborts(w)
    ensures Turn(w, cfg, s).status == AbortedByUser <==> CallsLlm(w, cfg, s) && AbortedTurn(w, cfg, s.turn + 1)
    ensures Turn(w, cfg, s).phase.Looping? ==> Turn(w, cfg, s).status == Running
    ensures Turn(w, cfg, s).phase.Threw? ==> Turn(w, cfg, s).status != AbortedByUser
  {
    TurnCases(w, cfg, s);
    if CallsLlm(w, cfg, s) {
      var cw := CallWorldAt(w, cfg, s.turn + 1);
      assert NeverRaisesAbort(w.call(s.turn + 1).primary(LastPrimary(cw, 0)).stream);
      CutAttempts(LastAttempt(cw));
    }
  }

  /** The abort that ended the run, if one did: the last turn called the LLM and its last attempt was cut. */
  predicate EndedByAbort(w: World, cfg: Config, s: RunState) {
    s.calls != [] && |s.calls| == s.turn && AbortedTurn(w, cfg, s.turn)
  }

  predicate AbortIsMarked(w: World, cfg: Config, s: RunState) {
    && (s.status == AbortedByUser <==> EndedByAbort(w, cfg, s))
    && (s.phase.Threw? ==> s.status != AbortedByUser)
  }

  lemma SettleKeepsAbort(w: World, cfg: Config, s: RunState)
    requires AbortIsMarked(w, cfg, s)
    ensures Settle(s).status == AbortedByUser <==> EndedByAbort(w, cfg, Settle(s))
  {
    assert Settle(s).calls == s.calls && Settle(s).turn == s.turn;
  }

  lemma {:induction false} LoopIsAbortedIff(w: World, cfg: Config, s: RunState)
    requires NoForeignAborts(w) && s.phase.Looping? && s.status == Running && CallsInOrder(w, cfg, s)
    ensures AbortIsMarked(w, cfg, Loop(w, cfg, s))
    decreases cfg.maxTurns - s.turn
  {
    var t := Turn(w, cfg, s);
    TurnIsAbortedIff(w, cfg, s);
    TurnKeepsCalls(w, cfg, s);
    if t.phase.Looping? {
      assert s.turn <= cfg.maxTurns;
      LoopIsAbortedIff(w, cfg, t);
    }
  }

  /**
   A run ends `aborted` exactly when the signal was up before it began, or in its
   last turn the abort check stopped the last attempt of the LLM call. So an abort
   noticed anywhere else, during a retry wait or by a stream that ends without
   another event, does not.
   */
  lemma RunIsAbortedIff(w: World, cfg: Config, req: Request)
    requires NoForeignAborts(w)
    ensures var s := FinalState(w, cfg, req);
            s.status == AbortedByUser <==> req.abortedAtStart || EndedByAbort(w, cfg, s)
  {
    var entry := Entry(w, req);
    if entry.phase.Looping? {
      LoopIsAbortedIff(w, cfg, entry);
      SettleKeepsAbort(w, cfg, Loop(w, cfg, entry));
    } else {
      assert Loop(w, cfg, entry) == entry && Settle(entry).calls == [];
    }
  }

  /** A provider that fails without yielding an event, with the signal going up during the wait before the retry. */
  function AbortedWhileWaiting(): CallWorld {
    var silent := AttemptScript(ChatStream([], Some(ForeignError)), 1);
    CallWorld("primary", None, _ => silent, silent, _ => true, FailoverConfig(true, true, true, 1))
  }

  /** The same provider without retries, the signal being up from the start. */
  function AbortedBeforeSilence(): CallWorld {
    var silent := AttemptScript(ChatStream([], Some(ForeignError)), 0);
    CallWorld("primary", None, _ => silent, silent, _ => true, FailoverConfig(true, true, true, 0))
  }

  /** Both runs were aborted by the user, and both end `failed` with the provider's error. */
  lemma AbortCanEndAsFailure(w: World, cfg: Config, req: Request)
    requires !req.abortedAtStart && !req.queriesMemory && cfg.maxTurns >= 1
    requires w.preCheck(1).WithinLimits? && w.context(1).thrown.None?
    requires CallWorldAt(w, cfg, 1) == AbortedWhileWaiting() || CallWorldAt(w, cfg, 1) == AbortedBeforeSilence()
    ensures FinalState(w, cfg, req).status == Failed && OutcomeOf(FinalState(w, cfg, req)).Finished?
    ensures ResultOf(CallWorldAt(w, cfg, 1)) == CallFailed(PROVIDER_ERROR)
  {
    var cw, s := CallWorldAt(w, cfg, 1), Entry(w, req);
    assert AttemptResult(cw.primary(0)) == CallFailed(PROVIDER_ERROR);
    assert LastPrimary(cw, 0) == 0 && !EndingAt(cw, 0).FailedOver?;
    TurnCases(w, cfg, s);
    var t := Turn(w, cfg, s);
    assert t.status == Failed && t.phase == Stopped;
    assert Loop(w, cfg, s) == Loop(w, cfg, t) == t;
  }
}
