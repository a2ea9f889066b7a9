/**
 What the runs of the agent loop contain: what the LLM is told about each tool
 call, what the trace records of it, and why a run ends as it does. Everything is
 said in terms of what the environment answered, turn by turn.
 */
module AgentDialogue {
  import opened Wrappers
  import opened Messages
  import opened StreamDecoder
  import opened LlmCall
  import opened AgentRunner
  import opened AgentRunProperties
  import MemoryManager

  // ------------------------------------------------------------- tool calls

  /** A message that tells the LLM what came of a tool call. */
  predicate Tells(m: Message, use: ToolUse, outcome: ToolOutcome) {
    && m.role == Tool && m.content.Parts? && |m.content.parts| == 1
    && m.content.parts[0].ToolResultPart?
    && var part := m.content.parts[0];
       && part.toolUseId == use.id
       && (outcome.Executed? || outcome.ToolFailed?)
       && (outcome.Executed? ==> part.content == outcome.output && !part.isError)
       && (outcome.ToolFailed? ==> part.content == "Error: " + outcome.message && part.isError)
  }

  /** The `tool_call` event and its answer, as the trace shows them. */
  predicate Records(call: TraceEvent, answer: TraceEvent, use: ToolUse, outcome: ToolOutcome) {
    && call == ToolCall(use.id, use.name, use.input)
    && (outcome.Executed? ==> answer == LlmCall.ToolResult(use.id, outcome.success))
    && (outcome.ToolFailed? ==> answer == LlmCall.ToolResult(use.id, false))
    && (outcome.NeedsApproval? ==> answer == ApprovalRequested(use.id, outcome.approvalId))
    && !outcome.ToolThrows?
  }

  predicate NoneThrows(w: World, turn: nat, n: nat) {
    forall i | 0 <= i < n :: !w.tool(turn, i).ToolThrows?
  }

  predicate NoneWaits(w: World, turn: nat, n: nat) {
    forall i | 0 <= i < n :: !w.tool(turn, i).NeedsApproval?
  }

  predicate RecordsAll(w: World, turn: nat, uses: seq<ToolUse>, events: seq<TraceEvent>) {
    && |events| == 2 * |uses|
    && forall i | 0 <= i < |uses| :: Records(events[2 * i], events[2 * i + 1], uses[i], w.tool(turn, i))
  }

  predicate TellsAll(w: World, turn: nat, uses: seq<ToolUse>, results: seq<Message>) {
    && |results| == |uses|
    && forall i | 0 <= i < |uses| :: Tells(results[i], uses[i], w.tool(turn, i))
  }

  /** While no tool throws, the loop goes on, and waits for approval when one of them does. */
  lemma {:induction false} ToolsGoOn(w: World, turn: nat, uses: seq<ToolUse>, n: nat)
    requires n <= |uses| && NoneThrows(w, turn, n)
    ensures RunTools(w, turn, uses, n).thrown.None?
    ensures RunTools(w, turn, uses, n).approvalPending <==> !NoneWaits(w, turn, n)
    ensures |RunTools(w, turn, uses, n).events| == 2 * n
    ensures NoneWaits(w, turn, n) ==> |RunTools(w, turn, uses, n).results| == n
  {
    if n > 0 {
      assert !w.tool(turn, n - 1).ToolThrows?;
      ToolsGoOn(w, turn, uses, n - 1);
    }
  }

  lemma NextToolIsRecorded(w: World, turn: nat, uses: seq<ToolUse>, n: nat)
    returns (before: seq<TraceEvent>, events: seq<TraceEvent>)
    requires n < |uses| && NoneThrows(w, turn, n + 1)
    ensures before == RunTools(w, turn, uses, n).events && events == RunTools(w, turn, uses, n + 1).events
    ensures |before| == 2 * n && |events| == 2 * n + 2 && before == events[..2 * n]
    ensures Records(events[2 * n], events[2 * n + 1], uses[n], w.tool(turn, n))
  {
    assert !w.tool(turn, n).ToolThrows?;
    ToolsGoOn(w, turn, uses, n);
    before := RunTools(w, turn, uses, n).events;
    events := before + [CallEvent(uses[n]), AnswerEvent(uses[n], w.tool(turn, n))];
  }

  lemma {:induction false} RecordAt(w: World, turn: nat, uses: seq<ToolUse>, n: nat, i: nat, events: seq<TraceEvent>)
    requires i < n <= |uses| && NoneThrows(w, turn, n) && events == RunTools(w, turn, uses, n).events
    ensures |events| == 2 * n && Records(events[2 * i], events[2 * i + 1], uses[i], w.tool(turn, i))
    decreases n
  {
    var before, after := NextToolIsRecorded(w, turn, uses, n - 1);
    if i < n - 1 {
      RecordAt(w, turn, uses, n - 1, i, before);
    }
  }

  /** While no tool throws, each call is recorded. */
  lemma ToolsAreRecorded(w: World, turn: nat, uses: seq<ToolUse>, n: nat)
    requires n <= |uses| && NoneThrows(w, turn, n)
    ensures RecordsAll(w, turn, uses[..n], RunTools(w, turn, uses, n).events)
    ensures RunTools(w, turn, uses, n).thrown.None?
    ensures RunTools(w, turn, uses, n).approvalPending <==> !NoneWaits(w, turn, n)
  {
    var events := RunTools(w, turn, uses, n).events;
    ToolsGoOn(w, turn, uses, n);
    forall i | 0 <= i < n
      ensures Records(events[2 * i], events[2 * i + 1], uses[..n][i], w.tool(turn, i))
    {
      RecordAt(w, turn, uses, n, i, events);
    }
  }

  lemma NextToolIsTold(w: World, turn: nat, uses: seq<ToolUse>, n: nat)
    returns (before: seq<Message>, results: seq<Message>)
    requires n < |uses| && NoneThrows(w, turn, n + 1) && NoneWaits(w, turn, n + 1)
    ensures before == RunTools(w, turn, uses, n).results && results == RunTools(w, turn, uses, n + 1).results
    ensures |before| == n && |results| == n + 1 && before == results[..n]
    ensures Tells(results[n], uses[n], w.tool(turn, n))
  {
    assert !w.tool(turn, n).ToolThrows? && !w.tool(turn, n).NeedsApproval?;
    ToolsGoOn(w, turn, uses, n);
    before := RunTools(w, turn, uses, n).results;
    results := before + Reply(uses[n], w.tool(turn, n));
  }

  lemma {:induction false} ToldAt(w: World, turn: nat, uses: seq<ToolUse>, n: nat, i: nat, results: seq<Message>)
    requires i < n <= |uses| && NoneThrows(w, turn, n) && NoneWaits(w, turn, n)
    requires results == RunTools(w, turn, uses, n).results
    ensures |results| == n && Tells(results[i], uses[i], w.tool(turn, i))
    decreases n
  {
    var before, after := NextToolIsTold(w, turn, uses, n - 1);
    if i < n - 1 {
      ToldAt(w, turn, uses, n - 1, i, before);
    }
  }

  /** When moreover none waits for approval, the LLM is told about each. */
  lemma ToolsAreTold(w: World, turn: nat, uses: seq<ToolUse>, n: nat)
    requires n <= |uses| && NoneThrows(w, turn, n) && NoneWaits(w, turn, n)
    ensures TellsAll(w, turn, uses[..n], RunTools(w, turn, uses, n).results)
  {
    var results := RunTools(w, turn, uses, n).results;
    ToolsGoOn(w, turn, uses, n);
    forall i | 0 <= i < n
      ensures Tells(results[i], uses[..n][i], w.tool(turn, i))
    {
      ToldAt(w, turn, uses, n, i, results);
    }
  }

  /** The first tool that throws is recorded as called, and nothing after it. */
  lemma ThrowIsRecorded(w: World, turn: nat, uses: seq<ToolUse>, n: nat)
    requires n < |uses| && NoneThrows(w, turn, n) && w.tool(turn, n).ToolThrows?
    ensures var run := RunTools(w, turn, uses, |uses|);
            && run.thrown == Some(w.tool(turn, n).error)
            && |run.events| == 2 * n + 1
            && RecordsAll(w, turn, uses[..n], run.events[..2 * n])
            && run.events[2 * n] == ToolCall(uses[n].id, uses[n].name, uses[n].input)
  {
    ToolsAreRecorded(w, turn, uses, n);
    ThrowStopsTheTools(w, turn, uses, n + 1, |uses|);
    var before := RunTools(w, turn, uses, n).events;
    assert (before + [CallEvent(uses[n])])[..2 * n] == before;
  }

  // ------------------------------------------------------- the conversation

  /**
   From the call of one turn to the next, the conversation grows by the answer and
   one message per tool call that tells its outcome.
   */
  predicate Follows(w: World, cfg: Config, turn: nat, before: seq<Message>, after: seq<Message>) {
    var r := ResultOf(CallWorldAt(w, cfg, turn));
    && r.Answered?
    && var uses := ExtractToolCalls(r.message);
       && |uses| > 0 && |after| == |before| + 1 + |uses|
       && after[..|before|] == before
       && after[|before|] == r.message
       && TellsAll(w, turn, uses, after[|before| + 1..])
  }

  /** The conversations of the calls so far continue one another from the opening to the present one. */
  predicate Continues(w: World, cfg: Config, base: seq<Message>, s: RunState) {
    && (s.calls != [] ==> s.calls[0].conversation == base)
    && (forall i | 0 <= i < |s.calls| - 1 ::
          Follows(w, cfg, i + 1, s.calls[i].conversation, s.calls[i + 1].conversation))
    && (s.phase.Looping? ==>
          if s.calls == [] then s.conversation == base
          else Follows(w, cfg, |s.calls|, s.calls[|s.calls| - 1].conversation, s.conversation))
  }

  lemma GoingOnFollows(w: World, cfg: Config, s: RunState)
    requires s.phase.Looping? && AfterContext(w, cfg, s).phase.Looping?
    ensures Follows(w, cfg, s.turn, s.conversation, AfterContext(w, cfg, s).conversation)
  {
    var t := AfterContext(w, cfg, s);
    var message := ResultOf(CallWorldAt(w, cfg, s.turn)).message;
    var uses := ExtractToolCalls(message);
    var run := RunTools(w, s.turn, uses, |uses|);
    EitherThrowsOrNot(w, s.turn, uses);
    ToolsAreRecorded(w, s.turn, uses, |uses|);
    ToolsAreTold(w, s.turn, uses, |uses|);
    assert uses[..|uses|] == uses;
    assert t.conversation == s.conversation + [message] + run.results;
    assert t.conversation[|s.conversation| + 1..] == run.results;
  }

  lemma EitherThrowsOrNot(w: World, turn: nat, uses: seq<ToolUse>)
    ensures RunTools(w, turn, uses, |uses|).thrown.None? <==> NoneThrows(w, turn, |uses|)
  {
    if NoneThrows(w, turn, |uses|) {
      ToolsAreRecorded(w, turn, uses, |uses|);
    } else {
      var n := FirstThrow(w, turn, |uses|);
      ThrowIsRecorded(w, turn, uses, n);
    }
  }

  lemma {:induction false} FirstThrow(w: World, turn: nat, m: nat) returns (n: nat)
    requires !NoneThrows(w, turn, m)
    ensures n < m && NoneThrows(w, turn, n) && w.tool(turn, n).ToolThrows?
    decreases m
  {
    if NoneThrows(w, turn, m - 1) {
      n := m - 1;
    } else {
      n := FirstThrow(w, turn, m - 1);
    }
  }

  lemma CallContinues(w: World, cfg: Config, base: seq<Message>, s: RunState, t: RunState, input: LlmInput)
    requires s.phase.Looping? && Continues(w, cfg, base, s) && |s.calls| == s.turn
    requires t.calls == s.calls + [input] && input.conversation == s.conversation
    requires t.phase.Looping? ==> Follows(w, cfg, s.turn + 1, s.conversation, t.conversation)
    ensures Continues(w, cfg, base, t)
  {
    forall i | 0 <= i < |t.calls| - 1
      ensures Follows(w, cfg, i + 1, t.calls[i].conversation, t.calls[i + 1].conversation)
    {
      if i < |s.calls| - 1 {
        assert Follows(w, cfg, i + 1, s.calls[i].conversation, s.calls[i + 1].conversation);
      }
    }
  }

  lemma TurnFollows(w: World, cfg: Config, s: RunState, t: RunState)
    requires s.phase.Looping? && CallsLlm(w, cfg, s) && t == Turn(w, cfg, s) && t.phase.Looping?
    ensures Follows(w, cfg, s.turn + 1, s.conversation, t.conversation)
  {
    TurnCases(w, cfg, s);
    GoingOnFollows(w, cfg, BeforeCall(w, cfg, s));
  }

  lemma TurnContinues(w: World, cfg: Config, base: seq<Message>, s: RunState)
    requires s.phase.Looping? && Continues(w, cfg, base, s) && CallsInOrder(w, cfg, s)
    ensures Continues(w, cfg, base, Turn(w, cfg, s))
  {
    var t := CallsAfterTurn(w, cfg, s);
    if CallsLlm(w, cfg, s) {
      if t.phase.Looping? {
        TurnFollows(w, cfg, s, t);
      }
      CallContinues(w, cfg, base, s, t, t.calls[|s.calls|]);
    }
  }

  lemma {:induction false} LoopContinues(w: World, cfg: Config, base: seq<Message>, s: RunState)
    requires Continues(w, cfg, base, s) && CallsInOrder(w, cfg, s)
    ensures Continues(w, cfg, base, Loop(w, cfg, s))
    decreases cfg.maxTurns - s.turn
  {
    if s.phase.Looping? {
      TurnContinues(w, cfg, base, s);
      TurnKeepsCalls(w, cfg, s);
      if s.turn <= cfg.maxTurns {
        LoopContinues(w, cfg, base, Turn(w, cfg, s));
      }
    }
  }

  /**
   What the LLM is told: the first call is made on the history and the user's
   message; each later one on the conversation before, the answer to it, and for each
   tool call one message with the tool's output, or its error marked as such.
   */
  lemma LlmIsToldWhatTheToolsDid(w: World, cfg: Config, req: Request, i: nat)
    requires i < |FinalState(w, cfg, req).calls|
    ensures var calls := FinalState(w, cfg, req).calls;
            if i == 0 then
              calls[0].conversation
              == if req.userMessage.Some? then req.history + [req.userMessage.value] else req.history
            else Follows(w, cfg, i, calls[i - 1].conversation, calls[i].conversation)
  {
    var s := Entry(w, req);
    EntryIsSound(w, cfg, req);
    LoopContinues(w, cfg, Opening(req), s);
    assert req.userMessage.None? ==> Opening(req) == req.history;
  }

  // --------------------------------------------------------- why a run ends

  function LastEvent(s: RunState): Option<TraceEvent> {
    if s.events == [] then None else Some(s.events[|s.events| - 1])
  }

  predicate EndsWith(s: RunState, status: Status, e: TraceEvent) {
    OutcomeOf(s).Finished? && s.status == status && LastEvent(s) == Some(e)
  }

  /** A thrown error rejects the run: the system's own as it is, any other as an internal error. */
  predicate EndsByThrow(s: RunState, t: Thrown) {
    var error := if t.OwnError? then t.error else NexusError("AGENT_RUN_FAILED", 500);
    OutcomeOf(s) == Rejected(error) && s.status == Failed && LastEvent(s) == Some(ErrorEvent(error.code))
  }

  /** The tool calls that the LLM answered with in a turn. */
  function UsesOf(w: World, cfg: Config, turn: nat): seq<ToolUse> {
    var r := ResultOf(CallWorldAt(w, cfg, turn));
    if r.Answered? then ExtractToolCalls(r.message) else []
  }

  /** A turn goes on exactly when nothing stops it: limit, budget, errors, a final answer, too many tools, approval. */
  predicate GoesOn(w: World, cfg: Config, turn: nat) {
    var uses := UsesOf(w, cfg, turn);
    && turn <= cfg.maxTurns
    && w.preCheck(turn) == WithinLimits
    && w.context(turn).thrown.None?
    && ResultOf(CallWorldAt(w, cfg, turn)).Answered?
    && w.recordUsage(turn).None?
    && 0 < |uses| <= cfg.maxToolCallsPerTurn
    && NoneThrows(w, turn, |uses|) && NoneWaits(w, turn, |uses|)
  }

  /** How the run ends in this turn, according to the first thing that stops it. */
  predicate EndsIn(w: World, cfg: Config, turn: nat, s: RunState) {
    var r, uses := ResultOf(CallWorldAt(w, cfg, turn)), UsesOf(w, cfg, turn);
    if turn > cfg.maxTurns then EndsWith(s, MaxTurns, ErrorEvent("max_turns_exceeded"))
    else if w.preCheck(turn).OverBudget? then EndsWith(s, BudgetExceeded, CostAlert(w.preCheck(turn).code))
    else if w.preCheck(turn).PreCheckThrows? then EndsByThrow(s, w.preCheck(turn).error)
    else if w.context(turn).thrown.Some? then EndsByThrow(s, w.context(turn).thrown.value)
    else if r.CallFailed? && r.error.code == "ABORTED" then OutcomeOf(s).Finished? && s.status == AbortedByUser
    else if r.CallFailed? then EndsWith(s, Failed, ErrorEvent(r.error.code))
    else if w.recordUsage(turn).Some? then EndsByThrow(s, w.recordUsage(turn).value)
    else if uses == [] then OutcomeOf(s).Finished? && s.status == Completed
    else if |uses| > cfg.maxToolCallsPerTurn then EndsWith(s, Failed, ErrorEvent("max_tool_calls_exceeded"))
    else
      && (forall i: nat | i < |uses| && NoneThrows(w, turn, i) && w.tool(turn, i).ToolThrows? ::
            EndsByThrow(s, w.tool(turn, i).error))
      && (NoneThrows(w, turn, |uses|) ==>
            !NoneWaits(w, turn, |uses|) && OutcomeOf(s).Finished? && s.status == HumanApprovalPending)
  }

  lemma ToolsEndIt(w: World, cfg: Config, s: RunState, message: Message, usage: Usage)
    requires s.phase.Looping? && w.recordUsage(s.turn).None?
    requires 0 < |ExtractToolCalls(message)| <= cfg.maxToolCallsPerTurn
    ensures var uses, t := ExtractToolCalls(message), AfterAnswer(w, cfg, s, message, usage);
            && (t.phase.Looping? <==> NoneThrows(w, s.turn, |uses|) && NoneWaits(w, s.turn, |uses|))
            && (forall i: nat | i < |uses| && NoneThrows(w, s.turn, i) && w.tool(s.turn, i).ToolThrows? ::
                  EndsByThrow(Settle(t), w.tool(s.turn, i).error))
            && (NoneThrows(w, s.turn, |uses|) && !NoneWaits(w, s.turn, |uses|) ==>
                  t.phase.Stopped? && t.status == HumanApprovalPending)
  {
    var uses, t := ExtractToolCalls(message), AfterAnswer(w, cfg, s, message, usage);
    EitherThrowsOrNot(w, s.turn, uses);
    if NoneThrows(w, s.turn, |uses|) {
      ToolsAreRecorded(w, s.turn, uses, |uses|);
    }
    forall i: nat | i < |uses| && NoneThrows(w, s.turn, i) && w.tool(s.turn, i).ToolThrows?
      ensures EndsByThrow(Settle(t), w.tool(s.turn, i).error)
    {
      ThrowIsRecorded(w, s.turn, uses, i);
    }
  }

  lemma CallGoesOnOrEnds(w: World, cfg: Config, b: RunState)
    requires b.phase.Looping? && b.turn <= cfg.maxTurns
    requires w.preCheck(b.turn).WithinLimits? && w.context(b.turn).thrown.None?
    ensures var t := AfterContext(w, cfg, b);
            && (t.phase.Looping? <==> GoesOn(w, cfg, b.turn))
            && (!t.phase.Looping? ==> EndsIn(w, cfg, b.turn, Settle(t)))
  {
    var cw := CallWorldAt(w, cfg, b.turn);
    if ResultOf(cw).Answered? && w.recordUsage(b.turn).None? {
      var uses := UsesOf(w, cfg, b.turn);
      if 0 < |uses| <= cfg.maxToolCallsPerTurn {
        var input := LlmInput(b.conversation, Shown(w, cfg, b.turn, b.conversation));
        var called := b.(events := b.events + CallEvents(cw), calls := b.calls + [input]);
        ToolsEndIt(w, cfg, called, ResultOf(cw).message, ResultOf(cw).usage);
      }
    }
  }

  lemma TurnWithoutCallEnds(w: World, cfg: Config, s: RunState, t: RunState)
    requires s.phase.Looping? && !CallsLlm(w, cfg, s) && t == Turn(w, cfg, s)
    ensures !t.phase.Looping? && !GoesOn(w, cfg, s.turn + 1) && t.turn == s.turn + 1
    ensures EndsIn(w, cfg, s.turn + 1, Settle(t))
  {
  }

  lemma TurnGoesOnOrEnds(w: World, cfg: Config, s: RunState)
    requires s.phase.Looping?
    ensures Turn(w, cfg, s).phase.Looping? <==> GoesOn(w, cfg, s.turn + 1)
    ensures !Turn(w, cfg, s).phase.Looping? ==> EndsIn(w, cfg, s.turn + 1, Settle(Turn(w, cfg, s)))
    ensures Turn(w, cfg, s).turn == s.turn + 1
  {
    if CallsLlm(w, cfg, s) {
      var b := BeforeCall(w, cfg, s);
      assert Turn(w, cfg, s) == AfterContext(w, cfg, b) && AfterContext(w, cfg, b).turn == b.turn;
      CallGoesOnOrEnds(w, cfg, b);
    } else {
      TurnWithoutCallEnds(w, cfg, s, Turn(w, cfg, s));
    }
  }

  /** The state in which the last turn begins. */
  lemma {:induction false} LastTurn(w: World, cfg: Config, s: RunState) returns (last: RunState)
    requires s.phase.Looping?
    ensures last.phase.Looping? && last.turn >= s.turn
    ensures Loop(w, cfg, s) == Turn(w, cfg, last) && !Turn(w, cfg, last).phase.Looping?
    decreases cfg.maxTurns - s.turn
  {
    var t := Turn(w, cfg, s);
    if t.phase.Looping? {
      OneTurn(w, cfg, s, t);
      last := LastTurn(w, cfg, t);
    } else {
      last := s;
      LoopStops(w, cfg, s);
    }
  }

  /** A turn after which the loop runs on. */
  lemma OneTurn(w: World, cfg: Config, s: RunState, t: RunState)
    requires s.phase.Looping? && t == Turn(w, cfg, s) && t.phase.Looping?
    ensures GoesOn(w, cfg, s.turn + 1) && t.turn == s.turn + 1 && s.turn < cfg.maxTurns
    ensures Loop(w, cfg, s) == Loop(w, cfg, t)
  {
    TurnGoesOnOrEnds(w, cfg, s);
  }

  lemma StopsAfter(w: World, cfg: Config, s: RunState)
    requires s.phase.Looping? && !Turn(w, cfg, s).phase.Looping?
    ensures Loop(w, cfg, s).turn == s.turn + 1
  {
    LoopStops(w, cfg, s);
    TurnGoesOnOrEnds(w, cfg, s);
  }

  /** Every turn before the last one went on. */
  lemma {:induction false} EarlierTurnGoesOn(w: World, cfg: Config, s: RunState, k: nat, e: RunState)
    requires s.phase.Looping? && e == Loop(w, cfg, s) && s.turn < k < e.turn
    ensures GoesOn(w, cfg, k)
    decreases cfg.maxTurns - s.turn
  {
    var t := NextTurn(w, cfg, s, e);
    if k > s.turn + 1 {
      EarlierTurnGoesOn(w, cfg, t, k, e);
    }
  }

  lemma NextTurn(w: World, cfg: Config, s: RunState, e: RunState) returns (t: RunState)
    requires s.phase.Looping? && e == Loop(w, cfg, s) && s.turn + 1 < e.turn
    ensures t.phase.Looping? && t.turn == s.turn + 1 <= cfg.maxTurns && e == Loop(w, cfg, t)
    ensures GoesOn(w, cfg, s.turn + 1)
  {
    t := Turn(w, cfg, s);
    if t.phase.Looping? {
      OneTurn(w, cfg, s, t);
    } else {
      StopsAfter(w, cfg, s);
    }
  }

  lemma LoopStops(w: World, cfg: Config, s: RunState)
    requires s.phase.Looping? && !Turn(w, cfg, s).phase.Looping?
    ensures Loop(w, cfg, s) == Turn(w, cfg, s)
  {
    assert Loop(w, cfg, Turn(w, cfg, s)) == Turn(w, cfg, s);
  }

  /**
   Why a run ends: every turn before the last went on, and the last one shows, in its
   status, outcome and final event, the first thing that stopped it.
   */
  lemma RunEndsBecause(w: World, cfg: Config, req: Request)
    ensures var s := FinalState(w, cfg, req);
            if req.abortedAtStart then
              OutcomeOf(s).Finished? && s.status == AbortedByUser && s.turn == 0 && s.events == []
            else if req.queriesMemory && w.memories.RetrievalThrows? then
              EndsByThrow(s, w.memories.error) && s.turn == 0
            else
              s.turn > 0 && (forall k: nat | 0 < k < s.turn :: GoesOn(w, cfg, k)) && EndsIn(w, cfg, s.turn, s)
  {
    var s := Entry(w, req);
    if s.phase.Looping? {
      var last := LastTurn(w, cfg, s);
      TurnGoesOnOrEnds(w, cfg, last);
      forall k: nat | 0 < k < Loop(w, cfg, s).turn
        ensures GoesOn(w, cfg, k)
      {
        EarlierTurnGoesOn(w, cfg, s, k, Loop(w, cfg, s));
      }
    } else {
      assert Loop(w, cfg, s) == s;
    }
  }

  // ------------------------------------------------ what the trace records

  predicate NoRetrieval(events: seq<TraceEvent>) {
    forall e | e in events :: !e.MemoryRetrieval?
  }

  /** `b` continues `a` without a memory retrieval. */
  predicate Extends(a: seq<TraceEvent>, b: seq<TraceEvent>) {
    a <= b && NoRetrieval(b[|a|..])
  }

  lemma ExtendsBy(a: seq<TraceEvent>, added: seq<TraceEvent>)
    requires NoRetrieval(added)
    ensures Extends(a, a + added)
  {
    assert (a + added)[|a|..] == added;
  }

  lemma ExtendsFurther(a: seq<TraceEvent>, b: seq<TraceEvent>, c: seq<TraceEvent>)
    requires Extends(a, b) && Extends(b, c)
    ensures Extends(a, c)
  {
    assert c[|a|..] == b[|a|..] + c[|b|..];
  }

  lemma CallAddsEvents(w: World, cfg: Config, s: RunState)
    ensures Extends(s.events, AfterContext(w, cfg, s).events)
  {
    var cw := CallWorldAt(w, cfg, s.turn);
    EventsOfAfterContext(w, cfg, s);
    CallIsLlmOnly(cw);
    ConsequencesAreNotLlmEvents(w, cfg, s.turn);
    ExtendsBy(s.events, CallEvents(cw));
    ExtendsBy(s.events + CallEvents(cw), ConsequenceEvents(w, cfg, s.turn));
    ExtendsFurther(s.events, s.events + CallEvents(cw), AfterContext(w, cfg, s).events);
  }

  /** A turn only adds to the trace, and never a memory retrieval. */
  lemma TurnAddsEvents(w: World, cfg: Config, s: RunState) returns (t: RunState)
    ensures t == Turn(w, cfg, s) && Extends(s.events, t.events)
  {
    t := Turn(w, cfg, s);
    TurnCases(w, cfg, s);
    if CallsLlm(w, cfg, s) {
      var b := BeforeCall(w, cfg, s);
      ExtendsBy(s.events, CompactionEvents(w, cfg, b.turn, s.conversation));
      CallAddsEvents(w, cfg, b);
      ExtendsFurther(s.events, b.events, t.events);
    } else if t.events != s.events {
      var e: TraceEvent :| (e.ErrorEvent? || e.CostAlert?) && t.events == s.events + [e];
      ExtendsBy(s.events, [e]);
    }
  }

  lemma LoopUnfolds(w: World, cfg: Config, s: RunState) returns (t: RunState)
    requires s.phase.Looping?
    ensures t == Turn(w, cfg, s)
    ensures s.turn <= cfg.maxTurns ==> Loop(w, cfg, s) == Loop(w, cfg, t)
    ensures s.turn > cfg.maxTurns ==> Loop(w, cfg, s) == t
    ensures Extends(s.events, t.events)
  {
    t := TurnAddsEvents(w, cfg, s);
  }

  lemma {:induction false} LoopAddsEvents(w: World, cfg: Config, s: RunState)
    ensures Extends(s.events, Loop(w, cfg, s).events)
    decreases cfg.maxTurns - s.turn
  {
    if s.phase.Looping? {
      var t := LoopUnfolds(w, cfg, s);
      if s.turn <= cfg.maxTurns {
        LoopAddsEvents(w, cfg, t);
        ExtendsFurther(s.events, t.events, Loop(w, cfg, t).events);
      }
    }
  }

  /** The trace opens with the retrieved memories exactly when the run asked for them and there were some. */
  lemma MemoriesAreTraced(w: World, cfg: Config, req: Request)
    ensures var events := FinalState(w, cfg, req).events;
            if !req.abortedAtStart && req.queriesMemory && w.memories.Retrieved? && w.memories.count > 0
            then events != [] && events[0] == MemoryRetrieval(w.memories.count) && NoRetrieval(events[1..])
            else NoRetrieval(events)
  {
    var s := Loop(w, cfg, Entry(w, req));
    LoopAddsEvents(w, cfg, Entry(w, req));
    ExtendsBy(s.events, Settle(s).events[|s.events|..]);
    ExtendsFurther(Entry(w, req).events, s.events, Settle(s).events);
  }

  predicate AsksToolsIn(w: World, cfg: Config, s: RunState) {
    && s.phase.Looping? && CallsLlm(w, cfg, s)
    && w.recordUsage(s.turn + 1).None?
    && 0 < |UsesOf(w, cfg, s.turn + 1)| <= cfg.maxToolCallsPerTurn
    && NoneThrows(w, s.turn + 1, |UsesOf(w, cfg, s.turn + 1)|)
  }

  /** The trace ends with the records of these tool calls. */
  predicate EndsRecording(w: World, turn: nat, uses: seq<ToolUse>, events: seq<TraceEvent>) {
    |events| >= 2 * |uses| && RecordsAll(w, turn, uses, events[|events| - 2 * |uses|..])
  }

  lemma CallRecordsItsTools(w: World, cfg: Config, b: RunState, uses: seq<ToolUse>)
    requires w.recordUsage(b.turn).None? && uses == UsesOf(w, cfg, b.turn)
    requires 0 < |uses| <= cfg.maxToolCallsPerTurn && NoneThrows(w, b.turn, |uses|)
    ensures EndsRecording(w, b.turn, uses, AfterContext(w, cfg, b).events)
  {
    var events, tail := AfterContext(w, cfg, b).events, RunTools(w, b.turn, uses, |uses|).events;
    EventsOfAfterContext(w, cfg, b);
    ToolsAreRecorded(w, b.turn, uses, |uses|);
    assert uses[..|uses|] == uses;
    assert ConsequenceEvents(w, cfg, b.turn) == tail;
    assert events[|events| - 2 * |uses|..] == tail;
  }

  lemma TurnRecordsItsTools(w: World, cfg: Config, s: RunState, k: nat, uses: seq<ToolUse>, t: RunState)
    requires AsksToolsIn(w, cfg, s) && k == s.turn + 1 && uses == UsesOf(w, cfg, k) && t == Turn(w, cfg, s)
    ensures EndsRecording(w, k, uses, t.events)
  {
    var b := BeforeCall(w, cfg, s);
    assert t == AfterContext(w, cfg, b) by {
      TurnCases(w, cfg, s);
    }
    CallRecordsItsTools(w, cfg, b, uses);
  }

  lemma StillRecorded(w: World, k: nat, uses: seq<ToolUse>, a: seq<TraceEvent>, b: seq<TraceEvent>) returns (at: nat)
    requires EndsRecording(w, k, uses, a) && a <= b
    ensures at + 2 * |uses| <= |b| && RecordsAll(w, k, uses, b[at..at + 2 * |uses|])
  {
    at := |a| - 2 * |uses|;
    assert b[at..at + 2 * |uses|] == a[at..];
  }

  lemma {:induction false} LoopRecordsTools(w: World, cfg: Config, s: RunState, k: nat, uses: seq<ToolUse>)
    returns (at: nat)
    requires s.phase.Looping? && s.turn < k < Loop(w, cfg, s).turn && uses == UsesOf(w, cfg, k)
    ensures var events := Loop(w, cfg, s).events;
            at + 2 * |uses| <= |events| && RecordsAll(w, k, uses, events[at..at + 2 * |uses|])
    decreases cfg.maxTurns - s.turn
  {
    var t := LoopUnfolds(w, cfg, s);
    TurnStopsTheLoop(w, cfg, s, t);
    if k == s.turn + 1 {
      TurnRecordsItsTools(w, cfg, s, k, uses, t);
      LoopAddsEvents(w, cfg, t);
      at := StillRecorded(w, k, uses, t.events, Loop(w, cfg, t).events);
    } else {
      at := LoopRecordsTools(w, cfg, t, k, uses);
    }
  }

  lemma TurnStopsTheLoop(w: World, cfg: Config, s: RunState, t: RunState)
    requires s.phase.Looping? && t == Turn(w, cfg, s) && s.turn + 1 < Loop(w, cfg, s).turn
    ensures t.phase.Looping? && t.turn == s.turn + 1 && s.turn <= cfg.maxTurns && AsksToolsIn(w, cfg, s)
  {
    TurnGoesOnOrEnds(w, cfg, s);
    if !t.phase.Looping? {
      LoopStops(w, cfg, s);
    }
  }

  /**
   The trace of a run holds, for every turn that went on, one block with each of its
   tool calls, by id, name and input, followed at once by how it came out.
   */
  lemma ToolsAreTraced(w: World, cfg: Config, req: Request, k: nat) returns (at: nat)
    requires 0 < k < FinalState(w, cfg, req).turn
    ensures var uses, events := UsesOf(w, cfg, k), FinalState(w, cfg, req).events;
            at + 2 * |uses| <= |events| && RecordsAll(w, k, uses, events[at..at + 2 * |uses|])
  {
    var s := Entry(w, req);
    assert s.phase.Looping?;
    at := LoopRecordsTools(w, cfg, s, k, UsesOf(w, cfg, k));
    var n, e := 2 * |UsesOf(w, cfg, k)|, Loop(w, cfg, s);
    assert Settle(e).events[at..at + n] == e.events[at..at + n];
  }

  // ------------------------------------------------------ what is shown

  /**
   What the LLM is shown of a conversation: all of it when it fits; otherwise what
   fitting leaves of it, or, when messages were dropped and compaction is on and
   succeeds, a summary and the last four messages.
   */
  predicate IsShown(cfg: Config, context: ContextScript, conversation: seq<Message>, shown: seq<Message>) {
    var fitted := MemoryManager.FittedTo(conversation, context.count, cfg.window);
    && (context.count(conversation) <= cfg.window.contextWindowSize - cfg.window.reserveTokens ==>
          shown == conversation)
    && (|fitted| >= |conversation| || !cfg.compactionEnabled || context.summary.SummaryThrows? ==>
          shown == fitted)
    && (|fitted| < |conversation| && cfg.compactionEnabled && context.summary.Summarized? ==>
          && |shown| == 1 + (if |conversation| < 4 then |conversation| else 4)
          && shown[0] == Message(System, Plain("[Compacted conversation summary]\n" + context.summary.text))
          && shown[1..] == conversation[|conversation| - (|shown| - 1)..])
  }

  lemma FittingShows(w: World, cfg: Config, turn: nat, conversation: seq<Message>)
    ensures IsShown(cfg, w.context(turn), conversation, Shown(w, cfg, turn, conversation))
  {
    var shown := Shown(w, cfg, turn, conversation);
    if Compacts(w, cfg, turn, conversation) {
      assert shown == MemoryManager.Compact(conversation, w.context(turn).summary.text);
      assert shown[1..] == MemoryManager.LastOf(conversation, 4);
    }
  }

  /** So at every call of a run. */
  lemma ShownAtEveryCall(w: World, cfg: Config, req: Request, i: nat)
    requires i < |FinalState(w, cfg, req).calls|
    ensures var call := FinalState(w, cfg, req).calls[i];
            IsShown(cfg, w.context(i + 1), call.conversation, call.shown)
  {
    var s := LoopEnd(w, cfg, req);
    FittingShows(w, cfg, i + 1, s.calls[i].conversation);
  }

  lemma CallOpensWithARequest(w: World, cfg: Config, b: RunState)
    ensures var events := AfterContext(w, cfg, b).events;
            b.events <= events && |events| > |b.events| && events[|b.events|].LlmRequest?
  {
    var cw := CallWorldAt(w, cfg, b.turn);
    EventsOfAfterContext(w, cfg, b);
    var n, ending := CallIsTraced(cw);
    assert CallEvents(cw)[2 * 0] == LlmRequest(cw.primaryId);
  }

  lemma TurnIsItsCall(w: World, cfg: Config, s: RunState, b: RunState)
    requires CallsLlm(w, cfg, s) && b == BeforeCall(w, cfg, s)
    ensures Turn(w, cfg, s) == AfterContext(w, cfg, b)
  {
  }

  /** A turn records a compaction, of the whole conversation, exactly when it shows the LLM a compacted form. */
  lemma CompactionIsTraced(w: World, cfg: Config, s: RunState)
    requires s.phase.Looping? && CallsLlm(w, cfg, s)
    ensures var context, events := w.context(s.turn + 1), Turn(w, cfg, s).events;
            var fitted := MemoryManager.FittedTo(s.conversation, context.count, cfg.window);
            && |events| > |s.events|
            && (if |fitted| < |s.conversation| && cfg.compactionEnabled && context.summary.Summarized?
                then events[|s.events|] == Compaction(|s.conversation|)
                else events[|s.events|].LlmRequest?)
  {
    var b := BeforeCall(w, cfg, s);
    TurnIsItsCall(w, cfg, s, b);
    CallOpensWithARequest(w, cfg, b);
    assert b.events == s.events || b.events == s.events + [Compaction(|s.conversation|)];
  }
}
