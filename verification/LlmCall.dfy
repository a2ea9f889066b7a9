/**
 One LLM call with retry and failover (src/core/agent-runner.ts,
 `executeLLMCall`, `attemptCall`, `shouldFailover`).

 The provider, the abort signal and the clock are an arbitrary `CallWorld`.
 */
module LlmCall {
  import opened Wrappers
  import opened Messages
  import opened StreamDecoder

  datatype TraceEvent =
    | MemoryRetrieval(count: nat)
    | Compaction(messagesCompacted: nat)
    | LlmRequest(provider: string)
    | LlmResponse(provider: string, toolCallCount: nat, usage: Usage, text: string)
    | Retry(provider: string, attempt: nat, delayMs: int, errorCode: string)
    | Failover(from: string, to: string, reason: string)
    | ToolCall(toolCallId: string, toolId: string, input: Json)
    | ToolResult(toolCallId: string, success: bool)
    | ApprovalRequested(toolCallId: string, approvalId: string)
    | CostAlert(code: string)
    | ErrorEvent(code: string)

  /** The execution trace the run mutates; `events` only ever grows. */
  class ExecutionTrace {
    var events: seq<TraceEvent>
    var status: Status
    var turnCount: nat
    var totalTokensUsed: nat
    var totalCostUSD: real

    constructor ()
      ensures events == [] && status == Running && turnCount == 0 && totalTokensUsed == 0 && totalCostUSD == 0.0
    {
      events, status, turnCount, totalTokensUsed, totalCostUSD := [], Running, 0, 0, 0.0;
    }

    method AddTraceEvent(e: TraceEvent)
      modifies this`events
      ensures events == old(events) + [e]
    {
      events := events + [e];
    }
  }

  datatype Status = Running | Completed | Failed | BudgetExceeded | MaxTurns | HumanApprovalPending | AbortedByUser

  datatype FailoverConfig = FailoverConfig(onRateLimit: bool, onServerError: bool, onTimeout: bool, maxRetries: int)

  /** What one attempt meets: the provider's stream and the moment the run is aborted, if ever. */
  datatype AttemptScript = AttemptScript(stream: ChatStream, untilAbort: nat)

  datatype CallWorld = CallWorld(
    primaryId: string,
    fallbackId: Option<string>,
    primary: nat -> AttemptScript,
    fallback: AttemptScript,
    abortedAfterWait: nat -> bool,
    config: FailoverConfig)

  datatype CallResult = Answered(message: Message, usage: Usage) | CallFailed(error: NexusError)

  const MAX_RETRIES := 3

  /** The number of retries the configuration really allows. */
  function RetryLimit(config: FailoverConfig): nat {
    if config.maxRetries < 0 then 0
    else if config.maxRetries < MAX_RETRIES then config.maxRetries
    else MAX_RETRIES
  }

  predicate ShouldFailover(error: NexusError, config: FailoverConfig) {
    || (error.code == "RATE_LIMIT_EXCEEDED" && config.onRateLimit)
    || (error.statusCode >= 500 && config.onServerError)
    || (error.code == "TIMEOUT" && config.onTimeout)
  }

  function Pow2(n: nat): nat {
    if n == 0 then 1 else 2 * Pow2(n - 1)
  }

  /** 1 s, 2 s, 4 s, ... capped at 8 s. */
  function BackoffMs(attempt: nat): int
    requires attempt >= 1
  {
    var delay := 1000 * Pow2(attempt - 1);
    if delay < 8000 then delay else 8000
  }

  // ---------------------------------------------------------- specification

  function AttemptResult(s: AttemptScript): CallResult {
    match Collect(s.stream, s.untilAbort)
    case Broken(e) => CallFailed(e)
    case Complete(c) => Answered(BuildAssistant(c.textParts, c.tools), c.usage.value)
  }

  function ResponseEvents(provider: string, s: AttemptScript): seq<TraceEvent> {
    match Collect(s.stream, s.untilAbort)
    case Broken(_) => []
    case Complete(c) => [LlmResponse(provider, |c.tools|, c.usage.value, Join(c.textParts))]
  }

  function AttemptEvents(provider: string, s: AttemptScript): seq<TraceEvent> {
    [LlmRequest(provider)] + ResponseEvents(provider, s)
  }

  /** Attempt `j` on the primary provider failed with an error that may be retried. */
  predicate Retryable(w: CallWorld, j: nat) {
    var r := AttemptResult(w.primary(j));
    r.CallFailed? && ShouldFailover(r.error, w.config)
  }

  /** The number of the last attempt made on the primary provider, from attempt `j` on. */
  function LastPrimary(w: CallWorld, j: nat): nat
    decreases RetryLimit(w.config) - j
  {
    if j < RetryLimit(w.config) && Retryable(w, j) && !w.abortedAfterWait(j + 1) then LastPrimary(w, j + 1) else j
  }

  datatype Ending = Done | WaitAborted | FailedOver

  /** How the call ends after the last primary attempt. */
  function EndingAt(w: CallWorld, r: nat): Ending {
    if !Retryable(w, r) then Done
    else if r < RetryLimit(w.config) then WaitAborted
    else if w.fallbackId.Some? then FailedOver
    else Done
  }

  function RetryEvent(w: CallWorld, attempt: nat): TraceEvent
    requires attempt >= 1
  {
    var r := AttemptResult(w.primary(attempt - 1));
    Retry(w.primaryId, attempt, BackoffMs(attempt), if r.CallFailed? then r.error.code else "")
  }

  /** The events of the primary attempts `0..r`, each but the first announced by a retry. */
  function PrimaryEvents(w: CallWorld, r: nat): seq<TraceEvent> {
    if r == 0 then AttemptEvents(w.primaryId, w.primary(0))
    else PrimaryEvents(w, r - 1) + [RetryEvent(w, r)] + AttemptEvents(w.primaryId, w.primary(r))
  }

  function EndingEvents(w: CallWorld, r: nat): seq<TraceEvent> {
    match EndingAt(w, r)
    case Done => []
    case WaitAborted => [RetryEvent(w, r + 1)]
    case FailedOver =>
      var failed := AttemptResult(w.primary(r));
      [Failover(w.primaryId, w.fallbackId.value, if failed.CallFailed? then failed.error.code else "")]
      + AttemptEvents(w.fallbackId.value, w.fallback)
  }

  function CallEvents(w: CallWorld): seq<TraceEvent> {
    var r := LastPrimary(w, 0);
    PrimaryEvents(w, r) + EndingEvents(w, r)
  }

  function ResultOf(w: CallWorld): CallResult {
    var r := LastPrimary(w, 0);
    if EndingAt(w, r).FailedOver? then AttemptResult(w.fallback) else AttemptResult(w.primary(r))
  }

  // --------------------------------------------------------- implementation

  method AttemptCall(trace: ExecutionTrace, provider: string, script: AttemptScript) returns (result: CallResult)
    modifies trace`events
    ensures trace.events == old(trace.events) + AttemptEvents(provider, script)
    ensures result == AttemptResult(script)
  {
    trace.AddTraceEvent(LlmRequest(provider));
    var collected := CollectStream(script.stream, script.untilAbort);
    match collected {
      case Broken(e) =>
        result := CallFailed(e);
      case Complete(c) =>
        trace.AddTraceEvent(LlmResponse(provider, |c.tools|, c.usage.value, Join(c.textParts)));
        result := Answered(BuildAssistant(c.textParts, c.tools), c.usage.value);
    }
  }

  method ExecuteLLMCall(trace: ExecutionTrace, w: CallWorld) returns (result: CallResult)
    modifies trace`events
    ensures trace.events == old(trace.events) + CallEvents(w)
    ensures result == ResultOf(w)
  {
    ghost var base := trace.events;
    var maxRetries := RetryLimit(w.config);
    var lastResult := AttemptCall(trace, w.primaryId, w.primary(0));
    var attempt := 1;
    while attempt <= maxRetries && lastResult.CallFailed?
      invariant 1 <= attempt <= maxRetries + 1
      invariant LastPrimary(w, attempt - 1) == LastPrimary(w, 0)
      invariant lastResult == AttemptResult(w.primary(attempt - 1))
      invariant trace.events == base + PrimaryEvents(w, attempt - 1)
    {
      if !ShouldFailover(lastResult.error, w.config) {
        break;
      }
      trace.AddTraceEvent(Retry(w.primaryId, attempt, BackoffMs(attempt), lastResult.error.code));
      assert trace.events == base + (PrimaryEvents(w, attempt - 1) + [RetryEvent(w, attempt)]);
      if w.abortedAfterWait(attempt) {
        assert LastPrimary(w, 0) == attempt - 1 && EndingAt(w, attempt - 1) == WaitAborted;
        return lastResult;
      }
      lastResult := AttemptCall(trace, w.primaryId, w.primary(attempt));
      assert trace.events == base + PrimaryEvents(w, attempt);
      attempt := attempt + 1;
    }
    ghost var r := attempt - 1;
    assert LastPrimary(w, 0) == r;
    result := FailOver(trace, w, r, lastResult);
    assert trace.events == base + (PrimaryEvents(w, r) + EndingEvents(w, r));
  }

  /** After the last primary attempt: one attempt on the fallback, when there is one and the error allows it. */
  method FailOver(trace: ExecutionTrace, w: CallWorld, ghost r: nat, lastResult: CallResult)
    returns (result: CallResult)
    requires lastResult == AttemptResult(w.primary(r)) && !EndingAt(w, r).WaitAborted?
    modifies trace`events
    ensures trace.events == old(trace.events) + EndingEvents(w, r)
    ensures result == if EndingAt(w, r).FailedOver? then AttemptResult(w.fallback) else lastResult
  {
    if lastResult.CallFailed? && w.fallbackId.Some? && ShouldFailover(lastResult.error, w.config) {
      trace.AddTraceEvent(Failover(w.primaryId, w.fallbackId.value, lastResult.error.code));
      result := AttemptCall(trace, w.fallbackId.value, w.fallback);
    } else {
      result := lastResult;
    }
  }

  // -------------------------------------------------------- trace grammar

  datatype Kind = RequestKind | ResponseKind | RetryKind | FailoverKind | OtherKind

  function KindOfEvent(e: TraceEvent): Kind {
    match e
    case LlmRequest(_) => RequestKind
    case LlmResponse(_, _, _, _) => ResponseKind
    case Retry(_, _, _, _) => RetryKind
    case Failover(_, _, _) => FailoverKind
    case _ => OtherKind
  }

  function Kinds(events: seq<TraceEvent>): seq<Kind> {
    seq(|events|, i requires 0 <= i < |events| => KindOfEvent(events[i]))
  }

  /** `retry llm_request`, n times. */
  function RetryRounds(n: nat): seq<Kind> {
    if n == 0 then [] else RetryRounds(n - 1) + [RetryKind, RequestKind]
  }

  /** llm_request (retry llm_request)^n, then the ending, then llm_response exactly if answered. */
  function Sentence(n: nat, ending: Ending, answered: bool): seq<Kind> {
    [RequestKind] + RetryRounds(n)
    + (match ending
       case Done => []
       case WaitAborted => [RetryKind]
       case FailedOver => [FailoverKind, RequestKind])
    + (if answered then [ResponseKind] else [])
  }

  lemma {:induction false} LastPrimaryMeets(w: CallWorld, j: nat)
    requires j <= RetryLimit(w.config)
    ensures j <= LastPrimary(w, j) <= RetryLimit(w.config)
    ensures forall i | j <= i < LastPrimary(w, j) :: Retryable(w, i) && !w.abortedAfterWait(i + 1)
    ensures var r := LastPrimary(w, j);
            r < RetryLimit(w.config) && Retryable(w, r) ==> w.abortedAfterWait(r + 1)
    decreases RetryLimit(w.config) - j
  {
    if j < RetryLimit(w.config) && Retryable(w, j) && !w.abortedAfterWait(j + 1) {
      LastPrimaryMeets(w, j + 1);
    }
  }

  lemma KindsAppend(a: seq<TraceEvent>, b: seq<TraceEvent>)
    ensures Kinds(a + b) == Kinds(a) + Kinds(b)
  {
  }

  function AnswerKind(r: CallResult): seq<Kind> {
    if r.Answered? then [ResponseKind] else []
  }

  lemma KindsOfAttempt(provider: string, s: AttemptScript)
    ensures Kinds(AttemptEvents(provider, s)) == [RequestKind] + AnswerKind(AttemptResult(s))
  {
  }

  lemma {:induction false} PrimaryGrammar(w: CallWorld, r: nat)
    requires forall j | 0 <= j < r :: Retryable(w, j)
    ensures Kinds(PrimaryEvents(w, r)) == [RequestKind] + RetryRounds(r) + AnswerKind(AttemptResult(w.primary(r)))
    decreases r
  {
    KindsOfAttempt(w.primaryId, w.primary(r));
    if r > 0 {
      var before, announce := PrimaryEvents(w, r - 1), [RetryEvent(w, r)];
      PrimaryGrammar(w, r - 1);
      assert Retryable(w, r - 1);
      assert Kinds(before) == [RequestKind] + RetryRounds(r - 1);
      assert Kinds(announce) == [RetryKind];
      KindsAppend(before, announce);
      KindsAppend(before + announce, AttemptEvents(w.primaryId, w.primary(r)));
      assert [RequestKind] + RetryRounds(r - 1) + [RetryKind] + [RequestKind] == [RequestKind] + RetryRounds(r);
    }
  }

  lemma FailoverGrammar(w: CallWorld, r: nat)
    requires EndingAt(w, r).FailedOver?
    ensures Kinds(EndingEvents(w, r)) == [FailoverKind, RequestKind] + AnswerKind(AttemptResult(w.fallback))
  {
    KindsOfAttempt(w.fallbackId.value, w.fallback);
    KindsAppend([EndingEvents(w, r)[0]], AttemptEvents(w.fallbackId.value, w.fallback));
    assert [FailoverKind] + [RequestKind] + AnswerKind(AttemptResult(w.fallback))
        == [FailoverKind, RequestKind] + AnswerKind(AttemptResult(w.fallback));
  }

  /**
   The events of one call, for every provider behaviour: some number `n` of
   retries within the limit, each after a retryable failure and an unaborted
   wait; a trailing `retry` exactly when the wait after it is aborted; a
   failover only after a retryable failure with the retries used up; and
   `llm_response` last, exactly on success.
   */
  lemma CallGrammar(w: CallWorld) returns (n: nat, ending: Ending)
    ensures Kinds(CallEvents(w)) == Sentence(n, ending, ResultOf(w).Answered?)
    ensures n <= RetryLimit(w.config) <= MAX_RETRIES
    ensures forall j | 0 <= j < n :: Retryable(w, j) && !w.abortedAfterWait(j + 1)
    ensures ending.WaitAborted? <==> n < RetryLimit(w.config) && Retryable(w, n) && w.abortedAfterWait(n + 1)
    ensures ending.FailedOver? <==> n == RetryLimit(w.config) && Retryable(w, n) && w.fallbackId.Some?
    ensures ending.Done? && ResultOf(w).CallFailed? && w.fallbackId.Some? ==> !Retryable(w, n)
    ensures ending.WaitAborted? ==> ResultOf(w).CallFailed?
  {
    n := LastPrimary(w, 0);
    ending := EndingAt(w, n);
    LastPrimaryMeets(w, 0);
    PrimaryGrammar(w, n);
    KindsAppend(PrimaryEvents(w, n), EndingEvents(w, n));
    match ending {
      case Done =>
        assert Kinds(EndingEvents(w, n)) == [];
      case WaitAborted =>
        assert Kinds(EndingEvents(w, n)) == [RetryKind];
      case FailedOver =>
        FailoverGrammar(w, n);
    }
  }

  function Requests(events: seq<TraceEvent>): nat {
    if events == [] then 0 else (if events[0].LlmRequest? then 1 else 0) + Requests(events[1..])
  }

  lemma {:induction false} RequestsAppend(a: seq<TraceEvent>, b: seq<TraceEvent>)
    ensures Requests(a + b) == Requests(a) + Requests(b)
  {
    if a == [] {
      assert a + b == b;
    } else {
      assert (a + b)[1..] == a[1..] + b;
      RequestsAppend(a[1..], b);
    }
  }

  lemma OneRequestPerAttempt(provider: string, s: AttemptScript)
    ensures Requests(AttemptEvents(provider, s)) == 1
  {
    var response := ResponseEvents(provider, s);
    RequestsAppend([LlmRequest(provider)], response);
    assert [LlmRequest(provider)][1..] == [];
    assert response != [] ==> response[1..] == [];
  }

  lemma {:induction false} PrimaryRequests(w: CallWorld, r: nat)
    ensures Requests(PrimaryEvents(w, r)) == r + 1
  {
    OneRequestPerAttempt(w.primaryId, w.primary(r));
    if r > 0 {
      PrimaryRequests(w, r - 1);
      RequestsAppend(PrimaryEvents(w, r - 1), [RetryEvent(w, r)]);
      RequestsAppend(PrimaryEvents(w, r - 1) + [RetryEvent(w, r)], AttemptEvents(w.primaryId, w.primary(r)));
      assert [RetryEvent(w, r)][1..] == [];
    }
  }

  /** One call makes at least one and at most `m + 2` attempts. */
  lemma AttemptBound(w: CallWorld)
    ensures 1 <= Requests(CallEvents(w)) <= RetryLimit(w.config) + 2
  {
    var r := LastPrimary(w, 0);
    LastPrimaryMeets(w, 0);
    PrimaryRequests(w, r);
    RequestsAppend(PrimaryEvents(w, r), EndingEvents(w, r));
    var tail := EndingEvents(w, r);
    match EndingAt(w, r) {
      case Done =>
      case WaitAborted =>
        assert tail[1..] == [];
      case FailedOver =>
        var failed := AttemptResult(w.primary(r));
        var f := Failover(w.primaryId, w.fallbackId.value, if failed.CallFailed? then failed.error.code else "");
        RequestsAppend([f], AttemptEvents(w.fallbackId.value, w.fallback));
        OneRequestPerAttempt(w.fallbackId.value, w.fallback);
        assert [f][1..] == [];
    }
  }

  /**
   An attempt that ends with the runner's own abort error is the last thing
   the call does: no retry, no failover, and that error is returned.
   */
  lemma AbortEndsTheCall(w: CallWorld, j: nat)
    requires j <= LastPrimary(w, 0)
    requires AttemptResult(w.primary(j)) == CallFailed(ABORTED)
    ensures CallEvents(w) == PrimaryEvents(w, j)
    ensures ResultOf(w) == CallFailed(ABORTED)
  {
    LastPrimaryMeets(w, 0);
    assert !Retryable(w, j);
  }

  /**
   An abort noticed while waiting to retry is reported as the failure of the
   last attempt, an error that may be retried, and never as an abort.
   */
  lemma AbortWhileWaitingIsReportedAsFailure(w: CallWorld)
    requires EndingAt(w, LastPrimary(w, 0)).WaitAborted?
    ensures w.abortedAfterWait(LastPrimary(w, 0) + 1)
    ensures ResultOf(w).CallFailed? && ShouldFailover(ResultOf(w).error, w.config)
    ensures ResultOf(w).error != ABORTED
  {
    LastPrimaryMeets(w, 0);
  }

  // ------------------------------------------------- what an answer contains

  /** The answer says what the response's text blocks say and asks for what its tool blocks ask for. */
  ghost predicate AnswersResponse(parse: Parser, final: FinalMessage, blocks: seq<Block>, r: CallResult) {
    && r.Answered?
    && r.message.role == Assistant
    && VisibleText(r.message) == SpokenText(blocks)
    && (r.message.content.Plain? <==> ToolBlocksOf(blocks) == [])
    && AskInOrder(parse, blocks, ExtractToolCalls(r.message))
    && r.usage == final.usage
  }

  /** An attempt that receives a whole response answers with it. */
  lemma AttemptAnswersResponse(parse: Parser, final: FinalMessage, messageId: string, blocks: seq<Block>,
                               s: AttemptScript)
    requires WellFormed(blocks) && s.stream == ResponseStream(parse, final, messageId, blocks)
    requires |s.stream.events| <= s.untilAbort
    ensures AnswersResponse(parse, final, blocks, AttemptResult(s))
  {
    ResponseMeansItsBlocks(parse, final, messageId, blocks, s.untilAbort);
    var c := Collect(s.stream, s.untilAbort).c;
    BuiltMessageSaysAll(c.textParts, c.tools);
    ExtractRecoversTools(c.textParts, c.tools);
  }

  /** Attempt `j` is made on the primary: those before it failed in a way that is retried, and no wait was aborted. */
  predicate Reaches(w: CallWorld, j: nat) {
    && j <= RetryLimit(w.config)
    && forall i | 0 <= i < j :: Retryable(w, i) && !w.abortedAfterWait(i + 1)
  }

  lemma {:induction false} LastPrimaryIsReached(w: CallWorld, i: nat, j: nat)
    requires i <= j && Reaches(w, j)
    ensures LastPrimary(w, i) == LastPrimary(w, j)
    decreases j - i
  {
    if i < j {
      assert Retryable(w, i) && !w.abortedAfterWait(i + 1);
      LastPrimaryIsReached(w, i + 1, j);
    }
  }

  /** The call answers with the first whole response it receives on the primary. */
  lemma CallAnswersResponse(w: CallWorld, parse: Parser, final: FinalMessage, messageId: string, blocks: seq<Block>,
                            j: nat)
    requires Reaches(w, j) && WellFormed(blocks)
    requires w.primary(j).stream == ResponseStream(parse, final, messageId, blocks)
    requires |w.primary(j).stream.events| <= w.primary(j).untilAbort
    ensures AnswersResponse(parse, final, blocks, ResultOf(w))
  {
    LastPrimaryIsReached(w, 0, j);
    AttemptAnswersResponse(parse, final, messageId, blocks, w.primary(j));
  }

  /** With all primary attempts used up, it answers with what the fallback sends. */
  lemma CallAnswersFallback(w: CallWorld, parse: Parser, final: FinalMessage, messageId: string, blocks: seq<Block>)
    requires Reaches(w, RetryLimit(w.config)) && Retryable(w, RetryLimit(w.config)) && w.fallbackId.Some?
    requires WellFormed(blocks) && w.fallback.stream == ResponseStream(parse, final, messageId, blocks)
    requires |w.fallback.stream.events| <= w.fallback.untilAbort
    ensures AnswersResponse(parse, final, blocks, ResultOf(w))
  {
    LastPrimaryIsReached(w, 0, RetryLimit(w.config));
    AttemptAnswersResponse(parse, final, messageId, blocks, w.fallback);
  }

  // ------------------------------------------------- what the trace contains

  /** Which failures are retried or passed to the fallback, for the codes the system itself raises. */
  lemma RetriedFailures(config: FailoverConfig, code: string, status: int)
    ensures !ShouldFailover(ABORTED, config)
    ensures ShouldFailover(PROVIDER_ERROR, config) <==> config.onServerError
    ensures status >= 500 && config.onServerError ==> ShouldFailover(NexusError(code, status), config)
    ensures status < 500 ==> (ShouldFailover(NexusError("RATE_LIMIT_EXCEEDED", status), config) <==> config.onRateLimit)
    ensures status < 500 ==> (ShouldFailover(NexusError("TIMEOUT", status), config) <==> config.onTimeout)
    ensures status < 500 && code != "RATE_LIMIT_EXCEEDED" && code != "TIMEOUT" ==>
              !ShouldFailover(NexusError(code, status), config)
  {
  }

  /** The configured number of retries, between 0 and 3. */
  lemma RetriesAreClamped(config: FailoverConfig)
    ensures 0 <= config.maxRetries <= 3 ==> RetryLimit(config) == config.maxRetries
    ensures config.maxRetries <= 0 ==> RetryLimit(config) == 0
    ensures config.maxRetries >= 3 ==> RetryLimit(config) == 3
  {
  }

  /** The waits double from one second up to eight. */
  lemma {:induction false} WaitsDouble(attempt: nat)
    requires attempt >= 1
    ensures BackoffMs(1) == 1000
    ensures BackoffMs(attempt + 1) == if attempt <= 3 then 2 * BackoffMs(attempt) else 8000
    ensures attempt >= 4 ==> Pow2(attempt - 1) >= 8
  {
    assert Pow2(0) == 1;
    if attempt > 4 {
      WaitsDouble(attempt - 1);
    } else {
      assert Pow2(1) == 2 * Pow2(0) && Pow2(2) == 2 * Pow2(1) && Pow2(3) == 2 * Pow2(2) && Pow2(4) == 2 * Pow2(3);
    }
  }

  /** The waits before the first, second and third retry. */
  const WAITS_MS := [1000, 2000, 4000]

  function CodeOf(r: CallResult): string {
    if r.CallFailed? then r.error.code else ""
  }

  /** An `llm_response` reports what the answer contains. */
  predicate Reports(e: TraceEvent, provider: string, r: CallResult) {
    && r.Answered?
    && e == LlmResponse(provider, |ExtractToolCalls(r.message)|, r.usage, VisibleText(r.message))
  }

  lemma AttemptIsTraced(provider: string, s: AttemptScript)
    ensures var e, r := AttemptEvents(provider, s), AttemptResult(s);
            && |e| == (if r.Answered? then 2 else 1)
            && e[0] == LlmRequest(provider)
            && (r.Answered? ==> Reports(e[1], provider, r))
  {
    var r := Collect(s.stream, s.untilAbort);
    if r.Complete? {
      BuiltMessageSaysAll(r.c.textParts, r.c.tools);
      ExtractRecoversTools(r.c.textParts, r.c.tools);
    }
  }

  /** Event `2j` opens attempt `j` and the event before it announces the wait, with the error that caused it. */
  predicate RetriesAreTraced(w: CallWorld, events: seq<TraceEvent>, n: nat) {
    && n <= 3 && |events| > 2 * n
    && (forall j | 0 <= j <= n :: events[2 * j] == LlmRequest(w.primaryId))
    && forall j: nat | 1 <= j <= n ::
         events[2 * j - 1] == Retry(w.primaryId, j, WAITS_MS[j - 1], CodeOf(AttemptResult(w.primary(j - 1))))
  }

  lemma WaitsOfRetries(attempt: nat)
    requires 1 <= attempt <= 3
    ensures BackoffMs(attempt) == WAITS_MS[attempt - 1]
  {
    assert Pow2(0) == 1 && Pow2(1) == 2 * Pow2(0) && Pow2(2) == 2 * Pow2(1);
  }

  lemma OneMoreRetry(w: CallWorld, before: seq<TraceEvent>, n: nat, retry: TraceEvent, attempt: seq<TraceEvent>)
    requires n < 3 && RetriesAreTraced(w, before, n) && |before| == 2 * n + 1
    requires retry == Retry(w.primaryId, n + 1, WAITS_MS[n], CodeOf(AttemptResult(w.primary(n))))
    requires attempt != [] && attempt[0] == LlmRequest(w.primaryId)
    ensures RetriesAreTraced(w, before + [retry] + attempt, n + 1)
  {
    var events := before + [retry] + attempt;
    assert events[2 * n + 1] == retry && events[2 * n + 2] == attempt[0];
    forall j: nat | 1 <= j <= n + 1
      ensures events[2 * j - 1] == Retry(w.primaryId, j, WAITS_MS[j - 1], CodeOf(AttemptResult(w.primary(j - 1))))
    {
      if j <= n {
        assert events[2 * j - 1] == before[2 * j - 1];
      }
    }
  }

  lemma RetryIsTraced(w: CallWorld, n: nat)
    requires n < 3 && Retryable(w, n)
    ensures RetryEvent(w, n + 1) == Retry(w.primaryId, n + 1, WAITS_MS[n], CodeOf(AttemptResult(w.primary(n))))
    ensures |AttemptEvents(w.primaryId, w.primary(n))| == 1
  {
    WaitsOfRetries(n + 1);
    AttemptIsTraced(w.primaryId, w.primary(n));
  }

  lemma {:induction false} PrimaryIsTraced(w: CallWorld, n: nat)
    requires Reaches(w, n)
    ensures RetriesAreTraced(w, PrimaryEvents(w, n), n)
    ensures |PrimaryEvents(w, n)| == 2 * n + |AttemptEvents(w.primaryId, w.primary(n))|
    ensures AttemptResult(w.primary(n)).Answered? ==>
              |PrimaryEvents(w, n)| == 2 * n + 2
              && Reports(PrimaryEvents(w, n)[2 * n + 1], w.primaryId, AttemptResult(w.primary(n)))
    decreases n
  {
    var attempt := AttemptEvents(w.primaryId, w.primary(n));
    AttemptIsTraced(w.primaryId, w.primary(n));
    if n > 0 {
      var before := PrimaryEvents(w, n - 1);
      PrimaryIsTraced(w, n - 1);
      assert Retryable(w, n - 1);
      RetryIsTraced(w, n - 1);
      OneMoreRetry(w, before, n - 1, RetryEvent(w, n), attempt);
      assert PrimaryEvents(w, n) == before + [RetryEvent(w, n)] + attempt;
    }
  }

  /**
   What the trace of a call says, event by event: each attempt with its provider,
   each retry with its number, wait and cause, the failover with both providers, and
   the response with the contents of the answer.
   */
  lemma CallIsTraced(w: CallWorld) returns (n: nat, ending: Ending)
    ensures Reaches(w, n) && RetriesAreTraced(w, CallEvents(w), n)
    ensures ending.WaitAborted? <==> n < RetryLimit(w.config) && Retryable(w, n)
    ensures ending.FailedOver? <==> n == RetryLimit(w.config) && Retryable(w, n) && w.fallbackId.Some?
    ensures var e, r := CallEvents(w), ResultOf(w);
            var failure := CodeOf(AttemptResult(w.primary(n)));
            match ending
            case Done =>
              && |e| == (if r.Answered? then 2 * n + 2 else 2 * n + 1)
              && (r.Answered? ==> Reports(e[2 * n + 1], w.primaryId, r))
            case WaitAborted =>
              |e| == 2 * n + 2 && n < 3 && e[2 * n + 1] == Retry(w.primaryId, n + 1, WAITS_MS[n], failure)
            case FailedOver =>
              && |e| == (if r.Answered? then 2 * n + 4 else 2 * n + 3)
              && e[2 * n + 1] == Failover(w.primaryId, w.fallbackId.value, failure)
              && e[2 * n + 2] == LlmRequest(w.fallbackId.value)
              && (r.Answered? ==> Reports(e[2 * n + 3], w.fallbackId.value, r))
  {
    n := LastPrimary(w, 0);
    ending := EndingAt(w, n);
    LastPrimaryMeets(w, 0);
    PrimaryIsTraced(w, n);
    AttemptIsTraced(w.primaryId, w.primary(n));
    match ending {
      case Done =>
      case WaitAborted =>
        WaitsOfRetries(n + 1);
      case FailedOver =>
        AttemptIsTraced(w.fallbackId.value, w.fallback);
    }
  }
}
