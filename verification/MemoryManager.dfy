/**
 Fitting a conversation into the context window (src/memory/memory-manager.ts):
 greedy token-based pruning, turn-based pruning and compaction. The provider's
 token counter is an arbitrary function; a string's length is its number of
 characters.
 */
module MemoryManager {
  import opened Wrappers
  import opened Messages
  import opened Pairing

  // -------------------------------------------------------- token estimates

  function PartChars(p: Part): nat {
    match p
    case Text(text) => |text|
    case ToolResultPart(_, content, _) => |content|
    case ToolUsePart(use) => |use.input|
    case Media(_) => 0
  }

  function PartsChars(parts: seq<Part>): nat {
    if parts == [] then 0 else PartsChars(parts[..|parts| - 1]) + PartChars(parts[|parts| - 1])
  }

  function MessageChars(m: Message): nat {
    match m.content
    case Plain(text) => |text|
    case Parts(parts) => PartsChars(parts)
  }

  /** One token for every four characters begun. */
  function Estimate(m: Message): (tokens: nat)
    ensures 4 * tokens - 4 < MessageChars(m) <= 4 * tokens || (tokens == 0 && MessageChars(m) == 0)
  {
    (MessageChars(m) + 3) / 4
  }

  method EstimateMessageTokens(m: Message) returns (tokens: nat)
    ensures tokens == Estimate(m)
  {
    match m.content {
      case Plain(text) =>
        tokens := (|text| + 3) / 4;
      case Parts(parts) =>
        var chars := 0;
        for i := 0 to |parts|
          invariant chars == PartsChars(parts[..i])
        {
          assert parts[..i + 1][..i] == parts[..i];
          match parts[i] {
            case Text(text) => chars := chars + |text|;
            case ToolResultPart(_, content, _) => chars := chars + |content|;
            case ToolUsePart(use) => chars := chars + |use.input|;
            case Media(_) =>
          }
        }
        assert parts[..|parts|] == parts;
        tokens := (chars + 3) / 4;
    }
  }

  /** `tokens` is a quarter of `chars`, rounded up. */
  predicate IsQuarter(tokens: nat, chars: nat) {
    chars <= 4 * tokens < chars + 4
  }

  /** Everything of a part list that is counted, written out: texts, tool results and tool inputs, but no media. */
  function CountedText(parts: seq<Part>): string {
    if parts == [] then ""
    else CountedText(parts[..|parts| - 1])
         + (match parts[|parts| - 1]
            case Text(text) => text
            case ToolResultPart(_, content, _) => content
            case ToolUsePart(use) => use.input
            case Media(_) => "")
  }

  lemma {:induction false} PartsAreCounted(parts: seq<Part>)
    ensures PartsChars(parts) == |CountedText(parts)|
  {
    if parts != [] {
      PartsAreCounted(parts[..|parts| - 1]);
    }
  }

  /** A message costs a quarter of its length in characters, rounded up. */
  lemma EstimateIsAQuarter(m: Message)
    ensures m.content.Plain? ==> IsQuarter(Estimate(m), |m.content.text|)
    ensures m.content.Parts? ==> IsQuarter(Estimate(m), |CountedText(m.content.parts)|)
  {
    if m.content.Parts? {
      PartsAreCounted(m.content.parts);
    }
  }

  // ------------------------------------------------- selections by position

  /** The estimated tokens of the selected messages at positions `i` and later. */
  function Weight(ms: seq<Message>, s: set<nat>, i: nat): nat
    requires i <= |ms|
    decreases |ms| - i
  {
    if i == |ms| then 0 else (if i in s then Estimate(ms[i]) else 0) + Weight(ms, s, i + 1)
  }

  /** The selected messages at positions `i` and later, in their order. */
  function Selected(ms: seq<Message>, s: set<nat>, i: nat): seq<Message>
    requires i <= |ms|
    decreases |ms| - i
  {
    if i == |ms| then [] else if i in s then [ms[i]] + Selected(ms, s, i + 1) else Selected(ms, s, i + 1)
  }

  /** Positions after the first message. */
  predicate Droppable(ms: seq<Message>, s: set<nat>) {
    forall i | i in s :: 1 <= i < |ms|
  }

  predicate Fits(ms: seq<Message>, s: set<nat>, budget: int)
    requires ms != []
  {
    Droppable(ms, s) && Weight(ms, s, 1) <= budget
  }

  predicate AgreeAbove(s: set<nat>, t: set<nat>, d: nat) {
    forall j | j in s + t && j > d :: j in s && j in t
  }

  /**
   The most recent messages that fit: no fitting selection that agrees with it
   on everything newer than some message keeps that message when it does not.
   */
  ghost predicate LatestFit(ms: seq<Message>, s: set<nat>, budget: int)
    requires ms != []
  {
    && Fits(ms, s, budget)
    && forall t, d | Fits(ms, t, budget) && d in t && AgreeAbove(s, t, d) :: d in s
  }

  // ------------------------------------------------------- greedy selection

  /** Positions 1 .. n - 1 from the newest to the oldest, each taken if it still fits. */
  function Greedy(ms: seq<Message>, n: nat, budget: int): set<nat>
    requires n <= |ms|
  {
    if n <= 1 then {}
    else if Estimate(ms[n - 1]) <= budget then Greedy(ms, n - 1, budget - Estimate(ms[n - 1])) + {n - 1}
    else Greedy(ms, n - 1, budget)
  }

  /** The positions kept next to the first message, given what it leaves of the budget. */
  function Survivors(ms: seq<Message>, remaining: int): set<nat> {
    if remaining <= 0 then {} else Greedy(ms, |ms|, remaining)
  }

  lemma {:induction false} GreedyRange(ms: seq<Message>, n: nat, budget: int)
    requires n <= |ms|
    ensures forall i | i in Greedy(ms, n, budget) :: 1 <= i < n
  {
    if n > 1 {
      GreedyRange(ms, n - 1, budget);
      GreedyRange(ms, n - 1, budget - Estimate(ms[n - 1]));
    }
  }

  lemma {:induction false} WeightOfSame(ms: seq<Message>, s: set<nat>, t: set<nat>, i: nat)
    requires i <= |ms| && forall j | i <= j < |ms| :: j in s <==> j in t
    ensures Weight(ms, s, i) == Weight(ms, t, i)
    ensures Selected(ms, s, i) == Selected(ms, t, i)
    decreases |ms| - i
  {
    if i < |ms| {
      WeightOfSame(ms, s, t, i + 1);
    }
  }

  /** What is left of the budget after the positions `n` and later. */
  function Left(ms: seq<Message>, s: set<nat>, n: nat, budget: int): int
    requires n <= |ms|
  {
    budget - Weight(ms, s, n)
  }

  /** From any point down, the whole selection continues as a greedy selection of what is left. */
  lemma {:induction false} GreedyFromBelow(ms: seq<Message>, n: nat, budget: int, j: nat)
    requires 1 <= n <= |ms| && j < n
    ensures var s := Greedy(ms, |ms|, budget);
            j in s <==> j in Greedy(ms, n, Left(ms, s, n, budget))
    decreases |ms| - n
  {
    if n < |ms| {
      var s := Greedy(ms, |ms|, budget);
      var b := Left(ms, s, n + 1, budget);
      GreedyFromBelow(ms, n + 1, budget, j);
      GreedyFromBelow(ms, n + 1, budget, n);
      GreedyRange(ms, n, b);
    }
  }

  /** A position is taken exactly when it fits what the newer ones left. */
  lemma TakenWhenItFits(ms: seq<Message>, i: nat, budget: int)
    requires 1 <= i < |ms|
    ensures var s := Greedy(ms, |ms|, budget);
            i in s <==> Estimate(ms[i]) <= Left(ms, s, i + 1, budget)
  {
    var b := Left(ms, Greedy(ms, |ms|, budget), i + 1, budget);
    GreedyFromBelow(ms, i + 1, budget, i);
    GreedyRange(ms, i, b);
  }

  lemma {:induction false} GreedyFits(ms: seq<Message>, budget: int, i: nat)
    requires budget >= 0 && 1 <= i <= |ms|
    ensures Left(ms, Greedy(ms, |ms|, budget), i, budget) >= 0
    decreases |ms| - i
  {
    if i < |ms| {
      GreedyFits(ms, budget, i + 1);
      TakenWhenItFits(ms, i, budget);
    }
  }

  lemma {:induction false} WeightAntitone(ms: seq<Message>, s: set<nat>, i: nat, j: nat)
    requires i <= j <= |ms|
    ensures Weight(ms, s, j) <= Weight(ms, s, i)
    decreases j - i
  {
    if i < j {
      WeightAntitone(ms, s, i + 1, j);
    }
  }

  /** Greedy selection finds the latest fitting selection. */
  lemma GreedyIsLatest(ms: seq<Message>, budget: int)
    requires ms != [] && budget >= 0
    ensures LatestFit(ms, Greedy(ms, |ms|, budget), budget)
  {
    var s := Greedy(ms, |ms|, budget);
    GreedyRange(ms, |ms|, budget);
    GreedyFits(ms, budget, 1);
    forall t, d | Fits(ms, t, budget) && d in t && AgreeAbove(s, t, d)
      ensures d in s
    {
      WeightOfSame(ms, s, t, d + 1);
      WeightAntitone(ms, t, 1, d);
      TakenWhenItFits(ms, d, budget);
    }
  }

  /** There is at most one latest fitting selection. */
  lemma {:induction false} LatestFitIsUnique(ms: seq<Message>, s: set<nat>, t: set<nat>, budget: int, n: nat)
    requires ms != [] && LatestFit(ms, s, budget) && LatestFit(ms, t, budget) && n <= |ms|
    ensures forall j | j >= n :: j in s <==> j in t
    decreases |ms| - n
  {
    if n < |ms| {
      LatestFitIsUnique(ms, s, t, budget, n + 1);
      assert AgreeAbove(s, t, n) && AgreeAbove(t, s, n);
      assert n in t ==> n in s;
      assert n in s ==> n in t;
    }
  }

  // -------------------------------------------- what the selection promises

  /** No dropped message fits into what is left. */
  predicate Maximal(ms: seq<Message>, s: set<nat>, budget: int)
    requires ms != []
  {
    forall i | 1 <= i < |ms| && i !in s :: Weight(ms, s, 1) + Estimate(ms[i]) > budget
  }

  lemma {:induction false} WeightWithOneMore(ms: seq<Message>, s: set<nat>, d: nat, i: nat)
    requires i <= d < |ms| && d !in s
    ensures Weight(ms, s + {d}, i) == Weight(ms, s, i) + Estimate(ms[d])
    decreases d - i
  {
    if i < d {
      WeightWithOneMore(ms, s, d, i + 1);
    } else {
      WeightOfSame(ms, s, s + {d}, i + 1);
    }
  }

  lemma LatestIsMaximal(ms: seq<Message>, s: set<nat>, budget: int)
    requires ms != [] && LatestFit(ms, s, budget)
    ensures Maximal(ms, s, budget)
  {
    forall i | 1 <= i < |ms| && i !in s
      ensures Weight(ms, s, 1) + Estimate(ms[i]) > budget
    {
      var t := s + {i};
      WeightWithOneMore(ms, s, i, 1);
      if Weight(ms, t, 1) <= budget {
        assert Fits(ms, t, budget) && i in t && AgreeAbove(s, t, i);
        assert false;
      }
    }
  }

  predicate NotBefore(i: nat, from: nat) {
    from <= i
  }

  function Suffix(ms: seq<Message>, from: nat): set<nat> {
    set i | 0 <= i < |ms| && NotBefore(i, from)
  }

  /** Any whole run of newest messages that fits is kept. */
  lemma {:induction false} LatestKeepsSuffix(ms: seq<Message>, s: set<nat>, budget: int, from: nat, i: nat)
    requires ms != [] && LatestFit(ms, s, budget) && 1 <= from <= i <= |ms|
    requires Fits(ms, Suffix(ms, from), budget)
    ensures forall j | i <= j < |ms| :: j in s
    decreases |ms| - i
  {
    if i < |ms| {
      LatestKeepsSuffix(ms, s, budget, from, i + 1);
      assert i in Suffix(ms, from) && AgreeAbove(s, Suffix(ms, from), i);
    }
  }

  ghost predicate WeightlessAfterFirst(ms: seq<Message>) {
    exists i :: 1 <= i < |ms| && Estimate(ms[i]) == 0
  }

  /**
   Token-based pruning keeps the latest messages that fit next to the first one
   exactly when the first one fits, except in one case: when it uses up the
   budget to the last token, messages that cost nothing are dropped too.
   */
  lemma SurvivorsAreLatest(ms: seq<Message>, remaining: int)
    requires ms != []
    ensures LatestFit(ms, Survivors(ms, remaining), remaining)
       <==> remaining > 0 || (remaining == 0 && !WeightlessAfterFirst(ms))
  {
    if remaining > 0 {
      GreedyIsLatest(ms, remaining);
    } else if remaining == 0 {
      NothingWeighsNothing(ms, 1);
      if WeightlessAfterFirst(ms) {
        var i :| 1 <= i < |ms| && Estimate(ms[i]) == 0;
        if LatestFit(ms, {}, 0) {
          LatestIsMaximal(ms, {}, 0);
        }
      } else {
        forall t | Fits(ms, t, 0)
          ensures t == {}
        {
          if d :| d in t {
            WeightAntitone(ms, t, 1, d);
          }
        }
      }
    }
  }

  lemma {:induction false} NothingWeighsNothing(ms: seq<Message>, i: nat)
    requires i <= |ms|
    ensures Weight(ms, {}, i) == 0 && Selected(ms, {}, i) == []
    decreases |ms| - i
  {
    if i < |ms| {
      NothingWeighsNothing(ms, i + 1);
    }
  }

  /** No dropped message fits, with the same one exception. */
  lemma SurvivorsAreMaximal(ms: seq<Message>, remaining: int)
    requires ms != []
    ensures Maximal(ms, Survivors(ms, remaining), remaining) <==> !(remaining == 0 && WeightlessAfterFirst(ms))
  {
    SurvivorsAreLatest(ms, remaining);
    NothingWeighsNothing(ms, 1);
    if remaining >= 0 && !(remaining == 0 && WeightlessAfterFirst(ms)) {
      LatestIsMaximal(ms, Survivors(ms, remaining), remaining);
    }
  }

  // --------------------------------------------------------- implementation

  type TokenCounter = seq<Message> -> int

  /** What token-based pruning keeps: the first message and the survivors. */
  function PrunedByTokens(messages: seq<Message>, budget: int, count: TokenCounter): seq<Message> {
    if messages == [] then []
    else [messages[0]] + Selected(messages, Survivors(messages, budget - count([messages[0]])), 1)
  }

  method PruneTokenBased(messages: seq<Message>, tokenBudget: int, tokenCounter: TokenCounter)
    returns (result: seq<Message>)
    ensures result == PrunedByTokens(messages, tokenBudget, tokenCounter)
  {
    if |messages| == 0 {
      return [];
    }
    var first := messages[0];
    var remainingBudget := tokenBudget - tokenCounter([first]);
    if remainingBudget <= 0 {
      NothingWeighsNothing(messages, 1);
      return [first];
    }
    ghost var all := Greedy(messages, |messages|, remainingBudget);
    ghost var budget := remainingBudget;
    var kept: seq<Message> := [];
    var i := |messages| - 1;
    while i >= 1
      invariant 0 <= i < |messages|
      invariant remainingBudget == Left(messages, all, i + 1, budget)
      invariant kept == Selected(messages, all, i + 1)
    {
      var msg := messages[i];
      var msgTokens := EstimateMessageTokens(msg);
      TakenWhenItFits(messages, i, budget);
      if msgTokens <= remainingBudget {
        kept := [msg] + kept;
        remainingBudget := remainingBudget - msgTokens;
      }
      i := i - 1;
    }
    return [first] + kept;
  }

  // ---------------------------------------------------- turn-based pruning

  function Keep(maxTurns: int): (keep: nat)
    ensures keep >= 2
  {
    if maxTurns / 2 > 2 then maxTurns / 2 else 2
  }

  /** JavaScript's `slice(-n)`, for a positive `n`. */
  function LastOf<T>(s: seq<T>, n: nat): seq<T> {
    if n < |s| then s[|s| - n..] else s
  }

  function FirstOf<T>(s: seq<T>, n: nat): seq<T> {
    if n < |s| then s[..n] else s
  }

  function PruneTurnBased(messages: seq<Message>, maxTurns: int): seq<Message> {
    if |messages| <= maxTurns then messages
    else FirstOf(messages, Keep(maxTurns)) + LastOf(messages, Keep(maxTurns))
  }

  /** The positions the result is made of, in order. */
  function TurnPositions(n: nat, maxTurns: int): seq<nat> {
    if n <= maxTurns then seq(n, i => i)
    else
      var keep := if Keep(maxTurns) < n then Keep(maxTurns) else n;
      seq(2 * keep, i requires 0 <= i < 2 * keep => if i < keep then i else n - 2 * keep + i)
  }

  ghost predicate Increasing(s: seq<nat>) {
    forall i, j | 0 <= i < j < |s| :: s[i] < s[j]
  }

  lemma PrunedIsAtPositions(messages: seq<Message>, maxTurns: int)
    ensures var at := TurnPositions(|messages|, maxTurns);
            var r := PruneTurnBased(messages, maxTurns);
            |r| == |at| && forall k | 0 <= k < |r| :: at[k] < |messages| && r[k] == messages[at[k]]
  {
  }

  /** An over-long history is cut without repeating a message exactly when it holds two heads' worth of messages. */
  lemma TurnPruningRepeatsNothing(n: nat, maxTurns: int)
    requires n > maxTurns
    ensures Increasing(TurnPositions(n, maxTurns)) <==> n >= 2 * Keep(maxTurns) || n == 0
  {
    var at := TurnPositions(n, maxTurns);
    if 0 < n < 2 * Keep(maxTurns) {
      var keep := |at| / 2;
      assert at[keep - 1] == keep - 1 && at[keep] == n - keep;
    }
  }

  /** It respects the limit exactly when the limit is at least four; then the length is the limit, made even. */
  lemma TurnPruningRespectsLimit(n: nat, maxTurns: int)
    requires n > maxTurns
    ensures |TurnPositions(n, maxTurns)| <= maxTurns <==> maxTurns >= 4
    ensures maxTurns >= 4 ==>
              && |TurnPositions(n, maxTurns)| == maxTurns - maxTurns % 2
              && Increasing(TurnPositions(n, maxTurns))
  {
    TurnPruningRepeatsNothing(n, maxTurns);
  }

  /** Where the head ends and the tail begins in an over-long history of `n` messages. */
  function HeadCut(n: nat, maxTurns: int): (h: nat)
    ensures h <= n
  {
    if Keep(maxTurns) < n then Keep(maxTurns) else n
  }

  function TailCut(n: nat, maxTurns: int): (t: nat)
    ensures t <= n
  {
    n - HeadCut(n, maxTurns)
  }

  lemma TurnCuts(messages: seq<Message>, maxTurns: int)
    requires |messages| > maxTurns
    ensures FirstOf(messages, Keep(maxTurns)) == messages[..HeadCut(|messages|, maxTurns)]
    ensures LastOf(messages, Keep(maxTurns)) == messages[TailCut(|messages|, maxTurns)..]
  {
  }

  /**
   The head and the tail each stay well paired exactly when their cut does not
   fall inside a round. The result is well paired exactly when both do, or when
   head and tail meet, so that nothing was dropped.
   */
  lemma TurnPruningAndPairs(messages: seq<Message>, maxTurns: int)
    requires WellPaired(messages) && DistinctAnswers(messages) && |messages| > maxTurns
    ensures var h, t := HeadCut(|messages|, maxTurns), TailCut(|messages|, maxTurns);
            && (WellPaired(FirstOf(messages, Keep(maxTurns))) <==> CleanCut(messages, h))
            && (WellPaired(LastOf(messages, Keep(maxTurns))) <==> CleanCut(messages, t))
            && (WellPaired(PruneTurnBased(messages, maxTurns))
                <==> (CleanCut(messages, h) && CleanCut(messages, t)) || h == t)
  {
    TurnCuts(messages, maxTurns);
    CutsAndPairs(messages, HeadCut(|messages|, maxTurns), TailCut(|messages|, maxTurns));
  }

  // --------------------------------------------------- the memory manager

  datatype Strategy = TurnBased(maxTurnsInContext: int) | TokenBased

  datatype Window = Window(contextWindowSize: int, reserveTokens: int, strategy: Strategy)

  function Available(w: Window): int {
    w.contextWindowSize - w.reserveTokens
  }

  function FittedTo(messages: seq<Message>, count: TokenCounter, w: Window): seq<Message> {
    if count(messages) <= Available(w) then messages
    else
      match w.strategy
      case TurnBased(maxTurns) => PruneTurnBased(messages, maxTurns)
      case TokenBased => PrunedByTokens(messages, Available(w), count)
  }

  method FitToContextWindow(messages: seq<Message>, tokenCounter: TokenCounter, w: Window)
    returns (fitted: seq<Message>)
    ensures fitted == FittedTo(messages, tokenCounter, w)
  {
    var availableTokens := w.contextWindowSize - w.reserveTokens;
    var totalTokens := tokenCounter(messages);
    if totalTokens <= availableTokens {
      return messages;
    }
    match w.strategy {
      case TurnBased(maxTurns) =>
        fitted := PruneTurnBased(messages, maxTurns);
      case TokenBased =>
        fitted := PruneTokenBased(messages, availableTokens, tokenCounter);
    }
  }

  /** What token-based pruning keeps is within the budget, by the estimate, whenever the first message is. */
  lemma PrunedFitsTheBudget(messages: seq<Message>, budget: int, firstTokens: int)
    requires messages != []
    ensures firstTokens + Weight(messages, Survivors(messages, budget - firstTokens), 1) <= budget
       <==> firstTokens <= budget
  {
    var remaining := budget - firstTokens;
    NothingWeighsNothing(messages, 1);
    if remaining > 0 {
      GreedyFits(messages, remaining, 1);
    }
  }

  predicate AllPlain(ms: seq<Message>) {
    forall m | m in ms :: m.content.Plain?
  }

  /** The cost of plain messages: a quarter of each text, rounded up. */
  function PlainCost(ms: seq<Message>): nat
    requires AllPlain(ms)
  {
    if ms == [] then 0 else (|ms[0].content.text| + 3) / 4 + PlainCost(ms[1..])
  }

  lemma {:induction false} WeightIsPlainCost(ms: seq<Message>, s: set<nat>, i: nat)
    requires AllPlain(ms) && i <= |ms|
    ensures AllPlain(Selected(ms, s, i)) && Weight(ms, s, i) == PlainCost(Selected(ms, s, i))
    decreases |ms| - i
  {
    if i < |ms| {
      WeightIsPlainCost(ms, s, i + 1);
      EstimateIsAQuarter(ms[i]);
      assert i in s ==> Selected(ms, s, i)[1..] == Selected(ms, s, i + 1);
    }
  }

  /** For plain messages: what is kept next to the first one has no more text than the first one leaves room for. */
  lemma PlainPruningFitsTheBudget(messages: seq<Message>, budget: int, count: TokenCounter)
    requires messages != [] && AllPlain(messages)
    ensures var kept := PrunedByTokens(messages, budget, count)[1..];
            && AllPlain(kept)
            && (count([messages[0]]) + PlainCost(kept) <= budget <==> count([messages[0]]) <= budget)
  {
    var s := Survivors(messages, budget - count([messages[0]]));
    PrunedFitsTheBudget(messages, budget, count([messages[0]]));
    WeightIsPlainCost(messages, s, 1);
    assert PrunedByTokens(messages, budget, count)[1..] == Selected(messages, s, 1);
  }

  /** Compaction: a summary in front of the last four messages. */
  function Compact(messages: seq<Message>, summary: string): seq<Message> {
    [SummaryMessage(summary)] + LastOf(messages, 4)
  }

  function SummaryMessage(summary: string): (m: Message)
    ensures m.role == System
  {
    Message(System, Plain("[Compacted conversation summary]\n" + summary))
  }

  lemma SystemMessageInFront(m: Message, s: seq<Message>)
    requires m.role == System
    ensures WellPaired([m] + s) <==> WellPaired(s)
  {
    assert ([m] + s)[1..] == s;
  }

  /** The compacted conversation is well paired exactly when the four kept messages do not start inside a round. */
  lemma CompactionAndPairs(messages: seq<Message>, summary: string)
    requires WellPaired(messages)
    ensures WellPaired(Compact(messages, summary)) <==> |messages| <= 4 || CleanCut(messages, |messages| - 4)
  {
    SystemMessageInFront(SummaryMessage(summary), LastOf(messages, 4));
    if |messages| > 4 {
      TailIsPairedIffCleanCut(messages, |messages| - 4);
    }
  }

  lemma CharsOfOne(p: Part)
    ensures PartsChars([p]) == PartChars(p)
  {
    assert [p][..0] == [];
  }

  // ------------------------------------------ pruning by tokens and pairs

  /** What the messages at position `i` and later leave of the budget when each is taken if it still fits. */
  function Remaining(ms: seq<Message>, i: nat, budget: int): int
    requires i <= |ms|
    decreases |ms| - i
  {
    if i == |ms| then budget
    else
      var b := Remaining(ms, i + 1, budget);
      if Estimate(ms[i]) <= b then b - Estimate(ms[i]) else b
  }

  /** The first message is kept, and each other one that fits what the newer ones left. */
  predicate Kept(ms: seq<Message>, i: nat, remaining: int)
    requires i < |ms|
  {
    i == 0 || (remaining > 0 && Estimate(ms[i]) <= Remaining(ms, i + 1, remaining))
  }

  lemma {:induction false} RemainingIsLeft(ms: seq<Message>, i: nat, budget: int)
    requires 1 <= i <= |ms|
    ensures Remaining(ms, i, budget) == Left(ms, Greedy(ms, |ms|, budget), i, budget)
    decreases |ms| - i
  {
    if i < |ms| {
      RemainingIsLeft(ms, i + 1, budget);
      TakenWhenItFits(ms, i, budget);
    }
  }

  lemma KeptOnesSurvive(ms: seq<Message>, i: nat, remaining: int)
    requires 1 <= i < |ms|
    ensures i in Survivors(ms, remaining) <==> Kept(ms, i, remaining)
  {
    if remaining > 0 {
      RemainingIsLeft(ms, i + 1, remaining);
      TakenWhenItFits(ms, i, remaining);
    }
  }

  /** Message `j` is one of the tool messages that directly follow the assistant message `i`. */
  predicate Answering(ms: seq<Message>, i: nat, j: nat) {
    && i < j < |ms| && ms[i].role == Assistant
    && forall l | i < l <= j :: ms[l].role == Tool
  }

  ghost predicate WholeFrom(ms: seq<Message>, s: set<nat>, from: nat) {
    forall i: nat, j: nat | from <= i && Answering(ms, i, j) :: i in s <==> j in s
  }

  lemma {:induction false} FirstSelected(ms: seq<Message>, s: set<nat>, i: nat) returns (q: nat)
    requires i <= |ms| && Selected(ms, s, i) != []
    ensures i <= q < |ms| && q in s && Selected(ms, s, i)[0] == ms[q]
    ensures forall l | i <= l < q :: l !in s
    decreases |ms| - i
  {
    if i in s {
      q := i;
    } else {
      q := FirstSelected(ms, s, i + 1);
    }
  }

  /** While everything is selected, the selection copies the messages. */
  lemma {:induction false} SelectedRun(ms: seq<Message>, s: set<nat>, i: nat, d: nat)
    requires i <= d <= |ms| && forall l | i <= l < d :: l in s
    ensures Selected(ms, s, i) == ms[i..d] + Selected(ms, s, d)
    decreases d - i
  {
    if i < d {
      SelectedRun(ms, s, i + 1, d);
      var middle, rest := ms[i + 1..d], Selected(ms, s, d);
      assert ms[i..d] == [ms[i]] + middle;
      assert ([ms[i]] + middle) + rest == [ms[i]] + (middle + rest);
    }
  }

  lemma {:induction false} SelectedGap(ms: seq<Message>, s: set<nat>, i: nat, d: nat)
    requires i <= d <= |ms| && forall l | i <= l < d :: l !in s
    ensures Selected(ms, s, i) == Selected(ms, s, d)
    decreases d - i
  {
    if i < d {
      SelectedGap(ms, s, i + 1, d);
    }
  }

  /** A round whose call is kept and one of whose results is dropped stays incomplete. */
  lemma DroppedResult(ms: seq<Message>, s: set<nat>, i: nat, d: nat)
    requires i < d < |ms| && WellPaired(ms[i..]) && DistinctAnswers(ms)
    requires ms[d].role == Tool && d !in s && forall l | i <= l < d :: l in s
    ensures !WellPaired(Selected(ms, s, i))
  {
    var rest := Selected(ms, s, d);
    SelectedRun(ms, s, i, d);
    assert ms[i..][..d - i] == ms[i..d] && ms[i..][d - i] == ms[d];
    if WellPaired(ms[i..d] + rest) {
      AfterUncleanCut(ms[i..], d - i, rest);
      var q := FirstSelected(ms, s, d);
    }
  }

  /** Results that are kept without their call come first in what is left. */
  lemma DroppedCall(ms: seq<Message>, s: set<nat>, i: nat, j: nat)
    requires Answering(ms, i, j) && i !in s && j in s
    ensures !WellPaired(Selected(ms, s, i))
  {
    SomethingSelected(ms, s, i, j);
    var q := FirstSelected(ms, s, i);
  }

  lemma {:induction false} SomethingSelected(ms: seq<Message>, s: set<nat>, i: nat, j: nat)
    requires i <= j < |ms| && j in s
    ensures Selected(ms, s, i) != []
    decreases j - i
  {
    if i < j && i !in s {
      SomethingSelected(ms, s, i + 1, j);
    }
  }

  lemma FirstMissing(s: set<nat>, i: nat, j: nat) returns (d: nat)
    requires i < j && i in s && j !in s
    ensures i < d <= j && d !in s && forall l | i <= l < d :: l in s
  {
    d := i + 1;
    while d in s
      invariant i < d <= j && forall l | i <= l < d :: l in s
      decreases j - d
    {
      d := d + 1;
    }
  }

  lemma BrokenRound(ms: seq<Message>, s: set<nat>, i: nat, j: nat)
    requires Answering(ms, i, j) && WellPaired(ms[i..]) && DistinctAnswers(ms)
    requires !(i in s <==> j in s)
    ensures !WellPaired(Selected(ms, s, i))
  {
    if i in s {
      var d := FirstMissing(s, i, j);
      DroppedResult(ms, s, i, d);
    } else {
      DroppedCall(ms, s, i, j);
    }
  }

  /** Any selection of a well paired conversation is well paired exactly when it takes each round whole or drops it. */
  lemma {:induction false} SelectionAndPairs(ms: seq<Message>, s: set<nat>, i: nat)
    requires i <= |ms| && WellPaired(ms[i..]) && DistinctAnswers(ms)
    ensures WellPaired(Selected(ms, s, i)) <==> WholeFrom(ms, s, i)
    decreases |ms| - i
  {
    if i < |ms| {
      var n := NextBlock(ms, i);
      SelectionAndPairs(ms, s, i + n);
      BlockAndRest(ms, s, i, n);
    }
  }

  lemma NextBlock(ms: seq<Message>, i: nat) returns (n: nat)
    requires i < |ms| && WellPaired(ms[i..])
    ensures n == FirstBlock(ms[i..]) && 0 < n && i + n <= |ms| && WellPaired(ms[i + n..])
  {
    n := FirstBlock(ms[i..]);
    BlockOfWellPaired(ms[i..]);
    assert ms[i..][n..] == ms[i + n..];
  }

  lemma BlockAndRest(ms: seq<Message>, s: set<nat>, i: nat, n: nat)
    requires i < |ms| && WellPaired(ms[i..]) && DistinctAnswers(ms) && n == FirstBlock(ms[i..]) && 0 < n
    requires WellPaired(Selected(ms, s, i + n)) <==> WholeFrom(ms, s, i + n)
    ensures WellPaired(Selected(ms, s, i)) <==> WholeFrom(ms, s, i)
  {
    BlockPositions(ms, i, n);
    if j: nat :| Answering(ms, i, j) && !(i in s <==> j in s) {
      BrokenRound(ms, s, i, j);
    } else {
      BlockAt(ms, i, n);
      WholeBlock(ms, s, i, n);
    }
  }

  /** The tool messages of a block answer its first message, and no others do. */
  lemma BlockPositions(ms: seq<Message>, i: nat, n: nat)
    requires i < |ms| && WellPaired(ms[i..]) && n == FirstBlock(ms[i..]) && n > 0
    ensures forall j: nat | i < j < i + n :: Answering(ms, i, j)
    ensures forall a: nat, b: nat | i <= a && Answering(ms, a, b) :: (a == i && b < i + n) || i + n <= a
  {
    BlockOfWellPaired(ms[i..]);
    assert forall l | i < l < i + n :: ms[l] == ms[i..][l - i];
    if n > 1 {
      assert ms[i..][0] == ms[i];
    }
    if i + n < |ms| {
      assert ms[i..][n..] != [];
      BlockOfWellPaired(ms[i..][n..]);
      assert ms[i..][n..][0] == ms[i + n];
    }
  }

  lemma BlockAt(ms: seq<Message>, i: nat, n: nat)
    requires i < |ms| && WellPaired(ms[i..]) && n == FirstBlock(ms[i..])
    ensures i + n <= |ms| && WellPaired(ms[i..i + n])
  {
    FirstBlockIsPaired(ms[i..]);
    assert ms[i..][..n] == ms[i..i + n];
  }

  /** A block taken whole or not at all leaves the question to the rest. */
  lemma WholeBlock(ms: seq<Message>, s: set<nat>, i: nat, n: nat)
    requires n > 0 && i + n <= |ms| && WellPaired(ms[i..i + n])
    requires forall j: nat | i < j < i + n :: i in s <==> j in s
    ensures WellPaired(Selected(ms, s, i)) <==> WellPaired(Selected(ms, s, i + n))
  {
    if i in s {
      SelectedRun(ms, s, i, i + n);
      AfterWellPaired(ms[i..i + n], Selected(ms, s, i + n));
    } else {
      SelectedGap(ms, s, i, i + n);
    }
  }

  /** A tool message fits what newer messages left if and only if its call does. */
  ghost predicate RoundsKeptWhole(ms: seq<Message>, remaining: int) {
    forall i: nat, j: nat | Answering(ms, i, j) :: Kept(ms, i, remaining) <==> Kept(ms, j, remaining)
  }

  /**
   Token-based pruning keeps a well paired history well paired exactly when every
   tool message fits what newer messages left if and only if its call does, the
   first message counting as one that always fits.
   */
  lemma TokenPruningAndPairs(ms: seq<Message>, remaining: int)
    requires ms != [] && WellPaired(ms) && DistinctAnswers(ms)
    ensures WellPaired([ms[0]] + Selected(ms, Survivors(ms, remaining), 1)) <==> RoundsKeptWhole(ms, remaining)
  {
    var s := Survivors(ms, remaining) + {0};
    WeightOfSame(ms, s, Survivors(ms, remaining), 1);
    assert ms[0..] == ms;
    SelectionAndPairs(ms, s, 0);
    forall i: nat | i < |ms|
      ensures i in s <==> Kept(ms, i, remaining)
    {
      if i > 0 {
        KeptOnesSurvive(ms, i, remaining);
      }
    }
  }

  /**
   Token-based pruning looks at each message on its own, so it can keep a tool
   result whose tool call it drops: here a call of two tokens and a result of one.
   */
  lemma TokenPruningCanOrphanAResult(id: string, name: string)
    ensures var call := Message(Assistant, Parts([ToolUsePart(ToolUse(id, name, "{\"a\":1}"))]));
            var reply := Message(Tool, Parts([ToolResultPart(id, "ok", false)]));
            var history := [Message(User, Plain("go")), call, reply];
            && WellPaired(history)
            && [history[0]] + Selected(history, Survivors(history, 1), 1) == [history[0], reply]
            && !WellPaired([history[0], reply])
  {
    var use := ToolUse(id, name, "{\"a\":1}");
    var call := Message(Assistant, Parts([ToolUsePart(use)]));
    var reply := Message(Tool, Parts([ToolResultPart(id, "ok", false)]));
    var history := [Message(User, Plain("go")), call, reply];
    CharsOfOne(ToolUsePart(use));
    CharsOfOne(ToolResultPart(id, "ok", false));
    assert |use.input| == 7 && Estimate(call) == 2 && Estimate(reply) == 1;
    assert [ToolUsePart(use)][1..] == [] && ExtractToolCalls(call) == [use] + ToolUsesIn([]);
    assert history[1..] == [call, reply] && [call, reply][1..2] == [reply] && [call, reply][2..] == [];
    assert FirstRound([call, reply]) == 2;
    var s := Survivors(history, 1);
    TakenWhenItFits(history, 2, 1);
    TakenWhenItFits(history, 1, 1);
    assert Selected(history, s, 3) == [] && Selected(history, s, 2) == [reply];
    assert [history[0], reply][1..] == [reply];
  }

  // -------------------------------------------- what is shown, and its pairs

  /** When fitting keeps a well paired conversation well paired. */
  ghost predicate FittingKeepsPairs(ms: seq<Message>, count: TokenCounter, w: Window) {
    || ms == []
    || count(ms) <= Available(w)
    || match w.strategy
       case TurnBased(maxTurns) =>
         var h, t := HeadCut(|ms|, maxTurns), TailCut(|ms|, maxTurns);
         |ms| <= maxTurns || (CleanCut(ms, h) && CleanCut(ms, t)) || h == t
       case TokenBased => RoundsKeptWhole(ms, Available(w) - count([ms[0]]))
  }

  lemma FittingAndPairs(ms: seq<Message>, count: TokenCounter, w: Window)
    requires WellPaired(ms) && DistinctAnswers(ms)
    ensures WellPaired(FittedTo(ms, count, w)) <==> FittingKeepsPairs(ms, count, w)
  {
    if ms != [] && count(ms) > Available(w) {
      match w.strategy {
        case TurnBased(maxTurns) =>
          if |ms| > maxTurns {
            TurnPruningAndPairs(ms, maxTurns);
          }
        case TokenBased =>
          TokenPruningAndPairs(ms, Available(w) - count([ms[0]]));
      }
    }
  }
}
