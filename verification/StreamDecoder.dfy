/**
 The Anthropic stream decoder (src/providers/anthropic.ts, `chat`) and the
 collector that folds its output into one assistant message
 (src/core/agent-runner.ts, `attemptCall`).

 Both are loops over local variables. Each loop is proved equal to a fold, and
 the folds are related to the content blocks that the wire events came from.
 */
module StreamDecoder {
  import opened Wrappers
  import opened Messages

  datatype BlockKind = TextBlockKind | ToolBlockKind(id: string, name: string) | OtherBlockKind

  /** The wire events of one response. */
  datatype SdkEvent =
    | MessageStart(messageId: string)
    | BlockStart(block: BlockKind)
    | TextDelta(text: string)
    | JsonDelta(partial: string)
    | OtherDelta
    | BlockStop
    | MessageStop
    | OtherEvent

  datatype StopReason = EndTurn | ToolUseStop | MaxTokens | StopSequence

  datatype ChatEvent =
    | MessageStarted(messageId: string)
    | ContentDelta(text: string)
    | ToolUseStarted(id: string, name: string)
    | ToolUseDelta(id: string, partial: string)
    | ToolUseEnded(use: ToolUse)
    | MessageEnd(stopReason: StopReason, usage: Usage)
    | StreamError(error: Thrown)

  /** What the SDK reports once the stream is over. */
  datatype FinalMessage = FinalMessage(rawStopReason: string, usage: Usage)

  /** How the SDK stream ends: normally, with an API error (reported as an event), or by throwing. */
  datatype SdkEnding = Ended | ApiError | Raised(error: Thrown)

  /** A provider stream as the collector sees it: its events and what it throws at the end. */
  datatype ChatStream = ChatStream(events: seq<ChatEvent>, thrown: Option<Thrown>)

  type Parser = string -> Option<Json>

  const EMPTY_RECORD: Json := "{}"

  // ---------------------------------------------------------------- decoder

  datatype DecoderState = DecoderState(toolId: Option<string>, toolName: Option<string>, json: string)

  const IDLE := DecoderState(None, None, "")

  function StopReasonOf(raw: string): StopReason {
    if raw == "tool_use" then ToolUseStop
    else if raw == "max_tokens" then MaxTokens
    else if raw == "stop_sequence" then StopSequence
    else EndTurn
  }

  /** JavaScript truthiness of an optional string. */
  predicate Truthy(s: Option<string>) {
    s.Some? && s.value != ""
  }

  /** The tool input of a finished block; unparsable input becomes the empty record. */
  function ParseInput(parse: Parser, json: string): Json {
    match parse(if json != "" then json else EMPTY_RECORD)
    case Some(v) => v
    case None => EMPTY_RECORD
  }

  /** The local variables after one wire event. */
  function Advance(s: DecoderState, e: SdkEvent): DecoderState {
    match e
    case BlockStart(ToolBlockKind(id, name)) => DecoderState(Some(id), Some(name), "")
    case JsonDelta(partial) => s.(json := s.json + partial)
    case BlockStop => if Truthy(s.toolId) then IDLE else s
    case _ => s
  }

  /** The chat events yielded for one wire event. */
  function Emit(parse: Parser, final: FinalMessage, s: DecoderState, e: SdkEvent): seq<ChatEvent> {
    match e
    case MessageStart(id) => [MessageStarted(id)]
    case BlockStart(ToolBlockKind(id, name)) => [ToolUseStarted(id, name)]
    case TextDelta(text) => [ContentDelta(text)]
    case JsonDelta(partial) => if Truthy(s.toolId) then [ToolUseDelta(s.toolId.value, partial)] else []
    case BlockStop => if Truthy(s.toolId) then [ToolUseEnded(FinishedTool(parse, s))] else []
    case MessageStop => [MessageEnd(StopReasonOf(final.rawStopReason), final.usage)]
    case _ => []
  }

  function FinishedTool(parse: Parser, s: DecoderState): ToolUse
    requires s.toolId.Some?
  {
    ToolUse(s.toolId.value, if s.toolName.Some? then s.toolName.value else "", ParseInput(parse, s.json))
  }

  function StateAfter(s: DecoderState, events: seq<SdkEvent>): DecoderState
    decreases |events|
  {
    if events == [] then s else StateAfter(Advance(s, events[0]), events[1..])
  }

  function Yields(parse: Parser, final: FinalMessage, s: DecoderState, events: seq<SdkEvent>): seq<ChatEvent>
    decreases |events|
  {
    if events == [] then []
    else Emit(parse, final, s, events[0]) + Yields(parse, final, Advance(s, events[0]), events[1..])
  }

  /** The decoder: yields chat events while walking the wire events with three local variables. */
  method Decode(parse: Parser, final: FinalMessage, events: seq<SdkEvent>, ending: SdkEnding)
    returns (stream: ChatStream)
    ensures stream.events == Yields(parse, final, IDLE, events)
                             + (if ending.ApiError? then [StreamError(OwnError(PROVIDER_ERROR))] else [])
    ensures stream.thrown == if ending.Raised? then Some(ending.error) else None
  {
    var currentToolId: Option<string> := None;
    var currentToolName: Option<string> := None;
    var toolInputJson := "";
    var out: seq<ChatEvent> := [];
    var i := 0;
    while i < |events|
      invariant 0 <= i <= |events|
      invariant StateAfter(IDLE, events[..i]) == DecoderState(currentToolId, currentToolName, toolInputJson)
      invariant Yields(parse, final, IDLE, events[..i]) == out
    {
      DecodeAnother(parse, final, IDLE, events[..i], events[i]);
      assert events[..i] + [events[i]] == events[..i + 1];
      match events[i] {
        case MessageStart(id) =>
          out := out + [MessageStarted(id)];
        case BlockStart(block) =>
          if block.ToolBlockKind? {
            currentToolId := Some(block.id);
            currentToolName := Some(block.name);
            toolInputJson := "";
            out := out + [ToolUseStarted(block.id, block.name)];
          }
        case TextDelta(text) =>
          out := out + [ContentDelta(text)];
        case JsonDelta(partial) =>
          toolInputJson := toolInputJson + partial;
          if Truthy(currentToolId) {
            out := out + [ToolUseDelta(currentToolId.value, partial)];
          }
        case BlockStop =>
          if Truthy(currentToolId) {
            var parsedInput := EMPTY_RECORD;
            var parsed := parse(if toolInputJson != "" then toolInputJson else EMPTY_RECORD);
            if parsed.Some? {
              parsedInput := parsed.value;
            }
            var name := if currentToolName.Some? then currentToolName.value else "";
            out := out + [ToolUseEnded(ToolUse(currentToolId.value, name, parsedInput))];
            currentToolId := None;
            currentToolName := None;
            toolInputJson := "";
          }
        case MessageStop =>
          out := out + [MessageEnd(StopReasonOf(final.rawStopReason), final.usage)];
        case _ =>
      }
      i := i + 1;
    }
    assert events[..i] == events;
    stream := ChatStream(out + (if ending.ApiError? then [StreamError(OwnError(PROVIDER_ERROR))] else []),
                         if ending.Raised? then Some(ending.error) else None);
  }

  lemma {:induction false} DecodeAppend(parse: Parser, final: FinalMessage, s: DecoderState,
                                        a: seq<SdkEvent>, b: seq<SdkEvent>)
    ensures StateAfter(s, a + b) == StateAfter(StateAfter(s, a), b)
    ensures Yields(parse, final, s, a + b)
         == Yields(parse, final, s, a) + Yields(parse, final, StateAfter(s, a), b)
    decreases |a|
  {
    if a == [] {
      assert a + b == b;
    } else {
      assert (a + b)[1..] == a[1..] + b;
      DecodeAppend(parse, final, Advance(s, a[0]), a[1..], b);
    }
  }

  lemma DecodeAnother(parse: Parser, final: FinalMessage, s: DecoderState, a: seq<SdkEvent>, e: SdkEvent)
    ensures StateAfter(s, a + [e]) == Advance(StateAfter(s, a), e)
    ensures Yields(parse, final, s, a + [e])
         == Yields(parse, final, s, a) + Emit(parse, final, StateAfter(s, a), e)
  {
    DecodeAppend(parse, final, s, a, [e]);
    assert [e][1..] == [];
  }

  // -------------------------------------------------------------- collector

  datatype Collected = Collected(textParts: seq<string>, tools: seq<ToolUse>,
                                 usage: Option<Usage>, stop: Option<StopReason>)

  datatype CollectResult = Complete(c: Collected) | Broken(error: NexusError)

  const NOTHING_COLLECTED := Collected([], [], None, None)

  /** One chat event, when the run has not been aborted. */
  function CollectStep(c: Collected, e: ChatEvent): CollectResult {
    match e
    case ContentDelta(text) => Complete(c.(textParts := c.textParts + [text]))
    case ToolUseEnded(use) => Complete(c.(tools := c.tools + [use]))
    case MessageEnd(stop, usage) => Complete(c.(usage := Some(usage), stop := Some(stop)))
    case StreamError(t) => Broken(AsProviderError(t))
    case _ => Complete(c)
  }

  /** The abort signal is raised once `untilAbort` more events have been seen. */
  function CollectFrom(c: Collected, stream: ChatStream, untilAbort: nat): (r: CollectResult)
    ensures r.Complete? ==> r.c.usage.Some? && r.c.stop.Some?
    decreases |stream.events|
  {
    if stream.events == [] then
      if stream.thrown.Some? then Broken(AsProviderError(stream.thrown.value))
      else if c.usage.None? || c.stop.None? then Broken(STREAM_INCOMPLETE)
      else Complete(c)
    else if untilAbort == 0 then Broken(ABORTED)
    else
      match CollectStep(c, stream.events[0])
      case Broken(e) => Broken(e)
      case Complete(c1) => CollectFrom(c1, ChatStream(stream.events[1..], stream.thrown), untilAbort - 1)
  }

  function Collect(stream: ChatStream, untilAbort: nat): (r: CollectResult)
    ensures r.Complete? ==> r.c.usage.Some? && r.c.stop.Some?
  {
    CollectFrom(NOTHING_COLLECTED, stream, untilAbort)
  }

  /** The abort check stops the collection: the signal is up before the last event, and no error came first. */
  predicate CutByAbort(stream: ChatStream, untilAbort: nat) {
    untilAbort < |stream.events| && forall e | e in stream.events[..untilAbort] :: !e.StreamError?
  }

  /** The provider itself never reports the code that the runner uses for an abort. */
  predicate NeverRaisesAbort(stream: ChatStream) {
    && (forall e | e in stream.events && e.StreamError? :: AsProviderError(e.error).code != ABORTED.code)
    && (stream.thrown.Some? ==> AsProviderError(stream.thrown.value).code != ABORTED.code)
  }

  /** Collection ends with the abort code exactly when the abort check stopped it. */
  lemma {:induction false} AbortCodeMeansCut(c: Collected, stream: ChatStream, untilAbort: nat)
    requires NeverRaisesAbort(stream)
    ensures var r := CollectFrom(c, stream, untilAbort);
            && (CutByAbort(stream, untilAbort) ==> r == Broken(ABORTED))
            && (r.Broken? && r.error.code == ABORTED.code ==> CutByAbort(stream, untilAbort))
    decreases |stream.events|
  {
    if stream.events != [] && untilAbort > 0 {
      var e, rest := stream.events[0], ChatStream(stream.events[1..], stream.thrown);
      assert stream.events == [e] + rest.events;
      if untilAbort <= |stream.events| {
        assert stream.events[..untilAbort] == [e] + rest.events[..untilAbort - 1];
      }
      if CollectStep(c, e).Complete? {
        AbortCodeMeansCut(CollectStep(c, e).c, rest, untilAbort - 1);
      }
    }
  }

  /** The error a failed collection returns: the system's own error as it was raised, any other as a provider error. */
  predicate IsReported(t: Thrown, r: CollectResult) {
    && r.Broken?
    && (t.OwnError? ==> r.error == t.error)
    && (t.ForeignError? ==> r.error == NexusError("PROVIDER_ERROR", 502))
  }

  /** The first stream error that is reached, or else the exception at the end, decides the result. */
  lemma {:induction false} FailuresAreReported(c: Collected, a: seq<ChatEvent>, t: Thrown, b: seq<ChatEvent>,
                                               thrown: Option<Thrown>, untilAbort: nat)
    requires forall e | e in a :: !e.StreamError?
    ensures untilAbort > |a| ==>
              IsReported(t, CollectFrom(c, ChatStream(a + [StreamError(t)] + b, thrown), untilAbort))
    ensures untilAbort >= |a| ==> IsReported(t, CollectFrom(c, ChatStream(a, Some(t)), untilAbort))
    decreases |a|
  {
    if a != [] && untilAbort > 0 {
      assert a[0] in a && forall e | e in a[1..] :: e in a;
      assert (a + [StreamError(t)] + b)[1..] == a[1..] + [StreamError(t)] + b;
      FailuresAreReported(CollectStep(c, a[0]).c, a[1..], t, b, thrown, untilAbort - 1);
    } else if a == [] {
      assert a + [StreamError(t)] + b == [StreamError(t)] + b;
    }
  }

  /** The runner's collecting loop; a `throw` inside it becomes the returned error. */
  method CollectStream(stream: ChatStream, untilAbort: nat) returns (result: CollectResult)
    ensures result == Collect(stream, untilAbort)
  {
    var textParts: seq<string> := [];
    var toolUses: seq<ToolUse> := [];
    var finalUsage: Option<Usage> := None;
    var finalStopReason: Option<StopReason> := None;
    var i := 0;
    while i < |stream.events|
      invariant 0 <= i <= |stream.events|
      invariant i <= untilAbort
      invariant Collect(stream, untilAbort)
             == CollectFrom(Collected(textParts, toolUses, finalUsage, finalStopReason),
                            ChatStream(stream.events[i..], stream.thrown), untilAbort - i)
    {
      assert stream.events[i..][1..] == stream.events[i + 1..];
      if i >= untilAbort {
        return Broken(ABORTED);
      }
      match stream.events[i] {
        case ContentDelta(text) =>
          textParts := textParts + [text];
        case ToolUseEnded(use) =>
          toolUses := toolUses + [use];
        case MessageEnd(stop, usage) =>
          finalUsage := Some(usage);
          finalStopReason := Some(stop);
        case StreamError(t) =>
          return Broken(AsProviderError(t));
        case _ =>
      }
      i := i + 1;
    }
    if stream.thrown.Some? {
      return Broken(AsProviderError(stream.thrown.value));
    }
    if finalUsage.None? || finalStopReason.None? {
      return Broken(STREAM_INCOMPLETE);
    }
    return Complete(Collected(textParts, toolUses, finalUsage, finalStopReason));
  }

  // --------------------------------------------------------- content blocks

  /** A content block together with the way the wire cut it into fragments. */
  datatype Block =
    | TextBlock(pieces: seq<string>)
    | ToolBlock(id: string, name: string, pieces: seq<string>)
    | OtherBlock(deltas: nat)

  /** The content of a response, without any trace of fragmentation. */
  datatype Meaning = Meaning(text: string, tools: seq<ToolUse>)

  /** The API never sends a tool block without an id. */
  predicate WellFormed(blocks: seq<Block>) {
    forall b | b in blocks :: b.ToolBlock? ==> b.id != ""
  }

  function Deltas(b: Block): seq<SdkEvent> {
    match b
    case TextBlock(pieces) => seq(|pieces|, i requires 0 <= i < |pieces| => TextDelta(pieces[i]))
    case ToolBlock(_, _, pieces) => seq(|pieces|, i requires 0 <= i < |pieces| => JsonDelta(pieces[i]))
    case OtherBlock(n) => seq(n, _ => OtherDelta)
  }

  function KindOf(b: Block): BlockKind {
    match b
    case TextBlock(_) => TextBlockKind
    case ToolBlock(id, name, _) => ToolBlockKind(id, name)
    case OtherBlock(_) => OtherBlockKind
  }

  function RenderBlock(b: Block): seq<SdkEvent> {
    [BlockStart(KindOf(b))] + Deltas(b) + [BlockStop]
  }

  function RenderBlocks(blocks: seq<Block>): seq<SdkEvent> {
    if blocks == [] then [] else RenderBlock(blocks[0]) + RenderBlocks(blocks[1..])
  }

  /** The wire events of a whole response made of `blocks`. */
  function Render(messageId: string, blocks: seq<Block>): seq<SdkEvent> {
    [MessageStart(messageId)] + RenderBlocks(blocks) + [MessageStop]
  }

  function PiecesOf(b: Block): seq<string> {
    if b.TextBlock? then b.pieces else []
  }

  function ToolOf(parse: Parser, b: Block): seq<ToolUse> {
    if b.ToolBlock? then [ToolUse(b.id, b.name, ParseInput(parse, Join(b.pieces)))] else []
  }

  /** The text fragments that reach the collector, in order. */
  function TextPieces(blocks: seq<Block>): seq<string> {
    if blocks == [] then [] else PiecesOf(blocks[0]) + TextPieces(blocks[1..])
  }

  function ToolsOf(parse: Parser, blocks: seq<Block>): seq<ToolUse> {
    if blocks == [] then [] else ToolOf(parse, blocks[0]) + ToolsOf(parse, blocks[1..])
  }

  function MeaningOf(parse: Parser, blocks: seq<Block>): Meaning {
    Meaning(Join(TextPieces(blocks)), ToolsOf(parse, blocks))
  }

  // ------------------------------------------------- what the decoder yields

  function OutputOfBlock(parse: Parser, b: Block): seq<ChatEvent> {
    match b
    case TextBlock(pieces) => seq(|pieces|, i requires 0 <= i < |pieces| => ContentDelta(pieces[i]))
    case ToolBlock(id, name, pieces) =>
      [ToolUseStarted(id, name)]
      + JsonOutputs(id, pieces)
      + [ToolUseEnded(ToolUse(id, name, ParseInput(parse, Join(pieces))))]
    case OtherBlock(_) => []
  }

  function JsonOutputs(id: string, pieces: seq<string>): seq<ChatEvent> {
    seq(|pieces|, i requires 0 <= i < |pieces| => ToolUseDelta(id, pieces[i]))
  }

  lemma {:induction false} DecodeTextDeltas(parse: Parser, final: FinalMessage, s: DecoderState, pieces: seq<string>)
    ensures StateAfter(s, Deltas(TextBlock(pieces))) == s
    ensures Yields(parse, final, s, Deltas(TextBlock(pieces))) == OutputOfBlock(parse, TextBlock(pieces))
    decreases |pieces|
  {
    var deltas := Deltas(TextBlock(pieces));
    if pieces != [] {
      assert deltas[0] == TextDelta(pieces[0]) && deltas[1..] == Deltas(TextBlock(pieces[1..]));
      assert OutputOfBlock(parse, TextBlock(pieces))
          == [ContentDelta(pieces[0])] + OutputOfBlock(parse, TextBlock(pieces[1..]));
      DecodeTextDeltas(parse, final, s, pieces[1..]);
    }
  }

  lemma {:induction false} DecodeJsonDeltas(parse: Parser, final: FinalMessage, s: DecoderState,
                                            id: string, name: string, pieces: seq<string>)
    requires s.toolId == Some(id) && id != ""
    ensures StateAfter(s, Deltas(ToolBlock(id, name, pieces))) == s.(json := s.json + Join(pieces))
    ensures Yields(parse, final, s, Deltas(ToolBlock(id, name, pieces))) == JsonOutputs(id, pieces)
    decreases |pieces|
  {
    var deltas := Deltas(ToolBlock(id, name, pieces));
    if pieces == [] {
      assert s.json + Join(pieces) == s.json;
    } else {
      assert deltas[0] == JsonDelta(pieces[0]) && deltas[1..] == Deltas(ToolBlock(id, name, pieces[1..]));
      assert JsonOutputs(id, pieces) == [ToolUseDelta(id, pieces[0])] + JsonOutputs(id, pieces[1..]);
      assert s.json + pieces[0] + Join(pieces[1..]) == s.json + Join(pieces);
      DecodeJsonDeltas(parse, final, s.(json := s.json + pieces[0]), id, name, pieces[1..]);
    }
  }

  lemma {:induction false} DecodeOtherDeltas(parse: Parser, final: FinalMessage, s: DecoderState, n: nat)
    ensures StateAfter(s, Deltas(OtherBlock(n))) == s
    ensures Yields(parse, final, s, Deltas(OtherBlock(n))) == []
    decreases n
  {
    if n != 0 {
      assert Deltas(OtherBlock(n))[0] == OtherDelta && Deltas(OtherBlock(n))[1..] == Deltas(OtherBlock(n - 1));
      DecodeOtherDeltas(parse, final, s, n - 1);
    }
  }

  /** A complete block leaves the decoder with no open tool and yields its own output only. */
  lemma DecodeBlock(parse: Parser, final: FinalMessage, b: Block)
    requires b.ToolBlock? ==> b.id != ""
    ensures StateAfter(IDLE, RenderBlock(b)) == IDLE
    ensures Yields(parse, final, IDLE, RenderBlock(b)) == OutputOfBlock(parse, b)
  {
    var opening := [BlockStart(KindOf(b))];
    var s := Advance(IDLE, opening[0]);
    DecodeAnother(parse, final, IDLE, [], opening[0]);
    assert [] + opening == opening;
    DecodeAppend(parse, final, IDLE, opening, Deltas(b));
    match b {
      case TextBlock(pieces) =>
        DecodeTextDeltas(parse, final, s, pieces);
      case ToolBlock(id, name, pieces) =>
        DecodeJsonDeltas(parse, final, s, id, name, pieces);
        assert "" + Join(pieces) == Join(pieces);
      case OtherBlock(n) =>
        DecodeOtherDeltas(parse, final, s, n);
    }
    DecodeAnother(parse, final, IDLE, opening + Deltas(b), BlockStop);
  }

  /** A tool block without an id, which the API never sends, would yield no tool call. */
  lemma {:induction false} EmptyIdYieldsNoTool(parse: Parser, final: FinalMessage, s: DecoderState, pieces: seq<string>)
    requires s.toolId == Some("")
    ensures Yields(parse, final, s, Deltas(ToolBlock("", "", pieces)) + [BlockStop]) == []
    decreases |pieces|
  {
    var deltas := Deltas(ToolBlock("", "", pieces));
    if pieces == [] {
      assert deltas + [BlockStop] == [BlockStop] && [BlockStop][1..] == [];
    } else {
      assert deltas[0] == JsonDelta(pieces[0]) && deltas[1..] == Deltas(ToolBlock("", "", pieces[1..]));
      assert (deltas + [BlockStop])[1..] == deltas[1..] + [BlockStop];
      EmptyIdYieldsNoTool(parse, final, s.(json := s.json + pieces[0]), pieces[1..]);
    }
  }

  // ------------------------------------------------ what the collector keeps

  /** Whether the events contain nothing that stops the collector. */
  predicate Harmless(events: seq<ChatEvent>) {
    forall e | e in events :: !e.StreamError? && !e.MessageEnd?
  }

  function AbsorbOne(c: Collected, e: ChatEvent): Collected {
    match e
    case ContentDelta(text) => c.(textParts := c.textParts + [text])
    case ToolUseEnded(use) => c.(tools := c.tools + [use])
    case _ => c
  }

  function Absorb(c: Collected, events: seq<ChatEvent>): Collected
    decreases |events|
  {
    if events == [] then c else Absorb(AbsorbOne(c, events[0]), events[1..])
  }

  lemma {:induction false} CollectAbsorbs(c: Collected, a: seq<ChatEvent>, b: seq<ChatEvent>,
                                          thrown: Option<Thrown>, untilAbort: nat)
    requires Harmless(a) && |a| + |b| <= untilAbort
    ensures CollectFrom(c, ChatStream(a + b, thrown), untilAbort)
         == CollectFrom(Absorb(c, a), ChatStream(b, thrown), untilAbort - |a|)
    decreases |a|
  {
    if a == [] {
      assert a + b == b;
    } else {
      assert (a + b)[1..] == a[1..] + b;
      assert a[0] in a && forall e | e in a[1..] :: e in a;
      CollectAbsorbs(AbsorbOne(c, a[0]), a[1..], b, thrown, untilAbort - 1);
    }
  }

  lemma {:induction false} AbsorbAppend(c: Collected, a: seq<ChatEvent>, b: seq<ChatEvent>)
    ensures Absorb(c, a + b) == Absorb(Absorb(c, a), b)
    decreases |a|
  {
    if a == [] {
      assert a + b == b;
    } else {
      assert (a + b)[1..] == a[1..] + b;
      AbsorbAppend(AbsorbOne(c, a[0]), a[1..], b);
    }
  }

  lemma {:induction false} AbsorbText(parse: Parser, c: Collected, pieces: seq<string>)
    ensures Absorb(c, OutputOfBlock(parse, TextBlock(pieces))) == c.(textParts := c.textParts + pieces)
    decreases |pieces|
  {
    if pieces == [] {
      assert c.textParts + pieces == c.textParts;
    } else {
      var out := OutputOfBlock(parse, TextBlock(pieces));
      assert out[1..] == OutputOfBlock(parse, TextBlock(pieces[1..]));
      AbsorbText(parse, c.(textParts := c.textParts + [pieces[0]]), pieces[1..]);
      assert c.textParts + [pieces[0]] + pieces[1..] == c.textParts + pieces;
    }
  }

  lemma {:induction false} AbsorbJson(c: Collected, id: string, pieces: seq<string>)
    ensures Absorb(c, JsonOutputs(id, pieces)) == c
    decreases |pieces|
  {
    if pieces != [] {
      assert JsonOutputs(id, pieces)[1..] == JsonOutputs(id, pieces[1..]);
      AbsorbJson(c, id, pieces[1..]);
    }
  }

  function Extended(c: Collected, texts: seq<string>, tools: seq<ToolUse>): Collected {
    c.(textParts := c.textParts + texts, tools := c.tools + tools)
  }

  lemma ExtendTwice(c: Collected, texts1: seq<string>, tools1: seq<ToolUse>, texts2: seq<string>, tools2: seq<ToolUse>)
    ensures Extended(Extended(c, texts1, tools1), texts2, tools2) == Extended(c, texts1 + texts2, tools1 + tools2)
  {
    assert c.textParts + texts1 + texts2 == c.textParts + (texts1 + texts2);
    assert c.tools + tools1 + tools2 == c.tools + (tools1 + tools2);
  }

  lemma AbsorbBlock(parse: Parser, c: Collected, b: Block)
    ensures Harmless(OutputOfBlock(parse, b))
    ensures Absorb(c, OutputOfBlock(parse, b)) == Extended(c, PiecesOf(b), ToolOf(parse, b))
  {
    match b {
      case TextBlock(pieces) =>
        AbsorbText(parse, c, pieces);
        assert c.tools + [] == c.tools;
      case ToolBlock(id, name, pieces) =>
        var use := ToolUse(id, name, ParseInput(parse, Join(pieces)));
        var front := [ToolUseStarted(id, name)] + JsonOutputs(id, pieces);
        assert OutputOfBlock(parse, b) == front + [ToolUseEnded(use)];
        AbsorbAppend(c, [ToolUseStarted(id, name)], JsonOutputs(id, pieces));
        AbsorbJson(c, id, pieces);
        AbsorbAppend(c, front, [ToolUseEnded(use)]);
        assert c.textParts + [] == c.textParts;
      case OtherBlock(_) =>
        assert c.textParts + [] == c.textParts && c.tools + [] == c.tools;
    }
  }

  function OutputOf(parse: Parser, blocks: seq<Block>): seq<ChatEvent> {
    if blocks == [] then [] else OutputOfBlock(parse, blocks[0]) + OutputOf(parse, blocks[1..])
  }

  lemma {:induction false} DecodeBlocks(parse: Parser, final: FinalMessage, blocks: seq<Block>)
    requires WellFormed(blocks)
    ensures StateAfter(IDLE, RenderBlocks(blocks)) == IDLE
    ensures Yields(parse, final, IDLE, RenderBlocks(blocks)) == OutputOf(parse, blocks)
    decreases |blocks|
  {
    if blocks != [] {
      assert blocks[0] in blocks && forall b | b in blocks[1..] :: b in blocks;
      DecodeBlock(parse, final, blocks[0]);
      DecodeBlocks(parse, final, blocks[1..]);
      DecodeAppend(parse, final, IDLE, RenderBlock(blocks[0]), RenderBlocks(blocks[1..]));
    }
  }

  lemma {:induction false} OutputIsHarmless(parse: Parser, blocks: seq<Block>)
    ensures Harmless(OutputOf(parse, blocks))
  {
    if blocks != [] {
      AbsorbBlock(parse, NOTHING_COLLECTED, blocks[0]);
      OutputIsHarmless(parse, blocks[1..]);
    }
  }

  lemma {:induction false} AbsorbBlocks(parse: Parser, c: Collected, blocks: seq<Block>)
    ensures Absorb(c, OutputOf(parse, blocks)) == Extended(c, TextPieces(blocks), ToolsOf(parse, blocks))
    decreases |blocks|
  {
    if blocks == [] {
      assert c.textParts + [] == c.textParts && c.tools + [] == c.tools;
    } else {
      var b, rest := blocks[0], blocks[1..];
      AbsorbBlock(parse, c, b);
      AbsorbBlocks(parse, Extended(c, PiecesOf(b), ToolOf(parse, b)), rest);
      AbsorbAppend(c, OutputOfBlock(parse, b), OutputOf(parse, rest));
      ExtendTwice(c, PiecesOf(b), ToolOf(parse, b), TextPieces(rest), ToolsOf(parse, rest));
    }
  }

  /**
   For every well-formed response, decoding and collecting yields the text
   fragments in order and one tool call per tool block, whose input is parsed
   from the concatenated fragments of that block.
   */
  lemma ResponseIsCollected(parse: Parser, final: FinalMessage, messageId: string, blocks: seq<Block>, untilAbort: nat)
    requires WellFormed(blocks)
    requires |Yields(parse, final, IDLE, Render(messageId, blocks))| <= untilAbort
    ensures Collect(ChatStream(Yields(parse, final, IDLE, Render(messageId, blocks)), None), untilAbort)
         == Complete(Collected(TextPieces(blocks), ToolsOf(parse, blocks),
                               Some(final.usage), Some(StopReasonOf(final.rawStopReason))))
  {
    var start := MessageStarted(messageId);
    var end := MessageEnd(StopReasonOf(final.rawStopReason), final.usage);
    var opening := [MessageStart(messageId)];
    DecodeBlocks(parse, final, blocks);
    DecodeAnother(parse, final, IDLE, [], opening[0]);
    assert [] + opening == opening;
    DecodeAppend(parse, final, IDLE, opening, RenderBlocks(blocks));
    DecodeAnother(parse, final, IDLE, opening + RenderBlocks(blocks), MessageStop);
    var body := OutputOf(parse, blocks);
    assert Yields(parse, final, IDLE, Render(messageId, blocks)) == ([start] + body) + [end];
    OutputIsHarmless(parse, blocks);
    AbsorbBlocks(parse, NOTHING_COLLECTED, blocks);
    CollectAbsorbs(NOTHING_COLLECTED, [start] + body, [end], None, untilAbort);
    assert ([start] + body)[1..] == body;
    assert [] + TextPieces(blocks) == TextPieces(blocks) && [] + ToolsOf(parse, blocks) == ToolsOf(parse, blocks);
    assert [end][1..] == [];
  }

  // --------------------------------------- what a response says and asks for

  /** The stream that the decoder makes of a response which arrives to its end. */
  function ResponseStream(parse: Parser, final: FinalMessage, messageId: string, blocks: seq<Block>): ChatStream {
    ChatStream(Yields(parse, final, IDLE, Render(messageId, blocks)), None)
  }

  function ToolBlocksOf(blocks: seq<Block>): seq<Block> {
    if blocks == [] then []
    else if blocks[0].ToolBlock? then [blocks[0]] + ToolBlocksOf(blocks[1..])
    else ToolBlocksOf(blocks[1..])
  }

  /** The fragments of all text blocks, one after the other. */
  function SpokenText(blocks: seq<Block>): string {
    if blocks == [] then ""
    else (if blocks[0].TextBlock? then Join(blocks[0].pieces) else "") + SpokenText(blocks[1..])
  }

  /**
   A tool call asks for what the block's fragments say: the value they parse to,
   with no fragments that of an empty record, and an empty record when the parser
   refuses them.
   */
  ghost predicate AsksFor(parse: Parser, b: Block, use: ToolUse)
    requires b.ToolBlock?
  {
    var json := Join(b.pieces);
    && use.id == b.id && use.name == b.name
    && (json != "" && parse(json).Some? ==> use.input == parse(json).value)
    && (json == "" && parse("{}").Some? ==> use.input == parse("{}").value)
    && (use.input == "{}" <==> parse(if json == "" then "{}" else json) in {None, Some("{}")})
  }

  ghost predicate AskInOrder(parse: Parser, blocks: seq<Block>, uses: seq<ToolUse>) {
    && |uses| == |ToolBlocksOf(blocks)|
    && forall i | 0 <= i < |uses| ::
         ToolBlocksOf(blocks)[i].ToolBlock? && AsksFor(parse, ToolBlocksOf(blocks)[i], uses[i])
  }

  lemma {:induction false} ToolsAskInOrder(parse: Parser, blocks: seq<Block>)
    ensures AskInOrder(parse, blocks, ToolsOf(parse, blocks))
  {
    if blocks != [] {
      ToolsAskInOrder(parse, blocks[1..]);
    }
  }

  lemma {:induction false} PiecesAreSpoken(blocks: seq<Block>)
    ensures Join(TextPieces(blocks)) == SpokenText(blocks)
  {
    if blocks != [] {
      PiecesAreSpoken(blocks[1..]);
      JoinAppend(PiecesOf(blocks[0]), TextPieces(blocks[1..]));
    }
  }

  /** Every well-formed response is collected to what it says and asks for. */
  lemma ResponseMeansItsBlocks(parse: Parser, final: FinalMessage, messageId: string, blocks: seq<Block>,
                               untilAbort: nat)
    requires WellFormed(blocks) && |ResponseStream(parse, final, messageId, blocks).events| <= untilAbort
    ensures var r := Collect(ResponseStream(parse, final, messageId, blocks), untilAbort);
            && r.Complete?
            && Join(r.c.textParts) == SpokenText(blocks)
            && AskInOrder(parse, blocks, r.c.tools)
            && r.c.usage == Some(final.usage)
            && (final.rawStopReason == "tool_use" <==> r.c.stop == Some(ToolUseStop))
            && (final.rawStopReason == "max_tokens" <==> r.c.stop == Some(MaxTokens))
            && (final.rawStopReason == "stop_sequence" <==> r.c.stop == Some(StopSequence))
  {
    ResponseIsCollected(parse, final, messageId, blocks, untilAbort);
    PiecesAreSpoken(blocks);
    ToolsAskInOrder(parse, blocks);
  }

  // ------------------------------------------------------ chunk independence

  /** The assistant message that decoder and collector together make of a response. */
  function Received(parse: Parser, final: FinalMessage, messageId: string, blocks: seq<Block>): Option<Message> {
    var events := Yields(parse, final, IDLE, Render(messageId, blocks));
    match Collect(ChatStream(events, None), |events|)
    case Broken(_) => None
    case Complete(c) => Some(BuildAssistant(c.textParts, c.tools))
  }

  /**
   Two fragmentations of the same content give the same assistant message
   exactly when there is no tool call or both or neither of them carry a text
   delta at all: a message with tools gets a text part as soon as one delta
   arrived, even an empty one.
   */
  lemma ChunkingInvariance(parse: Parser, final: FinalMessage, messageId: string, a: seq<Block>, b: seq<Block>)
    requires WellFormed(a) && WellFormed(b)
    requires MeaningOf(parse, a) == MeaningOf(parse, b)
    ensures Received(parse, final, messageId, a) == Received(parse, final, messageId, b)
       <==> (ToolsOf(parse, a) == [] || (TextPieces(a) == [] <==> TextPieces(b) == []))
  {
    var tools := ToolsOf(parse, a);
    ResponseIsCollected(parse, final, messageId, a, |Yields(parse, final, IDLE, Render(messageId, a))|);
    ResponseIsCollected(parse, final, messageId, b, |Yields(parse, final, IDLE, Render(messageId, b))|);
    var ma, mb := BuildAssistant(TextPieces(a), tools), BuildAssistant(TextPieces(b), tools);
    if tools != [] && TextPieces(a) == [] && TextPieces(b) != [] {
      assert ma.content.parts[0] == ToolUsePart(tools[0]);
      assert mb.content.parts[0] == Text(Join(TextPieces(b)));
    } else if tools != [] && TextPieces(b) == [] && TextPieces(a) != [] {
      assert mb.content.parts[0] == ToolUsePart(tools[0]);
      assert ma.content.parts[0] == Text(Join(TextPieces(a)));
    }
  }

  /** Any content whose text is not empty is received the same way however it was cut. */
  lemma VisibleTextIsChunkIndependent(parse: Parser, final: FinalMessage, messageId: string, a: seq<Block>,
                                      b: seq<Block>)
    requires WellFormed(a) && WellFormed(b)
    requires MeaningOf(parse, a) == MeaningOf(parse, b)
    requires MeaningOf(parse, a).text != ""
    ensures Received(parse, final, messageId, a) == Received(parse, final, messageId, b)
  {
    ChunkingInvariance(parse, final, messageId, a, b);
  }

  /** The exception is real: one empty text delta before a tool call adds an empty text part. */
  lemma EmptyDeltaChangesTheMessage(parse: Parser, final: FinalMessage, messageId: string)
    ensures var tool := ToolBlock("t", "calc", []);
            var a, b := [TextBlock([]), tool], [TextBlock([""]), tool];
            && MeaningOf(parse, a) == MeaningOf(parse, b)
            && Received(parse, final, messageId, a) != Received(parse, final, messageId, b)
  {
    var tool := ToolBlock("t", "calc", []);
    var a, b := [TextBlock([]), tool], [TextBlock([""]), tool];
    assert a[1..] == [tool] && b[1..] == [tool] && [tool][1..] == [];
    assert TextPieces([tool]) == PiecesOf(tool) + TextPieces([]) == [];
    assert TextPieces(a) == PiecesOf(a[0]) + TextPieces([tool]) == [];
    assert TextPieces(b) == PiecesOf(b[0]) + TextPieces([tool]) == [""];
    assert ToolsOf(parse, a) == ToolsOf(parse, [tool]) == ToolsOf(parse, b);
    assert Join([""]) == "";
    ChunkingInvariance(parse, final, messageId, a, b);
  }
}
