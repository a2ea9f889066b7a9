/**
 The conversation data that every provider and the agent loop share
 (src/providers/types.ts), and the two conversions between an assistant
 message and the tool calls it carries.
 */
module Messages {

  // A JSON record is represented by its text.
  type Json = string

  datatype ToolUse = ToolUse(id: string, name: string, input: Json)

  datatype Part =
    | Text(text: string)
    | Media(data: string)
    | ToolUsePart(use: ToolUse)
    | ToolResultPart(toolUseId: string, content: string, isError: bool)

  datatype Role = System | User | Assistant | Tool

  datatype Content = Plain(text: string) | Parts(parts: seq<Part>)

  datatype Message = Message(role: Role, content: Content)

  datatype Usage = Usage(inputTokens: nat, outputTokens: nat)

  /** An error as the runner sees it: a machine-readable code and an HTTP-like status. */
  datatype NexusError = NexusError(code: string, statusCode: int)

  /** What a JavaScript `throw` may carry: one of the system's own errors or anything else. */
  datatype Thrown = OwnError(error: NexusError) | ForeignError

  const PROVIDER_ERROR := NexusError("PROVIDER_ERROR", 502)
  const ABORTED := NexusError("ABORTED", 499)
  const STREAM_INCOMPLETE := NexusError("STREAM_INCOMPLETE", 500)

  /** A foreign error raised during an LLM attempt is wrapped as a provider error. */
  function AsProviderError(t: Thrown): NexusError {
    match t
    case OwnError(e) => e
    case ForeignError => PROVIDER_ERROR
  }

  function Join(pieces: seq<string>): string {
    if pieces == [] then "" else pieces[0] + Join(pieces[1..])
  }

  lemma {:induction false} JoinAppend(a: seq<string>, b: seq<string>)
    ensures Join(a + b) == Join(a) + Join(b)
  {
    if a == [] {
      assert a + b == b;
    } else {
      assert (a + b)[1..] == a[1..] + b;
      JoinAppend(a[1..], b);
    }
  }

  lemma JoinOne(piece: string)
    ensures Join([piece]) == piece
  {
    assert [piece][1..] == [];
  }

  function AsParts(tools: seq<ToolUse>): (parts: seq<Part>)
    ensures |parts| == |tools|
    ensures forall i | 0 <= i < |tools| :: parts[i] == ToolUsePart(tools[i])
  {
    seq(|tools|, i requires 0 <= i < |tools| => ToolUsePart(tools[i]))
  }

  /** The assistant message built from the collected text fragments and tool uses. */
  function BuildAssistant(textParts: seq<string>, tools: seq<ToolUse>): Message {
    Message(Assistant,
            if |tools| > 0 then
              Parts((if |textParts| > 0 then [Text(Join(textParts))] else []) + AsParts(tools))
            else
              Plain(Join(textParts)))
  }

  function ToolUsesIn(parts: seq<Part>): seq<ToolUse> {
    if parts == [] then []
    else if parts[0].ToolUsePart? then [parts[0].use] + ToolUsesIn(parts[1..])
    else ToolUsesIn(parts[1..])
  }

  function ExtractToolCalls(m: Message): seq<ToolUse> {
    match m.content
    case Plain(_) => []
    case Parts(parts) => ToolUsesIn(parts)
  }

  /** The text of a message: its plain content, or that of its text parts, one after the other. */
  function VisibleText(m: Message): string {
    match m.content
    case Plain(text) => text
    case Parts(parts) => TextIn(parts)
  }

  function TextIn(parts: seq<Part>): string {
    if parts == [] then "" else (if parts[0].Text? then parts[0].text else "") + TextIn(parts[1..])
  }

  lemma {:induction false} NoTextInTools(tools: seq<ToolUse>)
    ensures TextIn(AsParts(tools)) == ""
  {
    if tools != [] {
      assert AsParts(tools)[1..] == AsParts(tools[1..]);
      NoTextInTools(tools[1..]);
    }
  }

  /** The built message says exactly the joined fragments, as plain text when it carries no tool calls. */
  lemma BuiltMessageSaysAll(textParts: seq<string>, tools: seq<ToolUse>)
    ensures VisibleText(BuildAssistant(textParts, tools)) == Join(textParts)
    ensures BuildAssistant(textParts, tools).content.Plain? <==> tools == []
  {
    if |tools| > 0 {
      var text := if |textParts| > 0 then [Text(Join(textParts))] else [];
      NoTextInTools(tools);
      assert text != [] ==> (text + AsParts(tools))[1..] == AsParts(tools);
      assert text == [] ==> text + AsParts(tools) == AsParts(tools);
    }
  }

  lemma {:induction false} ToolUsesInAppend(a: seq<Part>, b: seq<Part>)
    ensures ToolUsesIn(a + b) == ToolUsesIn(a) + ToolUsesIn(b)
  {
    if a == [] {
      assert a + b == b;
    } else {
      ToolUsesInAppend(a[1..], b);
      assert (a + b)[1..] == a[1..] + b && (a + b)[0] == a[0];
      if a[0].ToolUsePart? {
        assert [a[0].use] + (ToolUsesIn(a[1..]) + ToolUsesIn(b)) == ([a[0].use] + ToolUsesIn(a[1..])) + ToolUsesIn(b);
      }
    }
  }

  lemma {:induction false} ToolUsesOfAsParts(tools: seq<ToolUse>)
    ensures ToolUsesIn(AsParts(tools)) == tools
  {
    if tools != [] {
      assert AsParts(tools)[1..] == AsParts(tools[1..]);
      ToolUsesOfAsParts(tools[1..]);
    }
  }

  /** Reading the tool calls back out of the built message recovers exactly the collected ones. */
  lemma ExtractRecoversTools(textParts: seq<string>, tools: seq<ToolUse>)
    ensures ExtractToolCalls(BuildAssistant(textParts, tools)) == tools
  {
    if |tools| > 0 {
      var text := if |textParts| > 0 then [Text(Join(textParts))] else [];
      ToolUsesInAppend(text, AsParts(tools));
      ToolUsesOfAsParts(tools);
      assert ToolUsesIn(text) == [];
    }
  }
}
