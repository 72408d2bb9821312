/**
 * The non-streaming mapping of a Bedrock Converse output to a Responses response.
 * This is the simple form that the streaming state machine must agree with.
 */
module ConverseMapper {
  import opened Prelude
  import opened Json
  import opened ResponsesSchema
  import opened ToolRegistry

  /** A block of `output.message.content`. */
  datatype ContentBlock =
    | ReasoningText(reasoning: Option<string>, signature: Option<string>)
    | RedactedReasoning(redacted: Bytes)
    | Text(text: string)
    | ToolUse(toolUseId: Option<string>, toolName: Option<string>, input: Option<Json>)
    | OtherBlock

  datatype BedrockUsage = BedrockUsage(inputTokens: int, outputTokens: int,
                                       cacheRead: Option<int>, cacheWrite: Option<int>)

  /** `content` is absent when the upstream object has no `output.message.content` array. */
  datatype ConverseOutput = ConverseOutput(content: Option<seq<ContentBlock>>, stopReason: Option<string>,
                                           usage: Option<BedrockUsage>)

  datatype MapError = MissingContent

  /**
   * The functions this component calls but does not define: the JSON parser and printer, the
   * printing of the signed reasoning envelope, the reasoning token estimate, and the wire form of
   * the two errors the streaming side raises itself.
   */
  datatype Library = Library(parse: string -> Option<Json>, show: Json -> string,
                             seal: seq<ContentBlock> -> string, countTokens: string -> nat,
                             malformedArguments: ErrorBody, idleTimeout: ErrorBody)

  /** What a whole mapping depends on besides the Converse output. */
  datatype Context = Context(model: string, responseId: string, params: RequestParams,
                             registry: Registry, lib: Library)

  function ReasoningPart(block: ContentBlock): string {
    if block.ReasoningText? then block.reasoning.GetOr("") else ""
  }

  /** The blocks that a later turn can replay: signed text and redacted content. */
  function ReplayablePart(block: ContentBlock): seq<ContentBlock> {
    if (block.ReasoningText? && block.signature.Some?) || block.RedactedReasoning? then [block] else []
  }

  function TextPart(block: ContentBlock): string {
    if block.Text? then block.text else ""
  }

  function ToolPart(ctx: Context, block: ContentBlock): seq<OutputItem> {
    if block.ToolUse? then
      var name := block.toolName.GetOr("");
      var input := block.input.GetOr(Null);
      var status := if KindOf(ctx.registry, name) != Function then Some("completed") else None;
      [ToolOutputItem(ctx.registry, block.toolUseId.GetOr(""), name, input, ctx.lib.show(input), status)]
    else []
  }

  function ReasoningTextOf(content: seq<ContentBlock>): string { FlatMap(ReasoningPart, content) }

  function ReplayableOf(content: seq<ContentBlock>): seq<ContentBlock> { FlatMap(ReplayablePart, content) }

  function TextOf(content: seq<ContentBlock>): string { FlatMap(TextPart, content) }

  function ToolItemsOf(ctx: Context, content: seq<ContentBlock>): seq<OutputItem> {
    FlatMap((block: ContentBlock) => ToolPart(ctx, block), content)
  }

  /** `encode_reasoning_envelope`: nothing when no block is replayable. */
  function Envelope(lib: Library, content: seq<ContentBlock>): Option<string> {
    var replayable := ReplayableOf(content);
    if replayable == [] then None else Some(lib.seal(replayable))
  }

  /** A missing stop reason counts as completed; case does not matter. */
  function IncompleteReason(stopReason: Option<string>): Option<string> {
    if stopReason.None? then None
    else if Lower(stopReason.value) == "max_tokens" then Some("max_output_tokens")
    else if Lower(stopReason.value) == "content_filtered" then Some("content_filter")
    else None
  }

  function StatusOf(stopReason: Option<string>): string {
    if IncompleteReason(stopReason).Some? then "incomplete" else "completed"
  }

  function UsageOf(lib: Library, usage: Option<BedrockUsage>, reasoning: string): Usage {
    var u := usage.GetOr(BedrockUsage(0, 0, None, None));
    var prompt := u.inputTokens + u.cacheRead.GetOr(0) + u.cacheWrite.GetOr(0);
    Usage(prompt, Some(u.cacheRead.GetOr(0)), u.outputTokens, Some(Int32(lib.countTokens(reasoning))),
          prompt + u.outputTokens)
  }

  function ReasoningItems(ctx: Context, reasoning: string, envelope: Option<string>): seq<OutputItem> {
    if reasoning != "" || envelope.Some?
    then [Reasoning(ReasoningId(ctx.responseId), None, Some(SummaryOf(reasoning)), envelope)]
    else []
  }

  /** The message item; it also stands in when there is neither text nor a tool call. */
  function MessageItems(ctx: Context, text: string, tools: seq<OutputItem>): seq<OutputItem> {
    if text != "" || tools == []
    then [Message(MessageId(ctx.responseId), "completed", [OutputText(text)])]
    else []
  }

  /** The response as a function of the four things the mapper collects from the blocks. */
  function Assemble(ctx: Context, reasoning: string, envelope: Option<string>, text: string, tools: seq<OutputItem>,
                    stopReason: Option<string>, usage: Option<BedrockUsage>): Response {
    Response(ctx.responseId, StatusOf(stopReason),
             ReasoningItems(ctx, reasoning, envelope) + MessageItems(ctx, text, tools) + tools,
             UsageOf(ctx.lib, usage, reasoning), ctx.model, ctx.params, None, IncompleteReason(stopReason))
  }

  function MapOutput(ctx: Context, output: ConverseOutput): Result<Response, MapError> {
    match output.content
    case None => Err(MissingContent)
    case Some(content) =>
      Ok(Assemble(ctx, ReasoningTextOf(content), Envelope(ctx.lib, content), TextOf(content),
                  ToolItemsOf(ctx, content), output.stopReason, output.usage))
  }

  /** One more block adds its own text and tool item to what the pass has collected. */
  lemma {:induction false} CollectOne(ctx: Context, content: seq<ContentBlock>, i: nat)
    requires i < |content|
    ensures TextOf(content[..i + 1]) == TextOf(content[..i]) + TextPart(content[i])
    ensures ToolItemsOf(ctx, content[..i + 1]) == ToolItemsOf(ctx, content[..i]) + ToolPart(ctx, content[i])
  {
    assert content[..i + 1] == content[..i] + [content[i]];
    FlatMapOne(TextPart, content[..i], content[i]);
    FlatMapOne((block: ContentBlock) => ToolPart(ctx, block), content[..i], content[i]);
  }

  method CollectReasoningText(content: seq<ContentBlock>) returns (reasoning: string)
    ensures reasoning == ReasoningTextOf(content)
  {
    reasoning := "";
    for i := 0 to |content|
      invariant reasoning == ReasoningTextOf(content[..i])
    {
      assert content[..i + 1] == content[..i] + [content[i]];
      FlatMapOne(ReasoningPart, content[..i], content[i]);
      reasoning := reasoning + ReasoningPart(content[i]);
    }
    assert content[..|content|] == content;
  }

  /** The mapper as it runs: one pass that pushes text and tool items. */
  method FromConverseOutput(ctx: Context, output: ConverseOutput) returns (r: Result<Response, MapError>)
    ensures r == MapOutput(ctx, output)
  {
    if output.content.None? {
      return Err(MissingContent);
    }
    var content := output.content.value;
    var reasoning := CollectReasoningText(content);
    var items := ReasoningItems(ctx, reasoning, Envelope(ctx.lib, content));
    var text := "";
    var toolItems := [];
    for i := 0 to |content|
      invariant text == TextOf(content[..i])
      invariant toolItems == ToolItemsOf(ctx, content[..i])
    {
      CollectOne(ctx, content, i);
      var c := content[i];
      if c.ToolUse? {
        var name := c.toolName.GetOr("");
        var input := c.input.GetOr(Null);
        var binding := Resolve(ctx.registry, name);
        var status := if binding.Some? && binding.value.kind != Function then Some("completed") else None;
        toolItems := toolItems + [ToolOutputItem(ctx.registry, c.toolUseId.GetOr(""), name, input,
                                                 ctx.lib.show(input), status)];
      } else if c.Text? {
        text := text + c.text;
      }
    }
    assert content[..|content|] == content;
    ghost var before := items;
    if text != "" || toolItems == [] {
      items := items + [Message(MessageId(ctx.responseId), "completed", [OutputText(text)])];
    }
    assert items == before + MessageItems(ctx, text, toolItems);
    items := items + toolItems;
    var response := Response(ctx.responseId, StatusOf(output.stopReason), items,
                             UsageOf(ctx.lib, output.usage, reasoning), ctx.model, ctx.params, None,
                             IncompleteReason(output.stopReason));
    r := Ok(response);
  }
}
