/**
 * What the two mappers say of a Converse output, read off its blocks: the items, the texts, the numbers and the
 * reasons, and that both tell the same.
 */
module ConverseReport {
  import opened Prelude
  import opened Json
  import opened ResponsesSchema
  import opened ToolRegistry
  import opened ConverseMapper
  import Chat = ChatMapper
  import Capsule

  // ---- what the blocks hold, in order ----

  function Said(content: seq<ContentBlock>): string {
    if content == [] then ""
    else match content[0]
      case Text(text) => text + Said(content[1..])
      case _ => Said(content[1..])
  }

  function Thought(content: seq<ContentBlock>): string {
    if content == [] then ""
    else match content[0]
      case ReasoningText(Some(text), _) => text + Thought(content[1..])
      case _ => Thought(content[1..])
  }

  /** The reasoning that upstream signed or redacted. */
  function Sealed(content: seq<ContentBlock>): seq<ContentBlock> {
    if content == [] then []
    else match content[0]
      case ReasoningText(_, Some(_)) => [content[0]] + Sealed(content[1..])
      case RedactedReasoning(_) => [content[0]] + Sealed(content[1..])
      case _ => Sealed(content[1..])
  }

  function Used(content: seq<ContentBlock>): (r: seq<ContentBlock>)
    ensures forall b <- r :: b.ToolUse?
  {
    if content == [] then []
    else
      var last := content[|content| - 1];
      Used(content[..|content| - 1]) + if last.ToolUse? then [last] else []
  }

  /** The item of a call: the call's, with its input, and completed where its kind shows a status. */
  predicate IsCallItem(ctx: Context, use: ContentBlock, item: OutputItem)
    requires use.ToolUse?
  {
    var id, name, input := use.toolUseId.GetOr(""), use.toolName.GetOr(""), use.input.GetOr(Null);
    var kind := KindOf(ctx.registry, name);
    && IsItemOf(ctx.registry, id, name, item)
    && DoesWhatIsAsked(ctx.registry, name, input, ctx.lib.show(input), item)
    && ShowsStatus(item, kind, if kind == Function then None else Some("completed"))
  }

  ghost predicate AreCallItems(ctx: Context, uses: seq<ContentBlock>, items: seq<OutputItem>)
    requires forall b <- uses :: b.ToolUse?
  {
    |items| == |uses| && forall i :: 0 <= i < |items| ==> IsCallItem(ctx, uses[i], items[i])
  }

  lemma {:induction false} TextsAre(content: seq<ContentBlock>)
    ensures TextOf(content) == Said(content)
  {
    if content != [] {
      assert content == [content[0]] + content[1..];
      FlatMapFirst(TextPart, content[0], content[1..]);
      TextsAre(content[1..]);
    }
  }

  lemma {:induction false} ThoughtsAre(content: seq<ContentBlock>)
    ensures ReasoningTextOf(content) == Thought(content)
  {
    if content != [] {
      assert content == [content[0]] + content[1..];
      FlatMapFirst(ReasoningPart, content[0], content[1..]);
      ThoughtsAre(content[1..]);
    }
  }

  lemma {:induction false} SealedAre(content: seq<ContentBlock>)
    ensures ReplayableOf(content) == Sealed(content)
  {
    if content != [] {
      assert content == [content[0]] + content[1..];
      FlatMapFirst(ReplayablePart, content[0], content[1..]);
      SealedAre(content[1..]);
    }
  }

  lemma {:induction false} ToolPartIs(ctx: Context, block: ContentBlock)
    ensures if block.ToolUse? then |ToolPart(ctx, block)| == 1 && IsCallItem(ctx, block, ToolPart(ctx, block)[0])
            else ToolPart(ctx, block) == []
  {
    if block.ToolUse? {
      var name, input := block.toolName.GetOr(""), block.input.GetOr(Null);
      var status := if KindOf(ctx.registry, name) != Function then Some("completed") else None;
      ToolItemCarries(ctx.registry, block.toolUseId.GetOr(""), name, input, ctx.lib.show(input), status);
    }
  }

  lemma {:induction false} OneMoreCall(ctx: Context, uses: seq<ContentBlock>, use: ContentBlock, items: seq<OutputItem>,
                                       item: OutputItem)
    requires use.ToolUse? && IsCallItem(ctx, use, item)
    requires (forall b <- uses :: b.ToolUse?) && AreCallItems(ctx, uses, items)
    ensures AreCallItems(ctx, uses + [use], items + [item])
  {
  }

  lemma {:induction false} CallsAre(ctx: Context, content: seq<ContentBlock>)
    ensures AreCallItems(ctx, Used(content), ToolItemsOf(ctx, content))
  {
    if content != [] {
      var before, last := content[..|content| - 1], content[|content| - 1];
      var part := ToolPart(ctx, last);
      ToolPartIs(ctx, last);
      CallsAre(ctx, before);
      assert ToolItemsOf(ctx, content) == ToolItemsOf(ctx, before) + part;
      if last.ToolUse? {
        OneMoreCall(ctx, Used(before), last, ToolItemsOf(ctx, before), part[0]);
        assert part == [part[0]];
      }
    }
  }

  // ---- the response ----

  /** The reasoning item comes first, if there is any reasoning, and holds all its text and what upstream sealed. */
  function ThoughtItems(ctx: Context, content: seq<ContentBlock>): seq<OutputItem> {
    if Thought(content) == "" && Sealed(content) == [] then []
    else [Reasoning("rs_" + BareId(ctx.responseId), None,
                    Some(Array([Object(map["type" := String("summary_text"), "text" := String(Thought(content))])])),
                    if Sealed(content) == [] then None else Some(ctx.lib.seal(Sealed(content))))]
  }

  /** Then one message with all the text; an output that says nothing and calls nothing still has one. */
  function SaidItems(ctx: Context, content: seq<ContentBlock>): seq<OutputItem> {
    if Said(content) == "" && Used(content) != [] then []
    else [Message("msg_" + BareId(ctx.responseId), "completed", [OutputText(Said(content))])]
  }

  /** And then the calls, one for one and in order. */
  lemma {:induction false} OutputIsInOrder(ctx: Context, output: ConverseOutput)
    requires output.content.Some?
    ensures var content, r := output.content.value, MapOutput(ctx, output);
            var front := ThoughtItems(ctx, content) + SaidItems(ctx, content);
            && r.Ok? && front <= r.value.output
            && AreCallItems(ctx, Used(content), r.value.output[|front|..])
  {
    var content := output.content.value;
    TextsAre(content);
    ThoughtsAre(content);
    SealedAre(content);
    CallsAre(ctx, content);
    var front, calls := ThoughtItems(ctx, content) + SaidItems(ctx, content), ToolItemsOf(ctx, content);
    assert MapOutput(ctx, output).value.output == front + calls;
    assert (front + calls)[|front|..] == calls;
  }

  /** The rest of the response: its own id, the model, the echoed parameters, and no error. */
  lemma {:induction false} HeadIs(ctx: Context, output: ConverseOutput)
    ensures MapOutput(ctx, output).Err? <==> output.content.None?
    ensures output.content.Some? ==>
              var r := MapOutput(ctx, output).value;
              && r.id == ctx.responseId && r.model == ctx.model && r.params == ctx.params && r.error.None?
  {
  }

  /**
   * The numbers: the input tokens are upstream's with what was read from and written to the cache, the output tokens
   * are upstream's, the total is their sum, and only what was read counts as cached.
   */
  lemma {:induction false} NumbersAreUpstreams(ctx: Context, output: ConverseOutput)
    requires output.content.Some?
    ensures var u := MapOutput(ctx, output).value.usage;
            && u.totalTokens == u.inputTokens + u.outputTokens
            && u.reasoningTokens == Some(Int32(ctx.lib.countTokens(Thought(output.content.value))))
            && match output.usage
               case None => u.inputTokens == u.outputTokens == 0 && u.cachedTokens == Some(0)
               case Some(BedrockUsage(input, out, read, written)) =>
                 && u.inputTokens == input + read.GetOr(0) + written.GetOr(0)
                 && u.outputTokens == out && u.cachedTokens == Some(read.GetOr(0))
  {
    ThoughtsAre(output.content.value);
  }

  /** A stop reason that is this word, in any letter case. */
  predicate StopIs(stopReason: Option<string>, word: string) { stopReason.Some? && SameWord(stopReason.value, word) }

  lemma {:induction false} WordsDiffer(s: string)
    ensures !(SameWord(s, "max_tokens") && SameWord(s, "content_filtered"))
  {
    assert |"max_tokens"| == 10 && |"content_filtered"| == 16;
  }

  lemma {:induction false} TruncatingReason(stopReason: Option<string>)
    ensures IncompleteReason(stopReason)
            == if StopIs(stopReason, "max_tokens") then Some("max_output_tokens")
               else if StopIs(stopReason, "content_filtered") then Some("content_filter")
               else None
  {
    if stopReason.Some? {
      LowerIffSameWord(stopReason.value, "max_tokens");
      LowerIffSameWord(stopReason.value, "content_filtered");
    }
  }

  /** A response is incomplete for one of two stop reasons, in any letter case, and names the right one. */
  lemma {:induction false} StatusIsTheStops(ctx: Context, output: ConverseOutput)
    requires output.content.Some?
    ensures var r := MapOutput(ctx, output).value;
            && (r.incompleteReason == Some("max_output_tokens") <==> StopIs(output.stopReason, "max_tokens"))
            && (r.incompleteReason == Some("content_filter") <==> StopIs(output.stopReason, "content_filtered"))
            && (r.status == "incomplete" <==>
                  StopIs(output.stopReason, "max_tokens") || StopIs(output.stopReason, "content_filtered"))
            && (r.status == "completed" <==> r.incompleteReason.None?)
  {
    TruncatingReason(output.stopReason);
    assert "max_output_tokens"[0] != "content_filter"[0] && "incomplete"[0] != "completed"[0];
    if output.stopReason.Some? {
      WordsDiffer(output.stopReason.value);
    }
  }

  // ---- the same output as JSON, for the chat mapper ----

  /** How redacted bytes are written is not defined here. */
  type ByteText = Bytes -> string

  function TextField(name: string, text: Option<string>): map<string, Json> {
    match text
    case None => map[]
    case Some(t) => map[name := String(t)]
  }

  function NumberField(name: string, number: Option<int>): map<string, Json> {
    match number
    case None => map[]
    case Some(n) => map[name := Number(n)]
  }

  function ValueField(name: string, value: Option<Json>): map<string, Json> {
    match value
    case None => map[]
    case Some(v) => map[name := v]
  }

  function ThoughtJson(text: Option<string>, signature: Option<string>): Json {
    Object(map["reasoningText" := Object(TextField("text", text) + TextField("signature", signature))])
  }

  function UseJson(id: Option<string>, name: Option<string>, input: Option<Json>): Json {
    Object(TextField("toolUseId", id) + TextField("name", name) + ValueField("input", input))
  }

  function BlockJson(write: ByteText, block: ContentBlock): Json {
    match block
    case ReasoningText(text, signature) => Object(map["reasoningContent" := ThoughtJson(text, signature)])
    case RedactedReasoning(bytes) =>
      Object(map["reasoningContent" := Object(map["redactedContent" := String(write(bytes))])])
    case Text(text) => Object(map["text" := String(text)])
    case ToolUse(id, name, input) => Object(map["toolUse" := UseJson(id, name, input)])
    case OtherBlock => Object(map[])
  }

  function BlocksJson(write: ByteText, content: seq<ContentBlock>): (r: seq<Json>)
    ensures |r| == |content| && forall i :: 0 <= i < |r| ==> r[i] == BlockJson(write, content[i])
  {
    seq(|content|, i requires 0 <= i < |content| => BlockJson(write, content[i]))
  }

  function UsageJson(u: BedrockUsage): Json {
    Object(map["inputTokens" := Number(u.inputTokens), "outputTokens" := Number(u.outputTokens)]
           + NumberField("cacheReadInputTokens", u.cacheRead) + NumberField("cacheWriteInputTokens", u.cacheWrite))
  }

  function MessageJson(write: ByteText, content: seq<ContentBlock>): Json {
    Object(map["message" := Object(map["content" := Array(BlocksJson(write, content))])])
  }

  function OutputJson(write: ByteText, output: ConverseOutput): Json {
    Object(ValueField("output", if output.content.None? then None else Some(MessageJson(write, output.content.value)))
           + TextField("stopReason", output.stopReason)
           + ValueField("usage", if output.usage.None? then None else Some(UsageJson(output.usage.value))))
  }

  predicate IsInt32(n: int) { -0x8000_0000 <= n < 0x8000_0000 }

  /** Upstream counts in 32 bits. */
  predicate Countable(usage: Option<BedrockUsage>) {
    match usage
    case None => true
    case Some(u) =>
      && IsInt32(u.inputTokens) && IsInt32(u.outputTokens)
      && IsInt32(u.cacheRead.GetOr(0)) && IsInt32(u.cacheWrite.GetOr(0))
  }

  // ---- what the chat mapper reads ----

  lemma {:induction false} ContentIsRead(write: ByteText, output: ConverseOutput)
    ensures Chat.ContentOf(OutputJson(write, output))
            == if output.content.None? then None else Some(BlocksJson(write, output.content.value))
    ensures OutputJson(write, output).GetString("stopReason") == output.stopReason
    ensures OutputJson(write, output).Get("usage")
            == if output.usage.None? then None else Some(UsageJson(output.usage.value))
  {
  }

  lemma {:induction false} NumbersAreRead(u: BedrockUsage)
    requires Countable(Some(u))
    ensures var json := UsageJson(u);
            && json.GetInt64("inputTokens") == Some(u.inputTokens)
            && json.GetInt64("outputTokens") == Some(u.outputTokens)
            && json.GetInt64("cacheReadInputTokens") == u.cacheRead
            && json.GetInt64("cacheWriteInputTokens") == u.cacheWrite
  {
    var json := UsageJson(u);
    assert json.Get("inputTokens") == Some(Number(u.inputTokens));
    assert json.Get("outputTokens") == Some(Number(u.outputTokens));
  }

  lemma {:induction false} UsageIsRead(write: ByteText, output: ConverseOutput)
    requires Countable(output.usage)
    ensures var json, u := OutputJson(write, output), output.usage.GetOr(BedrockUsage(0, 0, None, None));
            && Chat.UsageField(json, "inputTokens") == u.inputTokens
            && Chat.UsageField(json, "outputTokens") == u.outputTokens
            && Chat.UsageField(json, "cacheReadInputTokens") == u.cacheRead.GetOr(0)
            && Chat.UsageField(json, "cacheWriteInputTokens") == u.cacheWrite.GetOr(0)
  {
    ContentIsRead(write, output);
    if output.usage.Some? {
      NumbersAreRead(output.usage.value);
    }
  }

  lemma {:induction false} ThoughtIsRead(write: ByteText, block: ContentBlock)
    ensures Chat.ReasoningIn(BlockJson(write, block)) == ReasoningPart(block)
  {
  }

  lemma {:induction false} ThoughtsAreRead(write: ByteText, content: seq<ContentBlock>)
    ensures FlatMap(Chat.ReasoningIn, BlocksJson(write, content)) == Thought(content)
  {
    if content != [] {
      var first, rest := content[0], BlocksJson(write, content[1..]);
      assert BlocksJson(write, content) == [BlockJson(write, first)] + rest;
      FlatMapFirst(Chat.ReasoningIn, BlockJson(write, first), rest);
      ThoughtIsRead(write, first);
      ThoughtsAreRead(write, content[1..]);
    }
  }

  /**
   * Both mappers report the same numbers for the same output. The chat answer leaves a detail out where there is
   * nothing to tell: what was cached when the cache was neither read nor written, and reasoning without a token. Its
   * finish reason is that of the output's stop reason.
   */
  lemma {:induction false} BothCountAlike(ctx: Context, write: ByteText, output: ConverseOutput,
                                          message: Chat.ChatMessage)
    requires output.content.Some? && Countable(output.usage)
    ensures var u := MapOutput(ctx, output).value.usage;
            var a := Chat.Answer(ctx.lib.countTokens, OutputJson(write, output),
                                 BlocksJson(write, output.content.value), message);
            var traffic := output.usage.GetOr(BedrockUsage(0, 0, None, None));
            && a.prompt == u.inputTokens && a.completion == u.outputTokens && a.total == u.totalTokens
            && a.cached == (if traffic.cacheRead.GetOr(0) > 0 || traffic.cacheWrite.GetOr(0) > 0 then u.cachedTokens
                            else None)
            && a.reasoning == (if ctx.lib.countTokens(Thought(output.content.value)) > 0 then u.reasoningTokens
                               else None)
            && a.finishReason == Chat.FinishReasonOf(output.stopReason) && a.message == message
  {
    ContentIsRead(write, output);
    UsageIsRead(write, output);
    NumbersAreUpstreams(ctx, output);
    ThoughtsAreRead(write, output.content.value);
  }

  // ---- what the chat answer says ----

  lemma {:induction false} StopWords(s: string)
    ensures Lower(s) == "finished" || Lower(s) == "end_turn" || Lower(s) == "stop_sequence" || Lower(s) == "complete"
            <==> SameWord(s, "finished") || SameWord(s, "end_turn") || SameWord(s, "stop_sequence")
                 || SameWord(s, "complete")
  {
    LowerIffSameWord(s, "finished");
    LowerIffSameWord(s, "end_turn");
    LowerIffSameWord(s, "stop_sequence");
    LowerIffSameWord(s, "complete");
  }

  /** The finish reason that a client is told, for a stop reason in any letter case. */
  lemma {:induction false} FinishReasonIs(s: string)
    ensures Chat.FinishReasonOf(Some(s))
            == Some(if SameWord(s, "tool_use") then "tool_calls"
                    else if SameWord(s, "finished") || SameWord(s, "end_turn") || SameWord(s, "stop_sequence")
                            || SameWord(s, "complete") then "stop"
                    else if SameWord(s, "max_tokens") then "length"
                    else if SameWord(s, "content_filtered") then "content_filter"
                    else Lower(s))
    ensures Chat.FinishReasonOf(None) == None
  {
    LowerIffSameWord(s, "tool_use");
    StopWords(s);
    LowerIffSameWord(s, "max_tokens");
    LowerIffSameWord(s, "content_filtered");
  }

  /** The block is the last one with text. */
  predicate IsLastAt(content: seq<ContentBlock>, i: nat, text: string) {
    i < |content| && content[i] == Text(text) && forall j :: i < j < |content| ==> !content[j].Text?
  }

  /** Of several text blocks the last is shown. */
  ghost predicate IsLastSaid(content: seq<ContentBlock>, text: string) {
    if forall i :: 0 <= i < |content| ==> !content[i].Text? then text == ""
    else exists i :: IsLastAt(content, i, text)
  }

  lemma {:induction false} BlockIsRead(write: ByteText, block: ContentBlock)
    ensures Chat.Classify(BlockJson(write, block))
            == match block
               case ReasoningText(text, signature) => Chat.Block.Thought(ThoughtJson(text, signature))
               case RedactedReasoning(bytes) =>
                 Chat.Block.Thought(Object(map["redactedContent" := String(write(bytes))]))
               case Text(text) => Chat.Block.Text(text)
               case ToolUse(id, name, input) => Chat.Block.ToolUse(UseJson(id, name, input))
               case OtherBlock => Chat.Block.Unknown
  {
  }

  /** The blocks as the chat mapper sees them. */
  function Seen(write: ByteText, content: seq<ContentBlock>): (r: seq<Chat.Block>) {
    Chat.Blocks(BlocksJson(write, content))
  }

  lemma {:induction false} SeenLast(write: ByteText, content: seq<ContentBlock>)
    requires content != []
    ensures var n := |content| - 1;
            Seen(write, content) == Seen(write, content[..n]) + [Chat.Classify(BlockJson(write, content[n]))]
  {
  }

  lemma {:induction false} LastSaidMore(content: seq<ContentBlock>, n: nat, text: string)
    requires |content| == n + 1 && IsLastSaid(content[..n], text)
    ensures IsLastSaid(content, if content[n].Text? then content[n].text else text)
  {
    if content[n].Text? {
      assert IsLastAt(content, n, content[n].text);
    } else if i :| 0 <= i < n && content[..n][i].Text? {
      var k :| IsLastAt(content[..n], k, text);
      assert IsLastAt(content, k, text) && content[i].Text?;
    }
  }

  lemma {:induction false} LastTextSeen(write: ByteText, content: seq<ContentBlock>)
    requires content != []
    ensures var n := |content| - 1;
            Chat.LastText(Seen(write, content))
            == if content[n].Text? then content[n].text else Chat.LastText(Seen(write, content[..n]))
  {
    var n := |content| - 1;
    SeenLast(write, content);
    BlockIsRead(write, content[n]);
    Chat.StepText(Seen(write, content[..n]), Chat.Classify(BlockJson(write, content[n])));
  }

  lemma {:induction false} LastTextIsSaid(write: ByteText, content: seq<ContentBlock>)
    ensures IsLastSaid(content, Chat.LastText(Seen(write, content)))
  {
    if content != [] {
      var n := |content| - 1;
      LastTextIsSaid(write, content[..n]);
      LastTextSeen(write, content);
      LastSaidMore(content, n, Chat.LastText(Seen(write, content[..n])));
    }
  }

  lemma {:induction false} ThoughtsAreSeen(write: ByteText, content: seq<ContentBlock>)
    ensures Chat.ThoughtTexts(Seen(write, content)) == ReasoningTextOf(content)
  {
    if content != [] {
      var n := |content| - 1;
      SeenLast(write, content);
      BlockIsRead(write, content[n]);
      ThoughtIsRead(write, content[n]);
      Chat.StepThoughts(Seen(write, content[..n]), Chat.Classify(BlockJson(write, content[n])));
      ThoughtsAreSeen(write, content[..n]);
    }
  }

  lemma {:induction false} CallIsRead(show: Chat.Printer, use: ContentBlock, index: nat)
    requires use.ToolUse?
    ensures Chat.CallOf(show, UseJson(use.toolUseId, use.toolName, use.input), index)
            == Chat.ToolCall(index, use.toolUseId, use.toolName, show(use.input.GetOr(Null)))
  {
    var json := UseJson(use.toolUseId, use.toolName, use.input);
    assert json.GetString("toolUseId") == use.toolUseId;
    assert json.GetString("name") == use.toolName;
    assert json.Get("input") == use.input;
  }

  lemma {:induction false} UsesAreSeen(write: ByteText, content: seq<ContentBlock>)
    ensures var uses, used := Chat.Uses(Seen(write, content)), Used(content);
            |uses| == |used| && forall i :: 0 <= i < |used| ==>
                                  uses[i] == UseJson(used[i].toolUseId, used[i].toolName, used[i].input)
  {
    if content != [] {
      var n := |content| - 1;
      SeenLast(write, content);
      BlockIsRead(write, content[n]);
      Chat.StepUses(_ => "", Seen(write, content[..n]), Chat.Classify(BlockJson(write, content[n])));
      UsesAreSeen(write, content[..n]);
    }
  }

  /** The content of a chat answer: the reasoning in think tags and the last text; absent for nothing but calls. */
  predicate ShowsContent(content: Option<string>, thought: string, text: string, calls: bool) {
    if thought != "" then content == Some("<think>" + thought + "</think>" + text)
    else if text == "" && calls then content.None?
    else content == Some(text)
  }

  /**
   * What the chat mapper makes of an output: its reasoning and its last text, and its calls one for one, each under
   * its position with its name and input, and with its own id unless reasoning is put into the ids.
   */
  lemma {:induction false} MessageIsTheTurn(ctx: Context, lib: Capsule.Library, write: ByteText,
                                            content: seq<ContentBlock>, capsule: Option<Capsule.Runtime>)
    requires Chat.MapBlocks(lib, ctx.lib.show, Seen(write, content), capsule).Ok?
    ensures var m := Chat.MapBlocks(lib, ctx.lib.show, Seen(write, content), capsule).value;
            && (exists text :: IsLastSaid(content, text)
                               && ShowsContent(m.content, Thought(content), text, Used(content) != []))
            && |m.toolCalls| == |Used(content)|
            && forall i :: 0 <= i < |m.toolCalls| ==>
                 var use := Used(content)[i];
                 && m.toolCalls[i].index == i && m.toolCalls[i].name == use.toolName
                 && m.toolCalls[i].arguments == ctx.lib.show(use.input.GetOr(Null))
                 && (Chat.Active(capsule).None? ==> m.toolCalls[i].id == use.toolUseId)
  {
    var show, blocks := ctx.lib.show, Seen(write, content);
    ThoughtsAre(content);
    ThoughtsAreSeen(write, content);
    LastTextIsSaid(write, content);
    UsesAreSeen(write, content);
    forall i | 0 <= i < |Used(content)|
      ensures Chat.CallOf(show, Chat.Uses(blocks)[i], i)
              == Chat.ToolCall(i, Used(content)[i].toolUseId, Used(content)[i].toolName,
                               show(Used(content)[i].input.GetOr(Null)))
    {
      CallIsRead(show, Used(content)[i], i);
    }
    CallsKeepWhatTheySay(lib, show, blocks, capsule);
  }

  /** Putting reasoning into the ids changes nothing else of the calls. */
  lemma {:induction false} CallsKeepWhatTheySay(lib: Capsule.Library, show: Chat.Printer, blocks: seq<Chat.Block>,
                                                capsule: Option<Capsule.Runtime>)
    requires Chat.MapBlocks(lib, show, blocks, capsule).Ok?
    ensures var m, calls := Chat.MapBlocks(lib, show, blocks, capsule).value, Chat.Calls(show, Chat.Uses(blocks));
            && |m.toolCalls| == |calls|
            && (forall i :: 0 <= i < |calls| ==> m.toolCalls[i].(id := calls[i].id) == calls[i])
            && (Chat.Active(capsule).None? ==> m.toolCalls == calls)
            && ShowsContent(m.content, Chat.ThoughtTexts(blocks), Chat.LastText(blocks), calls != [])
  {
    var calls := Chat.Calls(show, Chat.Uses(blocks));
    if Chat.Active(capsule).Some? {
      var keyring, replayed := capsule.value.keyring, Chat.Valid(Chat.Thoughts(blocks));
      if Chat.MintAll(lib, calls, replayed, keyring).Ok? && calls != [] {
        forall i | 0 <= i < |calls|
          ensures |Chat.MintAll(lib, calls, replayed, keyring).value| == |calls|
          ensures Chat.MintAll(lib, calls, replayed, keyring).value[i].(id := calls[i].id) == calls[i]
        {
          Chat.MintedOneByOne(lib, calls, replayed, keyring, i);
        }
        Chat.MintedOneByOne(lib, calls, replayed, keyring, 0);
      }
    }
  }

  // ---- a turn that is refused ----

  /** What is wrong with a turn, by the error it is refused with; only an enabled encoder finds anything. */
  ghost predicate WrongWithTurn(lib: Capsule.Library, blocks: seq<Chat.Block>, capsule: Option<Capsule.Runtime>,
                                error: Chat.MapError)
  {
    && capsule.Some? && capsule.value.encoderEnabled
    && match error
       case InterleavedReasoning => exists i, j :: 0 <= i < j < |blocks| && blocks[i].ToolUse? && blocks[j].Thought?
       case UnreplayableReasoning =>
         && (exists i :: 0 <= i < |blocks| && blocks[i].ToolUse?)
         && exists i :: 0 <= i < |blocks| && blocks[i].Thought? && !Capsule.BlockIsValid(blocks[i].value)
       case NotEncoded(why) =>
         exists use <- Chat.Uses(blocks) :: use.GetString("toolUseId").Some?
           && Capsule.EncodeCapsule(lib, use.GetString("toolUseId").value, Chat.Valid(Chat.Thoughts(blocks)),
                                    capsule.value.keyring) == Err(why)
       case MissingContent => false
  }

  lemma {:induction false} ThoughtIsThere(blocks: seq<Chat.Block>, v: Json)
    requires v in Chat.Thoughts(blocks)
    ensures exists i :: 0 <= i < |blocks| && blocks[i].Thought? && blocks[i].value == v
  {
    var n := |blocks| - 1;
    assert blocks == blocks[..n] + [blocks[n]];
    Chat.StepThoughts(blocks[..n], blocks[n]);
    if v in Chat.Thoughts(blocks[..n]) {
      ThoughtIsThere(blocks[..n], v);
    }
  }

  lemma {:induction false} UseIsThere(blocks: seq<Chat.Block>)
    requires Chat.Uses(blocks) != []
    ensures exists i :: 0 <= i < |blocks| && blocks[i].ToolUse?
  {
    var n := |blocks| - 1;
    if !blocks[n].ToolUse? {
      assert blocks == blocks[..n] + [blocks[n]];
      Chat.StepUses(_ => "", blocks[..n], blocks[n]);
      UseIsThere(blocks[..n]);
    }
  }

  lemma {:induction false} MintFailsAt(lib: Capsule.Library, calls: seq<Chat.ToolCall>, blocks: seq<Json>,
                                       keyring: Capsule.Keyring)
    returns (i: nat)
    requires Chat.MintAll(lib, calls, blocks, keyring).Err?
    ensures i < |calls|
    ensures Chat.Mint(lib, calls[i], blocks, keyring) == Err(Chat.MintAll(lib, calls, blocks, keyring).error)
  {
    var before := calls[..|calls| - 1];
    if Chat.MintAll(lib, before, blocks, keyring).Err? {
      i := MintFailsAt(lib, before, blocks, keyring);
    } else {
      i := |calls| - 1;
    }
  }

  lemma {:induction false} UnmintedIsWrong(lib: Capsule.Library, show: Chat.Printer, blocks: seq<Chat.Block>,
                                           runtime: Capsule.Runtime)
    requires runtime.encoderEnabled
    requires Chat.MintAll(lib, Chat.Calls(show, Chat.Uses(blocks)), Chat.Valid(Chat.Thoughts(blocks)),
                          runtime.keyring).Err?
    ensures WrongWithTurn(lib, blocks, Some(runtime),
                          Chat.MintAll(lib, Chat.Calls(show, Chat.Uses(blocks)), Chat.Valid(Chat.Thoughts(blocks)),
                                       runtime.keyring).error)
  {
    var calls, valid := Chat.Calls(show, Chat.Uses(blocks)), Chat.Valid(Chat.Thoughts(blocks));
    var i := MintFailsAt(lib, calls, valid, runtime.keyring);
    assert Chat.Uses(blocks)[i] in Chat.Uses(blocks);
  }

  /**
   * A turn that an enabled encoder accepts has no reasoning behind a tool use, and if it uses tools all its reasoning
   * can be replayed.
   */
  lemma {:induction false} AcceptedTurnIsSound(lib: Capsule.Library, show: Chat.Printer, blocks: seq<Chat.Block>,
                                               capsule: Option<Capsule.Runtime>)
    requires Chat.MapBlocks(lib, show, blocks, capsule).Ok?
    ensures !WrongWithTurn(lib, blocks, capsule, Chat.InterleavedReasoning)
    ensures !WrongWithTurn(lib, blocks, capsule, Chat.UnreplayableReasoning)
  {
    if WrongWithTurn(lib, blocks, capsule, Chat.UnreplayableReasoning) {
      var i :| 0 <= i < |blocks| && blocks[i].Thought? && !Capsule.BlockIsValid(blocks[i].value);
      ThoughtIsGathered(blocks, i);
      var j :| 0 <= j < |blocks| && blocks[j].ToolUse?;
      UseIsGathered(blocks, j);
    }
  }

  lemma {:induction false} ThoughtIsGathered(blocks: seq<Chat.Block>, i: nat)
    requires i < |blocks| && blocks[i].Thought?
    ensures blocks[i].value in Chat.Thoughts(blocks)
  {
    var n := |blocks| - 1;
    assert blocks == blocks[..n] + [blocks[n]];
    Chat.StepThoughts(blocks[..n], blocks[n]);
    if i < n {
      ThoughtIsGathered(blocks[..n], i);
    }
  }

  lemma {:induction false} UseIsGathered(blocks: seq<Chat.Block>, i: nat)
    requires i < |blocks| && blocks[i].ToolUse?
    ensures Chat.Uses(blocks) != []
  {
    var n := |blocks| - 1;
    assert blocks == blocks[..n] + [blocks[n]];
    Chat.StepUses(_ => "", blocks[..n], blocks[n]);
    if i < n {
      UseIsGathered(blocks[..n], i);
    }
  }

  /** A turn is refused only for what its error says; an output is malformed exactly without its content. */
  lemma {:induction false} TurnRefusedForAReason(lib: Capsule.Library, show: Chat.Printer, count: string -> nat,
                                                 output: Json, capsule: Option<Capsule.Runtime>)
    requires Chat.MapOutput(lib, show, count, output, capsule).Err?
    ensures var error, content := Chat.MapOutput(lib, show, count, output, capsule).error, Chat.ContentOf(output);
            if content.None? then error.MissingContent?
            else WrongWithTurn(lib, Chat.Blocks(content.value), capsule, error)
  {
    var content := Chat.ContentOf(output);
    if content.Some? {
      var blocks := Chat.Blocks(content.value);
      var calls, thoughts := Chat.Calls(show, Chat.Uses(blocks)), Chat.Thoughts(blocks);
      if Chat.Interleaved(blocks) {
      } else if calls != [] && !Capsule.AllValid(Capsule.BlockIsValid, thoughts) {
        var v :| v in thoughts && !Capsule.BlockIsValid(v);
        ThoughtIsThere(blocks, v);
        UseIsThere(blocks);
      } else {
        UnmintedIsWrong(lib, show, blocks, capsule.value);
      }
    }
  }
}
