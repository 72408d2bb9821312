/**
 * The non-streaming mapping of a Converse output to a Chat message, which mints one capsule a tool call
 * when the turn carries reasoning to be replayed.
 */
module ChatMapper {
  import opened Prelude
  import opened Json
  import opened Capsule

  datatype ToolCall = ToolCall(index: nat, id: Option<string>, name: Option<string>, arguments: string)

  datatype ChatMessage = ChatMessage(content: Option<string>, toolCalls: seq<ToolCall>)

  datatype MapError =
    | MissingContent
    | InterleavedReasoning
    | UnreplayableReasoning
    | NotEncoded(error: CapsuleError)

  /** The JSON printer is not defined here. */
  type Printer = Json -> string

  /** A content block; one that has several of the keys is the first of these. */
  datatype Block = ToolUse(use: Json) | Thought(value: Json) | Text(text: string) | Unknown

  function Classify(block: Json): Block {
    if block.Get("toolUse").Some? then ToolUse(block.Get("toolUse").value)
    else if block.Get("reasoningContent").Some? then Thought(block.Get("reasoningContent").value)
    else if block.GetString("text").Some? then Text(block.GetString("text").value)
    else Unknown
  }

  function Blocks(content: seq<Json>): (r: seq<Block>)
    ensures |r| == |content| && forall i :: 0 <= i < |content| ==> r[i] == Classify(content[i])
  {
    seq(|content|, i requires 0 <= i < |content| => Classify(content[i]))
  }

  function ThoughtText(value: Json): string {
    match value.Get("reasoningText")
    case None => ""
    case Some(t) => t.GetString("text").GetOr("")
  }

  function CallOf(show: Printer, use: Json, index: nat): ToolCall {
    ToolCall(index, use.GetString("toolUseId"), use.GetString("name"), show(use.Get("input").GetOr(Null)))
  }

  // ---- what the loop collects ----

  function Thoughts(blocks: seq<Block>): seq<Json> {
    FlatMap((b: Block) => if b.Thought? then [b.value] else [], blocks)
  }

  function ThoughtTexts(blocks: seq<Block>): string {
    FlatMap((b: Block) => if b.Thought? then ThoughtText(b.value) else "", blocks)
  }

  function Uses(blocks: seq<Block>): seq<Json> {
    FlatMap((b: Block) => if b.ToolUse? then [b.use] else [], blocks)
  }

  function Calls(show: Printer, uses: seq<Json>): (r: seq<ToolCall>)
    ensures |r| == |uses|
    ensures forall i :: 0 <= i < |r| ==> r[i] == CallOf(show, uses[i], i)
  {
    seq(|uses|, i requires 0 <= i < |uses| => CallOf(show, uses[i], i))
  }

  /** Of several text blocks the last wins. */
  function LastText(blocks: seq<Block>): string {
    if blocks == [] then ""
    else
      var last := blocks[|blocks| - 1];
      if last.Text? then last.text else LastText(blocks[..|blocks| - 1])
  }

  /** Some reasoning block stands behind a tool use. */
  predicate Interleaved(blocks: seq<Block>) {
    exists i, j :: 0 <= i < j < |blocks| && blocks[i].ToolUse? && blocks[j].Thought?
  }

  // ---- what the message says ----

  function Mint(lib: Library, call: ToolCall, blocks: seq<Json>, keyring: Keyring): Result<ToolCall, MapError> {
    match call.id
    case None => Ok(call)
    case Some(id) =>
      match EncodeCapsule(lib, id, blocks, keyring)
      case Err(e) => Err(NotEncoded(e))
      case Ok(wire) => Ok(call.(id := Some(wire)))
  }

  /** Every call with its minted id; the first that cannot be minted fails them all. */
  function MintAll(lib: Library, calls: seq<ToolCall>, blocks: seq<Json>, keyring: Keyring)
    : Result<seq<ToolCall>, MapError>
  {
    if calls == [] then Ok([])
    else match MintAll(lib, calls[..|calls| - 1], blocks, keyring)
      case Err(e) => Err(e)
      case Ok(minted) =>
        match Mint(lib, calls[|calls| - 1], blocks, keyring)
        case Err(e) => Err(e)
        case Ok(call) => Ok(minted + [call])
  }

  function Rendered(reasoning: string, text: string, hasCalls: bool): Option<string> {
    if reasoning != "" then Some("<think>" + reasoning + "</think>" + text)
    else if text != "" || !hasCalls then Some(text)
    else None
  }

  function Active(capsule: Option<Runtime>): Option<Runtime> {
    match capsule
    case None => None
    case Some(runtime) => if runtime.encoderEnabled then capsule else None
  }

  /** The message the blocks stand for: reasoning travels in the ids exactly when the encoder is enabled. */
  function MapBlocks(lib: Library, show: Printer, blocks: seq<Block>, capsule: Option<Runtime>)
    : Result<ChatMessage, MapError>
  {
    var calls := Calls(show, Uses(blocks));
    var rendered := Rendered(ThoughtTexts(blocks), LastText(blocks), calls != []);
    match Active(capsule)
    case None => Ok(ChatMessage(rendered, calls))
    case Some(runtime) =>
      if Interleaved(blocks) then Err(InterleavedReasoning)
      else if calls != [] && !AllValid(BlockIsValid, Thoughts(blocks)) then Err(UnreplayableReasoning)
      else
        var replayed := Valid(Thoughts(blocks));
        if replayed == [] then Ok(ChatMessage(rendered, calls))
        else match MintAll(lib, calls, replayed, runtime.keyring)
          case Err(e) => Err(e)
          case Ok(minted) => Ok(ChatMessage(rendered, minted))
  }

  function Valid(blocks: seq<Json>): seq<Json> {
    FlatMap((b: Json) => if BlockIsValid(b) then [b] else [], blocks)
  }

  lemma {:induction false} ValidOfAllValid(blocks: seq<Json>)
    requires AllValid(BlockIsValid, blocks)
    ensures Valid(blocks) == blocks
  {
    if blocks != [] {
      ValidOfAllValid(blocks[..|blocks| - 1]);
    }
  }

  // ---- one step of the loop ----

  lemma {:induction false} StepThoughts(blocks: seq<Block>, b: Block)
    ensures Thoughts(blocks + [b]) == if b.Thought? then Thoughts(blocks) + [b.value] else Thoughts(blocks)
    ensures ThoughtTexts(blocks + [b])
            == if b.Thought? then ThoughtTexts(blocks) + ThoughtText(b.value) else ThoughtTexts(blocks)
  {
    FlatMapOne((x: Block) => if x.Thought? then [x.value] else [], blocks, b);
    FlatMapOne((x: Block) => if x.Thought? then ThoughtText(x.value) else "", blocks, b);
  }

  lemma {:induction false} StepUses(show: Printer, blocks: seq<Block>, b: Block)
    ensures Uses(blocks + [b]) == if b.ToolUse? then Uses(blocks) + [b.use] else Uses(blocks)
    ensures Calls(show, Uses(blocks + [b]))
            == if b.ToolUse? then Calls(show, Uses(blocks)) + [CallOf(show, b.use, |Uses(blocks)|)]
               else Calls(show, Uses(blocks))
  {
    FlatMapOne((x: Block) => if x.ToolUse? then [x.use] else [], blocks, b);
  }

  lemma {:induction false} StepText(blocks: seq<Block>, b: Block)
    ensures LastText(blocks + [b]) == if b.Text? then b.text else LastText(blocks)
  {
    assert (blocks + [b])[..|blocks|] == blocks;
  }

  lemma {:induction false} StepValid(thoughts: seq<Json>, v: Json)
    ensures Valid(thoughts + [v]) == Valid(thoughts) + if BlockIsValid(v) then [v] else []
    ensures AllValid(BlockIsValid, thoughts + [v]) <==> AllValid(BlockIsValid, thoughts) && BlockIsValid(v)
  {
    FlatMapOne((x: Json) => if BlockIsValid(x) then [x] else [], thoughts, v);
    if AllValid(BlockIsValid, thoughts + [v]) {
      assert v in thoughts + [v] && forall x <- thoughts :: x in thoughts + [v];
    }
  }

  predicate UsesTool(blocks: seq<Block>) { exists i :: 0 <= i < |blocks| && blocks[i].ToolUse? }

  lemma {:induction false} StepInterleaved(blocks: seq<Block>, b: Block)
    ensures Interleaved(blocks + [b]) <==> Interleaved(blocks) || (b.Thought? && UsesTool(blocks))
    ensures UsesTool(blocks + [b]) <==> UsesTool(blocks) || b.ToolUse?
  {
    var longer := blocks + [b];
    if UsesTool(blocks) {
      var i :| 0 <= i < |blocks| && blocks[i].ToolUse?;
      assert longer[i].ToolUse? && longer[|blocks|] == b;
    }
    if b.ToolUse? {
      assert longer[|blocks|].ToolUse?;
    }
    if Interleaved(blocks) {
      var i, j :| 0 <= i < j < |blocks| && blocks[i].ToolUse? && blocks[j].Thought?;
      assert longer[i].ToolUse? && longer[j].Thought?;
    }
  }

  lemma {:induction false} InterleavedStays(blocks: seq<Block>, n: nat)
    requires n <= |blocks| && Interleaved(blocks[..n])
    ensures Interleaved(blocks)
  {
    var i, j :| 0 <= i < j < n && blocks[..n][i].ToolUse? && blocks[..n][j].Thought?;
    assert blocks[i].ToolUse? && blocks[j].Thought?;
  }

  method MintCalls(lib: Library, calls: seq<ToolCall>, blocks: seq<Json>, keyring: Keyring)
    returns (r: Result<seq<ToolCall>, MapError>)
    ensures r == MintAll(lib, calls, blocks, keyring)
    ensures r.Ok? ==> |r.value| == |calls|
  {
    var minted: seq<ToolCall> := [];
    for n := 0 to |calls|
      invariant MintAll(lib, calls[..n], blocks, keyring) == Ok(minted) && |minted| == n
    {
      assert calls[..n + 1][..n] == calls[..n];
      var one := Mint(lib, calls[n], blocks, keyring);
      if one.Err? {
        MintErrorStays(lib, calls, n + 1, blocks, keyring);
        return Err(one.error);
      }
      minted := minted + [one.value];
    }
    assert calls[..|calls|] == calls;
    return Ok(minted);
  }

  /** What the loop over the blocks has gathered. */
  datatype Gathered = Gathered(
    calls: seq<ToolCall>, text: string, reasoning: string, replayed: seq<Json>, invalidSeen: bool, toolSeen: bool)

  function GatheredFrom(show: Printer, blocks: seq<Block>): Gathered {
    Gathered(Calls(show, Uses(blocks)), LastText(blocks), ThoughtTexts(blocks), Valid(Thoughts(blocks)),
             !AllValid(BlockIsValid, Thoughts(blocks)), UsesTool(blocks))
  }

  function Next(show: Printer, g: Gathered, b: Block): Gathered {
    match b
    case ToolUse(use) => g.(toolSeen := true, calls := g.calls + [CallOf(show, use, |g.calls|)])
    case Thought(v) =>
      g.(reasoning := g.reasoning + ThoughtText(v), replayed := g.replayed + (if BlockIsValid(v) then [v] else []),
         invalidSeen := g.invalidSeen || !BlockIsValid(v))
    case Text(text) => g.(text := text)
    case Unknown => g
  }

  /** The same, one block after the other. */
  function Folded(show: Printer, blocks: seq<Block>): Gathered {
    if blocks == [] then Gathered([], "", "", [], false, false)
    else Next(show, Folded(show, blocks[..|blocks| - 1]), blocks[|blocks| - 1])
  }

  lemma {:induction false} FoldedIsGathered(show: Printer, blocks: seq<Block>)
    ensures Folded(show, blocks) == GatheredFrom(show, blocks)
  {
    if blocks != [] {
      FoldedIsGathered(show, blocks[..|blocks| - 1]);
      GatherStep(show, blocks[..|blocks| - 1], blocks[|blocks| - 1]);
      assert blocks == blocks[..|blocks| - 1] + [blocks[|blocks| - 1]];
    }
  }

  lemma {:induction false} GatherStep(show: Printer, done: seq<Block>, b: Block)
    ensures GatheredFrom(show, done + [b]) == Next(show, GatheredFrom(show, done), b)
    ensures Interleaved(done + [b]) <==> Interleaved(done) || (b.Thought? && UsesTool(done))
  {
    StepThoughts(done, b);
    StepUses(show, done, b);
    StepText(done, b);
    StepInterleaved(done, b);
    if b.Thought? {
      StepValid(Thoughts(done), b.value);
    }
  }

  /** The blocks to replay matter, and are gathered, only for an enabled encoder. */
  predicate Agrees(g: Gathered, all: Gathered, enabled: bool) {
    && g.calls == all.calls && g.text == all.text && g.reasoning == all.reasoning && g.toolSeen == all.toolSeen
    && (enabled ==> g == all)
  }

  method Gather(show: Printer, content: seq<Json>, enabled: bool) returns (r: Result<Gathered, MapError>)
    ensures r.Err? <==> enabled && Interleaved(Blocks(content))
    ensures r.Err? ==> r.error == InterleavedReasoning
    ensures r.Ok? ==> Agrees(r.value, GatheredFrom(show, Blocks(content)), enabled)
  {
    ghost var all := Blocks(content);
    var g := Gathered([], "", "", [], false, false);
    for n := 0 to |content|
      invariant Agrees(g, Folded(show, all[..n]), enabled)
      invariant g.toolSeen <==> UsesTool(all[..n])
      invariant enabled ==> !Interleaved(all[..n])
    {
      var b := Classify(content[n]);
      assert all[..n + 1] == all[..n] + [b] && all[..n + 1][..n] == all[..n];
      StepInterleaved(all[..n], b);
      if b.Thought? && enabled && g.toolSeen {
        InterleavedStays(all, n + 1);
        return Err(InterleavedReasoning);
      }
      g := GatherBlock(show, g, b, enabled, Folded(show, all[..n]));
    }
    assert all[..|all|] == all;
    FoldedIsGathered(show, all);
    return Ok(g);
  }

  /** The arms of the loop body. */
  method GatherBlock(show: Printer, g: Gathered, b: Block, enabled: bool, ghost all: Gathered)
    returns (r: Gathered)
    requires Agrees(g, all, enabled)
    ensures Agrees(r, Next(show, all, b), enabled) && (r.toolSeen <==> g.toolSeen || b.ToolUse?)
  {
    r := g;
    match b
    case ToolUse(use) =>
      r := r.(toolSeen := true, calls := r.calls + [CallOf(show, use, |r.calls|)]);
    case Thought(v) =>
      if enabled {
        if BlockIsValid(v) {
          r := r.(replayed := r.replayed + [v]);
        } else {
          r := r.(invalidSeen := true);
        }
      }
      r := r.(reasoning := r.reasoning + ThoughtText(v));
    case Text(text) =>
      r := r.(text := text);
    case Unknown =>
  }

  method MapLoop(lib: Library, show: Printer, content: seq<Json>, capsule: Option<Runtime>)
    returns (r: Result<ChatMessage, MapError>)
    ensures r == MapBlocks(lib, show, Blocks(content), capsule)
  {
    var runtime := Active(capsule);
    var gathered := Gather(show, content, runtime.Some?);
    if gathered.Err? {
      return Err(gathered.error);
    }
    var g := gathered.value;
    var calls := g.calls;
    if runtime.Some? && calls != [] && g.invalidSeen {
      return Err(UnreplayableReasoning);
    }
    if runtime.Some? && g.replayed != [] {
      var minted := MintCalls(lib, calls, g.replayed, runtime.value.keyring);
      if minted.Err? {
        return Err(minted.error);
      }
      calls := minted.value;
    }
    return Ok(ChatMessage(Rendered(g.reasoning, g.text, calls != []), calls));
  }

  lemma {:induction false} MintErrorStays(lib: Library, calls: seq<ToolCall>, n: nat, blocks: seq<Json>,
                                          keyring: Keyring)
    requires n <= |calls| && MintAll(lib, calls[..n], blocks, keyring).Err?
    ensures MintAll(lib, calls, blocks, keyring) == MintAll(lib, calls[..n], blocks, keyring)
  {
    if n == |calls| {
      assert calls[..n] == calls;
    } else {
      assert calls[..|calls| - 1][..n] == calls[..n];
      MintErrorStays(lib, calls[..|calls| - 1], n, blocks, keyring);
    }
  }

  // ---- the answer around the message ----

  /** `cached` and `reasoning` are the details that are only attached when there is something to tell. */
  datatype ChatAnswer = ChatAnswer(message: ChatMessage, finishReason: Option<string>, prompt: int, completion: int,
                                   total: int, cached: Option<int>, reasoning: Option<int>)

  function FinishReasonOf(stopReason: Option<string>): Option<string> {
    match stopReason
    case None => None
    case Some(raw) =>
      var lowered := Lower(raw);
      Some(if lowered == "tool_use" then "tool_calls"
           else if lowered == "finished" || lowered == "end_turn" || lowered == "stop_sequence" || lowered == "complete"
           then "stop"
           else if lowered == "max_tokens" then "length"
           else if lowered == "content_filtered" then "content_filter"
           else lowered)
  }

  function UsageField(output: Json, key: string): int {
    match output.Get("usage")
    case None => 0
    case Some(usage) => Int32(usage.GetInt64(key).GetOr(0))
  }

  /** The reasoning text of a block, whatever else the block holds. */
  function ReasoningIn(block: Json): string {
    match block.Get("reasoningContent")
    case None => ""
    case Some(value) => ThoughtText(value)
  }

  /** The answer around a message, with the numbers of the output's usage. */
  function Answer(count: string -> nat, output: Json, content: seq<Json>, message: ChatMessage): ChatAnswer {
    var read, written := UsageField(output, "cacheReadInputTokens"), UsageField(output, "cacheWriteInputTokens");
    var prompt, completion := UsageField(output, "inputTokens") + read + written, UsageField(output, "outputTokens");
    var thought := count(FlatMap(ReasoningIn, content));
    ChatAnswer(message, FinishReasonOf(output.GetString("stopReason")), prompt, completion, prompt + completion,
               if read > 0 || written > 0 then Some(read) else None,
               if thought > 0 then Some(Int32(thought)) else None)
  }

  /** The loop of the token estimate. */
  method CountReasoning(count: string -> nat, content: seq<Json>) returns (thought: nat)
    ensures thought == count(FlatMap(ReasoningIn, content))
  {
    var text := "";
    for i := 0 to |content|
      invariant text == FlatMap(ReasoningIn, content[..i])
    {
      assert content[..i + 1] == content[..i] + [content[i]];
      FlatMapOne(ReasoningIn, content[..i], content[i]);
      text := text + ReasoningIn(content[i]);
    }
    assert content[..|content|] == content;
    thought := count(text);
  }

  method AnswerAround(count: string -> nat, output: Json, content: seq<Json>, message: ChatMessage)
    returns (r: ChatAnswer)
    ensures r == Answer(count, output, content, message)
  {
    var read, written := UsageField(output, "cacheReadInputTokens"), UsageField(output, "cacheWriteInputTokens");
    var prompt, completion := UsageField(output, "inputTokens") + read + written, UsageField(output, "outputTokens");
    var thought := CountReasoning(count, content);
    r := ChatAnswer(message, FinishReasonOf(output.GetString("stopReason")), prompt, completion, prompt + completion,
                    if read > 0 || written > 0 then Some(read) else None,
                    if thought > 0 then Some(Int32(thought)) else None);
  }

  /** The whole answer; an output without the content array is malformed. */
  function MapOutput(lib: Library, show: Printer, count: string -> nat, output: Json, capsule: Option<Runtime>)
    : Result<ChatAnswer, MapError>
  {
    match ContentOf(output)
    case None => Err(MissingContent)
    case Some(content) =>
      match MapBlocks(lib, show, Blocks(content), capsule)
      case Err(e) => Err(e)
      case Ok(message) => Ok(Answer(count, output, content, message))
  }

  method FromConverseOutput(lib: Library, show: Printer, count: string -> nat, output: Json, capsule: Option<Runtime>)
    returns (r: Result<ChatAnswer, MapError>)
    ensures r == MapOutput(lib, show, count, output, capsule)
  {
    var content := ContentOf(output);
    if content.None? {
      return Err(MissingContent);
    }
    var mapped := MapLoop(lib, show, content.value, capsule);
    if mapped.Err? {
      return Err(mapped.error);
    }
    var answer := AnswerAround(count, output, content.value, mapped.value);
    return Ok(answer);
  }

  lemma {:induction false} LowerIsLower(s: string)
    ensures Lower(Lower(s)) == Lower(s)
  {
  }

  /** Letter case does not matter to the finish reason, and a finish reason stands for itself. */
  lemma {:induction false} FinishReasonIsStable(stopReason: string)
    ensures FinishReasonOf(Some(Lower(stopReason))) == FinishReasonOf(Some(stopReason))
    ensures FinishReasonOf(FinishReasonOf(Some(stopReason))) == FinishReasonOf(Some(stopReason))
  {
    LowerIsLower(stopReason);
    assert Lower("tool_calls") == "tool_calls";
    assert Lower("stop") == "stop";
    assert Lower("length") == "length";
    assert Lower("content_filter") == "content_filter";
  }

  function ContentOf(output: Json): Option<seq<Json>> {
    match output.Get("output")
    case None => None
    case Some(o) =>
      match o.Get("message")
      case None => None
      case Some(m) =>
        match m.Get("content")
        case None => None
        case Some(c) => c.AsArray()
  }

  // ---- replayability ----

  lemma {:induction false} MintedOneByOne(lib: Library, calls: seq<ToolCall>, blocks: seq<Json>, keyring: Keyring,
                                          i: nat)
    requires MintAll(lib, calls, blocks, keyring).Ok? && i < |calls|
    ensures |MintAll(lib, calls, blocks, keyring).value| == |calls|
    ensures Mint(lib, calls[i], blocks, keyring) == Ok(MintAll(lib, calls, blocks, keyring).value[i])
  {
    if |calls| > 1 {
      MintedOneByOne(lib, calls[..|calls| - 1], blocks, keyring, if i < |calls| - 1 then i else 0);
    }
  }

  /**
   * Every tool turn of an enabled encoder can be replayed. Its ids are all as upstream gave them when the
   * turn has no reasoning; otherwise each decodes, under any keyring that keeps the signing key, to the
   * upstream id and to the turn's reasoning blocks, the same for every call.
   */
  lemma {:induction false} ToolTurnIsReplayable(lib: Library, show: Printer, blocks: seq<Block>, runtime: Runtime,
                                                keyring: Keyring, i: nat)
    requires Lawful(lib) && runtime.encoderEnabled
    requires MapBlocks(lib, show, blocks, Some(runtime)).Ok? && i < |Uses(blocks)|
    ensures var calls := MapBlocks(lib, show, blocks, Some(runtime)).value.toolCalls;
            var upstream := CallOf(show, Uses(blocks)[i], i);
            && |calls| == |Uses(blocks)|
            && calls[i].(id := upstream.id) == upstream
            && (Thoughts(blocks) == [] ==> calls[i] == upstream)
            && (Thoughts(blocks) != [] && upstream.id.Some? && Keeps(runtime.keyring, keyring) ==>
                && calls[i].id.Some?
                && DecodeCapsule(lib, calls[i].id.value, keyring)
                   == Ok(DecodedCapsule(upstream.id.value, Thoughts(blocks))))
  {
    ValidOfAllValid(Thoughts(blocks));
    if Thoughts(blocks) != [] {
      var calls := Calls(show, Uses(blocks));
      MintedOneByOne(lib, calls, Thoughts(blocks), runtime.keyring, i);
      if calls[i].id.Some? && Keeps(runtime.keyring, keyring) {
        CapsuleRoundTrip(lib, calls[i].id.value, Thoughts(blocks), runtime.keyring, keyring);
      }
    }
  }
}
