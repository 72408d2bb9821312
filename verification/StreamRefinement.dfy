/**
 * Streaming refines not streaming: whatever way a Converse output is cut into stream events, the
 * response in the terminal event is the one the non-streaming mapper gives on the whole output.
 */
module StreamRefinement {
  import opened Prelude
  import opened ConverseMapper
  import opened Trace
  import opened StreamModel
  import opened StreamRuns
  import opened StreamSkipped

  // ---- cutting an output into events ----

  function TextIn(d: Delta): string { if d.TextDelta? || d.ReasoningDelta? then d.text else "" }

  function SignatureIn(d: Delta): string { if d.SignatureDelta? then d.signature else "" }

  function RedactedIn(d: Delta): Bytes { if d.RedactedDelta? then d.redacted else [] }

  function InputIn(d: Delta): string { if d.ToolInputDelta? then d.fragment else "" }

  predicate HasSignature(deltas: seq<Delta>) { exists i :: 0 <= i < |deltas| && deltas[i].SignatureDelta? }

  /** The deltas carry the block: their fragments, in order, concatenate to its contents. */
  predicate Cuts(ctx: Context, block: ContentBlock, deltas: seq<Delta>) {
    match block
    case Text(text) =>
      (forall i :: 0 <= i < |deltas| ==> deltas[i].TextDelta?) && FlatMap(TextIn, deltas) == text
    case ReasoningText(reasoning, signature) =>
      && (forall i :: 0 <= i < |deltas| ==> deltas[i].ReasoningDelta? || deltas[i].SignatureDelta?)
      && reasoning == Some(FlatMap(TextIn, deltas))
      && signature == (if HasSignature(deltas) then Some(FlatMap(SignatureIn, deltas)) else None)
    case RedactedReasoning(redacted) =>
      && deltas != [] && (forall i :: 0 <= i < |deltas| ==> deltas[i].RedactedDelta?)
      && FlatMap(RedactedIn, deltas) == redacted
    case ToolUse(id, name, input) =>
      && id.Some? && name.Some? && input.Some?
      && (forall i :: 0 <= i < |deltas| ==> deltas[i].ToolInputDelta?)
      && ctx.lib.parse(OrEmptyObject(FlatMap(InputIn, deltas))) == input
    case OtherBlock => forall i :: 0 <= i < |deltas| ==> deltas[i].OtherDelta?
  }

  function DeltaEvents(block: int, deltas: seq<Delta>): seq<BedrockEvent> {
    if deltas == [] then []
    else DeltaEvents(block, deltas[..|deltas| - 1]) + [BlockDelta(block, Some(deltas[|deltas| - 1]))]
  }

  /** The events of one block: a start if it is a tool call, its deltas, its stop. */
  function BlockEvents(i: int, block: ContentBlock, deltas: seq<Delta>): seq<BedrockEvent> {
    (if block.ToolUse? then [BlockStart(i, Some(ToolStart(block.toolUseId.GetOr(""), block.toolName.GetOr(""))))]
     else [])
    + DeltaEvents(i, deltas) + [BlockStop(i)]
  }

  function ContentEvents(content: seq<ContentBlock>, cuts: seq<seq<Delta>>): seq<BedrockEvent>
    requires |content| == |cuts|
  {
    if content == [] then []
    else
      var n := |content| - 1;
      ContentEvents(content[..n], cuts[..n]) + BlockEvents(n, content[n], cuts[n])
  }

  // ---- what the accumulators hold ----

  function ToolBlocks(ctx: Context, tools: seq<ToolAccum>): seq<ContentBlock> {
    FlatMap((t: ToolAccum) => ToolBlock(ctx, t), tools)
  }

  ghost predicate ToolsCollected(ctx: Context, s: State, content: seq<ContentBlock>) {
    && ToolItemsOf(ctx, ToolBlocks(ctx, s.tools)) == ToolItemsOf(ctx, content)
    && (forall i :: 0 <= i < |s.tools| ==> s.tools[i].block < |content|)
    && (forall i :: 0 <= i < |s.tools| ==> ToolValid(ctx, s.tools[i]) && !s.tools[i].doneEmitted)
  }

  ghost predicate ReasoningCollected(s: State, content: seq<ContentBlock>) {
    && ReasoningTextOf(ReasoningBlocks(s.reasoningByBlock)) == ReasoningTextOf(content)
    && ReplayableOf(ReasoningBlocks(s.reasoningByBlock)) == ReplayableOf(content)
    && (forall i :: 0 <= i < |s.reasoningByBlock| ==> s.reasoningByBlock[i].0 < |content|)
  }

  /** The accumulators hold what the mapper would collect from these blocks. */
  ghost predicate Collected(ctx: Context, s: State, content: seq<ContentBlock>) {
    && !s.finalized && s.stopReason.None? && s.usage.None?
    && s.messageText == TextOf(content)
    && ReasoningCollected(s, content)
    && ToolsCollected(ctx, s, content)
  }

  // ---- the effect of single events on the accumulators ----

  lemma {:induction false} CloseItemsPieces(ctx: Context, s: State)
    ensures SamePieces(s, CloseItems(ctx, s)) && CloseItems(ctx, s).tools == s.tools
  {
  }

  lemma {:induction false} StartedPieces(ctx: Context, s: State)
    ensures SamePieces(s, EnsureStarted(ctx, s)) && EnsureStarted(ctx, s).tools == s.tools
  {
  }

  lemma {:induction false} MessagePieces(ctx: Context, s: State)
    ensures SamePieces(s, EnsureMessage(ctx, s)) && EnsureMessage(ctx, s).tools == s.tools
  {
  }

  lemma {:induction false} ReasoningPieces(ctx: Context, s: State)
    ensures SamePieces(s, EnsureReasoning(ctx, s)) && EnsureReasoning(ctx, s).tools == s.tools
  {
  }

  lemma {:induction false} CloseReasoningPieces(ctx: Context, s: State)
    ensures SamePieces(s, CloseReasoning(ctx, s)) && CloseReasoning(ctx, s).tools == s.tools
  {
  }

  lemma {:induction false} TextEffect(ctx: Context, s: State, block: int, text: string)
    requires !s.finalized
    ensures var r := MapEvent(ctx, s, BlockDelta(block, Some(TextDelta(text))));
            SamePieces(s.(messageText := s.messageText + text), r) && r.tools == s.tools
  {
    var o := EnsureStarted(ctx, s);
    StartedPieces(ctx, s);
    CloseReasoningPieces(ctx, o);
    MessagePieces(ctx, CloseReasoning(ctx, o));
  }

  lemma {:induction false} ReasoningEffect(ctx: Context, s: State, block: int, text: string)
    requires !s.finalized
    ensures var r := MapEvent(ctx, s, BlockDelta(block, Some(ReasoningDelta(text))));
            r.tools == s.tools
            && SamePieces(if text == "" then s
                          else s.(reasoningByBlock := Touch(s.reasoningByBlock, block, AddText(text))), r)
  {
    StartedPieces(ctx, s);
    ReasoningPieces(ctx, EnsureStarted(ctx, s));
  }

  lemma {:induction false} SignatureEffect(ctx: Context, s: State, block: int, signature: string)
    requires !s.finalized
    ensures var r := MapEvent(ctx, s, BlockDelta(block, Some(SignatureDelta(signature))));
            r.tools == s.tools
            && SamePieces(s.(reasoningByBlock := Touch(s.reasoningByBlock, block, AddSignature(signature))), r)
  {
    StartedPieces(ctx, s);
    ReasoningPieces(ctx, EnsureStarted(ctx, s));
  }

  lemma {:induction false} RedactedEffect(ctx: Context, s: State, block: int, redacted: Bytes)
    requires !s.finalized
    ensures var r := MapEvent(ctx, s, BlockDelta(block, Some(RedactedDelta(redacted))));
            r.tools == s.tools
            && SamePieces(s.(reasoningByBlock := Touch(s.reasoningByBlock, block, AddRedacted(redacted))), r)
  {
    StartedPieces(ctx, s);
    ReasoningPieces(ctx, EnsureStarted(ctx, s));
  }

  /** What a reasoning delta does to the accumulators. */
  function Touched(blocks: ReasoningByBlock, j: int, d: Delta): ReasoningByBlock {
    match d
    case ReasoningDelta(text) => if text == "" then blocks else Touch(blocks, j, AddText(text))
    case SignatureDelta(signature) => Touch(blocks, j, AddSignature(signature))
    case RedactedDelta(redacted) => Touch(blocks, j, AddRedacted(redacted))
    case _ => blocks
  }

  lemma {:induction false} ReasoningDeltaEffect(ctx: Context, s: State, j: int, d: Delta)
    requires !s.finalized && IsReasoningDelta(d)
    ensures var r := MapEvent(ctx, s, BlockDelta(j, Some(d)));
            r.tools == s.tools && SamePieces(s.(reasoningByBlock := Touched(s.reasoningByBlock, j, d)), r)
  {
    match d
    case ReasoningDelta(text) => ReasoningEffect(ctx, s, j, text);
    case SignatureDelta(signature) => SignatureEffect(ctx, s, j, signature);
    case RedactedDelta(redacted) => RedactedEffect(ctx, s, j, redacted);
  }

  lemma {:induction false} InertEffect(ctx: Context, s: State, event: BedrockEvent)
    requires !s.finalized
             && (event == MessageStart || event.UnknownEvent? || (event.BlockDelta? && event.delta == Some(OtherDelta)))
    ensures SamePieces(s, MapEvent(ctx, s, event)) && MapEvent(ctx, s, event).tools == s.tools
  {
    StartedPieces(ctx, s);
  }

  /** The last delta is mapped in the state that the earlier ones lead to. */
  lemma {:induction false} FeedLastDelta(ctx: Context, s: State, j: int, deltas: seq<Delta>, m: State)
    requires deltas != [] && m == Feed(ctx, s, DeltaEvents(j, deltas[..|deltas| - 1])) && !m.finalized
    ensures Feed(ctx, s, DeltaEvents(j, deltas)) == MapEvent(ctx, m, BlockDelta(j, Some(deltas[|deltas| - 1])))
  {
    var n := |deltas| - 1;
    FeedAppend(ctx, s, DeltaEvents(j, deltas[..n]), [BlockDelta(j, Some(deltas[n]))]);
    FeedOne(ctx, m, BlockDelta(j, Some(deltas[n])));
  }

  // ---- one reasoning block ----

  function Gather(deltas: seq<Delta>): ReasoningAccum {
    if deltas == [] then EMPTY_REASONING
    else
      var a := Gather(deltas[..|deltas| - 1]);
      match deltas[|deltas| - 1]
      case ReasoningDelta(text) => a.(text := a.text + text)
      case SignatureDelta(signature) => a.(signatureSeen := true, signature := a.signature + signature)
      case RedactedDelta(redacted) => a.(redactedSeen := true, redacted := a.redacted + redacted)
      case _ => a
  }

  predicate IsReasoningDelta(d: Delta) { d.ReasoningDelta? || d.SignatureDelta? || d.RedactedDelta? }

  /** Whether the deltas open an accumulator at all; empty text does not. */
  predicate Opens(deltas: seq<Delta>) {
    exists i :: 0 <= i < |deltas| && IsReasoningDelta(deltas[i]) && deltas[i] != ReasoningDelta("")
  }

  function Accumulated(blocks: ReasoningByBlock, j: int, deltas: seq<Delta>): ReasoningByBlock {
    if Opens(deltas) then blocks + [(j, Gather(deltas))] else blocks
  }

  ghost predicate KeysBelow(blocks: ReasoningByBlock, j: int) {
    forall i :: 0 <= i < |blocks| ==> blocks[i].0 < j
  }

  lemma {:induction false} TouchLast(blocks: ReasoningByBlock, j: int, a: ReasoningAccum,
                                     update: ReasoningAccum -> ReasoningAccum)
    requires KeysBelow(blocks, j)
    ensures Touch(blocks, j, update) == blocks + [(j, update(EMPTY_REASONING))]
    ensures Touch(blocks + [(j, a)], j, update) == blocks + [(j, update(a))]
  {
    if blocks != [] {
      TouchLast(blocks[1..], j, a, update);
      assert (blocks + [(j, a)])[1..] == blocks[1..] + [(j, a)];
      assert blocks == [blocks[0]] + blocks[1..];
    }
  }

  lemma {:induction false} GatherIsEmpty(deltas: seq<Delta>)
    requires !Opens(deltas)
    ensures Gather(deltas) == EMPTY_REASONING
  {
    if deltas != [] {
      var n := |deltas| - 1;
      assert forall i :: 0 <= i < n ==> deltas[..n][i] == deltas[i];
      GatherIsEmpty(deltas[..n]);
    }
  }

  lemma {:induction false} OpensOne(deltas: seq<Delta>, d: Delta)
    ensures Opens(deltas + [d]) <==> Opens(deltas) || (IsReasoningDelta(d) && d != ReasoningDelta(""))
  {
    assert (deltas + [d])[|deltas|] == d;
    assert forall i :: 0 <= i < |deltas| ==> (deltas + [d])[i] == deltas[i];
  }

  /** One more reasoning delta, applied to the accumulators as the machine does. */
  lemma {:induction false} AccumulateOne(blocks: ReasoningByBlock, j: int, deltas: seq<Delta>, d: Delta)
    requires KeysBelow(blocks, j) && IsReasoningDelta(d)
    ensures Accumulated(blocks, j, deltas + [d]) == Touched(Accumulated(blocks, j, deltas), j, d)
  {
    OpensOne(deltas, d);
    assert (deltas + [d])[..|deltas|] == deltas;
    var g := Gather(deltas);
    if !Opens(deltas) {
      GatherIsEmpty(deltas);
    }
    match d
    case ReasoningDelta(text) =>
      TouchLast(blocks, j, g, AddText(text));
      assert text == "" ==> g.text + text == g.text;
    case SignatureDelta(signature) => TouchLast(blocks, j, g, AddSignature(signature));
    case RedactedDelta(redacted) => TouchLast(blocks, j, g, AddRedacted(redacted));
  }

  lemma {:induction false} LastReasoningDelta(ctx: Context, s: State, j: int, deltas: seq<Delta>, m: State)
    requires deltas != [] && m == Feed(ctx, s, DeltaEvents(j, deltas[..|deltas| - 1])) && !m.finalized
    requires IsReasoningDelta(deltas[|deltas| - 1])
    ensures var r := Feed(ctx, s, DeltaEvents(j, deltas));
            && r.tools == m.tools
            && SamePieces(m.(reasoningByBlock := Touched(m.reasoningByBlock, j, deltas[|deltas| - 1])), r)
  {
    FeedLastDelta(ctx, s, j, deltas, m);
    ReasoningDeltaEffect(ctx, m, j, deltas[|deltas| - 1]);
  }

  lemma {:induction false} TouchedAgain(s: State, m: State, r: State, before: ReasoningByBlock, j: int, d: Delta)
    requires SamePieces(s.(reasoningByBlock := before), m) && m.tools == s.tools
    requires SamePieces(m.(reasoningByBlock := Touched(m.reasoningByBlock, j, d)), r) && r.tools == m.tools
    ensures SamePieces(s.(reasoningByBlock := Touched(before, j, d)), r) && r.tools == s.tools
  {
  }

  lemma {:induction false} ReasoningDeltasEffect(ctx: Context, s: State, j: int, deltas: seq<Delta>)
    requires !s.finalized && KeysBelow(s.reasoningByBlock, j)
    requires forall i :: 0 <= i < |deltas| ==> IsReasoningDelta(deltas[i])
    ensures var r := Feed(ctx, s, DeltaEvents(j, deltas));
            SamePieces(s.(reasoningByBlock := Accumulated(s.reasoningByBlock, j, deltas)), r) && r.tools == s.tools
    decreases |deltas|
  {
    if deltas != [] {
      var before, d := deltas[..|deltas| - 1], deltas[|deltas| - 1];
      assert deltas == before + [d];
      var m := Feed(ctx, s, DeltaEvents(j, before));
      ReasoningDeltasEffect(ctx, s, j, before);
      LastReasoningDelta(ctx, s, j, deltas, m);
      AccumulateOne(s.reasoningByBlock, j, before, d);
      TouchedAgain(s, m, Feed(ctx, s, DeltaEvents(j, deltas)), Accumulated(s.reasoningByBlock, j, before), j, d);
    }
  }

  predicate HasRedacted(deltas: seq<Delta>) { exists i :: 0 <= i < |deltas| && deltas[i].RedactedDelta? }

  lemma {:induction false} GatherIs(deltas: seq<Delta>)
    requires forall i :: 0 <= i < |deltas| ==> IsReasoningDelta(deltas[i])
    ensures var a := Gather(deltas);
            && a.text == FlatMap(TextIn, deltas)
            && a.signature == FlatMap(SignatureIn, deltas)
            && a.redacted == FlatMap(RedactedIn, deltas)
            && a.signatureSeen == HasSignature(deltas)
            && a.redactedSeen == HasRedacted(deltas)
  {
    if deltas != [] {
      var before, last := deltas[..|deltas| - 1], deltas[|deltas| - 1];
      assert deltas == before + [last];
      GatherIs(before);
      MoreSeen(before, last);
      FlatMapOne(TextIn, before, last);
      FlatMapOne(SignatureIn, before, last);
      FlatMapOne(RedactedIn, before, last);
    }
  }

  lemma {:induction false} MoreSeen(before: seq<Delta>, last: Delta)
    ensures HasSignature(before + [last]) <==> HasSignature(before) || last.SignatureDelta?
    ensures HasRedacted(before + [last]) <==> HasRedacted(before) || last.RedactedDelta?
  {
    var deltas := before + [last];
    assert deltas[|before|] == last;
    assert forall i :: 0 <= i < |before| ==> deltas[i] == before[i];
  }

  /** A reasoning block adds to the accumulators exactly what the mapper would collect from it. */
  lemma {:induction false} ReasoningBlockCollects(ctx: Context, blocks: ReasoningByBlock,
                                                  content: seq<ContentBlock>, block: ContentBlock,
                                                  deltas: seq<Delta>)
    requires block.ReasoningText? || block.RedactedReasoning?
    requires Cuts(ctx, block, deltas)
    requires ReasoningTextOf(ReasoningBlocks(blocks)) == ReasoningTextOf(content)
    requires ReplayableOf(ReasoningBlocks(blocks)) == ReplayableOf(content)
    ensures var r := ReasoningBlocks(Accumulated(blocks, |content|, deltas));
            && ReasoningTextOf(r) == ReasoningTextOf(content + [block])
            && ReplayableOf(r) == ReplayableOf(content + [block])
  {
    var entry := (|content|, Gather(deltas));
    GatherIs(deltas);
    if !Opens(deltas) {
      GatherIsEmpty(deltas);
    }
    FlatMapOne(ReasoningPart, content, block);
    FlatMapOne(ReplayablePart, content, block);
    FlatMapOne(ReasoningBlock, blocks, entry);
    FlatMapAppend(ReasoningPart, ReasoningBlocks(blocks), ReasoningBlock(entry));
    FlatMapAppend(ReplayablePart, ReasoningBlocks(blocks), ReasoningBlock(entry));
    ReasoningBlockIs(ctx, block, deltas, entry);
  }

  /** The accumulator stands for a block that reads the same as the one that was cut. */
  lemma {:induction false} ReasoningBlockIs(ctx: Context, block: ContentBlock, deltas: seq<Delta>,
                                            entry: (int, ReasoningAccum))
    requires (block.ReasoningText? || block.RedactedReasoning?) && Cuts(ctx, block, deltas)
    requires entry.1 == Gather(deltas)
    ensures FlatMap(ReasoningPart, ReasoningBlock(entry)) == ReasoningPart(block)
    ensures FlatMap(ReplayablePart, ReasoningBlock(entry)) == ReplayablePart(block)
  {
    GatherIs(deltas);
    if block.RedactedReasoning? {
      assert deltas[0].RedactedDelta?;
    }
    FlatMapOne(ReasoningPart, [], block);
    FlatMapOne(ReplayablePart, [], block);
    assert [] + [block] == [block];
  }

  // ---- one text block ----

  lemma {:induction false} MoreText(s: State, m: State, r: State, a: string, b: string)
    requires SamePieces(s.(messageText := s.messageText + a), m)
    requires SamePieces(m.(messageText := m.messageText + b), r)
    ensures SamePieces(s.(messageText := s.messageText + (a + b)), r)
  {
    assert s.messageText + a + b == s.messageText + (a + b);
  }

  lemma {:induction false} TextDeltasEffect(ctx: Context, s: State, j: int, deltas: seq<Delta>)
    requires !s.finalized
    requires forall i :: 0 <= i < |deltas| ==> deltas[i].TextDelta?
    ensures var r := Feed(ctx, s, DeltaEvents(j, deltas));
            SamePieces(s.(messageText := s.messageText + FlatMap(TextIn, deltas)), r) && r.tools == s.tools
    decreases |deltas|
  {
    if deltas == [] {
      assert s.messageText + [] == s.messageText;
    } else {
      var n := |deltas| - 1;
      var m := Feed(ctx, s, DeltaEvents(j, deltas[..n]));
      TextDeltasEffect(ctx, s, j, deltas[..n]);
      FeedLastDelta(ctx, s, j, deltas, m);
      TextEffect(ctx, m, j, deltas[n].text);
      MoreText(s, m, Feed(ctx, s, DeltaEvents(j, deltas)), FlatMap(TextIn, deltas[..n]), deltas[n].text);
    }
  }

  lemma {:induction false} OtherDeltasEffect(ctx: Context, s: State, j: int, deltas: seq<Delta>)
    requires !s.finalized
    requires forall i :: 0 <= i < |deltas| ==> deltas[i].OtherDelta?
    ensures var r := Feed(ctx, s, DeltaEvents(j, deltas)); SamePieces(s, r) && r.tools == s.tools
    decreases |deltas|
  {
    if deltas != [] {
      var n := |deltas| - 1;
      var m := Feed(ctx, s, DeltaEvents(j, deltas[..n]));
      OtherDeltasEffect(ctx, s, j, deltas[..n]);
      FeedLastDelta(ctx, s, j, deltas, m);
      InertEffect(ctx, m, BlockDelta(j, Some(OtherDelta)));
    }
  }

  // ---- one tool block ----

  lemma {:induction false} ToolPositionIs(tools: seq<ToolAccum>, t: ToolAccum)
    requires forall i :: 0 <= i < |tools| ==> tools[i].block < t.block
    ensures ToolPosition(tools, t.block) == None
    ensures ToolPosition(tools + [t], t.block) == Some(|tools|)
  {
    if tools == [] {
      assert tools + [t] == [t];
    } else {
      assert (tools + [t])[1..] == tools[1..] + [t];
      ToolPositionIs(tools[1..], t);
    }
  }

  /** The state has gained one tool, with these arguments so far. */
  ghost predicate WithTool(s: State, r: State, j: int, start: ToolStart, arguments: string, closed: bool) {
    && SamePieces(s, r)
    && |r.tools| == |s.tools| + 1 && r.tools[..|s.tools|] == s.tools
    && var t := r.tools[|s.tools|];
       t == ToolAccum(j, start.toolUseId, start.toolName, arguments, t.outputIndex, closed, false)
  }

  lemma {:induction false} StartToolPieces(ctx: Context, s: State, j: int, start: ToolStart)
    ensures WithTool(s, StartTool(ctx, s, j, start), j, start, "", false)
  {
  }

  lemma {:induction false} StartToolEffect(ctx: Context, s: State, j: int, start: ToolStart)
    requires !s.finalized
    ensures WithTool(s, MapEvent(ctx, s, BlockStart(j, Some(start))), j, start, "", false)
  {
    var o := EnsureStarted(ctx, s);
    StartedPieces(ctx, s);
    CloseItemsPieces(ctx, o);
    StartToolPieces(ctx, CloseItems(ctx, o), j, start);
  }

  lemma {:induction false} AppendArgumentsPieces(ctx: Context, s: State, m: State, j: int, start: ToolStart,
                                                 arguments: string, fragment: string)
    requires WithTool(s, m, j, start, arguments, false)
    requires forall i :: 0 <= i < |s.tools| ==> s.tools[i].block < j
    ensures WithTool(s, AppendArguments(ctx, m, j, fragment), j, start, arguments + fragment, false)
  {
    var t := m.tools[|s.tools|];
    assert m.tools == s.tools + [t];
    ToolPositionIs(s.tools, t);
  }

  lemma {:induction false} ToolInputEffect(ctx: Context, s: State, m: State, j: int, start: ToolStart,
                                           arguments: string, fragment: string)
    requires WithTool(s, m, j, start, arguments, false) && !m.finalized
    requires forall i :: 0 <= i < |s.tools| ==> s.tools[i].block < j
    ensures WithTool(s, MapEvent(ctx, m, BlockDelta(j, Some(ToolInputDelta(fragment)))), j, start,
                     arguments + fragment, false)
  {
    var o := EnsureStarted(ctx, m);
    StartedPieces(ctx, m);
    assert WithTool(s, o, j, start, arguments, false);
    AppendArgumentsPieces(ctx, s, o, j, start, arguments, fragment);
    var a := AppendArguments(ctx, o, j, fragment);
    ToolInputIs(ctx, m, j, fragment);
    TalliedTool(s, a, TallySince(a.counts, a.log, m.log), j, start, arguments + fragment);
  }

  lemma {:induction false} ToolInputIs(ctx: Context, m: State, j: int, fragment: string)
    requires !m.finalized
    ensures var a := AppendArguments(ctx, EnsureStarted(ctx, m), j, fragment);
            MapEvent(ctx, m, BlockDelta(j, Some(ToolInputDelta(fragment))))
            == a.(counts := TallySince(a.counts, a.log, m.log))
  {
    var event := BlockDelta(j, Some(ToolInputDelta(fragment)));
    assert MapBody(ctx, EnsureStarted(ctx, m), event) == AppendArguments(ctx, EnsureStarted(ctx, m), j, fragment);
  }

  lemma {:induction false} TalliedTool(s: State, m: State, counts: Counts, j: int, start: ToolStart, arguments: string)
    requires WithTool(s, m, j, start, arguments, false)
    ensures WithTool(s, m.(counts := counts), j, start, arguments, false)
  {
  }

  lemma {:induction false} ToolDeltasEffect(ctx: Context, s: State, m: State, j: int, start: ToolStart,
                                            deltas: seq<Delta>)
    requires WithTool(s, m, j, start, "", false) && !m.finalized
    requires forall i :: 0 <= i < |s.tools| ==> s.tools[i].block < j
    requires forall i :: 0 <= i < |deltas| ==> deltas[i].ToolInputDelta?
    ensures WithTool(s, Feed(ctx, m, DeltaEvents(j, deltas)), j, start, FlatMap(InputIn, deltas), false)
    decreases |deltas|
  {
    if deltas != [] {
      var n := |deltas| - 1;
      var p := Feed(ctx, m, DeltaEvents(j, deltas[..n]));
      ToolDeltasEffect(ctx, s, m, j, start, deltas[..n]);
      FeedLastDelta(ctx, m, j, deltas, p);
      ToolInputEffect(ctx, s, p, j, start, FlatMap(InputIn, deltas[..n]), deltas[n].fragment);
    }
  }

  lemma {:induction false} ToolStopEffect(ctx: Context, s: State, m: State, j: int, start: ToolStart, arguments: string)
    requires WithTool(s, m, j, start, arguments, false) && !m.finalized
    requires forall i :: 0 <= i < |s.tools| ==> s.tools[i].block < j
    ensures WithTool(s, MapEvent(ctx, m, BlockStop(j)), j, start, arguments, true)
  {
    StartedPieces(ctx, m);
    var t := m.tools[|s.tools|];
    assert m.tools == s.tools + [t];
    ToolPositionIs(s.tools, t);
  }

  /** A stop for a block that is no tool changes nothing. */
  lemma {:induction false} OtherStopEffect(ctx: Context, s: State, j: int)
    requires !s.finalized
    requires forall i :: 0 <= i < |s.tools| ==> s.tools[i].block < j
    ensures var r := MapEvent(ctx, s, BlockStop(j)); SamePieces(s, r) && r.tools == s.tools
  {
    StartedPieces(ctx, s);
    ToolPositionIs(s.tools, ToolAccum(j, "", "", "", 0, false, false));
  }

  // ---- one block ----

  lemma {:induction false} TextFedAs(ctx: Context, s: State, i: int, block: ContentBlock, deltas: seq<Delta>)
    requires !s.finalized && Cuts(ctx, block, deltas) && (block.Text? || block.OtherBlock?)
    requires forall p :: 0 <= p < |s.tools| ==> s.tools[p].block < i
    ensures var r := Feed(ctx, s, BlockEvents(i, block, deltas));
            SamePieces(s.(messageText := s.messageText + TextPart(block)), r) && r.tools == s.tools
  {
    var m := Feed(ctx, s, DeltaEvents(i, deltas));
    if block.Text? {
      TextDeltasEffect(ctx, s, i, deltas);
    } else {
      OtherDeltasEffect(ctx, s, i, deltas);
      assert s.messageText + "" == s.messageText;
    }
    assert BlockEvents(i, block, deltas) == DeltaEvents(i, deltas) + [BlockStop(i)];
    FeedStop(ctx, s, i, deltas, m);
  }

  lemma {:induction false} TextBlockCollected(ctx: Context, s: State, content: seq<ContentBlock>,
                                              block: ContentBlock, r: State)
    requires Collected(ctx, s, content) && (block.Text? || block.OtherBlock?)
    requires SamePieces(s.(messageText := s.messageText + TextPart(block)), r) && r.tools == s.tools
    ensures Collected(ctx, r, content + [block])
  {
    CollectAll(ctx, content, block);
  }

  /** What the mapper collects from one more block. */
  lemma {:induction false} CollectAll(ctx: Context, content: seq<ContentBlock>, block: ContentBlock)
    ensures TextOf(content + [block]) == TextOf(content) + TextPart(block)
    ensures ToolItemsOf(ctx, content + [block]) == ToolItemsOf(ctx, content) + ToolPart(ctx, block)
    ensures ReasoningTextOf(content + [block]) == ReasoningTextOf(content) + ReasoningPart(block)
    ensures ReplayableOf(content + [block]) == ReplayableOf(content) + ReplayablePart(block)
  {
    FlatMapOne(TextPart, content, block);
    FlatMapOne((b: ContentBlock) => ToolPart(ctx, b), content, block);
    FlatMapOne(ReasoningPart, content, block);
    FlatMapOne(ReplayablePart, content, block);
  }

  /** The stop of a block that is no tool comes after its deltas and changes nothing. */
  lemma {:induction false} FeedStop(ctx: Context, s: State, i: int, deltas: seq<Delta>, m: State)
    requires m == Feed(ctx, s, DeltaEvents(i, deltas)) && !m.finalized
    requires forall p :: 0 <= p < |m.tools| ==> m.tools[p].block < i
    ensures var r := Feed(ctx, s, DeltaEvents(i, deltas) + [BlockStop(i)]); SamePieces(m, r) && r.tools == m.tools
  {
    FeedAppend(ctx, s, DeltaEvents(i, deltas), [BlockStop(i)]);
    FeedOne(ctx, m, BlockStop(i));
    OtherStopEffect(ctx, m, i);
  }

  lemma {:induction false} ReasoningFedAs(ctx: Context, s: State, i: int, block: ContentBlock, deltas: seq<Delta>)
    requires !s.finalized && KeysBelow(s.reasoningByBlock, i)
    requires forall p :: 0 <= p < |s.tools| ==> s.tools[p].block < i
    requires Cuts(ctx, block, deltas) && (block.ReasoningText? || block.RedactedReasoning?)
    ensures var r := Feed(ctx, s, BlockEvents(i, block, deltas));
            SamePieces(s.(reasoningByBlock := Accumulated(s.reasoningByBlock, i, deltas)), r) && r.tools == s.tools
  {
    var m := Feed(ctx, s, DeltaEvents(i, deltas));
    ReasoningDeltasEffect(ctx, s, i, deltas);
    assert BlockEvents(i, block, deltas) == DeltaEvents(i, deltas) + [BlockStop(i)];
    FeedStop(ctx, s, i, deltas, m);
  }

  lemma {:induction false} ReasoningBlockCollected(ctx: Context, s: State, content: seq<ContentBlock>,
                                                   block: ContentBlock, deltas: seq<Delta>, r: State)
    requires Collected(ctx, s, content) && Cuts(ctx, block, deltas)
             && (block.ReasoningText? || block.RedactedReasoning?)
    requires SamePieces(s.(reasoningByBlock := Accumulated(s.reasoningByBlock, |content|, deltas)), r)
             && r.tools == s.tools
    ensures Collected(ctx, r, content + [block])
  {
    TextStays(ctx, content, block);
    ToolsStay(ctx, s, r, content, block);
    ReasoningGathers(ctx, s, r, content, block, deltas);
  }

  /** A reasoning block is no text. */
  lemma {:induction false} TextStays(ctx: Context, content: seq<ContentBlock>, block: ContentBlock)
    requires TextPart(block) == ""
    ensures TextOf(content + [block]) == TextOf(content)
  {
    CollectAll(ctx, content, block);
  }

  /** Nor does it touch the tools. */
  lemma {:induction false} ToolsStay(ctx: Context, s: State, r: State, content: seq<ContentBlock>, block: ContentBlock)
    requires ToolsCollected(ctx, s, content) && r.tools == s.tools && ToolPart(ctx, block) == []
    ensures ToolsCollected(ctx, r, content + [block])
  {
    CollectAll(ctx, content, block);
  }

  lemma {:induction false} ReasoningGathers(ctx: Context, s: State, r: State, content: seq<ContentBlock>,
                                            block: ContentBlock, deltas: seq<Delta>)
    requires ReasoningCollected(s, content) && Cuts(ctx, block, deltas)
    requires block.ReasoningText? || block.RedactedReasoning?
    requires r.reasoningByBlock == Accumulated(s.reasoningByBlock, |content|, deltas)
    ensures ReasoningCollected(r, content + [block])
  {
    ReasoningBlockCollects(ctx, s.reasoningByBlock, content, block, deltas);
    KeysStayBelow(s.reasoningByBlock, r.reasoningByBlock, |content|, deltas);
  }

  lemma {:induction false} KeysStayBelow(blocks: ReasoningByBlock, more: ReasoningByBlock, j: nat, deltas: seq<Delta>)
    requires KeysBelow(blocks, j) && more == Accumulated(blocks, j, deltas)
    ensures KeysBelow(more, j + 1)
  {
  }

  lemma {:induction false} ToolFedAs(ctx: Context, s: State, content: seq<ContentBlock>, block: ContentBlock,
                                     deltas: seq<Delta>)
    requires Collected(ctx, s, content) && Cuts(ctx, block, deltas) && block.ToolUse?
    ensures WithTool(s, Feed(ctx, s, BlockEvents(|content|, block, deltas)), |content|,
                     ToolStart(block.toolUseId.GetOr(""), block.toolName.GetOr("")), FlatMap(InputIn, deltas), true)
  {
    var i := |content|;
    var start := ToolStart(block.toolUseId.GetOr(""), block.toolName.GetOr(""));
    var a := MapEvent(ctx, s, BlockStart(i, Some(start)));
    StartToolEffect(ctx, s, i, start);
    var b := Feed(ctx, a, DeltaEvents(i, deltas));
    ToolDeltasEffect(ctx, s, a, i, start, deltas);
    ToolStopEffect(ctx, s, b, i, start, FlatMap(InputIn, deltas));
    FeedAppend(ctx, s, [BlockStart(i, Some(start))] + DeltaEvents(i, deltas), [BlockStop(i)]);
    FeedAppend(ctx, s, [BlockStart(i, Some(start))], DeltaEvents(i, deltas));
    FeedOne(ctx, s, BlockStart(i, Some(start)));
    FeedOne(ctx, b, BlockStop(i));
  }

  lemma {:induction false} ToolBlockCollected(ctx: Context, s: State, content: seq<ContentBlock>,
                                              block: ContentBlock, deltas: seq<Delta>, r: State)
    requires Collected(ctx, s, content) && Cuts(ctx, block, deltas) && block.ToolUse?
    requires WithTool(s, r, |content|, ToolStart(block.toolUseId.GetOr(""), block.toolName.GetOr("")),
                      FlatMap(InputIn, deltas), true)
    ensures Collected(ctx, r, content + [block])
  {
    var t := r.tools[|s.tools|];
    assert r.tools == s.tools + [t];
    assert ToolBlock(ctx, t) == [block] && ToolValid(ctx, t);
    MoreToolCollected(ctx, s.tools, t, content, block);
    CollectAll(ctx, content, block);
    assert ToolPart(ctx, block) != [] ==>
             TextPart(block) == "" && ReasoningPart(block) == "" && ReplayablePart(block) == [];
  }

  lemma {:induction false} MoreToolCollected(ctx: Context, tools: seq<ToolAccum>, t: ToolAccum,
                                             content: seq<ContentBlock>, block: ContentBlock)
    requires ToolBlock(ctx, t) == [block] && ToolItemsOf(ctx, ToolBlocks(ctx, tools)) == ToolItemsOf(ctx, content)
    ensures ToolItemsOf(ctx, ToolBlocks(ctx, tools + [t])) == ToolItemsOf(ctx, content + [block])
  {
    FlatMapOne((u: ToolAccum) => ToolBlock(ctx, u), tools, t);
    CollectAll(ctx, ToolBlocks(ctx, tools), block);
    CollectAll(ctx, content, block);
  }

  lemma {:induction false} BlockCollected(ctx: Context, s: State, content: seq<ContentBlock>, block: ContentBlock,
                                          deltas: seq<Delta>, whole: seq<ContentBlock>)
    requires Collected(ctx, s, content) && Cuts(ctx, block, deltas) && whole == content + [block]
    ensures Collected(ctx, Feed(ctx, s, BlockEvents(|whole| - 1, block, deltas)), whole)
  {
    var r := Feed(ctx, s, BlockEvents(|content|, block, deltas));
    match block
    case ToolUse(_, _, _) =>
      ToolFedAs(ctx, s, content, block, deltas);
      ToolBlockCollected(ctx, s, content, block, deltas, r);
    case Text(_) =>
      TextFedAs(ctx, s, |content|, block, deltas);
      TextBlockCollected(ctx, s, content, block, r);
    case OtherBlock =>
      TextFedAs(ctx, s, |content|, block, deltas);
      TextBlockCollected(ctx, s, content, block, r);
    case _ =>
      ReasoningFedAs(ctx, s, |content|, block, deltas);
      ReasoningBlockCollected(ctx, s, content, block, deltas, r);
  }

  /** How one block is fed, at its position. */
  type Feeder = (State, nat, ContentBlock, seq<Delta>) -> State

  function FeederOf(ctx: Context): Feeder {
    (s, n, block, deltas) => Feed(ctx, s, BlockEvents(n, block, deltas))
  }

  /** The state after all blocks, block by block. */
  function FoldContent(feed: Feeder, s: State, content: seq<ContentBlock>, cuts: seq<seq<Delta>>): State
    requires |content| == |cuts|
    decreases |content|
  {
    if content == [] then s
    else
      var n := |content| - 1;
      feed(FoldContent(feed, s, content[..n], cuts[..n]), n, content[n], cuts[n])
  }

  function FeedContent(ctx: Context, s: State, content: seq<ContentBlock>, cuts: seq<seq<Delta>>): State
    requires |content| == |cuts|
  {
    FoldContent(FeederOf(ctx), s, content, cuts)
  }

  lemma {:induction false} FeedContentIs(ctx: Context, s: State, content: seq<ContentBlock>, cuts: seq<seq<Delta>>)
    requires |content| == |cuts|
    ensures Feed(ctx, s, ContentEvents(content, cuts)) == FeedContent(ctx, s, content, cuts)
    decreases |content|
  {
    if content != [] {
      var n := |content| - 1;
      FeedContentIs(ctx, s, content[..n], cuts[..n]);
      FeedAppend(ctx, s, ContentEvents(content[..n], cuts[..n]), BlockEvents(n, content[n], cuts[n]));
    }
  }

  /** A property of states that every fitting block keeps holds after all of them. */
  lemma {:induction false} FoldKeeps(feed: Feeder, stage: (State, seq<ContentBlock>) -> bool,
                                     fits: (ContentBlock, seq<Delta>) -> bool, s: State, content: seq<ContentBlock>,
                                     cuts: seq<seq<Delta>>)
    requires stage(s, []) && |content| == |cuts| && forall i :: 0 <= i < |content| ==> fits(content[i], cuts[i])
    requires forall t, before, block, deltas {:trigger feed(t, |before|, block, deltas), before + [block]} ::
               stage(t, before) && fits(block, deltas) ==> stage(feed(t, |before|, block, deltas), before + [block])
    ensures stage(FoldContent(feed, s, content, cuts), content)
    decreases |content|
  {
    if content != [] {
      var n := |content| - 1;
      var front, block := content[..n], content[n];
      var t := FoldContent(feed, s, front, cuts[..n]);
      FoldKeeps(feed, stage, fits, s, front, cuts[..n]);
      assert fits(block, cuts[n]);
      assert stage(feed(t, |front|, block, cuts[n]), front + [block]);
      assert content == front + [block];
    }
  }

  ghost predicate AllCut(ctx: Context, content: seq<ContentBlock>, cuts: seq<seq<Delta>>) {
    |content| == |cuts| && forall i :: 0 <= i < |content| ==> Cuts(ctx, content[i], cuts[i])
  }

  lemma {:induction false} ContentCollected(ctx: Context, s: State, content: seq<ContentBlock>, cuts: seq<seq<Delta>>)
    requires Collected(ctx, s, []) && AllCut(ctx, content, cuts)
    ensures Collected(ctx, FeedContent(ctx, s, content, cuts), content)
  {
    var feed := FeederOf(ctx);
    var stage := (t, before) => Collected(ctx, t, before);
    var fits := (block, deltas) => Cuts(ctx, block, deltas);
    forall t, before, block, deltas | stage(t, before) && fits(block, deltas)
      ensures stage(feed(t, |before|, block, deltas), before + [block])
    {
      BlockCollected(ctx, t, before, block, deltas, before + [block]);
    }
    FoldKeeps(feed, stage, fits, s, content, cuts);
  }

  // ---- the final response ----

  /** Accumulated reasoning holds no text and no tool call. */
  lemma {:induction false} ReasoningIsOnlyReasoning(ctx: Context, blocks: ReasoningByBlock)
    ensures TextOf(ReasoningBlocks(blocks)) == "" && ToolItemsOf(ctx, ReasoningBlocks(blocks)) == []
  {
    if blocks != [] {
      var n := |blocks| - 1;
      ReasoningIsOnlyReasoning(ctx, blocks[..n]);
      var last := ReasoningBlock(blocks[n]);
      FlatMapAppend(TextPart, ReasoningBlocks(blocks[..n]), last);
      FlatMapAppend((b: ContentBlock) => ToolPart(ctx, b), ReasoningBlocks(blocks[..n]), last);
      if last != [] {
        assert last == [] + [last[0]];
        CollectAll(ctx, [], last[0]);
      }
    }
  }

  lemma {:induction false} ToolsAreOnlyTools(ctx: Context, tools: seq<ToolAccum>)
    ensures var blocks := ToolBlocks(ctx, tools);
            TextOf(blocks) == "" && ReasoningTextOf(blocks) == "" && ReplayableOf(blocks) == []
  {
    if tools != [] {
      var n := |tools| - 1;
      ToolsAreOnlyTools(ctx, tools[..n]);
      var last := ToolBlock(ctx, tools[n]);
      if last == [] {
        assert ToolBlocks(ctx, tools) == ToolBlocks(ctx, tools[..n]);
      } else {
        CollectAll(ctx, ToolBlocks(ctx, tools[..n]), last[0]);
        assert ToolBlocks(ctx, tools) == ToolBlocks(ctx, tools[..n]) + [last[0]];
      }
    }
  }

  /** Reading off the rebuilt output gives back each accumulator. */
  lemma {:induction false} RebuiltReads(ctx: Context, reasoning: seq<ContentBlock>, text: string,
                                        tools: seq<ContentBlock>)
    requires TextOf(reasoning) == "" && ToolItemsOf(ctx, reasoning) == []
    requires TextOf(tools) == "" && ReasoningTextOf(tools) == "" && ReplayableOf(tools) == []
    ensures var content := reasoning + (if text == "" then [] else [Text(text)]) + tools;
            && TextOf(content) == text
            && ToolItemsOf(ctx, content) == ToolItemsOf(ctx, tools)
            && ReasoningTextOf(content) == ReasoningTextOf(reasoning)
            && ReplayableOf(content) == ReplayableOf(reasoning)
  {
    var front := reasoning + (if text == "" then [] else [Text(text)]);
    if text == "" {
      assert front == reasoning;
    } else {
      CollectAll(ctx, reasoning, Text(text));
    }
    FlatMapAppend(TextPart, front, tools);
    FlatMapAppend((b: ContentBlock) => ToolPart(ctx, b), front, tools);
    FlatMapAppend(ReasoningPart, front, tools);
    FlatMapAppend(ReplayablePart, front, tools);
  }

  lemma {:induction false} NoUsageIsZeroUsage(lib: Library, usage: Option<BedrockUsage>, reasoning: string)
    ensures UsageOf(lib, Some(usage.GetOr(BedrockUsage(0, 0, None, None))), reasoning) == UsageOf(lib, usage, reasoning)
  {
  }

  /** Two outputs that read the same map to the same response. */
  lemma {:induction false} SameReadingsSameResponse(ctx: Context, a: ConverseOutput, b: ConverseOutput)
    requires a.content.Some? && b.content.Some? && a.stopReason == b.stopReason
    requires a.usage == Some(b.usage.GetOr(BedrockUsage(0, 0, None, None)))
    requires TextOf(a.content.value) == TextOf(b.content.value)
    requires ToolItemsOf(ctx, a.content.value) == ToolItemsOf(ctx, b.content.value)
    requires ReasoningTextOf(a.content.value) == ReasoningTextOf(b.content.value)
    requires ReplayableOf(a.content.value) == ReplayableOf(b.content.value)
    ensures MapOutput(ctx, a) == MapOutput(ctx, b)
  {
    NoUsageIsZeroUsage(ctx.lib, b.usage, ReasoningTextOf(b.content.value));
  }

  /** The accumulators, with these stop reason and usage, give the mapper's response. */
  lemma {:induction false} FinalResponseIs(ctx: Context, s: State, output: ConverseOutput)
    requires output.content.Some? && s.messageText == TextOf(output.content.value)
    requires ReasoningCollected(s, output.content.value)
    requires ToolItemsOf(ctx, ToolBlocks(ctx, s.tools)) == ToolItemsOf(ctx, output.content.value)
    requires s.stopReason == output.stopReason && s.stopReason.Some? && s.usage == output.usage
    ensures Ok(FinalResponse(ctx, s)) == MapOutput(ctx, output)
  {
    ReasoningIsOnlyReasoning(ctx, s.reasoningByBlock);
    ToolsAreOnlyTools(ctx, s.tools);
    RebuiltReads(ctx, ReasoningBlocks(s.reasoningByBlock), s.messageText, ToolBlocks(ctx, s.tools));
    SameReadingsSameResponse(ctx, Rebuilt(ctx, s), output);
  }

  /** Everything the upstream said is in the accumulators. */
  ghost predicate Told(ctx: Context, s: State, output: ConverseOutput) {
    && output.content.Some? && s.messageText == TextOf(output.content.value)
    && ReasoningCollected(s, output.content.value)
    && ToolItemsOf(ctx, ToolBlocks(ctx, s.tools)) == ToolItemsOf(ctx, output.content.value)
    && (forall i :: 0 <= i < |s.tools| ==> ToolValid(ctx, s.tools[i]))
    && s.stopReason == output.stopReason && s.stopReason.Some? && s.usage == output.usage && !s.finalized
  }

  lemma {:induction false} ConcludeAnswers(ctx: Context, s: State, output: ConverseOutput)
    requires Told(ctx, s, output)
    ensures FinalAnswer(Conclude(ctx, s).log).Some?
    ensures Ok(FinalAnswer(Conclude(ctx, s).log).value) == MapOutput(ctx, output)
  {
    FinalResponseIs(ctx, s, output);
  }

  lemma {:induction false} MarkingKeepsBlocks(ctx: Context, a: seq<ToolAccum>, b: seq<ToolAccum>)
    requires |a| == |b| && forall i :: 0 <= i < |a| ==> b[i] == a[i].(doneEmitted := true)
    ensures ToolBlocks(ctx, a) == ToolBlocks(ctx, b)
  {
    if a != [] {
      var n := |a| - 1;
      MarkingKeepsBlocks(ctx, a[..n], b[..n]);
    }
  }

  lemma {:induction false} MarkedIsTold(ctx: Context, c: State, f: State, output: ConverseOutput)
    requires Told(ctx, c, output) && MarkedFrom(c, f, 0)
    ensures Told(ctx, f, output)
  {
    MarkingKeepsBlocks(ctx, c.tools, f.tools);
    forall i | 0 <= i < |f.tools| ensures ToolValid(ctx, f.tools[i]) {
      assert ToolValid(ctx, c.tools[i]);
    }
  }

  lemma {:induction false} ValidIsReady(ctx: Context, tools: seq<ToolAccum>)
    requires forall i :: 0 <= i < |tools| ==> ToolValid(ctx, tools[i])
    ensures AllToolsReady(ctx, tools)
  {
  }

  lemma {:induction false} FinishAnswers(ctx: Context, s: State, output: ConverseOutput)
    requires Told(ctx, s, output)
    ensures FinalAnswer(Finish(ctx, s).log).Some?
    ensures Ok(FinalAnswer(Finish(ctx, s).log).value) == MapOutput(ctx, output)
  {
    var c := CloseItems(ctx, s);
    CloseItemsPieces(ctx, s);
    ValidIsReady(ctx, c.tools);
    if IsIncompleteStop(c) {
      ConcludeAnswers(ctx, c, output);
    } else {
      FinalizeToolsMark(ctx, c, 0);
      MarkedIsTold(ctx, c, FinalizeTools(ctx, c, 0), output);
      ConcludeAnswers(ctx, FinalizeTools(ctx, c, 0), output);
    }
  }

  lemma {:induction false} MessageStopEffect(ctx: Context, s: State, reason: string)
    requires !s.finalized
    ensures var r := MapEvent(ctx, s, MessageStop(reason));
            SamePieces(s.(stopReason := Some(reason)), r) && r.tools == s.tools
  {
    StartedPieces(ctx, s);
    CloseItemsPieces(ctx, EnsureStarted(ctx, s).(stopReason := Some(reason)));
  }

  lemma {:induction false} MetadataBody(ctx: Context, s: State, usage: Option<BedrockUsage>)
    ensures MapBody(ctx, s, Metadata(usage)) == if usage.None? then s else s.(usage := usage)
  {
  }

  lemma {:induction false} MetadataEffect(ctx: Context, s: State, usage: Option<BedrockUsage>)
    requires !s.finalized && s.usage.None?
    ensures var t := MapAndTally(ctx, s, Metadata(usage));
            SamePieces(s.(usage := usage), t) && t.tools == s.tools
  {
    StartedPieces(ctx, s);
    MetadataBody(ctx, EnsureStarted(ctx, s), usage);
  }

  lemma {:induction false} MetadataAnswers(ctx: Context, s: State, usage: Option<BedrockUsage>, output: ConverseOutput)
    requires Told(ctx, s, output.(usage := None)) && output.usage == usage
    ensures var answer := FinalAnswer(MapEvent(ctx, s, Metadata(usage)).log);
            answer.Some? && Ok(answer.value) == MapOutput(ctx, output)
  {
    MetadataEffect(ctx, s, usage);
    FinishAnswers(ctx, MapAndTally(ctx, s, Metadata(usage)), output);
  }

  /** The events of a whole output up to its stop, and what they leave in the accumulators. */
  function OutputEvents(content: seq<ContentBlock>, cuts: seq<seq<Delta>>, reason: string): seq<BedrockEvent>
    requires |content| == |cuts|
  {
    [MessageStart] + ContentEvents(content, cuts) + [MessageStop(reason)]
  }

  lemma {:induction false} MessageStartEffect(ctx: Context)
    ensures Collected(ctx, MapEvent(ctx, INITIAL, MessageStart), [])
  {
    InertEffect(ctx, INITIAL, MessageStart);
  }

  lemma {:induction false} FeedOutput(ctx: Context, content: seq<ContentBlock>, cuts: seq<seq<Delta>>,
                                      reason: string, m: State)
    requires |content| == |cuts|
    requires m == FeedContent(ctx, MapEvent(ctx, INITIAL, MessageStart), content, cuts) && !m.finalized
    ensures Feed(ctx, INITIAL, OutputEvents(content, cuts, reason)) == MapEvent(ctx, m, MessageStop(reason))
  {
    var start := [MessageStart];
    FeedAppend(ctx, INITIAL, start + ContentEvents(content, cuts), [MessageStop(reason)]);
    FeedAppend(ctx, INITIAL, start, ContentEvents(content, cuts));
    FeedOne(ctx, INITIAL, MessageStart);
    FeedContentIs(ctx, MapEvent(ctx, INITIAL, MessageStart), content, cuts);
    FeedOne(ctx, m, MessageStop(reason));
  }

  lemma {:induction false} OutputIsTold(ctx: Context, content: seq<ContentBlock>, cuts: seq<seq<Delta>>, reason: string)
    requires AllCut(ctx, content, cuts)
    ensures Told(ctx, Feed(ctx, INITIAL, OutputEvents(content, cuts, reason)),
                 ConverseOutput(Some(content), Some(reason), None))
  {
    var a := MapEvent(ctx, INITIAL, MessageStart);
    MessageStartEffect(ctx);
    var m := FeedContent(ctx, a, content, cuts);
    ContentCollected(ctx, a, content, cuts);
    FeedOutput(ctx, content, cuts, reason, m);
    MessageStopEffect(ctx, m, reason);
  }

  /** The events tell of an output: without those that are skipped they are its events, in any fragments. */
  ghost predicate TellsOutput(ctx: Context, events: seq<BedrockEvent>, content: seq<ContentBlock>,
                              cuts: seq<seq<Delta>>, reason: string, last: seq<BedrockEvent>)
  {
    AllCut(ctx, content, cuts) && Essential(events) == Essential(OutputEvents(content, cuts, reason) + last)
  }

  lemma {:induction false} OutputIsEssential(content: seq<ContentBlock>, cuts: seq<seq<Delta>>, reason: string,
                                             last: seq<BedrockEvent>)
    requires |content| == |cuts|
    ensures Essential(OutputEvents(content, cuts, reason) + last) != []
  {
    var stop := [MessageStop(reason)];
    EssentialAppend(OutputEvents(content, cuts, reason), last);
    EssentialAppend([MessageStart] + ContentEvents(content, cuts), stop);
    assert Essential(stop) == [MessageStop(reason)] + Essential(stop[1..]);
  }

  /**
   * Refinement: the terminal event of a stream that ends with `metadata` carries the response that the
   * non-streaming mapper gives on the whole output, whatever events without content stand anywhere in it.
   */
  lemma {:induction false} StreamingRefinesNonStreaming(ctx: Context, events: seq<BedrockEvent>,
                                                        content: seq<ContentBlock>, cuts: seq<seq<Delta>>,
                                                        reason: string, usage: Option<BedrockUsage>, ending: Ending)
    requires TellsOutput(ctx, events, content, cuts, reason, [Metadata(usage)])
    ensures var answer := FinalAnswer(Run(ctx, events, ending).log);
            answer.Some? && Ok(answer.value) == MapOutput(ctx, ConverseOutput(Some(content), Some(reason), usage))
  {
    var told := OutputEvents(content, cuts, reason);
    OutputIsTold(ctx, content, cuts, reason);
    MetadataAnswers(ctx, Feed(ctx, INITIAL, told), usage, ConverseOutput(Some(content), Some(reason), usage));
    RunOfMetadata(ctx, told, usage, ending);
    OutputIsEssential(content, cuts, reason, [Metadata(usage)]);
    EssentialIsEnough(ctx, events, told + [Metadata(usage)], ending);
  }

  /** A run whose last event is `metadata` is over, whatever the receiver does next. */
  lemma {:induction false} RunOfMetadata(ctx: Context, events: seq<BedrockEvent>, usage: Option<BedrockUsage>,
                                         ending: Ending)
    requires !Feed(ctx, INITIAL, events).finalized
    ensures Run(ctx, events + [Metadata(usage)], ending) == MapEvent(ctx, Feed(ctx, INITIAL, events), Metadata(usage))
  {
    var s := Feed(ctx, INITIAL, events);
    FeedAppend(ctx, INITIAL, events, [Metadata(usage)]);
    FeedOne(ctx, s, Metadata(usage));
    FeedKeeps(ctx, INITIAL, events);
    MapEventKeeps(ctx, s, Metadata(usage));
  }

  /** The same without `metadata`: the end of the stream finishes the response, and usage reads as zero. */
  lemma {:induction false} StreamingRefinesWithoutMetadata(ctx: Context, events: seq<BedrockEvent>,
                                                           content: seq<ContentBlock>, cuts: seq<seq<Delta>>,
                                                           reason: string)
    requires TellsOutput(ctx, events, content, cuts, reason, [])
    ensures var answer := FinalAnswer(Run(ctx, events, Eof).log);
            answer.Some? && Ok(answer.value) == MapOutput(ctx, ConverseOutput(Some(content), Some(reason), None))
  {
    var told := OutputEvents(content, cuts, reason);
    OutputIsTold(ctx, content, cuts, reason);
    FinishAnswers(ctx, Feed(ctx, INITIAL, told), ConverseOutput(Some(content), Some(reason), None));
    OutputIsEssential(content, cuts, reason, []);
    assert told + [] == told;
    EssentialIsEnough(ctx, events, told, Eof);
  }
}
