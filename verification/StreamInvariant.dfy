/**
 * What every step of the lifecycle machine keeps: the accumulated texts are the texts that were
 * sent, closing events are truthful, and every output index is where its item's protocol says.
 */
module StreamInvariant {
  import opened Prelude
  import opened Json
  import opened ResponsesSchema
  import opened ToolRegistry
  import opened ConverseMapper
  import opened Trace
  import opened StreamModel

  ghost predicate IsToolIndex(tools: seq<ToolAccum>, k: nat) {
    exists i :: 0 <= i < |tools| && tools[i].outputIndex == k
  }

  /** The phase a tool's output index is in. */
  function ToolPhase(ctx: Context, t: ToolAccum): Phase {
    if t.doneEmitted then Complete
    else match KindOf(ctx.registry, t.name)
      case Function => CallStreaming
      case Custom => CustomAdded
      case _ => Absent
  }

  ghost predicate ToolPlaced(ctx: Context, s: State, t: ToolAccum) {
    && t.outputIndex < s.nextIndex
    && PhaseOf(s.log, t.outputIndex) == ToolPhase(ctx, t)
    && (KindOf(ctx.registry, t.name) == Function ==> t.arguments == ArgumentsSent(s.log, t.outputIndex))
  }

  ghost predicate IsOpen(s: State, k: nat) {
    (s.messageOpen && k == s.messageIndex) || (s.reasoningOpen && k == s.reasoningIndex)
  }

  /** Every output index is untouched, open, a tool's, or complete. */
  ghost predicate Placed(ctx: Context, s: State) {
    && (forall k :: s.nextIndex <= k ==> PhaseOf(s.log, k) == Absent)
    && (forall k :: s.nextIndex <= k ==> ArgumentsSent(s.log, k) == "")
    && (s.messageOpen ==> s.messageIndex < s.nextIndex && PhaseOf(s.log, s.messageIndex) == MessageStreaming
                          && !IsToolIndex(s.tools, s.messageIndex))
    && (s.reasoningOpen ==> s.reasoningIndex < s.nextIndex && PhaseOf(s.log, s.reasoningIndex) == ReasoningStreaming
                            && !IsToolIndex(s.tools, s.reasoningIndex))
    && (forall i :: 0 <= i < |s.tools| ==> ToolPlaced(ctx, s, s.tools[i]))
    && (forall i, j :: 0 <= i < j < |s.tools| ==> s.tools[i].outputIndex < s.tools[j].outputIndex)
    && (forall k :: 0 <= k < s.nextIndex ==>
          IsOpen(s, k) || IsToolIndex(s.tools, k) || PhaseOf(s.log, k) == Complete)
  }

  /** The accumulated texts are what was sent, and the log is numbered and truthful. */
  ghost predicate Sound(s: State) {
    && Numbered(s.log) && s.nextSeq == s.log.Length()
    && Truthful(s.log)
    && s.messageText == TextSent(s.log)
    && s.reasoningText == ReasoningSent(s.log)
  }

  ghost predicate Unfinished(s: State) {
    && !s.finalized
    && NoTerminal(s.log)
  }

  ghost predicate NoneDone(s: State) {
    && CallsDone(s.log) == []
    && (forall i :: 0 <= i < |s.tools| ==> !s.tools[i].doneEmitted)
  }

  ghost predicate Inv(ctx: Context, s: State) {
    Sound(s) && Placed(ctx, s) && Unfinished(s) && NoneDone(s)
  }

  /** The part of the invariant that does not look at output indices. */
  ghost predicate Steady(s: State) {
    Sound(s) && Unfinished(s) && NoneDone(s)
  }

  /** Other than `k`, no output index is in a different place. */
  ghost predicate OnlyMoves(s: State, r: State, k: nat) {
    && (forall j: nat :: j != k ==> PhaseOf(r.log, j) == PhaseOf(s.log, j))
    && (forall j: nat :: ArgumentsSent(r.log, j) == ArgumentsSent(s.log, j))
  }

  lemma {:induction false} StartedKeeps(ctx: Context, s: State)
    requires Inv(ctx, s)
    ensures Inv(ctx, EnsureStarted(ctx, s))
  {
    if !s.started {
      var o := s.(started := true);
      Emitted(o, Created(Skeleton(ctx)));
      Emitted(Emit(o, Created(Skeleton(ctx))), InProgress(Skeleton(ctx)));
    }
  }

  lemma {:induction false} EnsureReasoningKeeps(ctx: Context, s: State)
    requires Inv(ctx, s)
    ensures Inv(ctx, EnsureReasoning(ctx, s)) && EnsureReasoning(ctx, s).reasoningOpen
  {
    if !s.reasoningOpen {
      var id := ReasoningId(ctx.responseId);
      var o := s.(reasoningOpen := true, reasoningIndex := s.nextIndex, nextIndex := s.nextIndex + 1);
      var added := OutputItemAdded(Reasoning(id, None, Some(Array([])), None), o.reasoningIndex);
      Emitted(o, added);
      Emitted(Emit(o, added), SummaryPartAdded(id, o.reasoningIndex));
    }
  }

  lemma {:induction false} EnsureMessageKeeps(ctx: Context, s: State)
    requires Inv(ctx, s)
    ensures Inv(ctx, EnsureMessage(ctx, s)) && EnsureMessage(ctx, s).messageOpen
  {
    if !s.messageOpen {
      var id := MessageId(ctx.responseId);
      var o := s.(messageOpen := true, messageIndex := s.nextIndex, nextIndex := s.nextIndex + 1);
      var added := OutputItemAdded(Message(id, "in_progress", []), o.messageIndex);
      Emitted(o, added);
      Emitted(Emit(o, added), ContentPartAdded(id, o.messageIndex, OutputText("")));
    }
  }

  /** Closing an open item completes its index and moves no other. */
  lemma {:induction false} Closed(ctx: Context, s: State, r: State, k: nat)
    requires Placed(ctx, s) && IsOpen(s, k)
    requires OnlyMoves(s, r, k) && PhaseOf(r.log, k) == Complete
    requires r.tools == s.tools && r.nextIndex == s.nextIndex
    requires r.messageOpen ==> s.messageOpen && r.messageIndex == s.messageIndex != k
    requires r.reasoningOpen ==> s.reasoningOpen && r.reasoningIndex == s.reasoningIndex != k
    requires forall j :: IsOpen(s, j) && j != k ==> IsOpen(r, j)
    ensures Placed(ctx, r)
  {
  }

  lemma {:induction false} FinishReasoningTextMoves(ctx: Context, s: State)
    requires Steady(s) && PhaseOf(s.log, s.reasoningIndex) == ReasoningStreaming
    ensures var r := FinishReasoningText(ctx, s);
            Steady(r) && OnlyMoves(s, r, s.reasoningIndex)
            && PhaseOf(r.log, s.reasoningIndex) in {ReasoningStreaming, ReasoningSummaryClosed}
  {
    var done := ReasoningTextDone(ReasoningId(ctx.responseId), s.reasoningIndex, s.reasoningText);
    Emitted(s, done);
    Emitted(Emit(s, done), SummaryTextDone(ReasoningId(ctx.responseId), s.reasoningIndex, s.reasoningText));
  }

  lemma {:induction false} ReasoningDoneMoves(s: State, k: nat, id: string, item: OutputItem)
    requires Steady(s) && PhaseOf(s.log, k) in {ReasoningStreaming, ReasoningSummaryClosed}
    requires item.Reasoning? && item.summary == Some(SummaryOf(s.reasoningText))
    ensures var r := Emit(Emit(s, SummaryPartDone(id, k)), OutputItemDone(item, k));
            Steady(r) && OnlyMoves(s, r, k) && PhaseOf(r.log, k) == Complete
  {
    Emitted(s, SummaryPartDone(id, k));
    Emitted(Emit(s, SummaryPartDone(id, k)), OutputItemDone(item, k));
  }

  lemma {:induction false} FinishReasoningItemMoves(ctx: Context, s: State)
    requires Steady(s) && PhaseOf(s.log, s.reasoningIndex) in {ReasoningStreaming, ReasoningSummaryClosed}
    ensures var r := FinishReasoningItem(ctx, s);
            Steady(r) && OnlyMoves(s, r, s.reasoningIndex) && PhaseOf(r.log, s.reasoningIndex) == Complete
  {
    ReasoningDoneMoves(s, s.reasoningIndex, ReasoningId(ctx.responseId), FinishedReasoning(ctx, s));
  }

  lemma {:induction false} CloseReasoningMoves(ctx: Context, s: State)
    requires Steady(s) && Placed(ctx, s) && s.reasoningOpen
    ensures var r := CloseReasoning(ctx, s);
            Steady(r) && OnlyMoves(s, r, s.reasoningIndex) && PhaseOf(r.log, s.reasoningIndex) == Complete
  {
    var c := s.(reasoningOpen := false);
    FinishReasoningTextMoves(ctx, c);
    FinishReasoningItemMoves(ctx, FinishReasoningText(ctx, c));
  }

  lemma {:induction false} CloseReasoningKeeps(ctx: Context, s: State)
    requires Inv(ctx, s)
    ensures Inv(ctx, CloseReasoning(ctx, s)) && !CloseReasoning(ctx, s).reasoningOpen
  {
    if s.reasoningOpen {
      CloseReasoningMoves(ctx, s);
      Closed(ctx, s, CloseReasoning(ctx, s), s.reasoningIndex);
    }
  }

  lemma {:induction false} CloseMessageMoves(ctx: Context, s: State)
    requires Steady(s) && Placed(ctx, s) && s.messageOpen
    ensures var r := CloseMessage(ctx, s);
            Steady(r) && OnlyMoves(s, r, s.messageIndex) && PhaseOf(r.log, s.messageIndex) == Complete
  {
    var id := MessageId(ctx.responseId);
    var k := s.messageIndex;
    var part := OutputText(s.messageText);
    var c := Emit(s.(messageOpen := false), OutputTextDone(id, k, s.messageText));
    Emitted(s.(messageOpen := false), OutputTextDone(id, k, s.messageText));
    Emitted(c, ContentPartDone(id, k, part));
    Emitted(Emit(c, ContentPartDone(id, k, part)), OutputItemDone(Message(id, "completed", [part]), k));
  }

  lemma {:induction false} CloseMessageKeeps(ctx: Context, s: State)
    requires Inv(ctx, s)
    ensures Inv(ctx, CloseMessage(ctx, s)) && !CloseMessage(ctx, s).messageOpen
  {
    if s.messageOpen {
      CloseMessageMoves(ctx, s);
      Closed(ctx, s, CloseMessage(ctx, s), s.messageIndex);
    }
  }

  lemma {:induction false} CloseItemsKeeps(ctx: Context, s: State)
    requires Inv(ctx, s)
    ensures var r := CloseItems(ctx, s);
            Inv(ctx, r) && !r.messageOpen && !r.reasoningOpen && r.tools == s.tools && r.stopReason == s.stopReason
  {
    CloseMessageKeeps(ctx, s);
    CloseReasoningKeeps(ctx, CloseMessage(ctx, s));
  }

  // ---- tools ----

  /** The item shown for a tool: its kind decides the constructor. */
  lemma {:induction false} ToolItemIs(ctx: Context, t: ToolAccum, status: Option<string>)
    ensures var item := ToolItem(ctx, t, status);
            match KindOf(ctx.registry, t.name)
            case Function => item.FunctionCall? && item.arguments == NormalizedArguments(t)
            case Custom => item.Other? && item.itemType == "custom_tool_call" && !IsLateType(item.itemType)
            case _ => item.Other? && IsLateType(item.itemType)
  {
    var kind := KindOf(ctx.registry, t.name);
    var shown := if status.None? && (kind == Shell || kind == ApplyPatch) then Some("in_progress") else status;
    ToolItemShape(ctx.registry, t.callId, t.name, ParsedInput(ctx, t), NormalizedArguments(t), shown);
    CustomIsNotLate();
  }

  /** What a step on tools leaves alone. */
  ghost predicate SameItems(s: State, r: State) {
    && r.messageOpen == s.messageOpen && r.messageIndex == s.messageIndex
    && r.reasoningOpen == s.reasoningOpen && r.reasoningIndex == s.reasoningIndex
  }

  /** A new tool takes the next index. */
  lemma {:induction false} ToolAdded(ctx: Context, s: State, r: State, t: ToolAccum)
    requires Placed(ctx, s) && SameItems(s, r)
    requires t.outputIndex == s.nextIndex && r.tools == s.tools + [t] && r.nextIndex == s.nextIndex + 1
    requires OnlyMoves(s, r, s.nextIndex) && ToolPlaced(ctx, r, t)
    ensures Placed(ctx, r)
  {
    forall k: nat ensures IsToolIndex(r.tools, k) <==> IsToolIndex(s.tools, k) || k == s.nextIndex {
      assert r.tools[|s.tools|] == t;
      assert forall i :: 0 <= i < |s.tools| ==> r.tools[i] == s.tools[i];
    }
    forall i | 0 <= i < |r.tools| ensures ToolPlaced(ctx, r, r.tools[i]) {
      assert i < |s.tools| ==> ToolPlaced(ctx, s, s.tools[i]);
    }
  }

  /** A tool that changes in place keeps its index, and no other index moves. */
  lemma {:induction false} ToolUpdated(ctx: Context, s: State, r: State, p: nat)
    requires Placed(ctx, s) && SameItems(s, r) && r.nextIndex == s.nextIndex
    requires p < |s.tools| == |r.tools| && r.tools == s.tools[p := r.tools[p]]
    requires r.tools[p].outputIndex == s.tools[p].outputIndex && ToolPlaced(ctx, r, r.tools[p])
    requires forall j: nat :: j != s.tools[p].outputIndex ==>
               PhaseOf(r.log, j) == PhaseOf(s.log, j) && ArgumentsSent(r.log, j) == ArgumentsSent(s.log, j)
    ensures Placed(ctx, r)
  {
    assert forall i :: 0 <= i < |s.tools| ==> r.tools[i].outputIndex == s.tools[i].outputIndex;
    forall k: nat ensures IsToolIndex(r.tools, k) <==> IsToolIndex(s.tools, k) {
    }
    forall i | 0 <= i < |r.tools| ensures ToolPlaced(ctx, r, r.tools[i]) {
      assert ToolPlaced(ctx, s, s.tools[i]);
    }
    assert IsToolIndex(s.tools, s.tools[p].outputIndex);
  }

  /** A tool is announced at an untouched index, unless its kind is late. */
  lemma {:induction false} ToolShown(ctx: Context, s: State, t: ToolAccum, r: State)
    requires Steady(s) && PhaseOf(s.log, t.outputIndex) == Absent && !t.doneEmitted
    requires r == if IsLate(KindOf(ctx.registry, t.name)) then s
                  else Emit(s, OutputItemAdded(ToolItem(ctx, t, None), t.outputIndex))
    ensures Steady(r) && OnlyMoves(s, r, t.outputIndex) && PhaseOf(r.log, t.outputIndex) == ToolPhase(ctx, t)
  {
    ToolItemIs(ctx, t, None);
    Emitted(s, OutputItemAdded(ToolItem(ctx, t, None), t.outputIndex));
  }

  lemma {:induction false} ToolStarted(ctx: Context, s: State, a: State, t: ToolAccum)
    requires Inv(ctx, s) && t == t.(outputIndex := s.nextIndex, arguments := "", doneEmitted := false)
    requires Steady(a) && OnlyMoves(s, a, s.nextIndex) && PhaseOf(a.log, s.nextIndex) == ToolPhase(ctx, t)
    requires SameItems(s, a) && a.tools == s.tools && a.nextIndex == s.nextIndex + 1
    ensures Inv(ctx, a.(tools := a.tools + [t]))
  {
    ToolAdded(ctx, s, a.(tools := a.tools + [t]), t);
  }

  /** The state in between, with the next index taken and the tool shown. */
  function Shown(ctx: Context, s: State, t: ToolAccum): State {
    var n := s.(nextIndex := s.nextIndex + 1);
    if IsLate(KindOf(ctx.registry, t.name)) then n
    else Emit(n, OutputItemAdded(ToolItem(ctx, t, None), t.outputIndex))
  }

  lemma {:induction false} ShownKeeps(ctx: Context, s: State, t: ToolAccum, a: State)
    requires Inv(ctx, s) && t == t.(outputIndex := s.nextIndex, arguments := "", doneEmitted := false)
    requires a == Shown(ctx, s, t)
    ensures Inv(ctx, a.(tools := a.tools + [t]))
  {
    ToolShown(ctx, s.(nextIndex := s.nextIndex + 1), t, a);
    ToolStarted(ctx, s, a, t);
  }

  lemma {:induction false} StartToolIs(ctx: Context, s: State, block: int, start: ToolStart)
    returns (t: ToolAccum, a: State)
    ensures t == ToolAccum(block, start.toolUseId, start.toolName, "", s.nextIndex, false, false)
    ensures a == Shown(ctx, s, t) && StartTool(ctx, s, block, start) == a.(tools := a.tools + [t])
  {
    t := ToolAccum(block, start.toolUseId, start.toolName, "", s.nextIndex, false, false);
    a := Shown(ctx, s, t);
  }

  lemma {:induction false} StartToolKeeps(ctx: Context, s: State, block: int, start: ToolStart)
    requires Inv(ctx, s)
    ensures Inv(ctx, StartTool(ctx, s, block, start))
  {
    var t, a := StartToolIs(ctx, s, block, start);
    ShownKeeps(ctx, s, t, a);
  }

  lemma {:induction false} AppendArgumentsKeeps(ctx: Context, s: State, block: int, fragment: string)
    requires Inv(ctx, s)
    ensures Inv(ctx, AppendArguments(ctx, s, block, fragment))
  {
    var p := ToolPosition(s.tools, block);
    if p.Some? {
      var t := s.tools[p.value].(arguments := s.tools[p.value].arguments + fragment);
      assert ToolPlaced(ctx, s, s.tools[p.value]);
      Emitted(s.(tools := s.tools[p.value := t]), ArgumentsDelta("fc_" + t.callId, t.outputIndex, fragment));
      ToolUpdated(ctx, s, AppendArguments(ctx, s, block, fragment), p.value);
    }
  }

  lemma {:induction false} CloseToolBlockKeeps(ctx: Context, s: State, block: int)
    requires Inv(ctx, s)
    ensures Inv(ctx, CloseToolBlock(s, block))
  {
    var p := ToolPosition(s.tools, block);
    if p.Some? {
      assert ToolPlaced(ctx, s, s.tools[p.value]);
      ToolUpdated(ctx, s, CloseToolBlock(s, block), p.value);
    }
  }

  // ---- one upstream event ----

  lemma {:induction false} TextKeeps(ctx: Context, s: State, text: string)
    requires Inv(ctx, s) && s.messageOpen
    ensures Inv(ctx, SendText(ctx, s, text))
  {
    Emitted(s.(messageText := s.messageText + text),
            OutputTextDelta(MessageId(ctx.responseId), s.messageIndex, text));
  }

  /** No output index is in a different place. */
  lemma {:induction false} StillPlaced(ctx: Context, s: State, r: State)
    requires Placed(ctx, s) && SameItems(s, r) && r.tools == s.tools && r.nextIndex == s.nextIndex
    requires forall k: nat ::
               PhaseOf(r.log, k) == PhaseOf(s.log, k) && ArgumentsSent(r.log, k) == ArgumentsSent(s.log, k)
    ensures Placed(ctx, r)
  {
    forall i | 0 <= i < |r.tools| ensures ToolPlaced(ctx, r, r.tools[i]) {
      assert ToolPlaced(ctx, s, s.tools[i]);
    }
  }

  /** A piece of reasoning and its echo leave the item where it is. */
  lemma {:induction false} PieceSent(s: State, u: State, id: string, text: string)
    requires Steady(s) && u == s.(reasoningText := s.reasoningText + text, reasoningByBlock := u.reasoningByBlock)
    requires PhaseOf(s.log, s.reasoningIndex) == ReasoningStreaming
    ensures var r := Emit(Emit(u, ReasoningTextDelta(id, s.reasoningIndex, text)),
                          SummaryTextDelta(id, s.reasoningIndex, text));
            Steady(r) && forall k: nat :: PhaseOf(r.log, k) == PhaseOf(s.log, k)
                                          && ArgumentsSent(r.log, k) == ArgumentsSent(s.log, k)
  {
    Emitted(u, ReasoningTextDelta(id, s.reasoningIndex, text));
    Emitted(Emit(u, ReasoningTextDelta(id, s.reasoningIndex, text)), SummaryTextDelta(id, s.reasoningIndex, text));
  }

  lemma {:induction false} ReasoningKeeps(ctx: Context, s: State, block: int, text: string)
    requires Inv(ctx, s) && s.reasoningOpen
    ensures Inv(ctx, SendReasoning(ctx, s, block, text))
  {
    var u := s.(reasoningText := s.reasoningText + text,
                reasoningByBlock := Touch(s.reasoningByBlock, block, AddText(text)));
    PieceSent(s, u, ReasoningId(ctx.responseId), text);
    StillPlaced(ctx, s, SendReasoning(ctx, s, block, text));
  }

  lemma {:induction false} TouchKeeps(ctx: Context, s: State, block: int, update: ReasoningAccum -> ReasoningAccum)
    requires Inv(ctx, s)
    ensures var o := EnsureReasoning(ctx, s);
            Inv(ctx, o.(reasoningByBlock := Touch(o.reasoningByBlock, block, update)))
  {
    EnsureReasoningKeeps(ctx, s);
    var o := EnsureReasoning(ctx, s);
    ReportsDoNotMatter(ctx, o, Touch(o.reasoningByBlock, block, update), o.stopReason, o.usage);
  }

  /** What is only kept for the final response has no part in the invariant. */
  lemma {:induction false} ReportsDoNotMatter(ctx: Context, s: State, blocks: ReasoningByBlock,
                                              stopReason: Option<string>, usage: Option<BedrockUsage>)
    requires Inv(ctx, s)
    ensures Inv(ctx, s.(reasoningByBlock := blocks, stopReason := stopReason, usage := usage))
  {
  }

  lemma {:induction false} TextDeltaKeeps(ctx: Context, s: State, text: string)
    requires Inv(ctx, s)
    ensures Inv(ctx, SendText(ctx, EnsureMessage(ctx, CloseReasoning(ctx, s)), text))
  {
    var c := CloseReasoning(ctx, s);
    CloseReasoningKeeps(ctx, s);
    EnsureMessageKeeps(ctx, c);
    TextKeeps(ctx, EnsureMessage(ctx, c), text);
  }

  lemma {:induction false} MapDeltaKeeps(ctx: Context, s: State, block: int, delta: Delta)
    requires Inv(ctx, s)
    ensures Inv(ctx, MapDelta(ctx, s, block, delta))
  {
    match delta
    case TextDelta(text) =>
      TextDeltaKeeps(ctx, s, text);
    case ReasoningDelta(text) =>
      EnsureReasoningKeeps(ctx, s);
      ReasoningKeeps(ctx, EnsureReasoning(ctx, s), block, text);
    case SignatureDelta(signature) => TouchKeeps(ctx, s, block, AddSignature(signature));
    case RedactedDelta(redacted) => TouchKeeps(ctx, s, block, AddRedacted(redacted));
    case ToolInputDelta(fragment) => AppendArgumentsKeeps(ctx, s, block, fragment);
    case OtherDelta =>
  }
}
