/** The message and the reasoning item that a run declares done last are those of its terminal response. */
module StreamLastItems {
  import opened Prelude
  import opened Json
  import opened ResponsesSchema
  import opened ConverseMapper
  import Report = ConverseReport
  import opened Trace
  import opened StreamModel
  import opened StreamInvariant
  import opened StreamRuns
  import opened StreamVerdict
  import opened StreamRefinement
  import opened StreamTelling
  import opened StreamAnswers

  // ---- the message and the reasoning that were declared done last ----

  function LastMessage(log: Log): (r: Option<OutputItem>)
    ensures r.Some? ==> r.value.Message?
  {
    if log.Empty? then None
    else if log.last.body.OutputItemDone? && log.last.body.item.Message? then Some(log.last.body.item)
    else LastMessage(log.before)
  }

  function LastReasoning(log: Log): (r: Option<OutputItem>)
    ensures r.Some? ==> r.value.Reasoning?
  {
    if log.Empty? then None
    else if log.last.body.OutputItemDone? && log.last.body.item.Reasoning? then Some(log.last.body.item)
    else LastReasoning(log.before)
  }

  /** Unless one is open, the last message holds all the text so far; without any message there is no text. */
  predicate MessageIsCurrent(ctx: Context, s: State) {
    !s.messageOpen ==>
      match LastMessage(s.log)
      case None => s.messageText == ""
      case Some(item) => item == Message("msg_" + BareId(ctx.responseId), "completed", [OutputText(s.messageText)])
  }

  /** And the last reasoning item all the reasoning, sealed where upstream signed or redacted it. */
  predicate ReasoningIsCurrent(ctx: Context, s: State) {
    !s.reasoningOpen ==>
      match LastReasoning(s.log)
      case None => s.reasoningText == "" && s.reasoningByBlock == []
      case Some(item) =>
        var sealed := Report.Sealed(ReasoningBlocks(s.reasoningByBlock));
        item == Reasoning("rs_" + BareId(ctx.responseId), None, Some(SummaryOf(s.reasoningText)),
                          if sealed == [] then None else Some(ctx.lib.seal(sealed)))
  }

  predicate Current(ctx: Context, s: State) { MessageIsCurrent(ctx, s) && ReasoningIsCurrent(ctx, s) }

  /** A step that leaves the message, the reasoning and their last items alone. */
  predicate Aside(s: State, r: State) {
    && r.messageOpen == s.messageOpen && r.reasoningOpen == s.reasoningOpen
    && r.messageText == s.messageText && r.reasoningText == s.reasoningText
    && r.reasoningByBlock == s.reasoningByBlock
    && LastMessage(r.log) == LastMessage(s.log) && LastReasoning(r.log) == LastReasoning(s.log)
  }

  predicate IsAside(body: EventBody) { body.OutputItemDone? ==> IsCallDone(body) }

  lemma {:induction false} EmitAside(s: State, body: EventBody)
    requires IsAside(body)
    ensures Aside(s, Emit(s, body))
  {
  }

  lemma {:induction false} AsideStays(ctx: Context, s: State, r: State)
    requires Current(ctx, s) && Aside(s, r)
    ensures Current(ctx, r)
  {
  }

  lemma {:induction false} TwoAside(s: State, a: EventBody, b: EventBody)
    requires IsAside(a) && IsAside(b)
    ensures Aside(s, Emit(Emit(s, a), b))
  {
    EmitAside(s, a);
    EmitAside(Emit(s, a), b);
  }

  lemma {:induction false} StartedAside(ctx: Context, s: State)
    ensures Aside(s, EnsureStarted(ctx, s))
  {
    TwoAside(s.(started := true), Created(Skeleton(ctx)), InProgress(Skeleton(ctx)));
  }

  lemma {:induction false} MessageOpensCurrent(ctx: Context, s: State)
    requires Current(ctx, s)
    ensures Current(ctx, EnsureMessage(ctx, s)) && EnsureMessage(ctx, s).messageOpen
  {
    if !s.messageOpen {
      var id := MessageId(ctx.responseId);
      var o := s.(messageOpen := true, messageIndex := s.nextIndex, nextIndex := s.nextIndex + 1);
      TwoAside(o, OutputItemAdded(Message(id, "in_progress", []), o.messageIndex),
               ContentPartAdded(id, o.messageIndex, OutputText("")));
      AsideStays(ctx, o, EnsureMessage(ctx, s));
    }
  }

  lemma {:induction false} ReasoningOpensCurrent(ctx: Context, s: State)
    requires Current(ctx, s)
    ensures Current(ctx, EnsureReasoning(ctx, s)) && EnsureReasoning(ctx, s).reasoningOpen
  {
    if !s.reasoningOpen {
      var id := ReasoningId(ctx.responseId);
      var o := s.(reasoningOpen := true, reasoningIndex := s.nextIndex, nextIndex := s.nextIndex + 1);
      TwoAside(o, OutputItemAdded(Reasoning(id, None, Some(Array([])), None), o.reasoningIndex),
               SummaryPartAdded(id, o.reasoningIndex));
      AsideStays(ctx, o, EnsureReasoning(ctx, s));
    }
  }

  lemma {:induction false} CloseMessageCurrent(ctx: Context, s: State)
    requires Current(ctx, s)
    ensures var r := CloseMessage(ctx, s); Current(ctx, r) && !r.messageOpen
  {
    if s.messageOpen {
      var id, k, part := MessageId(ctx.responseId), s.messageIndex, OutputText(s.messageText);
      var c := s.(messageOpen := false);
      var a := Emit(Emit(c, OutputTextDone(id, k, s.messageText)), ContentPartDone(id, k, part));
      TwoAside(c, OutputTextDone(id, k, s.messageText), ContentPartDone(id, k, part));
      MessageDoneCurrent(ctx, s, a, k);
    }
  }

  lemma {:induction false} MessageDoneCurrent(ctx: Context, s: State, a: State, k: nat)
    requires ReasoningIsCurrent(ctx, s) && Aside(s.(messageOpen := false), a)
    ensures Current(ctx, Emit(a, OutputItemDone(Message(MessageId(ctx.responseId), "completed",
                                                        [OutputText(s.messageText)]), k)))
  {
  }

  lemma {:induction false} FinishedIsSealed(ctx: Context, s: State)
    ensures var sealed := Report.Sealed(ReasoningBlocks(s.reasoningByBlock));
            FinishedReasoning(ctx, s)
            == Reasoning("rs_" + BareId(ctx.responseId), None, Some(SummaryOf(s.reasoningText)),
                         if sealed == [] then None else Some(ctx.lib.seal(sealed)))
  {
    Report.SealedAre(ReasoningBlocks(s.reasoningByBlock));
  }

  lemma {:induction false} FinishTextAside(ctx: Context, s: State)
    ensures Aside(s, FinishReasoningText(ctx, s))
  {
    var id, k := ReasoningId(ctx.responseId), s.reasoningIndex;
    TwoAside(s, ReasoningTextDone(id, k, s.reasoningText), SummaryTextDone(id, k, s.reasoningText));
  }

  lemma {:induction false} CloseReasoningCurrent(ctx: Context, s: State)
    requires Current(ctx, s)
    ensures var r := CloseReasoning(ctx, s); Current(ctx, r) && !r.reasoningOpen && r.messageOpen == s.messageOpen
  {
    if s.reasoningOpen {
      var t := FinishReasoningText(ctx, s.(reasoningOpen := false));
      FinishTextAside(ctx, s.(reasoningOpen := false));
      FinishedIsSealed(ctx, t);
      ItemCurrent(ctx, t);
    }
  }

  lemma {:induction false} ItemCurrent(ctx: Context, s: State)
    requires MessageIsCurrent(ctx, s)
    requires var sealed := Report.Sealed(ReasoningBlocks(s.reasoningByBlock));
             FinishedReasoning(ctx, s)
             == Reasoning("rs_" + BareId(ctx.responseId), None, Some(SummaryOf(s.reasoningText)),
                          if sealed == [] then None else Some(ctx.lib.seal(sealed)))
    ensures Current(ctx, FinishReasoningItem(ctx, s))
  {
    var part := SummaryPartDone(ReasoningId(ctx.responseId), s.reasoningIndex);
    EmitAside(s, part);
  }

  lemma {:induction false} CloseItemsCurrent(ctx: Context, s: State)
    requires Current(ctx, s)
    ensures var r := CloseItems(ctx, s); Current(ctx, r) && !r.reasoningOpen && !r.messageOpen
  {
    CloseMessageCurrent(ctx, s);
    CloseReasoningCurrent(ctx, CloseMessage(ctx, s));
  }

  lemma {:induction false} TextCurrent(ctx: Context, s: State, text: string)
    requires Current(ctx, s) && s.messageOpen
    ensures Current(ctx, SendText(ctx, s, text))
  {
    var u := s.(messageText := s.messageText + text);
    EmitAside(u, OutputTextDelta(MessageId(ctx.responseId), s.messageIndex, text));
  }

  lemma {:induction false} ReasoningCurrent(ctx: Context, s: State, block: int, text: string)
    requires Current(ctx, s) && s.reasoningOpen
    ensures Current(ctx, SendReasoning(ctx, s, block, text))
  {
    var id, k := ReasoningId(ctx.responseId), s.reasoningIndex;
    var u := s.(reasoningText := s.reasoningText + text,
                reasoningByBlock := Touch(s.reasoningByBlock, block, AddText(text)));
    TwoAside(u, ReasoningTextDelta(id, k, text), SummaryTextDelta(id, k, text));
  }

  lemma {:induction false} TouchCurrent(ctx: Context, s: State, blocks: ReasoningByBlock)
    requires Current(ctx, s) && s.reasoningOpen
    ensures Current(ctx, s.(reasoningByBlock := blocks))
  {
  }

  lemma {:induction false} DeltaCurrent(ctx: Context, s: State, block: int, delta: Delta)
    requires Current(ctx, s)
    ensures Current(ctx, MapDelta(ctx, s, block, delta))
  {
    match delta
    case TextDelta(text) =>
      var c := CloseReasoning(ctx, s);
      CloseReasoningCurrent(ctx, s);
      MessageOpensCurrent(ctx, c);
      TextCurrent(ctx, EnsureMessage(ctx, c), text);
    case ReasoningDelta(text) =>
      ReasoningOpensCurrent(ctx, s);
      ReasoningCurrent(ctx, EnsureReasoning(ctx, s), block, text);
    case SignatureDelta(signature) =>
      ReasoningOpensCurrent(ctx, s);
      var o := EnsureReasoning(ctx, s);
      TouchCurrent(ctx, o, Touch(o.reasoningByBlock, block, AddSignature(signature)));
    case RedactedDelta(redacted) =>
      ReasoningOpensCurrent(ctx, s);
      var o := EnsureReasoning(ctx, s);
      TouchCurrent(ctx, o, Touch(o.reasoningByBlock, block, AddRedacted(redacted)));
    case ToolInputDelta(fragment) =>
      InputAside(ctx, s, block, fragment);
      AsideStays(ctx, s, AppendArguments(ctx, s, block, fragment));
    case OtherDelta =>
  }

  lemma {:induction false} InputAside(ctx: Context, s: State, block: int, fragment: string)
    ensures Aside(s, AppendArguments(ctx, s, block, fragment))
  {
  }

  lemma {:induction false} StartAside(ctx: Context, s: State, block: int, start: ToolStart)
    ensures Aside(s, StartTool(ctx, s, block, start))
  {
  }

  lemma {:induction false} BlockStopAside(s: State, block: int)
    ensures Aside(s, CloseToolBlock(s, block))
  {
  }

  lemma {:induction false} BodyCurrent(ctx: Context, s: State, event: BedrockEvent)
    requires Current(ctx, s)
    ensures Current(ctx, MapBody(ctx, s, event))
  {
    match event
    case BlockStart(block, tool) =>
      if tool.Some? {
        var c := CloseItems(ctx, s);
        CloseItemsCurrent(ctx, s);
        StartAside(ctx, c, block, tool.value);
        AsideStays(ctx, c, StartTool(ctx, c, block, tool.value));
      }
    case BlockDelta(block, delta) =>
      if delta.Some? {
        DeltaCurrent(ctx, s, block, delta.value);
      }
    case BlockStop(block) =>
      BlockStopAside(s, block);
      AsideStays(ctx, s, CloseToolBlock(s, block));
    case MessageStop(reason) => CloseItemsCurrent(ctx, s.(stopReason := Some(reason)));
    case _ =>
  }

  lemma {:induction false} EventCurrent(ctx: Context, s: State, event: BedrockEvent)
    requires Current(ctx, s)
    ensures Current(ctx, MapAndTally(ctx, s, event))
  {
    var o := EnsureStarted(ctx, s);
    StartedAside(ctx, s);
    AsideStays(ctx, s, o);
    BodyCurrent(ctx, o, event);
  }

  lemma {:induction false} ToolDoneAside(ctx: Context, s: State, t: ToolAccum)
    ensures Aside(s, EmitToolDone(ctx, s, t))
  {
    ToolItemIs(ctx, t, Some("completed"));
    ClosingAnnounces(ctx, t);
    var c := Emit(s, ToolClosing(ctx, t));
    EmitAside(s, ToolClosing(ctx, t));
    EmitAside(c, OutputItemDone(ToolItem(ctx, t, Some("completed")), t.outputIndex));
  }

  lemma {:induction false} FinalizeToolsAside(ctx: Context, s: State, pos: nat)
    ensures Aside(s, FinalizeTools(ctx, s, pos))
    decreases |s.tools| - pos
  {
    if pos < |s.tools| {
      if s.tools[pos].doneEmitted {
        FinalizeToolsAside(ctx, s, pos + 1);
      } else {
        var t := s.tools[pos].(doneEmitted := true);
        ToolDoneAside(ctx, s.(tools := s.tools[pos := t]), t);
        FinalizeToolsAside(ctx, FinalizeTool(ctx, s, pos), pos + 1);
      }
    }
  }

  lemma {:induction false} LastAside(ctx: Context, s: State, error: ErrorBody)
    ensures Aside(s, Conclude(ctx, s)) && Aside(s, Fail(ctx, s, error))
  {
  }

  lemma {:induction false} SettleCurrent(ctx: Context, s: State)
    requires Current(ctx, s)
    ensures Current(ctx, Settle(ctx, s))
  {
    var c := CloseItems(ctx, s);
    var f := FinalizeTools(ctx, c, 0);
    CloseItemsCurrent(ctx, s);
    FinalizeToolsAside(ctx, c, 0);
    AsideStays(ctx, c, f);
    LastAside(ctx, c, ctx.lib.malformedArguments);
    LastAside(ctx, f, ctx.lib.malformedArguments);
    AsideStays(ctx, c, Conclude(ctx, c));
    AsideStays(ctx, f, Conclude(ctx, f));
    AsideStays(ctx, c, Fail(ctx, c, ctx.lib.malformedArguments));
  }

  lemma {:induction false} StopCurrent(ctx: Context, s: State, ending: Ending)
    requires Current(ctx, s)
    ensures Current(ctx, Stop(ctx, s, ending)) && Current(ctx, Finish(ctx, s))
  {
    SettleCurrent(ctx, s);
    var error := if ending.ReceiverError? then ending.error else ctx.lib.idleTimeout;
    LastAside(ctx, s, error);
    AsideStays(ctx, s, Fail(ctx, s, error));
  }

  lemma {:induction false} FeedCurrent(ctx: Context, s: State, events: seq<BedrockEvent>)
    requires Current(ctx, s)
    ensures Current(ctx, Feed(ctx, s, events))
    decreases |events|
  {
    if events != [] && !s.finalized {
      var m := MapAndTally(ctx, s, events[0]);
      EventCurrent(ctx, s, events[0]);
      StopCurrent(ctx, m, Eof);
      FeedCurrent(ctx, if events[0].Metadata? then Finish(ctx, m) else m, events[1..]);
    }
  }

  lemma {:induction false} RunCurrent(ctx: Context, events: seq<BedrockEvent>, ending: Ending)
    ensures Current(ctx, Run(ctx, events, ending))
  {
    FeedCurrent(ctx, INITIAL, events);
    StopCurrent(ctx, Feed(ctx, INITIAL, events), ending);
  }

  lemma {:induction false} ToldSays(ctx: Context, events: seq<BedrockEvent>, blocks: ReasoningByBlock)
    ensures var content := OutputTold(ctx, events, ReasoningBlocks(blocks)).content.value;
            && Report.Said(content) == TextsIn(events)
            && Report.Sealed(content) == Report.Sealed(ReasoningBlocks(blocks))
            && Report.Thought(content) == Report.Thought(ReasoningBlocks(blocks))
  {
    var reasoning, calls := ReasoningBlocks(blocks), CallBlocks(ctx, CallsIn(events, []));
    var content := OutputTold(ctx, events, reasoning).content.value;
    ReasoningIsOnlyReasoning(ctx, blocks);
    CallsAreOnlyCalls(ctx, CallsIn(events, []));
    RebuiltReads(ctx, reasoning, TextsIn(events), calls);
    Report.TextsAre(content);
    Report.SealedAre(content);
    Report.SealedAre(reasoning);
    Report.ThoughtsAre(content);
    Report.ThoughtsAre(reasoning);
  }

  lemma {:induction false} CallsAreOnlyCalls(ctx: Context, calls: seq<ToolAccum>)
    ensures var blocks := CallBlocks(ctx, calls);
            TextOf(blocks) == "" && ReasoningTextOf(blocks) == "" && ReplayableOf(blocks) == []
  {
    assert Bares(Bares(calls)) == Bares(calls);
    CallBlocksIgnorePlace(ctx, calls);
    CallBlocksAreBare(ctx, calls);
    ToolsAreOnlyTools(ctx, calls);
  }

  lemma {:induction false} CallBlocksIgnorePlace(ctx: Context, calls: seq<ToolAccum>)
    ensures CallBlocks(ctx, Bares(calls)) == CallBlocks(ctx, calls)
  {
    if calls != [] {
      var n := |calls| - 1;
      CallBlocksIgnorePlace(ctx, calls[..n]);
      assert Bares(calls)[..n] == Bares(calls[..n]);
    }
  }

  lemma {:induction false} CallItemsAreCalls(ctx: Context, uses: seq<ContentBlock>, items: seq<OutputItem>, i: nat)
    requires (forall b <- uses :: b.ToolUse?) && Report.AreCallItems(ctx, uses, items) && i < |items|
    ensures items[i].FunctionCall? || items[i].Other?
  {
    assert Report.IsCallItem(ctx, uses[i], items[i]);
  }

  lemma {:induction false} InFrontOrTail<T>(front: seq<T>, items: seq<T>, item: T)
    requires front <= items && item in items
    ensures item in front || item in items[|front|..]
  {
    assert items == front + items[|front|..];
  }

  /** Of a message it is the second part that holds it, of a reasoning item the first. */
  lemma {:induction false} PartThatHolds(ctx: Context, uses: seq<ContentBlock>, thoughts: seq<OutputItem>,
                                         said: seq<OutputItem>, items: seq<OutputItem>, item: OutputItem)
    requires (forall t <- thoughts :: t.Reasoning?) && (forall m <- said :: m.Message?)
    requires (forall b <- uses :: b.ToolUse?) && thoughts + said <= items && item in items
    requires Report.AreCallItems(ctx, uses, items[|thoughts + said|..])
    ensures item.Message? ==> item in said
    ensures item.Reasoning? ==> item in thoughts
  {
    var front := thoughts + said;
    InFrontOrTail(front, items, item);
    var tail := items[|front|..];
    if item in tail {
      var i :| 0 <= i < |tail| && tail[i] == item;
      CallItemsAreCalls(ctx, uses, tail, i);
    }
  }

  /** The reasoning and the message at the front of a mapped output. */
  lemma {:induction false} FrontItemsAre(ctx: Context, output: ConverseOutput, item: OutputItem)
    requires output.content.Some? && item in MapOutput(ctx, output).value.output
    ensures var content := output.content.value;
            && (item.Message? ==> item in Report.SaidItems(ctx, content))
            && (item.Reasoning? ==> item in Report.ThoughtItems(ctx, content))
  {
    var content := output.content.value;
    Report.OutputIsInOrder(ctx, output);
    PartThatHolds(ctx, Report.Used(content), Report.ThoughtItems(ctx, content), Report.SaidItems(ctx, content),
                  MapOutput(ctx, output).value.output, item);
  }

  /**
   * What was declared done last is what the terminal response carries: its message, if there was any text, is the
   * last one that was streamed, and its reasoning item has the id and the sealed content of the last streamed one.
   */
  lemma {:induction false} LastItemsAreAnswered(ctx: Context, events: seq<BedrockEvent>, ending: Ending,
                                                item: OutputItem)
    requires VerdictOf(Run(ctx, events, ending).log) != RunFailed
    requires FinalAnswer(Run(ctx, events, ending).log).Some?
    requires item in FinalAnswer(Run(ctx, events, ending).log).value.output
    ensures var log := Run(ctx, events, ending).log;
            && (item.Message? && TextsIn(events) != "" ==> LastMessage(log) == Some(item))
            && (item.Reasoning? ==>
                  && LastReasoning(log).Some? && LastReasoning(log).value.id == item.id
                  && LastReasoning(log).value.encryptedContent == item.encryptedContent)
  {
    var r := Run(ctx, events, ending);
    RunCurrent(ctx, events, ending);
    AnswerIsTold(ctx, events, ending);
    EverythingToldIsSent(ctx, events, ending);
    NothingIsOpen(ctx, events, ending);
    ToldSays(ctx, events, r.reasoningByBlock);
    var told := OutputTold(ctx, events, ReasoningBlocks(r.reasoningByBlock));
    FrontItemsAre(ctx, told, item);
  }

  lemma {:induction false} NothingIsOpen(ctx: Context, events: seq<BedrockEvent>, ending: Ending)
    requires VerdictOf(Run(ctx, events, ending).log) != RunFailed
    ensures var r := Run(ctx, events, ending); !r.messageOpen && !r.reasoningOpen
  {
    RunEnds(ctx, events, ending);
  }
}
