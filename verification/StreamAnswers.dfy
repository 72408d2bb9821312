/**
 * What a run delivers, told from the upstream events: the payload of every call it declares done, and the whole
 * response that its terminal event carries.
 */
module StreamAnswers {
  import opened Prelude
  import opened Json
  import opened ResponsesSchema
  import opened ToolRegistry
  import opened ConverseMapper
  import Report = ConverseReport
  import opened Trace
  import opened StreamModel
  import opened StreamInvariant
  import opened StreamRuns
  import opened StreamVerdict
  import opened StreamTelling

  // ---- what a done call pays for ----

  /** The arguments of a call that are all there, and the input they stand for. */
  function FullArguments(t: ToolAccum): string { OrEmptyObject(t.arguments) }

  function FullInput(ctx: Context, t: ToolAccum): Json { ctx.lib.parse(FullArguments(t)).GetOr(Object(map[])) }

  /** The item is the call's, with its full arguments, in this stage. */
  predicate IsFullItem(ctx: Context, t: ToolAccum, status: string, item: OutputItem) {
    && IsItemOf(ctx.registry, t.callId, t.name, item)
    && DoesWhatIsAsked(ctx.registry, t.name, FullInput(ctx, t), FullArguments(t), item)
    && ShowsStatus(item, KindOf(ctx.registry, t.name), Some(status))
  }

  /** What goes before the done of an item: the done of its arguments or its input, or its late start. */
  predicate Announces(ctx: Context, t: ToolAccum, closing: EventBody, item: OutputItem) {
    match KindOf(ctx.registry, t.name)
    case Function =>
      closing == ArgumentsDone("fc_" + t.callId, t.outputIndex, FullArguments(t), ClientName(ctx.registry, t.name))
    case Custom =>
      && closing.CustomInputDone? && closing.itemId == "ct_" + t.callId && closing.outputIndex == t.outputIndex
      && Carries(item, "input", closing.input)
    case _ =>
      && closing.OutputItemAdded? && closing.outputIndex == t.outputIndex
      && IsFullItem(ctx, t, "in_progress", closing.item)
  }

  /** A call that is declared done is one of the tools, and has just been announced. */
  ghost predicate PaysFor(ctx: Context, tools: seq<ToolAccum>, before: Log, body: EventBody)
    requires IsCallDone(body)
  {
    exists i :: 0 <= i < |tools| && tools[i].outputIndex == body.outputIndex
                && IsFullItem(ctx, tools[i], "completed", body.item)
                && before.After? && Announces(ctx, tools[i], before.last.body, body.item)
  }

  ghost predicate Paid(ctx: Context, tools: seq<ToolAccum>, log: Log) {
    log.After? ==>
      Paid(ctx, tools, log.before) && (IsCallDone(log.last.body) ==> PaysFor(ctx, tools, log.before, log.last.body))
  }

  lemma {:induction false} NoneDoneIsPaid(ctx: Context, tools: seq<ToolAccum>, log: Log)
    requires CallsDone(log) == []
    ensures Paid(ctx, tools, log)
  {
    if log.After? {
      NoneDoneIsPaid(ctx, tools, log.before);
    }
  }

  /** The same calls with the same arguments. */
  ghost predicate SameCalls(a: seq<ToolAccum>, b: seq<ToolAccum>) {
    |a| == |b| && forall i :: 0 <= i < |a| ==> b[i] == a[i].(doneEmitted := b[i].doneEmitted)
  }

  lemma {:induction false} PaidStays(ctx: Context, a: seq<ToolAccum>, b: seq<ToolAccum>, log: Log)
    requires SameCalls(a, b) && Paid(ctx, a, log)
    ensures Paid(ctx, b, log)
  {
    if log.After? {
      PaidStays(ctx, a, b, log.before);
      var before, body := log.before, log.last.body;
      if IsCallDone(body) {
        var i :| 0 <= i < |a| && a[i].outputIndex == body.outputIndex && IsFullItem(ctx, a[i], "completed", body.item)
                 && before.After? && Announces(ctx, a[i], before.last.body, body.item);
        assert IsFullItem(ctx, b[i], "completed", body.item) && Announces(ctx, b[i], before.last.body, body.item);
      }
    }
  }

  lemma {:induction false} ToolItemIsFull(ctx: Context, t: ToolAccum, status: string)
    ensures IsFullItem(ctx, t, status, ToolItem(ctx, t, Some(status)))
  {
    ToolItemCarries(ctx.registry, t.callId, t.name, ParsedInput(ctx, t), NormalizedArguments(t), Some(status));
  }

  lemma {:induction false} ClosingAnnounces(ctx: Context, t: ToolAccum)
    ensures Announces(ctx, t, ToolClosing(ctx, t), ToolItem(ctx, t, Some("completed")))
    ensures !IsCallDone(ToolClosing(ctx, t))
  {
    ToolItemIsFull(ctx, t, "completed");
    ToolItemIsFull(ctx, t, "in_progress");
  }

  lemma {:induction false} DonePays(ctx: Context, s: State, tools: seq<ToolAccum>, pos: nat)
    requires pos < |tools| && Paid(ctx, tools, s.log)
    ensures Paid(ctx, tools, EmitToolDone(ctx, s, tools[pos]).log)
  {
    var t := tools[pos];
    ClosingAnnounces(ctx, t);
    ToolItemIsFull(ctx, t, "completed");
    var c := Emit(s, ToolClosing(ctx, t));
    assert Paid(ctx, tools, c.log);
    assert PaysFor(ctx, tools, c.log, OutputItemDone(ToolItem(ctx, t, Some("completed")), t.outputIndex));
  }

  lemma {:induction false} FinalizeToolPays(ctx: Context, s: State, pos: nat)
    requires Paid(ctx, s.tools, s.log) && pos < |s.tools|
    ensures var r := FinalizeTool(ctx, s, pos); Paid(ctx, r.tools, r.log)
  {
    var t := s.tools[pos].(doneEmitted := true);
    var d := s.(tools := s.tools[pos := t]);
    PaidStays(ctx, s.tools, d.tools, s.log);
    DonePays(ctx, d, d.tools, pos);
  }

  lemma {:induction false} FinalizeToolsPay(ctx: Context, s: State, pos: nat)
    requires Paid(ctx, s.tools, s.log)
    ensures var r := FinalizeTools(ctx, s, pos); Paid(ctx, r.tools, r.log)
    decreases |s.tools| - pos
  {
    if pos < |s.tools| {
      if s.tools[pos].doneEmitted {
        FinalizeToolsPay(ctx, s, pos + 1);
      } else {
        FinalizeToolPays(ctx, s, pos);
        FinalizeToolsPay(ctx, FinalizeTool(ctx, s, pos), pos + 1);
      }
    }
  }

  // ---- the terminal response ----

  /** The terminal response, if there is one, is what the state that is left amounts to. */
  predicate Answers(ctx: Context, r: State) {
    VerdictOf(r.log) in {RunCompleted, RunIncomplete} ==> FinalAnswer(r.log) == Some(FinalResponse(ctx, r))
  }

  ghost predicate Delivers(ctx: Context, r: State) { Answers(ctx, r) && Paid(ctx, r.tools, r.log) }

  lemma {:induction false} ConcludeDelivers(ctx: Context, s: State)
    requires Paid(ctx, s.tools, s.log)
    ensures Delivers(ctx, Conclude(ctx, s))
  {
    var r := Conclude(ctx, s);
    assert Rebuilt(ctx, r) == Rebuilt(ctx, s);
  }

  lemma {:induction false} FailDelivers(ctx: Context, s: State, error: ErrorBody)
    requires Paid(ctx, s.tools, s.log) && !s.finalized
    ensures Delivers(ctx, Fail(ctx, s, error))
  {
  }

  lemma {:induction false} SettleDelivers(ctx: Context, s: State)
    requires Inv(ctx, s)
    ensures Delivers(ctx, Settle(ctx, s))
  {
    var c := CloseItems(ctx, s);
    CloseItemsKeeps(ctx, s);
    NoneDoneIsPaid(ctx, c.tools, c.log);
    if IsIncompleteStop(c) {
      ConcludeDelivers(ctx, c);
    } else if AllToolsReady(ctx, c.tools) {
      FinalizeToolsPay(ctx, c, 0);
      ConcludeDelivers(ctx, FinalizeTools(ctx, c, 0));
    } else {
      FailDelivers(ctx, c, ctx.lib.malformedArguments);
    }
  }

  lemma {:induction false} CountsDoNotDeliver(ctx: Context, r: State, counts: Counts)
    requires Delivers(ctx, r)
    ensures Delivers(ctx, r.(counts := counts))
  {
    assert Rebuilt(ctx, r.(counts := counts)) == Rebuilt(ctx, r);
  }

  lemma {:induction false} FinishDelivers(ctx: Context, s: State)
    requires Inv(ctx, s)
    ensures Delivers(ctx, Finish(ctx, s))
  {
    var r := Settle(ctx, s);
    SettleDelivers(ctx, s);
    CountsDoNotDeliver(ctx, r, TallySince(r.counts, r.log, s.log));
  }

  lemma {:induction false} StopDelivers(ctx: Context, s: State, ending: Ending)
    requires Inv(ctx, s)
    ensures Delivers(ctx, Stop(ctx, s, ending))
  {
    NoneDoneIsPaid(ctx, s.tools, s.log);
    match ending
    case Eof => FinishDelivers(ctx, s);
    case ReceiverError(error) => FailDelivers(ctx, s, error);
    case IdleTimeout => FailDelivers(ctx, s, ctx.lib.idleTimeout);
  }

  lemma {:induction false} FeedDelivers(ctx: Context, s: State, events: seq<BedrockEvent>, ending: Ending)
    requires Inv(ctx, s)
    ensures Delivers(ctx, Stop(ctx, Feed(ctx, s, events), ending))
    decreases |events|
  {
    if events == [] {
      StopDelivers(ctx, s, ending);
    } else {
      var m := MapAndTally(ctx, s, events[0]);
      TallyKeeps(ctx, s, events[0]);
      if events[0].Metadata? {
        FinishEnds(ctx, m);
        FinishDelivers(ctx, m);
        FeedMetadata(ctx, s, events, Finish(ctx, m), ending);
      } else {
        FeedMore(ctx, s, events, m);
        FeedDelivers(ctx, m, events[1..], ending);
      }
    }
  }

  /** The blocks of the calls whose arguments are valid. */
  function CallBlocks(ctx: Context, calls: seq<ToolAccum>): seq<ContentBlock> {
    if calls == [] then []
    else
      var last := calls[|calls| - 1];
      var input := ctx.lib.parse(FullArguments(last));
      CallBlocks(ctx, calls[..|calls| - 1])
      + if input.Some? then [ToolUse(Some(last.callId), Some(last.name), input)] else []
  }

  lemma {:induction false} CallBlocksAreBare(ctx: Context, tools: seq<ToolAccum>)
    ensures FlatMap((t: ToolAccum) => ToolBlock(ctx, t), tools) == CallBlocks(ctx, Bares(tools))
  {
    if tools != [] {
      var n := |tools| - 1;
      CallBlocksAreBare(ctx, tools[..n]);
      assert Bares(tools)[..n] == Bares(tools[..n]);
    }
  }

  /** The Converse output that the events tell of, around what they tell of the reasoning. */
  function OutputTold(ctx: Context, events: seq<BedrockEvent>, reasoning: seq<ContentBlock>): ConverseOutput {
    ConverseOutput(
      Some(reasoning + (if TextsIn(events) == "" then [] else [Text(TextsIn(events))])
           + CallBlocks(ctx, CallsIn(events, []))),
      Some(LastStop(events, None).GetOr("end_turn")),
      Some(UsageIn(events).GetOr(BedrockUsage(0, 0, None, None))))
  }

  /**
   * The terminal response of every run that does not fail is the mapping of the one Converse output the events
   * tell of: the kept reasoning, all the text as one block, the calls with valid arguments in arrival order, the
   * last stop reason, and the reported usage.
   */
  lemma {:induction false} AnswerIsTold(ctx: Context, events: seq<BedrockEvent>, ending: Ending)
    requires VerdictOf(Run(ctx, events, ending).log) != RunFailed
    ensures var r := Run(ctx, events, ending);
            FinalAnswer(r.log)
            == Some(MapOutput(ctx, OutputTold(ctx, events, ReasoningBlocks(r.reasoningByBlock))).value)
  {
    var r := Run(ctx, events, ending);
    FeedDelivers(ctx, INITIAL, events, ending);
    RunEnds(ctx, events, ending);
    EverythingToldIsSent(ctx, events, ending);
    RunReads(ctx, events, ending);
    CallBlocksAreBare(ctx, r.tools);
  }

  // ---- the calls in the terminal response ----

  lemma {:induction false} UsedAppend(xs: seq<ContentBlock>, ys: seq<ContentBlock>)
    ensures Report.Used(xs + ys) == Report.Used(xs) + Report.Used(ys)
    decreases |ys|
  {
    if ys == [] {
      assert xs + ys == xs;
    } else {
      var n := |ys| - 1;
      var last := if ys[n].ToolUse? then [ys[n]] else [];
      assert (xs + ys)[..|xs| + n] == xs + ys[..n] && (xs + ys)[|xs| + n] == ys[n];
      UsedAppend(xs, ys[..n]);
      assert Report.Used(xs + ys) == Report.Used(xs) + Report.Used(ys[..n]) + last;
      assert Report.Used(ys) == Report.Used(ys[..n]) + last;
    }
  }

  lemma {:induction false} NothingUsed(blocks: seq<ContentBlock>)
    requires forall b <- blocks :: !b.ToolUse?
    ensures Report.Used(blocks) == []
  {
    if blocks != [] {
      NothingUsed(blocks[..|blocks| - 1]);
    }
  }

  lemma {:induction false} ReasoningUsesNothing(blocks: ReasoningByBlock)
    ensures forall b <- ReasoningBlocks(blocks) :: !b.ToolUse?
  {
    if blocks != [] {
      ReasoningUsesNothing(blocks[..|blocks| - 1]);
    }
  }

  lemma {:induction false} CallBlocksUse(ctx: Context, calls: seq<ToolAccum>)
    ensures Report.Used(CallBlocks(ctx, calls)) == CallBlocks(ctx, calls)
  {
    if calls != [] {
      var n := |calls| - 1;
      var before, input := CallBlocks(ctx, calls[..n]), ctx.lib.parse(FullArguments(calls[n]));
      CallBlocksUse(ctx, calls[..n]);
      if input.Some? {
        var block := ToolUse(Some(calls[n].callId), Some(calls[n].name), input);
        UsedAppend(before, [block]);
        assert [block][..0] == [] && Report.Used([block]) == [block];
      } else {
        assert before + [] == before;
      }
    }
  }

  /** The block of a call with valid arguments. */
  function CallBlock(ctx: Context, t: ToolAccum): ContentBlock {
    ToolUse(Some(t.callId), Some(t.name), Some(FullInput(ctx, t)))
  }

  lemma {:induction false} ValidCallBlocks(ctx: Context, calls: seq<ToolAccum>)
    requires AllValid(ctx, calls)
    ensures |CallBlocks(ctx, calls)| == |calls|
    ensures forall i :: 0 <= i < |calls| ==> CallBlocks(ctx, calls)[i] == CallBlock(ctx, calls[i])
  {
    if calls != [] {
      var n := |calls| - 1;
      assert ToolValid(ctx, calls[n]);
      assert AllValid(ctx, calls[..n]);
      ValidCallBlocks(ctx, calls[..n]);
    }
  }

  lemma {:induction false} FrontUsesNothing(reasoning: seq<ContentBlock>, text: seq<ContentBlock>)
    requires (forall b <- reasoning :: !b.ToolUse?) && forall b <- text :: !b.ToolUse?
    ensures Report.Used(reasoning + text) == []
  {
    UsedAppend(reasoning, text);
    NothingUsed(reasoning);
    NothingUsed(text);
  }

  lemma {:induction false} ToldUses(ctx: Context, events: seq<BedrockEvent>, blocks: ReasoningByBlock)
    ensures Report.Used(OutputTold(ctx, events, ReasoningBlocks(blocks)).content.value)
            == CallBlocks(ctx, CallsIn(events, []))
  {
    var reasoning, calls := ReasoningBlocks(blocks), CallBlocks(ctx, CallsIn(events, []));
    var text := if TextsIn(events) == "" then [] else [Text(TextsIn(events))];
    ReasoningUsesNothing(blocks);
    FrontUsesNothing(reasoning, text);
    UsedAppend(reasoning + text, calls);
    CallBlocksUse(ctx, CallsIn(events, []));
  }

  /** The item of a call in the terminal response; its arguments are printed anew. */
  predicate IsAnswered(ctx: Context, t: ToolAccum, item: OutputItem) {
    var kind := KindOf(ctx.registry, t.name);
    && IsItemOf(ctx.registry, t.callId, t.name, item)
    && DoesWhatIsAsked(ctx.registry, t.name, FullInput(ctx, t), ctx.lib.show(FullInput(ctx, t)), item)
    && ShowsStatus(item, kind, if kind == Function then None else Some("completed"))
  }

  lemma {:induction false} BlockIsAnswered(ctx: Context, t: ToolAccum, item: OutputItem)
    requires Report.IsCallItem(ctx, CallBlock(ctx, t), item)
    ensures IsAnswered(ctx, t, item)
  {
  }

  /** The items end with those of the calls, in order, and no other is a call. */
  predicate EndsWithCalls(ctx: Context, calls: seq<ToolAccum>, output: seq<OutputItem>) {
    var n := |output| - |calls|;
    && 0 <= n
    && (forall i :: 0 <= i < |calls| ==> IsAnswered(ctx, calls[i], output[n + i]))
    && (forall i :: 0 <= i < n ==> output[i].Reasoning? || output[i].Message?)
  }

  lemma {:induction false} TailIsAnswered(ctx: Context, calls: seq<ToolAccum>, uses: seq<ContentBlock>,
                                          front: seq<OutputItem>, output: seq<OutputItem>)
    requires |uses| == |calls| && forall i :: 0 <= i < |calls| ==> uses[i] == CallBlock(ctx, calls[i])
    requires forall b <- uses :: b.ToolUse?
    requires front <= output && Report.AreCallItems(ctx, uses, output[|front|..])
    requires forall i :: 0 <= i < |front| ==> front[i].Reasoning? || front[i].Message?
    ensures EndsWithCalls(ctx, calls, output)
  {
    forall i | 0 <= i < |calls| ensures IsAnswered(ctx, calls[i], output[|front| + i]) {
      assert output[|front|..][i] == output[|front| + i];
      BlockIsAnswered(ctx, calls[i], output[|front| + i]);
    }
    assert forall i :: 0 <= i < |front| ==> output[i] == front[i];
  }

  /** The mapping of what the events tell of ends with the calls. */
  lemma {:induction false} ToldEndsWithCalls(ctx: Context, events: seq<BedrockEvent>, blocks: ReasoningByBlock)
    requires AllValid(ctx, CallsIn(events, []))
    ensures var told := OutputTold(ctx, events, ReasoningBlocks(blocks));
            EndsWithCalls(ctx, CallsIn(events, []), MapOutput(ctx, told).value.output)
  {
    var calls, told := CallsIn(events, []), OutputTold(ctx, events, ReasoningBlocks(blocks));
    var content := told.content.value;
    ToldUses(ctx, events, blocks);
    ValidCallBlocks(ctx, calls);
    Report.OutputIsInOrder(ctx, told);
    FrontIsNoCall(ctx, content);
    TailIsAnswered(ctx, calls, Report.Used(content),
                   Report.ThoughtItems(ctx, content) + Report.SaidItems(ctx, content),
                   MapOutput(ctx, told).value.output);
  }

  /**
   * When the calls are completed, the terminal response ends with exactly their items, in arrival order, behind its
   * reasoning and its message. `DoneCallsArePaid` says the same of the items that were declared done: they are the
   * same items but for the status of a function and the printing of its arguments.
   */
  lemma {:induction false} CallsAreAnswered(ctx: Context, events: seq<BedrockEvent>, ending: Ending)
    requires Completes(ctx, events, ending)
    ensures var answer := FinalAnswer(Run(ctx, events, ending).log);
            answer.Some? && EndsWithCalls(ctx, CallsIn(events, []), answer.value.output)
  {
    RunReads(ctx, events, ending);
    AnswerIsTold(ctx, events, ending);
    ToldEndsWithCalls(ctx, events, Run(ctx, events, ending).reasoningByBlock);
  }

  lemma {:induction false} FrontIsNoCall(ctx: Context, content: seq<ContentBlock>)
    ensures var front := Report.ThoughtItems(ctx, content) + Report.SaidItems(ctx, content);
            forall i :: 0 <= i < |front| ==> front[i].Reasoning? || front[i].Message?
  {
  }

  /** A call declared done, with the index of its tool, is one the events tell of, and was announced just before. */
  ghost predicate DoneAsTold(ctx: Context, calls: seq<ToolAccum>, indices: seq<nat>, before: Log, body: EventBody)
    requires |calls| == |indices| && IsCallDone(body)
  {
    exists i :: 0 <= i < |calls| && indices[i] == body.outputIndex
                && IsFullItem(ctx, calls[i], "completed", body.item)
                && before.After? && Announces(ctx, calls[i].(outputIndex := indices[i]), before.last.body, body.item)
  }

  ghost predicate AllDoneAsTold(ctx: Context, calls: seq<ToolAccum>, indices: seq<nat>, log: Log)
    requires |calls| == |indices|
  {
    log.After? ==>
      && AllDoneAsTold(ctx, calls, indices, log.before)
      && (IsCallDone(log.last.body) ==> DoneAsTold(ctx, calls, indices, log.before, log.last.body))
  }

  function IndicesOf(tools: seq<ToolAccum>): (r: seq<nat>)
    ensures |r| == |tools| && forall i :: 0 <= i < |r| ==> r[i] == tools[i].outputIndex
  {
    seq(|tools|, i requires 0 <= i < |tools| => tools[i].outputIndex)
  }

  lemma {:induction false} PaidIsTold(ctx: Context, tools: seq<ToolAccum>, log: Log)
    requires Paid(ctx, tools, log)
    ensures AllDoneAsTold(ctx, Bares(tools), IndicesOf(tools), log)
  {
    if log.After? {
      PaidIsTold(ctx, tools, log.before);
      var before, body := log.before, log.last.body;
      if IsCallDone(body) {
        var i :| 0 <= i < |tools| && tools[i].outputIndex == body.outputIndex
                 && IsFullItem(ctx, tools[i], "completed", body.item)
                 && before.After? && Announces(ctx, tools[i], before.last.body, body.item);
        BareDoesTheSame(ctx, tools[i], before.last.body, body.item);
        assert Bares(tools)[i] == Bare(tools[i]) && IndicesOf(tools)[i] == body.outputIndex;
      }
    }
  }

  lemma {:induction false} BareDoesTheSame(ctx: Context, t: ToolAccum, closing: EventBody, item: OutputItem)
    requires IsFullItem(ctx, t, "completed", item) && Announces(ctx, t, closing, item)
    ensures IsFullItem(ctx, Bare(t), "completed", item)
    ensures Announces(ctx, Bare(t).(outputIndex := t.outputIndex), closing, item)
  {
  }

  /**
   * In every run an item that is declared done at a tool's index is, with its full arguments, the item of the call
   * that the events tell of, and the event just before it was the done of the same arguments or input, or the late
   * start of the same item.
   */
  lemma {:induction false} DoneCallsArePaid(ctx: Context, events: seq<BedrockEvent>, ending: Ending)
    ensures var r, calls := Run(ctx, events, ending), CallsIn(events, []);
            |calls| == |r.tools| && AllDoneAsTold(ctx, calls, IndicesOf(r.tools), r.log)
  {
    var r := Run(ctx, events, ending);
    FeedDelivers(ctx, INITIAL, events, ending);
    RunReads(ctx, events, ending);
    PaidIsTold(ctx, r.tools, r.log);
  }
}
