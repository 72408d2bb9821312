/** Theorems about every run of the receive loop of the lifecycle machine. */
module StreamRuns {
  import opened Prelude
  import opened ResponsesSchema
  import opened ToolRegistry
  import opened ConverseMapper
  import opened Trace
  import opened StreamModel
  import opened StreamInvariant

  lemma {:induction false} MapBodyKeeps(ctx: Context, s: State, event: BedrockEvent)
    requires Inv(ctx, s)
    ensures Inv(ctx, MapBody(ctx, s, event))
  {
    match event
    case BlockStart(block, tool) =>
      if tool.Some? {
        CloseItemsKeeps(ctx, s);
        StartToolKeeps(ctx, CloseItems(ctx, s), block, tool.value);
      }
    case BlockDelta(block, delta) =>
      if delta.Some? {
        MapDeltaKeeps(ctx, s, block, delta.value);
      }
    case BlockStop(block) => CloseToolBlockKeeps(ctx, s, block);
    case MessageStop(reason) =>
      ReportsDoNotMatter(ctx, s, s.reasoningByBlock, Some(reason), s.usage);
      CloseItemsKeeps(ctx, s.(stopReason := Some(reason)));
    case Metadata(usage) => ReportsDoNotMatter(ctx, s, s.reasoningByBlock, s.stopReason, usage);
    case _ =>
  }

  // ---- completing the tools ----

  /** The output indices of the first `n` tools. */
  function FirstIndices(tools: seq<ToolAccum>, n: nat): seq<nat>
    requires n <= |tools|
  {
    if n == 0 then [] else FirstIndices(tools, n - 1) + [tools[n - 1].outputIndex]
  }

  lemma {:induction false} FirstIndicesSame(a: seq<ToolAccum>, b: seq<ToolAccum>, n: nat)
    requires n <= |a| == |b|
    requires forall i :: 0 <= i < n ==> a[i].outputIndex == b[i].outputIndex
    ensures FirstIndices(a, n) == FirstIndices(b, n)
  {
    if n > 0 {
      FirstIndicesSame(a, b, n - 1);
    }
  }

  /** Exactly the first `n` tools are done, in arrival order. */
  ghost predicate DoneUpTo(s: State, n: nat) {
    && n <= |s.tools|
    && (forall i :: 0 <= i < |s.tools| ==> (s.tools[i].doneEmitted <==> i < n))
    && CallsDone(s.log) == FirstIndices(s.tools, n)
  }

  ghost predicate Finishing(ctx: Context, s: State, n: nat) {
    Sound(s) && Placed(ctx, s) && Unfinished(s) && DoneUpTo(s, n)
  }

  /** The event before a tool's done is truthful and leaves its item one step from complete. */
  lemma {:induction false} ToolClosingFits(ctx: Context, log: Log, t: ToolAccum)
    requires PhaseOf(log, t.outputIndex) == ToolPhase(ctx, t) != Complete
    requires KindOf(ctx.registry, t.name) == Function ==> t.arguments == ArgumentsSent(log, t.outputIndex)
    ensures var body := ToolClosing(ctx, t);
            var done := OutputItemDone(ToolItem(ctx, t, Some("completed")), t.outputIndex);
            && body.HasIndex() && body.outputIndex == t.outputIndex
            && !body.ArgumentsDelta? && !body.OutputTextDelta? && !body.ReasoningTextDelta? && !IsCallDone(body)
            && IsCallDone(done)
            && ClosesTruthfully(log, body)
            && (KindOf(ctx.registry, t.name) == Function ==>
                  done.item.FunctionCall? && done.item.arguments == NormalizedArguments(t))
            && (KindOf(ctx.registry, t.name) != Function ==> done.item.Other?)
            && Advance(Advance(ToolPhase(ctx, t), body), done) == Complete
  {
    ToolItemIs(ctx, t, Some("in_progress"));
    ToolItemIs(ctx, t, Some("completed"));
  }

  lemma {:induction false} EmitToolDoneMoves(ctx: Context, s: State, t: ToolAccum)
    requires Sound(s) && Unfinished(s) && !t.doneEmitted
    requires PhaseOf(s.log, t.outputIndex) == ToolPhase(ctx, t)
    requires KindOf(ctx.registry, t.name) == Function ==> t.arguments == ArgumentsSent(s.log, t.outputIndex)
    ensures var r := EmitToolDone(ctx, s, t);
            Sound(r) && Unfinished(r) && CallsDone(r.log) == CallsDone(s.log) + [t.outputIndex]
            && PhaseOf(r.log, t.outputIndex) == Complete && OnlyMoves(s, r, t.outputIndex)
  {
    ToolClosingFits(ctx, s.log, t);
    Emitted(s, ToolClosing(ctx, t));
    Emitted(Emit(s, ToolClosing(ctx, t)),
            OutputItemDone(ToolItem(ctx, t, Some("completed")), t.outputIndex));
  }

  lemma {:induction false} OneMoreDone(ctx: Context, s: State, r: State, n: nat)
    requires Finishing(ctx, s, n) && n < |s.tools|
    requires Sound(r) && Unfinished(r) && SameItems(s, r) && r.nextIndex == s.nextIndex
    requires r.tools == s.tools[n := s.tools[n].(doneEmitted := true)]
    requires CallsDone(r.log) == CallsDone(s.log) + [s.tools[n].outputIndex]
    requires PhaseOf(r.log, s.tools[n].outputIndex) == Complete && OnlyMoves(s, r, s.tools[n].outputIndex)
    ensures Finishing(ctx, r, n + 1)
  {
    assert ToolPlaced(ctx, s, s.tools[n]);
    ToolUpdated(ctx, s, r, n);
    FirstIndicesSame(s.tools, r.tools, n);
  }

  lemma {:induction false} FinalizeToolKeeps(ctx: Context, s: State, n: nat)
    requires Finishing(ctx, s, n) && n < |s.tools|
    ensures Finishing(ctx, FinalizeTool(ctx, s, n), n + 1)
  {
    var t := s.tools[n];
    var d := s.(tools := s.tools[n := t.(doneEmitted := true)]);
    assert ToolPlaced(ctx, s, t);
    EmitToolDoneMoves(ctx, d, t);
    ToolDoneIgnoresFlag(ctx, t);
    OneMoreDone(ctx, s, FinalizeTool(ctx, s, n), n);
  }

  /** The done flag does not show in what a tool emits. */
  lemma {:induction false} ToolDoneIgnoresFlag(ctx: Context, t: ToolAccum)
    ensures ToolClosing(ctx, t.(doneEmitted := true)) == ToolClosing(ctx, t)
    ensures forall status :: ToolItem(ctx, t.(doneEmitted := true), status) == ToolItem(ctx, t, status)
  {
  }

  /** What the final response is built from, other than the tools. */
  ghost predicate SamePieces(s: State, r: State) {
    && r.reasoningByBlock == s.reasoningByBlock && r.messageText == s.messageText
    && r.stopReason == s.stopReason && r.usage == s.usage && r.finalized == s.finalized
  }

  /** From position `n` on every tool gains the done flag; nothing else that an ending looks at changes. */
  ghost predicate MarkedFrom(s: State, r: State, n: nat) {
    && SameItems(s, r) && SamePieces(s, r) && r.nextIndex == s.nextIndex
    && |r.tools| == |s.tools|
    && forall i :: 0 <= i < |s.tools| ==>
         r.tools[i] == if i < n then s.tools[i] else s.tools[i].(doneEmitted := true)
  }

  lemma {:induction false} FinalizeToolMarks(ctx: Context, s: State, n: nat)
    requires n < |s.tools|
    ensures var r := FinalizeTool(ctx, s, n);
            && SameItems(s, r) && SamePieces(s, r) && r.nextIndex == s.nextIndex
            && r.tools == s.tools[n := s.tools[n].(doneEmitted := true)]
  {
  }

  lemma {:induction false} FinalizeToolsMark(ctx: Context, s: State, n: nat)
    ensures MarkedFrom(s, FinalizeTools(ctx, s, n), n)
    decreases |s.tools| - n
  {
    if n < |s.tools| {
      if s.tools[n].doneEmitted {
        assert s.tools[n] == s.tools[n].(doneEmitted := true);
        FinalizeToolsMark(ctx, s, n + 1);
      } else {
        var next := FinalizeTool(ctx, s, n);
        FinalizeToolMarks(ctx, s, n);
        FinalizeToolsMark(ctx, next, n + 1);
        MarkedOneMore(s, next, FinalizeTools(ctx, next, n + 1), n);
      }
    }
  }

  lemma {:induction false} MarkedOneMore(s: State, next: State, r: State, n: nat)
    requires n < |s.tools| && next.tools == s.tools[n := s.tools[n].(doneEmitted := true)]
    requires SameItems(s, next) && SamePieces(s, next) && next.nextIndex == s.nextIndex
    requires MarkedFrom(next, r, n + 1)
    ensures MarkedFrom(s, r, n)
  {
  }

  lemma {:induction false} FinalizeToolsKeeps(ctx: Context, s: State, n: nat)
    requires Finishing(ctx, s, n)
    ensures var r := FinalizeTools(ctx, s, n); Finishing(ctx, r, |r.tools|)
    decreases |s.tools| - n
  {
    if n < |s.tools| {
      var next := FinalizeTool(ctx, s, n);
      FinalizeToolKeeps(ctx, s, n);
      FinalizeToolsKeeps(ctx, next, n + 1);
    }
  }

  // ---- endings ----

  ghost predicate ToolValid(ctx: Context, t: ToolAccum) {
    t.closed && ctx.lib.parse(NormalizedArguments(t)).Some?
  }

  /** The stop reason as the final response reports it. */
  function ReportedStop(s: State): Option<string> { Some(s.stopReason.GetOr("end_turn")) }

  /** The state of a run after its one terminal event. */
  ghost predicate Ended(ctx: Context, r: State) {
    && Sound(r) && Placed(ctx, r)
    && r.finalized && r.log.After? && r.log.last.body.IsTerminal() && NoTerminal(r.log.before)
  }

  /** Every tool is valid and done, in arrival order, and no item is left open. */
  ghost predicate AllDone(ctx: Context, r: State) {
    && DoneUpTo(r, |r.tools|)
    && (forall i :: 0 <= i < |r.tools| ==> ToolValid(ctx, r.tools[i]))
  }

  ghost predicate Outcome(ctx: Context, r: State) {
    match r.log
    case Empty => false
    case After(_, last) =>
      && (last.body.Failed? ==> NoneDone(r))
      && (!last.body.Failed? ==> !r.messageOpen && !r.reasoningOpen)
      && (!last.body.Failed? ==> if IsIncompleteStop(r) then NoneDone(r) else AllDone(ctx, r))
      && (last.body.Completed? ==> IncompleteReason(ReportedStop(r)).None?)
      && (last.body.Incomplete? ==> IncompleteReason(ReportedStop(r)).Some?)
  }

  ghost predicate Final(ctx: Context, r: State) { Ended(ctx, r) && Outcome(ctx, r) }

  /** The exact stop reasons are already in lower case. */
  lemma {:induction false} ExactStopIsReported(s: State)
    requires IsIncompleteStop(s)
    ensures IncompleteReason(ReportedStop(s)).Some?
  {
    assert Lower("max_tokens") == "max_tokens";
    assert Lower("content_filtered") == "content_filtered";
  }

  lemma {:induction false} FinalStatus(ctx: Context, s: State)
    ensures FinalResponse(ctx, s).status == StatusOf(ReportedStop(s))
  {
  }

  /** The terminal event ends the run and says nothing else. */
  lemma {:induction false} TerminalEnds(ctx: Context, s: State, body: EventBody)
    requires Sound(s) && Placed(ctx, s) && Unfinished(s) && body.IsTerminal()
    ensures var r := Emit(s.(finalized := true), body);
            Ended(ctx, r) && CallsDone(r.log) == CallsDone(s.log)
  {
    Emitted(s.(finalized := true), body);
  }

  lemma {:induction false} ConcludeEnds(ctx: Context, s: State)
    requires Sound(s) && Placed(ctx, s) && Unfinished(s)
    ensures var r := Conclude(ctx, s);
            && Ended(ctx, r) && CallsDone(r.log) == CallsDone(s.log)
            && r.log.last.body == (if IncompleteReason(ReportedStop(s)).Some? then Incomplete(FinalResponse(ctx, s))
                                   else Completed(FinalResponse(ctx, s)))
            && r == s.(finalized := true, log := r.log, nextSeq := r.nextSeq)
  {
    FinalStatus(ctx, s);
    var response := FinalResponse(ctx, s);
    TerminalEnds(ctx, s, if response.status == "incomplete" then Incomplete(response) else Completed(response));
  }

  lemma {:induction false} FailEnds(ctx: Context, s: State, error: ErrorBody)
    requires Inv(ctx, s)
    ensures Final(ctx, Fail(ctx, s, error))
  {
    TerminalEnds(ctx, s, Failed(Skeleton(ctx).(status := "failed", error := Some(error))));
  }

  lemma {:induction false} TruncatedEnds(ctx: Context, c: State)
    requires Inv(ctx, c) && !c.messageOpen && !c.reasoningOpen && IsIncompleteStop(c)
    ensures Final(ctx, Conclude(ctx, c))
  {
    ExactStopIsReported(c);
    ConcludeEnds(ctx, c);
  }

  lemma {:induction false} AllToolsDone(ctx: Context, c: State, f: State)
    requires NoneDone(c) && AllToolsReady(ctx, c.tools) && MarkedFrom(c, f, 0) && DoneUpTo(f, |f.tools|)
    ensures AllDone(ctx, f)
  {
    forall i | 0 <= i < |f.tools| ensures ToolValid(ctx, f.tools[i]) {
      assert ToolReady(ctx, c.tools[i]);
    }
  }

  lemma {:induction false} SettleToolsEnds(ctx: Context, c: State, f: State)
    requires Finishing(ctx, f, |f.tools|) && AllDone(ctx, f)
    requires !f.messageOpen && !f.reasoningOpen && !IsIncompleteStop(f)
    ensures Final(ctx, Conclude(ctx, f))
  {
    ConcludeEnds(ctx, f);
  }

  lemma {:induction false} SettleEnds(ctx: Context, s: State)
    requires Inv(ctx, s)
    ensures Final(ctx, Settle(ctx, s))
  {
    var c := CloseItems(ctx, s);
    CloseItemsKeeps(ctx, s);
    if IsIncompleteStop(c) {
      TruncatedEnds(ctx, c);
    } else if AllToolsReady(ctx, c.tools) {
      var f := FinalizeTools(ctx, c, 0);
      FinalizeToolsKeeps(ctx, c, 0);
      FinalizeToolsMark(ctx, c, 0);
      AllToolsDone(ctx, c, f);
      SettleToolsEnds(ctx, c, f);
    } else {
      FailEnds(ctx, c, ctx.lib.malformedArguments);
    }
  }

  lemma {:induction false} CountsDoNotMatter(ctx: Context, s: State, counts: Counts)
    ensures Inv(ctx, s) ==> Inv(ctx, s.(counts := counts))
    ensures Final(ctx, s) ==> Final(ctx, s.(counts := counts))
  {
  }

  lemma {:induction false} FinishEnds(ctx: Context, s: State)
    requires Inv(ctx, s)
    ensures Final(ctx, Finish(ctx, s))
  {
    SettleEnds(ctx, s);
    var r := Settle(ctx, s);
    CountsDoNotMatter(ctx, r, TallySince(r.counts, r.log, s.log));
  }

  // ---- whole runs ----

  lemma {:induction false} MapEventKeeps(ctx: Context, s: State, event: BedrockEvent)
    requires Inv(ctx, s)
    ensures var r := MapEvent(ctx, s, event);
            if event.Metadata? then Final(ctx, r) else Inv(ctx, r)
  {
    var o := EnsureStarted(ctx, s);
    StartedKeeps(ctx, s);
    MapBodyKeeps(ctx, o, event);
    var b := MapBody(ctx, o, event);
    CountsDoNotMatter(ctx, b, TallySince(b.counts, b.log, s.log));
    if event.Metadata? {
      FinishEnds(ctx, MapAndTally(ctx, s, event));
    }
  }

  lemma {:induction false} FeedKeeps(ctx: Context, s: State, events: seq<BedrockEvent>)
    requires Inv(ctx, s)
    ensures var r := Feed(ctx, s, events);
            if r.finalized then Final(ctx, r) else Inv(ctx, r)
    decreases |events|
  {
    if events != [] {
      MapEventKeeps(ctx, s, events[0]);
      var n := MapEvent(ctx, s, events[0]);
      if n.finalized {
        assert Feed(ctx, n, events[1..]) == n;
      } else {
        FeedKeeps(ctx, n, events[1..]);
      }
    }
  }

  lemma {:induction false} StopEnds(ctx: Context, s: State, ending: Ending)
    requires if s.finalized then Final(ctx, s) else Inv(ctx, s)
    ensures Final(ctx, Stop(ctx, s, ending))
  {
    if !s.finalized {
      match ending
      case Eof => FinishEnds(ctx, s);
      case ReceiverError(error) => FailEnds(ctx, s, error);
      case IdleTimeout => FailEnds(ctx, s, ctx.lib.idleTimeout);
    }
  }

  lemma {:induction false} RunEnds(ctx: Context, events: seq<BedrockEvent>, ending: Ending)
    ensures Final(ctx, Run(ctx, events, ending))
  {
    FeedKeeps(ctx, INITIAL, events);
    StopEnds(ctx, Feed(ctx, INITIAL, events), ending);
  }

  lemma {:induction false} FeedOne(ctx: Context, s: State, event: BedrockEvent)
    requires !s.finalized
    ensures Feed(ctx, s, [event]) == MapEvent(ctx, s, event)
  {
    var n := MapEvent(ctx, s, event);
    assert Feed(ctx, n, [event][1..]) == n;
  }

  lemma {:induction false} FeedAppend(ctx: Context, s: State, xs: seq<BedrockEvent>, ys: seq<BedrockEvent>)
    ensures Feed(ctx, s, xs + ys) == Feed(ctx, Feed(ctx, s, xs), ys)
    decreases |xs|
  {
    if xs == [] {
      assert xs + ys == ys;
    } else if s.finalized {
    } else {
      assert (xs + ys)[1..] == xs[1..] + ys;
      FeedAppend(ctx, MapEvent(ctx, s, xs[0]), xs[1..], ys);
    }
  }
}
