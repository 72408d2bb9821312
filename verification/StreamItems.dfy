/**
 * Whose events a client is sent: in every run each event of an output index carries the identity of the one item
 * there, and a tool's item is that of the call the upstream events tell of.
 */
module StreamItems {
  import opened Prelude
  import opened Json
  import opened ResponsesSchema
  import opened ToolRegistry
  import opened ConverseMapper
  import opened Trace
  import opened StreamModel
  import opened StreamInvariant
  import opened StreamRuns
  import opened StreamTheorems
  import opened StreamVerdict

  // ---- whose an event is ----

  /** The input of a call whose arguments are yet to come. */
  function EmptyInput(ctx: Context): Json { ctx.lib.parse("{}").GetOr(Object(map[])) }

  /** An event of the call's own item; one that is shown at the start has no arguments yet. */
  predicate IsOfCall(ctx: Context, t: ToolAccum, body: EventBody) {
    var kind := KindOf(ctx.registry, t.name);
    match body
    case OutputItemAdded(item, _) =>
      && IsItemOf(ctx.registry, t.callId, t.name, item)
      && ShowsStatus(item, kind, if kind == Function then None else Some("in_progress"))
      && (IsLate(kind) || DoesWhatIsAsked(ctx.registry, t.name, EmptyInput(ctx), "{}", item))
    case OutputItemDone(item, _) =>
      IsItemOf(ctx.registry, t.callId, t.name, item) && ShowsStatus(item, kind, Some("completed"))
    case ArgumentsDelta(id, _, _) => kind == Function && id == "fc_" + t.callId
    case ArgumentsDone(id, _, _, name) =>
      kind == Function && id == "fc_" + t.callId && name == ClientName(ctx.registry, t.name)
    case CustomInputDone(id, _, _) => kind == Custom && id == "ct_" + t.callId
    case _ => false
  }

  /** An event of the message, or of the reasoning, of the response. */
  predicate IsOfResponse(ctx: Context, body: EventBody) {
    var message, reasoning := "msg_" + BareId(ctx.responseId), "rs_" + BareId(ctx.responseId);
    match body
    case OutputItemAdded(Message(id, status, parts), _) => id == message && status == "in_progress" && parts == []
    case OutputItemAdded(Reasoning(id, content, summary, encrypted), _) =>
      id == reasoning && content.None? && summary == Some(Array([])) && encrypted.None?
    case OutputItemDone(Message(id, status, _), _) => id == message && status == "completed"
    case OutputItemDone(Reasoning(id, content, _, _), _) => id == reasoning && content.None?
    case ContentPartAdded(id, _, part) => id == message && part == OutputText("")
    case OutputTextDelta(id, _, _) => id == message
    case OutputTextDone(id, _, _) => id == message
    case ContentPartDone(id, _, _) => id == message
    case SummaryPartAdded(id, _) => id == reasoning
    case SummaryPartDone(id, _) => id == reasoning
    case ReasoningTextDelta(id, _, _) => id == reasoning
    case ReasoningTextDone(id, _, _) => id == reasoning
    case SummaryTextDelta(id, _, _) => id == reasoning
    case SummaryTextDone(id, _, _) => id == reasoning
    case _ => false
  }

  ghost predicate IsOfTool(ctx: Context, tools: seq<ToolAccum>, body: EventBody) {
    && body.HasIndex()
    && exists i :: 0 <= i < |tools| && tools[i].outputIndex == body.outputIndex && IsOfCall(ctx, tools[i], body)
  }

  /** What the opening events carry. */
  function Opening(ctx: Context): Response {
    Response(ctx.responseId, "in_progress", [], Usage(0, None, 0, None, 0), ctx.model, ctx.params, None, None)
  }

  /**
   * What may follow a log: the opening pair at its very start, and otherwise a terminal event or one of the
   * response's message or reasoning, or of the tool at its index.
   */
  ghost predicate MayFollow(ctx: Context, tools: seq<ToolAccum>, before: Log, body: EventBody) {
    && (body.Created? ==> before.Empty? && body.response == Opening(ctx))
    && (body.InProgress? ==>
          && before.After? && before.before.Empty? && before.last.body.Created?
          && body.response == Opening(ctx))
    && (body.HasIndex() ==> IsOfResponse(ctx, body) || IsOfTool(ctx, tools, body))
  }

  ghost predicate Labelled(ctx: Context, tools: seq<ToolAccum>, log: Log) {
    log.After? ==> Labelled(ctx, tools, log.before) && MayFollow(ctx, tools, log.before, log.last.body)
  }

  // ---- no step mislabels ----

  /** The same calls at the same indices, and perhaps more. */
  ghost predicate Keeps(tools: seq<ToolAccum>, more: seq<ToolAccum>) {
    && |tools| <= |more|
    && forall i :: 0 <= i < |tools| ==>
         && more[i].outputIndex == tools[i].outputIndex
         && more[i].callId == tools[i].callId && more[i].name == tools[i].name
  }

  lemma {:induction false} LabelledStays(ctx: Context, tools: seq<ToolAccum>, more: seq<ToolAccum>, log: Log)
    requires Keeps(tools, more) && Labelled(ctx, tools, log)
    ensures Labelled(ctx, more, log)
  {
    if log.After? {
      LabelledStays(ctx, tools, more, log.before);
      var body := log.last.body;
      if IsOfTool(ctx, tools, body) {
        var i :| 0 <= i < |tools| && tools[i].outputIndex == body.outputIndex && IsOfCall(ctx, tools[i], body);
        assert IsOfCall(ctx, more[i], body);
      }
    }
  }

  lemma {:induction false} EmitOfResponse(ctx: Context, s: State, body: EventBody)
    requires Labelled(ctx, s.tools, s.log) && (body.IsTerminal() || IsOfResponse(ctx, body))
    ensures Labelled(ctx, s.tools, Emit(s, body).log) && Emit(s, body).tools == s.tools
  {
  }

  lemma {:induction false} EmitOfCall(ctx: Context, s: State, tools: seq<ToolAccum>, i: nat, body: EventBody)
    requires Labelled(ctx, tools, s.log) && i < |tools| && body.HasIndex()
    requires tools[i].outputIndex == body.outputIndex && IsOfCall(ctx, tools[i], body)
    ensures Labelled(ctx, tools, Emit(s, body).log)
  {
    assert IsOfTool(ctx, tools, body);
  }

  /** Either nothing was sent yet, or the opening pair was. */
  predicate Begun(s: State) { s.started || s.log.Empty? }

  lemma {:induction false} StartedLabels(ctx: Context, s: State)
    requires Labelled(ctx, s.tools, s.log) && Begun(s)
    ensures var r := EnsureStarted(ctx, s); Labelled(ctx, r.tools, r.log) && r.tools == s.tools && r.started
  {
  }

  lemma {:induction false} OpensStarted(ctx: Context, s: State)
    ensures EnsureMessage(ctx, s).started == s.started && EnsureReasoning(ctx, s).started == s.started
  {
  }

  lemma {:induction false} ReasoningStarted(ctx: Context, s: State)
    ensures CloseReasoning(ctx, s).started == s.started
  {
  }

  lemma {:induction false} CloseStarted(ctx: Context, s: State)
    ensures CloseItems(ctx, s).started == s.started
  {
    var c := CloseMessage(ctx, s);
    assert c.started == s.started;
    ReasoningStarted(ctx, c);
  }

  lemma {:induction false} TextStarted(ctx: Context, s: State, text: string)
    ensures SendText(ctx, EnsureMessage(ctx, CloseReasoning(ctx, s)), text).started == s.started
  {
    ReasoningStarted(ctx, s);
    OpensStarted(ctx, CloseReasoning(ctx, s));
  }

  lemma {:induction false} DeltaStarted(ctx: Context, s: State, block: int, delta: Delta)
    ensures MapDelta(ctx, s, block, delta).started == s.started
  {
    if delta.TextDelta? {
      TextStarted(ctx, s, delta.text);
    } else {
      OpensStarted(ctx, s);
    }
  }

  lemma {:induction false} BodyStarted(ctx: Context, s: State, event: BedrockEvent)
    ensures MapBody(ctx, s, event).started == s.started
  {
    match event
    case BlockStart(block, tool) => CloseStarted(ctx, s);
    case BlockDelta(block, delta) =>
      if delta.Some? {
        DeltaStarted(ctx, s, block, delta.value);
      }
    case MessageStop(reason) => CloseStarted(ctx, s.(stopReason := Some(reason)));
    case _ =>
  }

  lemma {:induction false} FinishFinalizes(ctx: Context, s: State)
    ensures Finish(ctx, s).finalized
  {
  }

  lemma {:induction false} EnsureReasoningLabels(ctx: Context, s: State)
    requires Labelled(ctx, s.tools, s.log)
    ensures var r := EnsureReasoning(ctx, s); Labelled(ctx, r.tools, r.log) && r.tools == s.tools
  {
    if !s.reasoningOpen {
      var id := ReasoningId(ctx.responseId);
      var o := s.(reasoningOpen := true, reasoningIndex := s.nextIndex, nextIndex := s.nextIndex + 1);
      var added := OutputItemAdded(Reasoning(id, None, Some(Array([])), None), o.reasoningIndex);
      EmitOfResponse(ctx, o, added);
      EmitOfResponse(ctx, Emit(o, added), SummaryPartAdded(id, o.reasoningIndex));
    }
  }

  lemma {:induction false} EnsureMessageLabels(ctx: Context, s: State)
    requires Labelled(ctx, s.tools, s.log)
    ensures var r := EnsureMessage(ctx, s); Labelled(ctx, r.tools, r.log) && r.tools == s.tools
  {
    if !s.messageOpen {
      var id := MessageId(ctx.responseId);
      var o := s.(messageOpen := true, messageIndex := s.nextIndex, nextIndex := s.nextIndex + 1);
      var added := OutputItemAdded(Message(id, "in_progress", []), o.messageIndex);
      EmitOfResponse(ctx, o, added);
      EmitOfResponse(ctx, Emit(o, added), ContentPartAdded(id, o.messageIndex, OutputText("")));
    }
  }

  lemma {:induction false} ReasoningTextLabels(ctx: Context, s: State)
    requires Labelled(ctx, s.tools, s.log)
    ensures var r := FinishReasoningText(ctx, s); Labelled(ctx, r.tools, r.log) && r.tools == s.tools
  {
    var done := ReasoningTextDone(ReasoningId(ctx.responseId), s.reasoningIndex, s.reasoningText);
    EmitOfResponse(ctx, s, done);
    EmitOfResponse(ctx, Emit(s, done),
                   SummaryTextDone(ReasoningId(ctx.responseId), s.reasoningIndex, s.reasoningText));
  }

  lemma {:induction false} ReasoningItemLabels(ctx: Context, s: State)
    requires Labelled(ctx, s.tools, s.log)
    ensures var r := FinishReasoningItem(ctx, s); Labelled(ctx, r.tools, r.log) && r.tools == s.tools
  {
    var k := s.reasoningIndex;
    var part := SummaryPartDone(ReasoningId(ctx.responseId), k);
    EmitOfResponse(ctx, s, part);
    EmitOfResponse(ctx, Emit(s, part), OutputItemDone(FinishedReasoning(ctx, s), k));
  }

  lemma {:induction false} CloseReasoningLabels(ctx: Context, s: State)
    requires Labelled(ctx, s.tools, s.log)
    ensures var r := CloseReasoning(ctx, s); Labelled(ctx, r.tools, r.log) && r.tools == s.tools
  {
    if s.reasoningOpen {
      var c := s.(reasoningOpen := false);
      ReasoningTextLabels(ctx, c);
      ReasoningItemLabels(ctx, FinishReasoningText(ctx, c));
    }
  }

  lemma {:induction false} CloseMessageLabels(ctx: Context, s: State)
    requires Labelled(ctx, s.tools, s.log)
    ensures var r := CloseMessage(ctx, s); Labelled(ctx, r.tools, r.log) && r.tools == s.tools
  {
    if s.messageOpen {
      var id, k, part := MessageId(ctx.responseId), s.messageIndex, OutputText(s.messageText);
      var a := Emit(s.(messageOpen := false), OutputTextDone(id, k, s.messageText));
      EmitOfResponse(ctx, s.(messageOpen := false), OutputTextDone(id, k, s.messageText));
      EmitOfResponse(ctx, a, ContentPartDone(id, k, part));
      EmitOfResponse(ctx, Emit(a, ContentPartDone(id, k, part)), OutputItemDone(Message(id, "completed", [part]), k));
    }
  }

  lemma {:induction false} CloseItemsLabels(ctx: Context, s: State)
    requires Labelled(ctx, s.tools, s.log)
    ensures var r := CloseItems(ctx, s); Labelled(ctx, r.tools, r.log) && r.tools == s.tools
  {
    CloseMessageLabels(ctx, s);
    CloseReasoningLabels(ctx, CloseMessage(ctx, s));
  }

  /** The item shown for a tool is its call's, with the status of its stage. */
  lemma {:induction false} ToolItemIsOfCall(ctx: Context, t: ToolAccum, status: Option<string>)
    ensures var item, kind := ToolItem(ctx, t, status), KindOf(ctx.registry, t.name);
            && IsItemOf(ctx.registry, t.callId, t.name, item)
            && DoesWhatIsAsked(ctx.registry, t.name, ParsedInput(ctx, t), NormalizedArguments(t), item)
            && ShowsStatus(item, kind, if kind == Function then status else Some(status.GetOr("in_progress")))
  {
    var kind := KindOf(ctx.registry, t.name);
    var shown := if status.None? && (kind == Shell || kind == ApplyPatch) then Some("in_progress") else status;
    ToolItemCarries(ctx.registry, t.callId, t.name, ParsedInput(ctx, t), NormalizedArguments(t), shown);
  }

  lemma {:induction false} StartLabels(ctx: Context, s: State, block: int, start: ToolStart)
    requires Labelled(ctx, s.tools, s.log)
    ensures var r := StartTool(ctx, s, block, start); Labelled(ctx, r.tools, r.log)
  {
    var t, a := StartToolIs(ctx, s, block, start);
    var n, more := s.(nextIndex := s.nextIndex + 1), s.tools + [t];
    LabelledStays(ctx, s.tools, more, s.log);
    assert more[|s.tools|] == t;
    if !IsLate(KindOf(ctx.registry, t.name)) {
      ToolItemIsOfCall(ctx, t, None);
      EmitOfCall(ctx, n, more, |s.tools|, OutputItemAdded(ToolItem(ctx, t, None), t.outputIndex));
    }
  }

  lemma {:induction false} InputLabels(ctx: Context, s: State, block: int, fragment: string)
    requires Labelled(ctx, s.tools, s.log)
    ensures var r := AppendArguments(ctx, s, block, fragment); Labelled(ctx, r.tools, r.log)
  {
    var p := ToolPosition(s.tools, block);
    if p.Some? {
      var t := s.tools[p.value].(arguments := s.tools[p.value].arguments + fragment);
      var u := s.(tools := s.tools[p.value := t]);
      LabelledStays(ctx, s.tools, u.tools, s.log);
      if KindOf(ctx.registry, t.name) == Function {
        EmitOfCall(ctx, u, u.tools, p.value, ArgumentsDelta("fc_" + t.callId, t.outputIndex, fragment));
      }
    }
  }

  lemma {:induction false} BlockStopLabels(ctx: Context, s: State, block: int)
    requires Labelled(ctx, s.tools, s.log)
    ensures var r := CloseToolBlock(s, block); Labelled(ctx, r.tools, r.log)
  {
    LabelledStays(ctx, s.tools, CloseToolBlock(s, block).tools, s.log);
  }

  lemma {:induction false} TextLabels(ctx: Context, s: State, text: string)
    requires Labelled(ctx, s.tools, s.log)
    ensures var r := SendText(ctx, s, text); Labelled(ctx, r.tools, r.log) && r.tools == s.tools
  {
    EmitOfResponse(ctx, s.(messageText := s.messageText + text),
                   OutputTextDelta(MessageId(ctx.responseId), s.messageIndex, text));
  }

  lemma {:induction false} ReasoningLabels(ctx: Context, s: State, block: int, text: string)
    requires Labelled(ctx, s.tools, s.log)
    ensures var r := SendReasoning(ctx, s, block, text); Labelled(ctx, r.tools, r.log) && r.tools == s.tools
  {
    var id := ReasoningId(ctx.responseId);
    var u := s.(reasoningText := s.reasoningText + text,
                reasoningByBlock := Touch(s.reasoningByBlock, block, AddText(text)));
    EmitOfResponse(ctx, u, ReasoningTextDelta(id, s.reasoningIndex, text));
    EmitOfResponse(ctx, Emit(u, ReasoningTextDelta(id, s.reasoningIndex, text)),
                   SummaryTextDelta(id, s.reasoningIndex, text));
  }

  lemma {:induction false} DeltaLabels(ctx: Context, s: State, block: int, delta: Delta)
    requires Labelled(ctx, s.tools, s.log)
    ensures var r := MapDelta(ctx, s, block, delta); Labelled(ctx, r.tools, r.log)
  {
    match delta
    case TextDelta(text) =>
      CloseReasoningLabels(ctx, s);
      EnsureMessageLabels(ctx, CloseReasoning(ctx, s));
      TextLabels(ctx, EnsureMessage(ctx, CloseReasoning(ctx, s)), text);
    case ReasoningDelta(text) =>
      EnsureReasoningLabels(ctx, s);
      ReasoningLabels(ctx, EnsureReasoning(ctx, s), block, text);
    case ToolInputDelta(fragment) => InputLabels(ctx, s, block, fragment);
    case _ => EnsureReasoningLabels(ctx, s);
  }

  lemma {:induction false} BodyLabels(ctx: Context, s: State, event: BedrockEvent)
    requires Labelled(ctx, s.tools, s.log)
    ensures var r := MapBody(ctx, s, event); Labelled(ctx, r.tools, r.log)
  {
    match event
    case BlockStart(block, tool) =>
      if tool.Some? {
        CloseItemsLabels(ctx, s);
        StartLabels(ctx, CloseItems(ctx, s), block, tool.value);
      }
    case BlockDelta(block, delta) =>
      if delta.Some? {
        DeltaLabels(ctx, s, block, delta.value);
      }
    case BlockStop(block) => BlockStopLabels(ctx, s, block);
    case MessageStop(reason) => CloseItemsLabels(ctx, s.(stopReason := Some(reason)));
    case _ =>
  }

  lemma {:induction false} ClosingIsOfCall(ctx: Context, t: ToolAccum)
    ensures IsOfCall(ctx, t, ToolClosing(ctx, t)) && ToolClosing(ctx, t).HasIndex()
    ensures ToolClosing(ctx, t).outputIndex == t.outputIndex
  {
    ToolItemIsOfCall(ctx, t, Some("in_progress"));
  }

  lemma {:induction false} FinalizeToolLabels(ctx: Context, s: State, pos: nat)
    requires Labelled(ctx, s.tools, s.log) && pos < |s.tools|
    ensures var r := FinalizeTool(ctx, s, pos); Labelled(ctx, r.tools, r.log)
  {
    var t := s.tools[pos].(doneEmitted := true);
    var d := s.(tools := s.tools[pos := t]);
    LabelledStays(ctx, s.tools, d.tools, s.log);
    ClosingIsOfCall(ctx, t);
    ToolItemIsOfCall(ctx, t, Some("completed"));
    EmitOfCall(ctx, d, d.tools, pos, ToolClosing(ctx, t));
    EmitOfCall(ctx, Emit(d, ToolClosing(ctx, t)), d.tools, pos,
               OutputItemDone(ToolItem(ctx, t, Some("completed")), t.outputIndex));
  }

  lemma {:induction false} FinalizeToolsLabels(ctx: Context, s: State, pos: nat)
    requires Labelled(ctx, s.tools, s.log)
    ensures var r := FinalizeTools(ctx, s, pos); Labelled(ctx, r.tools, r.log)
    decreases |s.tools| - pos
  {
    if pos < |s.tools| {
      if s.tools[pos].doneEmitted {
        FinalizeToolsLabels(ctx, s, pos + 1);
      } else {
        FinalizeToolLabels(ctx, s, pos);
        FinalizeToolsLabels(ctx, FinalizeTool(ctx, s, pos), pos + 1);
      }
    }
  }

  lemma {:induction false} FailLabels(ctx: Context, s: State, error: ErrorBody)
    requires Labelled(ctx, s.tools, s.log)
    ensures var r := Fail(ctx, s, error); Labelled(ctx, r.tools, r.log)
  {
  }

  lemma {:induction false} ConcludeLabels(ctx: Context, s: State)
    requires Labelled(ctx, s.tools, s.log)
    ensures var r := Conclude(ctx, s); Labelled(ctx, r.tools, r.log)
  {
  }

  lemma {:induction false} SettleLabels(ctx: Context, s: State)
    requires Labelled(ctx, s.tools, s.log)
    ensures var r := Settle(ctx, s); Labelled(ctx, r.tools, r.log)
  {
    var c := CloseItems(ctx, s);
    CloseItemsLabels(ctx, s);
    if IsIncompleteStop(c) {
      ConcludeLabels(ctx, c);
    } else if AllToolsReady(ctx, c.tools) {
      FinalizeToolsLabels(ctx, c, 0);
      ConcludeLabels(ctx, FinalizeTools(ctx, c, 0));
    } else {
      FailLabels(ctx, c, ctx.lib.malformedArguments);
    }
  }

  lemma {:induction false} FinishLabels(ctx: Context, s: State)
    requires Labelled(ctx, s.tools, s.log)
    ensures var r := Finish(ctx, s); Labelled(ctx, r.tools, r.log)
  {
    SettleLabels(ctx, s);
  }

  lemma {:induction false} EventLabels(ctx: Context, s: State, event: BedrockEvent)
    requires Labelled(ctx, s.tools, s.log) && Begun(s)
    ensures var r := MapAndTally(ctx, s, event); Labelled(ctx, r.tools, r.log) && r.started
  {
    StartedLabels(ctx, s);
    BodyLabels(ctx, EnsureStarted(ctx, s), event);
    BodyStarted(ctx, EnsureStarted(ctx, s), event);
  }

  lemma {:induction false} FeedLabels(ctx: Context, s: State, events: seq<BedrockEvent>)
    requires Labelled(ctx, s.tools, s.log) && Begun(s)
    ensures var r := Feed(ctx, s, events); Labelled(ctx, r.tools, r.log)
    decreases |events|
  {
    if events != [] && !s.finalized {
      var m := MapAndTally(ctx, s, events[0]);
      EventLabels(ctx, s, events[0]);
      if events[0].Metadata? {
        FinishLabels(ctx, m);
        FinishFinalizes(ctx, m);
        assert Feed(ctx, Finish(ctx, m), events[1..]) == Finish(ctx, m);
      } else {
        FeedLabels(ctx, m, events[1..]);
      }
    }
  }

  lemma {:induction false} StopLabels(ctx: Context, s: State, ending: Ending)
    requires Labelled(ctx, s.tools, s.log)
    ensures var r := Stop(ctx, s, ending); Labelled(ctx, r.tools, r.log)
  {
    match ending
    case Eof => FinishLabels(ctx, s);
    case ReceiverError(error) => FailLabels(ctx, s, error);
    case IdleTimeout => FailLabels(ctx, s, ctx.lib.idleTimeout);
  }

  lemma {:induction false} RunLabels(ctx: Context, events: seq<BedrockEvent>, ending: Ending)
    ensures var r := Run(ctx, events, ending); Labelled(ctx, r.tools, r.log)
  {
    FeedLabels(ctx, INITIAL, events);
    StopLabels(ctx, Feed(ctx, INITIAL, events), ending);
  }

  /** Each event of an index is of the response's own items, or of the one call that has the index. */
  ghost predicate OfItsCall(ctx: Context, calls: seq<ToolAccum>, tools: seq<ToolAccum>, events: seq<StreamEvent>) {
    && |calls| == |tools|
    && (forall i, j :: 0 <= i < j < |tools| ==> tools[i].outputIndex < tools[j].outputIndex)
    && forall sent <- events :: sent.body.HasIndex() ==>
         || IsOfResponse(ctx, sent.body)
         || exists i :: 0 <= i < |calls| && tools[i].outputIndex == sent.body.outputIndex
                        && IsOfCall(ctx, calls[i], sent.body)
  }

  /**
   * In every run each event of an output index is of the response's message or reasoning, or of the one tool at that
   * index; the tools are, one by one, the calls that the upstream events tell of.
   */
  lemma {:induction false} ToolEventsAreTheirCalls(ctx: Context, events: seq<BedrockEvent>, ending: Ending)
    ensures var r := Run(ctx, events, ending); OfItsCall(ctx, CallsIn(events, []), r.tools, r.log.Events())
  {
    var r := Run(ctx, events, ending);
    RunLabels(ctx, events, ending);
    RunReads(ctx, events, ending);
    RunEnds(ctx, events, ending);
    SentIsLabelled(ctx, r.tools, r.log);
    forall sent <- r.log.Events() | IsOfTool(ctx, r.tools, sent.body)
      ensures exists i :: 0 <= i < |r.tools| && r.tools[i].outputIndex == sent.body.outputIndex
                          && IsOfCall(ctx, Bares(r.tools)[i], sent.body)
    {
      OfBareCall(ctx, r.tools, sent.body);
    }
  }

  /** Whose an event is does not depend on where the machine keeps the call. */
  lemma {:induction false} OfBareCall(ctx: Context, tools: seq<ToolAccum>, body: EventBody)
    requires IsOfTool(ctx, tools, body)
    ensures exists i :: 0 <= i < |tools| && tools[i].outputIndex == body.outputIndex
                        && IsOfCall(ctx, Bares(tools)[i], body)
  {
    var i :| 0 <= i < |tools| && tools[i].outputIndex == body.outputIndex && IsOfCall(ctx, tools[i], body);
    assert IsOfCall(ctx, Bares(tools)[i], body);
  }

  lemma {:induction false} SentIsLabelled(ctx: Context, tools: seq<ToolAccum>, log: Log)
    requires Labelled(ctx, tools, log)
    ensures forall sent <- log.Events() :: sent.body.HasIndex() ==>
              IsOfResponse(ctx, sent.body) || IsOfTool(ctx, tools, sent.body)
  {
    if log.After? {
      SentIsLabelled(ctx, tools, log.before);
    }
  }

  // ---- one id for each index ----

  datatype Family = OfMessage | OfReasoning | OfFunction | OfOther

  function FamilyOfItem(item: OutputItem): Family {
    match item
    case Message(_, _, _) => OfMessage
    case Reasoning(_, _, _, _) => OfReasoning
    case FunctionCall(_, _, _, _, _, _) => OfFunction
    case Other(_, _) => OfOther
  }

  function FamilyOf(body: EventBody): Family
    requires body.HasIndex()
  {
    match body
    case OutputItemAdded(item, _) => FamilyOfItem(item)
    case OutputItemDone(item, _) => FamilyOfItem(item)
    case ContentPartAdded(_, _, _) => OfMessage
    case OutputTextDelta(_, _, _) => OfMessage
    case OutputTextDone(_, _, _) => OfMessage
    case ContentPartDone(_, _, _) => OfMessage
    case ArgumentsDelta(_, _, _) => OfFunction
    case ArgumentsDone(_, _, _, _) => OfFunction
    case CustomInputDone(_, _, _) => OfOther
    case _ => OfReasoning
  }

  /** The family of the item that is on its way in a phase. */
  predicate OnItsWay(phase: Phase, family: Family) {
    match phase
    case MessageAdded => family == OfMessage
    case MessageStreaming => family == OfMessage
    case MessageTextDone => family == OfMessage
    case MessagePartDone => family == OfMessage
    case ReasoningAdded => family == OfReasoning
    case ReasoningStreaming => family == OfReasoning
    case ReasoningEcho(_) => family == OfReasoning
    case ReasoningTextClosed(_) => family == OfReasoning
    case ReasoningSummaryClosed => family == OfReasoning
    case ReasoningPartDone => family == OfReasoning
    case CallStreaming => family == OfFunction
    case CallArgumentsDone => family == OfFunction
    case CustomAdded => family == OfOther
    case CustomInputClosed => family == OfOther
    case LateAdded => family == OfOther
    case _ => false
  }

  /** An item's protocol is followed by events of its family only. */
  lemma {:induction false} AdvanceFits(phase: Phase, body: EventBody)
    requires body.HasIndex() && Advance(phase, body) != Broken
    ensures phase == Absent ==> body.OutputItemAdded? && OnItsWay(Advance(phase, body), FamilyOf(body))
    ensures phase != Absent ==>
              && !body.OutputItemAdded? && OnItsWay(phase, FamilyOf(body))
              && (Advance(phase, body) == Complete || OnItsWay(Advance(phase, body), FamilyOf(body)))
  {
  }

  lemma {:induction false} OneFamily(phase: Phase, a: Family, b: Family)
    requires OnItsWay(phase, a) && OnItsWay(phase, b)
    ensures a == b
  {
  }

  /** The item that was added at an output index. */
  function AddedAt(log: Log, k: nat): Option<OutputItem> {
    if log.Empty? then None
    else if AddedAt(log.before, k).Some? then AddedAt(log.before, k)
    else if log.last.body.OutputItemAdded? && log.last.body.outputIndex == k then Some(log.last.body.item)
    else None
  }

  lemma {:induction false} PhaseTellsFamily(log: Log, k: nat)
    requires PhaseOf(log, k) != Broken
    ensures PhaseOf(log, k) == Absent <==> AddedAt(log, k).None?
    ensures PhaseOf(log, k) !in {Absent, Complete} ==> OnItsWay(PhaseOf(log, k), FamilyOfItem(AddedAt(log, k).value))
  {
    if log.After? {
      var phase, body := PhaseOf(log.before, k), log.last.body;
      PhaseTellsFamily(log.before, k);
      if body.HasIndex() && body.outputIndex == k {
        AdvanceFits(phase, body);
        if phase != Absent {
          OneFamily(phase, FamilyOf(body), FamilyOfItem(AddedAt(log.before, k).value));
        }
      }
    }
  }

  function IdOfItem(item: OutputItem): Option<string> {
    match item
    case Message(id, _, _) => Some(id)
    case Reasoning(id, _, _, _) => Some(id)
    case FunctionCall(itemId, _, _, _, _, _) => itemId
    case Other(_, fields) => Object(fields).GetString("id")
  }

  /** The id that an event of an output index names its item by. */
  function IdOf(body: EventBody): Option<string>
    requires body.HasIndex()
  {
    if body.OutputItemAdded? || body.OutputItemDone? then IdOfItem(body.item) else Some(body.itemId)
  }

  /** The same item, whatever has become of it: id, and of a call its wire type, `call_id`, name and namespace. */
  predicate SameItem(a: OutputItem, b: OutputItem) {
    && IdOfItem(a) == IdOfItem(b)
    && match a
       case Message(_, _, _) => b.Message?
       case Reasoning(_, _, _, _) => b.Reasoning?
       case FunctionCall(_, callId, name, namespace, _, _) =>
         b.FunctionCall? && b.callId == callId && b.name == name && b.namespace == namespace
       case Other(itemType, fields) =>
         && b.Other? && b.itemType == itemType && Object(fields).Get("call_id") == Object(b.fields).Get("call_id")
         && (itemType == "custom_tool_call" ==> Object(fields).Get("name") == Object(b.fields).Get("name"))
  }

  /** Every event of an output index but the first names the item that was added there. */
  ghost predicate NamesItsItem(before: Log, body: EventBody) {
    body.HasIndex() && !body.OutputItemAdded? ==>
      var added := AddedAt(before, body.outputIndex);
      && added.Some? && IdOf(body).Some? && IdOf(body) == IdOfItem(added.value)
      && (body.OutputItemDone? ==> SameItem(added.value, body.item))
  }

  ghost predicate OneItemEach(log: Log) {
    log.After? ==> OneItemEach(log.before) && NamesItsItem(log.before, log.last.body)
  }

  lemma {:induction false} AddedIsLabelled(ctx: Context, tools: seq<ToolAccum>, log: Log, k: nat)
    requires Labelled(ctx, tools, log) && AddedAt(log, k).Some?
    ensures var body := OutputItemAdded(AddedAt(log, k).value, k);
            IsOfResponse(ctx, body) || IsOfTool(ctx, tools, body)
  {
    if AddedAt(log.before, k).Some? {
      AddedIsLabelled(ctx, tools, log.before, k);
    }
  }

  lemma {:induction false} SameOfResponse(ctx: Context, item: OutputItem, body: EventBody)
    requires body.HasIndex() && FamilyOf(body) == FamilyOfItem(item)
    requires IsOfResponse(ctx, OutputItemAdded(item, body.outputIndex)) && IsOfResponse(ctx, body)
    ensures IdOf(body).Some? && IdOf(body) == IdOfItem(item) && (body.OutputItemDone? ==> SameItem(item, body.item))
  {
  }

  lemma {:induction false} SameOfCall(ctx: Context, t: ToolAccum, item: OutputItem, body: EventBody)
    requires body.HasIndex() && IsOfCall(ctx, t, OutputItemAdded(item, body.outputIndex)) && IsOfCall(ctx, t, body)
    ensures IdOf(body).Some? && IdOf(body) == IdOfItem(item) && (body.OutputItemDone? ==> SameItem(item, body.item))
  {
  }

  lemma {:induction false} FamilyTellsWhose(ctx: Context, tools: seq<ToolAccum>, body: EventBody)
    requires body.HasIndex()
    ensures IsOfResponse(ctx, body) ==> FamilyOf(body) in {OfMessage, OfReasoning}
    ensures IsOfTool(ctx, tools, body) ==> FamilyOf(body) in {OfFunction, OfOther}
  {
  }

  lemma {:induction false} LabelledNames(ctx: Context, tools: seq<ToolAccum>, before: Log, body: EventBody, k: nat)
    requires Labelled(ctx, tools, before) && MayFollow(ctx, tools, before, body)
    requires forall i, j :: 0 <= i < j < |tools| ==> tools[i].outputIndex < tools[j].outputIndex
    requires body.HasIndex() && body.outputIndex == k && !body.OutputItemAdded?
    requires PhaseOf(before, k) != Broken && Advance(PhaseOf(before, k), body) != Broken
    ensures NamesItsItem(before, body)
  {
    AdvanceFits(PhaseOf(before, k), body);
    PhaseTellsFamily(before, k);
    var item := AddedAt(before, k).value;
    OneFamily(PhaseOf(before, k), FamilyOf(body), FamilyOfItem(item));
    AddedIsLabelled(ctx, tools, before, k);
    FamilyTellsWhose(ctx, tools, body);
    FamilyTellsWhose(ctx, tools, OutputItemAdded(item, k));
    if IsOfResponse(ctx, body) {
      SameOfResponse(ctx, item, body);
    } else {
      var i :| 0 <= i < |tools| && tools[i].outputIndex == k && IsOfCall(ctx, tools[i], body);
      var j :| 0 <= j < |tools| && tools[j].outputIndex == k && IsOfCall(ctx, tools[j], OutputItemAdded(item, k));
      assert i == j;
      SameOfCall(ctx, tools[i], item, body);
    }
  }

  lemma {:induction false} LogNames(ctx: Context, tools: seq<ToolAccum>, log: Log)
    requires Labelled(ctx, tools, log) && forall k :: PhaseOf(log, k) != Broken
    requires forall i, j :: 0 <= i < j < |tools| ==> tools[i].outputIndex < tools[j].outputIndex
    ensures OneItemEach(log)
  {
    if log.After? {
      forall k ensures PhaseOf(log.before, k) != Broken {
        BrokenStays(log, log.before, k);
      }
      LogNames(ctx, tools, log.before);
      var body := log.last.body;
      if body.HasIndex() && !body.OutputItemAdded? {
        assert PhaseOf(log, body.outputIndex) != Broken;
        LabelledNames(ctx, tools, log.before, body, body.outputIndex);
      }
    }
  }

  /** In every run, whatever is sent for an output index names the one item that was added there. */
  lemma {:induction false} EachIndexHasOneItem(ctx: Context, events: seq<BedrockEvent>, ending: Ending)
    ensures OneItemEach(Run(ctx, events, ending).log)
  {
    var r := Run(ctx, events, ending);
    RunLabels(ctx, events, ending);
    RunEnds(ctx, events, ending);
    forall k ensures PhaseOf(r.log, k) != Broken {
      PlacedIsNotBroken(ctx, r, k);
    }
    LogNames(ctx, r.tools, r.log);
  }

  // ---- the opening pair ----

  lemma {:induction false} ExtendsThrough(a: Log, b: Log, c: Log)
    requires Extends(a, b) && Extends(b, c)
    ensures Extends(a, c)
  {
    if a != b {
      ExtendsThrough(a.before, b, c);
    }
  }

  lemma {:induction false} FeedExtends(ctx: Context, s: State, events: seq<BedrockEvent>)
    ensures Extends(Feed(ctx, s, events).log, s.log)
    decreases |events|
  {
    if events != [] && !s.finalized {
      var n := MapEvent(ctx, s, events[0]);
      EventExtends(ctx, s, events[0]);
      FeedExtends(ctx, n, events[1..]);
      ExtendsThrough(Feed(ctx, n, events[1..]).log, n.log, s.log);
    }
  }

  lemma {:induction false} FinishExtends(ctx: Context, s: State)
    ensures Extends(Finish(ctx, s).log, s.log)
  {
    assert OnlyEmits(s, Settle(ctx, s));
  }

  lemma {:induction false} EventExtends(ctx: Context, s: State, event: BedrockEvent)
    ensures Extends(MapEvent(ctx, s, event).log, EnsureStarted(ctx, s).log) || s.finalized
    ensures Extends(MapEvent(ctx, s, event).log, s.log)
  {
    var o, m := EnsureStarted(ctx, s), MapAndTally(ctx, s, event);
    assert OnlyEmits(s, o) && OnlyEmits(o, MapBody(ctx, o, event));
    assert Extends(m.log, o.log);
    FinishExtends(ctx, m);
    ExtendsThrough(Finish(ctx, m).log, m.log, o.log);
    ExtendsThrough(Finish(ctx, m).log, o.log, s.log);
  }

  /** The opening pair as a log. */
  function OpeningLog(ctx: Context): Log {
    After(After(Empty, StreamEvent(0, Created(Opening(ctx)))), StreamEvent(1, InProgress(Opening(ctx))))
  }

  lemma {:induction false} StopExtends(ctx: Context, s: State, ending: Ending)
    ensures Extends(Stop(ctx, s, ending).log, s.log)
  {
    FinishExtends(ctx, s);
  }

  lemma {:induction false} RunOpens(ctx: Context, events: seq<BedrockEvent>, ending: Ending)
    requires events != []
    ensures Extends(Run(ctx, events, ending).log, OpeningLog(ctx))
  {
    var n, fed := MapEvent(ctx, INITIAL, events[0]), Feed(ctx, INITIAL, events);
    EventExtends(ctx, INITIAL, events[0]);
    assert EnsureStarted(ctx, INITIAL).log == OpeningLog(ctx);
    FeedExtends(ctx, n, events[1..]);
    ExtendsThrough(fed.log, n.log, OpeningLog(ctx));
    StopExtends(ctx, fed, ending);
    ExtendsThrough(Run(ctx, events, ending).log, fed.log, OpeningLog(ctx));
  }

  lemma {:induction false} OpeningIsFirst(ctx: Context, tools: seq<ToolAccum>, log: Log)
    requires Labelled(ctx, tools, log) && Extends(log, OpeningLog(ctx))
    ensures |log.Events()| >= 2 && log.Events()[0].body == Created(Opening(ctx))
    ensures log.Events()[1].body == InProgress(Opening(ctx))
    ensures forall i :: 1 < i < |log.Events()| ==> !log.Events()[i].body.Created? && !log.Events()[i].body.InProgress?
  {
    if log == OpeningLog(ctx) {
      var first, second := log.before.last, log.last;
      assert log.before.Events() == [] + [first];
      assert log.Events() == [first] + [second];
    } else {
      OpeningIsFirst(ctx, tools, log.before);
      var before := log.before.Events();
      assert log.before.After? && log.before.before.After?;
      assert log.Events() == before + [log.last];
    }
  }

  /** A run that is told anything opens with the pair, once, and each carries the bare skeleton of the response. */
  lemma {:induction false} RunOpensOnce(ctx: Context, events: seq<BedrockEvent>, ending: Ending)
    requires events != []
    ensures var sent := Run(ctx, events, ending).log.Events();
            var skeleton := Response(ctx.responseId, "in_progress", [], Usage(0, None, 0, None, 0), ctx.model,
                                     ctx.params, None, None);
            && |sent| >= 2 && sent[0].body == Created(skeleton) && sent[1].body == InProgress(skeleton)
            && forall i :: 1 < i < |sent| ==> !sent[i].body.Created? && !sent[i].body.InProgress?
  {
    var r := Run(ctx, events, ending);
    RunLabels(ctx, events, ending);
    RunOpens(ctx, events, ending);
    OpeningIsFirst(ctx, r.tools, r.log);
  }
}
