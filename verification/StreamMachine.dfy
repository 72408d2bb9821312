/**
 * The lifecycle machine as it runs: one object whose fields are updated in place and whose methods push
 * events into the caller's output vector. Every method is tied to the function of `StreamModel` that
 * specifies it; `log` is a ghost record of everything ever pushed.
 */
module StreamMachine {
  import opened Prelude
  import opened Json
  import opened ResponsesSchema
  import opened ToolRegistry
  import opened ConverseMapper
  import opened Trace
  import opened StreamModel

  /** The log after pushing `out` onto `base`. */
  function Joined(base: Log, out: seq<StreamEvent>): Log {
    if out == [] then base else After(Joined(base, out[..|out| - 1]), out[|out| - 1])
  }

  lemma {:induction false} JoinedEvents(base: Log, out: seq<StreamEvent>)
    ensures Joined(base, out).Events() == base.Events() + out
    ensures Joined(base, out).Length() == base.Length() + |out|
  {
    if out != [] {
      JoinedEvents(base, out[..|out| - 1]);
      assert out == out[..|out| - 1] + [out[|out| - 1]];
    }
  }

  lemma {:induction false} JoinedOne(base: Log, out: seq<StreamEvent>, e: StreamEvent)
    ensures Joined(base, out + [e]) == After(Joined(base, out), e)
  {
    assert (out + [e])[..|out|] == out;
  }

  class ResponsesStreamState {
    const ctx: Context

    var nextSeq: nat
    var nextIndex: nat
    var started: bool
    var reasoningOpen: bool
    var reasoningIndex: nat
    var reasoningText: string
    var reasoningByBlock: ReasoningByBlock
    var messageOpen: bool
    var messageIndex: nat
    var messageText: string
    var tools: seq<ToolAccum>
    var stopReason: Option<string>
    var usage: Option<BedrockUsage>
    var finalized: bool
    var counts: Counts
    ghost var log: Log

    /** The fields as a value of the model. */
    ghost function View(): State
      reads this
    {
      State(nextSeq, nextIndex, started, reasoningOpen, reasoningIndex, reasoningText, reasoningByBlock,
            messageOpen, messageIndex, messageText, tools, stopReason, usage, finalized, counts, log)
    }

    constructor (ctx: Context)
      ensures this.ctx == ctx && View() == INITIAL
    {
      this.ctx := ctx;
      nextSeq, nextIndex, started := 0, 0, false;
      reasoningOpen, reasoningIndex, reasoningText, reasoningByBlock := false, 0, "", [];
      messageOpen, messageIndex, messageText := false, 0, "";
      tools, stopReason, usage, finalized, counts, log := [], None, None, false, [], Empty;
    }

    /** Numbers an event and pushes it. */
    method Push(ghost base: Log, out: seq<StreamEvent>, body: EventBody) returns (pushed: seq<StreamEvent>)
      requires Joined(base, out) == log
      modifies this`nextSeq, this`log
      ensures View() == Emit(old(View()), body) && Joined(base, pushed) == log
    {
      var e := StreamEvent(nextSeq, body);
      JoinedOne(base, out, e);
      nextSeq := nextSeq + 1;
      log := After(log, e);
      pushed := out + [e];
    }

    method PushPair(ghost base: Log, out: seq<StreamEvent>, first: EventBody, second: EventBody)
      returns (pushed: seq<StreamEvent>)
      requires Joined(base, out) == log
      modifies this`nextSeq, this`log
      ensures View() == Emit(Emit(old(View()), first), second) && Joined(base, pushed) == log
    {
      pushed := Push(base, out, first);
      pushed := Push(base, pushed, second);
    }

    method EnsureStarted(ghost base: Log, out: seq<StreamEvent>) returns (pushed: seq<StreamEvent>)
      requires Joined(base, out) == log
      modifies this
      ensures View() == StreamModel.EnsureStarted(ctx, old(View())) && Joined(base, pushed) == log
    {
      pushed := out;
      if started {
        return;
      }
      started := true;
      pushed := PushPair(base, pushed, Created(Skeleton(ctx)), InProgress(Skeleton(ctx)));
    }

    method EnsureReasoningItem(ghost base: Log, out: seq<StreamEvent>) returns (pushed: seq<StreamEvent>)
      requires Joined(base, out) == log
      modifies this
      ensures View() == EnsureReasoning(ctx, old(View())) && Joined(base, pushed) == log
    {
      pushed := out;
      if reasoningOpen {
        return;
      }
      var id := ReasoningId(ctx.responseId);
      reasoningOpen := true;
      reasoningIndex := nextIndex;
      nextIndex := nextIndex + 1;
      pushed := PushPair(base, pushed, OutputItemAdded(Reasoning(id, None, Some(Array([])), None), reasoningIndex),
                         SummaryPartAdded(id, reasoningIndex));
    }

    method CloseReasoningItem(ghost base: Log, out: seq<StreamEvent>) returns (pushed: seq<StreamEvent>)
      requires Joined(base, out) == log
      modifies this
      ensures View() == CloseReasoning(ctx, old(View())) && Joined(base, pushed) == log
    {
      pushed := out;
      if !reasoningOpen {
        return;
      }
      var id := ReasoningId(ctx.responseId);
      reasoningOpen := false;
      if reasoningText != "" {
        pushed := PushPair(base, pushed, ReasoningTextDone(id, reasoningIndex, reasoningText),
                           SummaryTextDone(id, reasoningIndex, reasoningText));
      }
      var item := Reasoning(id, None, Some(SummaryOf(reasoningText)),
                            Envelope(ctx.lib, ReasoningBlocks(reasoningByBlock)));
      pushed := PushPair(base, pushed, SummaryPartDone(id, reasoningIndex), OutputItemDone(item, reasoningIndex));
    }

    method EnsureMessageItem(ghost base: Log, out: seq<StreamEvent>) returns (pushed: seq<StreamEvent>)
      requires Joined(base, out) == log
      modifies this
      ensures View() == EnsureMessage(ctx, old(View())) && Joined(base, pushed) == log
    {
      pushed := out;
      if messageOpen {
        return;
      }
      var id := MessageId(ctx.responseId);
      messageOpen := true;
      messageIndex := nextIndex;
      nextIndex := nextIndex + 1;
      pushed := PushPair(base, pushed, OutputItemAdded(Message(id, "in_progress", []), messageIndex),
                         ContentPartAdded(id, messageIndex, OutputText("")));
    }

    method CloseMessageItem(ghost base: Log, out: seq<StreamEvent>) returns (pushed: seq<StreamEvent>)
      requires Joined(base, out) == log
      modifies this
      ensures View() == CloseMessage(ctx, old(View())) && Joined(base, pushed) == log
    {
      pushed := out;
      if !messageOpen {
        return;
      }
      var id := MessageId(ctx.responseId);
      messageOpen := false;
      pushed := Push(base, pushed, OutputTextDone(id, messageIndex, messageText));
      var part := OutputText(messageText);
      pushed := Push(base, pushed, ContentPartDone(id, messageIndex, part));
      pushed := Push(base, pushed, OutputItemDone(Message(id, "completed", [part]), messageIndex));
    }

    method CloseOpenItems(ghost base: Log, out: seq<StreamEvent>) returns (pushed: seq<StreamEvent>)
      requires Joined(base, out) == log
      modifies this
      ensures View() == CloseItems(ctx, old(View())) && Joined(base, pushed) == log
    {
      pushed := CloseMessageItem(base, out);
      pushed := CloseReasoningItem(base, pushed);
    }

    /** A tool call starts; the late kinds are not shown yet. */
    method StartToolBlock(ghost base: Log, out: seq<StreamEvent>, block: int, start: ToolStart)
      returns (pushed: seq<StreamEvent>)
      requires Joined(base, out) == log
      modifies this
      ensures View() == StartTool(ctx, old(View()), block, start) && Joined(base, pushed) == log
    {
      pushed := out;
      var accum := ToolAccum(block, start.toolUseId, start.toolName, "", nextIndex, false, false);
      nextIndex := nextIndex + 1;
      if !IsLate(KindOf(ctx.registry, accum.name)) {
        pushed := Push(base, pushed, OutputItemAdded(ToolItem(ctx, accum, None), accum.outputIndex));
      }
      tools := tools + [accum];
    }

    method AppendToolInput(ghost base: Log, out: seq<StreamEvent>, block: int, fragment: string)
      returns (pushed: seq<StreamEvent>)
      requires Joined(base, out) == log
      modifies this
      ensures View() == AppendArguments(ctx, old(View()), block, fragment) && Joined(base, pushed) == log
    {
      pushed := out;
      var pos := ToolPosition(tools, block);
      if pos.Some? {
        var accum := tools[pos.value];
        accum := accum.(arguments := accum.arguments + fragment);
        tools := tools[pos.value := accum];
        if KindOf(ctx.registry, accum.name) == Function {
          pushed := Push(base, pushed, ArgumentsDelta("fc_" + accum.callId, accum.outputIndex, fragment));
        }
      }
    }

    method PushText(ghost base: Log, out: seq<StreamEvent>, text: string) returns (pushed: seq<StreamEvent>)
      requires Joined(base, out) == log
      modifies this
      ensures View() == SendText(ctx, old(View()), text) && Joined(base, pushed) == log
    {
      messageText := messageText + text;
      pushed := Push(base, out, OutputTextDelta(MessageId(ctx.responseId), messageIndex, text));
    }

    method PushReasoning(ghost base: Log, out: seq<StreamEvent>, block: int, text: string)
      returns (pushed: seq<StreamEvent>)
      requires Joined(base, out) == log
      modifies this
      ensures View() == SendReasoning(ctx, old(View()), block, text) && Joined(base, pushed) == log
    {
      var id := ReasoningId(ctx.responseId);
      reasoningText := reasoningText + text;
      reasoningByBlock := Touch(reasoningByBlock, block, AddText(text));
      pushed := PushPair(base, out, ReasoningTextDelta(id, reasoningIndex, text),
                         SummaryTextDelta(id, reasoningIndex, text));
    }

    method MapContentBlockDelta(ghost base: Log, out: seq<StreamEvent>, block: int, delta: Delta)
      returns (pushed: seq<StreamEvent>)
      requires Joined(base, out) == log
      modifies this
      ensures View() == MapDelta(ctx, old(View()), block, delta) && Joined(base, pushed) == log
    {
      pushed := out;
      match delta
      case TextDelta(text) =>
        pushed := CloseReasoningItem(base, pushed);
        pushed := EnsureMessageItem(base, pushed);
        pushed := PushText(base, pushed, text);
      case ReasoningDelta(text) =>
        if text == "" {
          return;
        }
        pushed := EnsureReasoningItem(base, pushed);
        pushed := PushReasoning(base, pushed, block, text);
      case SignatureDelta(signature) =>
        pushed := EnsureReasoningItem(base, pushed);
        reasoningByBlock := Touch(reasoningByBlock, block, AddSignature(signature));
      case RedactedDelta(redacted) =>
        pushed := EnsureReasoningItem(base, pushed);
        reasoningByBlock := Touch(reasoningByBlock, block, AddRedacted(redacted));
      case ToolInputDelta(fragment) =>
        pushed := AppendToolInput(base, pushed, block, fragment);
      case OtherDelta =>
    }

    method StopToolBlock(block: int)
      modifies this`tools
      ensures View() == CloseToolBlock(old(View()), block)
    {
      var pos := ToolPosition(tools, block);
      if pos.Some? {
        tools := tools[pos.value := tools[pos.value].(closed := true)];
      }
    }

    method FinalizeToolBlock(ghost base: Log, out: seq<StreamEvent>, pos: nat) returns (pushed: seq<StreamEvent>)
      requires Joined(base, out) == log && pos < |tools|
      modifies this
      ensures View() == FinalizeTool(ctx, old(View()), pos) && Joined(base, pushed) == log
    {
      var accum := tools[pos].(doneEmitted := true);
      tools := tools[pos := accum];
      pushed := PushPair(base, out, ToolClosing(ctx, accum),
                         OutputItemDone(ToolItem(ctx, accum, Some("completed")), accum.outputIndex));
    }

    /** Completes every tool in arrival order, unless one of them is not ready. */
    method FinalizeClosedTools(ghost base: Log, out: seq<StreamEvent>) returns (ok: bool, pushed: seq<StreamEvent>)
      requires Joined(base, out) == log
      modifies this
      ensures ok == AllToolsReady(ctx, old(tools)) && Joined(base, pushed) == log
      ensures View() == if ok then FinalizeTools(ctx, old(View()), 0) else old(View())
    {
      pushed := out;
      ok := ToolsAreReady();
      if ok {
        pushed := CompleteTools(base, pushed);
      }
    }

    method ToolsAreReady() returns (ok: bool)
      ensures ok == AllToolsReady(ctx, tools)
    {
      ok := true;
      for i := 0 to |tools|
        invariant ok == forall k :: 0 <= k < i ==> ToolReady(ctx, tools[k])
      {
        ok := ok && ToolReady(ctx, tools[i]);
      }
    }

    method CompleteTools(ghost base: Log, out: seq<StreamEvent>) returns (pushed: seq<StreamEvent>)
      requires Joined(base, out) == log
      modifies this
      ensures View() == FinalizeTools(ctx, old(View()), 0) && Joined(base, pushed) == log
    {
      pushed := out;
      var pos := 0;
      while pos < |tools|
        invariant 0 <= pos <= |tools| && Joined(base, pushed) == log
        invariant FinalizeTools(ctx, View(), pos) == FinalizeTools(ctx, old(View()), 0)
        decreases |tools| - pos
      {
        if !tools[pos].doneEmitted {
          pushed := FinalizeToolBlock(base, pushed, pos);
        }
        pos := pos + 1;
      }
    }

    /** Counts one event type: bumps its entry, or appends one. */
    method TallyType(eventType: string)
      modifies this`counts
      ensures counts == TallyOne(old(counts), eventType)
    {
      var i := 0;
      while i < |counts| && counts[i].0 != eventType
        invariant 0 <= i <= |counts|
        invariant TallyOne(counts, eventType) == counts[..i] + TallyOne(counts[i..], eventType)
      {
        assert counts[..i + 1] == counts[..i] + [counts[i]];
        i := i + 1;
      }
      if i < |counts| {
        counts := counts[i := (eventType, counts[i].1 + 1)];
      } else {
        counts := counts + [(eventType, 1)];
      }
    }

    method Tally(ghost base: Log, out: seq<StreamEvent>)
      requires Joined(base, out) == log
      modifies this`counts
      ensures View() == old(View()).(counts := TallySince(old(counts), log, base))
    {
      for i := 0 to |out|
        invariant counts == TallySince(old(counts), Joined(base, out[..i]), base)
      {
        JoinedOne(base, out[..i], out[i]);
        assert out[..i + 1] == out[..i] + [out[i]];
        JoinedEvents(base, out[..i + 1]);
        TallyType(out[i].body.EventType());
      }
      assert out[..|out|] == out;
    }

    method PushTerminal(ghost base: Log, out: seq<StreamEvent>) returns (pushed: seq<StreamEvent>)
      requires Joined(base, out) == log
      modifies this
      ensures View() == Conclude(ctx, old(View())) && Joined(base, pushed) == log
    {
      var response := BuildFinalResponse();
      finalized := true;
      if response.status == "incomplete" {
        pushed := Push(base, out, Incomplete(response));
      } else {
        pushed := Push(base, out, Completed(response));
      }
    }

    method BuildFinalResponse() returns (response: Response)
      ensures response == FinalResponse(ctx, View())
    {
      var rebuilt := Rebuilt(ctx, State(nextSeq, nextIndex, started, reasoningOpen, reasoningIndex, reasoningText,
                                        reasoningByBlock, messageOpen, messageIndex, messageText, tools, stopReason,
                                        usage, finalized, counts, Empty));
      var mapped := FromConverseOutput(ctx, rebuilt);
      response := mapped.value;
    }

    method PushFailure(ghost base: Log, out: seq<StreamEvent>, error: ErrorBody) returns (pushed: seq<StreamEvent>)
      requires Joined(base, out) == log
      modifies this
      ensures View() == StreamModel.Fail(ctx, old(View()), error) && Joined(base, pushed) == log
    {
      pushed := out;
      if finalized {
        return;
      }
      finalized := true;
      pushed := Push(base, pushed, Failed(Skeleton(ctx).(status := "failed", error := Some(error))));
    }

    method SettleOpen(ghost base: Log, out: seq<StreamEvent>) returns (pushed: seq<StreamEvent>)
      requires Joined(base, out) == log
      modifies this
      ensures View() == Settle(ctx, old(View())) && Joined(base, pushed) == log
    {
      pushed := CloseOpenItems(base, out);
      var ok := true;
      if stopReason != Some("max_tokens") && stopReason != Some("content_filtered") {
        ok, pushed := FinalizeClosedTools(base, pushed);
      }
      if ok {
        pushed := PushTerminal(base, pushed);
      } else {
        pushed := PushFailure(base, pushed, ctx.lib.malformedArguments);
      }
    }

    /** Finishes the response; a second call, or one after a failure, does nothing. */
    method Finish() returns (out: seq<StreamEvent>)
      modifies this
      ensures View() == StreamModel.Finish(ctx, old(View())) && Joined(old(log), out) == log
    {
      out := [];
      if finalized {
        return;
      }
      out := SettleOpen(log, out);
      Tally(old(log), out);
    }

    /** Fails the response; the driver's own failures are not tallied. */
    method Fail(error: ErrorBody) returns (out: seq<StreamEvent>)
      modifies this
      ensures View() == StreamModel.Fail(ctx, old(View()), error) && Joined(old(log), out) == log
    {
      out := PushFailure(log, [], error);
    }

    method StopMessage(ghost base: Log, out: seq<StreamEvent>, reason: string) returns (pushed: seq<StreamEvent>)
      requires Joined(base, out) == log
      modifies this
      ensures View() == CloseItems(ctx, old(View()).(stopReason := Some(reason))) && Joined(base, pushed) == log
    {
      stopReason := Some(reason);
      pushed := CloseOpenItems(base, out);
    }

    method RecordUsage(reported: Option<BedrockUsage>)
      modifies this`usage
      ensures View() == if reported.Some? then old(View()).(usage := reported) else old(View())
    {
      if reported.Some? {
        usage := reported;
      }
    }

    method MapEventBody(ghost base: Log, out: seq<StreamEvent>, event: BedrockEvent) returns (pushed: seq<StreamEvent>)
      requires Joined(base, out) == log
      modifies this
      ensures View() == MapBody(ctx, old(View()), event) && Joined(base, pushed) == log
    {
      pushed := out;
      match event
      case BlockStart(block, tool) =>
        if tool.Some? {
          pushed := CloseOpenItems(base, pushed);
          pushed := StartToolBlock(base, pushed, block, tool.value);
        }
      case BlockDelta(block, delta) =>
        if delta.Some? {
          pushed := MapContentBlockDelta(base, pushed, block, delta.value);
        }
      case BlockStop(block) =>
        StopToolBlock(block);
      case MessageStop(reason) =>
        pushed := StopMessage(base, pushed, reason);
      case Metadata(reported) =>
        RecordUsage(reported);
      case _ =>
    }

    /** Maps one upstream event and returns what it made the machine emit. */
    method MapEvent(event: BedrockEvent) returns (out: seq<StreamEvent>)
      modifies this
      ensures View() == StreamModel.MapEvent(ctx, old(View()), event) && Joined(old(log), out) == log
    {
      out := [];
      if finalized {
        return;
      }
      out := EnsureStarted(old(log), out);
      out := MapEventBody(old(log), out, event);
      Tally(old(log), out);
      if event.Metadata? {
        ghost var mapped := log;
        var rest := Finish();
        JoinedAppend(old(log), out, rest);
        out := out + rest;
      }
    }
  }

  lemma {:induction false} JoinedAppend(base: Log, a: seq<StreamEvent>, b: seq<StreamEvent>)
    ensures Joined(base, a + b) == Joined(Joined(base, a), b)
  {
    if b == [] {
      assert a + b == a;
    } else {
      assert (a + b)[..|a + b| - 1] == a + b[..|b| - 1];
      JoinedAppend(base, a, b[..|b| - 1]);
    }
  }

  lemma {:induction false} FeedStep(ctx: Context, s: State, events: seq<BedrockEvent>, i: nat)
    requires i < |events| && !s.finalized
    ensures Feed(ctx, StreamModel.MapEvent(ctx, s, events[i]), events[i + 1..]) == Feed(ctx, s, events[i..])
  {
    assert events[i..][0] == events[i] && events[i..][1..] == events[i + 1..];
  }

  /** Maps events until one of them finalizes the response or none is left. */
  method ReceiveEvents(state: ResponsesStreamState, events: seq<BedrockEvent>) returns (sent: seq<StreamEvent>)
    requires state.View() == INITIAL
    modifies state
    ensures state.View() == Feed(state.ctx, INITIAL, events) && Joined(Empty, sent) == state.log
  {
    sent := [];
    var i := 0;
    while i < |events| && !state.finalized
      invariant 0 <= i <= |events| && Joined(Empty, sent) == state.log
      invariant Feed(state.ctx, state.View(), events[i..]) == Feed(state.ctx, INITIAL, events)
      decreases |events| - i
    {
      FeedStep(state.ctx, state.View(), events, i);
      var out := state.MapEvent(events[i]);
      JoinedAppend(Empty, sent, out);
      sent := sent + out;
      i := i + 1;
    }
  }

  method ReceiveEnding(state: ResponsesStreamState, ending: Ending) returns (out: seq<StreamEvent>)
    modifies state
    ensures state.View() == Stop(state.ctx, old(state.View()), ending) && Joined(old(state.log), out) == state.log
  {
    out := [];
    if !state.finalized {
      match ending
      case Eof => out := state.Finish();
      case ReceiverError(error) => out := state.Fail(error);
      case IdleTimeout => out := state.Fail(state.ctx.lib.idleTimeout);
    }
  }

  /** The receive loop: what it yields is the log of the run. */
  method Receive(ctx: Context, events: seq<BedrockEvent>, ending: Ending) returns (sent: seq<StreamEvent>)
    ensures sent == Run(ctx, events, ending).log.Events()
  {
    var state := new ResponsesStreamState(ctx);
    sent := ReceiveEvents(state, events);
    var out := ReceiveEnding(state, ending);
    JoinedAppend(Empty, sent, out);
    sent := sent + out;
    JoinedEvents(Empty, sent);
  }
}
