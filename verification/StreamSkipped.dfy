/** Upstream events that the lifecycle machine skips, and why they make no difference to a run. */
module StreamSkipped {
  import opened Prelude
  import opened Trace
  import opened ToolRegistry
  import opened ConverseMapper
  import opened StreamModel

  /** Events without content: the start of the message or of a block that is no tool call, and what is not known. */
  predicate IsSkipped(event: BedrockEvent) {
    match event
    case MessageStart => true
    case BlockStart(_, tool) => tool.None?
    case BlockDelta(_, delta) => delta.None? || delta == Some(OtherDelta) || delta == Some(ReasoningDelta(""))
    case UnknownEvent => true
    case _ => false
  }

  /** The other events. */
  function Essential(events: seq<BedrockEvent>): seq<BedrockEvent> {
    if events == [] then []
    else (if IsSkipped(events[0]) then [] else [events[0]]) + Essential(events[1..])
  }

  lemma {:induction false} EssentialAppend(a: seq<BedrockEvent>, b: seq<BedrockEvent>)
    ensures Essential(a + b) == Essential(a) + Essential(b)
  {
    if a == [] {
      assert a + b == b;
    } else {
      assert (a + b)[1..] == a[1..] + b;
      EssentialAppend(a[1..], b);
    }
  }

  // ---- no step looks at the tally ----

  function Counted(s: State, counts: Counts): State { s.(counts := counts) }

  lemma {:induction false} ReasoningPasses(ctx: Context, s: State, c: Counts)
    ensures EnsureReasoning(ctx, Counted(s, c)) == Counted(EnsureReasoning(ctx, s), c)
  {
  }

  lemma {:induction false} MessagePasses(ctx: Context, s: State, c: Counts)
    ensures EnsureMessage(ctx, Counted(s, c)) == Counted(EnsureMessage(ctx, s), c)
  {
  }

  lemma {:induction false} CloseMessagePasses(ctx: Context, s: State, c: Counts)
    ensures CloseMessage(ctx, Counted(s, c)) == Counted(CloseMessage(ctx, s), c)
  {
  }

  lemma {:induction false} ReasoningTextPasses(ctx: Context, s: State, c: Counts)
    ensures FinishReasoningText(ctx, Counted(s, c)) == Counted(FinishReasoningText(ctx, s), c)
  {
  }

  lemma {:induction false} ReasoningItemPasses(ctx: Context, s: State, c: Counts)
    ensures FinishReasoningItem(ctx, Counted(s, c)) == Counted(FinishReasoningItem(ctx, s), c)
  {
  }

  lemma {:induction false} CloseReasoningPasses(ctx: Context, s: State, c: Counts)
    ensures CloseReasoning(ctx, Counted(s, c)) == Counted(CloseReasoning(ctx, s), c)
  {
    var closed := s.(reasoningOpen := false);
    ReasoningTextPasses(ctx, closed, c);
    ReasoningItemPasses(ctx, FinishReasoningText(ctx, closed), c);
  }

  lemma {:induction false} CloseItemsPasses(ctx: Context, s: State, c: Counts)
    ensures CloseItems(ctx, Counted(s, c)) == Counted(CloseItems(ctx, s), c)
  {
    CloseMessagePasses(ctx, s, c);
    CloseReasoningPasses(ctx, CloseMessage(ctx, s), c);
  }

  lemma {:induction false} EmitPasses(s: State, body: EventBody, c: Counts)
    ensures Emit(Counted(s, c), body) == Counted(Emit(s, body), c)
  {
  }

  /** A tool that is started, with the event that announces it unless it is announced late. */
  function Started(s: State, t: ToolAccum, late: bool, added: EventBody): State {
    var n := s.(nextIndex := s.nextIndex + 1);
    var a := if late then n else Emit(n, added);
    a.(tools := a.tools + [t])
  }

  lemma {:induction false} StartPasses(ctx: Context, s: State, block: int, start: ToolStart, c: Counts)
    ensures StartTool(ctx, Counted(s, c), block, start) == Counted(StartTool(ctx, s, block, start), c)
  {
    var t := ToolAccum(block, start.toolUseId, start.toolName, "", s.nextIndex, false, false);
    var late, added := IsLate(KindOf(ctx.registry, t.name)), OutputItemAdded(ToolItem(ctx, t, None), t.outputIndex);
    assert StartTool(ctx, s, block, start) == Started(s, t, late, added);
    assert StartTool(ctx, Counted(s, c), block, start) == Started(Counted(s, c), t, late, added);
    StartedPasses(s, t, late, added, c);
  }

  lemma {:induction false} StartedPasses(s: State, t: ToolAccum, late: bool, added: EventBody, c: Counts)
    ensures Started(Counted(s, c), t, late, added) == Counted(Started(s, t, late, added), c)
  {
  }

  lemma {:induction false} InputPasses(ctx: Context, s: State, block: int, fragment: string, c: Counts)
    ensures AppendArguments(ctx, Counted(s, c), block, fragment) == Counted(AppendArguments(ctx, s, block, fragment), c)
  {
    var p := ToolPosition(s.tools, block);
    if p.Some? {
      var t := s.tools[p.value].(arguments := s.tools[p.value].arguments + fragment);
      EmitPasses(s.(tools := s.tools[p.value := t]), ArgumentsDelta("fc_" + t.callId, t.outputIndex, fragment), c);
    }
  }

  lemma {:induction false} StopPasses(s: State, block: int, c: Counts)
    ensures CloseToolBlock(Counted(s, c), block) == Counted(CloseToolBlock(s, block), c)
  {
  }

  lemma {:induction false} TextPasses(ctx: Context, s: State, block: int, text: string, c: Counts)
    ensures SendText(ctx, Counted(s, c), text) == Counted(SendText(ctx, s, text), c)
    ensures SendReasoning(ctx, Counted(s, c), block, text) == Counted(SendReasoning(ctx, s, block, text), c)
  {
  }

  lemma {:induction false} TextDeltaPasses(ctx: Context, s: State, block: int, text: string, c: Counts)
    ensures MapDelta(ctx, Counted(s, c), block, TextDelta(text)) == Counted(MapDelta(ctx, s, block, TextDelta(text)), c)
  {
    CloseReasoningPasses(ctx, s, c);
    MessagePasses(ctx, CloseReasoning(ctx, s), c);
    TextPasses(ctx, EnsureMessage(ctx, CloseReasoning(ctx, s)), block, text, c);
  }

  lemma {:induction false} DeltaPasses(ctx: Context, s: State, block: int, delta: Delta, c: Counts)
    ensures MapDelta(ctx, Counted(s, c), block, delta) == Counted(MapDelta(ctx, s, block, delta), c)
  {
    match delta
    case TextDelta(text) => TextDeltaPasses(ctx, s, block, text, c);
    case ReasoningDelta(text) =>
      ReasoningPasses(ctx, s, c);
      TextPasses(ctx, EnsureReasoning(ctx, s), block, text, c);
    case ToolInputDelta(fragment) => InputPasses(ctx, s, block, fragment, c);
    case _ => ReasoningPasses(ctx, s, c);
  }

  lemma {:induction false} BodyPasses(ctx: Context, s: State, event: BedrockEvent, c: Counts)
    ensures MapBody(ctx, Counted(s, c), event) == Counted(MapBody(ctx, s, event), c)
  {
    match event
    case BlockStart(block, tool) =>
      if tool.Some? {
        CloseItemsPasses(ctx, s, c);
        StartPasses(ctx, CloseItems(ctx, s), block, tool.value, c);
      }
    case BlockDelta(block, delta) =>
      if delta.Some? {
        DeltaPasses(ctx, s, block, delta.value, c);
      }
    case BlockStop(block) => StopPasses(s, block, c);
    case MessageStop(reason) => CloseItemsPasses(ctx, s.(stopReason := Some(reason)), c);
    case _ =>
  }

  // ---- a response that is just opened ----

  /** The opening pair, if it was not sent yet, and its tally. */
  function Begun(ctx: Context, s: State): State {
    var o := EnsureStarted(ctx, s);
    o.(counts := TallySince(o.counts, o.log, s.log))
  }

  lemma {:induction false} SkippedOnlyBegins(ctx: Context, s: State, event: BedrockEvent)
    requires IsSkipped(event) && !s.finalized
    ensures MapEvent(ctx, s, event) == Begun(ctx, s)
  {
    assert MapBody(ctx, EnsureStarted(ctx, s), event) == EnsureStarted(ctx, s);
  }

  lemma {:induction false} BegunOnce(ctx: Context, s: State)
    ensures Begun(ctx, s).started && Begun(ctx, s).finalized == s.finalized
    ensures s.started ==> Begun(ctx, s) == s
    ensures EnsureStarted(ctx, Begun(ctx, s)) == Counted(EnsureStarted(ctx, s), Begun(ctx, s).counts)
  {
  }

  lemma {:induction false} TallyInTwo(counts: Counts, log: Log, middle: Log, base: Log)
    requires Extends(log, middle) && Extends(middle, base)
    ensures Extends(log, base)
            && TallySince(counts, log, base) == TallySince(TallySince(counts, middle, base), log, middle)
  {
    if log != middle {
      TallyInTwo(counts, log.before, middle, base);
      LongerIsOther(log, base);
    }
  }

  /** A log that has something behind a base is not the base. */
  lemma {:induction false} LongerIsOther(log: Log, base: Log)
    requires log.After? && Extends(log.before, base)
    ensures log != base
  {
    ExtendsIsLonger(log.before, base);
  }

  lemma {:induction false} ExtendsIsLonger(log: Log, base: Log)
    requires Extends(log, base)
    ensures log.Length() >= base.Length()
  {
    if log != base {
      ExtendsIsLonger(log.before, base);
    }
  }

  lemma {:induction false} StartExtends(ctx: Context, s: State)
    ensures Extends(EnsureStarted(ctx, s).log, s.log)
  {
  }

  /** It makes no difference to an event whether the response was opened before it. */
  lemma {:induction false} BegunBefore(ctx: Context, s: State, event: BedrockEvent)
    requires !s.finalized
    ensures MapEvent(ctx, Begun(ctx, s), event) == MapEvent(ctx, s, event)
  {
    var o, t := EnsureStarted(ctx, s), Begun(ctx, s);
    var b := MapBody(ctx, o, event);
    BegunOnce(ctx, s);
    BodyPasses(ctx, o, event, t.counts);
    StartExtends(ctx, s);
    assert OnlyEmits(o, b) && Extends(b.log, o.log);
    TallyInTwo(s.counts, b.log, o.log, s.log);
    assert MapAndTally(ctx, t, event) == MapAndTally(ctx, s, event);
  }

  // ---- whole runs ----

  /** Feeding an opened state or one that is not: the same, once there is anything to feed. */
  lemma {:induction false} FeedBegun(ctx: Context, s: State, events: seq<BedrockEvent>)
    requires !s.finalized && events != []
    ensures Feed(ctx, Begun(ctx, s), events) == Feed(ctx, s, events)
  {
    BegunOnce(ctx, s);
    BegunBefore(ctx, s, events[0]);
  }

  lemma {:induction false} FeedStarts(ctx: Context, s: State, event: BedrockEvent)
    requires !s.finalized
    ensures MapEvent(ctx, s, event).started
  {
    StartStays(ctx, EnsureStarted(ctx, s), event);
    if event.Metadata? {
      SettleStays(ctx, MapAndTally(ctx, s, event));
    }
  }

  lemma {:induction false} ItemsStay(ctx: Context, s: State)
    ensures EnsureReasoning(ctx, s).started == EnsureMessage(ctx, s).started == s.started
    ensures CloseReasoning(ctx, s).started == CloseMessage(ctx, s).started == s.started
  {
  }

  lemma {:induction false} BlocksStay(ctx: Context, s: State, block: int, start: ToolStart, fragment: string)
    ensures StartTool(ctx, s, block, start).started == AppendArguments(ctx, s, block, fragment).started == s.started
    ensures CloseToolBlock(s, block).started == s.started
  {
  }

  lemma {:induction false} DeltaStays(ctx: Context, s: State, block: int, delta: Delta)
    ensures MapDelta(ctx, s, block, delta).started == s.started
  {
    match delta
    case TextDelta(text) =>
      ItemsStay(ctx, s);
      ItemsStay(ctx, CloseReasoning(ctx, s));
      assert SendText(ctx, EnsureMessage(ctx, CloseReasoning(ctx, s)), text).started == s.started;
    case ToolInputDelta(fragment) => BlocksStay(ctx, s, block, ToolStart("", ""), fragment);
    case _ => ItemsStay(ctx, s);
  }

  lemma {:induction false} CloseItemsStays(ctx: Context, s: State)
    ensures CloseItems(ctx, s).started == s.started
  {
    ItemsStay(ctx, s);
    ItemsStay(ctx, CloseMessage(ctx, s));
  }

  lemma {:induction false} StartStays(ctx: Context, s: State, event: BedrockEvent)
    requires s.started
    ensures MapBody(ctx, s, event).started
  {
    match event
    case BlockStart(block, tool) =>
      if tool.Some? {
        CloseItemsStays(ctx, s);
        BlocksStay(ctx, CloseItems(ctx, s), block, tool.value, "");
      }
    case BlockDelta(block, delta) =>
      if delta.Some? {
        DeltaStays(ctx, s, block, delta.value);
      }
    case BlockStop(block) => BlocksStay(ctx, s, block, ToolStart("", ""), "");
    case MessageStop(reason) => CloseItemsStays(ctx, s.(stopReason := Some(reason)));
    case _ =>
  }

  lemma {:induction false} SettleStays(ctx: Context, s: State)
    requires s.started
    ensures Finish(ctx, s).started
  {
    CloseItemsStays(ctx, s);
    FinalizeStays(ctx, CloseItems(ctx, s), 0);
  }

  lemma {:induction false} FinalizeStays(ctx: Context, s: State, pos: nat)
    requires s.started
    ensures FinalizeTools(ctx, s, pos).started
    decreases |s.tools| - pos
  {
    if pos < |s.tools| {
      if s.tools[pos].doneEmitted {
        FinalizeStays(ctx, s, pos + 1);
      } else {
        FinalizeStays(ctx, FinalizeTool(ctx, s, pos), pos + 1);
      }
    }
  }

  /** A started response is fed the essential events only. */
  lemma {:induction false} StartedFeed(ctx: Context, s: State, events: seq<BedrockEvent>)
    requires s.started
    ensures Feed(ctx, s, events) == Feed(ctx, s, Essential(events))
    decreases |events|
  {
    if events != [] && !s.finalized {
      var e, rest := events[0], Essential(events[1..]);
      if IsSkipped(e) {
        SkippedOnlyBegins(ctx, s, e);
        BegunOnce(ctx, s);
        StartedFeed(ctx, s, events[1..]);
        assert Essential(events) == [] + rest == rest;
      } else {
        FeedStarts(ctx, s, e);
        StartedFeed(ctx, MapEvent(ctx, s, e), events[1..]);
        assert Essential(events)[0] == e && Essential(events)[1..] == rest;
      }
    }
  }

  /** Skipped events make no difference to where a run stands behind any others. */
  lemma {:induction false} FeedEssential(ctx: Context, s: State, events: seq<BedrockEvent>)
    requires !s.finalized && Essential(events) != []
    ensures Feed(ctx, s, events) == Feed(ctx, s, Essential(events))
  {
    var e, rest := events[0], Essential(events[1..]);
    if IsSkipped(e) {
      assert Essential(events) == [] + rest == rest;
      SkippedOnlyBegins(ctx, s, e);
      BegunOnce(ctx, s);
      StartedFeed(ctx, Begun(ctx, s), events[1..]);
      FeedBegun(ctx, s, rest);
    } else {
      assert Essential(events)[0] == e && Essential(events)[1..] == rest;
      FeedStarts(ctx, s, e);
      StartedFeed(ctx, MapEvent(ctx, s, e), events[1..]);
    }
  }

  /** Two runs with the same essential events, of which there are some, are the same. */
  lemma {:induction false} EssentialIsEnough(ctx: Context, x: seq<BedrockEvent>, y: seq<BedrockEvent>, ending: Ending)
    requires Essential(x) == Essential(y) != []
    ensures Run(ctx, x, ending) == Run(ctx, y, ending)
  {
    FeedEssential(ctx, INITIAL, x);
    FeedEssential(ctx, INITIAL, y);
  }
}
