/**
 * How a run of the receive loop ends, and which tool calls it completes, told from the upstream events alone:
 * their calls, their last stop reason, and whether they come to a clean end.
 */
module StreamVerdict {
  import opened Prelude
  import opened ResponsesSchema
  import opened ConverseMapper
  import opened Trace
  import opened StreamModel
  import opened StreamInvariant
  import opened StreamRuns

  // ---- what the events say; nothing behind the first `metadata` is looked at ----

  function LastStop(events: seq<BedrockEvent>, stop: Option<string>): Option<string> {
    if events == [] || events[0].Metadata? then stop
    else LastStop(events[1..], if events[0].MessageStop? then Some(events[0].reason) else stop)
  }

  /** A `messageStop` comes before any `metadata`. */
  ghost predicate StopSeen(events: seq<BedrockEvent>) {
    exists i :: 0 <= i < |events| && events[i].MessageStop? && forall j :: 0 <= j < i ==> !events[j].Metadata?
  }

  predicate EndsCleanly(events: seq<BedrockEvent>, ending: Ending) {
    ending.Eof? || exists e <- events :: e.Metadata?
  }

  /** A call as the events tell of it; output indices are the machine's own. */
  function Bare(t: ToolAccum): ToolAccum { t.(outputIndex := 0, doneEmitted := false) }

  function Bares(tools: seq<ToolAccum>): (r: seq<ToolAccum>)
    ensures |r| == |tools| && forall i :: 0 <= i < |r| ==> r[i] == Bare(tools[i])
  {
    seq(|tools|, i requires 0 <= i < |tools| => Bare(tools[i]))
  }

  function CallsAfter(calls: seq<ToolAccum>, event: BedrockEvent): seq<ToolAccum> {
    match event
    case BlockStart(block, Some(start)) =>
      calls + [ToolAccum(block, start.toolUseId, start.toolName, "", 0, false, false)]
    case BlockDelta(block, Some(ToolInputDelta(fragment))) =>
      var p := ToolPosition(calls, block);
      if p.None? then calls
      else calls[p.value := calls[p.value].(arguments := calls[p.value].arguments + fragment)]
    case BlockStop(block) =>
      var p := ToolPosition(calls, block);
      if p.None? then calls else calls[p.value := calls[p.value].(closed := true)]
    case _ => calls
  }

  function CallsIn(events: seq<BedrockEvent>, calls: seq<ToolAccum>): seq<ToolAccum>
    decreases |events|
  {
    if events == [] || events[0].Metadata? then calls else CallsIn(events[1..], CallsAfter(calls, events[0]))
  }

  predicate Truncates(stop: Option<string>) { stop == Some("max_tokens") || stop == Some("content_filtered") }

  ghost predicate AllValid(ctx: Context, calls: seq<ToolAccum>) {
    forall i :: 0 <= i < |calls| ==> ToolValid(ctx, calls[i])
  }

  /** The calls are completed: a clean end, no truncation, and every block stopped with valid arguments. */
  ghost predicate Completes(ctx: Context, events: seq<BedrockEvent>, ending: Ending) {
    EndsCleanly(events, ending) && !Truncates(LastStop(events, None)) && AllValid(ctx, CallsIn(events, []))
  }

  ghost predicate Fails(ctx: Context, stop: Option<string>, calls: seq<ToolAccum>, clean: bool) {
    !clean || (!Truncates(stop) && !AllValid(ctx, calls))
  }

  /** The error that broke the events off, if one did: the receiver's, or the idle timeout. */
  function BrokenOff(ctx: Context, events: seq<BedrockEvent>, ending: Ending): (r: Option<ErrorBody>)
    ensures r.None? <==> EndsCleanly(events, ending)
  {
    if EndsCleanly(events, ending) then None
    else if ending.ReceiverError? then Some(ending.error)
    else Some(ctx.lib.idleTimeout)
  }

  /** What a failure carries: the bare response, failed, with what broke it off, or else with its malformed calls. */
  function FailureOf(ctx: Context, brokenOff: Option<ErrorBody>): EventBody {
    Failed(Response(ctx.responseId, "failed", [], Usage(0, None, 0, None, 0), ctx.model, ctx.params,
                    Some(brokenOff.GetOr(ctx.lib.malformedArguments)), None))
  }

  lemma {:induction false} StopSeenIff(events: seq<BedrockEvent>, stop: Option<string>)
    ensures LastStop(events, stop).Some? <==> stop.Some? || StopSeen(events)
    decreases |events|
  {
    if events != [] && !events[0].Metadata? {
      var rest := events[1..];
      StopSeenIff(rest, if events[0].MessageStop? then Some(events[0].reason) else stop);
      if events[0].MessageStop? {
        assert StopSeen(events);
      } else {
        StopSeenLater(events);
      }
    }
  }

  lemma {:induction false} StopSeenLater(events: seq<BedrockEvent>)
    requires events != [] && !events[0].Metadata? && !events[0].MessageStop?
    ensures StopSeen(events) <==> StopSeen(events[1..])
  {
    var rest := events[1..];
    if StopSeen(events) {
      var i :| 0 <= i < |events| && events[i].MessageStop? && forall j :: 0 <= j < i ==> !events[j].Metadata?;
      assert rest[i - 1].MessageStop? && forall j :: 0 <= j < i - 1 ==> !rest[j].Metadata?;
    }
    if StopSeen(rest) {
      var i :| 0 <= i < |rest| && rest[i].MessageStop? && forall j :: 0 <= j < i ==> !rest[j].Metadata?;
      assert events[i + 1].MessageStop?;
      assert forall j :: 0 <= j < i + 1 ==> !events[j].Metadata? by {
        assert forall j :: 0 < j < i + 1 ==> events[j] == rest[j - 1];
      }
    }
  }

  // ---- the machine keeps what the events say ----

  lemma {:induction false} BarePosition(tools: seq<ToolAccum>, block: int)
    ensures ToolPosition(Bares(tools), block) == ToolPosition(tools, block)
  {
    if tools != [] {
      assert Bares(tools)[1..] == Bares(tools[1..]);
      BarePosition(tools[1..], block);
    }
  }

  /** The machine's calls and stop reason are those of the events so far. */
  ghost predicate Reads(s: State, calls: seq<ToolAccum>, stop: Option<string>) {
    Bares(s.tools) == calls && s.stopReason == stop
  }

  lemma {:induction false} OpeningsRead(ctx: Context, s: State)
    ensures EnsureStarted(ctx, s).tools == s.tools && EnsureStarted(ctx, s).stopReason == s.stopReason
    ensures EnsureMessage(ctx, s).tools == s.tools && EnsureMessage(ctx, s).stopReason == s.stopReason
    ensures EnsureReasoning(ctx, s).tools == s.tools && EnsureReasoning(ctx, s).stopReason == s.stopReason
  {
  }

  lemma {:induction false} CloseReasoningReads(ctx: Context, s: State)
    ensures CloseReasoning(ctx, s).tools == s.tools && CloseReasoning(ctx, s).stopReason == s.stopReason
  {
  }

  lemma {:induction false} CloseItemsReads(ctx: Context, s: State)
    ensures CloseItems(ctx, s).tools == s.tools && CloseItems(ctx, s).stopReason == s.stopReason
  {
    CloseReasoningReads(ctx, CloseMessage(ctx, s));
  }

  lemma {:induction false} DeltaReads(ctx: Context, s: State, block: int, delta: Delta, calls: seq<ToolAccum>,
                                      stop: Option<string>)
    requires Reads(s, calls, stop)
    ensures Reads(MapDelta(ctx, s, block, delta), CallsAfter(calls, BlockDelta(block, Some(delta))), stop)
  {
    match delta
    case TextDelta(_) =>
      CloseReasoningReads(ctx, s);
      OpeningsRead(ctx, CloseReasoning(ctx, s));
    case ToolInputDelta(fragment) => InputReads(ctx, s, block, fragment, calls, stop);
    case _ => OpeningsRead(ctx, s);
  }

  lemma {:induction false} InputReads(ctx: Context, s: State, block: int, fragment: string, calls: seq<ToolAccum>,
                                      stop: Option<string>)
    requires Reads(s, calls, stop)
    ensures Reads(AppendArguments(ctx, s, block, fragment),
                  CallsAfter(calls, BlockDelta(block, Some(ToolInputDelta(fragment)))), stop)
  {
    BarePosition(s.tools, block);
  }

  lemma {:induction false} StartReads(ctx: Context, s: State, block: int, start: ToolStart, calls: seq<ToolAccum>,
                                      stop: Option<string>)
    requires Reads(s, calls, stop)
    ensures Reads(StartTool(ctx, s, block, start), CallsAfter(calls, BlockStart(block, Some(start))), stop)
  {
  }

  lemma {:induction false} StopReads(s: State, block: int, calls: seq<ToolAccum>, stop: Option<string>)
    requires Reads(s, calls, stop)
    ensures Reads(CloseToolBlock(s, block), CallsAfter(calls, BlockStop(block)), stop)
  {
    BarePosition(s.tools, block);
  }

  function StopAfter(event: BedrockEvent, stop: Option<string>): Option<string> {
    if event.MessageStop? then Some(event.reason) else stop
  }

  lemma {:induction false} BodyReads(ctx: Context, s: State, event: BedrockEvent, calls: seq<ToolAccum>,
                                     stop: Option<string>)
    requires Reads(s, calls, stop)
    ensures Reads(MapBody(ctx, s, event), CallsAfter(calls, event), StopAfter(event, stop))
  {
    match event
    case BlockStart(block, tool) =>
      if tool.Some? {
        CloseItemsReads(ctx, s);
        StartReads(ctx, CloseItems(ctx, s), block, tool.value, calls, stop);
      }
    case BlockDelta(block, delta) =>
      if delta.Some? {
        DeltaReads(ctx, s, block, delta.value, calls, stop);
      }
    case BlockStop(block) => StopReads(s, block, calls, stop);
    case MessageStop(reason) => CloseItemsReads(ctx, s.(stopReason := Some(reason)));
    case _ =>
  }

  lemma {:induction false} EventReads(ctx: Context, s: State, event: BedrockEvent, calls: seq<ToolAccum>,
                                      stop: Option<string>)
    requires Reads(s, calls, stop)
    ensures Reads(MapAndTally(ctx, s, event), CallsAfter(calls, event), StopAfter(event, stop))
  {
    var o := EnsureStarted(ctx, s);
    OpeningsRead(ctx, s);
    BodyReads(ctx, o, event, calls, stop);
  }

  // ---- the endings ----

  lemma {:induction false} BareIsValid(ctx: Context, tools: seq<ToolAccum>)
    ensures AllValid(ctx, Bares(tools)) <==> AllValid(ctx, tools)
  {
    forall i | 0 <= i < |tools| ensures ToolValid(ctx, Bares(tools)[i]) <==> ToolValid(ctx, tools[i]) {
    }
  }

  lemma {:induction false} ReadyIsValid(ctx: Context, s: State)
    requires NoneDone(s)
    ensures AllToolsReady(ctx, s.tools) <==> AllValid(ctx, s.tools)
  {
    forall i | 0 <= i < |s.tools| ensures ToolReady(ctx, s.tools[i]) <==> ToolValid(ctx, s.tools[i]) {
    }
  }

  /** How an ending leaves a state that reads so. */
  ghost predicate EndsAs(ctx: Context, r: State, calls: seq<ToolAccum>, stop: Option<string>,
                         brokenOff: Option<ErrorBody>) {
    && Reads(r, calls, stop)
    && (VerdictOf(r.log) == RunFailed <==> Fails(ctx, stop, calls, brokenOff.None?))
    && (VerdictOf(r.log) == RunFailed ==> r.log.last.body == FailureOf(ctx, brokenOff))
  }

  lemma {:induction false} FailReads(ctx: Context, s: State, error: ErrorBody,
                                     calls: seq<ToolAccum>, stop: Option<string>)
    requires !s.finalized && Reads(s, calls, stop)
    ensures Reads(Fail(ctx, s, error), calls, stop) && VerdictOf(Fail(ctx, s, error).log) == RunFailed
    ensures Fail(ctx, s, error).log.last.body == FailureOf(ctx, Some(error))
  {
  }

  lemma {:induction false} ConcludeReads(ctx: Context, s: State, calls: seq<ToolAccum>, stop: Option<string>)
    requires Reads(s, calls, stop)
    ensures Reads(Conclude(ctx, s), calls, stop) && VerdictOf(Conclude(ctx, s).log) != RunFailed
  {
  }

  lemma {:induction false} CompletedReads(ctx: Context, s: State, calls: seq<ToolAccum>, stop: Option<string>)
    requires Reads(s, calls, stop)
    ensures Reads(FinalizeTools(ctx, s, 0), calls, stop)
  {
    FinalizeToolsMark(ctx, s, 0);
    assert Bares(FinalizeTools(ctx, s, 0).tools) == Bares(s.tools);
  }

  lemma {:induction false} SettleEndsAs(ctx: Context, s: State, calls: seq<ToolAccum>, stop: Option<string>)
    requires Inv(ctx, s) && Reads(s, calls, stop)
    ensures EndsAs(ctx, Settle(ctx, s), calls, stop, None)
  {
    var c := CloseItems(ctx, s);
    CloseItemsKeeps(ctx, s);
    CloseItemsReads(ctx, s);
    ReadyIsValid(ctx, c);
    BareIsValid(ctx, c.tools);
    if IsIncompleteStop(c) {
      ConcludeReads(ctx, c, calls, stop);
    } else if AllToolsReady(ctx, c.tools) {
      CompletedReads(ctx, c, calls, stop);
      ConcludeReads(ctx, FinalizeTools(ctx, c, 0), calls, stop);
    } else {
      FailReads(ctx, c, ctx.lib.malformedArguments, calls, stop);
    }
  }

  lemma {:induction false} FinishEndsAs(ctx: Context, s: State, calls: seq<ToolAccum>, stop: Option<string>)
    requires Inv(ctx, s) && Reads(s, calls, stop)
    ensures EndsAs(ctx, Finish(ctx, s), calls, stop, None)
  {
    SettleEndsAs(ctx, s, calls, stop);
    var r := Settle(ctx, s);
    assert EndsAs(ctx, r.(counts := TallySince(r.counts, r.log, s.log)), calls, stop, None);
  }

  lemma {:induction false} StopEndsAs(ctx: Context, s: State, ending: Ending, calls: seq<ToolAccum>,
                                      stop: Option<string>)
    requires Inv(ctx, s) && Reads(s, calls, stop)
    ensures EndsAs(ctx, Stop(ctx, s, ending), calls, stop, BrokenOff(ctx, [], ending))
  {
    match ending
    case Eof => FinishEndsAs(ctx, s, calls, stop);
    case ReceiverError(error) => FailReads(ctx, s, error, calls, stop);
    case IdleTimeout => FailReads(ctx, s, ctx.lib.idleTimeout, calls, stop);
  }

  /** `metadata` ends the run, whatever follows. */
  lemma {:induction false} MetadataEndsAs(ctx: Context, s: State, event: BedrockEvent, calls: seq<ToolAccum>,
                                          stop: Option<string>)
    requires Inv(ctx, s) && Reads(s, calls, stop) && event.Metadata?
    ensures EndsAs(ctx, MapEvent(ctx, s, event), calls, stop, None) && MapEvent(ctx, s, event).finalized
  {
    var m := MapAndTally(ctx, s, event);
    EventReads(ctx, s, event, calls, stop);
    TallyKeeps(ctx, s, event);
    FinishEnds(ctx, m);
    FinishEndsAs(ctx, m, calls, stop);
  }

  lemma {:induction false} TallyKeeps(ctx: Context, s: State, event: BedrockEvent)
    requires Inv(ctx, s)
    ensures Inv(ctx, MapAndTally(ctx, s, event))
  {
    var o := EnsureStarted(ctx, s);
    StartedKeeps(ctx, s);
    MapBodyKeeps(ctx, o, event);
    var b := MapBody(ctx, o, event);
    CountsDoNotMatter(ctx, b, TallySince(b.counts, b.log, s.log));
  }

  lemma {:induction false} FeedMetadata(ctx: Context, s: State, events: seq<BedrockEvent>, m: State, ending: Ending)
    requires events != [] && !s.finalized && m == MapEvent(ctx, s, events[0]) && m.finalized
    ensures Stop(ctx, Feed(ctx, s, events), ending) == m
  {
    assert Feed(ctx, m, events[1..]) == m;
  }

  lemma {:induction false} FeedEndsAs(ctx: Context, s: State, events: seq<BedrockEvent>, ending: Ending,
                                      calls: seq<ToolAccum>, stop: Option<string>)
    requires Inv(ctx, s) && Reads(s, calls, stop)
    ensures EndsAs(ctx, Stop(ctx, Feed(ctx, s, events), ending), CallsIn(events, calls), LastStop(events, stop),
                   BrokenOff(ctx, events, ending))
    decreases |events|
  {
    if events == [] {
      StopEndsAs(ctx, s, ending, calls, stop);
    } else if events[0].Metadata? {
      var m := MapEvent(ctx, s, events[0]);
      MetadataEndsAs(ctx, s, events[0], calls, stop);
      FeedMetadata(ctx, s, events, m, ending);
      assert events[0] in events;
    } else {
      var m := MapAndTally(ctx, s, events[0]);
      EventReads(ctx, s, events[0], calls, stop);
      TallyKeeps(ctx, s, events[0]);
      FeedMore(ctx, s, events, m);
      CleanLater(events, ending);
      FeedEndsAs(ctx, m, events[1..], ending, CallsAfter(calls, events[0]), StopAfter(events[0], stop));
    }
  }

  lemma {:induction false} FeedMore(ctx: Context, s: State, events: seq<BedrockEvent>, m: State)
    requires events != [] && !s.finalized && !events[0].Metadata? && m == MapAndTally(ctx, s, events[0])
    ensures Feed(ctx, s, events) == Feed(ctx, m, events[1..])
  {
  }

  lemma {:induction false} CleanLater(events: seq<BedrockEvent>, ending: Ending)
    requires events != [] && !events[0].Metadata?
    ensures EndsCleanly(events, ending) <==> EndsCleanly(events[1..], ending)
  {
    assert events == [events[0]] + events[1..];
  }

  // ---- whole runs ----

  lemma {:induction false} RunReads(ctx: Context, events: seq<BedrockEvent>, ending: Ending)
    ensures EndsAs(ctx, Run(ctx, events, ending), CallsIn(events, []), LastStop(events, None),
                   BrokenOff(ctx, events, ending))
  {
    FeedEndsAs(ctx, INITIAL, events, ending, [], None);
  }

  /** A run that fails says why: what broke it off, or else that its calls are malformed. */
  lemma {:induction false} FailureIsTold(ctx: Context, events: seq<BedrockEvent>, ending: Ending)
    requires VerdictOf(Run(ctx, events, ending).log) == RunFailed
    ensures var body := Run(ctx, events, ending).log.last.body;
            && body == FailureOf(ctx, BrokenOff(ctx, events, ending))
            && body.response.error
               == Some(if EndsCleanly(events, ending) then ctx.lib.malformedArguments
                       else match ending
                         case ReceiverError(error) => error
                         case _ => ctx.lib.idleTimeout)
  {
    RunReads(ctx, events, ending);
  }

  /** The calls of a block go to the first tool that was started for it. */
  lemma {:induction false} PositionIsFirst(tools: seq<ToolAccum>, block: int)
    ensures match ToolPosition(tools, block)
            case None => forall t <- tools :: t.block != block
            case Some(p) => p < |tools| && tools[p].block == block && forall t <- tools[..p] :: t.block != block
  {
    if tools != [] && tools[0].block != block {
      PositionIsFirst(tools[1..], block);
      var p := ToolPosition(tools, block);
      if p.Some? {
        assert tools[..p.value] == [tools[0]] + tools[1..][..p.value - 1];
      } else {
        assert tools == [tools[0]] + tools[1..];
      }
    }
  }

  lemma {:induction false} EndTurnIsComplete()
    ensures IncompleteReason(Some("end_turn")).None?
  {
    assert Lower("end_turn")[0] == 'e';
  }

  /** A run whose stop reason truncates exactly has lost nothing when it is reported. */
  lemma {:induction false} ReportedIs(s: State)
    ensures IncompleteReason(ReportedStop(s)) == IncompleteReason(s.stopReason)
  {
    EndTurnIsComplete();
  }

  /**
   * How a run ends, from its events: it fails exactly when they come to no clean end or, without a truncating
   * stop, some call is not stopped or has invalid arguments; otherwise it is reported incomplete exactly when
   * the last stop reason truncates in any letter case.
   */
  lemma {:induction false} VerdictIs(ctx: Context, events: seq<BedrockEvent>, ending: Ending)
    ensures var stop, calls := LastStop(events, None), CallsIn(events, []);
            VerdictOf(Run(ctx, events, ending).log)
            == if Fails(ctx, stop, calls, EndsCleanly(events, ending)) then RunFailed
               else if IncompleteReason(stop).Some? then RunIncomplete else RunCompleted
  {
    RunReads(ctx, events, ending);
    RunEnds(ctx, events, ending);
    ReportedIs(Run(ctx, events, ending));
  }

  /**
   * Either every tool call is declared done exactly once, in arrival order, or none is. The first happens
   * exactly when the events come to a clean end, their last stop reason is not one of the two exact truncation
   * reasons, and every call they tell of is stopped and has valid arguments.
   */
  lemma {:induction false} ToolCompletionIsAllOrNothing(ctx: Context, events: seq<BedrockEvent>, ending: Ending)
    ensures var r := Run(ctx, events, ending);
            && Bares(r.tools) == CallsIn(events, [])
            && CallsDone(r.log) == if Completes(ctx, events, ending) then FirstIndices(r.tools, |r.tools|) else []
  {
    RunReads(ctx, events, ending);
    RunEnds(ctx, events, ending);
  }

  lemma {:induction false} IndicesCount(tools: seq<ToolAccum>, n: nat)
    requires n <= |tools|
    ensures |FirstIndices(tools, n)| == n
  {
    if n > 0 {
      IndicesCount(tools, n - 1);
    }
  }

  lemma {:induction false} SomeCallDoneIff(ctx: Context, events: seq<BedrockEvent>, ending: Ending)
    ensures CallsDone(Run(ctx, events, ending).log) != []
            <==> Completes(ctx, events, ending) && CallsIn(events, []) != []
  {
    ToolCompletionIsAllOrNothing(ctx, events, ending);
    var r := Run(ctx, events, ending);
    assert |Bares(r.tools)| == |r.tools|;
    IndicesCount(r.tools, |r.tools|);
  }

  /** Completed calls end with `response.completed` exactly when no letter case of the stop reason truncates. */
  lemma {:induction false} DoneToolsEndCompletedIff(ctx: Context, events: seq<BedrockEvent>, ending: Ending)
    requires Completes(ctx, events, ending)
    ensures VerdictOf(Run(ctx, events, ending).log) == RunCompleted <==> IncompleteReason(LastStop(events, None)).None?
  {
    VerdictIs(ctx, events, ending);
  }

  /**
   * "Tools complete only behind a `messageStop`" holds of a run exactly when its events have one, or tell of no
   * call, or do not complete their calls.
   */
  lemma {:induction false} DoneOnlyBehindStopIff(ctx: Context, events: seq<BedrockEvent>, ending: Ending)
    ensures (CallsDone(Run(ctx, events, ending).log) != [] ==> StopSeen(events))
            <==> || LastStop(events, None).Some?
                 || CallsIn(events, []) == []
                 || !Completes(ctx, events, ending)
  {
    SomeCallDoneIff(ctx, events, ending);
    StopSeenIff(events, None);
  }

  // ---- two runs ----

  const TOOL_BLOCK: BedrockEvent := BlockStart(0, Some(ToolStart("call", "tool")))
  const SHOUTED_STOP: BedrockEvent := MessageStop("MAX_TOKENS")

  /** One stopped call with blank arguments. */
  lemma {:induction false} OneCall(last: seq<BedrockEvent>)
    requires last == [] || last == [SHOUTED_STOP]
    ensures var events := [TOOL_BLOCK, BlockStop(0)] + last;
            && CallsIn(events, []) == [ToolAccum(0, "call", "tool", "", 0, true, false)]
            && LastStop(events, None) == if last == [] then None else Some("MAX_TOKENS")
  {
    var events := [TOOL_BLOCK, BlockStop(0)] + last;
    var started := ToolAccum(0, "call", "tool", "", 0, false, false);
    var stopped := started.(closed := true);
    assert events[1..] == [BlockStop(0)] + last && events[1..][1..] == last;
    assert CallsAfter([], TOOL_BLOCK) == [] + [started] == [started];
    assert ToolPosition([started], 0) == Some(0);
    assert CallsAfter([started], BlockStop(0)) == [started][0 := stopped] == [stopped];
    LastSays(last, [stopped]);
    assert CallsIn(events[1..], [started]) == CallsIn(last, [stopped]);
    assert LastStop(events[1..], None) == LastStop(last, None);
  }

  lemma {:induction false} LastSays(last: seq<BedrockEvent>, calls: seq<ToolAccum>)
    requires last == [] || last == [SHOUTED_STOP]
    ensures CallsIn(last, calls) == calls && LastStop(last, None) == if last == [] then None else Some("MAX_TOKENS")
  {
    if last != [] {
      assert last[1..] == [];
      assert CallsAfter(calls, SHOUTED_STOP) == calls;
    }
  }

  /**
   * The completed ending is not guaranteed: with the stop reason spelled in capitals the exact test lets
   * the tool call be completed, and the case-insensitive one still reports the response as incomplete.
   */
  lemma {:induction false} DoneToolsMayEndIncomplete(ctx: Context)
    requires ctx.lib.parse("{}").Some?
    ensures var r := Run(ctx, [TOOL_BLOCK, BlockStop(0), SHOUTED_STOP], Eof);
            CallsDone(r.log) != [] && VerdictOf(r.log) == RunIncomplete
  {
    var events := [TOOL_BLOCK, BlockStop(0), SHOUTED_STOP];
    assert events == [TOOL_BLOCK, BlockStop(0)] + [SHOUTED_STOP];
    OneCall([SHOUTED_STOP]);
    assert Lower("MAX_TOKENS") == "max_tokens";
    assert Completes(ctx, events, Eof);
    SomeCallDoneIff(ctx, events, Eof);
    VerdictIs(ctx, events, Eof);
  }

  /** Nor does completion wait for a `messageStop`: a stream that just ends completes its stopped call. */
  lemma {:induction false} DoneToolsMayHaveNoStop(ctx: Context)
    requires ctx.lib.parse("{}").Some?
    ensures var events := [TOOL_BLOCK, BlockStop(0)];
            var r := Run(ctx, events, Eof);
            CallsDone(r.log) != [] && VerdictOf(r.log) == RunCompleted && !StopSeen(events)
  {
    var events := [TOOL_BLOCK, BlockStop(0)];
    assert events == [TOOL_BLOCK, BlockStop(0)] + [];
    OneCall([]);
    assert Completes(ctx, events, Eof);
    SomeCallDoneIff(ctx, events, Eof);
    VerdictIs(ctx, events, Eof);
    StopSeenIff(events, None);
  }
}
