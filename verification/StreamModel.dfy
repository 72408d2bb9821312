/**
 * The ConverseStream to Responses lifecycle machine, as a function of its state. `StreamMachine`
 * updates the same state in place; the theorems about runs are proved about this form.
 */
module StreamModel {
  import opened Prelude
  import opened Json
  import opened ResponsesSchema
  import opened ToolRegistry
  import opened ConverseMapper
  import opened Trace

  // ---- upstream events ----

  datatype ToolStart = ToolStart(toolUseId: string, toolName: string)

  datatype Delta =
    | TextDelta(text: string)
    | ReasoningDelta(text: string)
    | SignatureDelta(signature: string)
    | RedactedDelta(redacted: Bytes)
    | ToolInputDelta(fragment: string)
    | OtherDelta

  /** `tool` is absent for a start that is not a tool call; `delta` may be absent on the wire. */
  datatype BedrockEvent =
    | MessageStart
    | BlockStart(block: int, tool: Option<ToolStart>)
    | BlockDelta(block: int, delta: Option<Delta>)
    | BlockStop(block: int)
    | MessageStop(reason: string)
    | Metadata(usage: Option<BedrockUsage>)
    | UnknownEvent

  /** How the receive loop ends when no event finalized the response first. */
  datatype Ending = Eof | ReceiverError(error: ErrorBody) | IdleTimeout

  // ---- state ----

  datatype ToolAccum = ToolAccum(block: int, callId: string, name: string, arguments: string,
                                 outputIndex: nat, closed: bool, doneEmitted: bool)

  datatype ReasoningAccum = ReasoningAccum(text: string, signature: string, redacted: Bytes,
                                           signatureSeen: bool, redactedSeen: bool)

  /** An ordered map from block index to accumulator, as its entries in key order. */
  type ReasoningByBlock = seq<(int, ReasoningAccum)>

  /** Per event type, how many were emitted, in order of first emission. */
  type Counts = seq<(string, nat)>

  /** `log` is everything emitted so far; the machine itself only returns each step's share. */
  datatype State = State(
    nextSeq: nat, nextIndex: nat, started: bool,
    reasoningOpen: bool, reasoningIndex: nat, reasoningText: string, reasoningByBlock: ReasoningByBlock,
    messageOpen: bool, messageIndex: nat, messageText: string,
    tools: seq<ToolAccum>, stopReason: Option<string>, usage: Option<BedrockUsage>,
    finalized: bool, counts: Counts, log: Log)

  const INITIAL := State(0, 0, false, false, 0, "", [], false, 0, "", [], None, None, false, [], Empty)

  /** A step that appends to the log and leaves the tally for later. */
  ghost predicate OnlyEmits(s: State, r: State) {
    r.counts == s.counts && forall base :: Extends(s.log, base) ==> Extends(r.log, base)
  }

  /** Emits one event under the next sequence number. */
  function Emit(s: State, body: EventBody): (r: State)
    ensures OnlyEmits(s, r)
  {
    s.(log := After(s.log, StreamEvent(s.nextSeq, body)), nextSeq := s.nextSeq + 1)
  }

  /** What emitting `body` adds to everything the log is asked about. */
  lemma {:induction false} Emitted(s: State, body: EventBody)
    ensures Numbered(s.log) && s.nextSeq == s.log.Length() ==>
              Numbered(Emit(s, body).log) && Emit(s, body).nextSeq == Emit(s, body).log.Length()
    ensures NoTerminal(s.log) && !body.IsTerminal() ==> NoTerminal(Emit(s, body).log)
    ensures Truthful(s.log) && ClosesTruthfully(s.log, body) ==> Truthful(Emit(s, body).log)
    ensures TextSent(Emit(s, body).log)
            == if body.OutputTextDelta? then TextSent(s.log) + body.delta else TextSent(s.log)
    ensures ReasoningSent(Emit(s, body).log)
         == if body.ReasoningTextDelta? then ReasoningSent(s.log) + body.delta else ReasoningSent(s.log)
    ensures CallsDone(Emit(s, body).log)
         == if IsCallDone(body) then CallsDone(s.log) + [body.outputIndex] else CallsDone(s.log)
    ensures forall k {:trigger ArgumentsSent(Emit(s, body).log, k)} ::
              ArgumentsSent(Emit(s, body).log, k) == if body.ArgumentsDelta? && body.outputIndex == k
                                         then ArgumentsSent(s.log, k) + body.delta
                                         else ArgumentsSent(s.log, k)
    ensures forall k {:trigger PhaseOf(Emit(s, body).log, k)} ::
              PhaseOf(Emit(s, body).log, k) == if body.HasIndex() && body.outputIndex == k
                                   then Advance(PhaseOf(s.log, k), body)
                                   else PhaseOf(s.log, k)
  {
    var r := Emit(s, body);
    assert r.log.before == s.log && r.log.last.body == body;
  }

  function TallyOne(counts: Counts, eventType: string): Counts {
    if counts == [] then [(eventType, 1)]
    else if counts[0].0 == eventType then [(eventType, counts[0].1 + 1)] + counts[1..]
    else [counts[0]] + TallyOne(counts[1..], eventType)
  }

  /** Counts the events of `log` that came after `base`, oldest first. */
  function TallySince(counts: Counts, log: Log, base: Log): Counts {
    if log == base || log.Empty? then counts
    else TallyOne(TallySince(counts, log.before, base), log.last.body.EventType())
  }

  /** The `in_progress` skeleton carried by the opening events and, with an error, by a failure. */
  function Skeleton(ctx: Context): Response {
    Response(ctx.responseId, "in_progress", [], NO_USAGE, ctx.model, ctx.params, None, None)
  }

  function EnsureStarted(ctx: Context, s: State): (r: State)
    ensures OnlyEmits(s, r)
  {
    if s.started then s
    else Emit(Emit(s.(started := true), Created(Skeleton(ctx))), InProgress(Skeleton(ctx)))
  }

  // ---- reasoning item ----

  const EMPTY_REASONING := ReasoningAccum("", "", [], false, false)

  /** `entry(key).or_default()` followed by an update of the entry. */
  function Touch(blocks: ReasoningByBlock, key: int, update: ReasoningAccum -> ReasoningAccum): ReasoningByBlock {
    if blocks == [] || key < blocks[0].0 then [(key, update(EMPTY_REASONING))] + blocks
    else if key == blocks[0].0 then [(key, update(blocks[0].1))] + blocks[1..]
    else [blocks[0]] + Touch(blocks[1..], key, update)
  }

  /** The Converse block that an accumulator stands for, if it stands for any. */
  function ReasoningBlock(entry: (int, ReasoningAccum)): seq<ContentBlock> {
    var a := entry.1;
    if a.signatureSeen then [ReasoningText(Some(a.text), Some(a.signature))]
    else if a.redactedSeen then [RedactedReasoning(a.redacted)]
    else if a.text != "" then [ReasoningText(Some(a.text), None)]
    else []
  }

  function ReasoningBlocks(blocks: ReasoningByBlock): seq<ContentBlock> { FlatMap(ReasoningBlock, blocks) }

  function EnsureReasoning(ctx: Context, s: State): (r: State)
    ensures OnlyEmits(s, r)
  {
    if s.reasoningOpen then s
    else
      var id := ReasoningId(ctx.responseId);
      var o := s.(reasoningOpen := true, reasoningIndex := s.nextIndex, nextIndex := s.nextIndex + 1);
      Emit(Emit(o, OutputItemAdded(Reasoning(id, None, Some(Array([])), None), o.reasoningIndex)),
           SummaryPartAdded(id, o.reasoningIndex))
  }

  /** The two closing texts, which are left out when no reasoning text was sent. */
  function FinishReasoningText(ctx: Context, s: State): (r: State)
    ensures OnlyEmits(s, r)
  {
    var id := ReasoningId(ctx.responseId);
    var k := s.reasoningIndex;
    if s.reasoningText == "" then s
    else Emit(Emit(s, ReasoningTextDone(id, k, s.reasoningText)), SummaryTextDone(id, k, s.reasoningText))
  }

  function FinishedReasoning(ctx: Context, s: State): OutputItem {
    Reasoning(ReasoningId(ctx.responseId), None, Some(SummaryOf(s.reasoningText)),
              Envelope(ctx.lib, ReasoningBlocks(s.reasoningByBlock)))
  }

  function FinishReasoningItem(ctx: Context, s: State): (r: State)
    ensures OnlyEmits(s, r)
  {
    var k := s.reasoningIndex;
    Emit(Emit(s, SummaryPartDone(ReasoningId(ctx.responseId), k)), OutputItemDone(FinishedReasoning(ctx, s), k))
  }

  function CloseReasoning(ctx: Context, s: State): (r: State)
    ensures OnlyEmits(s, r)
  {
    if !s.reasoningOpen then s
    else FinishReasoningItem(ctx, FinishReasoningText(ctx, s.(reasoningOpen := false)))
  }

  // ---- message item ----

  function EnsureMessage(ctx: Context, s: State): (r: State)
    ensures OnlyEmits(s, r)
  {
    if s.messageOpen then s
    else
      var id := MessageId(ctx.responseId);
      var o := s.(messageOpen := true, messageIndex := s.nextIndex, nextIndex := s.nextIndex + 1);
      Emit(Emit(o, OutputItemAdded(Message(id, "in_progress", []), o.messageIndex)),
           ContentPartAdded(id, o.messageIndex, OutputText("")))
  }

  function CloseMessage(ctx: Context, s: State): (r: State)
    ensures OnlyEmits(s, r)
  {
    if !s.messageOpen then s
    else
      var id := MessageId(ctx.responseId);
      var k := s.messageIndex;
      var part := OutputText(s.messageText);
      var c := s.(messageOpen := false);
      Emit(Emit(Emit(c, OutputTextDone(id, k, s.messageText)), ContentPartDone(id, k, part)),
           OutputItemDone(Message(id, "completed", [part]), k))
  }

  function CloseItems(ctx: Context, s: State): (r: State)
    ensures OnlyEmits(s, r)
  { CloseReasoning(ctx, CloseMessage(ctx, s)) }

  // ---- tool items ----

  /** Blank arguments stand for the empty object. */
  function NormalizedArguments(t: ToolAccum): string {
    if IsBlank(t.arguments) then "{}" else t.arguments
  }

  function ParsedInput(ctx: Context, t: ToolAccum): Json {
    ctx.lib.parse(NormalizedArguments(t)).GetOr(Object(map[]))
  }

  function ToolItem(ctx: Context, t: ToolAccum, status: Option<string>): OutputItem {
    var kind := KindOf(ctx.registry, t.name);
    var shown := if status.None? && (kind == Shell || kind == ApplyPatch) then Some("in_progress") else status;
    ToolOutputItem(ctx.registry, t.callId, t.name, ParsedInput(ctx, t), NormalizedArguments(t), shown)
  }

  function StartTool(ctx: Context, s: State, block: int, start: ToolStart): (r: State)
    ensures OnlyEmits(s, r)
  {
    var t := ToolAccum(block, start.toolUseId, start.toolName, "", s.nextIndex, false, false);
    var n := s.(nextIndex := s.nextIndex + 1);
    var a := if IsLate(KindOf(ctx.registry, t.name)) then n
             else Emit(n, OutputItemAdded(ToolItem(ctx, t, None), t.outputIndex));
    a.(tools := a.tools + [t])
  }

  /** The position of the first tool started for `block`. */
  function ToolPosition(tools: seq<ToolAccum>, block: int): (r: Option<nat>)
    ensures r.Some? ==> r.value < |tools| && tools[r.value].block == block
  {
    if tools == [] then None
    else if tools[0].block == block then Some(0)
    else
      var rest := ToolPosition(tools[1..], block);
      if rest.Some? then Some(rest.value + 1) else None
  }

  function AppendArguments(ctx: Context, s: State, block: int, fragment: string): (r: State)
    ensures OnlyEmits(s, r)
  {
    var p := ToolPosition(s.tools, block);
    if p.None? then s
    else
      var t := s.tools[p.value].(arguments := s.tools[p.value].arguments + fragment);
      var u := s.(tools := s.tools[p.value := t]);
      if KindOf(ctx.registry, t.name) == Function
      then Emit(u, ArgumentsDelta("fc_" + t.callId, t.outputIndex, fragment))
      else u
  }

  function CloseToolBlock(s: State, block: int): (r: State)
    ensures OnlyEmits(s, r)
  {
    var p := ToolPosition(s.tools, block);
    if p.None? then s else s.(tools := s.tools[p.value := s.tools[p.value].(closed := true)])
  }

  // ---- one upstream event ----

  function SendText(ctx: Context, s: State, text: string): (r: State)
    ensures OnlyEmits(s, r)
  {
    Emit(s.(messageText := s.messageText + text), OutputTextDelta(MessageId(ctx.responseId), s.messageIndex, text))
  }

  function SendReasoning(ctx: Context, s: State, block: int, text: string): (r: State)
    ensures OnlyEmits(s, r)
  {
    var id := ReasoningId(ctx.responseId);
    var u := s.(reasoningText := s.reasoningText + text,
                reasoningByBlock := Touch(s.reasoningByBlock, block, AddText(text)));
    Emit(Emit(u, ReasoningTextDelta(id, s.reasoningIndex, text)), SummaryTextDelta(id, s.reasoningIndex, text))
  }

  function MapDelta(ctx: Context, s: State, block: int, delta: Delta): (r: State)
    ensures OnlyEmits(s, r)
  {
    match delta
    case TextDelta(text) => SendText(ctx, EnsureMessage(ctx, CloseReasoning(ctx, s)), text)
    case ReasoningDelta(text) =>
      if text == "" then s else SendReasoning(ctx, EnsureReasoning(ctx, s), block, text)
    case SignatureDelta(signature) =>
      var o := EnsureReasoning(ctx, s);
      o.(reasoningByBlock := Touch(o.reasoningByBlock, block, AddSignature(signature)))
    case RedactedDelta(redacted) =>
      var o := EnsureReasoning(ctx, s);
      o.(reasoningByBlock := Touch(o.reasoningByBlock, block, AddRedacted(redacted)))
    case ToolInputDelta(fragment) => AppendArguments(ctx, s, block, fragment)
    case OtherDelta => s
  }

  function AddText(text: string): ReasoningAccum -> ReasoningAccum {
    (a: ReasoningAccum) => a.(text := a.text + text)
  }

  function AddSignature(signature: string): ReasoningAccum -> ReasoningAccum {
    (a: ReasoningAccum) => a.(signatureSeen := true, signature := a.signature + signature)
  }

  function AddRedacted(redacted: Bytes): ReasoningAccum -> ReasoningAccum {
    (a: ReasoningAccum) => a.(redactedSeen := true, redacted := a.redacted + redacted)
  }

  /** What an event does between the opening pair and the tally. */
  function MapBody(ctx: Context, s: State, event: BedrockEvent): (r: State)
    ensures OnlyEmits(s, r)
  {
    match event
    case MessageStart => s
    case BlockStart(block, tool) =>
      if tool.None? then s else StartTool(ctx, CloseItems(ctx, s), block, tool.value)
    case BlockDelta(block, delta) =>
      if delta.None? then s else MapDelta(ctx, s, block, delta.value)
    case BlockStop(block) => CloseToolBlock(s, block)
    case MessageStop(reason) => CloseItems(ctx, s.(stopReason := Some(reason)))
    case Metadata(usage) => if usage.None? then s else s.(usage := usage)
    case UnknownEvent => s
  }

  /** Maps an event and counts what that emitted. */
  function MapAndTally(ctx: Context, s: State, event: BedrockEvent): State {
    var b := MapBody(ctx, EnsureStarted(ctx, s), event);
    b.(counts := TallySince(b.counts, b.log, s.log))
  }

  /** `metadata` is the last event of the protocol, so it also finishes the response. */
  function MapEvent(ctx: Context, s: State, event: BedrockEvent): State {
    if s.finalized then s
    else if event.Metadata? then Finish(ctx, MapAndTally(ctx, s, event))
    else MapAndTally(ctx, s, event)
  }

  // ---- endings ----

  /** The exact comparison made before completing tools; unlike `IncompleteReason` it is case sensitive. */
  predicate IsIncompleteStop(s: State) {
    s.stopReason == Some("max_tokens") || s.stopReason == Some("content_filtered")
  }

  predicate ToolReady(ctx: Context, t: ToolAccum) {
    t.closed && (t.doneEmitted || ctx.lib.parse(NormalizedArguments(t)).Some?)
  }

  predicate AllToolsReady(ctx: Context, tools: seq<ToolAccum>) {
    forall i :: 0 <= i < |tools| ==> ToolReady(ctx, tools[i])
  }

  /** What a tool's done is preceded by: its late `added`, or the done of its input. */
  function ToolClosing(ctx: Context, t: ToolAccum): EventBody {
    match KindOf(ctx.registry, t.name)
    case Function =>
      var binding := Resolve(ctx.registry, t.name);
      ArgumentsDone("fc_" + t.callId, t.outputIndex, NormalizedArguments(t),
                    if binding.Some? then binding.value.clientName else t.name)
    case Custom =>
      CustomInputDone("ct_" + t.callId, t.outputIndex,
                      ParsedInput(ctx, t).Get("input").GetOr(String(NormalizedArguments(t))))
    case _ => OutputItemAdded(ToolItem(ctx, t, Some("in_progress")), t.outputIndex)
  }

  function EmitToolDone(ctx: Context, s: State, t: ToolAccum): (r: State)
    ensures OnlyEmits(s, r)
  {
    Emit(Emit(s, ToolClosing(ctx, t)), OutputItemDone(ToolItem(ctx, t, Some("completed")), t.outputIndex))
  }

  function FinalizeTool(ctx: Context, s: State, pos: nat): (r: State)
    requires pos < |s.tools|
    ensures OnlyEmits(s, r)
  {
    var t := s.tools[pos].(doneEmitted := true);
    EmitToolDone(ctx, s.(tools := s.tools[pos := t]), t)
  }

  /** Completes the tools from position `pos` on, in arrival order. */
  function FinalizeTools(ctx: Context, s: State, pos: nat): (r: State)
    decreases |s.tools| - pos
    ensures OnlyEmits(s, r)
  {
    if pos >= |s.tools| then s
    else if s.tools[pos].doneEmitted then FinalizeTools(ctx, s, pos + 1)
    else FinalizeTools(ctx, FinalizeTool(ctx, s, pos), pos + 1)
  }

  function ToolBlock(ctx: Context, t: ToolAccum): seq<ContentBlock> {
    var input := ctx.lib.parse(NormalizedArguments(t));
    if input.None? then [] else [ToolUse(Some(t.callId), Some(t.name), input)]
  }

  /** The Converse output that the accumulated pieces amount to. */
  function Rebuilt(ctx: Context, s: State): ConverseOutput {
    ConverseOutput(Some(ReasoningBlocks(s.reasoningByBlock)
                        + (if s.messageText == "" then [] else [Text(s.messageText)])
                        + FlatMap((t: ToolAccum) => ToolBlock(ctx, t), s.tools)),
                   Some(s.stopReason.GetOr("end_turn")),
                   Some(s.usage.GetOr(BedrockUsage(0, 0, None, None))))
  }

  function FinalResponse(ctx: Context, s: State): Response {
    MapOutput(ctx, Rebuilt(ctx, s)).value
  }

  function Fail(ctx: Context, s: State, error: ErrorBody): (r: State)
    ensures OnlyEmits(s, r)
  {
    if s.finalized then s
    else Emit(s.(finalized := true), Failed(Skeleton(ctx).(status := "failed", error := Some(error))))
  }

  function Conclude(ctx: Context, s: State): (r: State)
    ensures OnlyEmits(s, r)
  {
    var response := FinalResponse(ctx, s);
    Emit(s.(finalized := true), if response.status == "incomplete" then Incomplete(response) else Completed(response))
  }

  /** Close what is open, complete the tools or give up on all of them, and emit the terminal event. */
  function Settle(ctx: Context, s: State): (r: State)
    ensures OnlyEmits(s, r)
  {
    var c := CloseItems(ctx, s);
    if IsIncompleteStop(c) then Conclude(ctx, c)
    else if AllToolsReady(ctx, c.tools) then Conclude(ctx, FinalizeTools(ctx, c, 0))
    else Fail(ctx, c, ctx.lib.malformedArguments)
  }

  function Finish(ctx: Context, s: State): State {
    if s.finalized then s
    else
      var r := Settle(ctx, s);
      r.(counts := TallySince(r.counts, r.log, s.log))
  }

  // ---- the receive loop ----

  function Feed(ctx: Context, s: State, events: seq<BedrockEvent>): State
    decreases |events|
  {
    if events == [] || s.finalized then s else Feed(ctx, MapEvent(ctx, s, events[0]), events[1..])
  }

  function Stop(ctx: Context, s: State, ending: Ending): State {
    if s.finalized then s
    else match ending
      case Eof => Finish(ctx, s)
      case ReceiverError(error) => Fail(ctx, s, error)
      case IdleTimeout => Fail(ctx, s, ctx.lib.idleTimeout)
  }

  /** The state after a whole run of the receive loop; its log is what the client received. */
  function Run(ctx: Context, events: seq<BedrockEvent>, ending: Ending): State {
    Stop(ctx, Feed(ctx, INITIAL, events), ending)
  }
}
