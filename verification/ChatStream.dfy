/**
 * The adapter's streaming state machine: Responses events in, Chat chunks out. The think tags the adapter
 * itself writes are tokens of their own, so that a model's text may contain anything.
 */
module ChatStream {
  import opened Prelude
  import opened Json
  import opened Capsule
  import opened ChatReplay
  import opened ChatEvents

  datatype Token = Open | Close | Plain(text: string)

  datatype ChatUsage = ChatUsage(prompt: int, completion: int, total: int, cached: int, reasoning: int)

  datatype Chunk =
    | RoleChunk
    | ContentChunk(tokens: seq<Token>)
    | ToolStart(index: nat, id: string, name: string)
    | ToolArguments(index: nat, delta: string)
    | FinishChunk(reason: string)
    | UsageChunk(usage: ChatUsage)

  /** The chunks sent so far, the latest outermost. */
  datatype Log = Empty | After(before: Log, last: Chunk)
  {
    function Chunks(): seq<Chunk> {
      match this
      case Empty => []
      case After(before, last) => before.Chunks() + [last]
    }
  }

  /** An announced call: its output index, and what upstream called it. */
  datatype Announcement = Announcement(outputIndex: nat, callId: string, name: string)

  datatype Entry = Entry(index: nat, item: Json)

  datatype State = State(
    reasoning: seq<Entry>,
    summary: string,
    summaryStreamed: bool,
    thinkOpen: bool,
    toolIndices: map<nat, nat>,
    toolArguments: map<nat, string>,
    toolCallsSeen: bool,
    terminalSeen: bool,
    finishReason: Option<string>,
    announced: seq<Announcement>,
    log: Log)

  /** How a call's wire id is made from its upstream id and the reasoning items before it. */
  type Minter = (string, seq<Json>) -> Result<string, StreamError>

  datatype Config = Config(mint: Minter, includeUsage: bool)

  const INITIAL := State([], "", false, false, map[], map[], false, false, None, [], After(Empty, RoleChunk))

  datatype StreamError =
    | BadEvent(why: EventError)
    | ReasoningAfterCall
    | ReasoningIncomplete
    | EncoderOff
    | NotMinted(reason: ReplayError)
    | ArgumentsBeforeMetadata
    | ArgumentsMismatch
    | UpstreamFailure(event: Json)

  function Emit(s: State, chunk: Chunk): State { s.(log := After(s.log, chunk)) }

  // ---- reasoning items, in the order of their output indices ----

  function Lookup(entries: seq<Entry>, index: nat): Option<Json> {
    if entries == [] then None
    else if entries[0].index == index then Some(entries[0].item)
    else Lookup(entries[1..], index)
  }

  function Insert(entries: seq<Entry>, index: nat, item: Json): seq<Entry> {
    if entries == [] || index < entries[0].index then [Entry(index, item)] + entries
    else if entries[0].index == index then [Entry(index, item)] + entries[1..]
    else [entries[0]] + Insert(entries[1..], index, item)
  }

  /** A field the new item lacks is taken over from the one it replaces. */
  function Inherit(item: Json, existing: Json, field: string): Json {
    if item.Object? && item.Get(field).None? && existing.Get(field).Some? then
      Object(item.fields[field := existing.Get(field).value])
    else item
  }

  function Store(entries: seq<Entry>, index: nat, item: Json): seq<Entry> {
    match Lookup(entries, index)
    case None => Insert(entries, index, item)
    case Some(earlier) =>
      Insert(entries, index, Inherit(Inherit(item, earlier, "encrypted_content"), earlier, "summary"))
  }

  function Items(entries: seq<Entry>): (r: seq<Json>)
    ensures |r| == |entries|
  {
    if entries == [] then [] else [entries[0].item] + Items(entries[1..])
  }

  // ---- tools ----

  function ToolId(lib: Library, runtime: Runtime, callId: string, items: seq<Json>): Result<string, StreamError> {
    if items == [] then Ok(callId)
    else if !AllValid(ItemIsValid, items) then Err(ReasoningIncomplete)
    else if !runtime.encoderEnabled then Err(EncoderOff)
    else match WireId(lib, callId, items, runtime.keyring)
      case Err(e) => Err(NotMinted(e))
      case Ok(id) => Ok(id)
  }

  function MinterOf(lib: Library, runtime: Runtime): Minter {
    (callId, items) => ToolId(lib, runtime, callId, items)
  }

  function Announce(cfg: Config, s: State, index: nat, callId: string, name: string): Result<State, StreamError> {
    if index in s.toolIndices then Ok(s)
    else match cfg.mint(callId, Items(s.reasoning))
      case Err(e) => Err(e)
      case Ok(id) => Ok(Announced(s, Announcement(index, callId, name), id))
  }

  function Announced(s: State, call: Announcement, id: string): State {
    var position := |s.toolIndices|;
    var arguments := if call.outputIndex in s.toolArguments then s.toolArguments
                     else s.toolArguments[call.outputIndex := ""];
    Emit(s.(toolIndices := s.toolIndices[call.outputIndex := position],
            toolArguments := arguments,
            toolCallsSeen := true,
            announced := s.announced + [call]),
         ToolStart(position, id, call.name))
  }

  function Accumulated(s: State, index: nat): string {
    if index in s.toolArguments then s.toolArguments[index] else ""
  }

  function AppendArguments(s: State, index: nat, delta: string): Result<State, StreamError> {
    if delta == "" then Ok(s)
    else if index !in s.toolIndices then Err(ArgumentsBeforeMetadata)
    else Ok(Emit(s.(toolArguments := s.toolArguments[index := Accumulated(s, index) + delta]),
                 ToolArguments(s.toolIndices[index], delta)))
  }

  /** The completed arguments must extend what was streamed; only the missing end is sent. */
  function CompleteArguments(s: State, index: nat, arguments: string): Result<State, StreamError> {
    var sent := Accumulated(s, index);
    if arguments == sent then Ok(s)
    else match StripPrefix(arguments, sent)
      case None => Err(ArgumentsMismatch)
      case Some(suffix) => AppendArguments(s, index, suffix)
  }

  // ---- events ----

  function CloseThink(s: State): State {
    if s.thinkOpen then Emit(s.(thinkOpen := false), ContentChunk([Close])) else s
  }

  function OnSummaryDelta(s: State, delta: string): State {
    if delta == "" then s
    else
      var t := s.(summary := s.summary + delta, summaryStreamed := true, thinkOpen := true);
      Emit(t, ContentChunk(if s.thinkOpen then [Plain(delta)] else [Open, Plain(delta)]))
  }

  function OnSummaryDone(s: State, text: string): State {
    var t := s.(summary := text);
    if !s.summaryStreamed && text != "" then Emit(t, ContentChunk([Open, Plain(text), Close])) else CloseThink(t)
  }

  function OnTextDelta(s: State, delta: string): State {
    var t := CloseThink(s);
    if delta == "" then t else Emit(t, ContentChunk([Plain(delta)]))
  }

  function OnReasoningItem(s: State, index: nat, item: Json, done: bool): Result<State, StreamError> {
    if s.toolCallsSeen then Err(ReasoningAfterCall)
    else
      var t := s.(reasoning := Store(s.reasoning, index, item));
      var summary := ItemSummary(item);
      if done && !s.summaryStreamed && summary != "" then
        Ok(Emit(t.(summary := summary), ContentChunk([Open, Plain(summary), Close])))
      else Ok(t)
  }

  function OnCallItem(cfg: Config, s: State, index: nat, callId: string, name: string, arguments: string, done: bool)
    : Result<State, StreamError>
  {
    AnnounceAndComplete(cfg, CloseThink(s), index, callId, name, arguments, done)
  }

  function AnnounceAndComplete(cfg: Config, s: State, index: nat, callId: string, name: string, arguments: string,
                               done: bool)
    : Result<State, StreamError>
  {
    match Announce(cfg, s, index, callId, name)
    case Err(e) => Err(e)
    case Ok(t) => if done then CompleteArguments(t, index, arguments) else Ok(t)
  }

  function FinishReason(s: State, incomplete: bool): string {
    if incomplete then "length" else if s.toolCallsSeen then "tool_calls" else "stop"
  }

  function Detail(usage: Json, details: string, key: string): int {
    match usage.Get(details)
    case None => 0
    case Some(v) => Int32(v.GetInt64(key).GetOr(0))
  }

  /** The numbers of a response's usage; a missing total is the sum of the two others. */
  function UsageIn(usage: Json): ChatUsage {
    var prompt, completion := Int32(usage.GetInt64("input_tokens").GetOr(0)),
                              Int32(usage.GetInt64("output_tokens").GetOr(0));
    ChatUsage(prompt, completion, Int32(usage.GetInt64("total_tokens").GetOr(prompt + completion)),
              Detail(usage, "input_tokens_details", "cached_tokens"),
              Detail(usage, "output_tokens_details", "reasoning_tokens"))
  }

  function OnTerminal(cfg: Config, s: State, incomplete: bool, usage: Option<Json>): State {
    var reason := FinishReason(s, incomplete);
    var t := Emit(CloseThink(s).(terminalSeen := true, finishReason := Some(reason)), FinishChunk(reason));
    if cfg.includeUsage && usage.Some? then Emit(t, UsageChunk(UsageIn(usage.value))) else t
  }

  function Apply(cfg: Config, s: State, event: Event): Result<State, StreamError> {
    match event
    case SummaryDelta(delta) => Ok(OnSummaryDelta(s, delta))
    case SummaryDone(text) => Ok(OnSummaryDone(s, text))
    case TextDelta(delta) => Ok(OnTextDelta(s, delta))
    case ReasoningItem(index, item, done) => OnReasoningItem(s, index, item, done)
    case CallItem(index, callId, name, arguments, done) => OnCallItem(cfg, s, index, callId, name, arguments, done)
    case ArgumentsDelta(index, delta) => AppendArguments(s, index, delta)
    case ArgumentsDone(index, arguments) => CompleteArguments(s, index, arguments)
    case Terminal(incomplete, usage) => Ok(OnTerminal(cfg, s, incomplete, usage))
    case Failed(e) => Err(UpstreamFailure(e))
    case Ignored => Ok(s)
  }

  function MapEvent(cfg: Config, s: State, event: Json): Result<State, StreamError> {
    match Read(event)
    case Err(e) => Err(BadEvent(e))
    case Ok(read) => Apply(cfg, s, read)
  }

  // ---- what a client makes of the chunks ----

  /** Whether a think block is open behind the chunks; nothing if the tags ever went wrong. */
  function ThinkAfter(open: Option<bool>, tokens: seq<Token>): Option<bool>
    decreases tokens
  {
    if tokens == [] || open.None? then open
    else match tokens[0]
      case Open => ThinkAfter(if open.value then None else Some(true), tokens[1..])
      case Close => ThinkAfter(if open.value then Some(false) else None, tokens[1..])
      case Plain(_) => ThinkAfter(open, tokens[1..])
  }

  /** Tags alternate, and are closed where a tool is announced and where the answer finishes. */
  function ThinkOf(log: Log): Option<bool> {
    match log
    case Empty => Some(false)
    case After(before, ContentChunk(tokens)) => ThinkAfter(ThinkOf(before), tokens)
    case After(before, last) =>
      if (last.ToolStart? || last.FinishChunk?) && ThinkOf(before) == Some(true) then None else ThinkOf(before)
  }

  datatype Start = Start(id: string, name: string)

  /**
   * The tools announced, in order; nothing if a position was not the next one, or arguments went to a
   * tool that was not announced yet.
   */
  function StartsOf(log: Log): Option<seq<Start>> {
    match log
    case Empty => Some([])
    case After(before, last) =>
      match StartsOf(before)
      case None => None
      case Some(starts) =>
        match last
        case ToolStart(index, id, name) => if index == |starts| then Some(starts + [Start(id, name)]) else None
        case ToolArguments(index, _) => if index < |starts| then Some(starts) else None
        case _ => Some(starts)
  }

  function ArgumentsSent(log: Log, index: nat): string {
    match log
    case Empty => ""
    case After(before, ToolArguments(i, delta)) =>
      if i == index then ArgumentsSent(before, index) + delta else ArgumentsSent(before, index)
    case After(before, _) => ArgumentsSent(before, index)
  }

  function FinishSent(log: Log): bool { log.After? && (log.last.FinishChunk? || FinishSent(log.before)) }
}
