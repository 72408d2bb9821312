/**
 * The events a Responses stream emits, and what a client can read off a sequence of them. Every
 * content and summary index is 0 and is left out.
 */
module Trace {
  import opened Prelude
  import opened Json
  import opened ResponsesSchema

  datatype EventBody =
    | Created(response: Response)
    | InProgress(response: Response)
    | OutputItemAdded(item: OutputItem, outputIndex: nat)
    | ContentPartAdded(itemId: string, outputIndex: nat, part: ContentPart)
    | OutputTextDelta(itemId: string, outputIndex: nat, delta: string)
    | OutputTextDone(itemId: string, outputIndex: nat, doneText: string)
    | ContentPartDone(itemId: string, outputIndex: nat, part: ContentPart)
    | OutputItemDone(item: OutputItem, outputIndex: nat)
    | ArgumentsDelta(itemId: string, outputIndex: nat, delta: string)
    | ArgumentsDone(itemId: string, outputIndex: nat, arguments: string, name: string)
    | CustomInputDone(itemId: string, outputIndex: nat, input: Json)
    | ReasoningTextDelta(itemId: string, outputIndex: nat, delta: string)
    | ReasoningTextDone(itemId: string, outputIndex: nat, doneText: string)
    | SummaryPartAdded(itemId: string, outputIndex: nat)
    | SummaryPartDone(itemId: string, outputIndex: nat)
    | SummaryTextDelta(itemId: string, outputIndex: nat, delta: string)
    | SummaryTextDone(itemId: string, outputIndex: nat, doneText: string)
    | Completed(response: Response)
    | Incomplete(response: Response)
    | Failed(response: Response)
  {
    predicate IsTerminal() { Completed? || Incomplete? || Failed? }

    /** Whether the event belongs to one output item. */
    predicate HasIndex() { !Created? && !InProgress? && !IsTerminal() }

    function EventType(): string {
      match this
      case Created(_) => "response.created"
      case InProgress(_) => "response.in_progress"
      case OutputItemAdded(_, _) => "response.output_item.added"
      case ContentPartAdded(_, _, _) => "response.content_part.added"
      case OutputTextDelta(_, _, _) => "response.output_text.delta"
      case OutputTextDone(_, _, _) => "response.output_text.done"
      case ContentPartDone(_, _, _) => "response.content_part.done"
      case OutputItemDone(_, _) => "response.output_item.done"
      case ArgumentsDelta(_, _, _) => "response.function_call_arguments.delta"
      case ArgumentsDone(_, _, _, _) => "response.function_call_arguments.done"
      case CustomInputDone(_, _, _) => "response.custom_tool_call_input.done"
      case ReasoningTextDelta(_, _, _) => "response.reasoning_text.delta"
      case ReasoningTextDone(_, _, _) => "response.reasoning_text.done"
      case SummaryPartAdded(_, _) => "response.reasoning_summary_part.added"
      case SummaryPartDone(_, _) => "response.reasoning_summary_part.done"
      case SummaryTextDelta(_, _, _) => "response.reasoning_summary_text.delta"
      case SummaryTextDone(_, _, _) => "response.reasoning_summary_text.done"
      case Completed(_) => "response.completed"
      case Incomplete(_) => "response.incomplete"
      case Failed(_) => "response.failed"
    }
  }

  datatype StreamEvent = StreamEvent(sequenceNumber: nat, body: EventBody)

  /** What was emitted, oldest first; it grows at the end, and the proofs peel it from there. */
  datatype Log = Empty | After(before: Log, last: StreamEvent)
  {
    function Length(): nat { if Empty? then 0 else before.Length() + 1 }

    function Events(): seq<StreamEvent> { if Empty? then [] else before.Events() + [last] }
  }

  predicate Extends(log: Log, base: Log) {
    log == base || (log.After? && Extends(log.before, base))
  }

  datatype Verdict = NoVerdict | RunCompleted | RunIncomplete | RunFailed

  /** Which terminal event the log ends with, if any. */
  function VerdictOf(log: Log): Verdict {
    if log.Empty? then NoVerdict
    else if log.last.body.Completed? then RunCompleted
    else if log.last.body.Incomplete? then RunIncomplete
    else if log.last.body.Failed? then RunFailed
    else NoVerdict
  }

  /** The whole response that the terminal event carries, if the log ends with one. */
  function FinalAnswer(log: Log): Option<Response> {
    if log.After? && (log.last.body.Completed? || log.last.body.Incomplete?) then Some(log.last.body.response) else None
  }

  // ---- text read off a log ----

  function TextSent(log: Log): string {
    if log.Empty? then ""
    else if log.last.body.OutputTextDelta? then TextSent(log.before) + log.last.body.delta
    else TextSent(log.before)
  }

  function ReasoningSent(log: Log): string {
    if log.Empty? then ""
    else if log.last.body.ReasoningTextDelta? then ReasoningSent(log.before) + log.last.body.delta
    else ReasoningSent(log.before)
  }

  function ArgumentsSent(log: Log, k: nat): string {
    if log.Empty? then ""
    else if log.last.body.ArgumentsDelta? && log.last.body.outputIndex == k
    then ArgumentsSent(log.before, k) + log.last.body.delta
    else ArgumentsSent(log.before, k)
  }

  /** `{}` stands in for blank arguments. */
  function OrEmptyObject(arguments: string): string {
    if IsBlank(arguments) then "{}" else arguments
  }

  /** A closing event carries exactly what the deltas before it carried. */
  predicate ClosesTruthfully(log: Log, body: EventBody) {
    match body
    case OutputTextDone(_, _, text) => text == TextSent(log)
    case ContentPartDone(_, _, part) => part == OutputText(TextSent(log))
    case ReasoningTextDone(_, _, text) => text == ReasoningSent(log)
    case SummaryTextDone(_, _, text) => text == ReasoningSent(log)
    case ArgumentsDone(_, k, arguments, _) => arguments == OrEmptyObject(ArgumentsSent(log, k))
    case OutputItemDone(item, k) =>
      (match item
       case Message(_, _, parts) => parts == [OutputText(TextSent(log))]
       case Reasoning(_, _, summary, _) => summary == Some(SummaryOf(ReasoningSent(log)))
       case FunctionCall(_, _, _, _, arguments, _) => arguments == OrEmptyObject(ArgumentsSent(log, k))
       case Other(_, _) => true)
    case _ => true
  }

  predicate Truthful(log: Log) {
    log.After? ==> Truthful(log.before) && ClosesTruthfully(log.before, log.last.body)
  }

  /** Sequence numbers are 0, 1, 2 and so on. */
  predicate Numbered(log: Log) {
    log.After? ==> Numbered(log.before) && log.last.sequenceNumber == log.before.Length()
  }

  predicate NoTerminal(log: Log) {
    log.After? ==> NoTerminal(log.before) && !log.last.body.IsTerminal()
  }

  predicate IsCallDone(body: EventBody) {
    body.OutputItemDone? && (body.item.FunctionCall? || body.item.Other?)
  }

  /** The output indices of the tool calls that were declared done, in order. */
  function CallsDone(log: Log): seq<nat> {
    if log.Empty? then []
    else if IsCallDone(log.last.body) then CallsDone(log.before) + [log.last.body.outputIndex]
    else CallsDone(log.before)
  }

  function Occurrences(log: Log, eventType: string): nat {
    if log.Empty? then 0
    else Occurrences(log.before, eventType) + (if log.last.body.EventType() == eventType then 1 else 0)
  }

  /** The event types of a log, in order of first emission. */
  function TypesSeen(log: Log): seq<string> {
    if log.Empty? then []
    else
      var before := TypesSeen(log.before);
      var t := log.last.body.EventType();
      if t in before then before else before + [t]
  }

  // ---- the protocol of one output item ----

  datatype Phase =
    | Absent
    | MessageAdded | MessageStreaming | MessageTextDone | MessagePartDone
    | ReasoningAdded | ReasoningStreaming | ReasoningEcho(delta: string) | ReasoningTextClosed(text: string)
    | ReasoningSummaryClosed | ReasoningPartDone
    | CallStreaming | CallArgumentsDone
    | CustomAdded | CustomInputClosed
    | LateAdded
    | Complete
    | Broken

  predicate IsLateType(itemType: string) {
    itemType == "local_shell_call" || itemType == "shell_call" || itemType == "apply_patch_call"
  }

  lemma {:induction false} CustomIsNotLate()
    ensures !IsLateType("custom_tool_call")
  {
    var custom := "custom_tool_call";
    assert custom[0] == 'c' && "local_shell_call"[0] == 'l' && "apply_patch_call"[0] == 'a';
    assert |"shell_call"| == 10;
  }

  /**
   * One step of an item's protocol. Each reasoning text delta is echoed at once by an equal summary
   * delta, and likewise the two closing texts; nothing may follow the item's own done.
   */
  function Advance(phase: Phase, body: EventBody): Phase {
    match phase
    case Absent =>
      if !body.OutputItemAdded? then Broken
      else (match body.item
        case Message(_, _, _) => MessageAdded
        case Reasoning(_, _, _, _) => ReasoningAdded
        case FunctionCall(_, _, _, _, _, _) => CallStreaming
        case Other(itemType, _) =>
          if IsLateType(itemType) then LateAdded
          else if itemType == "custom_tool_call" then CustomAdded
          else Broken)
    case MessageAdded => if body.ContentPartAdded? then MessageStreaming else Broken
    case MessageStreaming =>
      if body.OutputTextDelta? then MessageStreaming
      else if body.OutputTextDone? then MessageTextDone
      else Broken
    case MessageTextDone => if body.ContentPartDone? then MessagePartDone else Broken
    case MessagePartDone => if body.OutputItemDone? && body.item.Message? then Complete else Broken
    case ReasoningAdded => if body.SummaryPartAdded? then ReasoningStreaming else Broken
    case ReasoningStreaming =>
      if body.ReasoningTextDelta? then ReasoningEcho(body.delta)
      else if body.ReasoningTextDone? then ReasoningTextClosed(body.doneText)
      else if body.SummaryPartDone? then ReasoningPartDone
      else Broken
    case ReasoningEcho(delta) =>
      if body.SummaryTextDelta? && body.delta == delta then ReasoningStreaming else Broken
    case ReasoningTextClosed(text) =>
      if body.SummaryTextDone? && body.doneText == text then ReasoningSummaryClosed else Broken
    case ReasoningSummaryClosed => if body.SummaryPartDone? then ReasoningPartDone else Broken
    case ReasoningPartDone => if body.OutputItemDone? && body.item.Reasoning? then Complete else Broken
    case CallStreaming =>
      if body.ArgumentsDelta? then CallStreaming
      else if body.ArgumentsDone? then CallArgumentsDone
      else Broken
    case CallArgumentsDone => if body.OutputItemDone? && body.item.FunctionCall? then Complete else Broken
    case CustomAdded => if body.CustomInputDone? then CustomInputClosed else Broken
    case CustomInputClosed => if body.OutputItemDone? && body.item.Other? then Complete else Broken
    case LateAdded => if body.OutputItemDone? && body.item.Other? then Complete else Broken
    case Complete => Broken
    case Broken => Broken
  }

  /** Where the events that carry output index `k` have led. */
  function PhaseOf(log: Log, k: nat): Phase {
    if log.Empty? then Absent
    else if log.last.body.HasIndex() && log.last.body.outputIndex == k
    then Advance(PhaseOf(log.before, k), log.last.body)
    else PhaseOf(log.before, k)
  }
}
