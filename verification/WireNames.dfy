/** The names of the events that the gateway streams, against what its own readers of such streams take them for. */
module WireNames {
  import opened Trace
  import ChatWire
  import SseMetadata

  /** The kinds of events that mean something to a chat. */
  predicate IsForChat(body: EventBody) {
    || body.OutputItemAdded? || body.OutputItemDone? || body.OutputTextDelta?
    || body.ArgumentsDelta? || body.ArgumentsDone? || body.SummaryTextDelta? || body.SummaryTextDone?
    || body.IsTerminal()
  }

  /** The name is the one under which the chat adapter hears events of this kind. */
  predicate IsHeardAs(body: EventBody, name: string) {
    match body
    case OutputItemAdded(_, _) => name == ChatWire.ItemEvent(false)
    case OutputItemDone(_, _) => name == ChatWire.ItemEvent(true)
    case OutputTextDelta(_, _, _) => name == "response.output_text.delta"
    case ArgumentsDelta(_, _, _) => name == "response.function_call_arguments.delta"
    case ArgumentsDone(_, _, _, _) => name == "response.function_call_arguments.done"
    case SummaryTextDelta(_, _, _) => name == "response.reasoning_summary_text.delta"
    case SummaryTextDone(_, _, _) => name == "response.reasoning_summary_text.done"
    case Completed(_) => name == ChatWire.EndEvent(false)
    case Incomplete(_) => name == ChatWire.EndEvent(true)
    case Failed(_) => name == "response.failed"
    case _ => false
  }

  lemma {:induction false} SkippedNames()
    ensures |"response.created"| == 16 && |"response.in_progress"| == 20
    ensures |"response.content_part.added"| == 27 && |"response.content_part.done"| == 26
    ensures "response.content_part.done"[9] == 'c'
    ensures |"response.output_text.done"| == 25 && "response.output_text.done"[16] == 't'
    ensures |"response.reasoning_text.delta"| == 29 && |"response.reasoning_text.done"| == 28
  {
  }

  lemma {:induction false} LongSkippedNames()
    ensures |"response.custom_tool_call_input.done"| == 36 && "response.custom_tool_call_input.done"[9] == 'c'
    ensures |"response.reasoning_summary_part.added"| == 37 && "response.reasoning_summary_part.added"[27] == 'p'
    ensures |"response.reasoning_summary_part.done"| == 36 && "response.reasoning_summary_part.done"[27] == 'p'
  {
  }

  lemma {:induction false} HeardNames()
    ensures "response.output_item.done"[16] == 'i' && "response.output_text.delta"[9] == 'o'
    ensures "response.output_item.added"[9] == 'o'
    ensures "response.reasoning_summary_text.done"[9] == 'r' && "response.reasoning_summary_text.done"[27] == 't'
    ensures "response.reasoning_summary_text.delta"[27] == 't' && "response.function_call_arguments.done"[9] == 'f'
  {
  }

  lemma {:induction false} ShortIsSkipped(name: string)
    requires name == "response.created" || name == "response.in_progress"
             || name == "response.content_part.added" || name == "response.content_part.done"
    ensures !ChatWire.IsHeardEvent(name)
  {
    SkippedNames();
    HeardNames();
    ChatWire.LongNames();
    ChatWire.ShortNames();
  }

  lemma {:induction false} TextIsSkipped(name: string)
    requires name == "response.output_text.done"
             || name == "response.reasoning_text.delta" || name == "response.reasoning_text.done"
    ensures !ChatWire.IsHeardEvent(name)
  {
    SkippedNames();
    HeardNames();
    ChatWire.LongNames();
    ChatWire.ShortNames();
  }

  lemma {:induction false} LongIsSkipped(name: string)
    requires name == "response.custom_tool_call_input.done" || name == "response.reasoning_summary_part.added"
             || name == "response.reasoning_summary_part.done"
    ensures !ChatWire.IsHeardEvent(name)
  {
    LongSkippedNames();
    HeardNames();
    ChatWire.LongNames();
    ChatWire.ShortNames();
  }

  lemma {:induction false} HeardIsKnown(body: EventBody)
    requires IsForChat(body)
    ensures IsHeardAs(body, body.EventType()) && ChatWire.IsHeardEvent(body.EventType())
  {
  }

  /**
   * The gateway's own streams speak its readers' language: an event is sent under the name by which the chat adapter
   * hears its kind, and is skipped by it exactly when its kind means nothing to a chat; the recogniser of raw streams
   * takes exactly the names of terminal events for the end.
   */
  lemma {:induction false} NamesAreUnderstood(body: EventBody)
    ensures IsForChat(body) ==> IsHeardAs(body, body.EventType())
    ensures ChatWire.IsHeardEvent(body.EventType()) <==> IsForChat(body)
    ensures SseMetadata.EndsAnswer(body.EventType()) <==> body.IsTerminal()
  {
    if IsForChat(body) {
      HeardIsKnown(body);
      ChatWire.LongNames();
      ChatWire.ShortNames();
    } else if body.Created? || body.InProgress? || body.ContentPartAdded? || body.ContentPartDone? {
      ShortIsSkipped(body.EventType());
    } else if body.OutputTextDone? || body.ReasoningTextDelta? || body.ReasoningTextDone? {
      TextIsSkipped(body.EventType());
    } else {
      LongIsSkipped(body.EventType());
    }
  }
}
