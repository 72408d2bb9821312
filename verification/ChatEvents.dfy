/** The Responses stream events as the Chat adapter reads them off their JSON. */
module ChatEvents {
  import opened Prelude
  import opened Json
  import opened ChatReplay

  datatype EventError =
    | NoType
    | NoItem
    | NoItemType
    | NoCallId
    | NoName
    | OutputNotArray
    | UnsupportedCall(itemType: string)

  /** Output indices are read as `u64` and truncated to `u32`; anything else counts as 0. */
  function OutputIndex(event: Json): nat {
    match event.Get("output_index")
    case Some(Number(n)) => if 0 <= n < 0x1_0000_0000_0000_0000 then n % 0x1_0000_0000 else 0
    case _ => 0
  }

  datatype Event =
    | SummaryDelta(delta: string)
    | SummaryDone(text: string)
    | TextDelta(delta: string)
    | ReasoningItem(index: nat, item: Json, done: bool)
    | CallItem(index: nat, callId: string, name: string, arguments: string, done: bool)
    | ArgumentsDelta(index: nat, delta: string)
    | ArgumentsDone(index: nat, arguments: string)
    | Terminal(incomplete: bool, usage: Option<Json>)
    | Failed(event: Json)
    | Ignored

  /** A type the adapter knows, or one it may skip; an unknown kind of call cannot be skipped. */
  function ItemType(item: Json): Result<string, EventError> {
    match item.GetString("type")
    case None => Err(NoItemType)
    case Some(t) =>
      if t != "reasoning" && t != "message" && t != "function_call" && IsCallLike(t) then Err(UnsupportedCall(t))
      else Ok(t)
  }

  function ReadItem(event: Json, done: bool): Result<Event, EventError> {
    match event.Get("item")
    case None => Err(NoItem)
    case Some(item) =>
      match ItemType(item)
      case Err(e) => Err(e)
      case Ok(t) =>
        if t == "reasoning" then Ok(ReasoningItem(OutputIndex(event), item, done))
        else if t != "function_call" then Ok(Ignored)
        else match item.GetString("call_id")
          case None => Err(NoCallId)
          case Some(callId) =>
            match item.GetString("name")
            case None => Err(NoName)
            case Some(name) =>
              Ok(CallItem(OutputIndex(event), callId, name, item.GetString("arguments").GetOr(""), done))
  }

  /** The first output item of a terminal response that the adapter may not skip. */
  function CheckItems(items: seq<Json>): Result<(), EventError> {
    if items == [] then Ok(())
    else match ItemType(items[0])
      case Err(e) => Err(e)
      case Ok(_) => CheckItems(items[1..])
  }

  function CheckTerminal(event: Json): Result<(), EventError> {
    match event.Get("response")
    case None => Ok(())
    case Some(response) =>
      match response.Get("output")
      case None => Ok(())
      case Some(output) => if output.Array? then CheckItems(output.items) else Err(OutputNotArray)
  }

  function ReadTerminal(event: Json, incomplete: bool): Result<Event, EventError> {
    match CheckTerminal(event)
    case Err(e) => Err(e)
    case Ok(_) =>
      match event.Get("response")
      case None => Ok(Terminal(incomplete, None))
      case Some(response) => Ok(Terminal(incomplete, response.Get("usage")))
  }

  function Read(event: Json): Result<Event, EventError> {
    match event.GetString("type")
    case None => Err(NoType)
    case Some(t) =>
      if t == "response.reasoning_summary_text.delta" then Ok(SummaryDelta(event.GetString("delta").GetOr("")))
      else if t == "response.reasoning_summary_text.done" then Ok(SummaryDone(event.GetString("text").GetOr("")))
      else if t == "response.output_text.delta" then Ok(TextDelta(event.GetString("delta").GetOr("")))
      else if t == "response.output_item.added" then ReadItem(event, false)
      else if t == "response.output_item.done" then ReadItem(event, true)
      else if t == "response.function_call_arguments.delta" then
        Ok(ArgumentsDelta(OutputIndex(event), event.GetString("delta").GetOr("")))
      else if t == "response.function_call_arguments.done" then
        Ok(ArgumentsDone(OutputIndex(event), event.GetString("arguments").GetOr("")))
      else if t == "response.completed" then ReadTerminal(event, false)
      else if t == "response.incomplete" then ReadTerminal(event, true)
      else if t == "response.failed" || t == "error" then Ok(Failed(event))
      else Ok(Ignored)
  }
}
