/**
 * The two directions between a Responses turn and a Chat turn: a finished response becomes a Chat message
 * whose tool-call ids carry the turn's reasoning, and the message a client sends back, with its tool
 * results, becomes Responses input items again.
 */
module ChatReplay {
  import opened Prelude
  import opened Json
  import Schema = ResponsesSchema
  import opened ChatSchema
  import opened Capsule
  import opened ReasoningDedup

  datatype ReplayError =
    | Upstream(error: Option<Schema.ErrorBody>)
    | UnsupportedCallItem(itemType: string)
    | InterleavedReasoning
    | UnreplayableReasoning
    | EncoderDisabled
    | BadCapsule(why: CapsuleError)
    | MissingToolCallId
    | MissingFunctionName
    | DivergentCapsules
    | MixedIds
    | SystemImage
    | Duplicates

  // ---- reasoning items as JSON ----

  function Field(name: string, value: Option<Json>): map<string, Json> {
    match value
    case None => map[]
    case Some(v) => map[name := v]
  }

  function Optional(text: Option<string>): Option<Json> {
    match text
    case None => None
    case Some(t) => Some(String(t))
  }

  /** `serde_json::to_value` of a reasoning output item: fields that are absent are not written. */
  function ToValue(id: string, content: Option<Json>, summary: Option<Json>, encrypted: Option<string>): Json {
    Object(map["type" := String("reasoning"), "id" := String(id)]
           + Field("content", content) + Field("summary", summary)
           + Field("encrypted_content", Optional(encrypted)))
  }

  /** Reading an optional field takes a JSON null for an absent one. */
  function Present(value: Option<Json>): Option<Json> { if value == Some(Null) then None else value }

  /** `serde_json::from_value` of a valid reasoning item to an input item. */
  function FromValue(item: Json): InputItem
    requires ItemIsValid(item)
  {
    Reasoning(item.GetString("id"), Present(item.Get("content")), Present(item.Get("summary")),
              item.GetString("encrypted_content"))
  }

  lemma {:induction false} ToValueFields(id: string, content: Option<Json>, summary: Option<Json>,
                                         encrypted: Option<string>)
    ensures var v := ToValue(id, content, summary, encrypted);
            && v.GetString("type") == Some("reasoning")
            && v.GetString("id") == Some(id)
            && v.Get("content") == content
            && v.Get("summary") == summary
            && v.GetString("encrypted_content") == encrypted
  {
  }

  function PartText(part: Json): string { part.GetString("text").GetOr("") }

  function ItemSummary(item: Json): string {
    match item.Get("summary")
    case None => ""
    case Some(s) => if s.Array? then FlatMap(PartText, s.items) else ""
  }

  function ReasoningSummary(items: seq<Json>): string { FlatMap(ItemSummary, items) }

  // ---- a finished response as a Chat message ----

  datatype ChatReply = ChatReply(content: Option<string>, toolCalls: Option<seq<ToolCall>>, finishReason: string)

  function ThoughtsOf(item: Schema.OutputItem): seq<Json> {
    match item
    case Reasoning(id, content, summary, encrypted) => [ToValue(id, content, summary, encrypted)]
    case _ => []
  }

  function PartOf(part: Schema.ContentPart): string {
    match part
    case OutputText(text) => text
    case Refusal(refusal) => refusal
  }

  function TextOf(item: Schema.OutputItem): string {
    match item
    case Message(_, _, parts) => FlatMap(PartOf, parts)
    case _ => ""
  }

  datatype Call = Call(callId: string, name: string, arguments: string)

  function CallsOf(item: Schema.OutputItem): seq<Call> {
    match item
    case FunctionCall(_, callId, name, _, arguments, _) => [Call(callId, name, arguments)]
    case _ => []
  }

  function IsCallLike(itemType: string): bool { HasSuffix(itemType, "_call") }

  predicate HasSuffix(s: string, suffix: string) { |suffix| <= |s| && s[|s| - |suffix|..] == suffix }

  function Thoughts(output: seq<Schema.OutputItem>): seq<Json> { FlatMap(ThoughtsOf, output) }

  function VisibleText(output: seq<Schema.OutputItem>): string { FlatMap(TextOf, output) }

  function Calls(output: seq<Schema.OutputItem>): seq<Call> { FlatMap(CallsOf, output) }

  /** The first item that cannot be adapted, if any. */
  function Refused(output: seq<Schema.OutputItem>): Option<ReplayError> {
    if output == [] then None
    else
      var before, last := output[..|output| - 1], output[|output| - 1];
      if Refused(before).Some? then Refused(before)
      else if last.Reasoning? && Calls(before) != [] then Some(InterleavedReasoning)
      else if last.Other? && IsCallLike(last.itemType) then Some(UnsupportedCallItem(last.itemType))
      else None
  }

  function Render(summary: string, text: string): string {
    if summary == "" then text else "<think>" + summary + "</think>" + text
  }

  function WireId(lib: Library, callId: string, items: seq<Json>, keyring: Keyring): Result<string, ReplayError> {
    if items == [] then Ok(callId)
    else match EncodeResponsesCapsule(lib, callId, items, keyring)
      case Ok(wire) => Ok(wire)
      case Err(e) => Err(BadCapsule(e))
  }

  type IdMint = string -> Result<string, ReplayError>

  function WireIds(lib: Library, items: seq<Json>, keyring: Keyring): IdMint {
    callId => WireId(lib, callId, items, keyring)
  }

  /** The calls with their wire ids and positions; the first id that cannot be minted fails them all. */
  function WireCalls(mint: IdMint, calls: seq<Call>): (r: Result<seq<ToolCall>, ReplayError>)
    ensures r.Ok? ==> |r.value| == |calls|
  {
    if calls == [] then Ok([])
    else match WireCalls(mint, calls[..|calls| - 1])
      case Err(e) => Err(e)
      case Ok(wired) =>
        var last := calls[|calls| - 1];
        match mint(last.callId)
        case Err(e) => Err(e)
        case Ok(id) => Ok(wired + [ToolCall(Some(|calls| - 1), Some(id), Some(last.name), last.arguments)])
  }

  function ValidItems(items: seq<Json>): seq<Json> {
    FlatMap((item: Json) => if ItemIsValid(item) then [item] else [], items)
  }

  function ToChat(lib: Library, response: Schema.Response, runtime: Runtime): Result<ChatReply, ReplayError> {
    if response.status == "failed" || response.error.Some? then Err(Upstream(response.error))
    else if Refused(response.output).Some? then Err(Refused(response.output).value)
    else
      var thoughts, calls := Thoughts(response.output), Calls(response.output);
      var items := ValidItems(thoughts);
      if calls != [] && |items| != |thoughts| then Err(UnreplayableReasoning)
      else if calls != [] && items != [] && !runtime.encoderEnabled then Err(EncoderDisabled)
      else
        var rendered := Render(ReasoningSummary(thoughts), VisibleText(response.output));
        match WireCalls(WireIds(lib, items, runtime.keyring), calls)
        case Err(e) => Err(e)
        case Ok(wired) =>
          Ok(ChatReply(
               if rendered == "" && wired != [] then None else Some(rendered),
               if wired != [] then Some(wired) else None,
               if wired != [] then "tool_calls" else if response.status == "incomplete" then "length" else "stop"))
  }

  // ---- a Chat message as input items ----

  function ToInputPart(part: ChatPart): InputPart {
    match part
    case TextPart(text) => InputText(text)
    case ImagePart(url, detail) => InputImage(url, detail)
  }

  function ToInputContent(content: Content): InputContent {
    match content
    case Text(text) => PlainText(text)
    case Parts(parts) => InputParts(seq(|parts|, i requires 0 <= i < |parts| => ToInputPart(parts[i])))
  }

  function PlainPart(part: ChatPart): string { if part.TextPart? then part.text else "" }

  /** An assistant's text parts are sent as one text. */
  function AssistantContent(content: Content): InputContent {
    if content.Parts? && (forall p <- content.parts :: p.TextPart?) then PlainText(FlatMap(PlainPart, content.parts))
    else ToInputContent(content)
  }

  function SystemContent(content: Content): Result<InputContent, ReplayError> {
    if content.Parts? && (exists p <- content.parts :: p.ImagePart?) then Err(SystemImage)
    else Ok(ToInputContent(content))
  }

  predicate HasOutput(content: Option<Content>) {
    match content
    case Some(Text(text)) => text != ""
    case Some(Parts(parts)) => parts != []
    case None => false
  }

  /** Takes the rendered summary off the front of the content, if it is there. */
  function StripSummary(content: Option<Content>, items: seq<Json>): Option<Content> {
    var summary := ReasoningSummary(items);
    var prefix := "<think>" + summary + "</think>";
    if summary == "" then content
    else match content
      case Some(Text(text)) => Some(Text(StripPrefix(text, prefix).GetOr(text)))
      case Some(Parts(parts)) =>
        if parts != [] && parts[0].TextPart? then
          Some(Parts([TextPart(StripPrefix(parts[0].text, prefix).GetOr(parts[0].text))] + parts[1..]))
        else content
      case None => None
  }

  datatype Collected = Collected(calls: seq<InputItem>, shared: Option<seq<Json>>, rawSeen: bool)

  function CollectCall(lib: Library, keyring: Keyring, c: Collected, call: ToolCall): Result<Collected, ReplayError> {
    match call.id
    case None => Err(MissingToolCallId)
    case Some(id) =>
      if IsResponsesCapsule(id) then
        match DecodeResponsesCapsule(lib, id, keyring)
        case Err(e) => Err(BadCapsule(e))
        case Ok(d) =>
          if c.shared.Some? && c.shared.value != d.reasoning then Err(DivergentCapsules)
          else if call.name.None? then Err(MissingFunctionName)
          else Ok(Collected(c.calls + [FunctionCall(d.id, call.name.value, call.arguments, None)],
                            Some(d.reasoning), c.rawSeen))
      else if call.name.None? then Err(MissingFunctionName)
      else Ok(Collected(c.calls + [FunctionCall(id, call.name.value, call.arguments, None)], c.shared, true))
  }

  type Collector = (Collected, ToolCall) -> Result<Collected, ReplayError>

  function Collecting(lib: Library, keyring: Keyring): Collector { (c, call) => CollectCall(lib, keyring, c, call) }

  /** All calls in order; the first that cannot be replayed fails them all. */
  function Collect(collect: Collector, calls: seq<ToolCall>): Result<Collected, ReplayError> {
    if calls == [] then Ok(Collected([], None, false))
    else match Collect(collect, calls[..|calls| - 1])
      case Err(e) => Err(e)
      case Ok(c) => collect(c, calls[|calls| - 1])
  }

  function Replayed(items: seq<Json>): seq<InputItem>
    requires AllValid(ItemIsValid, items)
  {
    seq(|items|, i requires 0 <= i < |items| => FromValue(items[i]))
  }

  function SaidByAssistant(content: Option<Content>): seq<InputItem> {
    if HasOutput(content) then [Said(AssistantRole, AssistantContent(content.value))] else []
  }

  lemma {:induction false} SharedIsValid(lib: Library, keyring: Keyring, calls: seq<ToolCall>)
    requires Collect(Collecting(lib, keyring), calls).Ok? && Collect(Collecting(lib, keyring), calls).value.shared.Some?
    ensures AllValid(ItemIsValid, Collect(Collecting(lib, keyring), calls).value.shared.value)
  {
    var collect := Collecting(lib, keyring);
    var before := Collect(collect, calls[..|calls| - 1]).value;
    assert collect(before, calls[|calls| - 1]) == CollectCall(lib, keyring, before, calls[|calls| - 1]);
    if before.shared.Some? {
      SharedIsValid(lib, keyring, calls[..|calls| - 1]);
    }
  }

  /** The items of an assistant turn: its reasoning, then what it said, then its calls. */
  function AssistantItems(lib: Library, keyring: Keyring, content: Option<Content>, calls: seq<ToolCall>)
    : Result<seq<InputItem>, ReplayError>
  {
    match Collect(Collecting(lib, keyring), calls)
    case Err(e) => Err(e)
    case Ok(c) =>
      if c.rawSeen && c.shared.Some? then Err(MixedIds)
      else match c.shared
        case None => Ok(SaidByAssistant(content) + c.calls)
        case Some(items) =>
          SharedIsValid(lib, keyring, calls);
          Ok(Replayed(items) + SaidByAssistant(StripSummary(content, items)) + c.calls)
  }

  /** The JSON printer for a tool result's content parts is not defined here. */
  type Printer = seq<ChatPart> -> string

  function ToolText(show: Printer, content: Content): string {
    match content
    case Text(text) => text
    case Parts(parts) => show(parts)
  }

  function MessageItems(lib: Library, show: Printer, keyring: Keyring, message: Message)
    : Result<seq<InputItem>, ReplayError>
  {
    match message
    case System(content) =>
      (match SystemContent(content) case Err(e) => Err(e) case Ok(c) => Ok([Said(SystemRole, c)]))
    case Developer(content) =>
      (match SystemContent(content) case Err(e) => Err(e) case Ok(c) => Ok([Said(DeveloperRole, c)]))
    case User(content) => Ok([Said(UserRole, ToInputContent(content))])
    case Assistant(content, calls) => AssistantItems(lib, keyring, content, calls.GetOr([]))
    case Tool(content, id) =>
      if IsResponsesCapsule(id) then
        match DecodeResponsesCapsule(lib, id, keyring)
        case Err(e) => Err(BadCapsule(e))
        case Ok(d) => Ok([FunctionCallOutput(d.id, ToolText(show, content))])
      else Ok([FunctionCallOutput(id, ToolText(show, content))])
  }

  /** Content is kept part by part. */
  predicate ContentKept(content: Content, sent: InputContent) {
    match content
    case Text(text) => sent == PlainText(text)
    case Parts(parts) =>
      && sent.InputParts? && |sent.parts| == |parts|
      && forall i :: 0 <= i < |parts| ==>
           match parts[i]
           case TextPart(text) => sent.parts[i] == InputText(text)
           case ImagePart(url, detail) => sent.parts[i] == InputImage(url, detail)
  }

  predicate HasImage(content: Content) {
    content.Parts? && exists i :: 0 <= i < |content.parts| && content.parts[i].ImagePart?
  }

  /** The role an instruction or a question is sent under. */
  predicate SentAs(message: Message, role: Role) {
    (message.System? && role == SystemRole) || (message.Developer? && role == DeveloperRole)
    || (message.User? && role == UserRole)
  }

  /**
   * What becomes of a message that is no assistant's. An instruction or a question is one message of the same role
   * with the same content, and is refused exactly when an instruction has an image. A tool result is one output
   * under the upstream id of its call: its own id, or the one its capsule carries; it is refused exactly when that
   * capsule is not accepted.
   */
  lemma {:induction false} MessageKeepsItsContent(lib: Library, show: Printer, keyring: Keyring, message: Message)
    requires !message.Assistant?
    ensures var r := MessageItems(lib, show, keyring, message);
            if message.Tool? then
              var decoded := DecodeResponsesCapsule(lib, message.toolCallId, keyring);
              if IsResponsesCapsule(message.toolCallId) && decoded.Err? then r == Err(BadCapsule(decoded.error))
              else
                && r.Ok? && |r.value| == 1 && r.value[0].FunctionCallOutput?
                && r.value[0].callId ==
                      (if IsResponsesCapsule(message.toolCallId) then decoded.value.id else message.toolCallId)
                && r.value[0].output == match message.content case Text(text) => text case Parts(parts) => show(parts)
            else
              && (r.Err? <==> !message.User? && HasImage(message.content))
              && (r.Err? ==> r.error == SystemImage)
              && (r.Ok? ==> |r.value| == 1 && r.value[0].Said? && SentAs(message, r.value[0].role)
                            && ContentKept(message.content, r.value[0].content))
  {
    if !message.Tool? && message.content.Parts? {
      var parts := message.content.parts;
      assert (exists p <- parts :: p.ImagePart?) <==> HasImage(message.content) by {
        if HasImage(message.content) {
          var i :| 0 <= i < |parts| && parts[i].ImagePart?;
          assert parts[i] in parts;
        }
      }
    }
  }

  function Translation(lib: Library, show: Printer, keyring: Keyring): Message -> Result<seq<InputItem>, ReplayError> {
    message => MessageItems(lib, show, keyring, message)
  }

  /** All messages in order; the first that cannot be translated fails them all. */
  function AllItems(lib: Library, show: Printer, keyring: Keyring, messages: seq<Message>)
    : Result<seq<InputItem>, ReplayError>
  {
    TryFlatMap(Translation(lib, show, keyring), messages)
  }

  /** The input of the adapted request. */
  function InputOf(lib: Library, show: Printer, keyring: Keyring, messages: seq<Message>)
    : Result<seq<InputItem>, ReplayError>
  {
    match AllItems(lib, show, keyring, messages)
    case Err(e) => Err(e)
    case Ok(items) =>
      match Deduplicated(items)
      case Err(_) => Err(Duplicates)
      case Ok(input) => Ok(input)
  }
}
