/** The Chat wire types, and the Responses input items they are translated into. */
module ChatSchema {
  import opened Prelude
  import opened Json

  datatype ChatPart = TextPart(text: string) | ImagePart(url: string, detail: string)

  datatype Content = Text(text: string) | Parts(parts: seq<ChatPart>)

  datatype ToolCall = ToolCall(index: Option<int>, id: Option<string>, name: Option<string>, arguments: string)

  datatype Message =
    | System(content: Content)
    | Developer(content: Content)
    | User(content: Content)
    | Assistant(reply: Option<Content>, toolCalls: Option<seq<ToolCall>>)
    | Tool(content: Content, toolCallId: string)

  datatype InputPart = InputText(text: string) | InputImage(url: string, detail: string)

  datatype InputContent = PlainText(text: string) | InputParts(parts: seq<InputPart>)

  datatype Role = SystemRole | DeveloperRole | UserRole | AssistantRole

  datatype InputItem =
    | Said(role: Role, content: InputContent)
    | FunctionCall(callId: string, name: string, arguments: string, namespace: Option<string>)
    | FunctionCallOutput(callId: string, output: string)
    | ItemReference(refId: string)
    | OtherItem(itemType: string, fields: map<string, Json>)
    | Reasoning(id: Option<string>, thought: Option<Json>, summary: Option<Json>, encryptedContent: Option<string>)
}
