/** The Responses wire types that the translators build and read. */
module ResponsesSchema {
  import opened Prelude
  import opened Json

  datatype ContentPart = OutputText(text: string) | Refusal(refusal: string)

  /** An item of a response's `output`; a message always has the assistant role. */
  datatype OutputItem =
    | Reasoning(id: string, content: Option<Json>, summary: Option<Json>, encryptedContent: Option<string>)
    | Message(id: string, status: string, parts: seq<ContentPart>)
    | FunctionCall(itemId: Option<string>, callId: string, name: string, namespace: Option<string>,
                   arguments: string, callStatus: Option<string>)
    | Other(itemType: string, fields: map<string, Json>)

  datatype Usage = Usage(inputTokens: int, cachedTokens: Option<int>, outputTokens: int,
                         reasoningTokens: Option<int>, totalTokens: int)

  datatype ErrorBody = ErrorBody(code: string, message: string)

  /** Request parameters that a response echoes unchanged. */
  datatype RequestParams = RequestParams(instructions: Option<string>, temperature: Option<real>,
                                         topP: Option<real>, toolChoice: Option<Json>, tools: Option<Json>,
                                         maxOutputTokens: Option<int>, parallelToolCalls: Option<bool>)

  /** A whole response; `created_at` is a clock reading and is left out. */
  datatype Response = Response(id: string, status: string, output: seq<OutputItem>, usage: Usage,
                               model: string, params: RequestParams, error: Option<ErrorBody>,
                               incompleteReason: Option<string>)

  const NO_USAGE := Usage(0, None, 0, None, 0)

  /** The `summary` array that the gateway writes on a finished reasoning item. */
  function SummaryOf(text: string): Json {
    Array([Object(map["type" := String("summary_text"), "text" := String(text)])])
  }

  /** `id.trim_start_matches("resp_")`: every leading copy of the tag goes. */
  function BareId(id: string): string {
    if HasPrefix(id, "resp_") then BareId(id[5..]) else id
  }

  function Copies(tag: string, n: nat): string { if n == 0 then "" else tag + Copies(tag, n - 1) }

  /** The bare id is what stands behind the leading copies of the tag, however many there are. */
  lemma {:induction false} BareIdIs(id: string) returns (n: nat)
    ensures id == Copies("resp_", n) + BareId(id) && !HasPrefix(BareId(id), "resp_")
  {
    if HasPrefix(id, "resp_") {
      n := BareIdIs(id[5..]);
      assert id == "resp_" + id[5..];
      n := n + 1;
    } else {
      n := 0;
    }
  }

  function ReasoningId(responseId: string): string { "rs_" + BareId(responseId) }

  function MessageId(responseId: string): string { "msg_" + BareId(responseId) }
}
