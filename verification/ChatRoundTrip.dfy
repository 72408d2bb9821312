/** What a tool turn keeps when it goes to a Chat client and comes back. */
module ChatRoundTrip {
  import opened Prelude
  import opened Json
  import Schema = ResponsesSchema
  import opened ChatSchema
  import opened Capsule
  import opened ReasoningDedup
  import opened ChatReplay

  // ---- the calls ----

  function FunctionCalls(calls: seq<Call>): (r: seq<InputItem>)
    ensures |r| == |calls|
  {
    seq(|calls|, i requires 0 <= i < |calls| => FunctionCall(calls[i].callId, calls[i].name, calls[i].arguments, None))
  }

  /** Upstream ids that are not already capsules; only turns without reasoning send them as they are. */
  predicate IdsAreUpstreams(calls: seq<Call>) { forall c <- calls :: !IsResponsesCapsule(c.callId) }

  /** Reading a wire id gives back the upstream id, and the items it was minted with. */
  lemma {:induction false} WireIdIsRead(lib: Library, callId: string, items: seq<Json>, signer: Keyring,
                                        keyring: Keyring)
    requires Lawful(lib) && WireId(lib, callId, items, signer).Ok?
    requires items != [] ==> Keeps(signer, keyring)
    requires items == [] ==> !IsResponsesCapsule(callId)
    ensures var wire := WireId(lib, callId, items, signer).value;
            if items == [] then wire == callId
            else IsResponsesCapsule(wire)
                 && DecodeResponsesCapsule(lib, wire, keyring) == Ok(DecodedCapsule(callId, items))
  {
    if items != [] {
      ResponsesCapsuleRoundTrip(lib, callId, items, signer, keyring);
    }
  }

  /** Reading a wired call back, behind others of its turn, gives the call and its items. */
  ghost predicate ReadsBack(mint: IdMint, collect: Collector, items: seq<Json>, call: Call) {
    forall c: Collected, position: nat {:trigger collect(c, WiredCall(mint, call, position))} ::
      mint(call.callId).Ok? && (c.shared.None? || c.shared == Some(items)) ==>
        collect(c, WiredCall(mint, call, position))
        == Ok(Collected(c.calls + [FunctionCall(call.callId, call.name, call.arguments, None)],
                        if items == [] then c.shared else Some(items), c.rawSeen || items == []))
  }

  function WiredCall(mint: IdMint, call: Call, position: nat): ToolCall {
    ToolCall(Some(position), if mint(call.callId).Ok? then Some(mint(call.callId).value) else None,
             Some(call.name), call.arguments)
  }

  lemma {:induction false} WiredCallsReadBack(mint: IdMint, collect: Collector, items: seq<Json>, calls: seq<Call>)
    requires WireCalls(mint, calls).Ok? && forall call <- calls :: ReadsBack(mint, collect, items, call)
    ensures Collect(collect, WireCalls(mint, calls).value)
            == Ok(Collected(FunctionCalls(calls), if items == [] || calls == [] then None else Some(items),
                            items == [] && calls != []))
    decreases |calls|
  {
    if calls == [] {
      assert FunctionCalls(calls) == [];
    } else {
      var before, last := calls[..|calls| - 1], calls[|calls| - 1];
      var wired, call := WireCalls(mint, before).value, WiredCall(mint, last, |before|);
      WiredCallsReadBack(mint, collect, items, before);
      assert WireCalls(mint, calls).value == wired + [call];
      CollectOneMore(collect, wired, call);
      assert ReadsBack(mint, collect, items, last);
      assert FunctionCalls(calls) == FunctionCalls(before)
             + [FunctionCall(last.callId, last.name, last.arguments, None)];
    }
  }

  lemma {:induction false} CollectOneMore(collect: Collector, calls: seq<ToolCall>, call: ToolCall)
    requires Collect(collect, calls).Ok?
    ensures Collect(collect, calls + [call]) == collect(Collect(collect, calls).value, call)
  {
    assert (calls + [call])[..|calls|] == calls;
  }

  lemma {:induction false} WiredCallsAreCollected(lib: Library, calls: seq<Call>, items: seq<Json>, signer: Keyring,
                                                  keyring: Keyring)
    requires Lawful(lib) && WireCalls(WireIds(lib, items, signer), calls).Ok?
    requires items != [] ==> Keeps(signer, keyring)
    requires items == [] ==> IdsAreUpstreams(calls)
    ensures Collect(Collecting(lib, keyring), WireCalls(WireIds(lib, items, signer), calls).value)
            == Ok(Collected(FunctionCalls(calls), if items == [] || calls == [] then None else Some(items),
                            items == [] && calls != []))
  {
    var mint, collect := WireIds(lib, items, signer), Collecting(lib, keyring);
    forall call | call in calls ensures ReadsBack(mint, collect, items, call) {
      forall c: Collected, position: nat | mint(call.callId).Ok? && (c.shared.None? || c.shared == Some(items))
        ensures collect(c, WiredCall(mint, call, position))
                == Ok(Collected(c.calls + [FunctionCall(call.callId, call.name, call.arguments, None)],
                                if items == [] then c.shared else Some(items), c.rawSeen || items == []))
      {
        WiredCallIsCollected(lib, c, call, position, items, signer, keyring);
      }
    }
    WiredCallsReadBack(mint, collect, items, calls);
  }

  /** One wired call behind others of its turn. */
  lemma {:induction false} WiredCallIsCollected(lib: Library, c: Collected, call: Call, position: nat,
                                                items: seq<Json>, signer: Keyring, keyring: Keyring)
    requires Lawful(lib) && WireId(lib, call.callId, items, signer).Ok?
    requires items != [] ==> Keeps(signer, keyring)
    requires items == [] ==> !IsResponsesCapsule(call.callId)
    requires c.shared.None? || c.shared == Some(items)
    ensures var id := WireId(lib, call.callId, items, signer).value;
            CollectCall(lib, keyring, c, ToolCall(Some(position), Some(id), Some(call.name), call.arguments))
            == Ok(Collected(c.calls + [FunctionCall(call.callId, call.name, call.arguments, None)],
                            if items == [] then c.shared else Some(items), c.rawSeen || items == []))
  {
    WireIdIsRead(lib, call.callId, items, signer, keyring);
  }

  // ---- the reasoning ----

  lemma {:induction false} ValidItemsAll(items: seq<Json>)
    ensures |ValidItems(items)| <= |items|
    ensures |ValidItems(items)| == |items| ==> ValidItems(items) == items && AllValid(ItemIsValid, items)
  {
    if items != [] {
      ValidItemsAll(items[..|items| - 1]);
    }
  }

  /** A reasoning output item as the input item it is replayed as. */
  function AsInput(item: Schema.OutputItem): seq<InputItem> {
    match item
    case Reasoning(id, content, summary, encrypted) =>
      [Reasoning(Some(id), Present(content), Present(summary), encrypted)]
    case _ => []
  }

  lemma {:induction false} ReplayedStep(items: seq<Json>, v: Json)
    requires AllValid(ItemIsValid, items + [v])
    ensures AllValid(ItemIsValid, items) && ItemIsValid(v)
    ensures Replayed(items + [v]) == Replayed(items) + [FromValue(v)]
  {
    assert v in items + [v] && forall x <- items :: x in items + [v];
  }

  lemma {:induction false} ThoughtsAreReplayed(output: seq<Schema.OutputItem>)
    requires AllValid(ItemIsValid, Thoughts(output))
    ensures Replayed(Thoughts(output)) == FlatMap(AsInput, output)
  {
    if output != [] {
      var before, last := output[..|output| - 1], output[|output| - 1];
      if last.Reasoning? {
        var v := ToValue(last.id, last.content, last.summary, last.encryptedContent);
        ReplayedStep(Thoughts(before), v);
        ToValueFields(last.id, last.content, last.summary, last.encryptedContent);
      } else {
        assert Thoughts(output) == Thoughts(before);
      }
      ThoughtsAreReplayed(before);
    }
  }

  // ---- the text ----

  function AsContent(content: Option<string>): Option<Content> {
    match content
    case None => None
    case Some(text) => Some(Text(text))
  }

  /** The rendered summary comes off again, whatever the text that follows it. */
  lemma {:induction false} SummaryIsStripped(items: seq<Json>, text: string, hasCalls: bool)
    ensures var rendered := Render(ReasoningSummary(items), text);
            var content := if rendered == "" && hasCalls then None else Some(Text(rendered));
            SaidByAssistant(StripSummary(content, items)) == SaidByAssistant(Some(Text(text)))
  {
    var summary := ReasoningSummary(items);
    if summary != "" {
      var prefix := "<think>" + summary + "</think>";
      var rendered := prefix + text;
      assert rendered[..|prefix|] == prefix && rendered[|prefix|..] == text;
    }
  }

  // ---- the turn ----

  function ToolResults(calls: seq<ToolCall>, results: seq<Content>): (r: seq<Message>)
    requires |results| == |calls|
    ensures |r| == |calls|
  {
    seq(|calls|, i requires 0 <= i < |calls| => Tool(results[i], calls[i].id.GetOr("")))
  }

  function Outputs(show: Printer, calls: seq<Call>, results: seq<Content>): (r: seq<InputItem>)
    requires |results| == |calls|
    ensures |r| == |calls|
  {
    seq(|calls|, i requires 0 <= i < |calls| =>
      FunctionCallOutput(calls[i].callId, match results[i] case Text(text) => text case Parts(parts) => show(parts)))
  }

  lemma {:induction false} ResultsArePaired(lib: Library, show: Printer, calls: seq<Call>, items: seq<Json>,
                                            signer: Keyring, keyring: Keyring, results: seq<Content>)
    requires Lawful(lib) && WireCalls(WireIds(lib, items, signer), calls).Ok? && |results| == |calls|
    requires items != [] ==> Keeps(signer, keyring)
    requires items == [] ==> IdsAreUpstreams(calls)
    ensures AllItems(lib, show, keyring, ToolResults(WireCalls(WireIds(lib, items, signer), calls).value, results))
            == Ok(Outputs(show, calls, results))
  {
    if calls != [] {
      var n := |calls| - 1;
      var wired, last := WireCalls(WireIds(lib, items, signer), calls).value, calls[n];
      ResultsArePaired(lib, show, calls[..n], items, signer, keyring, results[..n]);
      WireIdIsRead(lib, last.callId, items, signer, keyring);
      assert wired[..n] == WireCalls(WireIds(lib, items, signer), calls[..n]).value;
      assert ToolResults(wired, results)[..n] == ToolResults(wired[..n], results[..n]);
      assert Outputs(show, calls, results) == Outputs(show, calls[..n], results[..n])
                                              + [FunctionCallOutput(last.callId, ToolText(show, results[n]))];
    }
  }

  /** What an assistant's tool turn should be upstream. */
  function RestoredTurn(output: seq<Schema.OutputItem>): seq<InputItem> {
    FlatMap(AsInput, output)
    + (if VisibleText(output) == "" then [] else [Said(AssistantRole, PlainText(VisibleText(output)))])
    + FunctionCalls(Calls(output))
  }

  /** The content of a reply to a tool turn: absent where there is nothing to show. */
  function ReplyContent(rendered: string): Option<Content> { if rendered == "" then None else Some(Text(rendered)) }

  /** The wire calls and the content of a reply, when there are calls. */
  lemma {:induction false} ReplyIsWired(lib: Library, response: Schema.Response, runtime: Runtime)
    requires ToChat(lib, response, runtime).Ok? && Calls(response.output) != []
    ensures var wired := WireCalls(WireIds(lib, Thoughts(response.output), runtime.keyring), Calls(response.output));
            var reply := ToChat(lib, response, runtime).value;
            && wired.Ok? && reply.toolCalls == Some(wired.value)
            && AsContent(reply.content)
               == ReplyContent(Render(ReasoningSummary(Thoughts(response.output)), VisibleText(response.output)))
    ensures AllValid(ItemIsValid, Thoughts(response.output))
  {
    ValidItemsAll(Thoughts(response.output));
  }

  lemma {:induction false} RestoredWithThoughts(lib: Library, keyring: Keyring, wired: seq<ToolCall>,
                                                items: seq<Json>, text: string, calls: seq<InputItem>)
    requires AllValid(ItemIsValid, items)
             && Collect(Collecting(lib, keyring), wired) == Ok(Collected(calls, Some(items), false))
    ensures AssistantItems(lib, keyring, ReplyContent(Render(ReasoningSummary(items), text)), wired)
            == Ok(Replayed(items) + SaidByAssistant(Some(Text(text))) + calls)
  {
    SummaryIsStripped(items, text, true);
  }

  lemma {:induction false} RestoredWithoutThoughts(lib: Library, keyring: Keyring, wired: seq<ToolCall>,
                                                   text: string, calls: seq<InputItem>)
    requires Collect(Collecting(lib, keyring), wired) == Ok(Collected(calls, None, true))
    ensures AssistantItems(lib, keyring, ReplyContent(text), wired)
            == Ok([] + SaidByAssistant(Some(Text(text))) + calls)
  {
    var said := SaidByAssistant(Some(Text(text)));
    assert [] + said == said;
  }

  /** The assistant message of a tool turn, read back. */
  lemma {:induction false} AssistantIsRestored(lib: Library, response: Schema.Response, runtime: Runtime,
                                               keyring: Keyring)
    requires Lawful(lib) && ToChat(lib, response, runtime).Ok? && Calls(response.output) != []
    requires Thoughts(response.output) != [] ==> Keeps(runtime.keyring, keyring)
    requires Thoughts(response.output) == [] ==> IdsAreUpstreams(Calls(response.output))
    ensures var reply := ToChat(lib, response, runtime).value;
            && reply.toolCalls.Some?
            && AssistantItems(lib, keyring, AsContent(reply.content), reply.toolCalls.value)
               == Ok(RestoredTurn(response.output))
  {
    var thoughts, calls, text := Thoughts(response.output), Calls(response.output), VisibleText(response.output);
    ReplyIsWired(lib, response, runtime);
    var wired := WireCalls(WireIds(lib, thoughts, runtime.keyring), calls).value;
    WiredCallsAreCollected(lib, calls, thoughts, runtime.keyring, keyring);
    ThoughtsAreReplayed(response.output);
    if thoughts == [] {
      RestoredWithoutThoughts(lib, keyring, wired, text, FunctionCalls(calls));
    } else {
      RestoredWithThoughts(lib, keyring, wired, thoughts, text, FunctionCalls(calls));
    }
  }

  /**
   * Tool-turn round trip: when a client sends back the message a response was turned into, with a result
   * for each call, behind any history, the input ends with exactly the response's reasoning items, its
   * text without the rendered summary, every call under its upstream id with its name and arguments, and
   * each result under the id of its call. The keyring need only have kept the signing key; without
   * reasoning the upstream ids must not look like capsules.
   */
  lemma {:induction false} ToolTurnRoundTrip(lib: Library, show: Printer, response: Schema.Response,
                                             runtime: Runtime, keyring: Keyring, history: seq<Message>,
                                             results: seq<Content>)
    requires Lawful(lib) && ToChat(lib, response, runtime).Ok? && Calls(response.output) != []
    requires Thoughts(response.output) != [] ==> Keeps(runtime.keyring, keyring)
    requires Thoughts(response.output) == [] ==> IdsAreUpstreams(Calls(response.output))
    requires AllItems(lib, show, keyring, history).Ok? && |results| == |Calls(response.output)|
    ensures var reply := ToChat(lib, response, runtime).value;
            && reply.toolCalls.Some? && |reply.toolCalls.value| == |results|
            && AllItems(lib, show, keyring, history + [Assistant(AsContent(reply.content), reply.toolCalls)]
                                            + ToolResults(reply.toolCalls.value, results))
               == Ok(AllItems(lib, show, keyring, history).value + RestoredTurn(response.output)
                     + Outputs(show, Calls(response.output), results))
  {
    var reply := ToChat(lib, response, runtime).value;
    ReplyIsWired(lib, response, runtime);
    AssistantIsRestored(lib, response, runtime, keyring);
    ResultsArePaired(lib, show, Calls(response.output), Thoughts(response.output), runtime.keyring, keyring, results);
    AssistantIsTranslated(lib, show, keyring, AsContent(reply.content), reply.toolCalls);
    ThreeParts(Translation(lib, show, keyring), history, Assistant(AsContent(reply.content), reply.toolCalls),
               ToolResults(reply.toolCalls.value, results));
  }

  lemma {:induction false} AssistantIsTranslated(lib: Library, show: Printer, keyring: Keyring,
                                                 content: Option<Content>, calls: Option<seq<ToolCall>>)
    ensures Translation(lib, show, keyring)(Assistant(content, calls))
            == AssistantItems(lib, keyring, content, calls.GetOr([]))
  {
  }

  lemma {:induction false} ThreeParts<A, B, E>(f: A -> Result<seq<B>, E>, before: seq<A>, x: A, after: seq<A>)
    requires TryFlatMap(f, before).Ok? && f(x).Ok? && TryFlatMap(f, after).Ok?
    ensures TryFlatMap(f, before + [x] + after)
            == Ok(TryFlatMap(f, before).value + f(x).value + TryFlatMap(f, after).value)
  {
    var both := before + [x];
    TryFlatMapOne(f, x);
    TryFlatMapAppend(f, before, [x]);
    TryFlatMapAppend(f, both, after);
  }

  /** With distinct reasoning ids, de-duplication lets the restored turn through as it is. */
  lemma {:induction false} ToolTurnReachesUpstream(lib: Library, show: Printer, response: Schema.Response,
                                                   runtime: Runtime, keyring: Keyring, history: seq<Message>,
                                                   results: seq<Content>)
    requires Lawful(lib) && ToChat(lib, response, runtime).Ok? && Calls(response.output) != []
    requires Thoughts(response.output) != [] ==> Keeps(runtime.keyring, keyring)
    requires Thoughts(response.output) == [] ==> IdsAreUpstreams(Calls(response.output))
    requires AllItems(lib, show, keyring, history).Ok? && |results| == |Calls(response.output)|
    requires DistinctIds(AllItems(lib, show, keyring, history).value + RestoredTurn(response.output)
                     + Outputs(show, Calls(response.output), results))
    ensures var reply := ToChat(lib, response, runtime).value;
            && reply.toolCalls.Some? && |reply.toolCalls.value| == |results|
            && InputOf(lib, show, keyring, history + [Assistant(AsContent(reply.content), reply.toolCalls)]
                                           + ToolResults(reply.toolCalls.value, results))
               == Ok(AllItems(lib, show, keyring, history).value + RestoredTurn(response.output)
                     + Outputs(show, Calls(response.output), results))
  {
    ToolTurnRoundTrip(lib, show, response, runtime, keyring, history, results);
    DistinctIsUntouched(AllItems(lib, show, keyring, history).value + RestoredTurn(response.output)
                     + Outputs(show, Calls(response.output), results));
    DistinctIsConsistent(AllItems(lib, show, keyring, history).value + RestoredTurn(response.output)
                     + Outputs(show, Calls(response.output), results));
  }
}
