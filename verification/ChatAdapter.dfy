/** The loops of the two translations, each against the function of ChatReplay that specifies it. */
module ChatAdapter {
  import opened Prelude
  import opened Json
  import Schema = ResponsesSchema
  import opened Capsule
  import opened ChatSchema
  import opened ReasoningDedup
  import opened ChatReplay

  // ---- a finished response as a Chat message ----

  /** What the loop over the output items has gathered. */
  datatype Gathered = Gathered(valid: seq<Json>, all: seq<Json>, text: string, calls: seq<Call>)

  function GatheredFrom(output: seq<Schema.OutputItem>): Gathered {
    Gathered(ValidItems(Thoughts(output)), Thoughts(output), VisibleText(output), Calls(output))
  }

  function Next(g: Gathered, item: Schema.OutputItem): Gathered {
    match item
    case Reasoning(id, content, summary, encrypted) =>
      var v := ToValue(id, content, summary, encrypted);
      g.(all := g.all + [v], valid := if ItemIsValid(v) then g.valid + [v] else g.valid)
    case Message(_, _, parts) => g.(text := g.text + FlatMap(PartOf, parts))
    case FunctionCall(_, callId, name, _, arguments, _) => g.(calls := g.calls + [Call(callId, name, arguments)])
    case Other(_, _) => g
  }

  lemma {:induction false} ValidStep(thoughts: seq<Json>, v: Json)
    ensures ValidItems(thoughts + [v]) == if ItemIsValid(v) then ValidItems(thoughts) + [v] else ValidItems(thoughts)
  {
    FlatMapOne((x: Json) => if ItemIsValid(x) then [x] else [], thoughts, v);
  }

  lemma {:induction false} GatherStep(before: seq<Schema.OutputItem>, item: Schema.OutputItem)
    ensures GatheredFrom(before + [item]) == Next(GatheredFrom(before), item)
  {
    FlatMapOne(ThoughtsOf, before, item);
    FlatMapOne(TextOf, before, item);
    FlatMapOne(CallsOf, before, item);
    assert Thoughts(before) + [] == Thoughts(before) && Calls(before) + [] == Calls(before);
    assert VisibleText(before) + "" == VisibleText(before);
    if item.Reasoning? {
      ValidStep(Thoughts(before), ToValue(item.id, item.content, item.summary, item.encryptedContent));
    }
  }

  lemma {:induction false} RefusedStep(before: seq<Schema.OutputItem>, item: Schema.OutputItem)
    ensures Refused(before + [item])
            == if Refused(before).Some? then Refused(before)
               else if item.Reasoning? && Calls(before) != [] then Some(InterleavedReasoning)
               else if item.Other? && IsCallLike(item.itemType) then Some(UnsupportedCallItem(item.itemType))
               else None
  {
    assert (before + [item])[..|before|] == before;
  }

  lemma {:induction false} RefusalStays(output: seq<Schema.OutputItem>, n: nat)
    requires n <= |output| && Refused(output[..n]).Some?
    ensures Refused(output) == Refused(output[..n])
  {
    if n == |output| {
      assert output[..n] == output;
    } else {
      assert output[..|output| - 1][..n] == output[..n];
      RefusalStays(output[..|output| - 1], n);
    }
  }

  method GatherOutput(output: seq<Schema.OutputItem>) returns (r: Result<Gathered, ReplayError>)
    ensures match Refused(output)
            case Some(e) => r == Err(e)
            case None => r == Ok(GatheredFrom(output))
  {
    var g := Gathered([], [], "", []);
    ghost var done: seq<Schema.OutputItem> := [];
    for n := 0 to |output|
      invariant done == output[..n] && g == GatheredFrom(done) && Refused(done).None?
    {
      var item := output[n];
      GatherStep(done, item);
      RefusedStep(done, item);
      done := done + [item];
      assert done == output[..n + 1];
      if item.Reasoning? && g.calls != [] {
        RefusalStays(output, n + 1);
        return Err(InterleavedReasoning);
      }
      if item.Other? && IsCallLike(item.itemType) {
        RefusalStays(output, n + 1);
        return Err(UnsupportedCallItem(item.itemType));
      }
      g := Next(g, item);
    }
    assert done == output;
    return Ok(g);
  }

  lemma {:induction false} WiringFails(mint: IdMint, calls: seq<Call>, n: nat)
    requires n <= |calls| && WireCalls(mint, calls[..n]).Err?
    ensures WireCalls(mint, calls) == WireCalls(mint, calls[..n])
    decreases |calls|
  {
    if n == |calls| {
      assert calls[..n] == calls;
    } else {
      assert calls[..|calls| - 1][..n] == calls[..n];
      WiringFails(mint, calls[..|calls| - 1], n);
    }
  }

  method WireAll(mint: IdMint, calls: seq<Call>) returns (r: Result<seq<ToolCall>, ReplayError>)
    ensures r == WireCalls(mint, calls)
  {
    var wired: seq<ToolCall> := [];
    for n := 0 to |calls|
      invariant WireCalls(mint, calls[..n]) == Ok(wired)
    {
      assert calls[..n + 1][..n] == calls[..n];
      var id := mint(calls[n].callId);
      if id.Err? {
        WiringFails(mint, calls, n + 1);
        return Err(id.error);
      }
      wired := wired + [ToolCall(Some(n), Some(id.value), Some(calls[n].name), calls[n].arguments)];
    }
    assert calls[..|calls|] == calls;
    return Ok(wired);
  }

  method ResponsesToChat(lib: Library, response: Schema.Response, runtime: Runtime)
    returns (r: Result<ChatReply, ReplayError>)
    ensures r == ToChat(lib, response, runtime)
  {
    if response.status == "failed" || response.error.Some? {
      return Err(Upstream(response.error));
    }
    var gathered := GatherOutput(response.output);
    if gathered.Err? {
      return Err(gathered.error);
    }
    var g := gathered.value;
    if g.calls != [] && |g.valid| != |g.all| {
      return Err(UnreplayableReasoning);
    }
    if g.calls != [] && g.valid != [] && !runtime.encoderEnabled {
      return Err(EncoderDisabled);
    }
    var rendered := Render(ReasoningSummary(g.all), g.text);
    var wired := WireAll(WireIds(lib, g.valid, runtime.keyring), g.calls);
    if wired.Err? {
      return Err(wired.error);
    }
    var hasTools := wired.value != [];
    var content := if rendered == "" && hasTools then None else Some(rendered);
    var reason := if hasTools then "tool_calls" else if response.status == "incomplete" then "length" else "stop";
    return Ok(ChatReply(content, if hasTools then Some(wired.value) else None, reason));
  }

  // ---- a Chat request as input items ----

  lemma {:induction false} CollectingFails(collect: Collector, calls: seq<ToolCall>, n: nat)
    requires n <= |calls| && Collect(collect, calls[..n]).Err?
    ensures Collect(collect, calls) == Collect(collect, calls[..n])
    decreases |calls|
  {
    if n == |calls| {
      assert calls[..n] == calls;
    } else {
      assert calls[..|calls| - 1][..n] == calls[..n];
      CollectingFails(collect, calls[..|calls| - 1], n);
    }
  }

  method CollectCalls(collect: Collector, calls: seq<ToolCall>) returns (r: Result<Collected, ReplayError>)
    ensures r == Collect(collect, calls)
  {
    var c := Collected([], None, false);
    for n := 0 to |calls|
      invariant Collect(collect, calls[..n]) == Ok(c)
    {
      assert calls[..n + 1][..n] == calls[..n];
      var next := collect(c, calls[n]);
      if next.Err? {
        CollectingFails(collect, calls, n + 1);
        return Err(next.error);
      }
      c := next.value;
    }
    assert calls[..|calls|] == calls;
    return Ok(c);
  }

  method AppendAssistantItems(lib: Library, keyring: Keyring, content: Option<Content>, calls: seq<ToolCall>)
    returns (r: Result<seq<InputItem>, ReplayError>)
    ensures r == AssistantItems(lib, keyring, content, calls)
  {
    var collected := CollectCalls(Collecting(lib, keyring), calls);
    if collected.Err? {
      return Err(collected.error);
    }
    var c := collected.value;
    if c.rawSeen && c.shared.Some? {
      return Err(MixedIds);
    }
    var output: seq<InputItem> := [];
    var replayed := content;
    if c.shared.Some? {
      SharedIsValid(lib, keyring, calls);
      output := Replayed(c.shared.value);
      replayed := StripSummary(content, c.shared.value);
    }
    ghost var said := SaidByAssistant(replayed);
    assert [] + said == said && output + [] == output;
    if HasOutput(replayed) {
      output := output + [Said(AssistantRole, AssistantContent(replayed.value))];
    }
    return Ok(output + c.calls);
  }

  /** The loop over the parts of an instruction: the first image refuses it. */
  method SystemContentToResponses(content: Content) returns (r: Result<InputContent, ReplayError>)
    ensures r == SystemContent(content)
  {
    match content
    case Text(text) => return Ok(PlainText(text));
    case Parts(parts) =>
      var output: seq<InputPart> := [];
      for i := 0 to |parts|
        invariant |output| == i
                   && forall k :: 0 <= k < i ==> parts[k].TextPart? && output[k] == InputText(parts[k].text)
      {
        if parts[i].ImagePart? {
          assert parts[i] in parts;
          return Err(SystemImage);
        }
        output := output + [InputText(parts[i].text)];
      }
      assert InputParts(output) == ToInputContent(content);
      return Ok(InputParts(output));
  }

  method AppendMessageItems(lib: Library, show: Printer, keyring: Keyring, message: Message)
    returns (r: Result<seq<InputItem>, ReplayError>)
    ensures r == MessageItems(lib, show, keyring, message)
  {
    match message
    case System(content) =>
      var sent := SystemContentToResponses(content);
      r := if sent.Err? then Err(sent.error) else Ok([Said(SystemRole, sent.value)]);
    case Developer(content) =>
      var sent := SystemContentToResponses(content);
      r := if sent.Err? then Err(sent.error) else Ok([Said(DeveloperRole, sent.value)]);
    case User(content) =>
      r := Ok([Said(UserRole, ToInputContent(content))]);
    case Assistant(content, calls) =>
      r := AppendAssistantItems(lib, keyring, content, calls.GetOr([]));
    case Tool(content, id) =>
      var callId := id;
      if IsResponsesCapsule(id) {
        var decoded := DecodeResponsesCapsule(lib, id, keyring);
        if decoded.Err? {
          return Err(BadCapsule(decoded.error));
        }
        callId := decoded.value.id;
      }
      r := Ok([FunctionCallOutput(callId, ToolText(show, content))]);
  }

  /** The input of the adapted request: every message's items, then de-duplicated. */
  method ChatRequestInput(lib: Library, show: Printer, keyring: Keyring, messages: seq<Message>)
    returns (r: Result<seq<InputItem>, ReplayError>)
    ensures r == InputOf(lib, show, keyring, messages)
  {
    var input: seq<InputItem> := [];
    ghost var translation := Translation(lib, show, keyring);
    for n := 0 to |messages|
      invariant TryFlatMap(translation, messages[..n]) == Ok(input)
    {
      assert messages[..n + 1][..n] == messages[..n];
      var items := AppendMessageItems(lib, show, keyring, messages[n]);
      assert translation(messages[n]) == items;
      if items.Err? {
        TryFlatMapFails(translation, messages, n + 1);
        return Err(items.error);
      }
      input := input + items.value;
    }
    assert messages[..|messages|] == messages;
    var unique := Dedupe(input);
    return match unique case Err(_) => Err(Duplicates) case Ok(items) => Ok(items);
  }
}
