/** What becomes of the message that a client sends back as the assistant's. */
module ChatAssistant {
  import opened Prelude
  import opened Json
  import opened Capsule
  import opened ChatSchema
  import opened ReasoningDedup
  import opened ChatReplay

  // ---- what was said ----

  /** The text without the rendered summary in front, if it is there. */
  function WithoutSummary(text: string, summary: string): string {
    var tagged := "<think>" + summary + "</think>";
    if summary != "" && |tagged| <= |text| && text[..|tagged|] == tagged then text[|tagged|..] else text
  }

  /** The text parts one behind the other. */
  function Joined(parts: seq<ChatPart>): string
    requires forall p <- parts :: p.TextPart?
  {
    if parts == [] then "" else parts[0].text + Joined(parts[1..])
  }

  /** The parts with the summary taken off the first, which is where it was rendered. */
  function PartsLeft(parts: seq<ChatPart>, summary: string): seq<ChatPart> {
    if parts != [] && parts[0].TextPart? then [TextPart(WithoutSummary(parts[0].text, summary))] + parts[1..] else parts
  }

  /** Texts become texts and images images, part by part. */
  predicate KeptPartByPart(parts: seq<ChatPart>, sent: seq<InputPart>) {
    |sent| == |parts|
    && forall i :: 0 <= i < |parts| ==>
         match parts[i]
         case TextPart(text) => sent[i] == InputText(text)
         case ImagePart(url, detail) => sent[i] == InputImage(url, detail)
  }

  /**
   * What the assistant is taken to have said: one message of its own, or none where nothing is left. Text is sent
   * as one text; content with an image is sent part by part. Only the rendered summary is gone.
   */
  ghost predicate SaidAs(content: Option<Content>, summary: string, said: seq<InputItem>) {
    match content
    case None => said == []
    case Some(Text(text)) =>
      var left := WithoutSummary(text, summary);
      said == if left == "" then [] else [Said(AssistantRole, PlainText(left))]
    case Some(Parts(parts)) =>
      var left := PartsLeft(parts, summary);
      if parts == [] then said == []
      else if forall p <- left :: p.TextPart? then said == [Said(AssistantRole, PlainText(Joined(left)))]
      else
        && |said| == 1 && said[0].Said? && said[0].role == AssistantRole
        && said[0].content.InputParts? && KeptPartByPart(left, said[0].content.parts)
  }

  lemma {:induction false} PlainIsJoined(parts: seq<ChatPart>)
    requires forall p <- parts :: p.TextPart?
    ensures FlatMap(PlainPart, parts) == Joined(parts)
  {
    if parts != [] {
      assert parts == [parts[0]] + parts[1..];
      FlatMapFirst(PlainPart, parts[0], parts[1..]);
      PlainIsJoined(parts[1..]);
    }
  }

  lemma {:induction false} SaidIsContent(content: Option<Content>, items: seq<Json>)
    ensures SaidAs(content, ReasoningSummary(items), SaidByAssistant(StripSummary(content, items)))
  {
    if content.Some? && content.value.Parts? {
      var left := PartsLeft(content.value.parts, ReasoningSummary(items));
      assert StripSummary(content, items) == Some(Parts(left)) by {
        if left != [] && left[0].TextPart? {
          assert content.value.parts == [content.value.parts[0]] + content.value.parts[1..];
        }
      }
      if forall p <- left :: p.TextPart? {
        PlainIsJoined(left);
      }
    }
  }

  // ---- the reasoning that goes before it ----

  /** A field of a JSON object that is there and no null. */
  function Given(item: Json, key: string): Option<Json> {
    if item.Object? && key in item.fields && item.fields[key] != Null then Some(item.fields[key]) else None
  }

  /** The item says what the JSON of a reasoning item says. */
  predicate SaysThought(item: InputItem, json: Json) {
    && item.Reasoning?
    && item.id.Some? && Given(json, "id") == Some(String(item.id.value))
    && item.encryptedContent.Some? && Given(json, "encrypted_content") == Some(String(item.encryptedContent.value))
    && item.thought == Given(json, "content") && item.summary == Given(json, "summary")
  }

  predicate SayThoughts(items: seq<InputItem>, jsons: seq<Json>) {
    |items| == |jsons| && forall i :: 0 <= i < |items| ==> SaysThought(items[i], jsons[i])
  }

  /** The texts of an array of summary parts. */
  function PartTexts(parts: seq<Json>): string {
    if parts == [] then ""
    else
      (match parts[0]
       case Object(fields) => if "text" in fields && fields["text"].String? then fields["text"].text else ""
       case _ => "") + PartTexts(parts[1..])
  }

  /** The summaries of reasoning items, which is what is rendered in front of the text. */
  function ShownSummary(items: seq<InputItem>): string {
    if items == [] then ""
    else
      (match items[0]
       case Reasoning(_, _, Some(Array(parts)), _) => PartTexts(parts)
       case _ => "") + ShownSummary(items[1..])
  }

  lemma {:induction false} PartTextsAre(parts: seq<Json>)
    ensures FlatMap(PartText, parts) == PartTexts(parts)
  {
    if parts != [] {
      assert parts == [parts[0]] + parts[1..];
      FlatMapFirst(PartText, parts[0], parts[1..]);
      PartTextsAre(parts[1..]);
    }
  }

  lemma {:induction false} ItemIsSaid(json: Json)
    requires ItemIsValid(json)
    ensures SaysThought(FromValue(json), json)
    ensures ItemSummary(json) == ShownSummary([FromValue(json)])
  {
    var summary := json.Get("summary");
    if summary.Some? && summary.value.Array? {
      PartTextsAre(summary.value.items);
      assert [FromValue(json)][1..] == [];
    }
  }

  lemma {:induction false} ShownFirst(item: InputItem, items: seq<InputItem>)
    ensures ShownSummary([item] + items) == ShownSummary([item]) + ShownSummary(items)
  {
    assert ([item] + items)[1..] == items && [item][1..] == [];
  }

  lemma {:induction false} ReplayedSays(jsons: seq<Json>)
    requires AllValid(ItemIsValid, jsons)
    ensures SayThoughts(Replayed(jsons), jsons)
  {
    forall i | 0 <= i < |jsons| ensures SaysThought(Replayed(jsons)[i], jsons[i]) {
      ItemIsSaid(jsons[i]);
    }
  }

  lemma {:induction false} ReplayedFirst(first: Json, rest: seq<Json>)
    requires AllValid(ItemIsValid, [first] + rest)
    ensures ItemIsValid(first) && AllValid(ItemIsValid, rest)
    ensures Replayed([first] + rest) == [FromValue(first)] + Replayed(rest)
  {
    assert ([first] + rest)[0] == first && forall v <- rest :: v in [first] + rest;
  }

  lemma {:induction false} SummaryIsShown(jsons: seq<Json>)
    requires AllValid(ItemIsValid, jsons)
    ensures ReasoningSummary(jsons) == ShownSummary(Replayed(jsons))
  {
    if jsons != [] {
      var first, rest := jsons[0], jsons[1..];
      assert jsons == [first] + rest;
      ReplayedFirst(first, rest);
      FlatMapFirst(ItemSummary, first, rest);
      ItemIsSaid(first);
      SummaryIsShown(rest);
      ShownFirst(FromValue(first), Replayed(rest));
    }
  }

  // ---- the calls that come behind it ----

  predicate CarriesReasoning(call: ToolCall) {
    call.id.Some? && |call.id.value| >= 7 && call.id.value[..7] == "rsc_v1."
  }

  /** The id that upstream gave a call: its own, or the one inside its capsule. */
  predicate IsUpstreamId(lib: Library, keyring: Keyring, call: ToolCall, id: string) {
    call.id.Some?
    && if CarriesReasoning(call) then
         var decoded := DecodeResponsesCapsule(lib, call.id.value, keyring);
         decoded.Ok? && decoded.value.id == id
       else call.id.value == id
  }

  /** A call is sent under its upstream id, with its name and arguments. */
  predicate IsCallOf(lib: Library, keyring: Keyring, call: ToolCall, item: InputItem) {
    && item.FunctionCall? && IsUpstreamId(lib, keyring, call, item.callId)
    && call.name == Some(item.name) && item.arguments == call.arguments && item.namespace.None?
  }

  ghost predicate AreCallsOf(lib: Library, keyring: Keyring, calls: seq<ToolCall>, items: seq<InputItem>) {
    |items| == |calls| && forall i :: 0 <= i < |items| ==> IsCallOf(lib, keyring, calls[i], items[i])
  }

  /** The reasoning inside the ids is the same for all, and either every call has it or none. */
  ghost predicate ShareReasoning(lib: Library, keyring: Keyring, calls: seq<ToolCall>, shared: Option<seq<Json>>) {
    match shared
    case None => forall call <- calls :: !CarriesReasoning(call)
    case Some(jsons) =>
      && calls != []
      && forall call <- calls ::
           && CarriesReasoning(call) && DecodeResponsesCapsule(lib, call.id.value, keyring).Ok?
           && DecodeResponsesCapsule(lib, call.id.value, keyring).value.reasoning == jsons
  }

  /** What has been collected of some calls. */
  ghost predicate CollectedFrom(lib: Library, keyring: Keyring, calls: seq<ToolCall>, c: Collected) {
    && AreCallsOf(lib, keyring, calls, c.calls)
    && (c.rawSeen <==> exists i :: 0 <= i < |calls| && !CarriesReasoning(calls[i]))
    && (c.shared.Some? <==> exists i :: 0 <= i < |calls| && CarriesReasoning(calls[i]))
    && forall i :: 0 <= i < |calls| && CarriesReasoning(calls[i]) ==>
         && DecodeResponsesCapsule(lib, calls[i].id.value, keyring).Ok?
         && Some(DecodeResponsesCapsule(lib, calls[i].id.value, keyring).value.reasoning) == c.shared
  }

  lemma {:induction false} PrefixIsTag(id: string)
    ensures IsResponsesCapsule(id) <==> CarriesReasoning(ToolCall(None, Some(id), None, ""))
  {
  }

  lemma {:induction false} OneMoreCall(lib: Library, keyring: Keyring, calls: seq<ToolCall>, call: ToolCall,
                                       items: seq<InputItem>, item: InputItem)
    requires AreCallsOf(lib, keyring, calls, items) && IsCallOf(lib, keyring, call, item)
    ensures AreCallsOf(lib, keyring, calls + [call], items + [item])
  {
  }

  lemma {:induction false} CollectedCallIs(lib: Library, keyring: Keyring, c: Collected, call: ToolCall)
    requires CollectCall(lib, keyring, c, call).Ok?
    ensures var r := CollectCall(lib, keyring, c, call).value;
            && |r.calls| == |c.calls| + 1 && r.calls == c.calls + [r.calls[|c.calls|]]
            && IsCallOf(lib, keyring, call, r.calls[|c.calls|])
            && (r.rawSeen <==> c.rawSeen || !CarriesReasoning(call))
            && (if CarriesReasoning(call)
                then
                  && DecodeResponsesCapsule(lib, call.id.value, keyring).Ok?
                  && r.shared == Some(DecodeResponsesCapsule(lib, call.id.value, keyring).value.reasoning)
                  && (c.shared.Some? ==> r.shared == c.shared)
                else r.shared == c.shared)
  {
    PrefixIsTag(call.id.value);
  }

  lemma {:induction false} OneMoreCollected(lib: Library, keyring: Keyring, calls: seq<ToolCall>, call: ToolCall,
                                            c: Collected)
    requires CollectedFrom(lib, keyring, calls, c) && CollectCall(lib, keyring, c, call).Ok?
    ensures CollectedFrom(lib, keyring, calls + [call], CollectCall(lib, keyring, c, call).value)
  {
    var r, more, n := CollectCall(lib, keyring, c, call).value, calls + [call], |calls|;
    CollectedCallIs(lib, keyring, c, call);
    OneMoreCall(lib, keyring, calls, call, c.calls, r.calls[n]);
    assert more[n] == call && forall i :: 0 <= i < n ==> more[i] == calls[i];
  }

  lemma {:induction false} CollectLast(collect: Collector, before: seq<ToolCall>, last: ToolCall)
    requires Collect(collect, before + [last]).Ok?
    ensures Collect(collect, before).Ok?
    ensures Collect(collect, before + [last]) == collect(Collect(collect, before).value, last)
  {
    assert (before + [last])[..|before|] == before;
  }

  lemma {:induction false} CollectIs(lib: Library, keyring: Keyring, calls: seq<ToolCall>)
    requires Collect(Collecting(lib, keyring), calls).Ok?
    ensures CollectedFrom(lib, keyring, calls, Collect(Collecting(lib, keyring), calls).value)
  {
    if calls != [] {
      var before, last := calls[..|calls| - 1], calls[|calls| - 1];
      assert calls == before + [last];
      CollectLast(Collecting(lib, keyring), before, last);
      CollectIs(lib, keyring, before);
      OneMoreCollected(lib, keyring, before, last, Collect(Collecting(lib, keyring), before).value);
    }
  }

  // ---- the whole message ----

  /**
   * What becomes of an assistant's message that is accepted: the reasoning its calls carry, then what it said, at
   * most one message and the assistant's own, then its calls one for one. No part of the content is lost but the
   * rendered summary of that very reasoning.
   */
  lemma {:induction false} AssistantKeepsItsContent(lib: Library, show: Printer, keyring: Keyring,
                                                    content: Option<Content>, toolCalls: Option<seq<ToolCall>>)
    returns (shared: Option<seq<Json>>, thoughts: seq<InputItem>, said: seq<InputItem>, uses: seq<InputItem>)
    requires MessageItems(lib, show, keyring, Assistant(content, toolCalls)).Ok?
    ensures MessageItems(lib, show, keyring, Assistant(content, toolCalls)).value == thoughts + said + uses
    ensures ShareReasoning(lib, keyring, toolCalls.GetOr([]), shared) && SayThoughts(thoughts, shared.GetOr([]))
    ensures SaidAs(content, ShownSummary(thoughts), said)
    ensures AreCallsOf(lib, keyring, toolCalls.GetOr([]), uses)
  {
    var calls := toolCalls.GetOr([]);
    CollectIs(lib, keyring, calls);
    var c := Collect(Collecting(lib, keyring), calls).value;
    shared, uses := c.shared, c.calls;
    if shared.None? {
      thoughts, said := [], SaidByAssistant(content);
      SaidIsContent(content, []);
      assert StripSummary(content, []) == content;
      assert [] + said == said;
    } else {
      SharedIsValid(lib, keyring, calls);
      thoughts, said := Replayed(shared.value), SaidByAssistant(StripSummary(content, shared.value));
      ReplayedSays(shared.value);
      SummaryIsShown(shared.value);
      SaidIsContent(content, shared.value);
    }
  }

  // ---- a request that is refused ----

  /** Two calls carry different reasoning. */
  predicate Differ(lib: Library, keyring: Keyring, a: ToolCall, b: ToolCall) {
    && CarriesReasoning(a) && CarriesReasoning(b)
    && var x, y := DecodeResponsesCapsule(lib, a.id.value, keyring), DecodeResponsesCapsule(lib, b.id.value, keyring);
       x.Ok? && y.Ok? && x.value.reasoning != y.value.reasoning
  }

  /** What the error says is wrong with a call, or with it and one of the others. */
  ghost predicate WrongWith(lib: Library, keyring: Keyring, calls: seq<ToolCall>, i: nat, error: ReplayError)
    requires i < |calls|
  {
    var call := calls[i];
    match error
    case MissingToolCallId => call.id.None?
    case BadCapsule(why) => CarriesReasoning(call) && DecodeResponsesCapsule(lib, call.id.value, keyring) == Err(why)
    case DivergentCapsules => exists j :: 0 <= j < i && Differ(lib, keyring, calls[j], call)
    case MissingFunctionName => call.id.Some? && call.name.None?
    case MixedIds => CarriesReasoning(call) && exists j :: 0 <= j < |calls| && !CarriesReasoning(calls[j])
    case _ => false
  }

  lemma {:induction false} CollectFailsAt(collect: Collector, calls: seq<ToolCall>) returns (n: nat)
    requires Collect(collect, calls).Err?
    ensures n < |calls| && Collect(collect, calls[..n]).Ok?
    ensures Err(Collect(collect, calls).error) == collect(Collect(collect, calls[..n]).value, calls[n])
  {
    var before := calls[..|calls| - 1];
    if Collect(collect, before).Err? {
      n := CollectFailsAt(collect, before);
      assert before[..n] == calls[..n];
    } else {
      n := |calls| - 1;
    }
  }

  lemma {:induction false} FailedCallIsWrong(lib: Library, keyring: Keyring, calls: seq<ToolCall>, n: nat, c: Collected)
    requires n < |calls| && CollectedFrom(lib, keyring, calls[..n], c) && CollectCall(lib, keyring, c, calls[n]).Err?
    ensures WrongWith(lib, keyring, calls, n, CollectCall(lib, keyring, c, calls[n]).error)
  {
    var call := calls[n];
    if call.id.Some? {
      PrefixIsTag(call.id.value);
      if CollectCall(lib, keyring, c, call).error.DivergentCapsules? {
        var j :| 0 <= j < n && CarriesReasoning(calls[..n][j]);
        assert Differ(lib, keyring, calls[j], call);
      }
    }
  }

  /** A message is refused for a reason that one of its calls gives. */
  lemma {:induction false} RefusedForACall(lib: Library, show: Printer, keyring: Keyring, content: Option<Content>,
                                           toolCalls: Option<seq<ToolCall>>)
    requires MessageItems(lib, show, keyring, Assistant(content, toolCalls)).Err?
    ensures var error := MessageItems(lib, show, keyring, Assistant(content, toolCalls)).error;
            exists i: nat :: i < |toolCalls.GetOr([])| && WrongWith(lib, keyring, toolCalls.GetOr([]), i, error)
  {
    var calls, collect := toolCalls.GetOr([]), Collecting(lib, keyring);
    if Collect(collect, calls).Err? {
      var n := CollectFailsAt(collect, calls);
      CollectIs(lib, keyring, calls[..n]);
      FailedCallIsWrong(lib, keyring, calls, n, Collect(collect, calls[..n]).value);
    } else {
      CollectIs(lib, keyring, calls);
      var i :| 0 <= i < |calls| && CarriesReasoning(calls[i]);
      assert WrongWith(lib, keyring, calls, i, MixedIds);
    }
  }

  lemma {:induction false} FailsAt<A, B, E>(f: A -> Result<seq<B>, E>, xs: seq<A>) returns (i: nat)
    requires TryFlatMap(f, xs).Err?
    ensures i < |xs| && TryFlatMap(f, xs[..i]).Ok? && f(xs[i]) == Err(TryFlatMap(f, xs).error)
  {
    var before := xs[..|xs| - 1];
    if TryFlatMap(f, before).Err? {
      i := FailsAt(f, before);
      assert before[..i] == xs[..i];
    } else {
      i := |xs| - 1;
    }
  }

  /**
   * The input of a request is refused for the first message that is, with its error, or because two of its reasoning
   * items have the same id and differ.
   */
  lemma {:induction false} InputRefusedForAMessage(lib: Library, show: Printer, keyring: Keyring,
                                                   messages: seq<Message>)
    requires InputOf(lib, show, keyring, messages).Err?
    ensures var error, items := InputOf(lib, show, keyring, messages).error, AllItems(lib, show, keyring, messages);
            if items.Ok? then error.Duplicates? && Conflicting(items.value)
            else exists i :: 0 <= i < |messages| && AllItems(lib, show, keyring, messages[..i]).Ok?
                             && MessageItems(lib, show, keyring, messages[i]) == Err(error)
  {
    if AllItems(lib, show, keyring, messages).Err? {
      var i := FailsAt(Translation(lib, show, keyring), messages);
      assert Translation(lib, show, keyring)(messages[i]) == MessageItems(lib, show, keyring, messages[i]);
      assert AllItems(lib, show, keyring, messages[..i]).Ok?;
    }
  }
}
