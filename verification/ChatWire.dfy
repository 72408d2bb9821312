/** The wire form of the events: which JSON carries which event, and that the adapter reads exactly that. */
module ChatWire {
  import opened Prelude
  import opened Json
  import opened ChatReplay
  import opened ChatEvents

  // ---- fields ----

  predicate IsOfType(json: Json, name: string) {
    json.Object? && "type" in json.fields && json.fields["type"] == String(name)
  }

  /** A text field; one that is missing or no text counts as empty. */
  predicate Says(json: Json, key: string, text: string) {
    if json.Object? && key in json.fields && json.fields[key].String? then json.fields[key].text == text else text == ""
  }

  /** The output index, of which 32 bits are kept; one that is missing or no 64-bit count is 0. */
  predicate At(json: Json, index: nat) {
    if json.Object? && "output_index" in json.fields && json.fields["output_index"].Number?
       && 0 <= json.fields["output_index"].number < 0x1_0000_0000_0000_0000
    then index == json.fields["output_index"].number % 0x1_0000_0000
    else index == 0
  }

  predicate Holds(json: Json, key: string, value: Json) {
    json.Object? && key in json.fields && json.fields[key] == value
  }

  predicate Lacks(json: Json, key: string) { !json.Object? || key !in json.fields }

  // ---- what an event looks like ----

  /** The types of items that mean nothing to a chat; an unknown kind of call is not among them. */
  predicate MaySkip(itemType: string) {
    || itemType == "message"
    || (itemType != "reasoning" && itemType != "function_call"
        && !(|itemType| >= 5 && itemType[|itemType| - 5..] == "_call"))
  }

  predicate IsHeardType(itemType: string) { itemType == "reasoning" || itemType == "function_call" }

  ghost predicate HasSkippedItem(json: Json) {
    exists item, itemType :: Holds(json, "item", item) && IsOfType(item, itemType) && MaySkip(itemType)
  }

  ghost predicate IsKnownItem(item: Json) {
    exists itemType :: IsOfType(item, itemType) && (MaySkip(itemType) || IsHeardType(itemType))
  }

  /** The outputs that a terminal event may carry. */
  ghost predicate HasKnownOutput(json: Json) {
    forall response, output :: Holds(json, "response", response) && Holds(response, "output", output) ==>
      output.Array? && forall item <- output.items :: IsKnownItem(item)
  }

  predicate ReportsUsage(json: Json, usage: Option<Json>) {
    match usage
    case Some(u) =>
      json.Object? && "response" in json.fields && Holds(json.fields["response"], "usage", u)
    case None =>
      json.Object? && "response" in json.fields ==> Lacks(json.fields["response"], "usage")
  }

  function ItemEvent(done: bool): string { if done then "response.output_item.done" else "response.output_item.added" }

  function EndEvent(incomplete: bool): string { if incomplete then "response.incomplete" else "response.completed" }

  predicate IsCall(item: Json, callId: string, name: string, arguments: string) {
    && IsOfType(item, "function_call") && Holds(item, "call_id", String(callId)) && Holds(item, "name", String(name))
    && Says(item, "arguments", arguments)
  }

  /** The types of events that a chat hears; any other is skipped. */
  predicate IsHeardEvent(name: string) {
    || name == "response.reasoning_summary_text.delta" || name == "response.reasoning_summary_text.done"
    || name == "response.output_text.delta"
    || name == "response.output_item.added" || name == "response.output_item.done"
    || name == "response.function_call_arguments.delta" || name == "response.function_call_arguments.done"
    || name == "response.completed" || name == "response.incomplete"
    || name == "response.failed" || name == "error"
  }

  /** The JSON carries the event. */
  ghost predicate Carries(json: Json, event: Event) {
    match event
    case SummaryDelta(delta) => IsOfType(json, "response.reasoning_summary_text.delta") && Says(json, "delta", delta)
    case SummaryDone(text) => IsOfType(json, "response.reasoning_summary_text.done") && Says(json, "text", text)
    case TextDelta(delta) => IsOfType(json, "response.output_text.delta") && Says(json, "delta", delta)
    case ReasoningItem(index, item, done) =>
      IsOfType(json, ItemEvent(done)) && At(json, index) && Holds(json, "item", item) && IsOfType(item, "reasoning")
    case CallItem(index, callId, name, arguments, done) =>
      && IsOfType(json, ItemEvent(done)) && At(json, index)
      && exists item :: Holds(json, "item", item) && IsCall(item, callId, name, arguments)
    case ArgumentsDelta(index, delta) =>
      IsOfType(json, "response.function_call_arguments.delta") && At(json, index) && Says(json, "delta", delta)
    case ArgumentsDone(index, arguments) =>
      IsOfType(json, "response.function_call_arguments.done") && At(json, index) && Says(json, "arguments", arguments)
    case Terminal(incomplete, usage) =>
      IsOfType(json, EndEvent(incomplete)) && HasKnownOutput(json) && ReportsUsage(json, usage)
    case Failed(failure) => failure == json && (IsOfType(json, "response.failed") || IsOfType(json, "error"))
    case Ignored =>
      || (exists name :: IsOfType(json, name) && !IsHeardEvent(name))
      || ((IsOfType(json, ItemEvent(false)) || IsOfType(json, ItemEvent(true))) && HasSkippedItem(json))
  }

  // ---- the adapter reads it so ----

  lemma {:induction false} LongNames()
    ensures |"response.reasoning_summary_text.delta"| == 37 && |"response.reasoning_summary_text.done"| == 36
    ensures |"response.function_call_arguments.delta"| == 38 && |"response.function_call_arguments.done"| == 37
    ensures "response.reasoning_summary_text.delta"[9] == 'r' && "response.function_call_arguments.done"[9] == 'f'
  {
  }

  lemma {:induction false} ShortNames()
    ensures |"response.output_text.delta"| == 26 && |"response.output_item.added"| == 26
    ensures |"response.output_item.done"| == 25
    ensures |"response.completed"| == 18 && |"response.incomplete"| == 19 && |"response.failed"| == 15 && |"error"| == 5
    ensures "response.output_text.delta"[16] == 't' && "response.output_item.added"[16] == 'i'
  {
  }

  lemma {:induction false} TextEventIsRead(json: Json, event: Event, name: string)
    requires IsOfType(json, name)
    requires || name == "response.reasoning_summary_text.delta" || name == "response.reasoning_summary_text.done"
             || name == "response.output_text.delta"
    ensures Read(json) == Ok(event) <==> Carries(json, event)
  {
    LongNames();
    ShortNames();
  }

  lemma {:induction false} ArgumentsEventIsRead(json: Json, event: Event, name: string)
    requires IsOfType(json, name)
    requires || name == "response.function_call_arguments.delta" || name == "response.function_call_arguments.done"
             || name == "response.failed" || name == "error"
    ensures Read(json) == Ok(event) <==> Carries(json, event)
  {
    LongNames();
    ShortNames();
  }

  /** What an item event amounts to. */
  ghost predicate CarriesItem(json: Json, event: Event, done: bool) {
    match event
    case ReasoningItem(index, item, d) =>
      d == done && At(json, index) && Holds(json, "item", item) && IsOfType(item, "reasoning")
    case CallItem(index, callId, name, arguments, d) =>
      && d == done && At(json, index)
      && exists item :: Holds(json, "item", item) && IsCall(item, callId, name, arguments)
    case Ignored => HasSkippedItem(json)
    case _ => false
  }

  lemma {:induction false} ItemNames()
    ensures |"reasoning"| == 9 && |"message"| == 7 && |"function_call"| == 13
    ensures IsCallLike("function_call") && "message"[2] == 's' && "reasoning"[4] == 'o'
  {
  }

  lemma {:induction false} SkippedItemIs(json: Json, item: Json, itemType: string)
    requires Holds(json, "item", item) && IsOfType(item, itemType)
    ensures HasSkippedItem(json) <==> MaySkip(itemType)
  {
  }

  lemma {:induction false} UntypedIsNotSkipped(json: Json)
    requires forall item :: Holds(json, "item", item) ==> item.GetString("type").None?
    ensures !HasSkippedItem(json)
  {
  }

  lemma {:induction false} CallIs(json: Json, item: Json, callId: string, name: string, arguments: string)
    requires Holds(json, "item", item)
    ensures (exists i :: Holds(json, "item", i) && IsCall(i, callId, name, arguments))
            <==> IsCall(item, callId, name, arguments)
  {
  }

  lemma {:induction false} TypedItemIsRead(json: Json, event: Event, done: bool, item: Json, itemType: string)
    requires Holds(json, "item", item) && IsOfType(item, itemType)
    ensures ReadItem(json, done) == Ok(event) <==> CarriesItem(json, event, done)
  {
    ItemNames();
    SkippedItemIs(json, item, itemType);
    if event.CallItem? {
      CallIs(json, item, event.callId, event.name, event.arguments);
    }
  }

  lemma {:induction false} ItemIsRead(json: Json, event: Event, done: bool)
    ensures ReadItem(json, done) == Ok(event) <==> CarriesItem(json, event, done)
  {
    var item := json.Get("item");
    if item.Some? && item.value.GetString("type").Some? {
      TypedItemIsRead(json, event, done, item.value, item.value.GetString("type").value);
    } else {
      UntypedIsNotSkipped(json);
    }
  }

  lemma {:induction false} ItemEventIsRead(json: Json, event: Event, done: bool)
    requires IsOfType(json, ItemEvent(done))
    ensures Read(json) == Ok(event) <==> Carries(json, event)
  {
    LongNames();
    ShortNames();
    ItemIsRead(json, event, done);
  }

  lemma {:induction false} ItemTypeIsKnown(item: Json)
    ensures ItemType(item).Ok? <==> IsKnownItem(item)
  {
    ItemNames();
    if item.GetString("type").Some? {
      assert IsOfType(item, item.GetString("type").value);
    }
  }

  lemma {:induction false} ItemsAreKnown(items: seq<Json>)
    ensures CheckItems(items).Ok? <==> forall item <- items :: IsKnownItem(item)
  {
    if items != [] {
      assert items == [items[0]] + items[1..];
      ItemTypeIsKnown(items[0]);
      ItemsAreKnown(items[1..]);
    }
  }

  lemma {:induction false} OutputIsKnown(json: Json)
    ensures CheckTerminal(json).Ok? <==> HasKnownOutput(json)
  {
    var response := json.Get("response");
    if response.Some? {
      assert Holds(json, "response", response.value);
      var output := response.value.Get("output");
      if output.Some? {
        assert Holds(response.value, "output", output.value);
        if output.value.Array? {
          ItemsAreKnown(output.value.items);
        }
      }
    }
  }

  lemma {:induction false} EndEventIsRead(json: Json, event: Event, incomplete: bool)
    requires IsOfType(json, EndEvent(incomplete))
    ensures Read(json) == Ok(event) <==> Carries(json, event)
  {
    LongNames();
    ShortNames();
    OutputIsKnown(json);
  }

  lemma {:induction false} OtherEventIsRead(json: Json, event: Event, name: string)
    requires IsOfType(json, name) && !IsHeardEvent(name)
    ensures Read(json) == Ok(event) <==> Carries(json, event)
  {
  }

  lemma {:induction false} UntypedIsNotRead(json: Json, event: Event)
    requires json.GetString("type").None?
    ensures Read(json).Err? && !Carries(json, event)
  {
    assert forall name :: !IsOfType(json, name);
  }

  /** The adapter takes a JSON for an event exactly when it carries that event. */
  lemma {:induction false} ReadIffCarried(json: Json, event: Event)
    ensures Read(json) == Ok(event) <==> Carries(json, event)
  {
    var name := json.GetString("type");
    if name.None? {
      UntypedIsNotRead(json, event);
    } else if name.value == ItemEvent(false) || name.value == ItemEvent(true) {
      ItemEventIsRead(json, event, name.value == ItemEvent(true));
    } else if name.value == EndEvent(false) || name.value == EndEvent(true) {
      EndEventIsRead(json, event, name.value == EndEvent(true));
    } else if !IsHeardEvent(name.value) {
      OtherEventIsRead(json, event, name.value);
    } else if || name.value == "response.reasoning_summary_text.delta"
              || name.value == "response.reasoning_summary_text.done"
              || name.value == "response.output_text.delta" {
      TextEventIsRead(json, event, name.value);
    } else {
      ArgumentsEventIsRead(json, event, name.value);
    }
  }

  // ---- writing an event ----

  /** The events that upstream can send; an unwritten `Failed` is its own JSON. */
  predicate Writable(event: Event) {
    match event
    case ReasoningItem(index, item, _) => index < 0x1_0000_0000 && IsOfType(item, "reasoning")
    case CallItem(index, _, _, _, _) => index < 0x1_0000_0000
    case ArgumentsDelta(index, _) => index < 0x1_0000_0000
    case ArgumentsDone(index, _) => index < 0x1_0000_0000
    case Failed(failure) => IsOfType(failure, "response.failed") || IsOfType(failure, "error")
    case _ => true
  }

  function Written(name: string, key: string, text: string): Json {
    Object(map["type" := String(name), key := String(text)])
  }

  function WrittenAt(name: string, index: nat, key: string, value: Json): Json {
    Object(map["type" := String(name), "output_index" := Number(index), key := value])
  }

  function WrittenCall(callId: string, name: string, arguments: string): Json {
    Object(map["type" := String("function_call"), "call_id" := String(callId), "name" := String(name),
               "arguments" := String(arguments)])
  }

  /** The wire form of an event. */
  function Write(event: Event): Json {
    match event
    case SummaryDelta(delta) => Written("response.reasoning_summary_text.delta", "delta", delta)
    case SummaryDone(text) => Written("response.reasoning_summary_text.done", "text", text)
    case TextDelta(delta) => Written("response.output_text.delta", "delta", delta)
    case ReasoningItem(index, item, done) => WrittenAt(ItemEvent(done), index, "item", item)
    case CallItem(index, callId, name, arguments, done) =>
      WrittenAt(ItemEvent(done), index, "item", WrittenCall(callId, name, arguments))
    case ArgumentsDelta(index, delta) =>
      WrittenAt("response.function_call_arguments.delta", index, "delta", String(delta))
    case ArgumentsDone(index, arguments) =>
      WrittenAt("response.function_call_arguments.done", index, "arguments", String(arguments))
    case Terminal(incomplete, None) => Object(map["type" := String(EndEvent(incomplete))])
    case Terminal(incomplete, Some(usage)) =>
      Object(map["type" := String(EndEvent(incomplete)), "response" := Object(map["usage" := usage])])
    case Failed(failure) => failure
    case Ignored => Object(map["type" := String("response.created")])
  }

  lemma {:induction false} WrittenIsAt(name: string, index: nat, key: string, value: Json)
    requires key != "type" && key != "output_index" && index < 0x1_0000_0000
    ensures var json := WrittenAt(name, index, key, value);
            IsOfType(json, name) && At(json, index) && Holds(json, key, value)
  {
  }

  lemma {:induction false} FieldNames()
    ensures "delta"[0] != 't' && "text"[1] != 'y' && "item"[0] != 't' && "arguments"[0] != 't'
    ensures "delta"[0] != 'o' && "text"[0] != 'o' && "item"[0] != 'o' && "arguments"[0] != 'o'
    ensures "type"[0] == 't' && "type"[1] == 'y' && "output_index"[0] == 'o'
  {
  }

  lemma {:induction false} TextIsCarried(event: Event)
    requires event.SummaryDelta? || event.SummaryDone? || event.TextDelta?
    ensures Carries(Write(event), event)
  {
    FieldNames();
  }

  lemma {:induction false} ArgumentsAreCarried(event: Event)
    requires (event.ArgumentsDelta? || event.ArgumentsDone?) && Writable(event)
    ensures Carries(Write(event), event)
  {
    FieldNames();
    if event.ArgumentsDelta? {
      WrittenIsAt("response.function_call_arguments.delta", event.index, "delta", String(event.delta));
    } else {
      WrittenIsAt("response.function_call_arguments.done", event.index, "arguments", String(event.arguments));
    }
  }

  lemma {:induction false} ItemIsCarried(event: Event)
    requires (event.ReasoningItem? || event.CallItem?) && Writable(event)
    ensures Carries(Write(event), event)
  {
    FieldNames();
    if event.ReasoningItem? {
      WrittenIsAt(ItemEvent(event.done), event.index, "item", event.item);
    } else {
      var call := WrittenCall(event.callId, event.name, event.arguments);
      WrittenIsAt(ItemEvent(event.done), event.index, "item", call);
      assert IsCall(call, event.callId, event.name, event.arguments);
    }
  }

  lemma {:induction false} SkippedName()
    ensures !IsHeardEvent("response.created")
  {
    LongNames();
    ShortNames();
    assert |"response.created"| == 16;
  }

  lemma {:induction false} EndIsCarried(event: Event)
    requires (event.Terminal? || event.Ignored? || event.Failed?) && Writable(event)
    ensures Carries(Write(event), event)
  {
    SkippedName();
    if event.Ignored? {
      assert IsOfType(Write(event), "response.created");
    }
  }

  /** Every event is read from its wire form. */
  lemma {:induction false} WrittenIsRead(event: Event)
    requires Writable(event)
    ensures Read(Write(event)) == Ok(event)
  {
    ReadIffCarried(Write(event), event);
    match event
    case SummaryDelta(_) => TextIsCarried(event);
    case SummaryDone(_) => TextIsCarried(event);
    case TextDelta(_) => TextIsCarried(event);
    case ArgumentsDelta(_, _) => ArgumentsAreCarried(event);
    case ArgumentsDone(_, _) => ArgumentsAreCarried(event);
    case ReasoningItem(_, _, _) => ItemIsCarried(event);
    case CallItem(_, _, _, _, _) => ItemIsCarried(event);
    case _ => EndIsCarried(event);
  }

  // ---- sequences of events ----

  /** The JSON values carry the events, one for one. */
  ghost predicate CarryAll(jsons: seq<Json>, events: seq<Event>) {
    |jsons| == |events| && forall k :: 0 <= k < |events| ==> Carries(jsons[k], events[k])
  }

  function WriteAll(events: seq<Event>): (r: seq<Json>)
    ensures |r| == |events| && forall k :: 0 <= k < |r| ==> r[k] == Write(events[k])
  {
    seq(|events|, k requires 0 <= k < |events| => Write(events[k]))
  }

  lemma {:induction false} WrittenAreCarried(events: seq<Event>)
    requires forall k :: 0 <= k < |events| ==> Writable(events[k])
    ensures CarryAll(WriteAll(events), events)
  {
    forall k | 0 <= k < |events| ensures Carries(Write(events[k]), events[k]) {
      WrittenIsRead(events[k]);
      ReadIffCarried(Write(events[k]), events[k]);
    }
  }
}
