/** Why an answer is not passed on: what each error says of the response, of the state, or of the event. */
module ChatRefusals {
  import opened Prelude
  import opened Json
  import Schema = ResponsesSchema
  import opened Capsule
  import opened ChatReplay
  import opened ChatRoundTrip
  import opened ChatEvents
  import opened ChatWire
  import opened ChatStream
  import opened ChatStreamRuns
  import Sse = SseDecoding

  // ---- the plain form ----

  predicate EndsInCall(itemType: string) { |itemType| >= 5 && itemType[|itemType| - 5..] == "_call" }

  /** What is wrong with the response, by the error it is refused with. */
  ghost predicate WrongWithResponse(lib: Library, response: Schema.Response, runtime: Runtime, error: ReplayError) {
    var output := response.output;
    match error
    case Upstream(reported) => reported == response.error && (response.status == "failed" || response.error.Some?)
    case InterleavedReasoning => exists i, j :: 0 <= i < j < |output| && output[i].FunctionCall? && output[j].Reasoning?
    case UnsupportedCallItem(itemType) =>
      EndsInCall(itemType) && exists item <- output :: item.Other? && item.itemType == itemType
    case UnreplayableReasoning =>
      && (exists item <- output :: item.FunctionCall?)
      && exists thought <- Thoughts(output) :: !ItemIsValid(thought)
    case EncoderDisabled =>
      && !runtime.encoderEnabled
      && (exists item <- output :: item.FunctionCall?) && exists item <- output :: item.Reasoning?
    case BadCapsule(why) =>
      exists item <- output :: item.FunctionCall?
        && EncodeResponsesCapsule(lib, item.callId, Thoughts(output), runtime.keyring) == Err(why)
    case _ => false
  }

  lemma {:induction false} CallsAreThere(output: seq<Schema.OutputItem>, i: nat)
    requires i < |Calls(output)|
    ensures exists item <- output :: item.FunctionCall? && item.callId == Calls(output)[i].callId
  {
    var before, last := output[..|output| - 1], output[|output| - 1];
    if i < |Calls(before)| {
      CallsAreThere(before, i);
      assert forall item <- before :: item in output;
    } else {
      assert last.FunctionCall? && last in output;
    }
  }

  lemma {:induction false} ThoughtsAreThere(output: seq<Schema.OutputItem>)
    requires Thoughts(output) != []
    ensures exists item <- output :: item.Reasoning?
  {
    var before, last := output[..|output| - 1], output[|output| - 1];
    if last.Reasoning? {
      assert last in output;
    } else {
      assert Thoughts(output) == Thoughts(before) + [];
      ThoughtsAreThere(before);
      assert forall item <- before :: item in output;
    }
  }

  lemma {:induction false} RefusedItemIs(lib: Library, response: Schema.Response, runtime: Runtime, n: nat)
    requires n <= |response.output| && Refused(response.output[..n]).Some?
    ensures WrongWithResponse(lib, response, runtime, Refused(response.output[..n]).value)
  {
    var output := response.output[..n];
    var before, last := output[..|output| - 1], output[|output| - 1];
    assert before == response.output[..n - 1] && last == response.output[n - 1];
    if Refused(before).Some? {
      RefusedItemIs(lib, response, runtime, n - 1);
    } else if last.Reasoning? && Calls(before) != [] {
      CallsAreThere(before, 0);
      var item :| item in before && item.FunctionCall?;
      var i :| 0 <= i < |before| && before[i] == item;
      assert response.output[i].FunctionCall? && response.output[n - 1].Reasoning?;
    } else {
      assert last in response.output;
    }
  }

  lemma {:induction false} SomeIsInvalid(thoughts: seq<Json>)
    requires |ValidItems(thoughts)| != |thoughts|
    ensures exists thought <- thoughts :: !ItemIsValid(thought)
  {
    if forall thought <- thoughts :: ItemIsValid(thought) {
      AllAreValid(thoughts);
    }
  }

  lemma {:induction false} AllAreValid(thoughts: seq<Json>)
    requires forall thought <- thoughts :: ItemIsValid(thought)
    ensures ValidItems(thoughts) == thoughts
  {
    if thoughts != [] {
      var n := |thoughts| - 1;
      assert thoughts[n] in thoughts && forall t <- thoughts[..n] :: t in thoughts;
      AllAreValid(thoughts[..n]);
    }
  }

  lemma {:induction false} WiringFailsAt(mint: IdMint, calls: seq<Call>) returns (i: nat)
    requires WireCalls(mint, calls).Err?
    ensures i < |calls| && mint(calls[i].callId) == Err(WireCalls(mint, calls).error)
  {
    var before := calls[..|calls| - 1];
    if WireCalls(mint, before).Err? {
      i := WiringFailsAt(mint, before);
    } else {
      i := |calls| - 1;
    }
  }

  lemma {:induction false} UnwiredIsWrong(lib: Library, response: Schema.Response, runtime: Runtime)
    requires AllValid(ItemIsValid, Thoughts(response.output))
    requires WireCalls(WireIds(lib, Thoughts(response.output), runtime.keyring), Calls(response.output)).Err?
    ensures var mint := WireIds(lib, Thoughts(response.output), runtime.keyring);
            WrongWithResponse(lib, response, runtime, WireCalls(mint, Calls(response.output)).error)
  {
    var mint := WireIds(lib, Thoughts(response.output), runtime.keyring);
    var i := WiringFailsAt(mint, Calls(response.output));
    CallsAreThere(response.output, i);
  }

  /** A finished response is refused only for what its error says of it. */
  lemma {:induction false} PlainRefusedForAReason(lib: Library, response: Schema.Response, runtime: Runtime)
    requires ToChat(lib, response, runtime).Err?
    ensures WrongWithResponse(lib, response, runtime, ToChat(lib, response, runtime).error)
  {
    var output := response.output;
    if response.status == "failed" || response.error.Some? {
    } else if Refused(output).Some? {
      assert output[..|output|] == output;
      RefusedItemIs(lib, response, runtime, |output|);
    } else if Calls(output) == [] {
    } else {
      CallsAreThere(output, 0);
      if |ValidItems(Thoughts(output))| != |Thoughts(output)| {
        SomeIsInvalid(Thoughts(output));
      } else {
        ValidItemsAll(Thoughts(output));
        if Thoughts(output) != [] && !runtime.encoderEnabled {
          ThoughtsAreThere(output);
        } else {
          UnwiredIsWrong(lib, response, runtime);
        }
      }
    }
  }

  // ---- the streamed form ----

  /** What is wrong with an event in a state, by the error it is refused with. */
  ghost predicate WrongWithEvent(lib: Library, runtime: Runtime, s: State, event: Event, error: StreamError) {
    match error
    case ReasoningAfterCall => event.ReasoningItem? && s.toolCallsSeen
    case ReasoningIncomplete => IsNewCall(s, event) && exists item <- Items(s.reasoning) :: !ItemIsValid(item)
    case EncoderOff => IsNewCall(s, event) && s.reasoning != [] && !runtime.encoderEnabled
    case NotMinted(BadCapsule(why)) =>
      IsNewCall(s, event) && EncodeResponsesCapsule(lib, event.callId, Items(s.reasoning), runtime.keyring) == Err(why)
    case ArgumentsBeforeMetadata =>
      ((event.ArgumentsDelta? && event.delta != "") || event.ArgumentsDone?) && event.index !in s.toolIndices
    case ArgumentsMismatch =>
      && (event.ArgumentsDone? || (event.CallItem? && event.done))
      && var sent := if event.index in s.toolArguments then s.toolArguments[event.index] else "";
         !(sent <= event.arguments)
    case UpstreamFailure(failure) => event == Failed(failure)
    case _ => false
  }

  predicate IsNewCall(s: State, event: Event) { event.CallItem? && event.index !in s.toolIndices }

  lemma {:induction false} ArgumentsFailFor(lib: Library, runtime: Runtime, s: State, event: Event)
    requires event.ArgumentsDelta? || event.ArgumentsDone?
    requires Apply(Config(MinterOf(lib, runtime), false), s, event).Err?
    ensures WrongWithEvent(lib, runtime, s, event, Apply(Config(MinterOf(lib, runtime), false), s, event).error)
  {
  }

  lemma {:induction false} IdFailsFor(lib: Library, runtime: Runtime, s: State, event: Event)
    requires IsNewCall(s, event) && ToolId(lib, runtime, event.callId, Items(s.reasoning)).Err?
    ensures WrongWithEvent(lib, runtime, s, event, ToolId(lib, runtime, event.callId, Items(s.reasoning)).error)
  {
  }

  lemma {:induction false} CallFailsFor(lib: Library, runtime: Runtime, cfg: Config, s: State, event: Event)
    requires cfg.mint == MinterOf(lib, runtime) && event.CallItem? && Apply(cfg, s, event).Err?
    ensures WrongWithEvent(lib, runtime, s, event, Apply(cfg, s, event).error)
  {
    var t := CloseThink(s);
    assert t.toolIndices == s.toolIndices && t.reasoning == s.reasoning && t.toolArguments == s.toolArguments;
    if event.index !in s.toolIndices && ToolId(lib, runtime, event.callId, Items(s.reasoning)).Err? {
      IdFailsFor(lib, runtime, s, event);
    }
  }

  /** An event is refused in a state only for what the error says of them. */
  lemma {:induction false} EventRefusedForAReason(lib: Library, runtime: Runtime, cfg: Config, s: State, event: Event)
    requires cfg.mint == MinterOf(lib, runtime) && Apply(cfg, s, event).Err?
    ensures WrongWithEvent(lib, runtime, s, event, Apply(cfg, s, event).error)
  {
    if event.CallItem? {
      CallFailsFor(lib, runtime, cfg, s, event);
    } else if event.ArgumentsDelta? || event.ArgumentsDone? {
      ArgumentsFailFor(lib, runtime, s, event);
    }
  }

  // ---- JSON that is no event ----

  /** What is wrong with the JSON, by the error it is refused with. */
  ghost predicate WrongWithJson(json: Json, error: EventError) {
    match error
    case NoType => forall name :: !IsOfType(json, name)
    case NoItem => IsItemEvent(json) && Lacks(json, "item")
    case NoItemType => exists item :: HasItem(json, item) && forall name :: !IsOfType(item, name)
    case UnsupportedCall(name) =>
      && EndsInCall(name) && !MaySkip(name) && !IsHeardType(name)
      && exists item :: HasItem(json, item) && IsOfType(item, name)
    case NoCallId =>
      exists item :: IsItem(json, item) && IsOfType(item, "function_call")
                     && forall id :: !Holds(item, "call_id", String(id))
    case NoName =>
      exists item :: IsItem(json, item) && IsOfType(item, "function_call")
                     && forall name :: !Holds(item, "name", String(name))
    case OutputNotArray =>
      IsEnd(json) && exists response, output ::
        Holds(json, "response", response) && Holds(response, "output", output) && !output.Array?
  }

  predicate IsItemEvent(json: Json) { IsOfType(json, ItemEvent(false)) || IsOfType(json, ItemEvent(true)) }

  predicate IsEnd(json: Json) { IsOfType(json, EndEvent(false)) || IsOfType(json, EndEvent(true)) }

  predicate IsItem(json: Json, item: Json) { IsItemEvent(json) && Holds(json, "item", item) }

  /** An item that is looked at: the one of an item event, or one in the output of a response that ends. */
  ghost predicate HasItem(json: Json, item: Json) {
    || IsItem(json, item)
    || (IsEnd(json) && exists response, output ::
          && Holds(json, "response", response) && Holds(response, "output", output)
          && output.Array? && item in output.items)
  }

  lemma {:induction false} ItemTypeFailsFor(json: Json, item: Json)
    requires HasItem(json, item) && ItemType(item).Err?
    ensures WrongWithJson(json, ItemType(item).error)
  {
    ItemNames();
    if item.GetString("type").Some? {
      assert IsOfType(item, item.GetString("type").value);
    }
  }

  lemma {:induction false} CheckFailsAt(items: seq<Json>) returns (i: nat)
    requires CheckItems(items).Err?
    ensures i < |items| && ItemType(items[i]).Err? && CheckItems(items).error == ItemType(items[i]).error
  {
    if ItemType(items[0]).Err? {
      i := 0;
    } else {
      i := CheckFailsAt(items[1..]);
      i := i + 1;
    }
  }

  lemma {:induction false} EndFailsFor(json: Json)
    requires IsEnd(json) && CheckTerminal(json).Err?
    ensures WrongWithJson(json, CheckTerminal(json).error)
  {
    var response := json.Get("response").value;
    var output := response.Get("output").value;
    assert Holds(json, "response", response) && Holds(response, "output", output);
    if output.Array? {
      var i := CheckFailsAt(output.items);
      assert HasItem(json, output.items[i]);
      ItemTypeFailsFor(json, output.items[i]);
    }
  }

  lemma {:induction false} ItemFailsFor(json: Json, done: bool)
    requires IsItemEvent(json) && ReadItem(json, done).Err?
    ensures WrongWithJson(json, ReadItem(json, done).error)
  {
    if json.Get("item").Some? {
      var item := json.Get("item").value;
      assert IsItem(json, item) && HasItem(json, item);
      if ItemType(item).Err? {
        ItemTypeFailsFor(json, item);
      } else {
        ItemNames();
        assert IsOfType(item, "function_call");
        assert item.GetString("call_id").None? ==> forall id :: !Holds(item, "call_id", String(id));
        assert item.GetString("name").None? ==> forall name :: !Holds(item, "name", String(name));
      }
    }
  }

  /** JSON is refused as an event only for what the error says of it. */
  lemma {:induction false} JsonRefusedForAReason(json: Json)
    requires Read(json).Err?
    ensures WrongWithJson(json, Read(json).error)
  {
    LongNames();
    ShortNames();
    var name := json.GetString("type");
    if name.Some? {
      if IsItemEvent(json) {
        ItemFailsFor(json, name.value == ItemEvent(true));
      } else {
        EndFailsFor(json);
      }
    }
  }

  // ---- a run that is broken off ----

  lemma {:induction false} MappingFailsFor(step: Mapper, s: State, events: seq<Json>)
    ensures var m := MapAll(step, s, events);
            m.error.Some? ==> exists event <- events :: step(m.state, event) == Err(m.error.value)
    decreases |events|
  {
    if events != [] {
      if step(s, events[0]).Ok? {
        MappingFailsFor(step, step(s, events[0]).value, events[1..]);
      } else {
        assert events[0] in events;
      }
    }
  }

  /**
   * What broke a run off, by the error it ends with: the transport, bytes that are too many for a frame or no event,
   * an event that was refused in the state that was reached, or a body that ended too soon.
   */
  ghost predicate BrokenOffBy(step: Mapper, read: Sse.FrameReader, upstream: seq<Upstream>, d: Driven) {
    match d.failure
    case None => d.state.terminalSeen
    case Some(Transport(reason)) => exists arrival <- upstream :: arrival == Broken(reason)
    case Some(Undecodable(cause)) => cause == Sse.FrameTooLarge || exists frame :: read(frame) == Err(cause)
    case Some(Unmappable(error)) => exists event :: step(d.state, event) == Err(error)
    case Some(NoTerminalEvent) => !d.state.terminalSeen
  }

  lemma {:induction false} DrainFailsFor(read: Sse.FrameReader, b: Bytes)
    requires Sse.Drain(read, b).Err?
    ensures exists frame :: read(frame) == Err(Sse.Drain(read, b).error)
    decreases |b|
  {
    var cut := Sse.NextFrame(b).value;
    if read(cut.frame).Ok? {
      DrainFailsFor(read, cut.rest);
    }
  }

  lemma {:induction false} SettledIsBrokenOff(step: Mapper, read: Sse.FrameReader, upstream: seq<Upstream>, s: State,
                                              events: seq<Json>)
    ensures BrokenOffBy(step, read, upstream, Settle(MapAll(step, s, events)))
  {
    MappingFailsFor(step, s, events);
  }

  lemma {:induction false} DriveFailsFor(step: Mapper, read: Sse.FrameReader, s: State, buffer: Bytes,
                                         upstream: seq<Upstream>)
    ensures BrokenOffBy(step, read, upstream, Drive(step, read, s, buffer, upstream))
    decreases |upstream|
  {
    if upstream == [] {
      var last := LastEvents(read, buffer);
      if last.Ok? {
        SettledIsBrokenOff(step, read, upstream, s, last.value);
      }
    } else if upstream[0].Broken? {
      assert upstream[0] in upstream;
    } else {
      var pushed := Sse.PushChunk(read, buffer, upstream[0].bytes);
      if pushed.Err? {
        if pushed.error != Sse.FrameTooLarge {
          DrainFailsFor(read, buffer + upstream[0].bytes);
        }
      } else {
        var m := MapAll(step, s, pushed.value.events);
        SettledIsBrokenOff(step, read, upstream, s, pushed.value.events);
        if m.error.None? && !m.state.terminalSeen {
          DriveFailsFor(step, read, m.state, pushed.value.rest, upstream[1..]);
          LaterBreaksOff(step, read, upstream, Drive(step, read, m.state, pushed.value.rest, upstream[1..]));
        }
      }
    }
  }

  lemma {:induction false} LaterBreaksOff(step: Mapper, read: Sse.FrameReader, upstream: seq<Upstream>, d: Driven)
    requires upstream != [] && BrokenOffBy(step, read, upstream[1..], d)
    ensures BrokenOffBy(step, read, upstream, d)
  {
    assert forall arrival <- upstream[1..] :: arrival in upstream;
  }

  /** Every run ends with the answer, or with an error that says what broke it off. */
  lemma {:induction false} RunBrokenOffForAReason(cfg: Config, read: Sse.FrameReader, upstream: seq<Upstream>)
    ensures BrokenOffBy(MapperOf(cfg), read, upstream, Run(cfg, read, upstream))
  {
    DriveFailsFor(MapperOf(cfg), read, INITIAL, [], upstream);
  }
}
