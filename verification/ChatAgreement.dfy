/**
 * The adapter's streaming form against its plain form: the events of a finished response give the client what
 * the response itself would have given.
 */
module ChatAgreement {
  import opened Prelude
  import opened Json
  import Schema = ResponsesSchema
  import opened Capsule
  import opened ChatReplay
  import opened ChatEvents
  import opened ChatStream
  import opened ChatStreamInvariant
  import opened ChatStreamRuns
  import opened ChatRoundTrip
  import opened ChatSchema
  import opened ChatCanonical

  // ---- when the plain form accepts the same output ----

  predicate MintsAll(mint: Minter, calls: seq<Call>, items: seq<Json>) {
    forall c <- calls :: mint(c.callId, items).Ok?
  }

  lemma {:induction false} MintsOneMore(mint: Minter, calls: seq<Call>, c: Call, items: seq<Json>)
    ensures MintsAll(mint, calls + [c], items) <==> MintsAll(mint, calls, items) && mint(c.callId, items).Ok?
  {
    assert c in calls + [c] && forall x <- calls :: x in calls + [c];
  }

  /**
   * Item by item or all at once: nothing is refused, and every call's id can be minted with all the reasoning kept.
   */
  lemma {:induction false} AdmissibleIff(mint: Minter, output: seq<Schema.OutputItem>, cuts: seq<Cut>)
    requires |cuts| == |output| && forall item <- output :: item.Other? ==> !IsCallLike(item.itemType)
    ensures AllAdmissible(mint, output, cuts)
            <==> Refused(output).None? && MintsAll(mint, Calls(output), Kept(output, cuts))
  {
    if output != [] {
      var n := |output| - 1;
      var before, last, kept := output[..n], output[n], Kept(output[..n], cuts[..n]);
      AdmissibleIff(mint, before, cuts[..n]);
      assert last in output && output == before + [last];
      OutputStep(before, last);
      assert !last.Reasoning? ==> kept + KeptOf(last, cuts[n]) == kept;
      if last.FunctionCall? {
        MintsOneMore(mint, Calls(before), Call(last.callId, last.name, last.arguments), kept);
      }
    }
  }

  lemma {:induction false} WiredIffMinted(mint: IdMint, calls: seq<Call>)
    ensures WireCalls(mint, calls).Ok? <==> forall c <- calls :: mint(c.callId).Ok?
    decreases |calls|
  {
    if calls != [] {
      var before, last := calls[..|calls| - 1], calls[|calls| - 1];
      WiredIffMinted(mint, before);
      assert calls == before + [last];
      assert forall c <- before :: c in calls;
      assert last in calls;
    }
  }

  // ---- the whole response ----

  /** The events of a response: those of its output, then the terminal one. */
  function Canonical(response: Schema.Response, cuts: seq<Cut>, usage: Option<Json>): seq<Event>
    requires CutsAll(cuts, response.output)
  {
    OutputEvents(response.output, cuts) + [Terminal(response.status == "incomplete", usage)]
  }

  predicate Ended(response: Schema.Response) { response.status != "failed" && response.error.None? }

  /** The plain form accepts a response exactly when every call's id can be minted and nothing is refused. */
  lemma {:induction false} PlainAcceptsIff(cfg: Config, lib: Library, runtime: Runtime, response: Schema.Response)
    requires cfg.mint == MinterOf(lib, runtime)
    requires Ended(response)
    ensures ToChat(lib, response, runtime).Ok?
            <==> Refused(response.output).None? && MintsAll(cfg.mint, Calls(response.output), Thoughts(response.output))
  {
    var thoughts, calls := Thoughts(response.output), Calls(response.output);
    if calls == [] {
      assert MintsAll(cfg.mint, calls, thoughts);
    } else {
      ValidItemsAll(thoughts);
      MintableIff(cfg, lib, runtime, calls, thoughts);
    }
  }

  /** When the ids of some calls can all be minted: what the plain form checks before it mint them. */
  lemma {:induction false} MintableIff(cfg: Config, lib: Library, runtime: Runtime, calls: seq<Call>,
                                       thoughts: seq<Json>)
    requires cfg.mint == MinterOf(lib, runtime)
    requires calls != []
    ensures MintsAll(cfg.mint, calls, thoughts)
            <==> && |ValidItems(thoughts)| == |thoughts|
                 && (thoughts != [] ==> runtime.encoderEnabled)
                 && WireCalls(WireIds(lib, thoughts, runtime.keyring), calls).Ok?
  {
    ValidItemsAll(thoughts);
    if AllValid(ItemIsValid, thoughts) {
      ValidItemsOfValid(thoughts);
    }
    WiredIffMinted(WireIds(lib, thoughts, runtime.keyring), calls);
    assert calls[0] in calls;
  }

  lemma {:induction false} ValidItemsOfValid(items: seq<Json>)
    requires AllValid(ItemIsValid, items)
    ensures ValidItems(items) == items
  {
    if items != [] {
      ValidItemsOfValid(items[..|items| - 1]);
    }
  }

  lemma {:induction false} SentAreWired(cfg: Config, lib: Library, runtime: Runtime, s: State, kept: seq<Json>)
    requires cfg.mint == MinterOf(lib, runtime) && Numbered(s) && Minted(cfg, s) && Accounted(s)
    requires Items(s.reasoning) == kept
    ensures WireCalls(WireIds(lib, kept, runtime.keyring), MadeBy(s)) == Ok(Assembled(s.log))
  {
    MadeIsSent(s);
    MintedAreWired(cfg, lib, runtime, kept, s.announced, StartsOf(s.log).value);
    AssembledAreWired(WireIds(lib, kept, runtime.keyring), s.announced, StartsOf(s.log).value,
                      AllArguments(s.log, |s.announced|));
  }

  lemma {:induction false} PlainAnswer(lib: Library, runtime: Runtime, response: Schema.Response)
    requires ToChat(lib, response, runtime).Ok?
    ensures PlainShows(lib, runtime, response, ToChat(lib, response, runtime).value)
  {
    var thoughts, calls := Thoughts(response.output), Calls(response.output);
    var reply := ToChat(lib, response, runtime).value;
    ValidItemsAll(thoughts);
    PlainCalls(lib, runtime, response, thoughts, calls, reply);
  }

  /** The calls of a plain answer are wired with all its reasoning; without calls that makes no difference. */
  lemma {:induction false} PlainCalls(lib: Library, runtime: Runtime, response: Schema.Response, thoughts: seq<Json>,
                                      calls: seq<Call>, reply: ChatReply)
    requires ToChat(lib, response, runtime) == Ok(reply)
    requires thoughts == Thoughts(response.output) && calls == Calls(response.output)
    requires calls != [] ==> ValidItems(thoughts) == thoughts
    ensures WireCalls(WireIds(lib, thoughts, runtime.keyring), calls) == Ok(reply.toolCalls.GetOr([]))
    ensures reply.toolCalls.GetOr([]) != [] <==> calls != []
  {
  }

  /** What is accumulated for the announced calls is what was sent for them. */
  lemma {:induction false} MadeIsSent(s: State)
    requires Numbered(s) && Accounted(s)
    ensures MadeBy(s) == CallsMade(s)
  {
    forall k | 0 <= k < |s.announced| ensures MadeBy(s)[k] == CallsMade(s)[k] {
      var o := s.announced[k].outputIndex;
      assert s.toolIndices[o] == k;
    }
  }

  /** The finish reason a client was last given. */
  function FinishOf(log: Log): Option<string> {
    match log
    case Empty => None
    case After(_, FinishChunk(reason)) => Some(reason)
    case After(before, _) => FinishOf(before)
  }

  lemma {:induction false} TextIsNoFinish(s: State, event: Event)
    requires event.SummaryDelta? || event.SummaryDone? || event.TextDelta?
    ensures var t := Apply(Config((_, _) => Err(EncoderOff), false), s, event);
            t.Ok? && FinishOf(t.value.log) == FinishOf(s.log) && t.value.finishReason == s.finishReason
  {
    assert FinishOf(CloseThink(s).log) == FinishOf(s.log);
  }

  lemma {:induction false} ArgumentsAreNoFinish(s: State, index: nat, arguments: string)
    ensures var t := AppendArguments(s, index, arguments);
            t.Ok? ==> FinishOf(t.value.log) == FinishOf(s.log) && t.value.finishReason == s.finishReason
    ensures var t := CompleteArguments(s, index, arguments);
            t.Ok? ==> FinishOf(t.value.log) == FinishOf(s.log) && t.value.finishReason == s.finishReason
  {
  }

  lemma {:induction false} AnnouncedIsNoFinish(cfg: Config, s: State, event: Event)
    requires event.CallItem? && AnnounceAndComplete(cfg, s, event.index, event.callId, event.name, event.arguments,
                                                    event.done).Ok?
    ensures var t := AnnounceAndComplete(cfg, s, event.index, event.callId, event.name, event.arguments,
                                         event.done).value;
            FinishOf(t.log) == FinishOf(s.log) && t.finishReason == s.finishReason
  {
    var announced := Announce(cfg, s, event.index, event.callId, event.name);
    assert FinishOf(announced.value.log) == FinishOf(s.log) && announced.value.finishReason == s.finishReason;
    ArgumentsAreNoFinish(announced.value, event.index, event.arguments);
  }

  lemma {:induction false} CallIsNoFinish(cfg: Config, s: State, event: Event)
    requires !event.SummaryDelta? && !event.SummaryDone? && !event.TextDelta? && !event.Terminal?
    requires Apply(cfg, s, event).Ok?
    ensures var t := Apply(cfg, s, event).value;
            FinishOf(t.log) == FinishOf(s.log) && t.finishReason == s.finishReason
  {
    if event.CallItem? {
      var closed := CloseThink(s);
      assert FinishOf(closed.log) == FinishOf(s.log) && closed.finishReason == s.finishReason;
      AnnouncedIsNoFinish(cfg, closed, event);
    } else if event.ArgumentsDelta? {
      ArgumentsAreNoFinish(s, event.index, event.delta);
    } else if event.ArgumentsDone? {
      ArgumentsAreNoFinish(s, event.index, event.arguments);
    }
  }

  /** The finish reason the machine keeps is always the one that the client was last given. */
  lemma {:induction false} FinishIsRemembered(cfg: Config, s: State, event: Event)
    requires s.finishReason == FinishOf(s.log) && Apply(cfg, s, event).Ok?
    ensures INITIAL.finishReason == FinishOf(INITIAL.log)
    ensures Apply(cfg, s, event).value.finishReason == FinishOf(Apply(cfg, s, event).value.log)
  {
    if event.Terminal? {
      var reason := FinishReason(s, event.incomplete);
      var finished := Emit(CloseThink(s).(terminalSeen := true, finishReason := Some(reason)), FinishChunk(reason));
      assert FinishOf(finished.log) == Some(reason);
    } else if event.SummaryDelta? || event.SummaryDone? || event.TextDelta? {
      TextIsNoFinish(s, event);
    } else {
      CallIsNoFinish(cfg, s, event);
    }
  }

  lemma {:induction false} TerminalSends(cfg: Config, s: State, incomplete: bool, usage: Option<Json>)
    requires Inv(cfg, s) && !s.thinkOpen
    ensures var t := OnTerminal(cfg, s, incomplete, usage);
            && FinishOf(t.log) == Some(FinishReason(s, incomplete))
            && ContentOf(t.log) == ContentOf(s.log)
            && StartsOf(t.log) == StartsOf(s.log) && StartsOf(s.log).Some?
            && Assembled(t.log) == Assembled(s.log)
  {
    var reason := FinishReason(s, incomplete);
    var finished := Emit(s.(terminalSeen := true, finishReason := Some(reason)), FinishChunk(reason));
    SaysNothingMore(s.log, FinishChunk(reason));
    if cfg.includeUsage && usage.Some? {
      SaysNothingMore(finished.log, UsageChunk(UsageIn(usage.value)));
    }
  }

  /** A closing chunk is no content, no tool and no argument. */
  lemma {:induction false} SaysNothingMore(log: Log, last: Chunk)
    requires StartsOf(log).Some? && (last.FinishChunk? || last.UsageChunk?)
    ensures var more := Log.After(log, last);
            && ContentOf(more) == ContentOf(log) && StartsOf(more) == StartsOf(log)
            && Assembled(more) == Assembled(log)
  {
    var more, n := Log.After(log, last), |StartsOf(log).value|;
    assert forall k :: ArgumentsSent(more, k) == ArgumentsSent(log, k);
    assert AllArguments(more, n) == AllArguments(log, n);
  }

  // ---- the two forms of a reasoning item ----

  predicate SameThoughts(xs: seq<Json>, ys: seq<Json>) {
    |xs| == |ys| && forall i :: 0 <= i < |xs| ==> SameThought(xs[i], ys[i])
  }

  /** Items that read the same are accepted alike, show the same summary, and are sent upstream alike. */
  lemma {:induction false} SameThoughtReads(x: Json, y: Json)
    requires SameThought(x, y)
    ensures ItemIsValid(x) <==> ItemIsValid(y)
    ensures ItemSummary(x) == ItemSummary(y)
    ensures ItemIsValid(x) ==> FromValue(x) == FromValue(y)
  {
    forall field | Present(x.Get(field)) == Present(y.Get(field)) ensures x.GetString(field) == y.GetString(field) {
    }
  }

  lemma {:induction false} SameThoughtsValid(xs: seq<Json>, ys: seq<Json>)
    requires SameThoughts(xs, ys)
    ensures AllValid(ItemIsValid, xs) <==> AllValid(ItemIsValid, ys)
    ensures AllValid(ItemIsValid, xs) ==> Replayed(xs) == Replayed(ys)
  {
    forall i | 0 <= i < |xs|
      ensures (ItemIsValid(xs[i]) <==> ItemIsValid(ys[i]))
                 && (ItemIsValid(xs[i]) ==> FromValue(xs[i]) == FromValue(ys[i]))
    {
      SameThoughtReads(xs[i], ys[i]);
    }
    AllValidAt(xs);
    AllValidAt(ys);
  }

  lemma {:induction false} AllValidAt(xs: seq<Json>)
    ensures AllValid(ItemIsValid, xs) <==> forall i :: 0 <= i < |xs| ==> ItemIsValid(xs[i])
  {
    forall i | AllValid(ItemIsValid, xs) && 0 <= i < |xs| ensures ItemIsValid(xs[i]) {
      assert xs[i] in xs;
    }
  }

  lemma {:induction false} SameThoughtsSummary(xs: seq<Json>, ys: seq<Json>)
    requires SameThoughts(xs, ys)
    ensures ReasoningSummary(xs) == ReasoningSummary(ys)
  {
    if xs != [] {
      var n := |xs| - 1;
      SameThoughtsSummary(xs[..n], ys[..n]);
      SameThoughtReads(xs[n], ys[n]);
    }
  }

  /** The machine keeps the reasoning of an output as its typed form reads. */
  lemma {:induction false} KeptReadsTheSame(output: seq<Schema.OutputItem>, cuts: seq<Cut>)
    requires CutsAll(cuts, output)
    ensures SameThoughts(Kept(output, cuts), Thoughts(output))
  {
    if output != [] {
      var n := |output| - 1;
      CutsLast(output, cuts, n);
      KeptReadsTheSame(output[..n], cuts[..n]);
      FlatMapOne(ThoughtsOf, output[..n], output[n]);
      OneMoreThought(Kept(output[..n], cuts[..n]), Thoughts(output[..n]), output[n], cuts[n]);
    }
  }

  lemma {:induction false} OneMoreThought(xs: seq<Json>, ys: seq<Json>, item: Schema.OutputItem, cut: Cut)
    requires SameThoughts(xs, ys) && CutsItem(cut, item)
    ensures SameThoughts(xs + KeptOf(item, cut), ys + ThoughtsOf(item))
  {
    if item.Reasoning? {
      var v := ToValue(item.id, item.content, item.summary, item.encryptedContent);
      assert v in ThoughtsOf(item);
    }
  }

  // ---- what can be minted ----

  /** What an id needs besides room: only what both forms of the reasoning agree on. */
  predicate Mintable(runtime: Runtime, callId: string, items: seq<Json>) {
    items != [] ==>
      AllValid(ItemIsValid, items) && runtime.encoderEnabled && callId != "" && SigningKey(runtime.keyring).Ok?
  }

  /** A capsule of the items for the call is within the size limit. */
  predicate CapsuleFits(lib: Library, keyring: Keyring, callId: string, items: seq<Json>) {
    items != [] && SigningKey(keyring).Ok? ==>
      var (kid, key) := SigningKey(keyring).value;
      var payload := lib.printResponses(ResponsesPayload(1, kid, callId, items));
      Utf8Length(Signed(lib, RESPONSES_CAPSULE_PREFIX, key, payload)) <= MAX_CAPSULE_WIRE_BYTES
  }

  predicate CapsulesFit(lib: Library, keyring: Keyring, calls: seq<Call>, items: seq<Json>) {
    forall c <- calls :: CapsuleFits(lib, keyring, c.callId, items)
  }

  predicate AllMintable(runtime: Runtime, calls: seq<Call>, items: seq<Json>) {
    forall c <- calls :: Mintable(runtime, c.callId, items)
  }

  lemma {:induction false} MintedIff(lib: Library, runtime: Runtime, callId: string, items: seq<Json>)
    ensures MinterOf(lib, runtime)(callId, items).Ok?
            <==> Mintable(runtime, callId, items) && CapsuleFits(lib, runtime.keyring, callId, items)
  {
    assert MinterOf(lib, runtime)(callId, items) == ToolId(lib, runtime, callId, items);
  }

  lemma {:induction false} MintsAllIff(mint: Minter, lib: Library, runtime: Runtime, calls: seq<Call>, items: seq<Json>)
    requires mint == MinterOf(lib, runtime)
    ensures MintsAll(mint, calls, items)
            <==> AllMintable(runtime, calls, items) && CapsulesFit(lib, runtime.keyring, calls, items)
  {
    forall c | c in calls
      ensures mint(c.callId, items).Ok?
              <==> Mintable(runtime, c.callId, items) && CapsuleFits(lib, runtime.keyring, c.callId, items)
    {
      MintedIff(lib, runtime, c.callId, items);
    }
  }

  lemma {:induction false} MintableAlike(runtime: Runtime, calls: seq<Call>, xs: seq<Json>, ys: seq<Json>)
    requires SameThoughts(xs, ys)
    ensures AllMintable(runtime, calls, xs) <==> AllMintable(runtime, calls, ys)
  {
    SameThoughtsValid(xs, ys);
    assert forall c <- calls :: Mintable(runtime, c.callId, xs) <==> Mintable(runtime, c.callId, ys);
  }

  // ---- what both forms give a client ----

  /** A stream of the response, as a client has put it together. */
  predicate StreamShows(lib: Library, runtime: Runtime, response: Schema.Response, kept: seq<Json>, log: Log) {
    && FinishOf(log) == Some(if response.status == "incomplete" then "length"
                             else if Calls(response.output) != [] then "tool_calls" else "stop")
    && StartsOf(log).Some?
    && WireCalls(WireIds(lib, kept, runtime.keyring), Calls(response.output)) == Ok(Assembled(log))
    && ContentOf(log) == Streamed(response.output)
  }

  /** The plain answer to the response. */
  predicate PlainShows(lib: Library, runtime: Runtime, response: Schema.Response, reply: ChatReply) {
    && reply.finishReason == (if Calls(response.output) != [] then "tool_calls"
                              else if response.status == "incomplete" then "length" else "stop")
    && WireCalls(WireIds(lib, Thoughts(response.output), runtime.keyring), Calls(response.output))
       == Ok(reply.toolCalls.GetOr([]))
    && reply.content.GetOr("") == Render(ReasoningSummary(Thoughts(response.output)), VisibleText(response.output))
  }

  lemma {:induction false} TerminalShows(cfg: Config, lib: Library, runtime: Runtime, s: State,
                                         response: Schema.Response, kept: seq<Json>, usage: Option<Json>)
    requires cfg.mint == MinterOf(lib, runtime) && At(cfg, s, response.output, kept)
    ensures StreamShows(lib, runtime, response, kept, OnTerminal(cfg, s, response.status == "incomplete", usage).log)
  {
    TerminalSends(cfg, s, response.status == "incomplete", usage);
    SentAreWired(cfg, lib, runtime, s, kept);
    assert |MadeBy(s)| == |s.announced|;
  }

  /**
   * Both forms of the adapter: they accept a response on the same grounds, apart from the room its reasoning takes
   * in a capsule, and each then shows what it shows of it.
   */
  predicate SameGrounds(accepted: bool, log: Log, lib: Library, runtime: Runtime, response: Schema.Response,
                        kept: seq<Json>)
  {
    var calls, thoughts, p := Calls(response.output), Thoughts(response.output), ToChat(lib, response, runtime);
    && (accepted && CapsulesFit(lib, runtime.keyring, calls, thoughts)
        <==> p.Ok? && CapsulesFit(lib, runtime.keyring, calls, kept))
    && (accepted ==> CapsulesFit(lib, runtime.keyring, calls, kept) && StreamShows(lib, runtime, response, kept, log))
    && (p.Ok? ==> CapsulesFit(lib, runtime.keyring, calls, thoughts) && PlainShows(lib, runtime, response, p.value))
  }

  lemma {:induction false} CutItemsAreKnown(output: seq<Schema.OutputItem>, cuts: seq<Cut>)
    requires CutsAll(cuts, output)
    ensures forall item <- output :: item.Other? ==> !IsCallLike(item.itemType)
  {
    forall item | item in output ensures item.Other? ==> !IsCallLike(item.itemType) {
      var i :| 0 <= i < |output| && output[i] == item;
      assert CutsItem(cuts[i], output[i]);
    }
  }

  lemma {:induction false} AcceptedApartFromRoom(cfg: Config, lib: Library, runtime: Runtime,
                                                 response: Schema.Response, cuts: seq<Cut>)
    requires cfg.mint == MinterOf(lib, runtime) && Ended(response) && CutsAll(cuts, response.output)
    ensures var r := ApplyAll(ApplierOf(cfg), INITIAL, OutputEvents(response.output, cuts));
            var calls, kept, thoughts := Calls(response.output), Kept(response.output, cuts), Thoughts(response.output);
            var grounds := Refused(response.output).None? && AllMintable(runtime, calls, thoughts);
            && (r.Ok? <==> grounds && CapsulesFit(lib, runtime.keyring, calls, kept))
            && (ToChat(lib, response, runtime).Ok? <==> grounds && CapsulesFit(lib, runtime.keyring, calls, thoughts))
            && (r.Ok? ==> At(cfg, r.value, response.output, kept))
  {
    var calls, kept, thoughts := Calls(response.output), Kept(response.output, cuts), Thoughts(response.output);
    OutputIsFollowed(cfg, response.output, cuts);
    CutItemsAreKnown(response.output, cuts);
    AdmissibleIff(cfg.mint, response.output, cuts);
    PlainAcceptsIff(cfg, lib, runtime, response);
    KeptReadsTheSame(response.output, cuts);
    MintsAllIff(cfg.mint, lib, runtime, calls, kept);
    MintsAllIff(cfg.mint, lib, runtime, calls, thoughts);
    MintableAlike(runtime, calls, kept, thoughts);
  }

  lemma {:induction false} CanonicalAgrees(cfg: Config, lib: Library, runtime: Runtime, response: Schema.Response,
                                           cuts: seq<Cut>, usage: Option<Json>)
    requires cfg.mint == MinterOf(lib, runtime) && Ended(response) && CutsAll(cuts, response.output)
    ensures var r := ApplyAll(ApplierOf(cfg), INITIAL, Canonical(response, cuts, usage));
            SameGrounds(r.Ok?, LogOf(r), lib, runtime, response, Kept(response.output, cuts))
  {
    var incomplete := response.status == "incomplete";
    var terminal, step := Terminal(incomplete, usage), ApplierOf(cfg);
    var r, kept := ApplyAll(step, INITIAL, OutputEvents(response.output, cuts)), Kept(response.output, cuts);
    AcceptedApartFromRoom(cfg, lib, runtime, response, cuts);
    ApplyLast(step, INITIAL, OutputEvents(response.output, cuts), terminal);
    if r.Ok? {
      TerminalApplies(cfg, r.value, incomplete, usage);
      TerminalShows(cfg, lib, runtime, r.value, response, kept, usage);
    }
    if ToChat(lib, response, runtime).Ok? {
      PlainAnswer(lib, runtime, response);
    }
  }

  function LogOf(r: Result<State, StreamError>): Log { if r.Ok? then r.value.log else Empty }

  lemma {:induction false} TerminalApplies(cfg: Config, s: State, incomplete: bool, usage: Option<Json>)
    ensures Behind(ApplierOf(cfg), Ok(s), Terminal(incomplete, usage)) == Ok(OnTerminal(cfg, s, incomplete, usage))
  {
  }

  /** The events tell of the response: what is heard of them is its canonical events, with others in between. */
  predicate Tells(events: seq<Event>, response: Schema.Response, cuts: seq<Cut>, usage: Option<Json>) {
    CutsAll(cuts, response.output) && Heard(events) == Heard(Canonical(response, cuts, usage))
  }

  /**
   * The streaming form refines the plain one: whatever the fragments, whatever events without meaning for a chat
   * stand between, before and behind, and whatever further fields its reasoning items have, the events of a
   * response are accepted exactly when the response is, if its capsules have room in both forms. The client then
   * has the same tool calls, in order, with the same names and arguments and the ids of the reasoning it was sent;
   * and the content is that of the items one after the other.
   */
  lemma {:induction false} StreamAgreesWithPlain(cfg: Config, lib: Library, runtime: Runtime,
                                                 response: Schema.Response, cuts: seq<Cut>, usage: Option<Json>,
                                                 events: seq<Event>)
    requires cfg.mint == MinterOf(lib, runtime)
    requires Ended(response) && Tells(events, response, cuts, usage)
    ensures var r := ApplyAll(ApplierOf(cfg), INITIAL, events);
            SameGrounds(r.Ok?, LogOf(r), lib, runtime, response, Kept(response.output, cuts))
  {
    CanonicalAgrees(cfg, lib, runtime, response, cuts, usage);
    HeardIsEnough(cfg, INITIAL, events);
    HeardIsEnough(cfg, INITIAL, Canonical(response, cuts, usage));
  }

  // ---- what the two forms have in common ----

  /** Without calls, and where the reasoning has just the fields of its typed form, both forms accept alike. */
  lemma {:induction false} AcceptedAlikeWhen(accepted: bool, log: Log, lib: Library, runtime: Runtime,
                                             response: Schema.Response, kept: seq<Json>)
    requires SameGrounds(accepted, log, lib, runtime, response, kept)
    requires Calls(response.output) == [] || kept == Thoughts(response.output)
    ensures accepted <==> ToChat(lib, response, runtime).Ok?
  {
  }

  /** The finish reasons differ exactly for an incomplete response with calls. */
  lemma {:induction false} FinishesAlikeIff(lib: Library, runtime: Runtime, response: Schema.Response,
                                            kept: seq<Json>, log: Log, reply: ChatReply)
    requires StreamShows(lib, runtime, response, kept, log) && PlainShows(lib, runtime, response, reply)
    ensures FinishOf(log) == Some(reply.finishReason)
            <==> !(response.status == "incomplete" && Calls(response.output) != [])
  {
    assert "length"[0] != "tool_calls"[0];
  }

  /** A response that was cut off with a call: `length` when streamed, and `tool_calls` in the plain form. */
  lemma {:induction false} IncompleteCallFinishes(cfg: Config, lib: Library, runtime: Runtime,
                                                  response: Schema.Response,
                                                  call: Schema.OutputItem)
    requires cfg.mint == MinterOf(lib, runtime) && response.output == [call] && call.FunctionCall?
    requires response.status == "incomplete" && response.error.None?
    ensures CutsAll([Cut([[]], Null, Null, true)], response.output)
    ensures var r, p := ApplyAll(ApplierOf(cfg), INITIAL, Canonical(response, [Cut([[]], Null, Null, true)], None)),
                        ToChat(lib, response, runtime);
            && r.Ok? && FinishOf(r.value.log) == Some("length")
            && p.Ok? && p.value.finishReason == "tool_calls"
  {
    var cut := Cut([[]], Null, Null, true);
    FlatMapSingle(ThoughtsOf, call);
    FlatMapSingle(CallsOf, call);
    assert CutsItem(cut, call) && Thoughts([call]) == [];
    assert Refused([call]).None? by {
      assert [call][..0] == [];
    }
    PlainAcceptsIff(cfg, lib, runtime, response);
    CanonicalAgrees(cfg, lib, runtime, response, [cut], None);
    assert response.status[0] == 'i';
    assert Kept([call], [cut]) == Kept([], []) + [] == [];
  }

  predicate SameButForIds(a: seq<ToolCall>, b: seq<ToolCall>) {
    |a| == |b| && forall i :: 0 <= i < |a| ==> a[i].(id := None) == b[i].(id := None)
  }

  /** Position, name and arguments of a wired call do not come from its mint. */
  lemma {:induction false} WiredAlike(x: IdMint, y: IdMint, calls: seq<Call>)
    requires WireCalls(x, calls).Ok? && WireCalls(y, calls).Ok?
    ensures SameButForIds(WireCalls(x, calls).value, WireCalls(y, calls).value)
    decreases |calls|
  {
    if calls != [] {
      WiredAlike(x, y, calls[..|calls| - 1]);
    }
  }

  lemma {:induction false} LastIsWired(mint: IdMint, calls: seq<Call>)
    requires calls != [] && WireCalls(mint, calls).Ok?
    ensures var last := WireCalls(mint, calls).value[|calls| - 1];
            last.id.Some? && mint(calls[|calls| - 1].callId) == Ok(last.id.value)
  {
  }

  /** An id tells the reasoning it was minted with. */
  lemma {:induction false} IdTellsItems(lib: Library, callId: string, xs: seq<Json>, ys: seq<Json>, keyring: Keyring)
    requires Lawful(lib) && xs != [] && ys != [] && Keeps(keyring, keyring)
    requires WireId(lib, callId, xs, keyring).Ok?
                && WireId(lib, callId, xs, keyring) == WireId(lib, callId, ys, keyring)
    ensures xs == ys
  {
    WireIdIsRead(lib, callId, xs, keyring, keyring);
    WireIdIsRead(lib, callId, ys, keyring, keyring);
  }

  /**
   * The calls of both forms: always the same names and arguments at the same positions; the same ids exactly when
   * there are none, or the reasoning was sent with just the fields of its typed form.
   */
  lemma {:induction false} CallsAgreeIff(lib: Library, runtime: Runtime, response: Schema.Response, kept: seq<Json>,
                                         log: Log, reply: ChatReply)
    requires Lawful(lib) && SameThoughts(kept, Thoughts(response.output))
    requires StreamShows(lib, runtime, response, kept, log) && PlainShows(lib, runtime, response, reply)
    ensures SameButForIds(Assembled(log), reply.toolCalls.GetOr([]))
    ensures Assembled(log) == reply.toolCalls.GetOr([])
            <==> Calls(response.output) == [] || kept == Thoughts(response.output)
  {
    var calls, thoughts, keyring := Calls(response.output), Thoughts(response.output), runtime.keyring;
    var x, y := WireIds(lib, kept, keyring), WireIds(lib, thoughts, keyring);
    WiredAlike(x, y, calls);
    if calls != [] && kept != [] && Assembled(log) == reply.toolCalls.GetOr([]) {
      var callId := calls[|calls| - 1].callId;
      LastIsWired(x, calls);
      LastIsWired(y, calls);
      assert x(callId) == WireId(lib, callId, kept, keyring) && y(callId) == WireId(lib, callId, thoughts, keyring);
      IdTellsItems(lib, callId, kept, thoughts, keyring);
    }
  }

  /** A reasoning item that is sent as its typed form with a status besides. */
  function WithStatus(item: Schema.OutputItem, status: string): Cut
    requires item.Reasoning?
  {
    var v := ToValue(item.id, item.content, item.summary, item.encryptedContent);
    Cut(Whole(SummaryTexts(item.summary)), v, Object(v.fields["status" := String(status)]), false)
  }

  /** Each text in one piece. */
  function Whole(texts: seq<string>): (r: seq<seq<string>>)
    ensures |r| == |texts|
  {
    seq(|texts|, i requires 0 <= i < |texts| => [texts[i]])
  }

  lemma {:induction false} NoStatus(item: Schema.OutputItem)
    requires item.Reasoning?
    ensures "status" !in ToValue(item.id, item.content, item.summary, item.encryptedContent).fields
  {
  }

  /** A further field is kept for the capsule. */
  lemma {:induction false} MergedWithStatus(v: Json, status: string, cut: Cut)
    requires v.Object? && "status" !in v.fields
    requires cut.opening == v && cut.closing == Object(v.fields["status" := String(status)])
    ensures cut.Merged() == cut.closing && SameThought(cut.closing, v) && cut.closing != v
  {
  }

  lemma {:induction false} FurtherFieldIsKept(item: Schema.OutputItem, status: string)
    requires item.Reasoning?
    ensures var kept := Kept([item], [WithStatus(item, status)]);
            SameThoughts(kept, Thoughts([item])) && kept != Thoughts([item])
  {
    var v, cut := ToValue(item.id, item.content, item.summary, item.encryptedContent), WithStatus(item, status);
    NoStatus(item);
    MergedWithStatus(v, status, cut);
    OneItem(item, cut, v);
  }

  lemma {:induction false} OneItem(item: Schema.OutputItem, cut: Cut, v: Json)
    requires item.Reasoning? && ThoughtsOf(item) == [v]
    ensures Kept([item], [cut]) == [cut.Merged()] && Thoughts([item]) == [v]
  {
    FlatMapSingle(ThoughtsOf, item);
    assert Kept([item], [cut]) == Kept([], []) + [cut.Merged()] == [cut.Merged()];
  }

  lemma {:induction false} ItemAndCall(item: Schema.OutputItem, other: Schema.OutputItem, cut: Cut, call: Cut)
    requires other.FunctionCall?
    ensures Kept([item, other], [cut, call]) == Kept([item], [cut])
    ensures Thoughts([item, other]) == Thoughts([item]) && Calls([item, other]) != []
  {
    assert [item, other] == [item] + [other] && [cut, call][..1] == [cut] && [item, other][..1] == [item];
    FlatMapOne(ThoughtsOf, [item], other);
    FlatMapOne(CallsOf, [item], other);
    assert Kept([item], [cut]) + [] == Kept([item], [cut]) && Thoughts([item]) + [] == Thoughts([item]);
    assert |Calls([item, other])| == |Calls([item])| + 1;
  }

  /** So a reasoning item that is sent with its status gives its call another id than the plain form does. */
  lemma {:induction false} FurtherFieldChangesIds(lib: Library, runtime: Runtime, response: Schema.Response,
                                                  item: Schema.OutputItem, other: Schema.OutputItem, status: string,
                                                  call: Cut, log: Log, reply: ChatReply)
    requires Lawful(lib) && response.output == [item, other] && item.Reasoning? && other.FunctionCall?
    requires StreamShows(lib, runtime, response, Kept([item, other], [WithStatus(item, status), call]), log)
    requires PlainShows(lib, runtime, response, reply)
    ensures SameButForIds(Assembled(log), reply.toolCalls.GetOr([])) && Assembled(log) != reply.toolCalls.GetOr([])
  {
    FurtherFieldIsKept(item, status);
    ItemAndCall(item, other, WithStatus(item, status), call);
    CallsAgreeIff(lib, runtime, response, Kept([item, other], [WithStatus(item, status), call]), log, reply);
  }

  // ---- usage ----

  predicate IsInt32(n: int) { -0x8000_0000 <= n < 0x8000_0000 }

  predicate UsageFits(u: Schema.Usage) {
    IsInt32(u.inputTokens) && IsInt32(u.outputTokens) && IsInt32(u.totalTokens)
    && (u.cachedTokens.Some? ==> IsInt32(u.cachedTokens.value))
    && (u.reasoningTokens.Some? ==> IsInt32(u.reasoningTokens.value))
  }

  function DetailJson(key: string, n: Option<int>): Json {
    match n
    case None => Null
    case Some(v) => Object(map[key := Number(v)])
  }

  /** The usage of a response on the wire. */
  function UsageJson(u: Schema.Usage): Json {
    Object(map["input_tokens" := Number(u.inputTokens), "output_tokens" := Number(u.outputTokens),
               "total_tokens" := Number(u.totalTokens),
               "input_tokens_details" := DetailJson("cached_tokens", u.cachedTokens),
               "output_tokens_details" := DetailJson("reasoning_tokens", u.reasoningTokens)])
  }

  lemma {:induction false} SmallNumberIsRead(wire: Json, key: string, n: int)
    requires IsInt32(n) && wire.Get(key) == Some(Number(n))
    ensures wire.GetInt64(key) == Some(n) && Int32(n) == n
  {
  }

  lemma {:induction false} DetailIsRead(wire: Json, details: string, key: string, n: Option<int>)
    requires wire.Get(details) == Some(DetailJson(key, n)) && (n.Some? ==> IsInt32(n.value))
    ensures Detail(wire, details, key) == n.GetOr(0)
  {
    if n.Some? {
      SmallNumberIsRead(DetailJson(key, n), key, n.value);
    }
  }

  /** The number stands in the field, or no number does. */
  predicate StandsIn(wire: Json, key: string, n: Option<int>) {
    if wire.Object? && key in wire.fields && wire.fields[key].Number? then n == Some(wire.fields[key].number)
    else n.None?
  }

  lemma {:induction false} NumberIsRead(wire: Json, key: string, n: Option<int>)
    requires StandsIn(wire, key, n) && (n.Some? ==> IsInt32(n.value))
    ensures wire.GetInt64(key) == n && (n.Some? ==> Int32(n.value) == n.value)
  {
  }

  /** Of the numbers of a usage each that is missing is 0, but a missing total is the sum of the two others. */
  lemma {:induction false} MissingNumbersAre(wire: Json, input: Option<int>, out: Option<int>, total: Option<int>)
    requires StandsIn(wire, "input_tokens", input) && StandsIn(wire, "output_tokens", out)
    requires StandsIn(wire, "total_tokens", total)
    requires IsInt32(input.GetOr(0)) && IsInt32(out.GetOr(0)) && IsInt32(input.GetOr(0) + out.GetOr(0))
    requires IsInt32(total.GetOr(0))
    ensures var u := UsageIn(wire);
            && u.prompt == input.GetOr(0) && u.completion == out.GetOr(0)
            && u.total == total.GetOr(input.GetOr(0) + out.GetOr(0))
            && (wire.Get("input_tokens_details").None? ==> u.cached == 0)
            && (wire.Get("output_tokens_details").None? ==> u.reasoning == 0)
  {
    NumberIsRead(wire, "input_tokens", input);
    NumberIsRead(wire, "output_tokens", out);
    NumberIsRead(wire, "total_tokens", total);
  }

  lemma {:induction false} FieldsAreRead(wire: Json, u: Schema.Usage)
    requires UsageFits(u)
    requires wire.Get("input_tokens") == Some(Number(u.inputTokens))
    requires wire.Get("output_tokens") == Some(Number(u.outputTokens))
    requires wire.Get("total_tokens") == Some(Number(u.totalTokens))
    requires wire.Get("input_tokens_details") == Some(DetailJson("cached_tokens", u.cachedTokens))
    requires wire.Get("output_tokens_details") == Some(DetailJson("reasoning_tokens", u.reasoningTokens))
    ensures UsageIn(wire)
            == ChatUsage(u.inputTokens, u.outputTokens, u.totalTokens, u.cachedTokens.GetOr(0),
                         u.reasoningTokens.GetOr(0))
  {
    SmallNumberIsRead(wire, "input_tokens", u.inputTokens);
    SmallNumberIsRead(wire, "output_tokens", u.outputTokens);
    SmallNumberIsRead(wire, "total_tokens", u.totalTokens);
    DetailIsRead(wire, "input_tokens_details", "cached_tokens", u.cachedTokens);
    DetailIsRead(wire, "output_tokens_details", "reasoning_tokens", u.reasoningTokens);
  }

  /** The streamed usage has the numbers of the response's, which the plain form copies; a missing detail is 0. */
  lemma {:induction false} UsageIsRead(u: Schema.Usage)
    requires UsageFits(u)
    ensures UsageIn(UsageJson(u))
            == ChatUsage(u.inputTokens, u.outputTokens, u.totalTokens, u.cachedTokens.GetOr(0),
                         u.reasoningTokens.GetOr(0))
  {
    FieldsAreRead(UsageJson(u), u);
  }
}
