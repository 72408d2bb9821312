/** A streamed turn that the client sends back: what becomes of the message it put together from the chunks. */
module ChatEcho {
  import opened Prelude
  import opened Json
  import Schema = ResponsesSchema
  import opened Capsule
  import opened ChatSchema
  import opened ChatReplay
  import opened ChatEvents
  import opened ChatRoundTrip
  import opened ChatStream
  import opened ChatStreamRuns
  import opened ChatCanonical
  import opened ChatAgreement
  import opened ChatChunking
  import opened ChatContent
  import opened ChatAssistant
  import opened ChatWire
  import ChatDelivery
  import Sse = SseDecoding
  import SseBytes

  /** The turn with some content: its reasoning, the content without the rendered summary, its calls. */
  function TurnWith(output: seq<Schema.OutputItem>, content: string): seq<InputItem> {
    var left := WithoutSummary(content, ReasoningSummary(Thoughts(output)));
    FlatMap(AsInput, output)
    + (if left == "" then [] else [Said(AssistantRole, PlainText(left))])
    + FunctionCalls(Calls(output))
  }

  lemma {:induction false} LeftIsSaid(content: string, items: seq<Json>)
    ensures var left := WithoutSummary(content, ReasoningSummary(items));
            SaidByAssistant(StripSummary(ReplyContent(content), items))
            == if left == "" then [] else [Said(AssistantRole, PlainText(left))]
  {
  }

  /** What the summary leaves of a content does not depend on further fields of the reasoning. */
  lemma {:induction false} StripsAlike(content: Option<Content>, xs: seq<Json>, ys: seq<Json>)
    requires SameThoughts(xs, ys)
    ensures StripSummary(content, xs) == StripSummary(content, ys)
  {
    SameThoughtsSummary(xs, ys);
  }

  /** The items the wired calls of a stream were minted with can be sent upstream. */
  lemma {:induction false} WiredIsValid(lib: Library, keyring: Keyring, calls: seq<Call>, items: seq<Json>)
    requires calls != [] && items != [] && WireCalls(WireIds(lib, items, keyring), calls).Ok?
    ensures AllValid(ItemIsValid, items)
  {
    var mint, callId := WireIds(lib, items, keyring), calls[|calls| - 1].callId;
    LastIsWired(mint, calls);
    assert mint(callId) == WireId(lib, callId, items, keyring);
  }

  lemma {:induction false} CollectedTurn(lib: Library, keyring: Keyring, content: Option<Content>, wired: seq<ToolCall>,
                                         items: seq<Json>, calls: seq<InputItem>)
    requires Collect(Collecting(lib, keyring), wired)
             == Ok(Collected(calls, if items == [] then None else Some(items), items == []))
    requires AllValid(ItemIsValid, items)
    ensures AssistantItems(lib, keyring, content, wired)
            == Ok(Replayed(items) + SaidByAssistant(StripSummary(content, items)) + calls)
  {
    if items == [] {
      assert StripSummary(content, items) == content && Replayed(items) == [];
      assert [] + SaidByAssistant(content) == SaidByAssistant(content);
    }
  }

  /**
   * The message of a streamed turn, read back: its reasoning as upstream sent it, its calls under their upstream
   * ids with their names and arguments, and of its content what stands behind the rendered summary.
   */
  lemma {:induction false} EchoIsRead(lib: Library, runtime: Runtime, response: Schema.Response, kept: seq<Json>,
                                      log: Log, keyring: Keyring, content: string)
    requires Lawful(lib) && StreamShows(lib, runtime, response, kept, log) && Calls(response.output) != []
    requires SameThoughts(kept, Thoughts(response.output))
    requires if kept == [] then IdsAreUpstreams(Calls(response.output)) else Keeps(runtime.keyring, keyring)
    ensures AssistantItems(lib, keyring, ReplyContent(content), Assembled(log))
            == Ok(TurnWith(response.output, content))
  {
    var calls, thoughts := Calls(response.output), Thoughts(response.output);
    WiredCallsAreCollected(lib, calls, kept, runtime.keyring, keyring);
    if kept != [] {
      WiredIsValid(lib, runtime.keyring, calls, kept);
    }
    CollectedTurn(lib, keyring, ReplyContent(content), Assembled(log), kept, FunctionCalls(calls));
    SameThoughtsValid(kept, thoughts);
    ThoughtsAreReplayed(response.output);
    StripsAlike(ReplyContent(content), kept, thoughts);
    LeftIsSaid(content, thoughts);
  }

  /** The content is only the text of the turn, and does not start as the rendered summary does. */
  predicate ShowsTextOnly(output: seq<Schema.OutputItem>) {
    && Streamed(output) == VisibleText(output)
    && !HasPrefix(Streamed(output), "<think>" + ReasoningSummary(Thoughts(output)) + "</think>")
  }

  lemma {:induction false} SaidIsText(text: string)
    ensures SaidByAssistant(ReplyContent(text)) == SaidByAssistant(Some(Text(text)))
    ensures forall more :: SaidByAssistant(Some(Text(text))) == SaidByAssistant(Some(Text(more))) ==> text == more
  {
    forall more | SaidByAssistant(Some(Text(text))) == SaidByAssistant(Some(Text(more))) ensures text == more {
      SaidTells(text, more);
    }
  }

  lemma {:induction false} SaidTells(text: string, more: string)
    requires SaidByAssistant(Some(Text(text))) == SaidByAssistant(Some(Text(more)))
    ensures text == more
  {
    if text != "" {
      assert SaidByAssistant(Some(Text(text)))[0] == Said(AssistantRole, PlainText(text));
    }
  }

  /** The text left of a content is the text of the turn exactly when the content is the plain one, or text only. */
  lemma {:induction false} LeftIsText(items: seq<Json>, content: string, text: string)
    ensures var summary := ReasoningSummary(items);
            SaidByAssistant(StripSummary(ReplyContent(content), items)) == SaidByAssistant(Some(Text(text)))
            <==> content == Render(summary, text)
                 || (content == text && !HasPrefix(content, "<think>" + summary + "</think>"))
  {
    var summary := ReasoningSummary(items);
    var prefix := "<think>" + summary + "</think>";
    SaidIsText(content);
    if summary == "" {
      SaidIsText(text);
    } else if HasPrefix(content, prefix) {
      var rest := content[|prefix|..];
      assert content == prefix + rest && content != "";
      assert (prefix + text)[|prefix|..] == text;
      SaidIsText(rest);
    } else {
      assert HasPrefix(prefix + text, prefix);
    }
  }

  /**
   * A streamed tool turn comes back as it was exactly when the stream showed the content of the plain form, or
   * just the text. Its reasoning and its calls come back in every case.
   */
  lemma {:induction false} EchoRestoresIff(lib: Library, runtime: Runtime, response: Schema.Response, kept: seq<Json>,
                                           log: Log, keyring: Keyring)
    requires Lawful(lib) && StreamShows(lib, runtime, response, kept, log) && Calls(response.output) != []
    requires SameThoughts(kept, Thoughts(response.output))
    requires if kept == [] then IdsAreUpstreams(Calls(response.output)) else Keeps(runtime.keyring, keyring)
    ensures var turn := AssistantItems(lib, keyring, ReplyContent(ContentOf(log)), Assembled(log));
            && turn == Ok(TurnWith(response.output, Streamed(response.output)))
            && (turn == Ok(RestoredTurn(response.output))
                <==> SameContent(response.output) || ShowsTextOnly(response.output))
  {
    var output := response.output;
    EchoIsRead(lib, runtime, response, kept, log, keyring, Streamed(output));
    LeftIsText(Thoughts(output), Streamed(output), VisibleText(output));
    LeftIsSaid(Streamed(output), Thoughts(output));
    var front, back := FlatMap(AsInput, output), FunctionCalls(Calls(output));
    var left, text := SaidByAssistant(StripSummary(ReplyContent(Streamed(output)), Thoughts(output))),
                      SaidByAssistant(Some(Text(VisibleText(output))));
    SameMiddle(front, left, text, back);
  }

  lemma {:induction false} SameMiddle<T>(front: seq<T>, x: seq<T>, y: seq<T>, back: seq<T>)
    ensures front + x + back == front + y + back <==> x == y
  {
    if front + x + back == front + y + back {
      assert |x| == |y|;
      forall i | 0 <= i < |x| ensures x[i] == y[i] {
        assert (front + x + back)[|front| + i] == x[i] && (front + y + back)[|front| + i] == y[i];
      }
    }
  }

  /**
   * Round trip through the stream: a response is streamed, in any fragments and any chunks; the client puts its
   * chunks together and sends them back with a result for each call, behind any history. If the stream showed the
   * plain content, upstream is sent what it is sent after the plain form: the reasoning, the text, every call under
   * its upstream id, and each result under the id of its call.
   */
  lemma {:induction false} StreamedTurnRoundTrip(cfg: Config, lib: Library, runtime: Runtime, parse: SseBytes.Parser,
                                                 response: Schema.Response, cuts: seq<Cut>, usage: Option<Json>,
                                                 events: seq<Event>, frames: seq<Sse.Frame>, chunks: seq<Bytes>,
                                                 show: Printer, keyring: Keyring, history: seq<Message>,
                                                 results: seq<Content>)
    requires Lawful(lib) && cfg.mint == MinterOf(lib, runtime) && Ended(response)
    requires Tells(events, response, cuts, usage) && CarryAll(Sse.MeantAll(parse, frames), events)
    requires (forall f <- frames :: Sse.Sendable(parse, f)) && Sse.Flatten(chunks) == Sse.EncodeAll(frames)
    requires Run(cfg, Sse.Reader(parse), Arrivals(chunks)).failure.None? && Calls(response.output) != []
    requires SameContent(response.output) || ShowsTextOnly(response.output)
    requires Thoughts(response.output) != [] ==> Keeps(runtime.keyring, keyring)
    requires Thoughts(response.output) == [] ==> IdsAreUpstreams(Calls(response.output))
    requires AllItems(lib, show, keyring, history).Ok? && |results| == |Calls(response.output)|
    ensures var log := Run(cfg, Sse.Reader(parse), Arrivals(chunks)).state.log;
            && StartsOf(log).Some? && |Assembled(log)| == |results|
            && AllItems(lib, show, keyring, history + [Assistant(ReplyContent(ContentOf(log)), Some(Assembled(log)))]
                                            + ToolResults(Assembled(log), results))
               == Ok(AllItems(lib, show, keyring, history).value + RestoredTurn(response.output)
                     + Outputs(show, Calls(response.output), results))
  {
    var kept, calls := Kept(response.output, cuts), Calls(response.output);
    var log := Run(cfg, Sse.Reader(parse), Arrivals(chunks)).state.log;
    ChatDelivery.DeliveryAgreesWithPlain(cfg, lib, runtime, parse, response, cuts, usage, events, frames, chunks);
    KeptReadsTheSame(response.output, cuts);
    EchoRestoresIff(lib, runtime, response, kept, log, keyring);
    EchoIsTranslated(lib, show, keyring, history, ReplyContent(ContentOf(log)), calls, kept, runtime.keyring,
                     Assembled(log), results, RestoredTurn(response.output));
  }

  lemma {:induction false} EchoIsTranslated(lib: Library, show: Printer, keyring: Keyring, history: seq<Message>,
                                            content: Option<Content>, calls: seq<Call>, items: seq<Json>,
                                            signer: Keyring, wired: seq<ToolCall>, results: seq<Content>,
                                            turn: seq<InputItem>)
    requires Lawful(lib) && WireCalls(WireIds(lib, items, signer), calls) == Ok(wired) && |results| == |calls|
    requires items != [] ==> Keeps(signer, keyring)
    requires items == [] ==> IdsAreUpstreams(calls)
    requires AllItems(lib, show, keyring, history).Ok? && AssistantItems(lib, keyring, content, wired) == Ok(turn)
    ensures AllItems(lib, show, keyring, history + [Assistant(content, Some(wired))] + ToolResults(wired, results))
            == Ok(AllItems(lib, show, keyring, history).value + turn + Outputs(show, calls, results))
  {
    ResultsArePaired(lib, show, calls, items, signer, keyring, results);
    AssistantIsTranslated(lib, show, keyring, content, Some(wired));
    ThreeParts(Translation(lib, show, keyring), history, Assistant(content, Some(wired)), ToolResults(wired, results));
  }
}
