/**
 * The canonical events of a finished response, cut into any fragments, and what the adapter's machine makes of
 * them: it follows the output item by item.
 */
module ChatCanonical {
  import opened Prelude
  import opened Json
  import Schema = ResponsesSchema
  import opened ChatReplay
  import opened ChatEvents
  import opened ChatStream
  import opened ChatStreamInvariant
  import opened ChatStreamRuns

  // ---- what the client shows ----

  function Shown(token: Token): string {
    match token
    case Open => "<think>"
    case Close => "</think>"
    case Plain(text) => text
  }

  function ShownTokens(tokens: seq<Token>): string {
    if tokens == [] then "" else Shown(tokens[0]) + ShownTokens(tokens[1..])
  }

  /** The content of all chunks, put together. */
  function ContentOf(log: Log): string {
    match log
    case Empty => ""
    case After(before, ContentChunk(tokens)) => ContentOf(before) + ShownTokens(tokens)
    case After(before, _) => ContentOf(before)
  }

  // ---- the canonical events of a response ----

  function Concat(pieces: seq<string>): string {
    if pieces == [] then "" else pieces[0] + Concat(pieces[1..])
  }

  /** The texts of a reasoning item's summary parts. */
  function SummaryTexts(summary: Option<Json>): seq<string> {
    match summary
    case Some(Array(parts)) => seq(|parts|, i requires 0 <= i < |parts| => PartText(parts[i]))
    case _ => []
  }

  function SummaryDeltas(pieces: seq<string>): seq<Event> {
    if pieces == [] then [] else [SummaryDelta(pieces[0])] + SummaryDeltas(pieces[1..])
  }

  function TextDeltas(pieces: seq<string>): seq<Event> {
    if pieces == [] then [] else [TextDelta(pieces[0])] + TextDeltas(pieces[1..])
  }

  function ArgumentDeltas(index: nat, pieces: seq<string>): seq<Event> {
    if pieces == [] then [] else [ArgumentsDelta(index, pieces[0])] + ArgumentDeltas(index, pieces[1..])
  }

  /** Each summary part is streamed in fragments and then closed. */
  function PartEvents(cuts: seq<seq<string>>): seq<Event> {
    if cuts == [] then [] else SummaryDeltas(cuts[0]) + [SummaryDone(Concat(cuts[0]))] + PartEvents(cuts[1..])
  }

  /**
   * How one output item is streamed: the fragments of each of its texts, a reasoning item's first and finished
   * form, and whether a call's arguments are closed before the call is.
   */
  datatype Cut = Cut(pieces: seq<seq<string>>, opening: Json, closing: Json, closed: bool)
  {
    /** What the machine stores of a reasoning item: its finished form, and what only the first form tells. */
    function Merged(): Json { Inherit(Inherit(closing, opening, "encrypted_content"), opening, "summary") }
  }

  function TextParts(parts: seq<Schema.ContentPart>): seq<string> {
    if parts == [] then []
    else (match parts[0] case OutputText(text) => [text] case Refusal(_) => []) + TextParts(parts[1..])
  }

  /** The texts of an item that are streamed: a refusal has events of its own, which the adapter ignores. */
  function StreamedTexts(item: Schema.OutputItem): seq<string> {
    match item
    case Reasoning(_, _, summary, _) => SummaryTexts(summary)
    case Message(_, _, parts) => TextParts(parts)
    case _ => []
  }

  predicate CutsTexts(pieces: seq<seq<string>>, texts: seq<string>) {
    |pieces| == |texts| && forall k :: 0 <= k < |texts| ==> Concat(pieces[k]) == texts[k]
  }

  /**
   * Two reasoning items that read the same: the typed form keeps five fields, and takes a null for an absent one.
   * The JSON an item is sent as may have any others besides.
   */
  predicate SameThought(x: Json, y: Json) {
    && Present(x.Get("type")) == Present(y.Get("type"))
    && Present(x.Get("id")) == Present(y.Get("id"))
    && Present(x.Get("content")) == Present(y.Get("content"))
    && Present(x.Get("summary")) == Present(y.Get("summary"))
    && Present(x.Get("encrypted_content")) == Present(y.Get("encrypted_content"))
  }

  /** Of a call's arguments any beginning may be streamed, also none: the rest comes when they are closed. */
  predicate CutsItem(cut: Cut, item: Schema.OutputItem) {
    && (if item.FunctionCall? then |cut.pieces| == 1 && Concat(cut.pieces[0]) <= item.arguments
        else CutsTexts(cut.pieces, StreamedTexts(item)))
    && (forall v <- ThoughtsOf(item) :: SameThought(cut.Merged(), v))
    && (item.Other? ==> !IsCallLike(item.itemType))
  }

  function ItemEvents(item: Schema.OutputItem, index: nat, cut: Cut): seq<Event>
    requires CutsItem(cut, item)
  {
    match item
    case Reasoning(_, _, _, _) =>
      [ReasoningItem(index, cut.opening, false)] + PartEvents(cut.pieces)
      + [ReasoningItem(index, cut.closing, true)]
    case Message(_, _, _) => [Ignored] + TextDeltas(ConcatAll(cut.pieces)) + [Ignored]
    case FunctionCall(_, callId, name, _, arguments, _) =>
      [CallItem(index, callId, name, "", false)] + ArgumentDeltas(index, cut.pieces[0])
      + Closings(index, callId, name, arguments, cut.closed)
    case Other(_, _) => [Ignored, Ignored]
  }

  function Closings(index: nat, callId: string, name: string, arguments: string, closed: bool): seq<Event> {
    (if closed then [ArgumentsDone(index, arguments)] else []) + [CallItem(index, callId, name, arguments, true)]
  }

  function ConcatAll(pieces: seq<seq<string>>): seq<string> {
    if pieces == [] then [] else pieces[0] + ConcatAll(pieces[1..])
  }

  predicate CutsAll(cuts: seq<Cut>, output: seq<Schema.OutputItem>) {
    |cuts| == |output| && forall i :: 0 <= i < |output| ==> CutsItem(cuts[i], output[i])
  }

  function OutputEvents(output: seq<Schema.OutputItem>, cuts: seq<Cut>): seq<Event>
    requires CutsAll(cuts, output)
  {
    if output == [] then []
    else
      var n := |output| - 1;
      OutputEvents(output[..n], cuts[..n]) + ItemEvents(output[n], n, cuts[n])
  }

  /** What the machine stores of the reasoning of an output. */
  function Kept(output: seq<Schema.OutputItem>, cuts: seq<Cut>): seq<Json>
    requires |cuts| == |output|
  {
    if output == [] then []
    else
      var n := |output| - 1;
      Kept(output[..n], cuts[..n]) + KeptOf(output[n], cuts[n])
  }

  function KeptOf(item: Schema.OutputItem, cut: Cut): seq<Json> { if item.Reasoning? then [cut.Merged()] else [] }

  // ---- applying typed events ----

  type Applier = (State, Event) -> Result<State, StreamError>

  function ApplierOf(cfg: Config): Applier { (s, event) => Apply(cfg, s, event) }

  function ApplyAll(step: Applier, s: State, events: seq<Event>): Result<State, StreamError>
    decreases |events|
  {
    if events == [] then Ok(s)
    else match step(s, events[0])
      case Err(e) => Err(e)
      case Ok(t) => ApplyAll(step, t, events[1..])
  }

  lemma {:induction false} ApplyAllAppend(step: Applier, s: State, a: seq<Event>, b: seq<Event>)
    ensures ApplyAll(step, s, a + b)
            == match ApplyAll(step, s, a) case Err(e) => Err(e) case Ok(t) => ApplyAll(step, t, b)
    decreases |a|
  {
    if a == [] {
      assert a + b == b;
    } else {
      assert (a + b)[1..] == a[1..] + b;
      if step(s, a[0]).Ok? {
        ApplyAllAppend(step, step(s, a[0]).value, a[1..], b);
      }
    }
  }

  lemma {:induction false} ApplyOne(step: Applier, s: State, event: Event)
    ensures ApplyAll(step, s, [event]) == step(s, event)
  {
    if step(s, event).Ok? {
      assert ApplyAll(step, step(s, event).value, [event][1..]) == step(s, event);
    }
  }

  /** A run with one more event behind it. */
  function Behind(step: Applier, r: Result<State, StreamError>, last: Event): Result<State, StreamError> {
    match r
    case Err(e) => Err(e)
    case Ok(t) => step(t, last)
  }

  lemma {:induction false} ApplyLast(step: Applier, s: State, events: seq<Event>, last: Event)
    ensures ApplyAll(step, s, events + [last])
            == Behind(step, ApplyAll(step, s, events), last)
  {
    ApplyAllAppend(step, s, events, [last]);
    if ApplyAll(step, s, events).Ok? {
      ApplyOne(step, ApplyAll(step, s, events).value, last);
    }
  }

  /** What the adapter makes use of: not the events it skips, nor the arguments an unfinished call carries. */
  function HeardOf(event: Event): seq<Event> {
    match event
    case Ignored => []
    case CallItem(index, callId, name, arguments, done) =>
      [CallItem(index, callId, name, if done then arguments else "", done)]
    case _ => [event]
  }

  function Heard(events: seq<Event>): seq<Event> {
    if events == [] then [] else HeardOf(events[0]) + Heard(events[1..])
  }

  /** Events that are heard alike are answered alike. */
  lemma {:induction false} HeardIsEnough(cfg: Config, s: State, events: seq<Event>)
    ensures ApplyAll(ApplierOf(cfg), s, events) == ApplyAll(ApplierOf(cfg), s, Heard(events))
    decreases |events|
  {
    if events != [] {
      var step, part, rest := ApplierOf(cfg), HeardOf(events[0]), Heard(events[1..]);
      var next := step(s, events[0]);
      HeardAlike(cfg, s, events[0]);
      ApplyAllAppend(step, s, part, rest);
      if next.Ok? {
        HeardIsEnough(cfg, next.value, events[1..]);
      }
    }
  }

  lemma {:induction false} HeardAppend(a: seq<Event>, b: seq<Event>)
    ensures Heard(a + b) == Heard(a) + Heard(b)
  {
    if a == [] {
      assert a + b == b;
    } else {
      assert (a + b)[1..] == a[1..] + b;
      HeardAppend(a[1..], b);
    }
  }

  lemma {:induction false} HeardAlike(cfg: Config, s: State, event: Event)
    ensures ApplyAll(ApplierOf(cfg), s, HeardOf(event)) == ApplierOf(cfg)(s, event)
  {
    if !event.Ignored? {
      ApplyOne(ApplierOf(cfg), s, HeardOf(event)[0]);
      assert HeardOf(event) == [HeardOf(event)[0]];
    }
  }

  lemma {:induction false} ApplyAllKeeps(cfg: Config, s: State, events: seq<Event>)
    requires Inv(cfg, s) && ApplyAll(ApplierOf(cfg), s, events).Ok?
    ensures Inv(cfg, ApplyAll(ApplierOf(cfg), s, events).value)
    decreases |events|
  {
    if events != [] {
      ApplyKeeps(cfg, s, events[0]);
      ApplyAllKeeps(cfg, ApplierOf(cfg)(s, events[0]).value, events[1..]);
    }
  }

  // ---- summaries and text ----

  /** Only content is sent, and only the fields that go with it change. */
  predicate Talks(s: State, t: State, shown: string) {
    && t == s.(log := t.log, summary := t.summary, summaryStreamed := t.summaryStreamed, thinkOpen := t.thinkOpen)
    && ContentOf(t.log) == ContentOf(s.log) + shown
  }

  lemma {:induction false} ShowTokens(text: string)
    ensures ShownTokens([Close]) == "</think>"
    ensures ShownTokens([Plain(text)]) == text
    ensures ShownTokens([Open, Plain(text)]) == "<think>" + text
  {
    assert ShownTokens([Close]) == Shown(Close) + ShownTokens([Close][1..]);
    assert ShownTokens([Plain(text)]) == Shown(Plain(text)) + ShownTokens([Plain(text)][1..]);
    assert [Open, Plain(text)][1..] == [Plain(text)];
  }

  lemma {:induction false} TalksOn(s: State, t: State, u: State, x: string, y: string)
    requires Talks(s, t, x) && Talks(t, u, y)
    ensures Talks(s, u, x + y)
  {
    assert ContentOf(s.log) + x + y == ContentOf(s.log) + (x + y);
  }

  /** How a piece of a summary shows, with the tag it may open. */
  function Opened(open: bool, text: string): string { if open || text == "" then text else "<think>" + text }

  lemma {:induction false} SummaryDeltaShows(s: State, delta: string)
    ensures var t := OnSummaryDelta(s, delta);
            && Talks(s, t, Opened(s.thinkOpen, delta))
            && (t.thinkOpen <==> s.thinkOpen || delta != "")
            && (t.summaryStreamed <==> s.summaryStreamed || delta != "")
  {
    ShowTokens(delta);
  }

  lemma {:induction false} OpenedOn(open: bool, text: string, more: string)
    ensures Opened(open, text) + Opened(open || text != "", more) == Opened(open, text + more)
  {
  }

  lemma {:induction false} ApplyFirst(step: Applier, s: State, event: Event, rest: seq<Event>, u: State)
    requires step(s, event) == Ok(u)
    ensures ApplyAll(step, s, [event] + rest) == ApplyAll(step, u, rest)
  {
    assert ([event] + rest)[1..] == rest;
  }

  lemma {:induction false} SummaryDeltasShow(cfg: Config, s: State, pieces: seq<string>)
    ensures ApplyAll(ApplierOf(cfg), s, SummaryDeltas(pieces)).Ok?
    ensures var t, text := ApplyAll(ApplierOf(cfg), s, SummaryDeltas(pieces)).value, Concat(pieces);
            && Talks(s, t, Opened(s.thinkOpen, text))
            && (t.thinkOpen <==> s.thinkOpen || text != "")
            && (t.summaryStreamed <==> s.summaryStreamed || text != "")
    decreases |pieces|
  {
    if pieces != [] {
      var u := OnSummaryDelta(s, pieces[0]);
      var text, more, rest := pieces[0], Concat(pieces[1..]), SummaryDeltas(pieces[1..]);
      SummaryDeltaShows(s, text);
      SummaryDeltasShow(cfg, u, pieces[1..]);
      ApplyFirst(ApplierOf(cfg), s, SummaryDelta(text), rest, u);
      var t := ApplyAll(ApplierOf(cfg), u, rest).value;
      TalksOn(s, u, t, Opened(s.thinkOpen, text), Opened(u.thinkOpen, more));
      OpenedOn(s.thinkOpen, text, more);
    }
  }

  /** A summary part as the client sees it. */
  function ThinkBlock(text: string): string { if text == "" then "" else "<think>" + text + "</think>" }

  lemma {:induction false} SummaryPartShows(cfg: Config, s: State, pieces: seq<string>)
    requires !s.thinkOpen
    ensures ApplyAll(ApplierOf(cfg), s, SummaryDeltas(pieces) + [SummaryDone(Concat(pieces))]).Ok?
    ensures var t := ApplyAll(ApplierOf(cfg), s, SummaryDeltas(pieces) + [SummaryDone(Concat(pieces))]).value;
            && Talks(s, t, ThinkBlock(Concat(pieces)))
            && !t.thinkOpen
            && (t.summaryStreamed <==> s.summaryStreamed || Concat(pieces) != "")
  {
    var text := Concat(pieces);
    SummaryDeltasShow(cfg, s, pieces);
    var u := ApplyAll(ApplierOf(cfg), s, SummaryDeltas(pieces)).value;
    ApplyAllAppend(ApplierOf(cfg), s, SummaryDeltas(pieces), [SummaryDone(text)]);
    ApplyOne(ApplierOf(cfg), u, SummaryDone(text));
    var t := OnSummaryDone(u, text);
    ShowTokens("");
    assert Talks(u, t, if u.thinkOpen then "</think>" else "");
    TalksOn(s, u, t, Opened(false, text), if u.thinkOpen then "</think>" else "");
  }

  function ThinkBlocks(texts: seq<string>): string {
    if texts == [] then "" else ThinkBlock(texts[0]) + ThinkBlocks(texts[1..])
  }

  lemma {:induction false} PartEventsShow(cfg: Config, s: State, cuts: seq<seq<string>>, texts: seq<string>)
    requires !s.thinkOpen && CutsTexts(cuts, texts)
    ensures ApplyAll(ApplierOf(cfg), s, PartEvents(cuts)).Ok?
    ensures var t := ApplyAll(ApplierOf(cfg), s, PartEvents(cuts)).value;
            && Talks(s, t, ThinkBlocks(texts))
            && !t.thinkOpen
            && (t.summaryStreamed <==> s.summaryStreamed || Concat(texts) != "")
    decreases |cuts|
  {
    if cuts != [] {
      var first := SummaryDeltas(cuts[0]) + [SummaryDone(Concat(cuts[0]))];
      SummaryPartShows(cfg, s, cuts[0]);
      var u := ApplyAll(ApplierOf(cfg), s, first).value;
      ApplyAllAppend(ApplierOf(cfg), s, first, PartEvents(cuts[1..]));
      assert CutsTexts(cuts[1..], texts[1..]);
      PartEventsShow(cfg, u, cuts[1..], texts[1..]);
      var t := ApplyAll(ApplierOf(cfg), u, PartEvents(cuts[1..])).value;
      TalksOn(s, u, t, ThinkBlock(texts[0]), ThinkBlocks(texts[1..]));
      assert PartEvents(cuts) == first + PartEvents(cuts[1..]);
    } else {
      assert ContentOf(s.log) + "" == ContentOf(s.log);
    }
  }

  lemma {:induction false} TextDeltaShows(s: State, delta: string)
    requires !s.thinkOpen
    ensures var t := OnTextDelta(s, delta);
            t == s.(log := t.log) && ContentOf(t.log) == ContentOf(s.log) + delta
  {
    ShowTokens(delta);
  }

  lemma {:induction false} TextDeltasShow(cfg: Config, s: State, pieces: seq<string>)
    requires !s.thinkOpen
    ensures ApplyAll(ApplierOf(cfg), s, TextDeltas(pieces)).Ok?
    ensures var t := ApplyAll(ApplierOf(cfg), s, TextDeltas(pieces)).value;
            t == s.(log := t.log) && ContentOf(t.log) == ContentOf(s.log) + Concat(pieces)
    decreases |pieces|
  {
    if pieces != [] {
      var u := OnTextDelta(s, pieces[0]);
      var text, more, rest := pieces[0], Concat(pieces[1..]), TextDeltas(pieces[1..]);
      TextDeltaShows(s, text);
      TextDeltasShow(cfg, u, pieces[1..]);
      ApplyFirst(ApplierOf(cfg), s, TextDelta(text), rest, u);
      assert ContentOf(s.log) + text + more == ContentOf(s.log) + (text + more);
    }
  }

  lemma {:induction false} NothingAdded(s: State, index: nat)
    requires index in s.toolArguments
    ensures s.toolArguments[index := Accumulated(s, index) + ""] == s.toolArguments
  {
    assert Accumulated(s, index) + "" == Accumulated(s, index) == s.toolArguments[index];
  }

  lemma {:induction false} ArgumentDeltaAdds(s: State, index: nat, delta: string)
    requires index in s.toolIndices && index in s.toolArguments
    ensures AppendArguments(s, index, delta).Ok?
    ensures var t := AppendArguments(s, index, delta).value;
            && t == s.(log := t.log, toolArguments := s.toolArguments[index := Accumulated(s, index) + delta])
            && ContentOf(t.log) == ContentOf(s.log)
  {
    if delta == "" {
      NothingAdded(s, index);
    }
  }

  /** The first delta, then the others. */
  lemma {:induction false} ArgumentDeltasSplit(step: Applier, s: State, u: State, index: nat, pieces: seq<string>)
    requires pieces != [] && step(s, ArgumentsDelta(index, pieces[0])) == Ok(u)
    ensures ApplyAll(step, s, ArgumentDeltas(index, pieces)) == ApplyAll(step, u, ArgumentDeltas(index, pieces[1..]))
  {
    assert ArgumentDeltas(index, pieces)[0] == ArgumentsDelta(index, pieces[0]);
    assert ArgumentDeltas(index, pieces)[1..] == ArgumentDeltas(index, pieces[1..]);
  }

  /** Only `text` has been added to the arguments under `index`; nothing was shown. */
  predicate AddedArguments(s: State, t: State, index: nat, text: string) {
    && t == s.(log := t.log, toolArguments := s.toolArguments[index := Accumulated(s, index) + text])
    && ContentOf(t.log) == ContentOf(s.log)
  }

  lemma {:induction false} AddedTwice(s: State, u: State, t: State, index: nat, a: string, b: string)
    requires AddedArguments(s, u, index, a) && AddedArguments(u, t, index, b)
    ensures AddedArguments(s, t, index, a + b)
  {
    assert Accumulated(s, index) + a + b == Accumulated(s, index) + (a + b);
  }

  lemma {:induction false} ArgumentDeltasAdd(cfg: Config, s: State, index: nat, pieces: seq<string>)
    requires index in s.toolIndices && index in s.toolArguments
    ensures ApplyAll(ApplierOf(cfg), s, ArgumentDeltas(index, pieces)).Ok?
    ensures AddedArguments(s, ApplyAll(ApplierOf(cfg), s, ArgumentDeltas(index, pieces)).value, index, Concat(pieces))
    decreases |pieces|
  {
    if pieces == [] {
      NothingAdded(s, index);
    } else {
      ArgumentDeltaAdds(s, index, pieces[0]);
      var u := AppendArguments(s, index, pieces[0]).value;
      ArgumentDeltasSplit(ApplierOf(cfg), s, u, index, pieces);
      ArgumentDeltasAdd(cfg, u, index, pieces[1..]);
      var t := ApplyAll(ApplierOf(cfg), u, ArgumentDeltas(index, pieces[1..])).value;
      AddedTwice(s, u, t, index, pieces[0], Concat(pieces[1..]));
    }
  }

  // ---- one output item ----

  /** An item as the client sees it streamed: each summary part as a block of its own, and its text. */
  function StreamedItem(item: Schema.OutputItem): string {
    match item
    case Reasoning(_, _, summary, _) => ThinkBlocks(SummaryTexts(summary))
    case Message(_, _, parts) => Concat(TextParts(parts))
    case _ => ""
  }

  function Streamed(output: seq<Schema.OutputItem>): string { FlatMap(StreamedItem, output) }

  /** The announced calls with the arguments accumulated so far. */
  function MadeBy(s: State): seq<Call> {
    seq(|s.announced|, k requires 0 <= k < |s.announced| =>
      Call(s.announced[k].callId, s.announced[k].name, Accumulated(s, s.announced[k].outputIndex)))
  }

  predicate Below(entries: seq<Entry>, n: nat) { forall e <- entries :: e.index < n }

  /** The machine's state is that of just these output items streamed. */
  predicate Follows(s: State, before: seq<Schema.OutputItem>, kept: seq<Json>) {
    && !s.thinkOpen && !s.terminalSeen
    && Items(s.reasoning) == kept && Below(s.reasoning, |before|)
    && MadeBy(s) == Calls(before) && (forall a <- s.announced :: a.outputIndex < |before|)
    && ContentOf(s.log) == Streamed(before)
  }

  ghost predicate At(cfg: Config, s: State, before: seq<Schema.OutputItem>, kept: seq<Json>) {
    Inv(cfg, s) && Follows(s, before, kept)
  }

  /** What the next item must meet, with the reasoning kept so far. */
  predicate Admissible(mint: Minter, before: seq<Schema.OutputItem>, kept: seq<Json>, item: Schema.OutputItem) {
    match item
    case Reasoning(_, _, _, _) => Calls(before) == []
    case FunctionCall(_, callId, _, _, _, _) => mint(callId, kept).Ok?
    case _ => true
  }

  lemma {:induction false} OutputStep(before: seq<Schema.OutputItem>, item: Schema.OutputItem)
    ensures Calls(before + [item]) == Calls(before) + CallsOf(item)
    ensures Streamed(before + [item]) == Streamed(before) + StreamedItem(item)
    ensures CallsOf(item) == [] ==> Calls(before + [item]) == Calls(before)
  {
    FlatMapOne(CallsOf, before, item);
    FlatMapOne(StreamedItem, before, item);
  }

  /** Moving on to the next item when the tools and the reasoning are as they were. */
  lemma {:induction false} FollowsNext(s: State, t: State, before: seq<Schema.OutputItem>, kept: seq<Json>,
                                       item: Schema.OutputItem)
    requires Follows(s, before, kept) && Talks(s, t, StreamedItem(item)) && !t.thinkOpen
    requires CallsOf(item) == []
    ensures Follows(t, before + [item], kept)
  {
    OutputStep(before, item);
    assert MadeBy(t) == MadeBy(s);
  }

  lemma {:induction false} ConcatOfAll(pieces: seq<seq<string>>, texts: seq<string>)
    requires CutsTexts(pieces, texts)
    ensures Concat(ConcatAll(pieces)) == Concat(texts)
  {
    if pieces != [] {
      assert CutsTexts(pieces[1..], texts[1..]);
      ConcatOfAll(pieces[1..], texts[1..]);
      ConcatAppend(pieces[0], ConcatAll(pieces[1..]));
    }
  }

  lemma {:induction false} ConcatAppend(a: seq<string>, b: seq<string>)
    ensures Concat(a + b) == Concat(a) + Concat(b)
  {
    if a == [] {
      assert a + b == b;
    } else {
      assert (a + b)[1..] == a[1..] + b;
      ConcatAppend(a[1..], b);
    }
  }

  predicate Runs(cfg: Config, s: State, events: seq<Event>, t: State) { ApplyAll(ApplierOf(cfg), s, events) == Ok(t) }

  lemma {:induction false} RunsOn(cfg: Config, s: State, a: seq<Event>, t: State, b: seq<Event>, u: State)
    requires Runs(cfg, s, a, t) && Runs(cfg, t, b, u)
    ensures Runs(cfg, s, a + b, u)
  {
    ApplyAllAppend(ApplierOf(cfg), s, a, b);
  }

  lemma {:induction false} RunsOne(cfg: Config, s: State, event: Event)
    ensures Apply(cfg, s, event).Ok? ==> Runs(cfg, s, [event], Apply(cfg, s, event).value)
    ensures Apply(cfg, s, event).Err? ==> ApplyAll(ApplierOf(cfg), s, [event]).Err?
  {
    ApplyOne(ApplierOf(cfg), s, event);
  }

  lemma {:induction false} RunsKeeps(cfg: Config, s: State, events: seq<Event>, t: State)
    requires Inv(cfg, s) && Runs(cfg, s, events, t)
    ensures Inv(cfg, t)
  {
    ApplyAllKeeps(cfg, s, events);
  }

  lemma {:induction false} MessageRuns(cfg: Config, s: State, item: Schema.OutputItem, index: nat, cut: Cut)
    returns (t: State)
    requires item.Message? && CutsItem(cut, item) && !s.thinkOpen
    ensures Runs(cfg, s, ItemEvents(item, index, cut), t)
    ensures Talks(s, t, StreamedItem(item)) && !t.thinkOpen
  {
    var deltas := TextDeltas(ConcatAll(cut.pieces));
    ConcatOfAll(cut.pieces, TextParts(item.parts));
    TextDeltasShow(cfg, s, ConcatAll(cut.pieces));
    t := ApplyAll(ApplierOf(cfg), s, deltas).value;
    RunsOne(cfg, s, Ignored);
    RunsOn(cfg, s, [Ignored], s, deltas, t);
    RunsOne(cfg, t, Ignored);
    RunsOn(cfg, s, [Ignored] + deltas, t, [Ignored], t);
  }

  lemma {:induction false} MessageStep(cfg: Config, s: State, before: seq<Schema.OutputItem>, kept: seq<Json>,
                                       item: Schema.OutputItem, cut: Cut)
    returns (t: State)
    requires At(cfg, s, before, kept) && item.Message? && CutsItem(cut, item)
    ensures Runs(cfg, s, ItemEvents(item, |before|, cut), t) && At(cfg, t, before + [item], kept)
  {
    t := MessageRuns(cfg, s, item, |before|, cut);
    RunsKeeps(cfg, s, ItemEvents(item, |before|, cut), t);
    FollowsNext(s, t, before, kept, item);
  }

  lemma {:induction false} OtherRuns(cfg: Config, s: State)
    ensures Runs(cfg, s, [Ignored, Ignored], s) && Talks(s, s, "")
  {
    assert [Ignored, Ignored] == [Ignored] + [Ignored];
    RunsOne(cfg, s, Ignored);
    RunsOn(cfg, s, [Ignored], s, [Ignored], s);
    assert ContentOf(s.log) + "" == ContentOf(s.log);
  }

  lemma {:induction false} OtherStep(cfg: Config, s: State, before: seq<Schema.OutputItem>, kept: seq<Json>,
                                     item: Schema.OutputItem)
    requires At(cfg, s, before, kept) && item.Other?
    ensures Runs(cfg, s, [Ignored, Ignored], s) && At(cfg, s, before + [item], kept)
  {
    OtherRuns(cfg, s);
    FollowsNext(s, s, before, kept, item);
  }

  // ---- a reasoning item ----

  lemma {:induction false} InsertAtEnd(entries: seq<Entry>, n: nat, item: Json)
    requires Below(entries, n)
    ensures Insert(entries, n, item) == entries + [Entry(n, item)] && Lookup(entries, n).None?
  {
    if entries != [] {
      assert Below(entries[1..], n);
      InsertAtEnd(entries[1..], n, item);
    }
  }

  lemma {:induction false} InsertOverLast(entries: seq<Entry>, n: nat, x: Json, y: Json)
    requires Below(entries, n)
    ensures Insert(entries + [Entry(n, x)], n, y) == entries + [Entry(n, y)]
    ensures Lookup(entries + [Entry(n, x)], n) == Some(x)
  {
    if entries == [] {
      assert [] + [Entry(n, x)] == [Entry(n, x)];
    } else {
      assert Below(entries[1..], n) && entries[0].index < n;
      InsertOverLast(entries[1..], n, x, y);
      assert (entries + [Entry(n, x)])[1..] == entries[1..] + [Entry(n, x)];
    }
  }

  lemma {:induction false} ItemsAppend(entries: seq<Entry>, e: Entry)
    ensures Items(entries + [e]) == Items(entries) + [e.item]
  {
    if entries != [] {
      assert (entries + [e])[1..] == entries[1..] + [e];
      ItemsAppend(entries[1..], e);
    }
  }

  /** Items that read the same have the same summary, and the finished form shows that or none. */
  lemma {:induction false} SameThoughtSummary(cut: Cut, y: Json)
    requires SameThought(cut.Merged(), y)
    ensures ItemSummary(cut.Merged()) == ItemSummary(y)
    ensures ItemSummary(cut.closing) == "" || ItemSummary(cut.closing) == ItemSummary(y)
  {
    assert cut.closing.Get("summary").Some? ==> cut.Merged().Get("summary") == cut.closing.Get("summary");
  }

  lemma {:induction false} PartTextsConcat(parts: seq<Json>)
    ensures FlatMap(PartText, parts) == Concat(SummaryTexts(Some(Array(parts))))
  {
    var texts := SummaryTexts(Some(Array(parts)));
    if parts != [] {
      var n := |parts| - 1;
      PartTextsConcat(parts[..n]);
      assert texts == SummaryTexts(Some(Array(parts[..n]))) + [PartText(parts[n])];
      ConcatAppend(SummaryTexts(Some(Array(parts[..n]))), [PartText(parts[n])]);
      assert Concat([PartText(parts[n])]) == PartText(parts[n]) + Concat([PartText(parts[n])][1..]);
    }
  }

  lemma {:induction false} SummaryIsTexts(id: string, content: Option<Json>, summary: Option<Json>,
                                          encrypted: Option<string>)
    ensures ItemSummary(ToValue(id, content, summary, encrypted)) == Concat(SummaryTexts(summary))
  {
    ToValueFields(id, content, summary, encrypted);
    if summary.Some? && summary.value.Array? {
      PartTextsConcat(summary.value.items);
    }
  }

  lemma {:induction false} OpeningRuns(cfg: Config, s: State, n: nat, opening: Json) returns (t: State)
    requires !s.toolCallsSeen && Below(s.reasoning, n)
    ensures t == s.(reasoning := s.reasoning + [Entry(n, opening)])
    ensures Runs(cfg, s, [ReasoningItem(n, opening, false)], t)
  {
    InsertAtEnd(s.reasoning, n, opening);
    t := s.(reasoning := s.reasoning + [Entry(n, opening)]);
    RunsOne(cfg, s, ReasoningItem(n, opening, false));
  }

  lemma {:induction false} ClosingRuns(cfg: Config, s: State, entries: seq<Entry>, n: nat, cut: Cut)
    returns (t: State)
    requires !s.toolCallsSeen && Below(entries, n) && s.reasoning == entries + [Entry(n, cut.opening)]
    requires ItemSummary(cut.closing) == "" || s.summaryStreamed
    ensures t == s.(reasoning := entries + [Entry(n, cut.Merged())])
    ensures Runs(cfg, s, [ReasoningItem(n, cut.closing, true)], t)
  {
    InsertOverLast(entries, n, cut.opening, cut.Merged());
    t := s.(reasoning := entries + [Entry(n, cut.Merged())]);
    RunsOne(cfg, s, ReasoningItem(n, cut.closing, true));
  }

  lemma {:induction false} ReasoningRuns(cfg: Config, s: State, item: Schema.OutputItem, n: nat, cut: Cut)
    returns (t: State)
    requires item.Reasoning? && CutsItem(cut, item) && !s.thinkOpen && !s.toolCallsSeen && Below(s.reasoning, n)
    ensures Runs(cfg, s, ItemEvents(item, n, cut), t)
    ensures Talks(s.(reasoning := s.reasoning + [Entry(n, cut.Merged())]), t, StreamedItem(item)) && !t.thinkOpen
  {
    var v := ToValue(item.id, item.content, item.summary, item.encryptedContent);
    var first, last := ReasoningItem(n, cut.opening, false), ReasoningItem(n, cut.closing, true);
    assert v in ThoughtsOf(item);
    SameThoughtSummary(cut, v);
    SummaryIsTexts(item.id, item.content, item.summary, item.encryptedContent);
    var begun := OpeningRuns(cfg, s, n, cut.opening);
    PartEventsShow(cfg, begun, cut.pieces, SummaryTexts(item.summary));
    var told := ApplyAll(ApplierOf(cfg), begun, PartEvents(cut.pieces)).value;
    t := ClosingRuns(cfg, told, s.reasoning, n, cut);
    RunsOn(cfg, s, [first], begun, PartEvents(cut.pieces), told);
    RunsOn(cfg, s, [first] + PartEvents(cut.pieces), told, [last], t);
  }

  lemma {:induction false} FollowsThought(s: State, t: State, before: seq<Schema.OutputItem>, kept: seq<Json>,
                                          item: Schema.OutputItem, v: Json)
    requires Follows(s, before, kept) && !t.thinkOpen && CallsOf(item) == []
    requires Talks(s.(reasoning := s.reasoning + [Entry(|before|, v)]), t, StreamedItem(item))
    ensures Follows(t, before + [item], kept + [v])
  {
    OutputStep(before, item);
    ItemsAppend(s.reasoning, Entry(|before|, v));
    assert MadeBy(t) == MadeBy(s);
  }

  lemma {:induction false} ReasoningStep(cfg: Config, s: State, before: seq<Schema.OutputItem>, kept: seq<Json>,
                                         item: Schema.OutputItem, cut: Cut)
    returns (t: State)
    requires At(cfg, s, before, kept) && item.Reasoning? && CutsItem(cut, item) && Calls(before) == []
    ensures Runs(cfg, s, ItemEvents(item, |before|, cut), t) && At(cfg, t, before + [item], kept + [cut.Merged()])
  {
    assert |MadeBy(s)| == 0;
    t := ReasoningRuns(cfg, s, item, |before|, cut);
    RunsKeeps(cfg, s, ItemEvents(item, |before|, cut), t);
    FollowsThought(s, t, before, kept, item, cut.Merged());
  }

  // ---- a call ----

  lemma {:induction false} CallRuns(cfg: Config, s: State, call: Announcement, arguments: string,
                                    pieces: seq<string>, closed: bool, id: string)
    returns (t: State)
    requires !s.thinkOpen && call.outputIndex !in s.toolIndices && call.outputIndex !in s.toolArguments
    requires Concat(pieces) <= arguments && cfg.mint(call.callId, Items(s.reasoning)) == Ok(id)
    ensures Runs(cfg, s, [CallItem(call.outputIndex, call.callId, call.name, "", false)]
                         + ArgumentDeltas(call.outputIndex, pieces)
                         + Closings(call.outputIndex, call.callId, call.name, arguments, closed), t)
    ensures var u := Announced(s, call, id);
            && t == u.(log := t.log, toolArguments := s.toolArguments[call.outputIndex := arguments])
            && ContentOf(t.log) == ContentOf(s.log)
  {
    var n, u := call.outputIndex, Announced(s, call, id);
    var first := CallItem(n, call.callId, call.name, "", false);
    RunsOne(cfg, s, first);
    ArgumentDeltasAdd(cfg, u, n, pieces);
    var v := ApplyAll(ApplierOf(cfg), u, ArgumentDeltas(n, pieces)).value;
    assert Accumulated(u, n) + Concat(pieces) == Concat(pieces);
    assert v.toolArguments == s.toolArguments[n := Concat(pieces)];
    RunsOn(cfg, s, [first], u, ArgumentDeltas(n, pieces), v);
    t := ClosingsRun(cfg, v, call, arguments, closed);
    RunsOn(cfg, s, [first] + ArgumentDeltas(n, pieces), v, Closings(n, call.callId, call.name, arguments, closed), t);
    assert t.toolArguments == s.toolArguments[n := arguments];
  }

  /** The arguments are completed, and nothing is shown. */
  predicate Completed(s: State, t: State, index: nat, arguments: string) {
    && t == s.(log := t.log, toolArguments := s.toolArguments[index := arguments])
    && ContentOf(t.log) == ContentOf(s.log)
  }

  /** Completing sends what is still missing. */
  lemma {:induction false} CompletionAdds(s: State, index: nat, arguments: string) returns (t: State)
    requires index in s.toolIndices && index in s.toolArguments && Accumulated(s, index) <= arguments
    ensures CompleteArguments(s, index, arguments) == Ok(t) && Completed(s, t, index, arguments)
  {
    var sent := Accumulated(s, index);
    if arguments == sent {
      t := s;
      assert s.toolArguments[index := arguments] == s.toolArguments;
    } else {
      var suffix := arguments[|sent|..];
      ArgumentDeltaAdds(s, index, suffix);
      t := AppendArguments(s, index, suffix).value;
      assert sent + suffix == arguments;
    }
  }

  lemma {:induction false} ClosingsRun(cfg: Config, s: State, call: Announcement, arguments: string, closed: bool)
    returns (t: State)
    requires !s.thinkOpen && call.outputIndex in s.toolIndices && call.outputIndex in s.toolArguments
    requires Accumulated(s, call.outputIndex) <= arguments
    ensures Runs(cfg, s, Closings(call.outputIndex, call.callId, call.name, arguments, closed), t)
    ensures Completed(s, t, call.outputIndex, arguments)
  {
    var n := call.outputIndex;
    var done, last := ArgumentsDone(n, arguments), CallItem(n, call.callId, call.name, arguments, true);
    t := CompletionAdds(s, n, arguments);
    if closed {
      RunsOne(cfg, s, done);
      RunsOne(cfg, t, last);
      RunsOn(cfg, s, [done], t, [last], t);
    } else {
      RunsOne(cfg, s, last);
      assert [] + [last] == [last];
    }
  }

  /** The call announced last stands behind the others. */
  lemma {:induction false} MadeByOneMore(s: State, t: State, call: Announcement, arguments: string)
    requires t.announced == s.announced + [call]
    requires t.toolArguments == s.toolArguments[call.outputIndex := arguments]
    requires forall a <- s.announced :: a.outputIndex < call.outputIndex
    ensures MadeBy(t) == MadeBy(s) + [Call(call.callId, call.name, arguments)]
  {
    forall k | 0 <= k < |s.announced| ensures MadeBy(t)[k] == MadeBy(s)[k] {
      assert s.announced[k] in s.announced;
    }
  }

  lemma {:induction false} FollowsCall(s: State, t: State, before: seq<Schema.OutputItem>, kept: seq<Json>,
                                       item: Schema.OutputItem, id: string)
    requires Follows(s, before, kept) && item.FunctionCall?
    requires t == Announced(s, Announcement(|before|, item.callId, item.name), id)
                  .(log := t.log, toolArguments := s.toolArguments[|before| := item.arguments])
    requires ContentOf(t.log) == ContentOf(s.log)
    ensures Follows(t, before + [item], kept)
  {
    OutputStep(before, item);
    assert Streamed(before) + "" == Streamed(before);
    MadeByOneMore(s, t, Announcement(|before|, item.callId, item.name), item.arguments);
  }

  lemma {:induction false} CallStep(cfg: Config, s: State, before: seq<Schema.OutputItem>, kept: seq<Json>,
                                    item: Schema.OutputItem, cut: Cut)
    returns (t: State)
    requires At(cfg, s, before, kept) && item.FunctionCall? && CutsItem(cut, item)
    requires cfg.mint(item.callId, kept).Ok?
    ensures Runs(cfg, s, ItemEvents(item, |before|, cut), t) && At(cfg, t, before + [item], kept)
  {
    IndexIsNew(s, |before|);
    var id, call := cfg.mint(item.callId, kept).value, Announcement(|before|, item.callId, item.name);
    t := CallRuns(cfg, s, call, item.arguments, cut.pieces[0], cut.closed, id);
    RunsKeeps(cfg, s, ItemEvents(item, |before|, cut), t);
    FollowsCall(s, t, before, kept, item, id);
  }

  lemma {:induction false} IndexIsNew(s: State, n: nat)
    requires Numbered(s) && forall a <- s.announced :: a.outputIndex < n
    ensures n !in s.toolIndices
  {
  }

  // ---- the whole output ----

  /** One item: the machine accepts its events exactly when it is admissible, and then has followed it. */
  lemma {:induction false} ItemStep(cfg: Config, s: State, before: seq<Schema.OutputItem>, kept: seq<Json>,
                                    item: Schema.OutputItem, cut: Cut)
    requires At(cfg, s, before, kept) && CutsItem(cut, item)
    ensures var r := ApplyAll(ApplierOf(cfg), s, ItemEvents(item, |before|, cut));
            && (r.Ok? <==> Admissible(cfg.mint, before, kept, item))
            && (r.Ok? ==> At(cfg, r.value, before + [item], kept + KeptOf(item, cut)))
  {
    assert !item.Reasoning? ==> kept + KeptOf(item, cut) == kept;
    match item
    case Message(_, _, _) =>
      var t := MessageStep(cfg, s, before, kept, item, cut);
    case Other(_, _) =>
      OtherStep(cfg, s, before, kept, item);
    case Reasoning(_, _, _, _) =>
      if Calls(before) == [] {
        var t := ReasoningStep(cfg, s, before, kept, item, cut);
      } else {
        CallsAreSeen(s, before);
        ThoughtIsRefused(cfg, s, |before|, item, cut);
      }
    case FunctionCall(_, callId, name, _, arguments, _) =>
      if cfg.mint(callId, kept).Ok? {
        var t := CallStep(cfg, s, before, kept, item, cut);
      } else {
        IndexIsNew(s, |before|);
        CallIsRefused(cfg, s, |before|, item, cut);
      }
  }

  lemma {:induction false} FirstIsRefused(cfg: Config, s: State, event: Event, rest: seq<Event>)
    requires Apply(cfg, s, event).Err?
    ensures ApplyAll(ApplierOf(cfg), s, [event] + rest).Err?
  {
  }

  lemma {:induction false} CallsAreSeen(s: State, before: seq<Schema.OutputItem>)
    requires Numbered(s) && MadeBy(s) == Calls(before) && Calls(before) != []
    ensures s.toolCallsSeen
  {
    assert |MadeBy(s)| > 0;
  }

  lemma {:induction false} ThoughtIsRefused(cfg: Config, s: State, n: nat, item: Schema.OutputItem, cut: Cut)
    requires item.Reasoning? && CutsItem(cut, item) && s.toolCallsSeen
    ensures ApplyAll(ApplierOf(cfg), s, ItemEvents(item, n, cut)).Err?
  {
    var first := ReasoningItem(n, cut.opening, false);
    var rest := PartEvents(cut.pieces) + [ReasoningItem(n, cut.closing, true)];
    assert ItemEvents(item, n, cut) == [first] + rest;
    FirstIsRefused(cfg, s, first, rest);
  }

  lemma {:induction false} CallIsRefused(cfg: Config, s: State, n: nat, item: Schema.OutputItem, cut: Cut)
    requires item.FunctionCall? && CutsItem(cut, item) && !s.thinkOpen && n !in s.toolIndices
    requires cfg.mint(item.callId, Items(s.reasoning)).Err?
    ensures ApplyAll(ApplierOf(cfg), s, ItemEvents(item, n, cut)).Err?
  {
    var first := CallItem(n, item.callId, item.name, "", false);
    var rest := ArgumentDeltas(n, cut.pieces[0])
                + Closings(n, item.callId, item.name, item.arguments, cut.closed);
    assert ItemEvents(item, n, cut) == [first] + rest;
    FirstIsRefused(cfg, s, first, rest);
  }

  predicate AllAdmissible(mint: Minter, output: seq<Schema.OutputItem>, cuts: seq<Cut>)
    requires |cuts| == |output|
  {
    output != [] ==>
      var n := |output| - 1;
      && AllAdmissible(mint, output[..n], cuts[..n])
      && Admissible(mint, output[..n], Kept(output[..n], cuts[..n]), output[n])
  }

  /** A property of states that one output item's events establish from the one before. */
  type Stage = (State, seq<Schema.OutputItem>, seq<Json>) -> bool

  predicate Advances(step: Applier, mint: Minter, stage: Stage, t: State, before: seq<Schema.OutputItem>,
                     kept: seq<Json>, item: Schema.OutputItem, cut: Cut, events: seq<Event>)
  {
    var r := ApplyAll(step, t, events);
    && (r.Ok? <==> Admissible(mint, before, kept, item))
    && (r.Ok? ==> stage(r.value, before + [item], kept + KeptOf(item, cut)))
  }

  lemma {:induction false} AdvanceOnce(step: Applier, mint: Minter, stage: Stage, s: State, done: seq<Event>,
                                       t: State, before: seq<Schema.OutputItem>, kept: seq<Json>,
                                       item: Schema.OutputItem, cut: Cut, events: seq<Event>)
    requires ApplyAll(step, s, done) == Ok(t) && Advances(step, mint, stage, t, before, kept, item, cut, events)
    ensures Advances(step, mint, stage, s, before, kept, item, cut, done + events)
  {
    ApplyAllAppend(step, s, done, events);
  }

  /** What the events of some items do: they are accepted exactly when the items are, and end in their stage. */
  predicate Reaches(step: Applier, mint: Minter, stage: Stage, s: State, output: seq<Schema.OutputItem>,
                    cuts: seq<Cut>, events: seq<Event>)
    requires |cuts| == |output|
  {
    var r := ApplyAll(step, s, events);
    (r.Ok? <==> AllAdmissible(mint, output, cuts)) && (r.Ok? ==> stage(r.value, output, Kept(output, cuts)))
  }

  /** In every state of the stage the events of one more item advance it. */
  ghost predicate AlwaysAdvances(step: Applier, mint: Minter, stage: Stage) {
    forall t, before, kept, item, cut {:trigger stage(t, before, kept), ItemEvents(item, |before|, cut)} ::
      stage(t, before, kept) && CutsItem(cut, item) ==>
        Advances(step, mint, stage, t, before, kept, item, cut, ItemEvents(item, |before|, cut))
  }

  /** One item behind the others. */
  lemma {:induction false} AdvanceLast(step: Applier, mint: Minter, stage: Stage, s: State, done: seq<Event>,
                                       before: seq<Schema.OutputItem>, cuts: seq<Cut>, item: Schema.OutputItem,
                                       cut: Cut, events: seq<Event>)
    requires |cuts| == |before| && Reaches(step, mint, stage, s, before, cuts, done)
    requires ApplyAll(step, s, done).Ok? ==>
               Advances(step, mint, stage, ApplyAll(step, s, done).value, before, Kept(before, cuts), item, cut, events)
    ensures Reaches(step, mint, stage, s, before + [item], cuts + [cut], done + events)
  {
    var r, output, all := ApplyAll(step, s, done), before + [item], cuts + [cut];
    assert output[..|output| - 1] == before && all[..|output| - 1] == cuts;
    if r.Ok? {
      AdvanceOnce(step, mint, stage, s, done, r.value, before, Kept(before, cuts), item, cut, events);
    } else {
      ApplyAllAppend(step, s, done, events);
    }
  }

  lemma {:induction false} AdvanceNext(step: Applier, mint: Minter, stage: Stage, s: State, done: seq<Event>,
                                       before: seq<Schema.OutputItem>, cuts: seq<Cut>, item: Schema.OutputItem,
                                       cut: Cut)
    requires |cuts| == |before| && Reaches(step, mint, stage, s, before, cuts, done)
    requires AlwaysAdvances(step, mint, stage) && CutsItem(cut, item)
    ensures Reaches(step, mint, stage, s, before + [item], cuts + [cut], done + ItemEvents(item, |before|, cut))
  {
    var events := ItemEvents(item, |before|, cut);
    AdvanceLast(step, mint, stage, s, done, before, cuts, item, cut, events);
  }

  lemma {:induction false} CutsLast(output: seq<Schema.OutputItem>, cuts: seq<Cut>, n: nat)
    requires |output| == n + 1 && CutsAll(cuts, output)
    ensures CutsAll(cuts[..n], output[..n]) && CutsItem(cuts[n], output[n])
    ensures output[..n] + [output[n]] == output && cuts[..n] + [cuts[n]] == cuts
  {
    FrontAndLast(output, n);
    FrontAndLast(cuts, n);
    EarlierCuts(output[..n], cuts[..n], output[n], cuts[n]);
  }

  lemma {:induction false} FrontAndLast<T>(s: seq<T>, n: nat)
    requires |s| == n + 1
    ensures s[..n] + [s[n]] == s
  {
  }

  lemma {:induction false} EarlierCuts(before: seq<Schema.OutputItem>, earlier: seq<Cut>, item: Schema.OutputItem,
                                       cut: Cut)
    requires |before| == |earlier| && CutsAll(earlier + [cut], before + [item])
    ensures CutsAll(earlier, before) && CutsItem(cut, item)
  {
    forall i | 0 <= i < |before| ensures CutsItem(earlier[i], before[i]) {
      assert (earlier + [cut])[i] == earlier[i] && (before + [item])[i] == before[i];
    }
    assert (earlier + [cut])[|before|] == cut && (before + [item])[|before|] == item;
  }

  lemma {:induction false} OutputEventsLast(output: seq<Schema.OutputItem>, cuts: seq<Cut>, n: nat)
    requires |output| == n + 1 && CutsAll(cuts, output)
    ensures CutsAll(cuts[..n], output[..n]) && CutsItem(cuts[n], output[n])
    ensures OutputEvents(output, cuts) == OutputEvents(output[..n], cuts[..n]) + ItemEvents(output[n], n, cuts[n])
  {
    CutsLast(output, cuts, n);
  }

  lemma {:induction false} AdvanceWhole(step: Applier, mint: Minter, stage: Stage, s: State,
                                        output: seq<Schema.OutputItem>, cuts: seq<Cut>, n: nat)
    requires |output| == n + 1 && CutsAll(cuts, output) && CutsAll(cuts[..n], output[..n])
    requires Reaches(step, mint, stage, s, output[..n], cuts[..n], OutputEvents(output[..n], cuts[..n]))
    requires AlwaysAdvances(step, mint, stage)
    ensures Reaches(step, mint, stage, s, output, cuts, OutputEvents(output, cuts))
  {
    CutsLast(output, cuts, n);
    OutputEventsLast(output, cuts, n);
    AdvanceNext(step, mint, stage, s, OutputEvents(output[..n], cuts[..n]), output[..n], cuts[..n], output[n], cuts[n]);
  }

  lemma {:induction false} AdvanceThrough(step: Applier, mint: Minter, stage: Stage, s: State,
                                          output: seq<Schema.OutputItem>, cuts: seq<Cut>)
    requires stage(s, [], []) && CutsAll(cuts, output) && AlwaysAdvances(step, mint, stage)
    ensures Reaches(step, mint, stage, s, output, cuts, OutputEvents(output, cuts))
    decreases |output|
  {
    if output == [] {
      assert ApplyAll(step, s, []) == Ok(s);
    } else {
      var n := |output| - 1;
      CutsLast(output, cuts, n);
      AdvanceThrough(step, mint, stage, s, output[..n], cuts[..n]);
      AdvanceWhole(step, mint, stage, s, output, cuts, n);
    }
  }

  lemma {:induction false} OutputIsFollowed(cfg: Config, output: seq<Schema.OutputItem>, cuts: seq<Cut>)
    requires CutsAll(cuts, output)
    ensures var r := ApplyAll(ApplierOf(cfg), INITIAL, OutputEvents(output, cuts));
            && (r.Ok? <==> AllAdmissible(cfg.mint, output, cuts))
            && (r.Ok? ==> At(cfg, r.value, output, Kept(output, cuts)))
  {
    var stage: Stage := (s, before, kept) => At(cfg, s, before, kept);
    InitialIsAt(cfg);
    forall t, before, kept, item, cut | stage(t, before, kept) && CutsItem(cut, item)
      ensures Advances(ApplierOf(cfg), cfg.mint, stage, t, before, kept, item, cut, ItemEvents(item, |before|, cut))
    {
      ItemStep(cfg, t, before, kept, item, cut);
    }
    AdvanceThrough(ApplierOf(cfg), cfg.mint, stage, INITIAL, output, cuts);
  }

  lemma {:induction false} InitialIsAt(cfg: Config)
    ensures At(cfg, INITIAL, [], [])
  {
    InitialInv(cfg);
    assert ContentOf(After(Empty, RoleChunk)) == ContentOf(Empty);
  }

  // ---- a summary that was not streamed ----

  /**
   * A part that is closed and then its item. The summary is shown exactly twice when none was streamed before,
   * and not at all otherwise: then only an open think block is closed.
   */
  lemma {:induction false} SummaryShowsTwiceIff(cfg: Config, s: State, index: nat, item: Json)
    requires !s.toolCallsSeen && ItemSummary(item) != "" && (s.thinkOpen ==> s.summaryStreamed)
    ensures var r, block := ApplyAll(ApplierOf(cfg), s,
                                                   [SummaryDone(ItemSummary(item)), ReasoningItem(index, item, true)]),
                            ThinkBlock(ItemSummary(item));
            && r.Ok?
            && (ContentOf(r.value.log) == ContentOf(s.log) + block + block <==> !s.summaryStreamed)
            && (s.summaryStreamed ==>
                  ContentOf(r.value.log) == ContentOf(s.log) + if s.thinkOpen then "</think>" else "")
  {
    var text := ItemSummary(item);
    var done, closed := SummaryDone(text), ReasoningItem(index, item, true);
    var t := OnSummaryDone(s, text);
    assert ShownTokens([Open, Plain(text), Close]) == ThinkBlock(text) by {
      assert [Open, Plain(text), Close][1..] == [Plain(text), Close] && [Plain(text), Close][1..] == [Close];
      ShowTokens(text);
    }
    ShowTokens(text);
    RunsOne(cfg, s, done);
    RunsOne(cfg, t, closed);
    assert [done, closed] == [done] + [closed];
    ApplyLast(ApplierOf(cfg), s, [done], closed);
  }
}
