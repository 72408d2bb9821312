/**
 * When the chunks of a body matter to the client. The driver maps a batch to its end but looks at no further one
 * once the answer has ended, so what stands behind the end reaches the client or not as the chunks fall.
 */
module ChatChunking {
  import opened Prelude
  import opened Json
  import opened ChatReplay
  import opened ChatEvents
  import opened ChatStream
  import opened ChatStreamRuns
  import opened ChatCanonical
  import Sse = SseDecoding
  import SseBytes

  function Arrivals(chunks: seq<Bytes>): seq<Upstream> {
    if chunks == [] then [] else [Arrived(chunks[0])] + Arrivals(chunks[1..])
  }

  // ---- what the client is given ----

  /** Two ends of a run that give the client the same. */
  predicate SameForClient(a: Driven, b: Driven) { a.state.log == b.state.log && a.failure == b.failure }

  lemma {:induction false} ChunksTellLog(a: Log, b: Log)
    requires a.Chunks() == b.Chunks()
    ensures a == b
  {
    if a.After? && b.After? {
      var x, y := a.before.Chunks() + [a.last], b.before.Chunks() + [b.last];
      assert x[..|x| - 1] == a.before.Chunks() && y[..|y| - 1] == b.before.Chunks();
      assert x[|x| - 1] == a.last && y[|y| - 1] == b.last;
      ChunksTellLog(a.before, b.before);
    }
  }

  lemma {:induction false} YieldsTell(a: Driven, b: Driven)
    requires Yields(a) == Yields(b)
    ensures SameForClient(a, b)
  {
    var x, y, n := a.state.log.Chunks(), b.state.log.Chunks(), |Yields(a)|;
    if a.failure.Some? {
      assert Yields(a)[n - 1] == Errored(a.failure.value);
    }
    if b.failure.Some? {
      assert Yields(b)[n - 1] == Errored(b.failure.value);
    }
    assert a.failure.None? && n > 0 ==> Yields(a)[n - 1] == Chunked(x[n - 1]);
    assert b.failure.None? && n > 0 ==> Yields(b)[n - 1] == Chunked(y[n - 1]);
    forall i | 0 <= i < |x| ensures x[i] == y[i] {
      assert Yields(a)[i] == Chunked(x[i]) && Yields(b)[i] == Chunked(y[i]);
    }
    ChunksTellLog(a.state.log, b.state.log);
  }

  // ---- an answer that ends for good ----

  /** Every event is accepted and sends nothing. */
  predicate Silent<E>(step: (State, E) -> Result<State, StreamError>, s: State, events: seq<E>)
    decreases |events|
  {
    events != [] ==>
      match step(s, events[0])
      case Err(_) => false
      case Ok(t) => t.log == s.log && Silent(step, t, events[1..])
  }

  /** Behind the event that ends the answer nothing more is sent, and nothing fails. */
  predicate EndsForGood<E>(step: (State, E) -> Result<State, StreamError>, s: State, events: seq<E>)
    decreases |events|
  {
    events != [] ==>
      match step(s, events[0])
      case Err(_) => true
      case Ok(t) => if t.terminalSeen then Silent(step, t, events[1..]) else EndsForGood(step, t, events[1..])
  }

  /** An ended answer stays ended. */
  ghost predicate StaysEnded(step: Mapper) {
    forall t: State, e: Json :: t.terminalSeen && step(t, e).Ok? ==> step(t, e).value.terminalSeen
  }

  lemma {:induction false} SilentMaps(step: Mapper, s: State, a: seq<Json>, b: seq<Json>)
    requires StaysEnded(step) && s.terminalSeen && Silent(step, s, a + b)
    ensures var m := MapAll(step, s, a);
            m.error.None? && m.state.log == s.log && m.state.terminalSeen && Silent(step, m.state, b)
    decreases |a|
  {
    if a == [] {
      assert a + b == b;
    } else {
      assert (a + b)[1..] == a[1..] + b;
      SilentMaps(step, step(s, a[0]).value, a[1..], b);
    }
  }

  /** What the first batch leaves for the rest. */
  lemma {:induction false} EndsForGoodSplits(step: Mapper, s: State, a: seq<Json>, b: seq<Json>)
    requires StaysEnded(step) && !s.terminalSeen && EndsForGood(step, s, a + b) && MapAll(step, s, a).error.None?
    ensures var t := MapAll(step, s, a).state;
            if t.terminalSeen then Silent(step, t, b) else EndsForGood(step, t, b)
    decreases |a|
  {
    if a == [] {
      assert a + b == b;
    } else {
      var t := step(s, a[0]).value;
      assert (a + b)[1..] == a[1..] + b;
      if t.terminalSeen {
        SilentMaps(step, t, a[1..], b);
      } else {
        EndsForGoodSplits(step, t, a[1..], b);
      }
    }
  }

  lemma {:induction false} SilentBehind(step: Mapper, s: State, events: seq<Json>)
    requires StaysEnded(step) && s.terminalSeen && Silent(step, s, events)
    ensures SameForClient(Settle(Mapped(s, None)), Settle(MapAll(step, s, events)))
  {
    assert events + [] == events;
    SilentMaps(step, s, events, []);
  }

  /** Where the answer ends for good, every chunking gives what all events at once give. */
  lemma {:induction false} DriveIsChunkingIndependent(step: Mapper, read: Sse.FrameReader, s: State, buffer: Bytes,
                                                      chunks: seq<Bytes>, events: seq<Json>, rest: Bytes)
    requires Sse.PushAll(read, buffer, chunks) == Ok(Sse.Decoded(events, rest)) && LastEvents(read, rest) == Ok([])
    requires StaysEnded(step) && !s.terminalSeen && EndsForGood(step, s, events)
    ensures SameForClient(Drive(step, read, s, buffer, Arrivals(chunks)), Settle(MapAll(step, s, events)))
    decreases |chunks|
  {
    if chunks != [] {
      var d := Sse.PushChunk(read, buffer, chunks[0]).value;
      var later := Sse.PushAll(read, d.rest, chunks[1..]).value;
      var m := MapAll(step, s, d.events);
      assert events == d.events + later.events;
      assert Arrivals(chunks)[1..] == Arrivals(chunks[1..]);
      MapAllAppend(step, s, d.events, later.events);
      if m.error.None? {
        EndsForGoodSplits(step, s, d.events, later.events);
        if m.state.terminalSeen {
          SilentBehind(step, m.state, later.events);
        } else {
          DriveIsChunkingIndependent(step, read, m.state, d.rest, chunks[1..], later.events, rest);
        }
      }
    }
  }

  // ---- a cut of the bytes behind any event ----

  lemma {:induction false} DrainFirst(read: Sse.FrameReader, b: Bytes, cut: Sse.Cut)
    requires Sse.NextFrame(b) == Some(cut) && read(cut.frame).Ok?
    ensures Sse.Drain(read, b) == Sse.Prepend(Sse.EventsOf(read(cut.frame).value), Sse.Drain(read, cut.rest))
  {
  }

  /** A frame, and some more bytes that end with a frame of their own. */
  lemma {:induction false} FrameAndMore(read: Sse.FrameReader, first: Bytes, frame: Bytes,
                                        more: Bytes, later: seq<Json>)
    requires Sse.NextFrame(first) == Some(Sse.Cut(frame, [])) && read(frame).Ok?
    requires Sse.Drain(read, more) == Ok(Sse.Decoded(later, []))
    ensures Sse.NextFrame(first + more).Some?
    ensures Sse.Drain(read, first + more) == Ok(Sse.Decoded(Sse.EventsOf(read(frame).value) + later, []))
  {
    Sse.NextFrameIsStable(first, more);
    assert [] + more == more;
    DrainFirst(read, first + more, Sse.Cut(frame, more));
  }

  /** The first frame of bytes that hold an event, and what the others hold. */
  lemma {:induction false} DrainStarts(read: Sse.FrameReader, b: Bytes, events: seq<Json>)
    returns (first: Bytes, cut: Sse.Cut, later: Sse.Decoded)
    requires Sse.Drain(read, b).Ok? && Sse.Drain(read, b).value.events == events != []
    ensures b == first + cut.rest && |cut.rest| < |b| && Sse.NextFrame(first) == Some(Sse.Cut(cut.frame, []))
    ensures read(cut.frame).Ok? && Sse.Drain(read, cut.rest) == Ok(later)
    ensures events == Sse.EventsOf(read(cut.frame).value) + later.events
  {
    cut := Sse.NextFrame(b).value;
    first := Sse.FirstFrameSplits(b);
    DrainFirst(read, b, cut);
    later := Sse.Drain(read, cut.rest).value;
  }

  lemma {:induction false} NothingToDrain(read: Sse.FrameReader)
    ensures Sse.Drain(read, []) == Ok(Sse.Decoded([], []))
  {
    assert Sse.NextFrame([]).None?;
  }

  /** The frames of the first `n` events end somewhere: at the end of a front of the bytes. */
  lemma {:induction false} CutBehindEvent(read: Sse.FrameReader, b: Bytes, events: seq<Json>, n: nat)
    returns (front: Bytes, back: Bytes)
    requires Sse.Drain(read, b).Ok? && Sse.Drain(read, b).value.events == events && 0 < n <= |events|
    ensures b == front + back && Sse.NextFrame(front).Some?
    ensures Sse.Drain(read, front) == Ok(Sse.Decoded(events[..n], []))
    decreases |b|
  {
    var first, cut, later := DrainStarts(read, b, events);
    var found := Sse.EventsOf(read(cut.frame).value);
    var more, rest := [], cut.rest;
    if n > |found| {
      more, rest := CutBehindEvent(read, cut.rest, later.events, n - |found|);
    } else {
      NothingToDrain(read);
    }
    front, back := first + more, rest;
    FrameAndMore(read, first, cut.frame, more, later.events[..n - |found|]);
    FrontAndBack(b, first, more, rest, cut.rest);
    FirstEvents(events, found, later.events, n);
  }

  lemma {:induction false} FrontAndBack(b: Bytes, first: Bytes, more: Bytes, rest: Bytes, tail: Bytes)
    requires b == first + tail && tail == more + rest
    ensures b == first + more + rest
  {
  }

  lemma {:induction false} FirstEvents(events: seq<Json>, found: seq<Json>, later: seq<Json>, n: nat)
    requires events == found + later && |found| <= n <= |events|
    ensures events[..n] == found + later[..n - |found|]
  {
  }

  /** A cut behind the event that ends the answer, or behind a later one, hides the rest from the driver. */
  lemma {:induction false} DriveStopsBehind(step: Mapper, read: Sse.FrameReader, s: State, b: Bytes, n: nat)
    returns (chunks: seq<Bytes>)
    requires Sse.Drain(read, b).Ok? && 0 < n <= |Sse.Drain(read, b).value.events|
    requires var m := MapAll(step, s, Sse.Drain(read, b).value.events[..n]); m.error.Some? || m.state.terminalSeen
    ensures Sse.Flatten(chunks) == b
    ensures Drive(step, read, s, [], Arrivals(chunks)) == Settle(MapAll(step, s, Sse.Drain(read, b).value.events[..n]))
  {
    var events := Sse.Drain(read, b).value.events;
    var front, back := CutBehindEvent(read, b, events, n);
    chunks := [front, back];
    FlattenTwo(front, back);
    DriveFirst(step, read, s, chunks, Sse.Drain(read, b).value.events[..n]);
  }

  /** The driver does not look past a first chunk whose events end the answer. */
  lemma {:induction false} DriveFirst(step: Mapper, read: Sse.FrameReader, s: State, chunks: seq<Bytes>,
                                      events: seq<Json>)
    requires chunks != [] && Sse.NextFrame(chunks[0]).Some? && Sse.Drain(read, chunks[0]) == Ok(Sse.Decoded(events, []))
    requires MapAll(step, s, events).error.Some? || MapAll(step, s, events).state.terminalSeen
    ensures Drive(step, read, s, [], Arrivals(chunks)) == Settle(MapAll(step, s, events))
  {
    assert [] + chunks[0] == chunks[0];
    assert Sse.PushChunk(read, [], chunks[0]) == Sse.Drain(read, chunks[0]);
    assert Arrivals(chunks)[0] == Arrived(chunks[0]);
  }

  lemma {:induction false} FlattenTwo(x: Bytes, y: Bytes)
    ensures Sse.Flatten([x, y]) == x + y
  {
    assert [x, y][1..] == [y] && [y][1..] == [];
    assert Sse.Flatten([y]) == y + [] == y;
  }

  // ---- exactly then ----

  /** All prefixes that end the answer end it alike for the client. */
  ghost predicate OneEnding(step: Mapper, s: State, events: seq<Json>) {
    forall n :: 0 < n <= |events| && MapAll(step, s, events[..n]).error.None?
                && MapAll(step, s, events[..n]).state.terminalSeen
                ==> SameForClient(Settle(MapAll(step, s, events[..n])), Settle(MapAll(step, s, events)))
  }

  lemma {:induction false} MapOneMore(step: Mapper, s: State, events: seq<Json>, k: nat)
    requires k < |events| && MapAll(step, s, events[..k]).error.None?
    ensures var r := step(MapAll(step, s, events[..k]).state, events[k]);
            r.Ok? ==> MapAll(step, s, events[..k + 1]) == Mapped(r.value, None)
  {
    var u := MapAll(step, s, events[..k]).state;
    assert events[..k + 1] == events[..k] + [events[k]];
    MapAllAppend(step, s, events[..k], [events[k]]);
    if step(u, events[k]).Ok? {
      assert [events[k]][1..] == [];
      assert MapAll(step, step(u, events[k]).value, []) == Mapped(step(u, events[k]).value, None);
    }
  }

  lemma {:induction false} OneEndingIsForGood(step: Mapper, s: State, events: seq<Json>, k: nat)
    requires k <= |events| && OneEnding(step, s, events) && StaysEnded(step)
    requires MapAll(step, s, events[..k]).error.None? && !MapAll(step, s, events[..k]).state.terminalSeen
    ensures EndsForGood(step, MapAll(step, s, events[..k]).state, events[k..])
    decreases |events| - k
  {
    if k < |events| {
      var r := step(MapAll(step, s, events[..k]).state, events[k]);
      MapOneMore(step, s, events, k);
      assert events[k..][0] == events[k] && events[k..][1..] == events[k + 1..];
      if r.Ok? {
        if r.value.terminalSeen {
          OneEndingIsSilent(step, s, events, k + 1);
        } else {
          OneEndingIsForGood(step, s, events, k + 1);
        }
      }
    }
  }

  lemma {:induction false} OneEndingIsSilent(step: Mapper, s: State, events: seq<Json>, k: nat)
    requires 0 < k <= |events| && OneEnding(step, s, events) && StaysEnded(step)
    requires MapAll(step, s, events[..k]).error.None? && MapAll(step, s, events[..k]).state.terminalSeen
    ensures Silent(step, MapAll(step, s, events[..k]).state, events[k..])
    decreases |events| - k
  {
    if k < |events| {
      MapNext(step, s, events, k, MapAll(step, s, events[..k]).state);
      assert events[k..][0] == events[k] && events[k..][1..] == events[k + 1..];
      OneEndingIsSilent(step, s, events, k + 1);
    }
  }

  lemma {:induction false} MapNext(step: Mapper, s: State, events: seq<Json>, n: nat, t: State)
    requires 0 < n < |events| && OneEnding(step, s, events) && StaysEnded(step)
    requires MapAll(step, s, events[..n]) == Mapped(t, None) && t.terminalSeen
    ensures step(t, events[n]).Ok? && step(t, events[n]).value.log == t.log
    ensures MapAll(step, s, events[..n + 1]) == Mapped(step(t, events[n]).value, None)
  {
    assert SameForClient(Driven(t, None), Settle(MapAll(step, s, events)));
    MapOneMore(step, s, events, n);
    if step(t, events[n]).Err? {
      assert events == events[..n] + events[n..];
      MapAllAppend(step, s, events[..n], events[n..]);
    } else {
      assert SameForClient(Driven(step(t, events[n]).value, None), Settle(MapAll(step, s, events)));
    }
  }

  /** Every cut of the bytes into chunks gives the client what all their events at once give. */
  ghost predicate YieldsAlike(step: Mapper, read: Sse.FrameReader, s: State, b: Bytes, events: seq<Json>) {
    forall chunks :: Sse.Flatten(chunks) == b ==>
      Yields(Drive(step, read, s, [], Arrivals(chunks))) == Yields(Settle(MapAll(step, s, events)))
  }

  lemma {:induction false} ForGoodIsAlike(step: Mapper, read: Sse.FrameReader, s: State, b: Bytes, d: Sse.Decoded)
    requires Sse.Drain(read, b) == Ok(d) && Sse.Fits(b) && LastEvents(read, d.rest) == Ok([])
    requires StaysEnded(step) && !s.terminalSeen && EndsForGood(step, s, d.events)
    ensures YieldsAlike(step, read, s, b, d.events)
  {
    forall chunks | Sse.Flatten(chunks) == b
      ensures Yields(Drive(step, read, s, [], Arrivals(chunks))) == Yields(Settle(MapAll(step, s, d.events)))
    {
      ForGoodIsSame(step, read, s, b, d, chunks);
    }
  }

  lemma {:induction false} ForGoodIsSame(step: Mapper, read: Sse.FrameReader, s: State, b: Bytes, d: Sse.Decoded,
                                         chunks: seq<Bytes>)
    requires Sse.Drain(read, b) == Ok(d) && Sse.Fits(b) && LastEvents(read, d.rest) == Ok([])
    requires StaysEnded(step) && !s.terminalSeen && EndsForGood(step, s, d.events) && Sse.Flatten(chunks) == b
    ensures SameForClient(Drive(step, read, s, [], Arrivals(chunks)), Settle(MapAll(step, s, d.events)))
  {
    assert [] + b == b;
    assert Sse.NextFrame([]).None?;
    Sse.DecodingIsChunkingIndependent(read, [], chunks);
    DriveIsChunkingIndependent(step, read, s, [], chunks, d.events, d.rest);
  }

  lemma {:induction false} AlikeIsOneEnding(step: Mapper, read: Sse.FrameReader, s: State, b: Bytes,
                                            d: Sse.Decoded)
    requires Sse.Drain(read, b) == Ok(d) && YieldsAlike(step, read, s, b, d.events)
    ensures OneEnding(step, s, d.events)
  {
    forall n | 0 < n <= |d.events| && MapAll(step, s, d.events[..n]).error.None?
               && MapAll(step, s, d.events[..n]).state.terminalSeen
      ensures SameForClient(Settle(MapAll(step, s, d.events[..n])), Settle(MapAll(step, s, d.events)))
    {
      var chunks := DriveStopsBehind(step, read, s, b, n);
      YieldsTell(Settle(MapAll(step, s, d.events[..n])), Settle(MapAll(step, s, d.events)));
    }
  }

  /** The chunking of a body does not matter to the client exactly when the answer ends for good. */
  lemma {:induction false} ChunkingMattersUnless(step: Mapper, read: Sse.FrameReader, s: State, b: Bytes,
                                                 d: Sse.Decoded)
    requires Sse.Drain(read, b) == Ok(d) && Sse.Fits(b) && LastEvents(read, d.rest) == Ok([])
    requires !s.terminalSeen && StaysEnded(step)
    ensures YieldsAlike(step, read, s, b, d.events) <==> EndsForGood(step, s, d.events)
  {
    if EndsForGood(step, s, d.events) {
      ForGoodIsAlike(step, read, s, b, d);
    }
    if YieldsAlike(step, read, s, b, d.events) {
      AlikeIsOneEnding(step, read, s, b, d);
      assert d.events[..0] == [] && d.events[0..] == d.events;
      OneEndingIsForGood(step, s, d.events, 0);
    }
  }

  // ---- the adapter's machine ----

  predicate ReadAs(jsons: seq<Json>, events: seq<Event>) {
    |jsons| == |events| && forall k :: 0 <= k < |events| ==> Read(jsons[k]) == Ok(events[k])
  }

  lemma {:induction false} MapAllApplies(cfg: Config, s: State, jsons: seq<Json>, events: seq<Event>)
    requires ReadAs(jsons, events)
    ensures match ApplyAll(ApplierOf(cfg), s, events)
            case Ok(t) => MapAll(MapperOf(cfg), s, jsons) == Mapped(t, None)
            case Err(e) => MapAll(MapperOf(cfg), s, jsons).error == Some(e)
    decreases |events|
  {
    if events != [] {
      assert Read(jsons[0]) == Ok(events[0]);
      var next := ApplierOf(cfg)(s, events[0]);
      assert MapperOf(cfg)(s, jsons[0]) == next;
      if next.Ok? {
        MapAllApplies(cfg, next.value, jsons[1..], events[1..]);
      }
    }
  }

  lemma {:induction false} CompletionIsQuiet(s: State, index: nat, arguments: string)
    requires CompleteArguments(s, index, arguments).Ok?
    ensures CompleteArguments(s, index, arguments).value.terminalSeen == s.terminalSeen
  {
  }

  lemma {:induction false} CallIsQuiet(cfg: Config, s: State, index: nat, callId: string, name: string,
                                       arguments: string, done: bool)
    requires OnCallItem(cfg, s, index, callId, name, arguments, done).Ok?
    ensures OnCallItem(cfg, s, index, callId, name, arguments, done).value.terminalSeen == s.terminalSeen
  {
    var t := Announce(cfg, CloseThink(s), index, callId, name).value;
    if done {
      CompletionIsQuiet(t, index, arguments);
    }
  }

  lemma {:induction false} EventIsQuiet(cfg: Config, s: State, event: Event)
    requires !event.Terminal? && Apply(cfg, s, event).Ok?
    ensures Apply(cfg, s, event).value.terminalSeen == s.terminalSeen
  {
    match event
    case CallItem(index, callId, name, arguments, done) =>
      CallIsQuiet(cfg, s, index, callId, name, arguments, done);
    case ArgumentsDone(index, arguments) =>
      CompletionIsQuiet(s, index, arguments);
    case _ =>
  }

  lemma {:induction false} EndStays(cfg: Config, t: State, e: Json)
    requires t.terminalSeen && MapperOf(cfg)(t, e).Ok?
    ensures MapperOf(cfg)(t, e).value.terminalSeen
  {
    var event := Read(e).value;
    if !event.Terminal? {
      EventIsQuiet(cfg, t, event);
    }
  }

  lemma {:induction false} MachineStaysEnded(cfg: Config)
    ensures StaysEnded(MapperOf(cfg))
  {
    forall t: State, e: Json | t.terminalSeen && MapperOf(cfg)(t, e).Ok?
      ensures MapperOf(cfg)(t, e).value.terminalSeen
    {
      EndStays(cfg, t, e);
    }
  }

  // ---- what has been told, from the events alone ----

  predicate SummaryTold(told: seq<Event>) {
    exists i :: 0 <= i < |told| && told[i].SummaryDelta? && told[i].delta != ""
  }

  predicate CallTold(told: seq<Event>) { exists i :: 0 <= i < |told| && told[i].CallItem? }

  predicate CallToldAt(told: seq<Event>, index: nat) {
    exists i :: 0 <= i < |told| && told[i].CallItem? && told[i].index == index
  }

  /** The arguments under an index: the fragments, or what they were completed to. */
  function ArgumentsTold(told: seq<Event>, index: nat): string {
    if told == [] then ""
    else
      var before, last := ArgumentsTold(told[..|told| - 1], index), told[|told| - 1];
      if last.ArgumentsDelta? && last.index == index then before + last.delta
      else if Completes(last, index, CompletedTo(last)) then CompletedTo(last)
      else before
  }

  function CompletedTo(event: Event): string { if event.ArgumentsDone? || event.CallItem? then event.arguments else "" }

  /** An event that has nothing to say to a client who was told all this and then that the answer has ended. */
  predicate SaysNothing(told: seq<Event>, event: Event) {
    match event
    case Ignored => true
    case SummaryDelta(delta) => delta == ""
    case TextDelta(delta) => delta == ""
    case ArgumentsDelta(_, delta) => delta == ""
    case SummaryDone(text) => text == "" || SummaryTold(told)
    case ReasoningItem(_, item, done) => !CallTold(told) && (!done || ItemSummary(item) == "" || SummaryTold(told))
    case ArgumentsDone(index, arguments) => arguments == ArgumentsTold(told, index)
    case CallItem(index, _, _, arguments, done) =>
      CallToldAt(told, index) && (!done || arguments == ArgumentsTold(told, index))
    case Terminal(_, _) => false
    case Failed(_) => false
  }

  /** The machine's state remembers what it was told. */
  ghost predicate Remembers(s: State, told: seq<Event>) {
    && s.toolArguments.Keys == s.toolIndices.Keys
    && (s.summaryStreamed <==> SummaryTold(told))
    && (s.toolCallsSeen <==> CallTold(told))
    && (forall index: nat :: index in s.toolIndices <==> CallToldAt(told, index))
    && (forall index: nat :: Accumulated(s, index) == ArgumentsTold(told, index))
  }

  lemma {:induction false} ToldMore(told: seq<Event>, event: Event)
    ensures SummaryTold(told + [event]) <==> SummaryTold(told) || (event.SummaryDelta? && event.delta != "")
    ensures CallTold(told + [event]) <==> CallTold(told) || event.CallItem?
    ensures forall index: nat :: CallToldAt(told + [event], index)
                                 <==> CallToldAt(told, index) || (event.CallItem? && event.index == index)
  {
    var more, n := told + [event], |told|;
    assert more[n] == event && forall i :: 0 <= i < n ==> more[i] == told[i];
    if SummaryTold(told) {
      var i :| 0 <= i < n && told[i].SummaryDelta? && told[i].delta != "";
      assert more[i] == told[i];
    }
    if CallTold(told) {
      var i :| 0 <= i < n && told[i].CallItem?;
      assert more[i] == told[i];
    }
    forall index: nat | CallToldAt(told, index) ensures CallToldAt(more, index) {
      var i :| 0 <= i < n && told[i].CallItem? && told[i].index == index;
      assert more[i] == told[i];
    }
  }

  lemma {:induction false} ArgumentsToldMore(told: seq<Event>, event: Event, index: nat)
    ensures ArgumentsTold(told + [event], index)
            == if event.ArgumentsDelta? && event.index == index then ArgumentsTold(told, index) + event.delta
               else if Completes(event, index, CompletedTo(event)) then CompletedTo(event)
               else ArgumentsTold(told, index)
  {
    assert (told + [event])[..|told|] == told;
  }

  lemma {:induction false} AppendRemembers(s: State, index: nat, delta: string)
    requires s.toolArguments.Keys == s.toolIndices.Keys && AppendArguments(s, index, delta).Ok?
    ensures var t := AppendArguments(s, index, delta).value;
            && t == s.(log := t.log, toolArguments := t.toolArguments) && t.toolArguments.Keys == t.toolIndices.Keys
            && forall i: nat :: Accumulated(t, i) == if i == index then Accumulated(s, i) + delta else Accumulated(s, i)
  {
    assert forall i: nat :: Accumulated(s, i) + "" == Accumulated(s, i);
  }

  lemma {:induction false} CompletionRemembers(s: State, index: nat, arguments: string)
    requires s.toolArguments.Keys == s.toolIndices.Keys && CompleteArguments(s, index, arguments).Ok?
    ensures var t := CompleteArguments(s, index, arguments).value;
            && t == s.(log := t.log, toolArguments := t.toolArguments) && t.toolArguments.Keys == t.toolIndices.Keys
            && forall i: nat :: Accumulated(t, i) == if i == index then arguments else Accumulated(s, i)
  {
    var sent := Accumulated(s, index);
    if arguments != sent {
      var suffix := StripPrefix(arguments, sent).value;
      AppendRemembers(s, index, suffix);
      assert arguments == sent + suffix;
    }
  }

  lemma {:induction false} AnnounceRemembers(cfg: Config, s: State, index: nat, callId: string, name: string)
    requires s.toolArguments.Keys == s.toolIndices.Keys && Announce(cfg, s, index, callId, name).Ok?
    requires s.toolIndices != map[] ==> s.toolCallsSeen
    ensures var t := Announce(cfg, s, index, callId, name).value;
            && t.toolArguments.Keys == t.toolIndices.Keys == s.toolIndices.Keys + {index}
            && t.summaryStreamed == s.summaryStreamed && t.toolCallsSeen
            && forall i: nat :: Accumulated(t, i) == Accumulated(s, i)
  {
    if index in s.toolIndices {
      assert s.toolIndices.Keys + {index} == s.toolIndices.Keys;
    } else {
      var t := Announce(cfg, s, index, callId, name).value;
      assert t.toolArguments == s.toolArguments[index := ""] && t.toolIndices.Keys == s.toolIndices.Keys + {index};
    }
  }

  lemma {:induction false} CallRemembers(cfg: Config, s: State, index: nat, callId: string, name: string,
                                         arguments: string, done: bool)
    requires s.toolArguments.Keys == s.toolIndices.Keys && (s.toolIndices != map[] ==> s.toolCallsSeen)
    requires OnCallItem(cfg, s, index, callId, name, arguments, done).Ok?
    ensures var t := OnCallItem(cfg, s, index, callId, name, arguments, done).value;
            && t.toolArguments.Keys == t.toolIndices.Keys == s.toolIndices.Keys + {index}
            && t.summaryStreamed == s.summaryStreamed && t.toolCallsSeen
            && forall i: nat :: Accumulated(t, i) == if done && i == index then arguments else Accumulated(s, i)
  {
    var closed := CloseThink(s);
    AnnounceRemembers(cfg, closed, index, callId, name);
    if done {
      CompletionRemembers(Announce(cfg, closed, index, callId, name).value, index, arguments);
    }
  }

  /** Only these fields of the state and of an event matter to what is remembered. */
  ghost predicate Learns(s: State, event: Event, t: State) {
    && t.toolArguments.Keys == t.toolIndices.Keys
    && (t.summaryStreamed <==> s.summaryStreamed || (event.SummaryDelta? && event.delta != ""))
    && (t.toolCallsSeen <==> s.toolCallsSeen || event.CallItem?)
    && (forall index: nat ::
          index in t.toolIndices <==> index in s.toolIndices || (event.CallItem? && event.index == index))
    && (forall index: nat ::
          Accumulated(t, index)
          == if event.ArgumentsDelta? && event.index == index then Accumulated(s, index) + event.delta
             else if Completes(event, index, CompletedTo(event)) then CompletedTo(event)
             else Accumulated(s, index))
  }

  lemma {:induction false} ArgumentsLearn(s: State, index: nat, delta: string)
    requires s.toolArguments.Keys == s.toolIndices.Keys && AppendArguments(s, index, delta).Ok?
    ensures Learns(s, ArgumentsDelta(index, delta), AppendArguments(s, index, delta).value)
  {
    AppendRemembers(s, index, delta);
  }

  lemma {:induction false} CompletionLearns(s: State, index: nat, arguments: string)
    requires s.toolArguments.Keys == s.toolIndices.Keys && CompleteArguments(s, index, arguments).Ok?
    ensures Learns(s, ArgumentsDone(index, arguments), CompleteArguments(s, index, arguments).value)
  {
    CompletionRemembers(s, index, arguments);
  }

  lemma {:induction false} CallLearns(cfg: Config, s: State, index: nat, callId: string, name: string,
                                      arguments: string, done: bool)
    requires s.toolArguments.Keys == s.toolIndices.Keys && (s.toolIndices != map[] ==> s.toolCallsSeen)
    requires OnCallItem(cfg, s, index, callId, name, arguments, done).Ok?
    ensures Learns(s, CallItem(index, callId, name, arguments, done),
                   OnCallItem(cfg, s, index, callId, name, arguments, done).value)
  {
    var event := CallItem(index, callId, name, arguments, done);
    var t := OnCallItem(cfg, s, index, callId, name, arguments, done);
    CallRemembers(cfg, s, index, callId, name, arguments, done);
    CallTells(s, event, t.value);
  }

  lemma {:induction false} CallTells(s: State, event: Event, t: State)
    requires event.CallItem? && t.summaryStreamed == s.summaryStreamed && t.toolCallsSeen
    requires t.toolArguments.Keys == t.toolIndices.Keys == s.toolIndices.Keys + {event.index}
    requires forall i: nat ::
               Accumulated(t, i) == if event.done && i == event.index then event.arguments else Accumulated(s, i)
    ensures Learns(s, event, t)
  {
    assert CompletedTo(event) == event.arguments;
    assert forall i: nat :: Completes(event, i, event.arguments) <==> event.done && event.index == i;
  }

  /** Nothing is told of calls. */
  predicate SameCalls(s: State, t: State) {
    t.toolIndices == s.toolIndices && t.toolArguments == s.toolArguments && t.toolCallsSeen == s.toolCallsSeen
  }

  lemma {:induction false} ReasoningLearns(s: State, index: nat, item: Json, done: bool)
    requires OnReasoningItem(s, index, item, done).Ok?
    ensures var t := OnReasoningItem(s, index, item, done).value;
            SameCalls(s, t) && t.summaryStreamed == s.summaryStreamed
  {
  }

  /** The other events tell nothing of calls. */
  lemma {:induction false} OthersLearn(cfg: Config, s: State, event: Event)
    requires !event.ArgumentsDelta? && !event.ArgumentsDone? && !event.CallItem? && Apply(cfg, s, event).Ok?
    ensures var t := Apply(cfg, s, event).value;
            && SameCalls(s, t)
            && (t.summaryStreamed <==> s.summaryStreamed || (event.SummaryDelta? && event.delta != ""))
  {
    match event
    case ReasoningItem(index, item, done) => ReasoningLearns(s, index, item, done);
    case Terminal(incomplete, usage) => TerminalLearns(cfg, s, incomplete, usage);
    case _ =>
  }

  lemma {:induction false} TerminalLearns(cfg: Config, s: State, incomplete: bool, usage: Option<Json>)
    ensures var t := OnTerminal(cfg, s, incomplete, usage);
            SameCalls(s, t) && t.summaryStreamed == s.summaryStreamed && !t.thinkOpen && t.terminalSeen
  {
  }

  lemma {:induction false} NothingOfCallsLearns(s: State, event: Event, t: State)
    requires !event.ArgumentsDelta? && !event.ArgumentsDone? && !event.CallItem?
    requires s.toolArguments.Keys == s.toolIndices.Keys
    requires SameCalls(s, t)
    requires t.summaryStreamed <==> s.summaryStreamed || (event.SummaryDelta? && event.delta != "")
    ensures Learns(s, event, t)
  {
  }

  lemma {:induction false} EventLearns(cfg: Config, s: State, event: Event)
    requires s.toolArguments.Keys == s.toolIndices.Keys && (s.toolIndices != map[] ==> s.toolCallsSeen)
    requires Apply(cfg, s, event).Ok?
    ensures Learns(s, event, Apply(cfg, s, event).value)
  {
    var t := Apply(cfg, s, event).value;
    if event.ArgumentsDelta? {
      ArgumentsLearn(s, event.index, event.delta);
    } else if event.ArgumentsDone? {
      CompletionLearns(s, event.index, event.arguments);
    } else if event.CallItem? {
      CallLearns(cfg, s, event.index, event.callId, event.name, event.arguments, event.done);
    } else {
      OthersLearn(cfg, s, event);
      NothingOfCallsLearns(s, event, t);
    }
  }

  lemma {:induction false} RemembersMore(s: State, told: seq<Event>, event: Event, t: State)
    requires Remembers(s, told) && Learns(s, event, t)
    ensures Remembers(t, told + [event])
  {
    ToldMore(told, event);
    forall index: nat ensures Accumulated(t, index) == ArgumentsTold(told + [event], index) {
      ArgumentsToldMore(told, event, index);
    }
  }

  lemma {:induction false} IndicesAreCalls(s: State, told: seq<Event>)
    requires Remembers(s, told)
    ensures s.toolIndices != map[] ==> s.toolCallsSeen
  {
    if s.toolIndices != map[] {
      var index :| index in s.toolIndices;
      assert CallToldAt(told, index);
    }
  }

  /** Every accepted event is remembered. */
  lemma {:induction false} RunRemembers(cfg: Config, s: State, told: seq<Event>, events: seq<Event>)
    requires Remembers(s, told) && ApplyAll(ApplierOf(cfg), s, events).Ok?
    ensures Remembers(ApplyAll(ApplierOf(cfg), s, events).value, told + events)
    decreases |events|
  {
    if events == [] {
      assert told + events == told;
    } else {
      var t := ApplierOf(cfg)(s, events[0]).value;
      IndicesAreCalls(s, told);
      EventLearns(cfg, s, events[0]);
      RemembersMore(s, told, events[0], t);
      RunRemembers(cfg, t, told + [events[0]], events[1..]);
      assert told + [events[0]] + events[1..] == told + events;
    }
  }

  lemma {:induction false} InitialRemembers()
    ensures Remembers(INITIAL, [])
  {
  }

  // ---- what is silent behind the end ----

  function Length(log: Log): nat { if log.Empty? then 0 else Length(log.before) + 1 }

  lemma {:induction false} CompletionIsSilentIff(s: State, index: nat, arguments: string)
    ensures var r := CompleteArguments(s, index, arguments);
            && (r.Ok? && r.value.log == s.log <==> arguments == Accumulated(s, index))
            && (r.Ok? ==> Length(r.value.log) >= Length(s.log))
            && (arguments == Accumulated(s, index) ==> r == Ok(s))
  {
    var r := CompleteArguments(s, index, arguments);
    if r.Ok? && arguments != Accumulated(s, index) {
      assert Length(r.value.log) == Length(s.log) + 1;
    }
  }

  lemma {:induction false} CallIsSilentIff(cfg: Config, s: State, index: nat, callId: string, name: string,
                                           arguments: string, done: bool)
    requires !s.thinkOpen
    ensures var r := OnCallItem(cfg, s, index, callId, name, arguments, done);
            && (r.Ok? && r.value.log == s.log
                <==> index in s.toolIndices && (!done || arguments == Accumulated(s, index)))
            && (r.Ok? && r.value.log == s.log ==> r == Ok(s))
  {
    var r := Announce(cfg, s, index, callId, name);
    if r.Ok? {
      assert index !in s.toolIndices ==> Length(r.value.log) == Length(s.log) + 1;
      CompletionIsSilentIff(r.value, index, arguments);
    }
  }

  /** A state that remembers the same, and has no think block open. */
  predicate SameMemory(s: State, t: State) {
    !t.thinkOpen && t.summaryStreamed == s.summaryStreamed && SameCalls(s, t)
  }

  lemma {:induction false} SilentIff(cfg: Config, s: State, told: seq<Event>, event: Event)
    requires Remembers(s, told) && !s.thinkOpen
    ensures var r := Apply(cfg, s, event);
            && (r.Ok? && r.value.log == s.log <==> SaysNothing(told, event))
            && (r.Ok? && r.value.log == s.log ==> SameMemory(s, r.value))
  {
    match event
    case CallItem(index, callId, name, arguments, done) =>
      CallIsSilentIff(cfg, s, index, callId, name, arguments, done);
    case ArgumentsDone(index, arguments) => CompletionIsSilentIff(s, index, arguments);
    case Terminal(incomplete, usage) => TerminalIsNotSilent(cfg, s, incomplete, usage);
    case _ =>
  }

  lemma {:induction false} TerminalIsNotSilent(cfg: Config, s: State, incomplete: bool, usage: Option<Json>)
    requires !s.thinkOpen
    ensures OnTerminal(cfg, s, incomplete, usage).log != s.log
  {
    var finished := Log.After(s.log, FinishChunk(FinishReason(s, incomplete)));
    assert Length(finished) == Length(s.log) + 1;
    if OnTerminal(cfg, s, incomplete, usage).log != finished {
      assert Length(OnTerminal(cfg, s, incomplete, usage).log) == Length(finished) + 1;
    }
  }

  lemma {:induction false} AllSilentIff(cfg: Config, s: State, told: seq<Event>, jsons: seq<Json>)
    requires Remembers(s, told) && !s.thinkOpen
    ensures Silent(MapperOf(cfg), s, jsons) <==> AllSayNothing(told, jsons)
    decreases |jsons|
  {
    if jsons != [] && Read(jsons[0]).Ok? {
      var event := Read(jsons[0]).value;
      var r := MapperOf(cfg)(s, jsons[0]);
      assert r == Apply(cfg, s, event);
      SilentIff(cfg, s, told, event);
      if r.Ok? && r.value.log == s.log {
        AllSilentIff(cfg, r.value, told, jsons[1..]);
      }
    }
  }

  /** All of them are readable and have nothing to say. */
  predicate AllSayNothing(told: seq<Event>, jsons: seq<Json>) {
    jsons != [] ==> Read(jsons[0]).Ok? && SaysNothing(told, Read(jsons[0]).value) && AllSayNothing(told, jsons[1..])
  }

  // ---- the end of a body ----

  predicate IsEnd(json: Json) { Read(json).Ok? && Read(json).value.Terminal? }

  /** How many events stand before the first that ends the answer. */
  function EndAt(jsons: seq<Json>): (n: nat)
    ensures n <= |jsons| && (n < |jsons| ==> IsEnd(jsons[n])) && forall i :: 0 <= i < n ==> !IsEnd(jsons[i])
  {
    if jsons == [] || IsEnd(jsons[0]) then 0 else 1 + EndAt(jsons[1..])
  }

  /** What the readable ones say. */
  function Told(jsons: seq<Json>): seq<Event> {
    if jsons == [] then [] else (if Read(jsons[0]).Ok? then [Read(jsons[0]).value] else []) + Told(jsons[1..])
  }

  /**
   * A body whose chunks do not matter, from its events: something fails before the end, or nothing that stands
   * behind the end has anything to say.
   */
  predicate ChunksDoNotMatter(cfg: Config, jsons: seq<Json>) {
    var n := EndAt(jsons);
    || MapAll(MapperOf(cfg), INITIAL, jsons[..n]).error.Some?
    || n == |jsons|
    || AllSayNothing(Told(jsons[..n]), jsons[n + 1..])
  }

  lemma {:induction false} ReadableIsTold(cfg: Config, s: State, jsons: seq<Json>)
    requires MapAll(MapperOf(cfg), s, jsons).error.None?
    ensures ReadAs(jsons, Told(jsons))
    decreases |jsons|
  {
    if jsons != [] {
      ReadableIsTold(cfg, MapperOf(cfg)(s, jsons[0]).value, jsons[1..]);
    }
  }

  /** Up to the end of the answer the run is over only when it fails. */
  lemma {:induction false} BeforeTheEnd(cfg: Config, s: State, a: seq<Json>, b: seq<Json>)
    requires !s.terminalSeen && forall i :: 0 <= i < |a| ==> !IsEnd(a[i])
    ensures var m := MapAll(MapperOf(cfg), s, a);
            if m.error.Some? then EndsForGood(MapperOf(cfg), s, a + b)
            else !m.state.terminalSeen
                 && (EndsForGood(MapperOf(cfg), s, a + b) <==> EndsForGood(MapperOf(cfg), m.state, b))
    decreases |a|
  {
    if a == [] {
      assert a + b == b;
    } else {
      var r := MapperOf(cfg)(s, a[0]);
      assert (a + b)[1..] == a[1..] + b && (a + b)[0] == a[0];
      if r.Ok? {
        EventIsQuiet(cfg, s, Read(a[0]).value);
        BeforeTheEnd(cfg, r.value, a[1..], b);
      }
    }
  }

  /** The terminal event changes nothing of what is remembered. */
  lemma {:induction false} EndRemembers(cfg: Config, s: State, told: seq<Event>, incomplete: bool, usage: Option<Json>)
    requires Remembers(s, told)
    ensures var t := OnTerminal(cfg, s, incomplete, usage);
            Remembers(t, told) && !t.thinkOpen && t.terminalSeen
  {
    TerminalLearns(cfg, s, incomplete, usage);
  }

  lemma {:induction false} BehindTheEnd(cfg: Config, s: State, told: seq<Event>, events: seq<Json>)
    requires Remembers(s, told) && events != [] && IsEnd(events[0])
    ensures EndsForGood(MapperOf(cfg), s, events) <==> AllSayNothing(told, events[1..])
  {
    var event := Read(events[0]).value;
    var t := OnTerminal(cfg, s, event.incomplete, event.usage);
    assert MapperOf(cfg)(s, events[0]) == Ok(t);
    EndRemembers(cfg, s, told, event.incomplete, event.usage);
    AllSilentIff(cfg, t, told, events[1..]);
  }

  lemma {:induction false} EndsForGoodIff(cfg: Config, jsons: seq<Json>)
    ensures EndsForGood(MapperOf(cfg), INITIAL, jsons) <==> ChunksDoNotMatter(cfg, jsons)
  {
    var n := EndAt(jsons);
    var m := MapAll(MapperOf(cfg), INITIAL, jsons[..n]);
    UpToTheEnd(cfg, jsons, n, m);
    if m.error.None? {
      BehindIsSilent(cfg, jsons, n, m);
    }
  }

  lemma {:induction false} UpToTheEnd(cfg: Config, jsons: seq<Json>, n: nat, m: Mapped)
    requires n == EndAt(jsons) && m == MapAll(MapperOf(cfg), INITIAL, jsons[..n])
    ensures EndsForGood(MapperOf(cfg), INITIAL, jsons)
            <==> m.error.Some? || EndsForGood(MapperOf(cfg), m.state, jsons[n..])
  {
    assert jsons == jsons[..n] + jsons[n..];
    BeforeTheEnd(cfg, INITIAL, jsons[..n], jsons[n..]);
  }

  lemma {:induction false} BehindIsSilent(cfg: Config, jsons: seq<Json>, n: nat, m: Mapped)
    requires n == EndAt(jsons) && m == MapAll(MapperOf(cfg), INITIAL, jsons[..n]) && m.error.None?
    ensures EndsForGood(MapperOf(cfg), m.state, jsons[n..])
            <==> n == |jsons| || AllSayNothing(Told(jsons[..n]), jsons[n + 1..])
  {
    var behind := jsons[n..];
    if n < |jsons| {
      assert behind[0] == jsons[n] && behind[1..] == jsons[n + 1..];
      FromTheEnd(cfg, jsons[..n], behind, m);
    } else {
      assert behind == [];
    }
  }

  lemma {:induction false} FromTheEnd(cfg: Config, before: seq<Json>, events: seq<Json>, m: Mapped)
    requires m == MapAll(MapperOf(cfg), INITIAL, before) && m.error.None? && events != [] && IsEnd(events[0])
    ensures EndsForGood(MapperOf(cfg), m.state, events) <==> AllSayNothing(Told(before), events[1..])
  {
    AllIsRemembered(cfg, before, m.state);
    BehindTheEnd(cfg, m.state, Told(before), events);
  }

  /** Behind events that were all mapped the machine remembers what they told. */
  lemma {:induction false} AllIsRemembered(cfg: Config, jsons: seq<Json>, t: State)
    requires MapAll(MapperOf(cfg), INITIAL, jsons) == Mapped(t, None)
    ensures Remembers(t, Told(jsons))
  {
    ReadableIsTold(cfg, INITIAL, jsons);
    MapAllApplies(cfg, INITIAL, jsons, Told(jsons));
    InitialRemembers();
    RunRemembers(cfg, INITIAL, [], Told(jsons));
    assert [] + Told(jsons) == Told(jsons);
  }

  /** Every cut of a body gives the client of the adapter the same. */
  ghost predicate AlikeInAllChunks(cfg: Config, read: Sse.FrameReader, b: Bytes) {
    forall x, y :: Sse.Flatten(x) == b && Sse.Flatten(y) == b ==>
      Yields(Run(cfg, read, Arrivals(x))) == Yields(Run(cfg, read, Arrivals(y)))
  }

  lemma {:induction false} PushWhole(read: Sse.FrameReader, b: Bytes)
    requires Sse.Fits(b)
    ensures Sse.PushChunk(read, [], b) == Sse.Drain(read, b)
  {
    assert [] + b == b;
  }

  lemma {:induction false} DriveLast(step: Mapper, read: Sse.FrameReader, s: State, buffer: Bytes)
    requires LastEvents(read, buffer) == Ok([])
    ensures Drive(step, read, s, buffer, []) == Settle(Mapped(s, None))
  {
    assert MapAll(step, s, []) == Mapped(s, None);
  }

  lemma {:induction false} DriveOne(step: Mapper, read: Sse.FrameReader, s: State, item: Upstream, d: Sse.Decoded,
                                    m: Mapped)
    requires item.Arrived? && Sse.PushChunk(read, [], item.bytes) == Ok(d) && m == MapAll(step, s, d.events)
    requires LastEvents(read, d.rest) == Ok([])
    ensures Drive(step, read, s, [], [item]) == Settle(m)
  {
    assert [item][1..] == [];
    DriveLast(step, read, m.state, d.rest);
  }

  lemma {:induction false} OneChunk(step: Mapper, read: Sse.FrameReader, s: State, b: Bytes, d: Sse.Decoded)
    requires Sse.Drain(read, b) == Ok(d) && Sse.Fits(b) && LastEvents(read, d.rest) == Ok([])
    ensures Drive(step, read, s, [], Arrivals([b])) == Settle(MapAll(step, s, d.events))
  {
    PushWhole(read, b);
    DriveOne(step, read, s, Arrived(b), d, MapAll(step, s, d.events));
    assert [b][1..] == [] && Arrivals([b]) == [Arrived(b)] + [] == [Arrived(b)];
  }

  /**
   * When the chunks of a body do not matter to the client of the adapter, read off its events: something fails
   * before the end of the answer, or nothing behind the end has anything to say. Otherwise two cuts of the same
   * bytes give the client different chunks or a different ending.
   */
  lemma {:induction false} BodyChunksMatterUnless(cfg: Config, read: Sse.FrameReader, b: Bytes, d: Sse.Decoded)
    requires Sse.Drain(read, b) == Ok(d) && Sse.Fits(b) && LastEvents(read, d.rest) == Ok([])
    ensures AlikeInAllChunks(cfg, read, b) <==> ChunksDoNotMatter(cfg, d.events)
  {
    var step := MapperOf(cfg);
    MachineStaysEnded(cfg);
    OneChunk(step, read, INITIAL, b, d);
    FlattenOne(b);
    EndsForGoodIff(cfg, d.events);
    ChunkingMattersUnless(step, read, INITIAL, b, d);
    if AlikeInAllChunks(cfg, read, b) {
      forall chunks | Sse.Flatten(chunks) == b
        ensures Yields(Drive(step, read, INITIAL, [], Arrivals(chunks)))
                == Yields(Settle(MapAll(step, INITIAL, d.events)))
      {
        assert Yields(Run(cfg, read, Arrivals(chunks))) == Yields(Run(cfg, read, Arrivals([b])));
      }
    }
  }

  // ---- a body whose chunks do matter ----

  const COMPLETED := Object(map["type" := String("response.completed")])

  function LateText(text: string): Json {
    Object(map["type" := String("response.output_text.delta"), "delta" := String(text)])
  }

  lemma {:induction false} ReadsCompleted()
    ensures Read(COMPLETED) == Ok(Terminal(false, None))
  {
    assert COMPLETED.GetString("type") == Some("response.completed");
  }

  lemma {:induction false} ReadsLateText(text: string)
    ensures Read(LateText(text)) == Ok(TextDelta(text))
  {
    assert LateText(text).GetString("type") == Some("response.output_text.delta");
    assert LateText(text).GetString("delta") == Some(text);
  }

  lemma {:induction false} EndThenText(cfg: Config, text: string)
    requires text != ""
    ensures var step := MapperOf(cfg);
            var ended := After(After(Empty, RoleChunk), FinishChunk("stop"));
            && MapAll(step, INITIAL, [COMPLETED]).error.None? && MapAll(step, INITIAL, [COMPLETED]).state.terminalSeen
            && MapAll(step, INITIAL, [COMPLETED]).state.log == ended
            && MapAll(step, INITIAL, [COMPLETED, LateText(text)]).error.None?
            && MapAll(step, INITIAL, [COMPLETED, LateText(text)]).state.terminalSeen
            && MapAll(step, INITIAL, [COMPLETED, LateText(text)]).state.log == After(ended, ContentChunk([Plain(text)]))
  {
    var step := MapperOf(cfg);
    ReadsCompleted();
    ReadsLateText(text);
    var t := OnTerminal(cfg, INITIAL, false, None);
    var u := OnTextDelta(t, text);
    assert step(INITIAL, COMPLETED) == Ok(t) && step(t, LateText(text)) == Ok(u);
    assert [COMPLETED][1..] == [] && [COMPLETED, LateText(text)][1..] == [LateText(text)]
           && [LateText(text)][1..] == [];
    assert MapAll(step, t, []) == Mapped(t, None) && MapAll(step, u, []) == Mapped(u, None);
    assert MapAll(step, t, [LateText(text)]) == Mapped(u, None);
  }

  /** Text behind the finish: in one chunk with the end it is sent, in the next chunk it is not. */
  lemma {:induction false} LateTextDependsOnChunks(cfg: Config, parse: SseBytes.Parser, end: Sse.Frame, late: Sse.Frame,
                                                   text: string)
    returns (together: seq<Bytes>, apart: seq<Bytes>)
    requires Sse.Sendable(parse, end) && Sse.Sendable(parse, late) && text != ""
    requires Sse.Meant(parse, end) == Some(COMPLETED) && Sse.Meant(parse, late) == Some(LateText(text))
    ensures Sse.Flatten(together) == Sse.Flatten(apart) == end.Encode() + late.Encode()
    ensures Yields(Run(cfg, Sse.Reader(parse), Arrivals(together)))
            == [Chunked(RoleChunk), Chunked(FinishChunk("stop")), Chunked(ContentChunk([Plain(text)]))]
    ensures Yields(Run(cfg, Sse.Reader(parse), Arrivals(apart))) == [Chunked(RoleChunk), Chunked(FinishChunk("stop"))]
  {
    var first, second, both := FramesTogether(parse, end, late);
    together, apart := [both], [first, second];
    FlattenTwo(first, second);
    FlattenOne(both);
    assert [COMPLETED] + [LateText(text)] == [COMPLETED, LateText(text)];
    EndInFirstChunk(cfg, Sse.Reader(parse), together, apart, text);
  }

  lemma {:induction false} FlattenOne(x: Bytes)
    ensures Sse.Flatten([x]) == x
  {
    assert [x][1..] == [] && x + [] == x;
  }

  lemma {:induction false} EndInFirstChunk(cfg: Config, read: Sse.FrameReader, x: seq<Bytes>,
                                           y: seq<Bytes>, text: string)
    requires text != "" && x != [] && Sse.NextFrame(x[0]).Some? && y != [] && Sse.NextFrame(y[0]).Some?
    requires Sse.Drain(read, x[0]) == Ok(Sse.Decoded([COMPLETED, LateText(text)], []))
    requires Sse.Drain(read, y[0]) == Ok(Sse.Decoded([COMPLETED], []))
    ensures Yields(Run(cfg, read, Arrivals(x)))
            == [Chunked(RoleChunk), Chunked(FinishChunk("stop")), Chunked(ContentChunk([Plain(text)]))]
    ensures Yields(Run(cfg, read, Arrivals(y))) == [Chunked(RoleChunk), Chunked(FinishChunk("stop"))]
  {
    var step := MapperOf(cfg);
    var ended := Log.After(After(Empty, RoleChunk), FinishChunk("stop"));
    EndThenText(cfg, text);
    DriveFirst(step, read, INITIAL, x, [COMPLETED, LateText(text)]);
    DriveFirst(step, read, INITIAL, y, [COMPLETED]);
    TwoChunks(RoleChunk, FinishChunk("stop"), ContentChunk([Plain(text)]));
  }

  lemma {:induction false} TwoChunks(a: Chunk, b: Chunk, c: Chunk)
    ensures Given(After(After(Empty, a), b)) == [Chunked(a), Chunked(b)]
    ensures Given(After(After(After(Empty, a), b), c)) == [Chunked(a), Chunked(b), Chunked(c)]
  {
    assert After(Empty, a).Chunks() == [] + [a] == [a];
    assert After(After(Empty, a), b).Chunks() == [a] + [b] == [a, b];
    assert After(After(After(Empty, a), b), c).Chunks() == [a, b] + [c] == [a, b, c];
  }

  lemma {:induction false} FramesTogether(parse: SseBytes.Parser, x: Sse.Frame, y: Sse.Frame)
    returns (first: Bytes, second: Bytes, both: Bytes)
    requires Sse.Sendable(parse, x) && Sse.Sendable(parse, y)
    requires Sse.Meant(parse, x).Some? && Sse.Meant(parse, y).Some?
    ensures first == x.Encode() && second == y.Encode() && both == first + second
    ensures Sse.NextFrame(first).Some? && Sse.NextFrame(both).Some?
    ensures Sse.Drain(Sse.Reader(parse), first) == Ok(Sse.Decoded([Sse.Meant(parse, x).value], []))
    ensures Sse.Drain(Sse.Reader(parse), both)
            == Ok(Sse.Decoded([Sse.Meant(parse, x).value] + [Sse.Meant(parse, y).value], []))
  {
    first, second := x.Encode(), y.Encode();
    both := first + second;
    FrameAlone(parse, x);
    FrameAlone(parse, y);
    FrameAndMore(Sse.Reader(parse), first, x.Text(), second, [Sse.Meant(parse, y).value]);
  }

  lemma {:induction false} FrameAlone(parse: SseBytes.Parser, x: Sse.Frame)
    requires Sse.Sendable(parse, x) && Sse.Meant(parse, x).Some?
    ensures Sse.NextFrame(x.Encode()) == Some(Sse.Cut(x.Text(), []))
    ensures Sse.Reader(parse)(x.Text()) == Ok(Sse.Meant(parse, x))
    ensures Sse.Drain(Sse.Reader(parse), x.Encode()) == Ok(Sse.Decoded([Sse.Meant(parse, x).value], []))
  {
    var b, event := x.Encode(), Sse.Meant(parse, x).value;
    Sse.FrameIsFirst(parse, x, []);
    assert b + [] == b;
    NothingToDrain(Sse.Reader(parse));
    DrainFirst(Sse.Reader(parse), b, Sse.Cut(x.Text(), []));
    assert [event] + [] == [event];
  }
}
