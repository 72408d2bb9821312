/** The adapter's stream driver: decoding, mapping, and how every run ends. */
module ChatStreamRuns {
  import opened Prelude
  import opened Json
  import opened Capsule
  import opened ChatSchema
  import opened ChatReplay
  import opened ChatRoundTrip
  import opened ChatEvents
  import opened ChatStream
  import opened ChatStreamInvariant
  import Sse = SseDecoding
  import SseBytes

  // ---- mapping a batch of events ----

  /** The state the machine was left in, and the error that stopped it. */
  datatype Mapped = Mapped(state: State, error: Option<StreamError>)

  /** How one event is mapped; the driver maps it with MapEvent. */
  type Mapper = (State, Json) -> Result<State, StreamError>

  function MapperOf(cfg: Config): Mapper { (s, event) => MapEvent(cfg, s, event) }

  function MapAll(step: Mapper, s: State, events: seq<Json>): Mapped
    decreases |events|
  {
    if events == [] then Mapped(s, None)
    else match step(s, events[0])
      case Err(e) => Mapped(s, Some(e))
      case Ok(t) => MapAll(step, t, events[1..])
  }

  lemma {:induction false} EventKeeps(cfg: Config, s: State, event: Json)
    requires Inv(cfg, s) && MapEvent(cfg, s, event).Ok?
    ensures Inv(cfg, MapEvent(cfg, s, event).value)
  {
    ApplyKeeps(cfg, s, Read(event).value);
  }

  lemma {:induction false} MapAllKeeps(cfg: Config, s: State, events: seq<Json>)
    requires Inv(cfg, s)
    ensures Inv(cfg, MapAll(MapperOf(cfg), s, events).state)
    decreases |events|
  {
    if events != [] {
      var next := MapperOf(cfg)(s, events[0]);
      if next.Ok? {
        EventKeeps(cfg, s, events[0]);
        MapAllKeeps(cfg, next.value, events[1..]);
      }
    }
  }

  lemma {:induction false} MapAllAppend(step: Mapper, s: State, a: seq<Json>, b: seq<Json>)
    ensures MapAll(step, s, a + b)
            == var m := MapAll(step, s, a); if m.error.Some? then m else MapAll(step, m.state, b)
    decreases |a|
  {
    if a == [] {
      assert a + b == b;
    } else {
      assert (a + b)[1..] == a[1..] + b;
      if step(s, a[0]).Ok? {
        MapAllAppend(step, step(s, a[0]).value, a[1..], b);
      }
    }
  }

  // ---- the driver ----

  /** What arrives from upstream, until its body ends. */
  datatype Upstream = Arrived(bytes: Bytes) | Broken(reason: string)

  datatype DriveError =
    | Transport(reason: string)
    | Undecodable(cause: Sse.DecodeError)
    | Unmappable(error: StreamError)
    | NoTerminalEvent

  /** How a run ended: all its chunks are in the state's log; an error, if any, was yielded behind them. */
  datatype Driven = Driven(state: State, failure: Option<DriveError>)

  /** The end of the upstream body: what is buffered is one last frame, unless it is blank. */
  function LastEvents(read: Sse.FrameReader, buffer: Bytes): Result<seq<Json>, Sse.DecodeError> {
    if forall byte <- buffer :: SseBytes.IsAsciiWhitespace(byte) then Ok([])
    else match read(buffer)
      case Err(e) => Err(e)
      case Ok(event) => Ok(Sse.EventsOf(event))
  }

  function Settle(m: Mapped): Driven {
    match m.error
    case Some(e) => Driven(m.state, Some(Unmappable(e)))
    case None => Driven(m.state, if m.state.terminalSeen then None else Some(NoTerminalEvent))
  }

  function Drive(step: Mapper, read: Sse.FrameReader, s: State, buffer: Bytes, upstream: seq<Upstream>): Driven
    decreases |upstream|
  {
    if upstream == [] then
      match LastEvents(read, buffer)
      case Err(e) => Driven(s, Some(Undecodable(e)))
      case Ok(events) => Settle(MapAll(step, s, events))
    else match upstream[0]
      case Broken(reason) => Driven(s, Some(Transport(reason)))
      case Arrived(bytes) =>
        match Sse.PushChunk(read, buffer, bytes)
        case Err(e) => Driven(s, Some(Undecodable(e)))
        case Ok(d) =>
          var m := MapAll(step, s, d.events);
          if m.error.Some? || m.state.terminalSeen then Settle(m)
          else Drive(step, read, m.state, d.rest, upstream[1..])
  }

  /** What the client is given: the chunks in order, then the error. */
  datatype Yield = Chunked(chunk: Chunk) | Errored(error: DriveError)

  function GivenChunks(chunks: seq<Chunk>): (r: seq<Yield>)
    ensures |r| == |chunks| && forall i :: 0 <= i < |r| ==> r[i] == Chunked(chunks[i])
  {
    seq(|chunks|, i requires 0 <= i < |chunks| => Chunked(chunks[i]))
  }

  function Given(log: Log): seq<Yield> { GivenChunks(log.Chunks()) }

  function Yields(d: Driven): seq<Yield> {
    Given(d.state.log) + match d.failure case None => [] case Some(e) => [Errored(e)]
  }

  lemma {:induction false} DriveKeeps(cfg: Config, read: Sse.FrameReader, s: State, buffer: Bytes,
                                      upstream: seq<Upstream>)
    requires Inv(cfg, s)
    ensures var d := Drive(MapperOf(cfg), read, s, buffer, upstream);
            Inv(cfg, d.state) && (d.failure.None? ==> d.state.terminalSeen)
    decreases |upstream|
  {
    if upstream == [] {
      if LastEvents(read, buffer).Ok? {
        MapAllKeeps(cfg, s, LastEvents(read, buffer).value);
      }
    } else if upstream[0].Arrived? && Sse.PushChunk(read, buffer, upstream[0].bytes).Ok? {
      var d := Sse.PushChunk(read, buffer, upstream[0].bytes).value;
      MapAllKeeps(cfg, s, d.events);
      var m := MapAll(MapperOf(cfg), s, d.events);
      if m.error.None? && !m.state.terminalSeen {
        DriveKeeps(cfg, read, m.state, d.rest, upstream[1..]);
      }
    }
  }

  function Run(cfg: Config, read: Sse.FrameReader, upstream: seq<Upstream>): Driven {
    Drive(MapperOf(cfg), read, INITIAL, [], upstream)
  }

  lemma {:induction false} FinishIsAmongChunks(log: Log)
    requires FinishSent(log)
    ensures exists c <- log.Chunks() :: c.FinishChunk?
  {
    if log.last.FinishChunk? {
      assert log.last in log.Chunks();
    } else {
      FinishIsAmongChunks(log.before);
      var c :| c in log.before.Chunks() && c.FinishChunk?;
      assert c in log.Chunks();
    }
  }

  /** Every run, whatever arrives, either given an error as its last item or has yielded a finish chunk. */
  lemma {:induction false} EveryRunEndsVisibly(cfg: Config, read: Sse.FrameReader, upstream: seq<Upstream>)
    ensures var d := Run(cfg, read, upstream);
            var given := Yields(d);
            && given != []
            && (forall i :: 0 <= i < |given| - 1 ==> given[i].Chunked?)
            && (given[|given| - 1].Errored? || exists y <- given :: y.Chunked? && y.chunk.FinishChunk?)
  {
    InitialInv(cfg);
    DriveKeeps(cfg, read, INITIAL, [], upstream);
    var d := Run(cfg, read, upstream);
    if d.failure.None? {
      FinishIsAmongChunks(d.state.log);
      var chunks := d.state.log.Chunks();
      var i :| 0 <= i < |chunks| && chunks[i].FinishChunk?;
      assert Yields(d)[i] == Chunked(chunks[i]);
    }
  }

  /** In every run the think tags alternate, and none is open at a tool announcement or at the finish. */
  lemma {:induction false} ThinkTagsAreBalanced(cfg: Config, read: Sse.FrameReader, upstream: seq<Upstream>)
    ensures var s := Run(cfg, read, upstream).state;
            ThinkOf(s.log) == Some(s.thinkOpen)
  {
    InitialInv(cfg);
    DriveKeeps(cfg, read, INITIAL, [], upstream);
  }

  /**
   * In every run the announced positions are 0, 1, 2, ..., in the order in which their output indices were
   * first seen, one for each; arguments are sent only for announced tools, and what was sent for a tool
   * is what the machine has accumulated for it.
   */
  lemma {:induction false} ToolsAreNumberedDensely(cfg: Config, read: Sse.FrameReader, upstream: seq<Upstream>)
    ensures var s := Run(cfg, read, upstream).state;
            && StartsOf(s.log).Some? && |StartsOf(s.log).value| == |s.announced|
            && (forall i, j :: 0 <= i < j < |s.announced| ==> s.announced[i].outputIndex != s.announced[j].outputIndex)
            && (forall k :: 0 <= k < |s.announced| ==>
                  var o := s.announced[k].outputIndex;
                  && o in s.toolIndices && s.toolIndices[o] == k
                  && o in s.toolArguments && s.toolArguments[o] == ArgumentsSent(s.log, k))
  {
    InitialInv(cfg);
    DriveKeeps(cfg, read, INITIAL, [], upstream);
  }

  // ---- completed arguments ----

  predicate Completes(event: Event, index: nat, arguments: string) {
    || event == ArgumentsDone(index, arguments)
    || (event.CallItem? && event.done && event.index == index && event.arguments == arguments)
  }

  /**
   * After an accepted completion the fragments sent for the tool are together exactly its arguments, and
   * the same completion again sends nothing; for a tool never announced only empty ones are accepted.
   */
  lemma {:induction false} CompletionIsExact(cfg: Config, s: State, event: Event, index: nat, arguments: string)
    requires Inv(cfg, s) && Completes(event, index, arguments) && Apply(cfg, s, event).Ok?
    ensures var t := Apply(cfg, s, event).value;
            && (if index in t.toolIndices then ArgumentsSent(t.log, t.toolIndices[index]) == arguments
                else arguments == "")
            && Apply(cfg, t, ArgumentsDone(index, arguments)) == Ok(t)
  {
    var t := Apply(cfg, s, event).value;
    ApplyKeeps(cfg, s, event);
    match event
    case ArgumentsDone(_, _) =>
      CompletedIsAccumulated(s, index, arguments);
    case CallItem(_, callId, name, _, _) =>
      CloseThinkKeeps(cfg, s);
      CompletedCallIsAccumulated(cfg, CloseThink(s), index, callId, name, arguments);
    AccumulatedIsSent(cfg, t, index, arguments);
  }

  lemma {:induction false} AccumulatedIsSent(cfg: Config, t: State, index: nat, arguments: string)
    requires Inv(cfg, t) && Accumulated(t, index) == arguments
    ensures if index in t.toolIndices then ArgumentsSent(t.log, t.toolIndices[index]) == arguments else arguments == ""
    ensures Apply(cfg, t, ArgumentsDone(index, arguments)) == Ok(t)
  {
  }

  lemma {:induction false} CompletedCallIsAccumulated(cfg: Config, s: State, index: nat, callId: string,
                                                      name: string, arguments: string)
    requires Inv(cfg, s) && !s.thinkOpen && Announce(cfg, s, index, callId, name).Ok?
    requires CompleteArguments(Announce(cfg, s, index, callId, name).value, index, arguments).Ok?
    ensures Accumulated(CompleteArguments(Announce(cfg, s, index, callId, name).value, index, arguments).value, index)
            == arguments
  {
    var u := Announce(cfg, s, index, callId, name).value;
    if index !in s.toolIndices {
      AnnouncedKeeps(cfg, s, Announcement(index, callId, name), cfg.mint(callId, Items(s.reasoning)).value);
    }
    CompletedIsAccumulated(u, index, arguments);
  }

  lemma {:induction false} CompletedIsAccumulated(s: State, index: nat, arguments: string)
    requires CompleteArguments(s, index, arguments).Ok? && s.toolArguments.Keys == s.toolIndices.Keys
    ensures Accumulated(CompleteArguments(s, index, arguments).value, index) == arguments
    ensures CompleteArguments(s, index, arguments).value.toolIndices == s.toolIndices
  {
    var sent := Accumulated(s, index);
    if arguments != sent {
      var suffix := StripPrefix(arguments, sent).value;
      assert arguments == sent + suffix;
    }
  }

  // ---- replayable tool turns ----

  lemma {:induction false} CallItemFreezes(cfg: Config, s: State, index: nat, callId: string, name: string,
                                           arguments: string, done: bool)
    requires s.toolCallsSeen && OnCallItem(cfg, s, index, callId, name, arguments, done).Ok?
    ensures var t := OnCallItem(cfg, s, index, callId, name, arguments, done).value;
            t.reasoning == s.reasoning && t.toolCallsSeen
  {
    var u := Announce(cfg, CloseThink(s), index, callId, name).value;
    assert u.reasoning == s.reasoning && u.toolCallsSeen;
  }

  lemma {:induction false} EventFreezes(cfg: Config, s: State, event: Event)
    requires s.toolCallsSeen && Apply(cfg, s, event).Ok?
    ensures var t := Apply(cfg, s, event).value; t.reasoning == s.reasoning && t.toolCallsSeen
  {
    match event
    case CallItem(index, callId, name, arguments, done) =>
      CallItemFreezes(cfg, s, index, callId, name, arguments, done);
    case _ =>
  }

  /** Once a tool is announced the reasoning items never change again. */
  lemma {:induction false} ReasoningIsFrozen(cfg: Config, s: State, events: seq<Json>)
    requires s.toolCallsSeen
    ensures var t := MapAll(MapperOf(cfg), s, events).state; t.reasoning == s.reasoning && t.toolCallsSeen
    decreases |events|
  {
    if events != [] {
      var next := MapperOf(cfg)(s, events[0]);
      if next.Ok? {
        EventFreezes(cfg, s, Read(events[0]).value);
        ReasoningIsFrozen(cfg, next.value, events[1..]);
      }
    }
  }

  function AllArguments(log: Log, n: nat): seq<string> { seq(n, k requires 0 <= k < n => ArgumentsSent(log, k)) }

  function AssembledFrom(starts: seq<Start>, arguments: seq<string>): seq<ToolCall>
    requires |starts| == |arguments|
  {
    seq(|starts|, k requires 0 <= k < |starts| =>
      ToolCall(Some(k), Some(starts[k].id), Some(starts[k].name), arguments[k]))
  }

  function MadeFrom(calls: seq<Announcement>, arguments: seq<string>): seq<Call>
    requires |calls| == |arguments|
  {
    seq(|calls|, k requires 0 <= k < |calls| => Call(calls[k].callId, calls[k].name, arguments[k]))
  }

  /** The tool calls as a client puts them together from the chunks. */
  function Assembled(log: Log): seq<ToolCall>
    requires StartsOf(log).Some?
  {
    AssembledFrom(StartsOf(log).value, AllArguments(log, |StartsOf(log).value|))
  }

  /** The same calls, as upstream made them. */
  function CallsMade(s: State): seq<Call> { MadeFrom(s.announced, AllArguments(s.log, |s.announced|)) }

  /** Every announcement has the id that the mint gives its call. */
  predicate AllWired(mint: IdMint, calls: seq<Announcement>, starts: seq<Start>) {
    |starts| == |calls|
    && forall k :: 0 <= k < |calls| ==> starts[k].name == calls[k].name && mint(calls[k].callId) == Ok(starts[k].id)
  }

  lemma {:induction false} MintedAreWired(cfg: Config, lib: Library, runtime: Runtime, items: seq<Json>,
                                          calls: seq<Announcement>, starts: seq<Start>)
    requires cfg.mint == MinterOf(lib, runtime) && AllMinted(cfg, items, calls, starts)
    ensures AllWired(WireIds(lib, items, runtime.keyring), calls, starts)
  {
    forall k | 0 <= k < |calls|
      ensures starts[k].name == calls[k].name
              && WireIds(lib, items, runtime.keyring)(calls[k].callId) == Ok(starts[k].id)
    {
      assert MintedAs(cfg, items, calls[k], starts[k]);
      MintedIsWired(lib, runtime, calls[k].callId, items, starts[k].id);
    }
  }

  lemma {:induction false} MintedIsWired(lib: Library, runtime: Runtime, callId: string, items: seq<Json>, id: string)
    requires MinterOf(lib, runtime)(callId, items) == Ok(id)
    ensures WireIds(lib, items, runtime.keyring)(callId) == Ok(id)
  {
  }

  /** The streamed calls have the ids that the non-streaming adapter would have given the same calls. */
  lemma {:induction false} AssembledAreWired(mint: IdMint, calls: seq<Announcement>, starts: seq<Start>,
                                             arguments: seq<string>)
    requires AllWired(mint, calls, starts) && |arguments| == |calls|
    ensures WireCalls(mint, MadeFrom(calls, arguments)) == Ok(AssembledFrom(starts, arguments))
    decreases |calls|
  {
    if calls == [] {
      assert MadeFrom(calls, arguments) == [] && AssembledFrom(starts, arguments) == [];
    } else {
      var n := |calls| - 1;
      AssembledAreWired(mint, calls[..n], starts[..n], arguments[..n]);
      MoreMade(calls, starts, arguments);
      WiredMore(mint, MadeFrom(calls[..n], arguments[..n]), AssembledFrom(starts[..n], arguments[..n]),
                Call(calls[n].callId, calls[n].name, arguments[n]), starts[n].id);
    }
  }

  lemma {:induction false} MoreMade(calls: seq<Announcement>, starts: seq<Start>, arguments: seq<string>)
    requires |calls| == |starts| == |arguments| > 0
    ensures var n := |calls| - 1;
            && MadeFrom(calls, arguments)
               == MadeFrom(calls[..n], arguments[..n]) + [Call(calls[n].callId, calls[n].name, arguments[n])]
            && (starts[n].name == calls[n].name ==>
                  AssembledFrom(starts, arguments)
                  == AssembledFrom(starts[..n], arguments[..n])
                     + [ToolCall(Some(n), Some(starts[n].id), Some(calls[n].name), arguments[n])])
  {
  }

  lemma {:induction false} WiredMore(mint: IdMint, calls: seq<Call>, wired: seq<ToolCall>, call: Call, id: string)
    requires WireCalls(mint, calls) == Ok(wired) && mint(call.callId) == Ok(id)
    ensures WireCalls(mint, calls + [call])
            == Ok(wired + [ToolCall(Some(|calls|), Some(id), Some(call.name), call.arguments)])
  {
    var longer := calls + [call];
    assert longer[..|longer| - 1] == calls && longer[|longer| - 1] == call;
  }

  /** What the collector makes of a run's tool calls. */
  function CollectedFrom(s: State): Collected {
    var none := s.reasoning == [] || s.announced == [];
    Collected(FunctionCalls(CallsMade(s)), if none then None else Some(Items(s.reasoning)),
              s.reasoning == [] && s.announced != [])
  }

  lemma {:induction false} StateIsReplayable(cfg: Config, lib: Library, runtime: Runtime, s: State, keyring: Keyring)
    requires Lawful(lib) && cfg.mint == MinterOf(lib, runtime) && Minted(cfg, s)
    requires if s.reasoning == [] then IdsAreUpstreams(CallsMade(s)) else Keeps(runtime.keyring, keyring)
    ensures Collect(Collecting(lib, keyring), Assembled(s.log)) == Ok(CollectedFrom(s))
  {
    var calls, items := CallsMade(s), Items(s.reasoning);
    MintedAreWired(cfg, lib, runtime, items, s.announced, StartsOf(s.log).value);
    AssembledAreWired(WireIds(lib, items, runtime.keyring), s.announced, StartsOf(s.log).value,
                      AllArguments(s.log, |s.announced|));
    WiredCallsAreCollected(lib, calls, items, runtime.keyring, keyring);
  }

  lemma {:induction false} UnmixedIsAccepted(lib: Library, keyring: Keyring, content: Option<Content>,
                                             calls: seq<ToolCall>)
    requires Collect(Collecting(lib, keyring), calls).Ok?
    requires Collect(Collecting(lib, keyring), calls).value.rawSeen ==>
               Collect(Collecting(lib, keyring), calls).value.shared.None?
    ensures AssistantItems(lib, keyring, content, calls).Ok?
  {
  }

  /**
   * Every streamed tool turn can be replayed: at any point of any run, the calls a client has put together
   * are accepted back whatever content it sends with them, and give the upstream id, name and arguments
   * of every call; they share the turn's reasoning items, or have none. The keyring need only keep the
   * signing key; without reasoning the upstream ids must not look like capsules.
   */
  lemma {:induction false} StreamedTurnIsReplayable(cfg: Config, lib: Library, runtime: Runtime,
                                                    read: Sse.FrameReader, upstream: seq<Upstream>,
                                                    keyring: Keyring, content: Option<Content>)
    requires Lawful(lib) && cfg.mint == MinterOf(lib, runtime)
    requires var s := Run(cfg, read, upstream).state;
             if s.reasoning == [] then IdsAreUpstreams(CallsMade(s)) else Keeps(runtime.keyring, keyring)
    ensures var s := Run(cfg, read, upstream).state;
            && StartsOf(s.log).Some?
            && Collect(Collecting(lib, keyring), Assembled(s.log)) == Ok(CollectedFrom(s))
            && AssistantItems(lib, keyring, content, Assembled(s.log)).Ok?
  {
    var s := Run(cfg, read, upstream).state;
    InitialInv(cfg);
    DriveKeeps(cfg, read, INITIAL, [], upstream);
    StateIsReplayable(cfg, lib, runtime, s, keyring);
    UnmixedIsAccepted(lib, keyring, content, Assembled(s.log));
  }
}
