/**
 * The adapter's stream state as the object it is, and the driver that feeds it. Each method is tied to the
 * function of ChatStream that specifies it. After an error the driver drops the object, so its methods say
 * nothing of the state they leave then.
 */
module ChatMachine {
  import opened Prelude
  import opened Json
  import opened ChatReplay
  import opened ChatEvents
  import Spec = ChatStream
  import opened ChatStreamRuns
  import Sse = SseDecoding

  type Chunk = Spec.Chunk

  class ResponsesChatStreamState {
    const cfg: Spec.Config
    var reasoningItems: seq<Spec.Entry>
    var summary: string
    var summaryStreamed: bool
    var thinkOpen: bool
    var toolIndices: map<nat, nat>
    var toolArguments: map<nat, string>
    var toolCallsSeen: bool
    var terminalSeen: bool
    var finishReason: Option<string>
    ghost var announced: seq<Spec.Announcement>
    ghost var log: Spec.Log

    ghost function View(): Spec.State
      reads this
    {
      Spec.State(reasoningItems, summary, summaryStreamed, thinkOpen, toolIndices, toolArguments, toolCallsSeen,
                 terminalSeen, finishReason, announced, log)
    }

    /** The chunks sent since an earlier log. */
    ghost predicate Sent(earlier: Spec.Log, output: seq<Chunk>)
      reads this
    {
      log.Chunks() == earlier.Chunks() + output
    }

    constructor (cfg: Spec.Config)
      ensures this.cfg == cfg && View() == Spec.INITIAL
    {
      this.cfg := cfg;
      reasoningItems, summary, summaryStreamed, thinkOpen := [], "", false, false;
      toolIndices, toolArguments, toolCallsSeen := map[], map[], false;
      terminalSeen, finishReason := false, None;
      announced, log := [], Spec.After(Spec.Empty, Spec.RoleChunk);
    }

    method CloseThink() returns (output: seq<Chunk>)
      modifies this
      ensures View() == Spec.CloseThink(old(View())) && Sent(old(log), output)
    {
      output := [];
      if thinkOpen {
        thinkOpen := false;
        output := [Spec.ContentChunk([Spec.Close])];
        log := Spec.After(log, output[0]);
      }
    }

    method StoreReasoningItem(index: nat, item: Json)
      modifies this`reasoningItems
      ensures reasoningItems == Spec.Store(old(reasoningItems), index, item)
    {
      var kept := item;
      var existing := Spec.Lookup(reasoningItems, index);
      if existing.Some? {
        kept := Spec.Inherit(kept, existing.value, "encrypted_content");
        kept := Spec.Inherit(kept, existing.value, "summary");
      }
      reasoningItems := Spec.Insert(reasoningItems, index, kept);
    }

    method ToolMetadataChunk(index: nat, callId: string, name: string)
      returns (r: Result<Chunk, Spec.StreamError>)
      requires index !in toolIndices
      modifies this
      ensures r.Err? ==> Spec.Announce(cfg, old(View()), index, callId, name) == Err(r.error)
      ensures r.Ok? ==> Spec.Announce(cfg, old(View()), index, callId, name) == Ok(View()) && Sent(old(log), [r.value])
    {
      var position := |toolIndices|;
      toolIndices := toolIndices[index := position];
      if index !in toolArguments {
        toolArguments := toolArguments[index := ""];
      }
      toolCallsSeen := true;
      var id := cfg.mint(callId, Spec.Items(reasoningItems));
      if id.Err? {
        return Err(id.error);
      }
      var chunk := Spec.ToolStart(position, id.value, name);
      announced := announced + [Spec.Announcement(index, callId, name)];
      log := Spec.After(log, chunk);
      return Ok(chunk);
    }

    method ToolArgumentsChunk(index: nat, delta: string) returns (r: Result<seq<Chunk>, Spec.StreamError>)
      modifies this
      ensures r.Err? ==> Spec.AppendArguments(old(View()), index, delta) == Err(r.error)
      ensures r.Ok? ==> Spec.AppendArguments(old(View()), index, delta) == Ok(View()) && Sent(old(log), r.value)
    {
      if delta == "" {
        return Ok([]);
      }
      if index !in toolIndices {
        return Err(Spec.ArgumentsBeforeMetadata);
      }
      var accumulated := if index in toolArguments then toolArguments[index] else "";
      toolArguments := toolArguments[index := accumulated + delta];
      var chunk := Spec.ToolArguments(toolIndices[index], delta);
      log := Spec.After(log, chunk);
      return Ok([chunk]);
    }

    method CompleteToolArguments(index: nat, arguments: string) returns (r: Result<seq<Chunk>, Spec.StreamError>)
      modifies this
      ensures r.Err? ==> Spec.CompleteArguments(old(View()), index, arguments) == Err(r.error)
      ensures r.Ok? ==> Spec.CompleteArguments(old(View()), index, arguments) == Ok(View()) && Sent(old(log), r.value)
    {
      var accumulated := if index in toolArguments then toolArguments[index] else "";
      if arguments == accumulated {
        return Ok([]);
      }
      var suffix := StripPrefix(arguments, accumulated);
      if suffix.None? {
        return Err(Spec.ArgumentsMismatch);
      }
      r := ToolArgumentsChunk(index, suffix.value);
    }

    method Say(tokens: seq<Spec.Token>) returns (chunk: Chunk)
      modifies this`log
      ensures chunk == Spec.ContentChunk(tokens) && log == Spec.After(old(log), chunk)
    {
      chunk := Spec.ContentChunk(tokens);
      log := Spec.After(log, chunk);
    }

    method OnSummaryDelta(delta: string) returns (output: seq<Chunk>)
      modifies this
      ensures View() == Spec.OnSummaryDelta(old(View()), delta) && Sent(old(log), output)
    {
      if delta == "" {
        return [];
      }
      summary := summary + delta;
      summaryStreamed := true;
      var rendered := [Spec.Plain(delta)];
      if !thinkOpen {
        thinkOpen := true;
        rendered := [Spec.Open, Spec.Plain(delta)];
      }
      var chunk := Say(rendered);
      return [chunk];
    }

    method OnSummaryDone(text: string) returns (output: seq<Chunk>)
      modifies this
      ensures View() == Spec.OnSummaryDone(old(View()), text) && Sent(old(log), output)
    {
      summary := text;
      if !summaryStreamed && text != "" {
        var chunk := Say([Spec.Open, Spec.Plain(text), Spec.Close]);
        return [chunk];
      }
      output := CloseThink();
    }

    method OnTextDelta(delta: string) returns (output: seq<Chunk>)
      modifies this
      ensures View() == Spec.OnTextDelta(old(View()), delta) && Sent(old(log), output)
    {
      output := CloseThink();
      if delta != "" {
        var chunk := Say([Spec.Plain(delta)]);
        output := output + [chunk];
      }
    }

    method OnReasoningItem(index: nat, item: Json, done: bool) returns (r: Result<seq<Chunk>, Spec.StreamError>)
      modifies this
      ensures r.Err? ==> Spec.OnReasoningItem(old(View()), index, item, done) == Err(r.error)
      ensures r.Ok? ==> Spec.OnReasoningItem(old(View()), index, item, done) == Ok(View()) && Sent(old(log), r.value)
    {
      if toolCallsSeen {
        return Err(Spec.ReasoningAfterCall);
      }
      StoreReasoningItem(index, item);
      if done && !summaryStreamed {
        var text := ItemSummary(item);
        if text != "" {
          summary := text;
          var chunk := Say([Spec.Open, Spec.Plain(text), Spec.Close]);
          return Ok([chunk]);
        }
      }
      return Ok([]);
    }

    method AnnounceCall(index: nat, callId: string, name: string) returns (r: Result<seq<Chunk>, Spec.StreamError>)
      modifies this
      ensures r.Err? ==> Spec.Announce(cfg, old(View()), index, callId, name) == Err(r.error)
      ensures r.Ok? ==> Spec.Announce(cfg, old(View()), index, callId, name) == Ok(View()) && Sent(old(log), r.value)
    {
      if index in toolIndices {
        return Ok([]);
      }
      var start := ToolMetadataChunk(index, callId, name);
      return match start case Err(e) => Err(e) case Ok(chunk) => Ok([chunk]);
    }

    method OnCallItem(index: nat, callId: string, name: string, arguments: string, done: bool)
      returns (r: Result<seq<Chunk>, Spec.StreamError>)
      modifies this
      ensures r.Err? ==> Spec.OnCallItem(cfg, old(View()), index, callId, name, arguments, done) == Err(r.error)
      ensures r.Ok? ==> Spec.OnCallItem(cfg, old(View()), index, callId, name, arguments, done) == Ok(View())
                        && Sent(old(log), r.value)
    {
      var output := CloseThink();
      r := AnnounceAndComplete(index, callId, name, arguments, done);
      return match r case Err(e) => Err(e) case Ok(more) => Ok(output + more);
    }

    method AnnounceAndComplete(index: nat, callId: string, name: string, arguments: string, done: bool)
      returns (r: Result<seq<Chunk>, Spec.StreamError>)
      modifies this
      ensures r.Err? ==> Spec.AnnounceAndComplete(cfg, old(View()), index, callId, name, arguments, done)
                           == Err(r.error)
      ensures r.Ok? ==> Spec.AnnounceAndComplete(cfg, old(View()), index, callId, name, arguments, done) == Ok(View())
                        && Sent(old(log), r.value)
    {
      r := AnnounceCall(index, callId, name);
      if done && r.Ok? {
        var rest := CompleteToolArguments(index, arguments);
        r := if rest.Err? then rest else Ok(r.value + rest.value);
      }
    }

    method OnTerminal(incomplete: bool, usage: Option<Json>) returns (output: seq<Chunk>)
      modifies this
      ensures View() == Spec.OnTerminal(cfg, old(View()), incomplete, usage) && Sent(old(log), output)
    {
      output := CloseThink();
      terminalSeen := true;
      var reason := if incomplete then "length" else if toolCallsSeen then "tool_calls" else "stop";
      finishReason := Some(reason);
      output := output + [Spec.FinishChunk(reason)];
      log := Spec.After(log, Spec.FinishChunk(reason));
      if cfg.includeUsage && usage.Some? {
        var chunk := Spec.UsageChunk(Spec.UsageIn(usage.value));
        output := output + [chunk];
        log := Spec.After(log, chunk);
      }
    }

    method MapEvent(event: Json) returns (r: Result<seq<Chunk>, Spec.StreamError>)
      modifies this
      ensures r.Err? ==> Spec.MapEvent(cfg, old(View()), event) == Err(r.error)
      ensures r.Ok? ==> Spec.MapEvent(cfg, old(View()), event) == Ok(View()) && Sent(old(log), r.value)
    {
      var read := Read(event);
      if read.Err? {
        return Err(Spec.BadEvent(read.error));
      }
      r := Handle(read.value);
    }

    /** The arms of the event mapper. */
    method Handle(event: Event) returns (r: Result<seq<Chunk>, Spec.StreamError>)
      modifies this
      ensures r.Err? ==> Spec.Apply(cfg, old(View()), event) == Err(r.error)
      ensures r.Ok? ==> Spec.Apply(cfg, old(View()), event) == Ok(View()) && Sent(old(log), r.value)
    {
      match event
      case SummaryDelta(delta) =>
        var output := OnSummaryDelta(delta);
        r := Ok(output);
      case SummaryDone(text) =>
        var output := OnSummaryDone(text);
        r := Ok(output);
      case TextDelta(delta) =>
        var output := OnTextDelta(delta);
        r := Ok(output);
      case ReasoningItem(index, item, done) =>
        r := OnReasoningItem(index, item, done);
      case CallItem(index, callId, name, arguments, done) =>
        r := OnCallItem(index, callId, name, arguments, done);
      case ArgumentsDelta(index, delta) =>
        r := ToolArgumentsChunk(index, delta);
      case ArgumentsDone(index, arguments) =>
        r := CompleteToolArguments(index, arguments);
      case Terminal(incomplete, usage) =>
        var output := OnTerminal(incomplete, usage);
        r := Ok(output);
      case Failed(e) =>
        r := Err(Spec.UpstreamFailure(e));
      case Ignored =>
        r := Ok([]);
    }
  }

  // ---- the driver ----

  /** Yields the chunks of a batch of events, up to the first that fails. */
  method MapBatch(state: ResponsesChatStreamState, events: seq<Json>) returns (given: seq<Yield>, failed: bool)
    modifies state
    ensures var m := MapAll(MapperOf(state.cfg), old(state.View()), events);
            && (failed <==> m.error.Some?)
            && (!failed ==> state.View() == m.state)
            && Given(old(state.log)) + given
               == Given(m.state.log) + match m.error case None => [] case Some(e) => [Errored(Unmappable(e))]
  {
    given, failed := [], false;
    ghost var step, s, log := MapperOf(state.cfg), state.View(), state.log;
    for i := 0 to |events|
      invariant s == state.View()
      invariant MapAll(step, old(state.View()), events) == MapAll(step, s, events[i..])
      invariant Given(log) + given == Given(state.log)
    {
      var chunks := state.MapEvent(events[i]);
      BatchStep(step, s, events, i);
      if chunks.Err? {
        given, failed := given + [Errored(Unmappable(chunks.error))], true;
        return;
      }
      GivenMore(log, given, s.log, state.log, chunks.value);
      given := given + GivenChunks(chunks.value);
      s := state.View();
    }
  }

  lemma {:induction false} BatchStep(step: Mapper, s: Spec.State, events: seq<Json>, i: nat)
    requires i < |events|
    ensures var next := step(s, events[i]);
            MapAll(step, s, events[i..])
            == if next.Err? then Mapped(s, Some(next.error)) else MapAll(step, next.value, events[i + 1..])
  {
    assert events[i..][0] == events[i] && events[i..][1..] == events[i + 1..];
  }

  lemma {:induction false} GivenMore(before: Spec.Log, given: seq<Yield>, now: Spec.Log, later: Spec.Log,
                                     chunks: seq<Chunk>)
    requires Given(before) + given == Given(now) && later.Chunks() == now.Chunks() + chunks
    ensures Given(before) + (given + GivenChunks(chunks)) == Given(later)
  {
  }

  /** Decodes and maps what has arrived, or what is left at the end. */
  method DriveBatch(state: ResponsesChatStreamState, events: Result<seq<Json>, Sse.DecodeError>)
    returns (given: seq<Yield>, failed: bool)
    modifies state
    ensures var d := Batch(MapperOf(state.cfg), old(state.View()), events);
            && (failed <==> d.failure.Some?)
            && (!failed ==> state.View() == d.state)
            && Given(old(state.log)) + given == Yields(d)
  {
    match events
    case Err(e) =>
      given, failed := [Errored(Undecodable(e))], true;
    case Ok(decoded) =>
      given, failed := MapBatch(state, decoded);
  }

  /** One batch, before it is known whether the run goes on. */
  function Batch(step: Mapper, s: Spec.State, events: Result<seq<Json>, Sse.DecodeError>): Driven {
    match events
    case Err(e) => Driven(s, Some(Undecodable(e)))
    case Ok(decoded) =>
      var m := MapAll(step, s, decoded);
      Driven(m.state, if m.error.Some? then Some(Unmappable(m.error.value)) else None)
  }

  /** What one arrival makes of a state: its chunks, and possibly an error. */
  function Received(step: Mapper, read: Sse.FrameReader, s: Spec.State, buffer: Bytes, item: Upstream): Driven {
    if item.Broken? then Driven(s, Some(Transport(item.reason)))
    else Batch(step, s, Sse.Delivered(Sse.PushChunk(read, buffer, item.bytes)))
  }

  method Receive(state: ResponsesChatStreamState, decoder: Sse.SseDecoder, read: Sse.FrameReader, item: Upstream)
    returns (given: seq<Yield>, failed: bool)
    modifies state, decoder
    ensures var d := Received(MapperOf(state.cfg), read, old(state.View()), old(decoder.buffer), item);
            && (failed <==> d.failure.Some?)
            && (!failed ==> state.View() == d.state)
            && Given(old(state.log)) + given == Yields(d)
    ensures !failed ==> item.Arrived? && Sse.PushChunk(read, old(decoder.buffer), item.bytes).Ok?
                        && decoder.buffer == Sse.PushChunk(read, old(decoder.buffer), item.bytes).value.rest
  {
    if item.Broken? {
      return [Errored(Transport(item.reason))], true;
    }
    var events := decoder.Push(read, item.bytes);
    if events.Ok? {
      Sse.LeftoverIsRest(read, old(decoder.buffer) + item.bytes);
    }
    given, failed := DriveBatch(state, events);
  }

  /** The end of the upstream body. */
  function Finished(step: Mapper, read: Sse.FrameReader, s: Spec.State, buffer: Bytes): Driven {
    var d := Batch(step, s, LastEvents(read, buffer));
    if d.failure.Some? || d.state.terminalSeen then d else Driven(d.state, Some(NoTerminalEvent))
  }

  method Finish(state: ResponsesChatStreamState, decoder: Sse.SseDecoder, read: Sse.FrameReader)
    returns (given: seq<Yield>)
    modifies state, decoder
    ensures Given(old(state.log)) + given
            == Yields(Finished(MapperOf(state.cfg), read, old(state.View()), old(decoder.buffer)))
  {
    var events := decoder.Finish(read);
    assert events == LastEvents(read, old(decoder.buffer));
    var failed;
    given, failed := DriveBatch(state, events);
    if !failed && !state.terminalSeen {
      AppendYields(old(state.log), given, state.log, [Errored(NoTerminalEvent)]);
      given := given + [Errored(NoTerminalEvent)];
    }
  }

  lemma {:induction false} DriveUnfolds(step: Mapper, read: Sse.FrameReader, s: Spec.State, buffer: Bytes,
                                        upstream: seq<Upstream>, i: nat)
    requires i <= |upstream|
    ensures i == |upstream| ==> Drive(step, read, s, buffer, upstream[i..]) == Finished(step, read, s, buffer)
    ensures i < |upstream| ==>
              var d := Received(step, read, s, buffer, upstream[i]);
              Drive(step, read, s, buffer, upstream[i..])
              == if d.failure.Some? || d.state.terminalSeen then d
                 else Drive(step, read, d.state, Sse.PushChunk(read, buffer, upstream[i].bytes).value.rest,
                            upstream[i + 1..])
  {
    if i < |upstream| {
      assert upstream[i..][0] == upstream[i] && upstream[i..][1..] == upstream[i + 1..];
    }
  }

  method DriveStream(cfg: Spec.Config, read: Sse.FrameReader, upstream: seq<Upstream>) returns (given: seq<Yield>)
    ensures given == Yields(Run(cfg, read, upstream))
  {
    var state := new ResponsesChatStreamState(cfg);
    var decoder := new Sse.SseDecoder();
    given := [Chunked(Spec.RoleChunk)];
    assert given == Given(Spec.After(Spec.Empty, Spec.RoleChunk));
    var more := DriveLoop(state, decoder, read, upstream);
    given := given + more;
  }

  method DriveLoop(state: ResponsesChatStreamState, decoder: Sse.SseDecoder, read: Sse.FrameReader,
                   upstream: seq<Upstream>)
    returns (given: seq<Yield>)
    requires !state.terminalSeen
    modifies state, decoder
    ensures Given(old(state.log)) + given
            == Yields(Drive(MapperOf(state.cfg), read, old(state.View()), old(decoder.buffer), upstream))
  {
    var failed, i := false, 0;
    given := [];
    ghost var step, s, log := MapperOf(state.cfg), state.View(), state.log;
    ghost var run := Drive(step, read, s, decoder.buffer, upstream);
    assert upstream[0..] == upstream;
    while i < |upstream| && !failed && !state.terminalSeen
      invariant 0 <= i <= |upstream| && (failed || s == state.View())
      invariant failed ==> Given(log) + given == Yields(run)
      invariant !failed ==> Given(log) + given == Given(s.log)
      invariant !failed ==> run == if s.terminalSeen then Driven(s, None)
                                   else Drive(step, read, s, decoder.buffer, upstream[i..])
      decreases |upstream| - i
    {
      DriveUnfolds(step, read, s, decoder.buffer, upstream, i);
      var more;
      more, failed := Receive(state, decoder, read, upstream[i]);
      AppendYields(log, given, s.log, more);
      given := given + more;
      s := state.View();
      i := i + 1;
    }
    if !failed && !state.terminalSeen {
      DriveUnfolds(step, read, s, decoder.buffer, upstream, i);
      var more := Finish(state, decoder, read);
      AppendYields(log, given, s.log, more);
      given := given + more;
    }
  }

  lemma {:induction false} AppendYields(before: Spec.Log, given: seq<Yield>, now: Spec.Log, more: seq<Yield>)
    requires Given(before) + given == Given(now)
    ensures Given(before) + (given + more) == Given(now) + more
  {
    assert Given(before) + (given + more) == Given(before) + given + more;
  }
}
