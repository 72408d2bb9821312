/** From upstream bytes to the client: the decoder, the state machine and the driver put together. */
module ChatDelivery {
  import opened Prelude
  import opened Json
  import Schema = ResponsesSchema
  import opened Capsule
  import opened ChatEvents
  import opened ChatStream
  import opened ChatStreamRuns
  import opened ChatCanonical
  import opened ChatAgreement
  import opened ChatChunking
  import opened ChatWire
  import Sse = SseDecoding
  import SseBytes

  predicate Unending(events: seq<Event>) { forall e <- events :: !e.Terminal? }

  lemma {:induction false} SilentAsRead(cfg: Config, s: State, jsons: seq<Json>, events: seq<Event>)
    requires ReadAs(jsons, events) && Silent(ApplierOf(cfg), s, events)
    ensures Silent(MapperOf(cfg), s, jsons)
    decreases |events|
  {
    if events != [] {
      assert Read(jsons[0]) == Ok(events[0]);
      assert MapperOf(cfg)(s, jsons[0]) == ApplierOf(cfg)(s, events[0]);
      SilentAsRead(cfg, ApplierOf(cfg)(s, events[0]).value, jsons[1..], events[1..]);
    }
  }

  /** Read events end for good when the JSON they are read from does. */
  lemma {:induction false} EndsForGoodAsRead(cfg: Config, s: State, jsons: seq<Json>, events: seq<Event>)
    requires ReadAs(jsons, events) && EndsForGood(ApplierOf(cfg), s, events)
    ensures EndsForGood(MapperOf(cfg), s, jsons)
    decreases |events|
  {
    if events != [] {
      assert Read(jsons[0]) == Ok(events[0]);
      var next := ApplierOf(cfg)(s, events[0]);
      assert MapperOf(cfg)(s, jsons[0]) == next;
      if next.Ok? {
        if next.value.terminalSeen {
          SilentAsRead(cfg, next.value, jsons[1..], events[1..]);
        } else {
          EndsForGoodAsRead(cfg, next.value, jsons[1..], events[1..]);
        }
      }
    }
  }

  /** Nothing but skipped events stands behind the terminal one. */
  lemma {:induction false} HeardEndsForGood(cfg: Config, s: State, events: seq<Event>, before: seq<Event>, last: Event)
    requires !s.terminalSeen && Unending(before) && Heard(events) == before + [last] && last.Terminal?
    ensures EndsForGood(ApplierOf(cfg), s, events)
    decreases |events|
  {
    if events != [] {
      var step, e, rest := ApplierOf(cfg), events[0], events[1..];
      var next := step(s, e);
      if e.Ignored? {
        assert Heard(events) == [] + Heard(rest) == Heard(rest);
        HeardEndsForGood(cfg, s, rest, before, last);
      } else {
        assert HeardOf(e) == [HeardOf(e)[0]];
        assert Heard(events)[0] == HeardOf(e)[0] && Heard(events)[1..] == Heard(rest);
        if before == [] {
          assert (before + [last])[0] == last && (before + [last])[1..] == [];
          SkippedIsSilent(cfg, OnTerminal(cfg, s, e.incomplete, e.usage), rest);
        } else {
          assert (before + [last])[0] == before[0] && (before + [last])[1..] == before[1..] + [last];
          assert before[0] in before && !e.Terminal?;
          if next.Ok? {
            EventIsQuiet(cfg, s, e);
            HeardEndsForGood(cfg, next.value, rest, before[1..], last);
          }
        }
      }
    }
  }

  lemma {:induction false} SkippedIsSilent(cfg: Config, s: State, events: seq<Event>)
    requires Heard(events) == []
    ensures Silent(ApplierOf(cfg), s, events)
  {
    if events != [] {
      assert HeardOf(events[0]) == [];
      SkippedIsSilent(cfg, s, events[1..]);
    }
  }

  // ---- the canonical events end only at the end ----

  lemma {:induction false} HeardIsUnending(events: seq<Event>)
    requires Unending(events)
    ensures Unending(Heard(events))
  {
    if events != [] {
      assert events[0] in events;
      HeardIsUnending(events[1..]);
    }
  }

  lemma {:induction false} DeltasAreUnending(index: nat, pieces: seq<string>)
    ensures Unending(SummaryDeltas(pieces)) && Unending(TextDeltas(pieces)) && Unending(ArgumentDeltas(index, pieces))
  {
    if pieces != [] {
      DeltasAreUnending(index, pieces[1..]);
    }
  }

  lemma {:induction false} PartEventsAreUnending(cuts: seq<seq<string>>)
    ensures Unending(PartEvents(cuts))
  {
    if cuts != [] {
      DeltasAreUnending(0, cuts[0]);
      PartEventsAreUnending(cuts[1..]);
    }
  }

  lemma {:induction false} ItemEventsAreUnending(item: Schema.OutputItem, index: nat, cut: Cut)
    requires CutsItem(cut, item)
    ensures Unending(ItemEvents(item, index, cut))
  {
    PartEventsAreUnending(cut.pieces);
    DeltasAreUnending(index, ConcatAll(cut.pieces));
    if item.FunctionCall? {
      DeltasAreUnending(index, cut.pieces[0]);
    }
  }

  lemma {:induction false} OutputEventsAreUnending(output: seq<Schema.OutputItem>, cuts: seq<Cut>)
    requires CutsAll(cuts, output)
    ensures Unending(OutputEvents(output, cuts))
  {
    if output != [] {
      var n := |output| - 1;
      OutputEventsAreUnending(output[..n], cuts[..n]);
      ItemEventsAreUnending(output[n], n, cuts[n]);
    }
  }

  lemma {:induction false} TellingEndsForGood(cfg: Config, response: Schema.Response, cuts: seq<Cut>,
                                              usage: Option<Json>, events: seq<Event>)
    requires Tells(events, response, cuts, usage)
    ensures EndsForGood(ApplierOf(cfg), INITIAL, events)
  {
    var told, last := OutputEvents(response.output, cuts), Terminal(response.status == "incomplete", usage);
    OutputEventsAreUnending(response.output, cuts);
    HeardIsUnending(told);
    HeardAppend(told, [last]);
    assert Heard([last]) == [last];
    HeardEndsForGood(cfg, INITIAL, events, Heard(told), last);
  }

  /** The last event ends the answer. */
  lemma {:induction false} TellingEnds(cfg: Config, response: Schema.Response, cuts: seq<Cut>, usage: Option<Json>,
                                       events: seq<Event>)
    requires Tells(events, response, cuts, usage)
    ensures var r := ApplyAll(ApplierOf(cfg), INITIAL, events); r.Ok? ==> r.value.terminalSeen
  {
    var told, incomplete := OutputEvents(response.output, cuts), response.status == "incomplete";
    HeardIsEnough(cfg, INITIAL, events);
    HeardIsEnough(cfg, INITIAL, Canonical(response, cuts, usage));
    ApplyLast(ApplierOf(cfg), INITIAL, told, Terminal(incomplete, usage));
    var r := ApplyAll(ApplierOf(cfg), INITIAL, told);
    if r.Ok? {
      TerminalApplies(cfg, r.value, incomplete, usage);
    }
  }

  lemma {:induction false} CarriedIsRead(jsons: seq<Json>, events: seq<Event>)
    requires CarryAll(jsons, events)
    ensures ReadAs(jsons, events)
  {
    forall k | 0 <= k < |events| ensures Read(jsons[k]) == Ok(events[k]) {
      ReadIffCarried(jsons[k], events[k]);
    }
  }

  /**
   * End to end: a response sent as its events in any fragments, with any events in between that mean nothing to
   * a chat, as JSON that carries them, in frames with either line end and any lines besides the data, and the bytes
   * cut into any chunks, reaches the client as the plain answer would, and the run ends without an error; where the
   * plain form refuses the response, and not for want of room in a capsule, the run ends with one.
   */
  lemma {:induction false} DeliveryAgreesWithPlain(cfg: Config, lib: Library, runtime: Runtime, parse: SseBytes.Parser,
                                                   response: Schema.Response, cuts: seq<Cut>, usage: Option<Json>,
                                                   events: seq<Event>, frames: seq<Sse.Frame>, chunks: seq<Bytes>)
    requires cfg.mint == MinterOf(lib, runtime) && Ended(response) && Tells(events, response, cuts, usage)
    requires forall f <- frames :: Sse.Sendable(parse, f)
    requires CarryAll(Sse.MeantAll(parse, frames), events)
    requires Sse.Flatten(chunks) == Sse.EncodeAll(frames)
    ensures var d := Run(cfg, Sse.Reader(parse), Arrivals(chunks));
            && SameGrounds(d.failure.None?, d.state.log, lib, runtime, response, Kept(response.output, cuts))
            && (d.failure.Some? ==> d.failure.value.Unmappable?)
  {
    var jsons, step := Sse.MeantAll(parse, frames), MapperOf(cfg);
    Sse.FramesSurviveTheWire(parse, frames, chunks);
    CarriedIsRead(jsons, events);
    TellingEndsForGood(cfg, response, cuts, usage, events);
    EndsForGoodAsRead(cfg, INITIAL, jsons, events);
    MachineStaysEnded(cfg);
    DriveIsChunkingIndependent(step, Sse.Reader(parse), INITIAL, [], chunks, jsons, []);
    MapAllApplies(cfg, INITIAL, jsons, events);
    TellingEnds(cfg, response, cuts, usage, events);
    StreamAgreesWithPlain(cfg, lib, runtime, response, cuts, usage, events);
    SettledAgrees(lib, runtime, response, Kept(response.output, cuts), ApplyAll(ApplierOf(cfg), INITIAL, events),
                  MapAll(step, INITIAL, jsons), Run(cfg, Sse.Reader(parse), Arrivals(chunks)));
  }

  /** What the events of a response amount to, once they are all mapped. */
  lemma {:induction false} SettledAgrees(lib: Library, runtime: Runtime, response: Schema.Response, kept: seq<Json>,
                                         r: Result<State, StreamError>, m: Mapped, d: Driven)
    requires SameGrounds(r.Ok?, LogOf(r), lib, runtime, response, kept)
    requires if r.Ok? then m == Mapped(r.value, None) && r.value.terminalSeen else m.error == Some(r.error)
    requires SameForClient(d, Settle(m))
    ensures SameGrounds(d.failure.None?, d.state.log, lib, runtime, response, kept)
    ensures d.failure.Some? ==> d.failure.value.Unmappable?
  {
  }
}
