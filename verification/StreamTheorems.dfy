/** What a client of the Responses stream can rely on, for every run of the receive loop. */
module StreamTheorems {
  import opened ConverseMapper
  import opened Trace
  import opened StreamModel
  import opened StreamInvariant
  import opened StreamRuns

  // ---- numbering and termination ----

  lemma {:induction false} EventsAre(log: Log)
    requires Numbered(log)
    ensures |log.Events()| == log.Length()
    ensures forall i :: 0 <= i < |log.Events()| ==> log.Events()[i].sequenceNumber == i
    ensures NoTerminal(log) ==> forall i :: 0 <= i < |log.Events()| ==> !log.Events()[i].body.IsTerminal()
  {
    if log.After? {
      EventsAre(log.before);
    }
  }

  /** Sequence numbers count up from 0 without a gap; the last event, and no other, is terminal. */
  lemma {:induction false} RunIsNumberedAndEndsOnce(ctx: Context, events: seq<BedrockEvent>, ending: Ending)
    ensures var sent := Run(ctx, events, ending).log.Events();
            && sent != []
            && (forall i :: 0 <= i < |sent| ==> sent[i].sequenceNumber == i)
            && (forall i :: 0 <= i < |sent| ==> (sent[i].body.IsTerminal() <==> i == |sent| - 1))
  {
    RunEnds(ctx, events, ending);
    var log := Run(ctx, events, ending).log;
    EventsAre(log);
    EventsAre(log.before);
  }

  // ---- fragments ----

  /** Every closing event of a run carries the concatenation of the deltas sent before it. */
  lemma {:induction false} ClosingEventsAreTruthful(ctx: Context, events: seq<BedrockEvent>, ending: Ending)
    ensures Truthful(Run(ctx, events, ending).log)
  {
    RunEnds(ctx, events, ending);
  }

  // ---- the protocol of each output item ----

  /** A broken protocol stays broken. */
  lemma {:induction false} BrokenStays(log: Log, base: Log, k: nat)
    requires Extends(log, base) && PhaseOf(log, k) != Broken
    ensures PhaseOf(base, k) != Broken
  {
    if log != base {
      BrokenStays(log.before, base, k);
    }
  }

  /** At every moment of every run, the events of an output index are a prefix of a word of its protocol. */
  lemma {:induction false} ItemsFollowTheirProtocol(ctx: Context, events: seq<BedrockEvent>, ending: Ending,
                                                    sent: Log, k: nat)
    requires Extends(Run(ctx, events, ending).log, sent)
    ensures PhaseOf(sent, k) != Broken
  {
    RunEnds(ctx, events, ending);
    var r := Run(ctx, events, ending);
    PlacedIsNotBroken(ctx, r, k);
    BrokenStays(r.log, sent, k);
  }

  lemma {:induction false} PlacedIsNotBroken(ctx: Context, s: State, k: nat)
    requires Placed(ctx, s)
    ensures PhaseOf(s.log, k) != Broken
  {
    if IsToolIndex(s.tools, k) {
      var i :| 0 <= i < |s.tools| && s.tools[i].outputIndex == k;
      assert ToolPlaced(ctx, s, s.tools[i]);
    }
  }

  /** After a completed ending each allocated index has a whole word, and the others have none. */
  lemma {:induction false} CompletedRunsLeaveNothingOpen(ctx: Context, events: seq<BedrockEvent>, ending: Ending,
                                                         k: nat)
    requires VerdictOf(Run(ctx, events, ending).log) == RunCompleted
    ensures var r := Run(ctx, events, ending);
            PhaseOf(r.log, k) == if k < r.nextIndex then Complete else Absent
  {
    RunEnds(ctx, events, ending);
    var r := Run(ctx, events, ending);
    if IsIncompleteStop(r) {
      ExactStopIsReported(r);
    }
    if IsToolIndex(r.tools, k) {
      var i :| 0 <= i < |r.tools| && r.tools[i].outputIndex == k;
      assert ToolPlaced(ctx, r, r.tools[i]);
    }
  }

  // ---- the tally ----

  /** How often a type was counted. */
  function Counted(counts: Counts, eventType: string): nat {
    if counts == [] then 0
    else if counts[0].0 == eventType then counts[0].1
    else Counted(counts[1..], eventType)
  }

  function CountedTypes(counts: Counts): seq<string> {
    if counts == [] then [] else [counts[0].0] + CountedTypes(counts[1..])
  }

  /** The tally agrees with the log: which types, in which order, and how many of each. */
  ghost predicate Agrees(counts: Counts, log: Log) {
    CountedTypes(counts) == TypesSeen(log) && forall t :: Counted(counts, t) == Occurrences(log, t)
  }

  lemma {:induction false} TallyOneCounts(counts: Counts, eventType: string)
    ensures var r := TallyOne(counts, eventType);
            && (forall t :: Counted(r, t) == Counted(counts, t) + (if t == eventType then 1 else 0))
            && CountedTypes(r) == (if eventType in CountedTypes(counts) then CountedTypes(counts)
                                   else CountedTypes(counts) + [eventType])
  {
    if counts != [] && counts[0].0 != eventType {
      TallyOneCounts(counts[1..], eventType);
    }
  }

  lemma {:induction false} TallySinceAgrees(counts: Counts, log: Log, base: Log)
    requires Extends(log, base) && Agrees(counts, base)
    ensures Agrees(TallySince(counts, log, base), log)
  {
    if log != base {
      TallySinceAgrees(counts, log.before, base);
      TallyOneCounts(TallySince(counts, log.before, base), log.last.body.EventType());
    }
  }

  lemma {:induction false} FinishTallies(ctx: Context, s: State)
    requires Agrees(s.counts, s.log) && !s.finalized
    ensures Agrees(Finish(ctx, s).counts, Finish(ctx, s).log)
  {
    TallySinceAgrees(s.counts, Settle(ctx, s).log, s.log);
  }

  lemma {:induction false} MapEventTallies(ctx: Context, s: State, event: BedrockEvent)
    requires Agrees(s.counts, s.log) && Inv(ctx, s)
    ensures Agrees(MapEvent(ctx, s, event).counts, MapEvent(ctx, s, event).log)
  {
    var b := MapBody(ctx, EnsureStarted(ctx, s), event);
    TallySinceAgrees(s.counts, b.log, s.log);
    StartedKeeps(ctx, s);
    MapBodyKeeps(ctx, EnsureStarted(ctx, s), event);
    if event.Metadata? {
      FinishTallies(ctx, MapAndTally(ctx, s, event));
    }
  }

  lemma {:induction false} FeedTallies(ctx: Context, s: State, events: seq<BedrockEvent>)
    requires Agrees(s.counts, s.log) && Inv(ctx, s)
    ensures Agrees(Feed(ctx, s, events).counts, Feed(ctx, s, events).log)
    decreases |events|
  {
    if events != [] {
      var n := MapEvent(ctx, s, events[0]);
      MapEventTallies(ctx, s, events[0]);
      MapEventKeeps(ctx, s, events[0]);
      if n.finalized {
        assert Feed(ctx, n, events[1..]) == n;
      } else {
        FeedTallies(ctx, n, events[1..]);
      }
    }
  }

  /**
   * The tally matches what was emitted, except that a failure raised by the receive loop itself is not
   * counted.
   */
  lemma {:induction false} TallyMatchesTheRun(ctx: Context, events: seq<BedrockEvent>, ending: Ending)
    ensures var fed := Feed(ctx, INITIAL, events);
            var r := Run(ctx, events, ending);
            if fed.finalized || ending.Eof? then Agrees(r.counts, r.log)
            else VerdictOf(r.log) == RunFailed && Agrees(r.counts, fed.log)
  {
    FeedTallies(ctx, INITIAL, events);
    var fed := Feed(ctx, INITIAL, events);
    if !fed.finalized && ending.Eof? {
      FinishTallies(ctx, fed);
    }
  }
}
