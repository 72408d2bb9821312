/**
 * When a closing event tells of its own item only. The machine keeps one text for all messages of a stream and
 * one for all its reasoning, so an item that is opened again closes with what was sent under other indices too.
 */
module StreamReopened {
  import opened Prelude
  import opened ResponsesSchema
  import opened ConverseMapper
  import opened Trace
  import opened StreamModel
  import opened StreamRuns
  import opened StreamTheorems

  // ---- what was sent under one output index, and what under the others ----

  function TextSentAt(log: Log, k: nat): string {
    if log.Empty? then ""
    else if log.last.body.OutputTextDelta? && log.last.body.outputIndex == k
    then TextSentAt(log.before, k) + log.last.body.delta
    else TextSentAt(log.before, k)
  }

  function ReasoningSentAt(log: Log, k: nat): string {
    if log.Empty? then ""
    else if log.last.body.ReasoningTextDelta? && log.last.body.outputIndex == k
    then ReasoningSentAt(log.before, k) + log.last.body.delta
    else ReasoningSentAt(log.before, k)
  }

  /** Some text that is not empty was sent under another index. */
  predicate TextSentElsewhere(log: Log, k: nat) {
    log.After? && (TextSentElsewhere(log.before, k)
                   || (log.last.body.OutputTextDelta? && log.last.body.outputIndex != k && log.last.body.delta != ""))
  }

  predicate ReasoningSentElsewhere(log: Log, k: nat) {
    log.After? && (ReasoningSentElsewhere(log.before, k)
                   || (log.last.body.ReasoningTextDelta? && log.last.body.outputIndex != k
                        && log.last.body.delta != ""))
  }

  lemma {:induction false} TextIsOwnIff(log: Log, k: nat)
    ensures |TextSentAt(log, k)| <= |TextSent(log)|
    ensures TextSent(log) == TextSentAt(log, k) <==> !TextSentElsewhere(log, k)
    ensures TextSentElsewhere(log, k) ==> |TextSentAt(log, k)| < |TextSent(log)|
  {
    if log.After? {
      TextIsOwnIff(log.before, k);
    }
  }

  lemma {:induction false} ReasoningIsOwnIff(log: Log, k: nat)
    ensures |ReasoningSentAt(log, k)| <= |ReasoningSent(log)|
    ensures ReasoningSent(log) == ReasoningSentAt(log, k) <==> !ReasoningSentElsewhere(log, k)
    ensures ReasoningSentElsewhere(log, k) ==> |ReasoningSentAt(log, k)| < |ReasoningSent(log)|
  {
    if log.After? {
      ReasoningIsOwnIff(log.before, k);
    }
  }

  lemma {:induction false} TruthfulAt(log: Log, base: Log)
    requires Truthful(log) && Extends(log, base)
    ensures Truthful(base)
  {
    if log != base {
      TruthfulAt(log.before, base);
    }
  }

  lemma {:induction false} TruthfulIsOwnIff(sent: Log)
    requires sent.After? && Truthful(sent)
    ensures sent.last.body.OutputTextDone? ==>
              (sent.last.body.doneText == TextSentAt(sent.before, sent.last.body.outputIndex)
               <==> !TextSentElsewhere(sent.before, sent.last.body.outputIndex))
    ensures sent.last.body.ReasoningTextDone? ==>
              (sent.last.body.doneText == ReasoningSentAt(sent.before, sent.last.body.outputIndex)
               <==> !ReasoningSentElsewhere(sent.before, sent.last.body.outputIndex))
  {
    match sent.last.body
    case OutputTextDone(_, k, _) => TextIsOwnIff(sent.before, k);
    case ReasoningTextDone(_, k, _) => ReasoningIsOwnIff(sent.before, k);
    case _ =>
  }

  /**
   * In every run, a closing text carries exactly the deltas sent under its own index if and only if nothing but
   * empty deltas of its kind was sent under any other index before it.
   */
  lemma {:induction false} ClosingIsOwnIff(ctx: Context, events: seq<BedrockEvent>, ending: Ending, sent: Log)
    requires sent.After? && Extends(Run(ctx, events, ending).log, sent)
    ensures sent.last.body.OutputTextDone? ==>
              (sent.last.body.doneText == TextSentAt(sent.before, sent.last.body.outputIndex)
               <==> !TextSentElsewhere(sent.before, sent.last.body.outputIndex))
    ensures sent.last.body.ReasoningTextDone? ==>
              (sent.last.body.doneText == ReasoningSentAt(sent.before, sent.last.body.outputIndex)
               <==> !ReasoningSentElsewhere(sent.before, sent.last.body.outputIndex))
  {
    ClosingEventsAreTruthful(ctx, events, ending);
    TruthfulAt(Run(ctx, events, ending).log, sent);
    TruthfulIsOwnIff(sent);
  }

  // ---- a run that opens its reasoning again ----

  /** An index without events has no deltas. */
  lemma {:induction false} AbsentSaysNothing(log: Log, k: nat)
    ensures PhaseOf(log, k) == Absent ==> ReasoningSentAt(log, k) == ""
  {
    if log.After? {
      AbsentSaysNothing(log.before, k);
    }
  }

  /** The next index, at any point of a run. */
  lemma {:induction false} NextSaysNothing(ctx: Context, events: seq<BedrockEvent>)
    requires !Feed(ctx, INITIAL, events).finalized
    ensures var s := Feed(ctx, INITIAL, events); ReasoningSentAt(s.log, s.nextIndex) == ""
  {
    FeedKeeps(ctx, INITIAL, events);
    var s := Feed(ctx, INITIAL, events);
    assert PhaseOf(s.log, s.nextIndex) == Absent;
    AbsentSaysNothing(s.log, s.nextIndex);
  }

  /** Reasoning opens at the next index, and sends its text there. */
  ghost predicate Opens(s: State, r: State, text: string) {
    && !r.finalized && r.reasoningOpen && r.reasoningIndex == s.nextIndex
    && r.reasoningText == s.reasoningText + text
    && ReasoningSentAt(r.log, s.nextIndex) == ReasoningSentAt(s.log, s.nextIndex) + text
  }

  lemma {:induction false} ReasoningOpens(ctx: Context, s: State, block: int, text: string)
    requires !s.finalized && !s.reasoningOpen && text != ""
    ensures Opens(s, MapEvent(ctx, s, BlockDelta(block, Some(ReasoningDelta(text)))), text)
  {
    var a := EnsureStarted(ctx, s);
    var b := EnsureReasoning(ctx, a);
    StartSaysNothing(ctx, s);
    OpenedSaysNothing(ctx, a);
    SentSays(ctx, b, block, text);
  }

  lemma {:induction false} StartSaysNothing(ctx: Context, s: State)
    ensures var r := EnsureStarted(ctx, s);
            && r.nextIndex == s.nextIndex && r.reasoningOpen == s.reasoningOpen && r.reasoningText == s.reasoningText
            && r.finalized == s.finalized && forall k :: ReasoningSentAt(r.log, k) == ReasoningSentAt(s.log, k)
  {
  }

  lemma {:induction false} OpenedSaysNothing(ctx: Context, s: State)
    requires !s.reasoningOpen
    ensures var r := EnsureReasoning(ctx, s);
            && r.reasoningOpen && r.reasoningIndex == s.nextIndex && r.reasoningText == s.reasoningText
            && ReasoningSentAt(r.log, s.nextIndex) == ReasoningSentAt(s.log, s.nextIndex)
  {
  }

  lemma {:induction false} SentSays(ctx: Context, s: State, block: int, text: string)
    ensures var r := SendReasoning(ctx, s, block, text);
            ReasoningSentAt(r.log, s.reasoningIndex) == ReasoningSentAt(s.log, s.reasoningIndex) + text
  {
  }

  /** Text closes the reasoning and leaves what it has gathered. */
  lemma {:induction false} TextCloses(ctx: Context, s: State, block: int, text: string)
    requires !s.finalized
    ensures var r := MapEvent(ctx, s, BlockDelta(block, Some(TextDelta(text))));
            !r.finalized && !r.reasoningOpen && r.reasoningText == s.reasoningText
  {
    StartSaysNothing(ctx, s);
  }

  /** What the end of the stream sends for open reasoning, once the message is closed. */
  lemma {:induction false} EofClosesReasoning(ctx: Context, s: State) returns (sent: Log)
    requires !s.finalized && s.reasoningOpen && s.reasoningText != ""
    ensures Extends(Stop(ctx, s, Eof).log, sent) && sent.After?
    ensures sent.last.body == ReasoningTextDone(ReasoningId(ctx.responseId), s.reasoningIndex, s.reasoningText)
    ensures ReasoningSentAt(sent.before, s.reasoningIndex) == ReasoningSentAt(s.log, s.reasoningIndex)
  {
    var c := CloseMessage(ctx, s);
    var body := ReasoningTextDone(ReasoningId(ctx.responseId), s.reasoningIndex, s.reasoningText);
    sent := After(c.log, StreamEvent(c.nextSeq, body));
    MessageClosesQuietly(ctx, s, s.reasoningIndex);
    ReasoningTextFirst(ctx, c, sent);
    SettleExtends(ctx, s, sent);
  }

  lemma {:induction false} MessageClosesQuietly(ctx: Context, s: State, k: nat)
    ensures var r := CloseMessage(ctx, s);
            && ReasoningSentAt(r.log, k) == ReasoningSentAt(s.log, k)
            && r.reasoningOpen == s.reasoningOpen && r.reasoningIndex == s.reasoningIndex
            && r.reasoningText == s.reasoningText
  {
    var r := CloseMessage(ctx, s);
    if s.messageOpen {
      assert ReasoningSentAt(r.log.before.before, k) == ReasoningSentAt(s.log, k);
      assert ReasoningSentAt(r.log.before, k) == ReasoningSentAt(s.log, k);
    }
  }

  lemma {:induction false} ReasoningTextFirst(ctx: Context, s: State, sent: Log)
    requires s.reasoningOpen && s.reasoningText != ""
    requires sent == After(s.log, StreamEvent(s.nextSeq, ReasoningTextDone(ReasoningId(ctx.responseId),
                                                                          s.reasoningIndex, s.reasoningText)))
    ensures Extends(CloseReasoning(ctx, s).log, sent)
  {
    var c := s.(reasoningOpen := false);
    var done := Emit(c, ReasoningTextDone(ReasoningId(ctx.responseId), s.reasoningIndex, s.reasoningText));
    var f := FinishReasoningText(ctx, c);
    assert done.log == sent;
    assert f.log.before == sent;
    assert Extends(f.log, sent);
    assert OnlyEmits(f, FinishReasoningItem(ctx, f));
  }

  lemma {:induction false} SettleExtends(ctx: Context, s: State, sent: Log)
    requires !s.finalized && Extends(CloseItems(ctx, s).log, sent)
    ensures Extends(Stop(ctx, s, Eof).log, sent)
  {
    var c := CloseItems(ctx, s);
    var f := FinalizeTools(ctx, c, 0);
    var r := Settle(ctx, s);
    assert Extends(f.log, sent);
    assert Extends(Conclude(ctx, f).log, sent) && Extends(Conclude(ctx, c).log, sent);
    assert Extends(Fail(ctx, c, ctx.lib.malformedArguments).log, sent);
    SettlesOneWay(ctx, s, c, f);
    assert Stop(ctx, s, Eof) == r.(counts := TallySince(r.counts, r.log, s.log));
  }

  lemma {:induction false} SettlesOneWay(ctx: Context, s: State, c: State, f: State)
    requires c == CloseItems(ctx, s) && f == FinalizeTools(ctx, c, 0)
    ensures || Settle(ctx, s) == Conclude(ctx, c)
            || Settle(ctx, s) == Conclude(ctx, f)
            || Settle(ctx, s) == Fail(ctx, c, ctx.lib.malformedArguments)
  {
  }

  lemma {:induction false} FeedTwo(ctx: Context, s: State, a: BedrockEvent, b: BedrockEvent, x: State)
    requires !s.finalized && x == MapEvent(ctx, s, a) && !x.finalized
    ensures Feed(ctx, s, [a, b]) == MapEvent(ctx, x, b)
  {
    assert [a, b] == [a] + [b];
    FeedAppend(ctx, s, [a], [b]);
    FeedOne(ctx, s, a);
    FeedOne(ctx, x, b);
  }

  lemma {:induction false} FeedThree(ctx: Context, s: State, a: BedrockEvent, b: BedrockEvent,
                                     c: BedrockEvent, y: State)
    requires y == Feed(ctx, s, [a, b]) && !y.finalized
    ensures Feed(ctx, s, [a, b, c]) == MapEvent(ctx, y, c)
  {
    assert [a, b, c] == [a, b] + [c];
    FeedAppend(ctx, s, [a, b], [c]);
    FeedOne(ctx, y, c);
  }

  /** Where two pieces of reasoning with text between them lead. */
  lemma {:induction false} ThinksOnce(ctx: Context, one: string, said: string) returns (y: State)
    requires one != ""
    ensures y == Feed(ctx, INITIAL, [BlockDelta(0, Some(ReasoningDelta(one))), BlockDelta(1, Some(TextDelta(said)))])
    ensures !y.finalized && !y.reasoningOpen && y.reasoningText == one && ReasoningSentAt(y.log, y.nextIndex) == ""
  {
    var a, b := BlockDelta(0, Some(ReasoningDelta(one))), BlockDelta(1, Some(TextDelta(said)));
    var x := MapEvent(ctx, INITIAL, a);
    ReasoningOpens(ctx, INITIAL, 0, one);
    assert "" + one == one;
    y := MapEvent(ctx, x, b);
    TextCloses(ctx, x, 1, said);
    FeedTwo(ctx, INITIAL, a, b, x);
    NextSaysNothing(ctx, [a, b]);
  }

  lemma {:induction false} ThinksTwice(ctx: Context, one: string, said: string, two: string) returns (z: State)
    requires one != "" && two != ""
    ensures z == Feed(ctx, INITIAL, [BlockDelta(0, Some(ReasoningDelta(one))), BlockDelta(1, Some(TextDelta(said))),
                                     BlockDelta(2, Some(ReasoningDelta(two)))])
    ensures !z.finalized && z.reasoningOpen && z.reasoningText == one + two
    ensures ReasoningSentAt(z.log, z.reasoningIndex) == two
  {
    var a, b, c := BlockDelta(0, Some(ReasoningDelta(one))), BlockDelta(1, Some(TextDelta(said))),
                   BlockDelta(2, Some(ReasoningDelta(two)));
    var y := ThinksOnce(ctx, one, said);
    z := MapEvent(ctx, y, c);
    ReasoningOpens(ctx, y, 2, two);
    FeedThree(ctx, INITIAL, a, b, c, y);
    assert "" + two == two;
  }

  /**
   * Reasoning, text, and reasoning again: the second reasoning item closes with the text of both, although only
   * the last part was sent under its index.
   */
  lemma {:induction false} ReopenedReasoningRepeats(ctx: Context, one: string, said: string, two: string)
    returns (sent: Log)
    requires one != "" && two != ""
    ensures var events := [BlockDelta(0, Some(ReasoningDelta(one))), BlockDelta(1, Some(TextDelta(said))),
                           BlockDelta(2, Some(ReasoningDelta(two)))];
            Extends(Run(ctx, events, Eof).log, sent)
    ensures sent.After? && sent.last.body.ReasoningTextDone? && sent.last.body.doneText == one + two
    ensures ReasoningSentAt(sent.before, sent.last.body.outputIndex) == two
  {
    var z := ThinksTwice(ctx, one, said, two);
    sent := EofClosesReasoning(ctx, z);
  }
}
