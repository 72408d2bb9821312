/**
 * What a run streams and keeps, told from the upstream events: all their text, all their reasoning, and for each
 * block the pieces of its reasoning.
 */
module StreamTelling {
  import opened Prelude
  import opened ResponsesSchema
  import opened ConverseMapper
  import opened Trace
  import opened StreamModel
  import opened StreamInvariant
  import opened StreamRuns
  import opened StreamVerdict
  import opened StreamRefinement

  // ---- what the events say; nothing behind the first `metadata` is looked at ----

  function TextOfEvent(event: BedrockEvent): string {
    match event
    case BlockDelta(_, Some(TextDelta(text))) => text
    case _ => ""
  }

  function ReasoningOfEvent(event: BedrockEvent): string {
    match event
    case BlockDelta(_, Some(ReasoningDelta(text))) => text
    case _ => ""
  }

  function TextsIn(events: seq<BedrockEvent>): string {
    if events == [] || events[0].Metadata? then "" else TextOfEvent(events[0]) + TextsIn(events[1..])
  }

  function ReasoningIn(events: seq<BedrockEvent>): string {
    if events == [] || events[0].Metadata? then "" else ReasoningOfEvent(events[0]) + ReasoningIn(events[1..])
  }

  /** The usage that the first `metadata` reports, if it reports one. */
  function UsageIn(events: seq<BedrockEvent>): Option<BedrockUsage> {
    if events == [] then None
    else if events[0].Metadata? then events[0].usage
    else UsageIn(events[1..])
  }

  /** What an event adds to the reasoning of a block: text, a piece of its signature, or redacted bytes. */
  function PieceOf(event: BedrockEvent, block: int): ReasoningAccum {
    match event
    case BlockDelta(k, Some(ReasoningDelta(text))) =>
      if k == block then ReasoningAccum(text, "", [], false, false) else NO_PIECE
    case BlockDelta(k, Some(SignatureDelta(signature))) =>
      if k == block then ReasoningAccum("", signature, [], true, false) else NO_PIECE
    case BlockDelta(k, Some(RedactedDelta(redacted))) =>
      if k == block then ReasoningAccum("", "", redacted, false, true) else NO_PIECE
    case _ => NO_PIECE
  }

  const NO_PIECE := ReasoningAccum("", "", [], false, false)

  function Join(a: ReasoningAccum, b: ReasoningAccum): ReasoningAccum {
    ReasoningAccum(a.text + b.text, a.signature + b.signature, a.redacted + b.redacted,
                   a.signatureSeen || b.signatureSeen, a.redactedSeen || b.redactedSeen)
  }

  function PiecesIn(events: seq<BedrockEvent>, block: int): ReasoningAccum {
    if events == [] || events[0].Metadata? then NO_PIECE
    else Join(PieceOf(events[0], block), PiecesIn(events[1..], block))
  }

  // ---- the accumulated reasoning of a block ----

  function KeptAt(blocks: ReasoningByBlock, block: int): ReasoningAccum {
    if blocks == [] then NO_PIECE
    else if blocks[0].0 == block then blocks[0].1
    else KeptAt(blocks[1..], block)
  }

  predicate HasBlock(blocks: ReasoningByBlock, block: int) {
    blocks != [] && (blocks[0].0 == block || HasBlock(blocks[1..], block))
  }

  predicate Ascending(blocks: ReasoningByBlock) {
    |blocks| <= 1 || (blocks[0].0 < blocks[1].0 && Ascending(blocks[1..]))
  }

  lemma {:induction false} KeptBelow(blocks: ReasoningByBlock, block: int)
    requires Ascending(blocks) && (blocks == [] || block < blocks[0].0)
    ensures KeptAt(blocks, block) == NO_PIECE && !HasBlock(blocks, block)
  {
    if blocks != [] {
      KeptBelow(blocks[1..], block);
    }
  }

  lemma {:induction false} TouchAscends(blocks: ReasoningByBlock, key: int, update: ReasoningAccum -> ReasoningAccum)
    requires Ascending(blocks)
    ensures var r := Touch(blocks, key, update);
            Ascending(r) && (r[0].0 == key || (blocks != [] && r[0].0 == blocks[0].0))
  {
    if blocks != [] {
      var r := Touch(blocks, key, update);
      if key < blocks[0].0 {
        assert r[1..] == blocks;
      } else if key == blocks[0].0 {
        assert r[1..] == blocks[1..];
      } else {
        TouchAscends(blocks[1..], key, update);
        assert r[1..] == Touch(blocks[1..], key, update);
      }
    }
  }

  /** Touching a block updates what is kept for it, from nothing if need be, and leaves the others alone. */
  lemma {:induction false} TouchUpdates(blocks: ReasoningByBlock, key: int, update: ReasoningAccum -> ReasoningAccum,
                                        block: int)
    requires Ascending(blocks)
    ensures var r := Touch(blocks, key, update);
            && KeptAt(r, block) == (if block == key then update(KeptAt(blocks, key)) else KeptAt(blocks, block))
            && (HasBlock(r, block) <==> block == key || HasBlock(blocks, block))
  {
    var r := Touch(blocks, key, update);
    if blocks == [] || key < blocks[0].0 {
      KeptBelow(blocks, key);
      assert r[1..] == blocks;
    } else if key == blocks[0].0 {
      assert r[1..] == blocks[1..];
    } else {
      TouchUpdates(blocks[1..], key, update, block);
      assert r[1..] == Touch(blocks[1..], key, update);
    }
  }

  /** The event touches the reasoning of the block; an empty text does not. */
  predicate Touches(event: BedrockEvent, block: int) {
    match event
    case BlockDelta(k, Some(ReasoningDelta(text))) => k == block && text != ""
    case BlockDelta(k, Some(SignatureDelta(_))) => k == block
    case BlockDelta(k, Some(RedactedDelta(_))) => k == block
    case _ => false
  }

  predicate TouchedIn(events: seq<BedrockEvent>, block: int) {
    events != [] && !events[0].Metadata? && (Touches(events[0], block) || TouchedIn(events[1..], block))
  }

  // ---- what one event adds ----

  /** What a step on items leaves alone. */
  predicate SameTexts(s: State, r: State) {
    && r.messageText == s.messageText && r.reasoningText == s.reasoningText
    && r.reasoningByBlock == s.reasoningByBlock && r.usage == s.usage
  }

  function BlocksAfter(blocks: ReasoningByBlock, event: BedrockEvent): ReasoningByBlock {
    match event
    case BlockDelta(k, Some(delta)) => Touched(blocks, k, delta)
    case _ => blocks
  }

  predicate Gains(s: State, r: State, event: BedrockEvent) {
    && r.messageText == s.messageText + TextOfEvent(event)
    && r.reasoningText == s.reasoningText + ReasoningOfEvent(event)
    && r.reasoningByBlock == BlocksAfter(s.reasoningByBlock, event)
    && r.usage == (if event.Metadata? && event.usage.Some? then event.usage else s.usage)
  }

  lemma {:induction false} OpensTexts(ctx: Context, s: State)
    ensures SameTexts(s, EnsureMessage(ctx, s)) && SameTexts(s, EnsureReasoning(ctx, s))
    ensures SameTexts(s, EnsureStarted(ctx, s))
  {
  }

  lemma {:induction false} CloseReasoningTexts(ctx: Context, s: State)
    ensures SameTexts(s, CloseReasoning(ctx, s))
  {
  }

  lemma {:induction false} CloseItemsTexts(ctx: Context, s: State)
    ensures SameTexts(s, CloseItems(ctx, s))
  {
    var c := CloseMessage(ctx, s);
    assert SameTexts(s, c);
    CloseReasoningTexts(ctx, c);
  }

  lemma {:induction false} TextGains(ctx: Context, s: State, block: int, text: string)
    ensures Gains(s, SendText(ctx, EnsureMessage(ctx, CloseReasoning(ctx, s)), text),
                  BlockDelta(block, Some(TextDelta(text))))
  {
    CloseReasoningTexts(ctx, s);
    OpensTexts(ctx, CloseReasoning(ctx, s));
  }

  lemma {:induction false} ReasoningGains(ctx: Context, s: State, block: int, delta: Delta)
    requires delta.ReasoningDelta? || delta.SignatureDelta? || delta.RedactedDelta?
    ensures Gains(s, MapDelta(ctx, s, block, delta), BlockDelta(block, Some(delta)))
  {
    var o := EnsureReasoning(ctx, s);
    OpensTexts(ctx, s);
    if delta.ReasoningDelta? {
      PieceGains(ctx, o, block, delta.text);
    }
  }

  lemma {:induction false} PieceGains(ctx: Context, s: State, block: int, text: string)
    ensures var r := SendReasoning(ctx, s, block, text);
            && r.messageText == s.messageText && r.usage == s.usage && r.reasoningText == s.reasoningText + text
            && r.reasoningByBlock == Touch(s.reasoningByBlock, block, AddText(text))
  {
  }

  lemma {:induction false} InputGains(ctx: Context, s: State, block: int, fragment: string)
    ensures SameTexts(s, AppendArguments(ctx, s, block, fragment))
  {
  }

  lemma {:induction false} DeltaGains(ctx: Context, s: State, block: int, delta: Delta)
    ensures Gains(s, MapDelta(ctx, s, block, delta), BlockDelta(block, Some(delta)))
  {
    match delta
    case TextDelta(text) => TextGains(ctx, s, block, text);
    case ToolInputDelta(fragment) => InputGains(ctx, s, block, fragment);
    case OtherDelta =>
    case _ => ReasoningGains(ctx, s, block, delta);
  }

  lemma {:induction false} StartGains(ctx: Context, s: State, block: int, start: ToolStart)
    ensures SameTexts(s, StartTool(ctx, CloseItems(ctx, s), block, start))
  {
    var c := CloseItems(ctx, s);
    CloseItemsTexts(ctx, s);
    assert SameTexts(c, StartTool(ctx, c, block, start));
  }

  lemma {:induction false} BlockStopGains(s: State, block: int)
    ensures SameTexts(s, CloseToolBlock(s, block))
  {
  }

  lemma {:induction false} BodyGains(ctx: Context, s: State, event: BedrockEvent)
    ensures Gains(s, MapBody(ctx, s, event), event)
  {
    match event
    case BlockStart(block, tool) =>
      if tool.Some? {
        StartGains(ctx, s, block, tool.value);
      }
    case BlockDelta(block, delta) =>
      if delta.Some? {
        DeltaGains(ctx, s, block, delta.value);
      }
    case BlockStop(block) => BlockStopGains(s, block);
    case MessageStop(reason) => CloseItemsTexts(ctx, s.(stopReason := Some(reason)));
    case _ =>
  }

  lemma {:induction false} EventGains(ctx: Context, s: State, event: BedrockEvent)
    ensures Gains(s, MapAndTally(ctx, s, event), event)
  {
    OpensTexts(ctx, s);
    BodyGains(ctx, EnsureStarted(ctx, s), event);
  }

  lemma {:induction false} FinalizeToolsTexts(ctx: Context, s: State, pos: nat)
    ensures SameTexts(s, FinalizeTools(ctx, s, pos))
    decreases |s.tools| - pos
  {
    if pos < |s.tools| {
      FinalizeToolsTexts(ctx, if s.tools[pos].doneEmitted then s else FinalizeTool(ctx, s, pos), pos + 1);
    }
  }

  lemma {:induction false} LastTexts(ctx: Context, s: State, error: ErrorBody)
    ensures SameTexts(s, Conclude(ctx, s)) && SameTexts(s, Fail(ctx, s, error))
  {
  }

  lemma {:induction false} SettleTexts(ctx: Context, s: State)
    ensures SameTexts(s, Settle(ctx, s))
  {
    var c := CloseItems(ctx, s);
    var f := FinalizeTools(ctx, c, 0);
    CloseItemsTexts(ctx, s);
    FinalizeToolsTexts(ctx, c, 0);
    LastTexts(ctx, c, ctx.lib.malformedArguments);
    LastTexts(ctx, f, ctx.lib.malformedArguments);
  }

  lemma {:induction false} StopTexts(ctx: Context, s: State, ending: Ending)
    ensures SameTexts(s, Stop(ctx, s, ending)) && SameTexts(s, Finish(ctx, s))
  {
    SettleTexts(ctx, s);
  }

  // ---- what a whole run adds ----

  predicate GainsAll(s: State, r: State, events: seq<BedrockEvent>) {
    && r.messageText == s.messageText + TextsIn(events)
    && r.reasoningText == s.reasoningText + ReasoningIn(events)
    && r.usage == (if UsageIn(events).Some? then UsageIn(events) else s.usage)
  }

  ghost predicate KeepsPieces(s: State, r: State, events: seq<BedrockEvent>) {
    && Ascending(r.reasoningByBlock)
    && (forall b :: KeptAt(r.reasoningByBlock, b) == Join(KeptAt(s.reasoningByBlock, b), PiecesIn(events, b)))
    && (forall b :: HasBlock(r.reasoningByBlock, b) <==> HasBlock(s.reasoningByBlock, b) || TouchedIn(events, b))
  }

  /** Each update of an accumulator joins a piece to it. */
  lemma {:induction false} UpdatesJoin(a: ReasoningAccum, text: string, redacted: Bytes)
    ensures AddText(text)(a) == Join(a, ReasoningAccum(text, "", [], false, false))
    ensures AddSignature(text)(a) == Join(a, ReasoningAccum("", text, [], true, false))
    ensures AddRedacted(redacted)(a) == Join(a, ReasoningAccum("", "", redacted, false, true))
    ensures a == Join(a, NO_PIECE)
  {
    assert a.text + "" == a.text && a.signature + "" == a.signature && a.redacted + [] == a.redacted;
  }

  lemma {:induction false} TouchJoins(blocks: ReasoningByBlock, key: int, update: ReasoningAccum -> ReasoningAccum,
                                      piece: ReasoningAccum, b: int)
    requires Ascending(blocks) && update(KeptAt(blocks, key)) == Join(KeptAt(blocks, key), piece)
    ensures var r := Touch(blocks, key, update);
            && Ascending(r)
            && KeptAt(r, b) == (if b == key then Join(KeptAt(blocks, b), piece) else KeptAt(blocks, b))
            && (HasBlock(r, b) <==> HasBlock(blocks, b) || b == key)
  {
    TouchAscends(blocks, key, update);
    TouchUpdates(blocks, key, update, b);
  }

  /** The blocks that an event leaves. */
  predicate BlocksGain(blocks: ReasoningByBlock, r: ReasoningByBlock, event: BedrockEvent, b: int) {
    && Ascending(r)
    && KeptAt(r, b) == Join(KeptAt(blocks, b), PieceOf(event, b))
    && (HasBlock(r, b) <==> HasBlock(blocks, b) || Touches(event, b))
  }

  lemma {:induction false} DeltaKeepsPieces(blocks: ReasoningByBlock, k: int, delta: Delta, b: int)
    requires Ascending(blocks)
    ensures BlocksGain(blocks, Touched(blocks, k, delta), BlockDelta(k, Some(delta)), b)
  {
    var a := KeptAt(blocks, k);
    UpdatesJoin(KeptAt(blocks, b), "", []);
    match delta
    case ReasoningDelta(text) =>
      UpdatesJoin(a, text, []);
      TouchJoins(blocks, k, AddText(text), ReasoningAccum(text, "", [], false, false), b);
    case SignatureDelta(signature) =>
      UpdatesJoin(a, signature, []);
      TouchJoins(blocks, k, AddSignature(signature), ReasoningAccum("", signature, [], true, false), b);
    case RedactedDelta(redacted) =>
      UpdatesJoin(a, "", redacted);
      TouchJoins(blocks, k, AddRedacted(redacted), ReasoningAccum("", "", redacted, false, true), b);
    case _ =>
  }

  lemma {:induction false} EventKeepsPieces(blocks: ReasoningByBlock, event: BedrockEvent, b: int)
    requires Ascending(blocks)
    ensures BlocksGain(blocks, BlocksAfter(blocks, event), event, b)
  {
    match event
    case BlockDelta(k, Some(delta)) => DeltaKeepsPieces(blocks, k, delta, b);
    case _ => UpdatesJoin(KeptAt(blocks, b), "", []);
  }

  lemma {:induction false} JoinIsAssociative(a: ReasoningAccum, b: ReasoningAccum, c: ReasoningAccum)
    ensures Join(Join(a, b), c) == Join(a, Join(b, c)) && Join(a, NO_PIECE) == a
  {
    assert a.text + b.text + c.text == a.text + (b.text + c.text);
    assert a.signature + b.signature + c.signature == a.signature + (b.signature + c.signature);
    assert a.redacted + b.redacted + c.redacted == a.redacted + (b.redacted + c.redacted);
  }

  lemma {:induction false} PiecesFirst(s: State, m: State, r: State, events: seq<BedrockEvent>)
    requires events != [] && !events[0].Metadata? && Ascending(s.reasoningByBlock)
    requires m.reasoningByBlock == BlocksAfter(s.reasoningByBlock, events[0]) && KeepsPieces(m, r, events[1..])
    ensures KeepsPieces(s, r, events)
  {
    forall b ensures KeptAt(r.reasoningByBlock, b) == Join(KeptAt(s.reasoningByBlock, b), PiecesIn(events, b))
    {
      EventKeepsPieces(s.reasoningByBlock, events[0], b);
      JoinIsAssociative(KeptAt(s.reasoningByBlock, b), PieceOf(events[0], b), PiecesIn(events[1..], b));
    }
    forall b ensures HasBlock(r.reasoningByBlock, b) <==> HasBlock(s.reasoningByBlock, b) || TouchedIn(events, b)
    {
      EventKeepsPieces(s.reasoningByBlock, events[0], b);
    }
  }

  lemma {:induction false} NoPieces(s: State, r: State, events: seq<BedrockEvent>)
    requires events == [] || events[0].Metadata?
    requires Ascending(s.reasoningByBlock) && r.reasoningByBlock == s.reasoningByBlock
    ensures KeepsPieces(s, r, events)
  {
    forall b ensures Join(KeptAt(s.reasoningByBlock, b), PiecesIn(events, b)) == KeptAt(s.reasoningByBlock, b) {
      JoinIsAssociative(KeptAt(s.reasoningByBlock, b), NO_PIECE, NO_PIECE);
    }
  }

  lemma {:induction false} GainsFirst(s: State, m: State, r: State, events: seq<BedrockEvent>)
    requires events != [] && !events[0].Metadata? && Gains(s, m, events[0]) && GainsAll(m, r, events[1..])
    ensures GainsAll(s, r, events)
  {
    assert s.messageText + TextOfEvent(events[0]) + TextsIn(events[1..])
           == s.messageText + (TextOfEvent(events[0]) + TextsIn(events[1..]));
    assert s.reasoningText + ReasoningOfEvent(events[0]) + ReasoningIn(events[1..])
           == s.reasoningText + (ReasoningOfEvent(events[0]) + ReasoningIn(events[1..]));
  }

  lemma {:induction false} LastGains(s: State, m: State, r: State, events: seq<BedrockEvent>)
    requires events == [] || events[0].Metadata?
    requires if events == [] then m == s else Gains(s, m, events[0])
    requires SameTexts(m, r) && Ascending(s.reasoningByBlock)
    ensures GainsAll(s, r, events) && KeepsPieces(s, r, events)
  {
    assert s.messageText + "" == s.messageText && s.reasoningText + "" == s.reasoningText;
    NoPieces(s, r, events);
  }

  lemma {:induction false} FeedGains(ctx: Context, s: State, events: seq<BedrockEvent>, ending: Ending)
    requires Inv(ctx, s) && Ascending(s.reasoningByBlock)
    ensures var r := Stop(ctx, Feed(ctx, s, events), ending); GainsAll(s, r, events) && KeepsPieces(s, r, events)
    decreases |events|
  {
    if events == [] {
      StopTexts(ctx, s, ending);
      LastGains(s, s, Stop(ctx, s, ending), events);
    } else {
      var m := MapAndTally(ctx, s, events[0]);
      EventGains(ctx, s, events[0]);
      TallyKeeps(ctx, s, events[0]);
      if events[0].Metadata? {
        var f := Finish(ctx, m);
        FinishEnds(ctx, m);
        StopTexts(ctx, m, ending);
        FeedMetadata(ctx, s, events, f, ending);
        LastGains(s, m, f, events);
      } else {
        FeedMore(ctx, s, events, m);
        EventKeepsPieces(s.reasoningByBlock, events[0], 0);
        FeedGains(ctx, m, events[1..], ending);
        GainsFirst(s, m, Stop(ctx, Feed(ctx, s, events), ending), events);
        PiecesFirst(s, m, Stop(ctx, Feed(ctx, s, events), ending), events);
      }
    }
  }

  /**
   * In every run what is streamed as text and as reasoning is, all in all, what the events tell of, and for each
   * block exactly its pieces of reasoning are kept, the blocks in the order of their indices.
   */
  lemma {:induction false} EverythingToldIsSent(ctx: Context, events: seq<BedrockEvent>, ending: Ending)
    ensures var r := Run(ctx, events, ending);
            && TextSent(r.log) == r.messageText == TextsIn(events)
            && ReasoningSent(r.log) == r.reasoningText == ReasoningIn(events)
            && r.usage == UsageIn(events)
            && Ascending(r.reasoningByBlock)
            && (forall b :: KeptAt(r.reasoningByBlock, b) == PiecesIn(events, b))
            && (forall b :: HasBlock(r.reasoningByBlock, b) <==> TouchedIn(events, b))
  {
    var r := Run(ctx, events, ending);
    FeedGains(ctx, INITIAL, events, ending);
    RunEnds(ctx, events, ending);
    assert "" + TextsIn(events) == TextsIn(events) && "" + ReasoningIn(events) == ReasoningIn(events);
    forall b ensures KeptAt(r.reasoningByBlock, b) == PiecesIn(events, b) {
      NothingBefore(PiecesIn(events, b));
    }
  }

  lemma {:induction false} NothingBefore(a: ReasoningAccum)
    ensures Join(NO_PIECE, a) == a
  {
  }

  /** What the kept reasoning of a block amounts to: signed text, or redacted bytes, or unsigned text, or nothing. */
  lemma {:induction false} KeptReasoningIs(entry: (int, ReasoningAccum))
    ensures var r, kept := ReasoningBlock(entry), entry.1;
            && (kept.signatureSeen ==> r == [ReasoningText(Some(kept.text), Some(kept.signature))])
            && (!kept.signatureSeen && kept.redactedSeen ==> r == [RedactedReasoning(kept.redacted)])
            && (!kept.signatureSeen && !kept.redactedSeen ==>
                  r == if kept.text == "" then [] else [ReasoningText(Some(kept.text), None)])
  {
  }
}
