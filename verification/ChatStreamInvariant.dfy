/** What every step of the adapter's streaming state machine keeps. */
module ChatStreamInvariant {
  import opened Prelude
  import opened Json
  import opened ChatReplay
  import opened ChatEvents
  import opened ChatStream

  /** The think tags sent agree with the flag, which is raised only by a streamed summary. */
  predicate ThinkKept(s: State) { ThinkOf(s.log) == Some(s.thinkOpen) && (s.thinkOpen ==> s.summaryStreamed) }

  /** Positions number the announced calls 0, 1, 2, ..., one for each output index, in order of announcement. */
  predicate Numbered(s: State) {
    && |s.toolIndices| == |s.announced|
    && (forall k :: 0 <= k < |s.announced| ==>
          s.announced[k].outputIndex in s.toolIndices && s.toolIndices[s.announced[k].outputIndex] == k)
    && (forall o <- s.toolIndices :: s.toolIndices[o] < |s.announced| && s.announced[s.toolIndices[o]].outputIndex == o)
    && (s.toolCallsSeen <==> s.announced != [])
  }

  /** The announcements sent are those recorded, each with the id minted from the reasoning items as they are. */
  predicate Minted(cfg: Config, s: State) {
    StartsOf(s.log).Some? && AllMinted(cfg, Items(s.reasoning), s.announced, StartsOf(s.log).value)
  }

  predicate AllMinted(cfg: Config, items: seq<Json>, calls: seq<Announcement>, starts: seq<Start>) {
    |starts| == |calls| && forall k :: 0 <= k < |calls| ==> MintedAs(cfg, items, calls[k], starts[k])
  }

  predicate MintedAs(cfg: Config, items: seq<Json>, call: Announcement, start: Start) {
    start.name == call.name && cfg.mint(call.callId, items) == Ok(start.id)
  }

  /** The argument fragments sent for a tool are what is accumulated for it; none went elsewhere. */
  ghost predicate Accounted(s: State) {
    && s.toolArguments.Keys == s.toolIndices.Keys
    && (forall o <- s.toolIndices :: ArgumentsSent(s.log, s.toolIndices[o]) == s.toolArguments[o])
    && (forall k :: |s.announced| <= k ==> ArgumentsSent(s.log, k) == "")
  }

  ghost predicate Inv(cfg: Config, s: State) {
    && ThinkKept(s) && Numbered(s) && Minted(cfg, s) && Accounted(s)
    && (s.terminalSeen <==> FinishSent(s.log))
  }

  lemma {:induction false} InitialInv(cfg: Config)
    ensures Inv(cfg, INITIAL)
  {
    var log := After(Empty, RoleChunk);
    assert INITIAL.log == log && log.before == Empty && !FinishSent(log.before);
    assert !FinishSent(log);
  }

  /** A step that sends one chunk of content, and leaves the tools and the reasoning alone. */
  predicate OnlyContent(s: State, t: State, tokens: seq<Token>) {
    && t.log == After(s.log, ContentChunk(tokens))
    && t.toolIndices == s.toolIndices && t.toolArguments == s.toolArguments && t.toolCallsSeen == s.toolCallsSeen
    && t.announced == s.announced && t.terminalSeen == s.terminalSeen
    && (t.reasoning == s.reasoning || !s.toolCallsSeen)
  }

  lemma {:induction false} ContentKeeps(cfg: Config, s: State, t: State, tokens: seq<Token>)
    requires Inv(cfg, s) && OnlyContent(s, t, tokens)
    requires ThinkAfter(Some(s.thinkOpen), tokens) == Some(t.thinkOpen) && (t.thinkOpen ==> t.summaryStreamed)
    ensures Inv(cfg, t)
  {
    MintedStays(cfg, s, t);
    assert forall k :: ArgumentsSent(t.log, k) == ArgumentsSent(s.log, k);
  }

  lemma {:induction false} TokensOf(text: string)
    ensures ThinkAfter(Some(true), [Close]) == Some(false)
    ensures forall open :: ThinkAfter(Some(open), [Plain(text)]) == Some(open)
    ensures ThinkAfter(Some(false), [Open, Plain(text)]) == Some(true)
    ensures ThinkAfter(Some(false), [Open, Plain(text), Close]) == Some(false)
  {
    assert [Open, Plain(text)][1..] == [Plain(text)];
    assert [Open, Plain(text), Close][1..] == [Plain(text), Close];
    assert [Plain(text), Close][1..] == [Close];
  }

  lemma {:induction false} CloseThinkKeeps(cfg: Config, s: State)
    requires Inv(cfg, s)
    ensures Inv(cfg, CloseThink(s)) && !CloseThink(s).thinkOpen
  {
    TokensOf("");
    if s.thinkOpen {
      ContentKeeps(cfg, s, CloseThink(s), [Close]);
    }
  }

  lemma {:induction false} SummaryDeltaKeeps(cfg: Config, s: State, delta: string)
    requires Inv(cfg, s)
    ensures Inv(cfg, OnSummaryDelta(s, delta))
  {
    TokensOf(delta);
    if delta != "" {
      ContentKeeps(cfg, s, OnSummaryDelta(s, delta), if s.thinkOpen then [Plain(delta)] else [Open, Plain(delta)]);
    }
  }

  lemma {:induction false} SummaryDoneKeeps(cfg: Config, s: State, text: string)
    requires Inv(cfg, s)
    ensures Inv(cfg, OnSummaryDone(s, text))
  {
    TokensOf(text);
    if !s.summaryStreamed && text != "" {
      ContentKeeps(cfg, s, OnSummaryDone(s, text), [Open, Plain(text), Close]);
    } else {
      CloseThinkKeeps(cfg, s.(summary := text));
    }
  }

  lemma {:induction false} TextDeltaKeeps(cfg: Config, s: State, delta: string)
    requires Inv(cfg, s)
    ensures Inv(cfg, OnTextDelta(s, delta))
  {
    TokensOf(delta);
    CloseThinkKeeps(cfg, s);
    if delta != "" {
      ContentKeeps(cfg, CloseThink(s), OnTextDelta(s, delta), [Plain(delta)]);
    }
  }

  /** Reasoning items change only before the first announcement. */
  lemma {:induction false} ReasoningItemKeeps(cfg: Config, s: State, index: nat, item: Json, done: bool)
    requires Inv(cfg, s) && OnReasoningItem(s, index, item, done).Ok?
    ensures Inv(cfg, OnReasoningItem(s, index, item, done).value)
  {
    var t := OnReasoningItem(s, index, item, done).value;
    TokensOf(ItemSummary(item));
    if done && !s.summaryStreamed && ItemSummary(item) != "" {
      ContentKeeps(cfg, s, t, [Open, Plain(ItemSummary(item)), Close]);
    }
  }

  lemma {:induction false} AnnouncedKeeps(cfg: Config, s: State, call: Announcement, id: string)
    requires Inv(cfg, s) && !s.thinkOpen && call.outputIndex !in s.toolIndices
    requires cfg.mint(call.callId, Items(s.reasoning)) == Ok(id)
    ensures Inv(cfg, Announced(s, call, id))
  {
    var t := Announced(s, call, id);
    AnnouncedIsNumbered(s, call, id);
    AnnouncedIsMinted(cfg, s, call, id);
    AnnouncedIsAccounted(s, call, id);
  }

  lemma {:induction false} AnnouncedIsNumbered(s: State, call: Announcement, id: string)
    requires Numbered(s) && call.outputIndex !in s.toolIndices
    ensures Numbered(Announced(s, call, id))
  {
  }

  lemma {:induction false} AnnouncedIsMinted(cfg: Config, s: State, call: Announcement, id: string)
    requires Numbered(s) && Minted(cfg, s) && cfg.mint(call.callId, Items(s.reasoning)) == Ok(id)
    ensures Minted(cfg, Announced(s, call, id))
  {
    var starts, t := StartsOf(s.log).value, Announced(s, call, id);
    AllMintedMore(cfg, Items(s.reasoning), s.announced, starts, call, Start(id, call.name));
    assert StartsOf(t.log) == Some(starts + [Start(id, call.name)]);
    assert t.announced == s.announced + [call] && t.reasoning == s.reasoning;
  }

  lemma {:induction false} AllMintedMore(cfg: Config, items: seq<Json>, calls: seq<Announcement>,
                                         starts: seq<Start>, call: Announcement, start: Start)
    requires AllMinted(cfg, items, calls, starts) && MintedAs(cfg, items, call, start)
    ensures AllMinted(cfg, items, calls + [call], starts + [start])
  {
  }

  lemma {:induction false} AnnouncedIsAccounted(s: State, call: Announcement, id: string)
    requires Numbered(s) && Accounted(s) && call.outputIndex !in s.toolIndices
    ensures Accounted(Announced(s, call, id))
  {
    var t := Announced(s, call, id);
    assert forall k :: ArgumentsSent(t.log, k) == ArgumentsSent(s.log, k);
    assert t.toolArguments == s.toolArguments[call.outputIndex := ""];
  }

  lemma {:induction false} AppendKeeps(cfg: Config, s: State, index: nat, delta: string)
    requires Inv(cfg, s) && AppendArguments(s, index, delta).Ok?
    ensures Inv(cfg, AppendArguments(s, index, delta).value)
  {
    if delta != "" {
      var t := AppendArguments(s, index, delta).value;
      AppendIsAccounted(s, t, index, delta);
      MintedStays(cfg, s, t);
    }
  }

  lemma {:induction false} AppendIsAccounted(s: State, t: State, index: nat, delta: string)
    requires Numbered(s) && Accounted(s) && index in s.toolIndices
    requires t.log == After(s.log, ToolArguments(s.toolIndices[index], delta))
    requires t.toolIndices == s.toolIndices && t.announced == s.announced
    requires t.toolArguments == s.toolArguments[index := s.toolArguments[index] + delta]
    ensures Accounted(t)
  {
    forall o | o in t.toolIndices ensures ArgumentsSent(t.log, t.toolIndices[o]) == t.toolArguments[o] {
      assert s.toolIndices[o] == s.toolIndices[index] ==> o == index;
    }
    assert forall k :: |s.announced| <= k ==> ArgumentsSent(t.log, k) == ArgumentsSent(s.log, k);
  }

  lemma {:induction false} MintedStays(cfg: Config, s: State, t: State)
    requires Minted(cfg, s) && StartsOf(t.log) == StartsOf(s.log) && t.announced == s.announced
    requires t.reasoning == s.reasoning || s.announced == []
    ensures Minted(cfg, t)
  {
  }

  lemma {:induction false} CompleteKeeps(cfg: Config, s: State, index: nat, arguments: string)
    requires Inv(cfg, s) && CompleteArguments(s, index, arguments).Ok?
    ensures Inv(cfg, CompleteArguments(s, index, arguments).value)
  {
    if arguments != Accumulated(s, index) {
      AppendKeeps(cfg, s, index, StripPrefix(arguments, Accumulated(s, index)).value);
    }
  }

  lemma {:induction false} CallItemKeeps(cfg: Config, s: State, index: nat, callId: string, name: string,
                                         arguments: string, done: bool)
    requires Inv(cfg, s) && OnCallItem(cfg, s, index, callId, name, arguments, done).Ok?
    ensures Inv(cfg, OnCallItem(cfg, s, index, callId, name, arguments, done).value)
  {
    CloseThinkKeeps(cfg, s);
    var closed := CloseThink(s);
    if index !in closed.toolIndices {
      AnnouncedKeeps(cfg, closed, Announcement(index, callId, name), cfg.mint(callId, Items(closed.reasoning)).value);
    }
    if done {
      CompleteKeeps(cfg, Announce(cfg, closed, index, callId, name).value, index, arguments);
    }
  }

  /** A chunk that says nothing of tools or text. */
  lemma {:induction false} ClosingChunkKeeps(cfg: Config, s: State, t: State, last: Chunk)
    requires Inv(cfg, s) && !s.thinkOpen && (last.FinishChunk? || last.UsageChunk?)
    requires t == s.(log := t.log, terminalSeen := true, finishReason := t.finishReason)
    requires t.log == After(s.log, last) && (last.FinishChunk? || s.terminalSeen)
    ensures Inv(cfg, t)
  {
    MintedStays(cfg, s, t);
    assert forall k :: ArgumentsSent(t.log, k) == ArgumentsSent(s.log, k);
  }

  lemma {:induction false} TerminalKeeps(cfg: Config, s: State, incomplete: bool, usage: Option<Json>)
    requires Inv(cfg, s)
    ensures Inv(cfg, OnTerminal(cfg, s, incomplete, usage))
  {
    CloseThinkKeeps(cfg, s);
    var closed, reason := CloseThink(s), FinishReason(s, incomplete);
    var finished := Emit(closed.(terminalSeen := true, finishReason := Some(reason)), FinishChunk(reason));
    ClosingChunkKeeps(cfg, closed, finished, FinishChunk(reason));
    if cfg.includeUsage && usage.Some? {
      ClosingChunkKeeps(cfg, finished, Emit(finished, UsageChunk(UsageIn(usage.value))),
                        UsageChunk(UsageIn(usage.value)));
    }
  }

  lemma {:induction false} ApplyKeeps(cfg: Config, s: State, event: Event)
    requires Inv(cfg, s) && Apply(cfg, s, event).Ok?
    ensures Inv(cfg, Apply(cfg, s, event).value)
  {
    match event
    case SummaryDelta(delta) => SummaryDeltaKeeps(cfg, s, delta);
    case SummaryDone(text) => SummaryDoneKeeps(cfg, s, text);
    case TextDelta(delta) => TextDeltaKeeps(cfg, s, delta);
    case ReasoningItem(index, item, done) => ReasoningItemKeeps(cfg, s, index, item, done);
    case CallItem(index, callId, name, arguments, done) => CallItemKeeps(cfg, s, index, callId, name, arguments, done);
    case ArgumentsDelta(index, delta) => AppendKeeps(cfg, s, index, delta);
    case ArgumentsDone(index, arguments) => CompleteKeeps(cfg, s, index, arguments);
    case Terminal(incomplete, usage) => TerminalKeeps(cfg, s, incomplete, usage);
    case Failed(_) =>
    case Ignored =>
  }

  // ---- the stored reasoning items ----

  predicate Ascending(entries: seq<Entry>) {
    forall i, j :: 0 <= i < j < |entries| ==> entries[i].index < entries[j].index
  }

  lemma {:induction false} RestAscends(entries: seq<Entry>)
    requires entries != [] && Ascending(entries)
    ensures Ascending(entries[1..]) && forall e <- entries[1..] :: entries[0].index < e.index
  {
  }

  lemma {:induction false} FrontAscends(first: Entry, rest: seq<Entry>)
    requires Ascending(rest) && forall e <- rest :: first.index < e.index
    ensures Ascending([first] + rest)
  {
    forall i, j | 0 <= i < j < |[first] + rest| ensures ([first] + rest)[i].index < ([first] + rest)[j].index {
      assert ([first] + rest)[j] == rest[j - 1];
    }
  }

  lemma {:induction false} InsertAscends(entries: seq<Entry>, index: nat, item: Json)
    requires Ascending(entries)
    ensures var r := Insert(entries, index, item);
            Ascending(r) && forall e <- r :: e.index == index || e in entries
  {
    if entries == [] {
      FrontAscends(Entry(index, item), []);
    } else {
      var first, rest := entries[0], entries[1..];
      RestAscends(entries);
      assert entries == [first] + rest;
      if index < first.index {
        FrontAscends(Entry(index, item), entries);
      } else if index == first.index {
        FrontAscends(Entry(index, item), rest);
      } else {
        InsertAscends(rest, index, item);
        FrontAscends(first, Insert(rest, index, item));
      }
    }
  }

  lemma {:induction false} InsertFinds(entries: seq<Entry>, index: nat, item: Json, k: nat)
    requires Ascending(entries)
    ensures Lookup(Insert(entries, index, item), k) == if k == index then Some(item) else Lookup(entries, k)
  {
    if entries != [] {
      var first, rest := entries[0], entries[1..];
      RestAscends(entries);
      if first.index < index {
        InsertFinds(rest, index, item, k);
        LookupFront(first, Insert(rest, index, item), k);
      } else if first.index == index {
        LookupFront(Entry(index, item), rest, k);
      } else {
        LookupFront(Entry(index, item), entries, k);
      }
    } else {
      LookupFront(Entry(index, item), [], k);
    }
  }

  lemma {:induction false} LookupFront(first: Entry, rest: seq<Entry>, k: nat)
    ensures Lookup([first] + rest, k) == if first.index == k then Some(first.item) else Lookup(rest, k)
  {
    assert ([first] + rest)[1..] == rest;
  }

  predicate IsKeptField(field: string) { field == "encrypted_content" || field == "summary" }

  /**
   * Storing a reasoning item replaces the one under its index and no other, and keeps the items in the order of
   * their indices. The stored item has all fields of the new one, and of the replaced one its encrypted content and
   * its summary where the new one has none.
   */
  lemma {:induction false} StoreReplacesOne(entries: seq<Entry>, index: nat, item: Json, k: nat, field: string)
    requires Ascending(entries) && item.Object?
    ensures var r, before := Store(entries, index, item), Lookup(entries, index);
            && Ascending(r)
            && (k != index ==> Lookup(r, k) == Lookup(entries, k))
            && Lookup(r, index).Some?
            && Lookup(r, index).value.Get(field)
               == if item.Get(field).Some? then item.Get(field)
                  else if IsKeptField(field) && before.Some? then before.value.Get(field)
                  else None
  {
    match Lookup(entries, index)
    case None =>
      InsertAscends(entries, index, item);
      InsertFinds(entries, index, item, index);
      InsertFinds(entries, index, item, k);
    case Some(earlier) =>
      var merged := Inherit(Inherit(item, earlier, "encrypted_content"), earlier, "summary");
      InsertAscends(entries, index, merged);
      InsertFinds(entries, index, merged, index);
      InsertFinds(entries, index, merged, k);
  }

  /** The items of every run are in that order. */
  lemma {:induction false} ItemsStayAscending(cfg: Config, s: State, event: Event)
    requires Ascending(s.reasoning) && Apply(cfg, s, event).Ok?
    ensures Ascending(Apply(cfg, s, event).value.reasoning)
  {
    match event
    case ReasoningItem(index, item, done) =>
      var earlier := Lookup(s.reasoning, index);
      var stored := if earlier.None? then item
                    else Inherit(Inherit(item, earlier.value, "encrypted_content"), earlier.value, "summary");
      InsertAscends(s.reasoning, index, stored);
    case CallItem(index, callId, name, arguments, done) => CallKeepsItems(cfg, s, index, callId, name, arguments, done);
    case _ =>
  }

  lemma {:induction false} CallKeepsItems(cfg: Config, s: State, index: nat, callId: string, name: string,
                                          arguments: string, done: bool)
    requires OnCallItem(cfg, s, index, callId, name, arguments, done).Ok?
    ensures OnCallItem(cfg, s, index, callId, name, arguments, done).value.reasoning == s.reasoning
  {
    var t := Announce(cfg, CloseThink(s), index, callId, name).value;
    assert t.reasoning == s.reasoning;
  }
}
