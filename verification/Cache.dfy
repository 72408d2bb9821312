/**
 * Prompt-cache points: where they are placed in the tools, the system prompt and the messages of a request,
 * under one budget.
 */
module Cache {
  import opened Prelude
  import opened Json

  const DEFAULT_MAX_CACHE_CHECKPOINTS := 4
  const TTL_1H := "1h"
  const TTL_5M := "5m"
  const U32_MAX := 0xFFFF_FFFF

  /** What is configured for a model. */
  datatype Caps = Caps(minTokens: Option<nat>, maxTokens: Option<nat>, maxCheckpoints: Option<nat>, ttl1h: bool)
  {
    predicate SupportsCaching() { minTokens.Some? || maxTokens.Some? }
  }

  function CachePoint(ttl: Option<string>): Json {
    var kind := map["type" := String("default")];
    Object(map["cachePoint" := Object(if ttl.Some? then kind["ttl" := String(ttl.value)] else kind)])
  }

  predicate HasKey(v: Json, key: string) { v.Object? && key in v.fields }

  predicate IsPoint(v: Json) { HasKey(v, "cachePoint") }

  predicate EndsWithPoint(blocks: seq<Json>) { blocks != [] && IsPoint(blocks[|blocks| - 1]) }

  /** Whitespace-separated words of a text. */
  function Words(text: string): nat {
    if text == "" then 0
    else
      var rest := Words(text[1..]);
      if !IsWhitespace(text[0]) && (|text| == 1 || IsWhitespace(text[1])) then rest + 1 else rest
  }

  function BlockWords(blocks: seq<Json>): nat {
    if blocks == [] then 0
    else
      var before, last := blocks[..|blocks| - 1], blocks[|blocks| - 1];
      BlockWords(before) + Words(last.GetString("text").GetOr(""))
  }

  /** Words times 1.3, rounded half up, within a `u32`. */
  function EstimateTokens(blocks: seq<Json>): nat {
    var estimate := (BlockWords(blocks) * 13 + 5) / 10;
    if estimate <= U32_MAX then estimate else U32_MAX
  }

  /** The effective lifetime: an hour only where the model offers it. */
  function ResolveTtl(requested: Option<string>, fallback: string, caps: Caps): string {
    var ttl := requested.GetOr(fallback);
    if ttl == TTL_1H && !caps.ttl1h then TTL_5M else ttl
  }

  // ---- the three zones ----

  predicate HasRoom(used: nat, ceiling: Option<nat>) { ceiling.Some? ==> used < ceiling.value }

  predicate TakesToolPoint(tools: Json, caps: Caps, enabled: bool, used: nat, ceiling: Option<nat>) {
    && tools.Array? && tools.items != []
    && caps.SupportsCaching() && enabled && HasRoom(used, ceiling) && !EndsWithPoint(tools.items)
  }

  function DecorateTools(tools: Json, caps: Caps, enabled: bool, used: nat, ceiling: Option<nat>,
                         ttl: Option<string>): Json {
    if TakesToolPoint(tools, caps, enabled, used, ceiling) then Array(tools.items + [CachePoint(ttl)]) else tools
  }

  /** The system prompt looks at its size, but not at the budget. */
  predicate TakesSystemPoint(system: Json, caps: Caps, enabled: bool) {
    && system.Array? && system.items != []
    && caps.SupportsCaching() && enabled
    && (caps.minTokens.Some? ==> caps.minTokens.value <= EstimateTokens(system.items))
  }

  function DecorateSystem(system: Json, caps: Caps, enabled: bool, ttl: Option<string>): Json {
    if TakesSystemPoint(system, caps, enabled) then Array(system.items + [CachePoint(ttl)]) else system
  }

  /** A user turn with content that is not all tool results and does not end in a point yet. */
  predicate Eligible(turn: Json) {
    && turn.GetString("role") == Some("user")
    && (match turn.Get("content")
        case Some(Array(content)) =>
          content != [] && !(forall b <- content :: HasKey(b, "toolResult")) && !EndsWithPoint(content)
        case _ => false)
  }

  function LastEligible(turns: seq<Json>): (r: Option<nat>)
    ensures r.Some? ==> r.value < |turns| && Eligible(turns[r.value])
                        && forall i :: r.value < i < |turns| ==> !Eligible(turns[i])
    ensures r.None? ==> forall i :: 0 <= i < |turns| ==> !Eligible(turns[i])
  {
    if turns == [] then None
    else if Eligible(turns[|turns| - 1]) then Some(|turns| - 1)
    else LastEligible(turns[..|turns| - 1])
  }

  function AddPoint(turn: Json, ttl: Option<string>): Json
    requires Eligible(turn)
  {
    Object(turn.fields["content" := Array(turn.fields["content"].items + [CachePoint(ttl)])])
  }

  predicate MayTakeMessagePoint(messages: Json, caps: Caps, enabled: bool, used: nat, ceiling: Option<nat>) {
    messages.Array? && messages.items != [] && caps.SupportsCaching() && enabled && HasRoom(used, ceiling)
  }

  function DecorateMessages(messages: Json, caps: Caps, enabled: bool, used: nat, ceiling: Option<nat>,
                            ttl: Option<string>)
    : Json
  {
    if !MayTakeMessagePoint(messages, caps, enabled, used, ceiling) then messages
    else match LastEligible(messages.items)
      case None => messages
      case Some(i) => Array(messages.items[i := AddPoint(messages.items[i], ttl)])
  }

  /** The search from the end, and the push into the turn it finds. */
  method PlaceMessagePoint(messages: Json, caps: Caps, enabled: bool, used: nat, ceiling: Option<nat>,
                           ttl: Option<string>)
    returns (decorated: Json)
    ensures decorated == DecorateMessages(messages, caps, enabled, used, ceiling, ttl)
  {
    if !MayTakeMessagePoint(messages, caps, enabled, used, ceiling) {
      return messages;
    }
    var turns := messages.items;
    var i := |turns|;
    while i > 0
      invariant 0 <= i <= |turns|
      invariant forall j :: i <= j < |turns| ==> !Eligible(turns[j])
    {
      i := i - 1;
      if Eligible(turns[i]) {
        turns := turns[i := AddPoint(turns[i], ttl)];
        return Array(turns);
      }
    }
    return messages;
  }

  // ---- counting and erasing ----

  /** The cache points of a zone. */
  function CountPoints(v: Json): nat
    decreases v, 1
  {
    if v.Array? then CountBlocks(v.items) else 0
  }

  function CountBlocks(blocks: seq<Json>): nat
    decreases blocks, 0
  {
    if blocks == [] then 0 else CountBlocks(blocks[..|blocks| - 1]) + PointsIn(blocks[|blocks| - 1])
  }

  /** A message turn holds its points inside its content. */
  function PointsIn(block: Json): nat
    decreases block, 0
  {
    if IsPoint(block) then 1 else if HasKey(block, "content") then CountPoints(block.fields["content"]) else 0
  }

  /** The zone without its cache points. */
  function Erase(v: Json): Json
    decreases v, 1
  {
    if v.Array? then Array(EraseBlocks(v.items)) else v
  }

  function EraseBlocks(blocks: seq<Json>): seq<Json>
    decreases blocks, 0
  {
    if blocks == [] then [] else EraseBlocks(blocks[..|blocks| - 1]) + EraseBlock(blocks[|blocks| - 1])
  }

  function EraseBlock(block: Json): seq<Json>
    decreases block, 0
  {
    if IsPoint(block) then []
    else if HasKey(block, "content") then [Object(block.fields["content" := Erase(block.fields["content"])])]
    else [block]
  }

  lemma {:induction false} OneMoreBlock(blocks: seq<Json>, b: Json)
    ensures CountBlocks(blocks + [b]) == CountBlocks(blocks) + PointsIn(b)
    ensures EraseBlocks(blocks + [b]) == EraseBlocks(blocks) + EraseBlock(b)
  {
    assert (blocks + [b])[..|blocks|] == blocks;
  }

  lemma {:induction false} OneMorePoint(blocks: seq<Json>, ttl: Option<string>)
    ensures CountBlocks(blocks + [CachePoint(ttl)]) == CountBlocks(blocks) + 1
    ensures EraseBlocks(blocks + [CachePoint(ttl)]) == EraseBlocks(blocks)
  {
    OneMoreBlock(blocks, CachePoint(ttl));
  }

  lemma {:induction false} OneBlockReplaced(blocks: seq<Json>, i: nat, b: Json)
    requires i < |blocks| && EraseBlock(b) == EraseBlock(blocks[i])
    ensures CountBlocks(blocks[i := b]) == CountBlocks(blocks) - PointsIn(blocks[i]) + PointsIn(b)
    ensures EraseBlocks(blocks[i := b]) == EraseBlocks(blocks)
  {
    var n := |blocks| - 1;
    if i == n {
      assert blocks[i := b][..n] == blocks[..n];
    } else {
      OneBlockReplaced(blocks[..n], i, b);
      assert blocks[i := b][..n] == blocks[..n][i := b];
    }
  }

  /** Where there are no points, erasing them changes nothing. */
  lemma {:induction false} NothingToErase(v: Json)
    requires CountPoints(v) == 0
    ensures Erase(v) == v
    decreases v, 1
  {
    if v.Array? {
      NothingToEraseIn(v.items);
    }
  }

  lemma {:induction false} NothingToEraseIn(blocks: seq<Json>)
    requires CountBlocks(blocks) == 0
    ensures EraseBlocks(blocks) == blocks
    decreases blocks, 0
  {
    if blocks != [] {
      var last := blocks[|blocks| - 1];
      NothingToEraseIn(blocks[..|blocks| - 1]);
      if HasKey(last, "content") {
        NothingToErase(last.fields["content"]);
        assert last.fields["content" := last.fields["content"]] == last.fields;
      }
    }
  }

  // ---- each zone gains at most one point, and nothing else ----

  lemma {:induction false} ToolsGainAtMostOne(tools: Json, caps: Caps, enabled: bool, used: nat,
                                              ceiling: Option<nat>, ttl: Option<string>)
    ensures var decorated := DecorateTools(tools, caps, enabled, used, ceiling, ttl);
            && Erase(decorated) == Erase(tools)
            && CountPoints(decorated)
               == CountPoints(tools) + if TakesToolPoint(tools, caps, enabled, used, ceiling) then 1 else 0
  {
    if tools.Array? {
      OneMorePoint(tools.items, ttl);
    }
  }

  lemma {:induction false} SystemGainsAtMostOne(system: Json, caps: Caps, enabled: bool, ttl: Option<string>)
    ensures var decorated := DecorateSystem(system, caps, enabled, ttl);
            && Erase(decorated) == Erase(system)
            && CountPoints(decorated) == CountPoints(system) + if TakesSystemPoint(system, caps, enabled) then 1 else 0
  {
    if system.Array? {
      OneMorePoint(system.items, ttl);
    }
  }

  lemma {:induction false} TurnGainsOne(turn: Json, ttl: Option<string>)
    requires Eligible(turn)
    ensures EraseBlock(AddPoint(turn, ttl)) == EraseBlock(turn)
    ensures PointsIn(AddPoint(turn, ttl)) == PointsIn(turn) + if IsPoint(turn) then 0 else 1
  {
    var content := turn.fields["content"].items;
    OneMorePoint(content, ttl);
    var added := AddPoint(turn, ttl);
    assert added.fields["content"] == Array(content + [CachePoint(ttl)]);
    assert Erase(added.fields["content"]) == Erase(turn.fields["content"]);
    assert IsPoint(added) == IsPoint(turn);
    if !IsPoint(turn) {
      assert turn.fields["content" := added.fields["content"]]["content" := Erase(turn.fields["content"])]
             == turn.fields["content" := Erase(turn.fields["content"])];
    }
  }

  lemma {:induction false} MessagesGainAtMostOne(messages: Json, caps: Caps, enabled: bool, used: nat,
                                                 ceiling: Option<nat>, ttl: Option<string>)
    ensures var decorated := DecorateMessages(messages, caps, enabled, used, ceiling, ttl);
            && Erase(decorated) == Erase(messages)
            && CountPoints(messages) <= CountPoints(decorated) <= CountPoints(messages) + 1
            && (decorated != messages ==> HasRoom(used, ceiling))
  {
    if MayTakeMessagePoint(messages, caps, enabled, used, ceiling) && LastEligible(messages.items).Some? {
      var i := LastEligible(messages.items).value;
      TurnGainsOne(messages.items[i], ttl);
      OneBlockReplaced(messages.items, i, AddPoint(messages.items[i], ttl));
    }
  }

  // ---- decorating messages twice ----

  /** Only the last eligible user turn can change, and it does when there is one and caching may decorate. */
  lemma {:induction false} OnlyLastEligibleTurnChanges(messages: Json, caps: Caps, enabled: bool, used: nat,
                                                       ceiling: Option<nat>, ttl: Option<string>)
    requires messages.Array?
    ensures var decorated := DecorateMessages(messages, caps, enabled, used, ceiling, ttl);
            && decorated.Array? && |decorated.items| == |messages.items|
            && forall i :: 0 <= i < |messages.items| ==>
                 (decorated.items[i] != messages.items[i]
                  <==> && caps.SupportsCaching() && enabled && HasRoom(used, ceiling)
                       && Eligible(messages.items[i])
                       && forall j :: i < j < |messages.items| ==> !Eligible(messages.items[j]))
  {
    var last := LastEligible(messages.items);
    if last.Some? {
      DecoratedTurnIsNotEligible(messages.items[last.value], ttl);
    }
  }

  lemma {:induction false} DecoratedTurnIsNotEligible(turn: Json, ttl: Option<string>)
    requires Eligible(turn)
    ensures !Eligible(AddPoint(turn, ttl)) && AddPoint(turn, ttl) != turn
  {
    var content := turn.fields["content"].items;
    var added := content + [CachePoint(ttl)];
    assert added[|added| - 1] == CachePoint(ttl);
    assert AddPoint(turn, ttl).fields["content"] == Array(added) && |added| != |content|;
  }

  /**
   * Decorating messages is not idempotent: a second pass leaves them as they are exactly when the turn the
   * first pass decorated was the only eligible one; otherwise it decorates an earlier turn.
   */
  lemma {:induction false} SecondPassIsIdleIff(messages: Json, caps: Caps, ttl: Option<string>)
    requires messages.Array? && caps.SupportsCaching()
    ensures var once := DecorateMessages(messages, caps, true, 0, None, ttl);
            DecorateMessages(once, caps, true, 0, None, ttl) == once
            <==> forall i, j :: 0 <= i < j < |messages.items| ==>
               !(Eligible(messages.items[i]) && Eligible(messages.items[j]))
  {
    var turns := messages.items;
    if LastEligible(turns).Some? {
      var last := LastEligible(turns).value;
      DecoratedTurnIsNotEligible(turns[last], ttl);
      var once := turns[last := AddPoint(turns[last], ttl)];
      assert forall i :: 0 <= i < |turns| && i != last ==> once[i] == turns[i];
      if LastEligible(once).Some? {
        var i := LastEligible(once).value;
        assert Eligible(turns[i]) && i < last;
        DecoratedTurnIsNotEligible(once[i], ttl);
        assert once[i := AddPoint(once[i], ttl)][i] != once[i];
      }
    }
  }

  function UserTurn(text: string): Json {
    Object(map["role" := String("user"), "content" := Array([Object(map["text" := String(text)])])])
  }

  lemma {:induction false} UserTurnIsEligible(text: string)
    ensures Eligible(UserTurn(text))
  {
    var turn, block := UserTurn(text), Object(map["text" := String(text)]);
    assert turn.GetString("role") == Some("user") && turn.Get("content") == Some(Array([block]));
    assert block in [block] && !HasKey(block, "toolResult") && !IsPoint(block);
  }

  /** Two questions in a row: the second pass decorates the first of them. */
  lemma {:induction false} SecondPassDecoratesEarlier(one: string, two: string, caps: Caps, ttl: Option<string>)
    requires caps.SupportsCaching()
    ensures Eligible(UserTurn(one)) && Eligible(UserTurn(two))
    ensures var messages := Array([UserTurn(one), UserTurn(two)]);
            var once := DecorateMessages(messages, caps, true, 0, None, ttl);
            && once == Array([UserTurn(one), AddPoint(UserTurn(two), ttl)])
            && DecorateMessages(once, caps, true, 0, None, ttl)
               == Array([AddPoint(UserTurn(one), ttl), AddPoint(UserTurn(two), ttl)])
            && DecorateMessages(once, caps, true, 0, None, ttl) != once
  {
    UserTurnIsEligible(one);
    UserTurnIsEligible(two);
    DecoratedTurnIsNotEligible(UserTurn(one), ttl);
    DecoratedTurnIsNotEligible(UserTurn(two), ttl);
    var x, y, z := UserTurn(one), UserTurn(two), AddPoint(UserTurn(two), ttl);
    assert LastEligible([x, y]) == Some(1) && [x, y][1 := z] == [x, z];
    assert LastEligible([x, z]) == Some(0) && [x, z][0 := AddPoint(x, ttl)] == [AddPoint(x, ttl), z];
    assert [AddPoint(x, ttl), z][0] != [x, z][0];
  }
}
