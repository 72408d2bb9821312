/** What a decorated request says: which zones take a cache point, where, and how long it is to live. */
module CacheReport {
  import opened Prelude
  import opened Json
  import opened Cache
  import opened CacheAssembly

  // ---- counting words ----

  predicate IsWord(s: string) { s != "" && forall c <- s :: !IsWhitespace(c) }

  lemma {:induction false} WordIsOne(s: string)
    requires IsWord(s)
    ensures Words(s) == 1
  {
    assert s[0] in s;
    if |s| > 1 {
      assert s[1] in s && forall c <- s[1..] :: c in s;
      WordIsOne(s[1..]);
    } else {
      assert s[1..] == "";
    }
  }

  /** The words on the two sides of a white space add up. */
  lemma {:induction false} WordsAdd(a: string, c: char, b: string)
    requires IsWhitespace(c)
    ensures Words(a + [c] + b) == Words(a) + Words(b)
  {
    var s := a + [c] + b;
    if a == "" {
      assert s[1..] == b;
    } else {
      assert s[1..] == a[1..] + [c] + b && s[0] == a[0];
      WordsAdd(a[1..], c, b);
      if |a| > 1 {
        assert s[1] == a[1];
      } else {
        assert s[1] == c && a[1..] == "";
      }
    }
  }

  /** The estimate is 1.3 tokens a word, rounded half up, in 32 bits. */
  lemma {:induction false} EstimateIs(blocks: seq<Json>)
    ensures var words, tokens := BlockWords(blocks), EstimateTokens(blocks);
            if 13 * words + 5 < 10 * 0x1_0000_0000 then 13 * words - 5 < 10 * tokens <= 13 * words + 5
            else tokens == 0xFFFF_FFFF
  {
  }

  /** The text of a block; a block without any has no words. */
  function TextIn(block: Json): string {
    match block
    case Object(fields) => if "text" in fields && fields["text"].String? then fields["text"].text else ""
    case _ => ""
  }

  lemma {:induction false} BlockWordsAdd(blocks: seq<Json>, block: Json)
    ensures BlockWords([]) == 0 && BlockWords(blocks + [block]) == BlockWords(blocks) + Words(TextIn(block))
  {
    assert (blocks + [block])[..|blocks|] == blocks;
  }

  // ---- counting points ----

  /** The points of a list are those of its blocks; a block that is none itself has those of its content. */
  lemma {:induction false} PointsAre(list: Json, blocks: seq<Json>, block: Json)
    ensures !list.Array? ==> CountPoints(list) == 0
    ensures CountPoints(Array([])) == 0
    ensures CountPoints(Array(blocks + [block]))
            == CountPoints(Array(blocks))
               + if block.Object? && "cachePoint" in block.fields then 1
                 else if block.Object? && "content" in block.fields then CountPoints(block.fields["content"])
                 else 0
  {
    OneMoreBlock(blocks, block);
  }

  // ---- what decides ----

  /** A request's own word on a zone counts before the default; a model that rejected points gets none. */
  predicate SystemWanted(policy: Policy, off: bool) {
    !off && match policy.control.system case Some(wanted) => wanted case None => policy.globalDefault
  }

  predicate MessagesWanted(policy: Policy, off: bool) {
    !off && match policy.control.messages case Some(wanted) => wanted case None => policy.globalDefault
  }

  /** How long a point is to live: as the request asks, or by default; an hour only where the model offers it. */
  function Lifetime(policy: Policy): string {
    var asked := match policy.control.ttl case Some(ttl) => ttl case None => policy.ttlDefault;
    if asked == "1h" && !policy.caps.ttl1h then "5m" else asked
  }

  predicate CachesAtAll(caps: Caps) { caps.minTokens != None || caps.maxTokens != None }

  /** How many points the model takes: four unless it is known. */
  function Allowed(policy: Policy): nat {
    match policy.caps.maxCheckpoints case Some(n) => n case None => 4
  }

  function PointOf(policy: Policy): Json {
    Object(map["cachePoint" := Object(map["type" := String("default"), "ttl" := String(Lifetime(policy))])])
  }

  /** A list that is there, and does not end in a point already. */
  predicate IsOpenList(list: Json) {
    && list.Array? && list.items != []
    && var last := list.items[|list.items| - 1];
       !(last.Object? && "cachePoint" in last.fields)
  }

  function WithPoint(list: Json, policy: Policy): Json
    requires list.Array?
  {
    Array(list.items + [PointOf(policy)])
  }

  lemma {:induction false} PolicyIs(policy: Policy, off: bool)
    ensures policy.SystemOn(off) <==> SystemWanted(policy, off)
    ensures policy.MessagesOn(off) <==> MessagesWanted(policy, off)
    ensures policy.Ceiling() == Allowed(policy) && policy.Ttl() == Some(Lifetime(policy))
    ensures CachePoint(policy.Ttl()) == PointOf(policy)
    ensures policy.caps.SupportsCaching() <==> CachesAtAll(policy.caps)
  {
    assert "1h"[0] != "5m"[0];
  }

  // ---- the tools and the system prompt ----

  /** The tools come first: they take a point when they are wanted and any point is allowed. */
  lemma {:induction false} ToolsTakeAPoint(policy: Policy, args: Args, off: bool)
    ensures var decorated := Decorate(policy, args, off).toolConfig;
            if args.toolConfig.Some? && args.toolConfig.value.Object? && "tools" in args.toolConfig.value.fields
               && CachesAtAll(policy.caps) && SystemWanted(policy, off) && Allowed(policy) > 0
               && IsOpenList(args.toolConfig.value.fields["tools"])
            then
              var fields := args.toolConfig.value.fields;
              decorated == Some(Object(fields["tools" := WithPoint(fields["tools"], policy)]))
            else decorated == args.toolConfig
  {
    PolicyIs(policy, off);
    if ToolsOf(args.toolConfig).Some? {
      var fields := args.toolConfig.value.fields;
      assert fields["tools" := fields["tools"]] == fields;
    }
  }

  /** The system prompt takes one when it is wanted and long enough, whatever is allowed, even behind another. */
  lemma {:induction false} SystemTakesAPoint(policy: Policy, args: Args, off: bool)
    ensures var list := args.system;
            Decorate(policy, args, off).system
            == if list.Array? && list.items != [] && CachesAtAll(policy.caps) && SystemWanted(policy, off)
                  && (match policy.caps.minTokens case Some(n) => n <= EstimateTokens(list.items) case None => true)
               then WithPoint(list, policy) else list
  {
    PolicyIs(policy, off);
  }

  // ---- the messages ----

  /** A turn of the user's with content that is not just tool results. */
  predicate IsQuestion(turn: Json) {
    && turn.Object? && "role" in turn.fields && turn.fields["role"] == String("user")
    && "content" in turn.fields && IsOpenList(turn.fields["content"])
    && exists i :: 0 <= i < |turn.fields["content"].items| && !IsToolResult(turn.fields["content"].items[i])
  }

  predicate IsToolResult(block: Json) { block.Object? && "toolResult" in block.fields }

  lemma {:induction false} QuestionIsEligible(turn: Json)
    ensures Eligible(turn) <==> IsQuestion(turn)
  {
    if turn.Object? && "content" in turn.fields && turn.fields["content"].Array? {
      var content := turn.fields["content"].items;
      if i :| 0 <= i < |content| && !IsToolResult(content[i]) {
        assert content[i] in content && !HasKey(content[i], "toolResult");
      }
      if b :| b in content && !HasKey(b, "toolResult") {
        var i :| 0 <= i < |content| && content[i] == b;
        assert !IsToolResult(content[i]);
      }
    }
  }

  predicate IsLastQuestion(turns: seq<Json>, i: nat) {
    i < |turns| && IsQuestion(turns[i]) && forall j :: i < j < |turns| ==> !IsQuestion(turns[j])
  }

  function QuestionWithPoint(turn: Json, policy: Policy): Json
    requires IsQuestion(turn)
  {
    Object(turn.fields["content" := WithPoint(turn.fields["content"], policy)])
  }

  /** The messages may still take a point. */
  predicate MessagesMay(policy: Policy, decorated: Args, off: bool) {
    && CachesAtAll(policy.caps) && MessagesWanted(policy, off)
    && CountTools(decorated.toolConfig) + CountPoints(decorated.system) < Allowed(policy)
  }

  /** The last question takes the point, at the end of its content, when the other zones have left room for it. */
  lemma {:induction false} LastQuestionTakesAPoint(policy: Policy, args: Args, off: bool)
    requires args.messages.Array?
    ensures var turns, d := args.messages.items, Decorate(policy, args, off);
            && (forall i: nat :: IsLastQuestion(turns, i) && MessagesMay(policy, d, off) ==>
                  d.messages == Array(turns[i := QuestionWithPoint(turns[i], policy)]))
            && ((forall i: nat :: !IsLastQuestion(turns, i)) || !MessagesMay(policy, d, off) ==>
                  d.messages == args.messages)
  {
    var turns, d := args.messages.items, Decorate(policy, args, off);
    PolicyIs(policy, off);
    forall i | 0 <= i < |turns| ensures Eligible(turns[i]) <==> IsQuestion(turns[i]) {
      QuestionIsEligible(turns[i]);
    }
    var last := LastEligible(turns);
    if last.Some? {
      assert IsLastQuestion(turns, last.value);
      assert forall i: nat :: IsLastQuestion(turns, i) ==> i == last.value;
    }
  }
}
