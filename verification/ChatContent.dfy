/**
 * The content of an answer in its two forms: summaries and texts as they come when streamed, and one summary in
 * front of all that is visible in the plain answer. When the two are the same.
 */
module ChatContent {
  import opened Prelude
  import Schema = ResponsesSchema
  import opened ChatReplay
  import opened ChatCanonical

  function TextsOf(item: Schema.OutputItem): seq<string> {
    if item.Reasoning? then SummaryTexts(item.summary) else []
  }

  /** All summary parts of a response. */
  function AllTexts(output: seq<Schema.OutputItem>): seq<string> { FlatMap(TextsOf, output) }

  /** How many of them are not empty. */
  function Spoken(texts: seq<string>): nat {
    if texts == [] then 0 else (if texts[0] == "" then 0 else 1) + Spoken(texts[1..])
  }

  lemma {:induction false} BlocksAppend(a: seq<string>, b: seq<string>)
    ensures ThinkBlocks(a + b) == ThinkBlocks(a) + ThinkBlocks(b)
  {
    if a == [] {
      assert a + b == b;
    } else {
      assert (a + b)[1..] == a[1..] + b;
      BlocksAppend(a[1..], b);
    }
  }

  lemma {:induction false} SilentTexts(texts: seq<string>)
    ensures |ThinkBlocks(texts)| == |Concat(texts)| + 15 * Spoken(texts)
    ensures Spoken(texts) == 0 ==> ThinkBlocks(texts) == "" == Concat(texts)
    ensures Spoken(texts) == 0 <==> Concat(texts) == ""
  {
    if texts != [] {
      SilentTexts(texts[1..]);
    }
  }

  lemma {:induction false} OneBlock(texts: seq<string>)
    requires Spoken(texts) <= 1
    ensures ThinkBlocks(texts) == ThinkBlock(Concat(texts))
  {
    if texts != [] {
      SilentTexts(texts[1..]);
      OneBlock(texts[1..]);
      if texts[0] != "" {
        assert texts[0] + "" == texts[0] && ThinkBlock(texts[0]) + "" == ThinkBlock(texts[0]);
      }
    }
  }

  lemma {:induction false} SpokenAppend(a: seq<string>, b: seq<string>)
    ensures Spoken(a + b) == Spoken(a) + Spoken(b)
  {
    if a == [] {
      assert a + b == b;
    } else {
      assert (a + b)[1..] == a[1..] + b;
      SpokenAppend(a[1..], b);
    }
  }

  /** The text of an item that is streamed, and the refusals that are not. */
  function PlainTextOf(item: Schema.OutputItem): string { if item.Message? then Concat(TextParts(item.parts)) else "" }

  function RefusedPart(part: Schema.ContentPart): string { if part.Refusal? then part.refusal else "" }

  function RefusalsOf(item: Schema.OutputItem): string {
    if item.Message? then FlatMap(RefusedPart, item.parts) else ""
  }

  function PlainText(output: seq<Schema.OutputItem>): string { FlatMap(PlainTextOf, output) }

  function Refusals(output: seq<Schema.OutputItem>): string { FlatMap(RefusalsOf, output) }

  lemma {:induction false} ConcatFirst(x: string, xs: seq<string>)
    ensures Concat([x] + xs) == x + Concat(xs)
  {
    assert ([x] + xs)[1..] == xs;
  }

  lemma {:induction false} PartsAddUp(parts: seq<Schema.ContentPart>)
    ensures |FlatMap(PartOf, parts)| == |Concat(TextParts(parts))| + |FlatMap(RefusedPart, parts)|
    ensures FlatMap(RefusedPart, parts) == "" ==> FlatMap(PartOf, parts) == Concat(TextParts(parts))
  {
    if parts != [] {
      var part, rest := parts[0], parts[1..];
      assert parts == [part] + rest;
      FlatMapFirst(PartOf, part, rest);
      FlatMapFirst(RefusedPart, part, rest);
      PartsAddUp(rest);
      match part
      case OutputText(text) =>
        ConcatFirst(text, TextParts(rest));
        assert FlatMap(RefusedPart, parts) == "" + FlatMap(RefusedPart, rest) == FlatMap(RefusedPart, rest);
      case Refusal(_) =>
        assert TextParts(parts) == [] + TextParts(rest) == TextParts(rest);
    }
  }

  /** All steps of the texts of a response, by one item. */
  lemma {:induction false} TextsStep(before: seq<Schema.OutputItem>, last: Schema.OutputItem)
    ensures Streamed(before + [last]) == Streamed(before) + StreamedItem(last)
    ensures AllTexts(before + [last]) == AllTexts(before) + TextsOf(last)
    ensures VisibleText(before + [last]) == VisibleText(before) + TextOf(last)
    ensures PlainText(before + [last]) == PlainText(before) + PlainTextOf(last)
    ensures Refusals(before + [last]) == Refusals(before) + RefusalsOf(last)
  {
    FlatMapOne(StreamedItem, before, last);
    FlatMapOne(TextsOf, before, last);
    FlatMapOne(TextOf, before, last);
    FlatMapOne(PlainTextOf, before, last);
    FlatMapOne(RefusalsOf, before, last);
  }

  /** What is visible is the plain text and the refusals. */
  lemma {:induction false} VisibleAddsUp(output: seq<Schema.OutputItem>)
    ensures |VisibleText(output)| == |PlainText(output)| + |Refusals(output)|
    ensures Refusals(output) == "" ==> VisibleText(output) == PlainText(output)
  {
    if output != [] {
      var before, last := output[..|output| - 1], output[|output| - 1];
      assert output == before + [last];
      TextsStep(before, last);
      VisibleAddsUp(before);
      if last.Message? {
        PartsAddUp(last.parts);
      }
    }
  }

  /** What is streamed is the think blocks and the plain text. */
  lemma {:induction false} StreamedAddsUp(output: seq<Schema.OutputItem>)
    ensures |Streamed(output)| == |ThinkBlocks(AllTexts(output))| + |PlainText(output)|
  {
    if output != [] {
      var before, last := output[..|output| - 1], output[|output| - 1];
      assert output == before + [last];
      TextsStep(before, last);
      StreamedAddsUp(before);
      BlocksAppend(AllTexts(before), TextsOf(last));
    }
  }

  /** The plain text in front of the last summary that says anything. */
  function Early(output: seq<Schema.OutputItem>): string {
    if output == [] then ""
    else
      var before, last := output[..|output| - 1], output[|output| - 1];
      if Spoken(TextsOf(last)) > 0 then PlainText(before) else Early(before)
  }

  /** The block stands between the text in front of it and the text behind. */
  predicate Between(output: seq<Schema.OutputItem>, late: string) {
    && PlainText(output) == Early(output) + late
    && Streamed(output) == Early(output) + ThinkBlock(Concat(AllTexts(output))) + late
    && (Spoken(AllTexts(output)) == 0 ==> Early(output) == "")
  }

  lemma {:induction false} EarlyStep(before: seq<Schema.OutputItem>, last: Schema.OutputItem)
    ensures Early(before + [last]) == if Spoken(TextsOf(last)) > 0 then PlainText(before) else Early(before)
  {
    assert (before + [last])[..|before|] == before;
  }

  lemma {:induction false} SilentBehind(before: seq<Schema.OutputItem>, last: Schema.OutputItem, late: string)
    requires Between(before, late) && Spoken(TextsOf(last)) == 0
    ensures Between(before + [last], late + PlainTextOf(last))
  {
    TextsStep(before, last);
    EarlyStep(before, last);
    SilentItem(last);
    SpokenAppend(AllTexts(before), TextsOf(last));
    ConcatAppend(AllTexts(before), TextsOf(last));
    assert Concat(AllTexts(before)) + "" == Concat(AllTexts(before));
    TextBehind(Streamed(before), Early(before), ThinkBlock(Concat(AllTexts(before))), late, PlainTextOf(last));
  }

  lemma {:induction false} SpeakerBehind(before: seq<Schema.OutputItem>, last: Schema.OutputItem, late: string)
    requires Between(before, late) && Spoken(AllTexts(before)) == 0 && Spoken(TextsOf(last)) == 1
    ensures Between(before + [last], "")
  {
    TextsStep(before, last);
    EarlyStep(before, last);
    SilentTexts(AllTexts(before));
    OneBlock(TextsOf(last));
    SpokenAppend(AllTexts(before), TextsOf(last));
    ConcatAppend(AllTexts(before), TextsOf(last));
    assert last.Reasoning?;
    assert "" + Concat(TextsOf(last)) == Concat(TextsOf(last));
    NothingAround(Streamed(before), PlainText(before), late);
    assert PlainText(before) + "" == PlainText(before);
    assert PlainText(before) + ThinkBlock(Concat(TextsOf(last))) + ""
           == PlainText(before) + ThinkBlock(Concat(TextsOf(last)));
  }

  lemma {:induction false} NothingAround(shown: string, text: string, late: string)
    requires text == "" + late && shown == "" + "" + late
    ensures shown == text
  {
  }

  lemma {:induction false} BlockBetween(output: seq<Schema.OutputItem>) returns (late: string)
    requires Spoken(AllTexts(output)) <= 1
    ensures Between(output, late)
  {
    late := "";
    if output != [] {
      var before, last := output[..|output| - 1], output[|output| - 1];
      assert output == before + [last];
      TextsStep(before, last);
      SpokenAppend(AllTexts(before), TextsOf(last));
      var behind := BlockBetween(before);
      if Spoken(TextsOf(last)) == 0 {
        SilentBehind(before, last, behind);
        late := behind + PlainTextOf(last);
      } else {
        SpeakerBehind(before, last, behind);
      }
    }
  }

  lemma {:induction false} SilentItem(item: Schema.OutputItem)
    requires Spoken(TextsOf(item)) == 0
    ensures StreamedItem(item) == PlainTextOf(item) && Concat(TextsOf(item)) == ""
  {
    SilentTexts(TextsOf(item));
  }

  lemma {:induction false} TextBehind(shown: string, early: string, block: string, behind: string, more: string)
    requires shown == early + block + behind
    ensures shown + more == early + block + (behind + more)
    ensures early + behind + more == early + (behind + more)
  {
  }

  lemma {:induction false} SummaryIsAllTexts(output: seq<Schema.OutputItem>)
    ensures ReasoningSummary(Thoughts(output)) == Concat(AllTexts(output))
  {
    if output != [] {
      var before, last := output[..|output| - 1], output[|output| - 1];
      SummaryIsAllTexts(before);
      FlatMapAppend(ItemSummary, Thoughts(before), ThoughtsOf(last));
      ConcatAppend(AllTexts(before), TextsOf(last));
      if last.Reasoning? {
        var v := ToValue(last.id, last.content, last.summary, last.encryptedContent);
        SummaryIsTexts(last.id, last.content, last.summary, last.encryptedContent);
        FlatMapSingle(ItemSummary, v);
      }
    }
  }

  /** The streamed content of a response is the content of its plain answer. */
  predicate SameContent(output: seq<Schema.OutputItem>) {
    Streamed(output) == Render(ReasoningSummary(Thoughts(output)), VisibleText(output))
  }

  /** The text in front of the summary and the summary's block read the same either way round. */
  predicate Swaps(output: seq<Schema.OutputItem>) {
    var block := ThinkBlock(Concat(AllTexts(output)));
    Early(output) + block == block + Early(output)
  }

  /** Two think tags more for each part that speaks, and the refusals less. */
  lemma {:induction false} SameContentAddsUp(output: seq<Schema.OutputItem>)
    requires SameContent(output)
    ensures |Refusals(output)| == if Spoken(AllTexts(output)) == 0 then 0 else 15 * (Spoken(AllTexts(output)) - 1)
  {
    SummaryIsAllTexts(output);
    VisibleAddsUp(output);
    StreamedAddsUp(output);
    SilentTexts(AllTexts(output));
  }

  lemma {:induction false} SwapsIff(early: string, block: string, late: string)
    ensures early + block + late == block + (early + late) <==> early + block == block + early
  {
    assert block + (early + late) == (block + early) + late;
    assert (early + block + late)[..|early| + |block|] == early + block;
    assert ((block + early) + late)[..|early| + |block|] == block + early;
  }

  lemma {:induction false} OneSpeakerAgreesIff(output: seq<Schema.OutputItem>)
    requires Spoken(AllTexts(output)) <= 1
    ensures SameContent(output) <==> Refusals(output) == "" && Swaps(output)
  {
    var late := BlockBetween(output);
    var block := ThinkBlock(Concat(AllTexts(output)));
    SummaryIsAllTexts(output);
    VisibleAddsUp(output);
    SwapsIff(Early(output), block, late);
    assert Render(Concat(AllTexts(output)), VisibleText(output)) == block + VisibleText(output);
    if SameContent(output) {
      SameContentAddsUp(output);
    }
  }

  /**
   * When the streamed content is the plain content. With at most one summary part speaking: exactly when there
   * are no refusals, which are not streamed, and the text in front of the summary reads the same behind it.
   * Without refusals: exactly when, besides, at most one part speaks. Otherwise the two can only agree when the
   * refusals happen to be as long as the think tags that the further parts are streamed with.
   */
  lemma {:induction false} ContentAgreesIff(output: seq<Schema.OutputItem>)
    ensures var spoken := Spoken(AllTexts(output));
            && (spoken <= 1 ==> (SameContent(output) <==> Refusals(output) == "" && Swaps(output)))
            && (Refusals(output) == "" ==> (SameContent(output) <==> spoken <= 1 && Swaps(output)))
            && (SameContent(output) && spoken > 1 ==> |Refusals(output)| == 15 * (spoken - 1))
  {
    if Spoken(AllTexts(output)) <= 1 {
      OneSpeakerAgreesIff(output);
    }
    if SameContent(output) {
      SameContentAddsUp(output);
    }
  }

  /** A refusal is in the plain answer and is not streamed. */
  lemma {:induction false} RefusalIsNotStreamed(id: string, status: string, refusal: string)
    requires refusal != ""
    ensures var output := [Schema.Message(id, status, [Schema.Refusal(refusal)])];
            && Streamed(output) == "" && Render(ReasoningSummary(Thoughts(output)), VisibleText(output)) == refusal
            && !SameContent(output)
  {
    var part, item := Schema.Refusal(refusal), Schema.Message(id, status, [Schema.Refusal(refusal)]);
    FlatMapSingle(StreamedItem, item);
    FlatMapSingle(TextOf, item);
    FlatMapSingle(PartOf, part);
    FlatMapSingle(ThoughtsOf, item);
    assert TextParts([part]) == [] + TextParts([part][1..]) == [];
  }

  /** Text in front of a summary stays there when streamed, and stands behind it in the plain answer. */
  lemma {:induction false} TextBeforeSummaryIsMoved(said: Schema.OutputItem, why: Schema.OutputItem, text: string,
                                                    thought: string)
    requires said.Message? && said.parts == [Schema.OutputText(text)]
    requires why.Reasoning? && why.summary == Some(Schema.SummaryOf(thought))
    requires text != "" && text[0] != '<' && thought != ""
    ensures Streamed([said, why]) == text + ThinkBlock(thought)
    ensures Render(ReasoningSummary(Thoughts([said, why])), VisibleText([said, why])) == ThinkBlock(thought) + text
    ensures !SameContent([said, why])
  {
    Says(said, text);
    Thinks(why, thought);
    FlatMapSingle(StreamedItem, said);
    FlatMapSingle(TextOf, said);
    FlatMapSingle(TextsOf, said);
    TextsStep([said], why);
    assert [said, why] == [said] + [why];
    SummaryIsAllTexts([said, why]);
    ConcatFirst(thought, []);
    assert [] + [thought] == [thought] + [] == [thought] && thought + "" == thought && text + "" == text;
    assert (text + ThinkBlock(thought))[0] != (ThinkBlock(thought) + text)[0];
  }

  lemma {:induction false} Says(item: Schema.OutputItem, text: string)
    requires item.Message? && item.parts == [Schema.OutputText(text)]
    ensures StreamedItem(item) == TextOf(item) == text && TextsOf(item) == []
  {
    FlatMapSingle(PartOf, item.parts[0]);
    assert TextParts(item.parts) == [text] + TextParts(item.parts[1..]) == [text];
    ConcatFirst(text, []);
    assert [text] + [] == [text] && text + "" == text;
  }

  lemma {:induction false} Thinks(item: Schema.OutputItem, thought: string)
    requires item.Reasoning? && item.summary == Some(Schema.SummaryOf(thought))
    ensures TextsOf(item) == [thought] && StreamedItem(item) == ThinkBlock(thought) && TextOf(item) == ""
  {
    assert SummaryTexts(item.summary) == [thought];
    assert ThinkBlocks([thought]) == ThinkBlock(thought) + ThinkBlocks([thought][1..]) == ThinkBlock(thought);
  }

  // ---- texts without angle brackets ----

  /** No text that is streamed has a character that could be taken for the start of a think tag. */
  predicate TagFree(output: seq<Schema.OutputItem>) {
    '<' !in PlainText(output) && '<' !in Concat(AllTexts(output))
  }

  /** The first summary part that says anything. */
  function FirstSaid(texts: seq<string>): string {
    if texts == [] then "" else if texts[0] != "" then texts[0] else FirstSaid(texts[1..])
  }

  lemma {:induction false} FirstSaidLeads(texts: seq<string>)
    ensures FirstSaid(texts) <= Concat(texts) && ThinkBlock(FirstSaid(texts)) <= ThinkBlocks(texts)
    ensures FirstSaid(texts) == "" <==> Spoken(texts) == 0
    ensures Spoken(texts) > 1 ==> |FirstSaid(texts)| < |Concat(texts)|
  {
    if texts != [] {
      FirstSaidLeads(texts[1..]);
      SilentTexts(texts[1..]);
    }
  }

  lemma {:induction false} FirstSaidStays(a: seq<string>, b: seq<string>)
    ensures FirstSaid(a + b) == if FirstSaid(a) == "" then FirstSaid(b) else FirstSaid(a)
  {
    if a == [] {
      assert a + b == b;
    } else {
      assert (a + b)[1..] == a[1..] + b;
      FirstSaidStays(a[1..], b);
    }
  }

  /** What is streamed is nothing, or starts with text, or with the block of the first part that speaks. */
  predicate Starts(shown: string, first: string) {
    if shown == "" then first == "" else shown[0] == '<' ==> first != "" && ThinkBlock(first) <= shown
  }

  lemma {:induction false} ItemStarts(item: Schema.OutputItem)
    requires '<' !in PlainTextOf(item)
    ensures Starts(StreamedItem(item), FirstSaid(TextsOf(item)))
  {
    FirstSaidLeads(TextsOf(item));
    SilentTexts(TextsOf(item));
  }

  lemma {:induction false} StartsStays(shown: string, first: string, more: string, next: string)
    requires Starts(shown, first) && (shown == "" ==> Starts(more, next))
    ensures Starts(shown + more, if first == "" then next else first)
  {
    if shown == "" {
      assert shown + more == more;
    }
  }

  lemma {:induction false} StreamStarts(output: seq<Schema.OutputItem>)
    requires '<' !in PlainText(output)
    ensures Starts(Streamed(output), FirstSaid(AllTexts(output)))
  {
    if output != [] {
      var before, last := output[..|output| - 1], output[|output| - 1];
      assert output == before + [last];
      TextsStep(before, last);
      StreamStarts(before);
      ItemStarts(last);
      FirstSaidStays(AllTexts(before), TextsOf(last));
      StartsStays(Streamed(before), FirstSaid(AllTexts(before)), StreamedItem(last), FirstSaid(TextsOf(last)));
    }
  }

  /** The block of a part of the summary and the block of the whole part where the part ends. */
  lemma {:induction false} BlocksPart(first: string, all: string, shown: string, visible: string)
    requires first != "" && first <= all && |first| < |all| && '<' !in all
    requires Starts(shown, first)
    ensures shown != ThinkBlock(all) + visible
  {
    var plain, k := ThinkBlock(all) + visible, |first| + 7;
    assert plain[0] == '<' && plain[k] == all[|first|];
    if shown != "" && shown[0] == '<' {
      assert shown[k] == ThinkBlock(first)[k] == '<';
    }
  }

  lemma {:induction false} TagFreeSpeaksOnce(output: seq<Schema.OutputItem>)
    requires TagFree(output) && SameContent(output)
    ensures Spoken(AllTexts(output)) <= 1
  {
    if Spoken(AllTexts(output)) > 1 {
      StreamStarts(output);
      FirstSaidLeads(AllTexts(output));
      SummaryIsAllTexts(output);
      BlocksPart(FirstSaid(AllTexts(output)), Concat(AllTexts(output)), Streamed(output), VisibleText(output));
    }
  }

  lemma {:induction false} TagFreeSwaps(output: seq<Schema.OutputItem>)
    requires TagFree(output) && Spoken(AllTexts(output)) <= 1
    ensures Swaps(output) <==> Early(output) == ""
  {
    var late := BlockBetween(output);
    var early, block := Early(output), ThinkBlock(Concat(AllTexts(output)));
    SilentTexts(AllTexts(output));
    if early == "" {
      assert early + block == block == block + early;
    } else {
      assert PlainText(output)[0] == early[0] == (early + block)[0] && (block + early)[0] == '<';
    }
  }

  /**
   * Without angle brackets in its texts and summaries, whatever its refusals: the two contents are equal exactly
   * when nothing is refused, at most one summary part speaks, and no text stands in front of it.
   */
  lemma {:induction false} TagFreeContentAgreesIff(output: seq<Schema.OutputItem>)
    requires TagFree(output)
    ensures SameContent(output) <==> Refusals(output) == "" && Spoken(AllTexts(output)) <= 1 && Early(output) == ""
  {
    if SameContent(output) {
      TagFreeSpeaksOnce(output);
    }
    if Spoken(AllTexts(output)) <= 1 {
      OneSpeakerAgreesIff(output);
      TagFreeSwaps(output);
    }
  }

  /** With angle brackets a refusal can stand in for the tags of a second part. */
  lemma {:induction false} RefusalsMayMakeUpForTags(one: Schema.OutputItem, two: Schema.OutputItem,
                                                    three: Schema.OutputItem, thought: string)
    requires one.Reasoning? && one.summary == Some(Schema.SummaryOf(thought)) && thought != ""
    requires two.Reasoning? && two.summary == Some(Schema.SummaryOf("</think><think>"))
    requires three.Message? && three.parts == [Schema.Refusal("<think></think>")]
    ensures SameContent([one, two, three]) && Spoken(AllTexts([one, two, three])) == 2
  {
    var tags, refusal, all := "</think><think>", "<think></think>", [one, two, three];
    Thinks(one, thought);
    Thinks(two, tags);
    Refuses(three, refusal);
    ThreeItems(one, two, three, thought, tags, refusal);
    TwoTexts(thought, tags);
    TagsSwap(thought, tags, refusal);
    SummaryIsAllTexts(all);
    assert Streamed(all) == Render(Concat(AllTexts(all)), VisibleText(all));
  }

  lemma {:induction false} ThreeItems(one: Schema.OutputItem, two: Schema.OutputItem, three: Schema.OutputItem,
                                      a: string, b: string, refusal: string)
    requires StreamedItem(one) == ThinkBlock(a) && TextsOf(one) == [a] && TextOf(one) == ""
    requires StreamedItem(two) == ThinkBlock(b) && TextsOf(two) == [b] && TextOf(two) == ""
    requires StreamedItem(three) == "" && TextsOf(three) == [] && TextOf(three) == refusal
    ensures Streamed([one, two, three]) == ThinkBlock(a) + ThinkBlock(b)
    ensures AllTexts([one, two, three]) == [a] + [b] && VisibleText([one, two, three]) == refusal
  {
    FlatMapSingle(StreamedItem, one);
    FlatMapSingle(TextsOf, one);
    FlatMapSingle(TextOf, one);
    TextsStep([one], two);
    TextsStep([one, two], three);
    assert [one] + [two] == [one, two] && [one, two] + [three] == [one, two, three];
    assert [a] + [b] + [] == [a] + [b] && "" + "" == "" && "" + refusal == refusal;
    assert ThinkBlock(a) + ThinkBlock(b) + "" == ThinkBlock(a) + ThinkBlock(b);
  }

  lemma {:induction false} TagsSwap(thought: string, tags: string, refusal: string)
    requires thought != "" && tags == "</think><think>" && refusal == "<think></think>"
    ensures ThinkBlock(thought) + ThinkBlock(tags) == Render(thought + tags, refusal)
  {
    var open, close := "<think>", "</think>";
    assert tags == close + open && refusal == open + close;
    Regroup(open, thought, close);
  }

  lemma {:induction false} Regroup(open: string, thought: string, close: string)
    ensures (open + thought + close) + (open + (close + open) + close)
            == open + (thought + (close + open)) + close + (open + close)
  {
  }

  lemma {:induction false} TwoTexts(a: string, b: string)
    requires a != "" && b != ""
    ensures Concat([a] + [b]) == a + b && Spoken([a] + [b]) == 2
  {
    assert [a][1..] == [] && [b][1..] == [];
    SpokenAppend([a], [b]);
    ConcatFirst(b, []);
    assert [b] + [] == [b] && b + "" == b;
    ConcatFirst(a, [b]);
  }

  lemma {:induction false} Refuses(item: Schema.OutputItem, refusal: string)
    requires item.Message? && item.parts == [Schema.Refusal(refusal)]
    ensures StreamedItem(item) == "" && TextOf(item) == refusal && TextsOf(item) == []
  {
    FlatMapSingle(PartOf, item.parts[0]);
    assert TextParts(item.parts) == [] + TextParts(item.parts[1..]) == [];
  }
}
