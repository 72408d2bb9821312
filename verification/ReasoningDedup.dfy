/** Removing the copies of a reasoning item that several replayed tool calls of one turn bring along. */
module ReasoningDedup {
  import opened Prelude
  import opened ChatSchema

  function IdOf(item: InputItem): Option<string> { if item.Reasoning? then item.id else None }

  predicate SameId(x: InputItem, y: InputItem) { IdOf(x).Some? && IdOf(x) == IdOf(y) }

  /** Two items share a reasoning id and say different things. */
  predicate Conflicting(items: seq<InputItem>) {
    exists i, j :: 0 <= i < |items| && 0 <= j < |items| && SameId(items[i], items[j]) && items[i] != items[j]
  }

  predicate Repeats(before: seq<InputItem>, item: InputItem) { exists y <- before :: SameId(y, item) }

  /** The items without those whose reasoning id an earlier one has. */
  function FirstOccurrences(items: seq<InputItem>): seq<InputItem> {
    if items == [] then []
    else
      var before, last := items[..|items| - 1], items[|items| - 1];
      FirstOccurrences(before) + (if Repeats(before, last) then [] else [last])
  }

  datatype DedupError = ConflictingPayloads

  function Deduplicated(items: seq<InputItem>): Result<seq<InputItem>, DedupError> {
    if Conflicting(items) then Err(ConflictingPayloads) else Ok(FirstOccurrences(items))
  }

  // ---- the loop ----

  /** Where the loop has put each reasoning id it has seen. */
  ghost predicate Indexed(done: seq<InputItem>, seen: map<string, nat>, out: seq<InputItem>) {
    && (forall id <- seen :: seen[id] < |out| && IdOf(out[seen[id]]) == Some(id))
    && (forall i :: 0 <= i < |done| && IdOf(done[i]).Some? ==>
          IdOf(done[i]).value in seen && out[seen[IdOf(done[i]).value]] == done[i])
    && (forall id <- seen :: Repeats(done, out[seen[id]]))
  }

  lemma {:induction false} IndexedMeansSeen(done: seq<InputItem>, seen: map<string, nat>, out: seq<InputItem>,
                                            item: InputItem)
    requires Indexed(done, seen, out)
    ensures Repeats(done, item) <==> IdOf(item).Some? && IdOf(item).value in seen
  {
    if Repeats(done, item) {
      var i :| 0 <= i < |done| && SameId(done[i], item);
      assert IdOf(done[i]).value in seen;
    }
    if IdOf(item).Some? && IdOf(item).value in seen {
      var y :| y in done && SameId(y, out[seen[IdOf(item).value]]);
      assert SameId(y, item);
    }
  }

  lemma {:induction false} FirstOccurrencesStep(done: seq<InputItem>, item: InputItem)
    ensures FirstOccurrences(done + [item]) == if Repeats(done, item) then FirstOccurrences(done)
                                               else FirstOccurrences(done) + [item]
  {
    assert (done + [item])[..|done|] == done;
  }

  /** A conflict is between the new item and the one kept under its id. */
  lemma {:induction false} KeptDiffers(items: seq<InputItem>, n: nat, seen: map<string, nat>, out: seq<InputItem>)
    requires n < |items| && Indexed(items[..n], seen, out) && IdOf(items[n]).Some?
    requires IdOf(items[n]).value in seen && out[seen[IdOf(items[n]).value]] != items[n]
    ensures Conflicting(items)
  {
    var kept := out[seen[IdOf(items[n]).value]];
    var y :| y in items[..n] && SameId(y, kept);
    var i :| 0 <= i < n && items[..n][i] == y;
    assert items[..n][i] == kept;
    assert SameId(items[i], items[n]) && items[i] != items[n];
  }

  lemma {:induction false} IndexedIsConsistent(done: seq<InputItem>, seen: map<string, nat>, out: seq<InputItem>)
    requires Indexed(done, seen, out)
    ensures !Conflicting(done)
  {
  }

  method Dedupe(items: seq<InputItem>) returns (r: Result<seq<InputItem>, DedupError>)
    ensures r == Deduplicated(items)
  {
    var seen: map<string, nat> := map[];
    var out: seq<InputItem> := [];
    ghost var done: seq<InputItem> := [];
    for n := 0 to |items|
      invariant done == items[..n]
      invariant Indexed(done, seen, out) && out == FirstOccurrences(done)
    {
      var item := items[n];
      DedupeStep(done, seen, out, item);
      if item.Reasoning? && item.id.Some? {
        var id := item.id.value;
        if id in seen {
          if out[seen[id]] != item {
            KeptDiffers(items, n, seen, out);
            return Err(ConflictingPayloads);
          }
        } else {
          seen := seen[id := |out|];
          out := out + [item];
        }
      } else {
        out := out + [item];
      }
      done := done + [item];
    }
    assert done == items;
    IndexedIsConsistent(items, seen, out);
    return Ok(out);
  }

  lemma {:induction false} DedupeStep(done: seq<InputItem>, seen: map<string, nat>, out: seq<InputItem>,
                                      item: InputItem)
    requires Indexed(done, seen, out) && out == FirstOccurrences(done)
    ensures match IdOf(item)
            case None => Indexed(done + [item], seen, out + [item]) && FirstOccurrences(done + [item]) == out + [item]
            case Some(id) =>
              if id !in seen then
                && Indexed(done + [item], seen[id := |out|], out + [item])
                && FirstOccurrences(done + [item]) == out + [item]
              else
                out[seen[id]] == item ==> Indexed(done + [item], seen, out) && FirstOccurrences(done + [item]) == out
  {
    FirstOccurrencesStep(done, item);
    IndexedMeansSeen(done, seen, out, item);
    match IdOf(item)
    case None =>
      IndexedOther(done, seen, out, item);
    case Some(id) =>
      if id !in seen {
        IndexedNew(done, seen, out, item);
      } else if out[seen[id]] == item {
        IndexedRepeat(done, seen, out, item);
      }
  }

  lemma {:induction false} RepeatsMore(done: seq<InputItem>, item: InputItem, x: InputItem)
    ensures Repeats(done, x) ==> Repeats(done + [item], x)
    ensures SameId(item, x) ==> Repeats(done + [item], x)
  {
    if Repeats(done, x) {
      var y :| y in done && SameId(y, x);
      assert y in done + [item];
    }
    assert item in done + [item];
  }

  lemma {:induction false} IndexedRepeat(done: seq<InputItem>, seen: map<string, nat>, out: seq<InputItem>,
                                         item: InputItem)
    requires Indexed(done, seen, out) && IdOf(item).Some? && IdOf(item).value in seen
    requires out[seen[IdOf(item).value]] == item
    ensures Indexed(done + [item], seen, out)
  {
    forall id <- seen ensures Repeats(done + [item], out[seen[id]]) {
      RepeatsMore(done, item, out[seen[id]]);
    }
  }

  lemma {:induction false} IndexedNew(done: seq<InputItem>, seen: map<string, nat>, out: seq<InputItem>,
                                      item: InputItem)
    requires Indexed(done, seen, out) && IdOf(item).Some? && IdOf(item).value !in seen
    ensures Indexed(done + [item], seen[IdOf(item).value := |out|], out + [item])
  {
    var now := seen[IdOf(item).value := |out|];
    forall id <- now ensures Repeats(done + [item], (out + [item])[now[id]]) {
      RepeatsMore(done, item, (out + [item])[now[id]]);
    }
  }

  lemma {:induction false} IndexedOther(done: seq<InputItem>, seen: map<string, nat>, out: seq<InputItem>,
                                        item: InputItem)
    requires Indexed(done, seen, out) && IdOf(item).None?
    ensures Indexed(done + [item], seen, out + [item])
  {
    forall id <- seen ensures Repeats(done + [item], (out + [item])[seen[id]]) {
      RepeatsMore(done, item, out[seen[id]]);
    }
  }

  // ---- what de-duplication keeps ----

  predicate DistinctIds(items: seq<InputItem>) {
    forall i, j :: 0 <= i < j < |items| ==> !SameId(items[i], items[j])
  }

  /** The items no id tells apart: everything that is not reasoning, and reasoning without an id. */
  function Unidentified(items: seq<InputItem>): seq<InputItem> {
    FlatMap((x: InputItem) => if IdOf(x).None? then [x] else [], items)
  }

  lemma {:induction false} UnidentifiedStep(before: seq<InputItem>, last: InputItem)
    ensures Unidentified(before + [last])
            == if IdOf(last).None? then Unidentified(before) + [last] else Unidentified(before)
  {
    FlatMapOne((x: InputItem) => if IdOf(x).None? then [x] else [], before, last);
  }

  lemma {:induction false} KeepsUnidentified(items: seq<InputItem>)
    ensures Unidentified(FirstOccurrences(items)) == Unidentified(items)
  {
    if items != [] {
      var before, last := items[..|items| - 1], items[|items| - 1];
      KeepsUnidentified(before);
      assert items == before + [last];
      FirstOccurrencesStep(before, last);
      UnidentifiedStep(before, last);
      UnidentifiedStep(FirstOccurrences(before), last);
      assert Repeats(before, last) ==> IdOf(last).Some?;
    }
  }

  lemma {:induction false} KeepsIds(items: seq<InputItem>, x: InputItem)
    ensures Repeats(FirstOccurrences(items), x) <==> Repeats(items, x)
    ensures x in FirstOccurrences(items) ==> x in items
  {
    if items != [] {
      var before, last := items[..|items| - 1], items[|items| - 1];
      KeepsIds(before, x);
      assert items == before + [last];
      RepeatsStep(before, last, x);
      RepeatsStep(FirstOccurrences(before), last, x);
      RepeatsAlike(before, last, x);
    }
  }

  lemma {:induction false} LeavesDistinctIds(items: seq<InputItem>)
    ensures DistinctIds(FirstOccurrences(items))
  {
    if items != [] {
      var before, last := items[..|items| - 1], items[|items| - 1];
      LeavesDistinctIds(before);
      KeepsIds(before, last);
      var out := FirstOccurrences(before);
      assert forall i :: 0 <= i < |out| ==> out[i] in out;
    }
  }

  lemma {:induction false} RepeatsStep(before: seq<InputItem>, last: InputItem, x: InputItem)
    ensures Repeats(before + [last], x) <==> Repeats(before, x) || SameId(last, x)
  {
    RepeatsMore(before, last, x);
    if Repeats(before + [last], x) && !SameId(last, x) {
      var y :| y in before + [last] && SameId(y, x);
      assert y in before;
    }
  }

  lemma {:induction false} RepeatsAlike(before: seq<InputItem>, last: InputItem, x: InputItem)
    ensures Repeats(before, last) && SameId(last, x) ==> Repeats(before, x)
  {
    if Repeats(before, last) && SameId(last, x) {
      var y :| y in before && SameId(y, last);
      assert SameId(y, x);
    }
  }

  /** Every reasoning id is new where it stands. */
  predicate EachIsNew(items: seq<InputItem>) {
    items != [] ==> EachIsNew(items[..|items| - 1]) && !Repeats(items[..|items| - 1], items[|items| - 1])
  }

  lemma {:induction false} DistinctIsNew(items: seq<InputItem>)
    requires DistinctIds(items)
    ensures EachIsNew(items)
  {
    if items != [] {
      PrefixIsDistinct(items);
      DistinctIsNew(items[..|items| - 1]);
      LastIsNew(items);
    }
  }

  lemma {:induction false} NewIsUntouched(items: seq<InputItem>)
    requires EachIsNew(items)
    ensures FirstOccurrences(items) == items
  {
    if items != [] {
      NewIsUntouched(items[..|items| - 1]);
      assert items == items[..|items| - 1] + [items[|items| - 1]];
    }
  }

  lemma {:induction false} DistinctIsUntouched(items: seq<InputItem>)
    requires DistinctIds(items)
    ensures FirstOccurrences(items) == items
  {
    DistinctIsNew(items);
    NewIsUntouched(items);
  }

  lemma {:induction false} PrefixIsDistinct(items: seq<InputItem>)
    requires items != [] && DistinctIds(items)
    ensures DistinctIds(items[..|items| - 1])
  {
  }

  lemma {:induction false} LastIsNew(items: seq<InputItem>)
    requires items != [] && DistinctIds(items)
    ensures !Repeats(items[..|items| - 1], items[|items| - 1])
  {
    var before := items[..|items| - 1];
    forall y | y in before ensures !SameId(y, items[|items| - 1]) {
      var i :| 0 <= i < |before| && before[i] == y;
      assert items[i] == y;
    }
  }

  lemma {:induction false} DistinctIsConsistent(items: seq<InputItem>)
    requires DistinctIds(items)
    ensures !Conflicting(items)
  {
    forall i, j | 0 <= i < |items| && 0 <= j < |items| && SameId(items[i], items[j]) ensures i == j {
      assert SameId(items[j], items[i]);
    }
  }

  /**
   * De-duplication fails exactly when two items share a reasoning id and differ; otherwise it leaves
   * every reasoning id once, loses none, keeps every other item in order, and changes nothing when
   * applied again.
   */
  lemma {:induction false} DedupeKeepsEachIdOnce(items: seq<InputItem>)
    ensures Deduplicated(items).Err? <==> Conflicting(items)
    ensures match Deduplicated(items)
            case Err(_) => true
            case Ok(out) =>
              && DistinctIds(out)
              && (forall x <- items :: IdOf(x).Some? ==> x in out)
              && (forall x <- out :: x in items)
              && Unidentified(out) == Unidentified(items)
              && Deduplicated(out) == Ok(out)
  {
    var out := FirstOccurrences(items);
    KeepsUnidentified(items);
    LeavesDistinctIds(items);
    DistinctIsUntouched(out);
    DistinctIsConsistent(out);
    forall x ensures (Repeats(out, x) <==> Repeats(items, x)) && (x in out ==> x in items) {
      KeepsIds(items, x);
    }
    if !Conflicting(items) {
      forall x <- items | IdOf(x).Some? ensures x in out {
        assert SameId(x, x);
        assert Repeats(out, x);
        var y :| y in out && SameId(y, x);
        var i :| 0 <= i < |items| && items[i] == x;
        var j :| 0 <= j < |items| && items[j] == y;
        assert SameId(items[j], items[i]);
      }
    }
  }
}
