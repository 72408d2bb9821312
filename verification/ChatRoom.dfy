/** The room in a capsule: a reasoning item with a further field may not fit although its typed form does. */
module ChatRoom {
  import opened Prelude
  import opened Json
  import Schema = ResponsesSchema
  import opened Base64Url
  import opened Capsule
  import opened ChatReplay
  import opened ChatEvents
  import opened ChatStream
  import opened ChatCanonical
  import opened ChatAgreement

  // ---- there are only so many short sequences of octets ----

  /** All sequences of at most `n` octets. */
  function UpTo(n: nat): set<seq<Octet>> {
    if n == 0 then {[]}
    else {[]} + set o, rest | o in OctetsBelow(256) && rest in UpTo(n - 1) :: [o] + rest
  }

  function OctetsBelow(n: nat): (r: set<Octet>)
    requires n <= 256
    ensures forall o: Octet :: o < n ==> o in r
  {
    if n == 0 then {} else OctetsBelow(n - 1) + {n - 1}
  }

  lemma {:induction false} ShortIsUpTo(b: seq<Octet>, n: nat)
    requires |b| <= n
    ensures b in UpTo(n)
  {
    if b != [] {
      ShortIsUpTo(b[1..], n - 1);
      assert b == [b[0]] + b[1..] && b[0] in OctetsBelow(256);
    }
  }

  function FirstOnes(text: nat -> seq<Octet>, n: nat): set<seq<Octet>> {
    if n == 0 then {} else FirstOnes(text, n - 1) + {text(n - 1)}
  }

  /** Different octets for every number. */
  ghost predicate Tells(text: nat -> seq<Octet>) { forall i, j :: i < j ==> text(i) != text(j) }

  lemma {:induction false} FirstOnesAre(text: nat -> seq<Octet>, n: nat)
    requires Tells(text)
    ensures |FirstOnes(text, n)| == n
    ensures forall b <- FirstOnes(text, n) :: exists i :: 0 <= i < n && b == text(i)
  {
    if n > 0 {
      FirstOnesAre(text, n - 1);
      assert text(n - 1) !in FirstOnes(text, n - 1);
    }
  }

  /** Of different texts for every number one is longer than any bound. */
  lemma {:induction false} OneIsLong(text: nat -> seq<Octet>, bound: nat) returns (k: nat)
    requires Tells(text)
    ensures |text(k)| > bound
  {
    var n := |UpTo(bound)| + 1;
    var ones := FirstOnes(text, n);
    FirstOnesAre(text, n);
    if forall i :: 0 <= i < n ==> |text(i)| <= bound {
      forall b | b in ones ensures b in UpTo(bound) {
        ShortIsUpTo(b, bound);
      }
      FewerInside(ones, UpTo(bound));
      assert false;
    }
    k :| 0 <= k < n && |text(k)| > bound;
  }

  lemma {:induction false} FewerInside<T>(a: set<T>, b: set<T>)
    requires a <= b
    ensures |a| <= |b|
  {
    assert b == a + (b - a);
  }

  // ---- a capsule is no shorter than what it carries ----

  lemma {:induction false} Utf8IsLonger(s: string)
    ensures Utf8Length(s) >= |s|
  {
    if s != [] {
      Utf8IsLonger(s[1..]);
    }
  }

  lemma {:induction false} SextetsAreMore(b: seq<Octet>)
    ensures |ToSextets(b)| >= |b|
  {
    if |b| > 2 {
      SextetsAreMore(b[3..]);
    }
  }

  lemma {:induction false} SignedIsLonger(lib: Library, prefix: string, key: Key, payload: seq<Octet>)
    ensures Utf8Length(Signed(lib, prefix, key, payload)) >= |payload|
  {
    Utf8IsLonger(Signed(lib, prefix, key, payload));
    SextetsAreMore(payload);
    assert |Encode(payload)| == |ToSextets(payload)|;
  }

  // ---- a status that does not fit ----

  function Status(k: nat): string { seq(k, _ => 'x') }

  function PayloadWith(lib: Library, kid: string, callId: string, v: Json, k: nat): seq<Octet>
    requires v.Object?
  {
    lib.printResponses(ResponsesPayload(1, kid, callId, [Object(v.fields["status" := String(Status(k))])]))
  }

  lemma {:induction false} PayloadsDiffer(lib: Library, kid: string, callId: string, v: Json, i: nat, j: nat)
    requires Lawful(lib) && v.Object? && i < j
    ensures PayloadWith(lib, kid, callId, v, i) != PayloadWith(lib, kid, callId, v, j)
  {
    var x, y := Object(v.fields["status" := String(Status(i))]), Object(v.fields["status" := String(Status(j))]);
    assert x.Get("status") == Some(String(Status(i))) && y.Get("status") == Some(String(Status(j)));
    assert |Status(i)| != |Status(j)|;
    assert [x][0] != [y][0];
    var p, q := ResponsesPayload(1, kid, callId, [x]), ResponsesPayload(1, kid, callId, [y]);
    assert lib.parseResponses(lib.printResponses(p)) == Some(p) && lib.parseResponses(lib.printResponses(q)) == Some(q);
  }

  /** Some status is too long for the capsule of a call, whatever the JSON printer. */
  lemma {:induction false} SomeStatusIsTooLong(lib: Library, keyring: Keyring, callId: string, v: Json)
    returns (status: string)
    requires Lawful(lib) && v.Object? && SigningKey(keyring).Ok?
    ensures !CapsuleFits(lib, keyring, callId, [Object(v.fields["status" := String(status)])])
  {
    var (kid, key) := SigningKey(keyring).value;
    var text := (k: nat) => PayloadWith(lib, kid, callId, v, k);
    forall i: nat, j: nat | i < j ensures text(i) != text(j) {
      PayloadsDiffer(lib, kid, callId, v, i, j);
    }
    var k := OneIsLong(text, MAX_CAPSULE_WIRE_BYTES);
    status := Status(k);
    SignedIsLonger(lib, RESPONSES_CAPSULE_PREFIX, key, text(k));
  }

  lemma {:induction false} StatusIsCut(item: Schema.OutputItem, status: string)
    requires item.Reasoning?
    ensures CutsItem(WithStatus(item, status), item)
    ensures var v := ToValue(item.id, item.content, item.summary, item.encryptedContent);
            WithStatus(item, status).Merged() == Object(v.fields["status" := String(status)])
  {
    var v, cut := ToValue(item.id, item.content, item.summary, item.encryptedContent), WithStatus(item, status);
    var texts := SummaryTexts(item.summary);
    NoStatus(item);
    MergedWithStatus(v, status, cut);
    forall k | 0 <= k < |texts| ensures Concat(cut.pieces[k]) == texts[k] {
      assert [texts[k]][1..] == [] && texts[k] + "" == texts[k];
    }
  }

  /**
   * A response of reasoning and a call that the plain form accepts, whatever it is: with some status on its
   * reasoning item the stream of the same response is refused.
   */
  lemma {:induction false} SomeStatusIsRefused(cfg: Config, lib: Library, runtime: Runtime, response: Schema.Response,
                                               item: Schema.OutputItem, other: Schema.OutputItem, call: Cut,
                                               usage: Option<Json>)
    returns (status: string)
    requires Lawful(lib) && cfg.mint == MinterOf(lib, runtime) && Ended(response)
    requires response.output == [item, other] && item.Reasoning? && other.FunctionCall? && CutsItem(call, other)
    requires ToChat(lib, response, runtime).Ok?
    ensures CutsAll([WithStatus(item, status), call], response.output)
    ensures ApplyAll(ApplierOf(cfg), INITIAL, Canonical(response, [WithStatus(item, status), call], usage)).Err?
  {
    var v := ToValue(item.id, item.content, item.summary, item.encryptedContent);
    ReasoningIsMinted(cfg, lib, runtime, response, item, other, v);
    status := SomeStatusIsTooLong(lib, runtime.keyring, other.callId, v);
    StatusIsKept(item, other, status, call, v);
    CallIsThere(item, other);
    NoRoomIsRefused(cfg, lib, runtime, response, [WithStatus(item, status), call], usage,
                    Call(other.callId, other.name, other.arguments));
  }

  lemma {:induction false} StatusIsKept(item: Schema.OutputItem, other: Schema.OutputItem, status: string, call: Cut,
                                        v: Json)
    requires item.Reasoning? && other.FunctionCall? && CutsItem(call, other)
    requires v == ToValue(item.id, item.content, item.summary, item.encryptedContent)
    ensures CutsAll([WithStatus(item, status), call], [item, other])
    ensures Kept([item, other], [WithStatus(item, status), call]) == [Object(v.fields["status" := String(status)])]
  {
    StatusIsCut(item, status);
    ItemAndCall(item, other, WithStatus(item, status), call);
    OneItem(item, WithStatus(item, status), v);
  }

  /** A call without room for the reasoning sent with it has the stream refused. */
  lemma {:induction false} NoRoomIsRefused(cfg: Config, lib: Library, runtime: Runtime, response: Schema.Response,
                                           cuts: seq<Cut>, usage: Option<Json>, call: Call)
    requires cfg.mint == MinterOf(lib, runtime) && Ended(response) && CutsAll(cuts, response.output)
    requires call in Calls(response.output)
    requires !CapsuleFits(lib, runtime.keyring, call.callId, Kept(response.output, cuts))
    ensures ApplyAll(ApplierOf(cfg), INITIAL, Canonical(response, cuts, usage)).Err?
  {
    CanonicalAgrees(cfg, lib, runtime, response, cuts, usage);
  }

  lemma {:induction false} CallIsThere(item: Schema.OutputItem, other: Schema.OutputItem)
    requires item.Reasoning? && other.FunctionCall?
    ensures Calls([item, other]) == [Call(other.callId, other.name, other.arguments)]
  {
    assert [item, other] == [item] + [other];
    FlatMapOne(CallsOf, [item], other);
    FlatMapSingle(CallsOf, item);
  }

  /** What the plain form has accepted has a key to sign with. */
  lemma {:induction false} ReasoningIsMinted(cfg: Config, lib: Library, runtime: Runtime, response: Schema.Response,
                                             item: Schema.OutputItem, other: Schema.OutputItem, v: Json)
    requires cfg.mint == MinterOf(lib, runtime) && Ended(response) && ToChat(lib, response, runtime).Ok?
    requires response.output == [item, other] && item.Reasoning? && other.FunctionCall? && ThoughtsOf(item) == [v]
    ensures SigningKey(runtime.keyring).Ok?
  {
    var call := Call(other.callId, other.name, other.arguments);
    CallIsThere(item, other);
    FlatMapSingle(ThoughtsOf, item);
    assert [item, other] == [item] + [other];
    FlatMapOne(ThoughtsOf, [item], other);
    PlainAcceptsIff(cfg, lib, runtime, response);
    assert call in Calls(response.output);
    MintedIff(lib, runtime, call.callId, Thoughts(response.output));
  }
}
