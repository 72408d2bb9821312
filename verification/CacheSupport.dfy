/** The negative cache of models that reject cache points, and the send that strips them and tries once more. */
module CacheSupport {
  import opened Prelude

  const GEO_PREFIXES := ["us.", "global.", "eu.", "apac.", "jp.", "au.", "ca."]

  function StripFirst(id: string, prefixes: seq<string>): string {
    if prefixes == [] then id
    else match StripPrefix(id, prefixes[0])
      case Some(rest) => rest
      case None => StripFirst(id, prefixes[1..])
  }

  /** Models are compared in lower case and without a leading region. */
  function NormalizeForMatch(id: string): string { StripFirst(Lower(id), GEO_PREFIXES) }

  predicate Contains(s: string, part: string) { HasPrefix(s, part) || (s != "" && Contains(s[1..], part)) }

  /** Only a known code together with the vocabulary of caching counts as a rejection of cache points. */
  predicate IsCacheUnsupported(code: string, message: string) {
    var lower := Lower(message);
    if code == "AccessDeniedException" then Contains(lower, "prompt caching")
    else if code == "ValidationException" then
      || Contains(lower, "cachepoint") || Contains(lower, "prompt cache") || Contains(lower, "prompt caching")
      || (Contains(lower, "does not support") && Contains(lower, "cache"))
    else false
  }

  // ---- what the two tests are about ----

  predicate StandsAt(text: string, words: string, i: nat) {
    i + |words| <= |text| && text[i..i + |words|] == words
  }

  /** At this place the text has these words, in any letter case. */
  predicate MentionsAt(text: string, words: string, i: nat) {
    i + |words| <= |text| && SameWord(text[i..i + |words|], words)
  }

  ghost predicate Mentions(text: string, words: string) { exists i :: MentionsAt(text, words, i) }

  lemma {:induction false} LowerOfPart(s: string, i: nat, n: nat)
    requires i + n <= |s|
    ensures Lower(s)[i..i + n] == Lower(s[i..i + n])
  {
  }

  lemma {:induction false} StandsLater(s: string, part: string, i: nat)
    requires s != ""
    ensures StandsAt(s, part, i + 1) <==> StandsAt(s[1..], part, i)
  {
    if i + |part| <= |s[1..]| {
      assert s[1..][i..i + |part|] == s[i + 1..i + 1 + |part|];
    }
  }

  lemma {:induction false} ContainsIff(s: string, part: string)
    ensures Contains(s, part) <==> exists i :: StandsAt(s, part, i)
  {
    assert HasPrefix(s, part) <==> StandsAt(s, part, 0);
    if s != "" {
      ContainsIff(s[1..], part);
      forall i: nat ensures StandsAt(s, part, i + 1) <==> StandsAt(s[1..], part, i) {
        StandsLater(s, part, i);
      }
      if exists i: nat :: StandsAt(s, part, i) && i > 0 {
        var i: nat :| StandsAt(s, part, i) && i > 0;
        assert StandsAt(s, part, (i - 1) + 1) && StandsAt(s[1..], part, i - 1);
      }
      if exists i: nat :: StandsAt(s[1..], part, i) {
        var i: nat :| StandsAt(s[1..], part, i);
        assert StandsAt(s, part, i + 1);
      }
    }
  }

  lemma {:induction false} ContainsIffMentions(text: string, words: string)
    requires HasNoCapital(words)
    ensures Contains(Lower(text), words) <==> Mentions(text, words)
  {
    ContainsIff(Lower(text), words);
    forall i: nat ensures StandsAt(Lower(text), words, i) <==> MentionsAt(text, words, i) {
      if i + |words| <= |text| {
        LowerOfPart(text, i, |words|);
        LowerIffSameWord(text[i..i + |words|], words);
      }
    }
  }

  /**
   * Which errors count as a rejection of cache points: a denied access that mentions prompt caching, and a
   * validation error that mentions cache points, the prompt cache, or that a cache is not supported. Letter case does
   * not matter to the message, and does to the code.
   */
  lemma {:induction false} RejectionIs(code: string, message: string)
    ensures IsCacheUnsupported(code, message)
            <==> || (code == "AccessDeniedException" && Mentions(message, "prompt caching"))
                 || (code == "ValidationException"
                     && (|| Mentions(message, "cachepoint") || Mentions(message, "prompt cache")
                         || Mentions(message, "prompt caching")
                         || (Mentions(message, "does not support") && Mentions(message, "cache"))))
  {
    ContainsIffMentions(message, "prompt caching");
    ContainsIffMentions(message, "cachepoint");
    ContainsIffMentions(message, "prompt cache");
    ContainsIffMentions(message, "does not support");
    ContainsIffMentions(message, "cache");
    assert |"AccessDeniedException"| == 21 && |"ValidationException"| == 19;
  }

  /** The regions that may lead the id of a model. */
  predicate IsRegion(tag: string) {
    tag == "us." || tag == "global." || tag == "eu." || tag == "apac." || tag == "jp." || tag == "au." || tag == "ca."
  }

  predicate LedBy(id: string, tag: string) { |tag| <= |id| && SameWord(id[..|tag|], tag) }

  lemma {:induction false} PrefixIffLed(id: string, tag: string)
    requires HasNoCapital(tag)
    ensures HasPrefix(Lower(id), tag) <==> LedBy(id, tag)
    ensures LedBy(id, tag) ==> StripPrefix(Lower(id), tag) == Some(Lower(id[|tag|..]))
  {
    if |tag| <= |id| {
      LowerOfPart(id, 0, |tag|);
      LowerIffSameWord(id[..|tag|], tag);
      assert Lower(id)[..|tag|] == Lower(id)[0..0 + |tag|];
      assert Lower(id)[|tag|..] == Lower(id[|tag|..]);
    }
  }

  /** Of the listed prefixes the first that the id has goes. */
  lemma {:induction false} FirstIsStripped(id: string, prefixes: seq<string>, i: nat)
    requires i < |prefixes| && HasPrefix(id, prefixes[i]) && forall j :: 0 <= j < i ==> !HasPrefix(id, prefixes[j])
    ensures Some(StripFirst(id, prefixes)) == StripPrefix(id, prefixes[i])
  {
    if i > 0 {
      assert prefixes[1..][i - 1] == prefixes[i];
      assert forall j :: 0 <= j < i - 1 ==> prefixes[1..][j] == prefixes[j + 1];
      FirstIsStripped(id, prefixes[1..], i - 1);
    }
  }

  lemma {:induction false} NoneIsStripped(id: string, prefixes: seq<string>)
    requires forall j :: 0 <= j < |prefixes| ==> !HasPrefix(id, prefixes[j])
    ensures StripFirst(id, prefixes) == id
  {
    if prefixes != [] {
      assert forall j :: 0 <= j < |prefixes| - 1 ==> prefixes[1..][j] == prefixes[j + 1];
      NoneIsStripped(id, prefixes[1..]);
    }
  }

  /** An id is led by at most one region. */
  lemma {:induction false} RegionsDiffer(id: string, a: string, b: string)
    requires IsRegion(a) && IsRegion(b) && HasPrefix(id, a) && HasPrefix(id, b)
    ensures a == b
  {
    assert id[0] == a[0] == b[0] && id[1] == a[1] == b[1];
  }

  lemma {:induction false} RegionsAreListed(tag: string)
    ensures IsRegion(tag) <==> exists i :: 0 <= i < |GEO_PREFIXES| && GEO_PREFIXES[i] == tag
    ensures IsRegion(tag) ==> HasNoCapital(tag)
  {
    assert GEO_PREFIXES[0] == "us." && GEO_PREFIXES[1] == "global." && GEO_PREFIXES[2] == "eu.";
    assert GEO_PREFIXES[3] == "apac." && GEO_PREFIXES[4] == "jp.";
    assert GEO_PREFIXES[5] == "au." && GEO_PREFIXES[6] == "ca.";
  }

  /** Two ids name the same model when they are equal up to letter case and a leading region. */
  lemma {:induction false} NormalizedIs(id: string, tag: string)
    ensures IsRegion(tag) && LedBy(id, tag) ==> NormalizeForMatch(id) == Lower(id[|tag|..])
    ensures (forall t :: IsRegion(t) ==> !LedBy(id, t)) ==> NormalizeForMatch(id) == Lower(id)
  {
    var lower := Lower(id);
    if IsRegion(tag) && LedBy(id, tag) {
      RegionsAreListed(tag);
      PrefixIffLed(id, tag);
      var i :| 0 <= i < |GEO_PREFIXES| && GEO_PREFIXES[i] == tag;
      forall j | 0 <= j < i ensures !HasPrefix(lower, GEO_PREFIXES[j]) {
        RegionsAreListed(GEO_PREFIXES[j]);
        if HasPrefix(lower, GEO_PREFIXES[j]) {
          RegionsDiffer(lower, tag, GEO_PREFIXES[j]);
        }
      }
      FirstIsStripped(lower, GEO_PREFIXES, i);
    }
    if forall t :: IsRegion(t) ==> !LedBy(id, t) {
      forall j | 0 <= j < |GEO_PREFIXES| ensures !HasPrefix(lower, GEO_PREFIXES[j]) {
        RegionsAreListed(GEO_PREFIXES[j]);
        PrefixIffLed(id, GEO_PREFIXES[j]);
      }
      NoneIsStripped(lower, GEO_PREFIXES);
    }
  }

  // ---- sending ----

  /** How a send ends: with an output, a service error, or an error of the gateway's own. */
  datatype Reply<O> =
    | Answered(output: O)
    | ServiceError(code: Option<string>, message: Option<string>)
    | GatewayError(reason: string)

  datatype SendFailure = FromService(code: Option<string>, message: Option<string>) | FromGateway(reason: string)

  /** Missing metadata counts as empty text. */
  predicate RejectsPoints<O>(reply: Reply<O>) {
    reply.ServiceError? && IsCacheUnsupported(reply.code.GetOr(""), reply.message.GetOr(""))
  }

  function ResultOf<O>(reply: Reply<O>): Result<O, SendFailure> {
    match reply
    case Answered(output) => Ok(output)
    case ServiceError(code, message) => Err(FromService(code, message))
    case GatewayError(reason) => Err(FromGateway(reason))
  }

  datatype Outcome<O> = Outcome(result: Result<O, SendFailure>, sends: nat, unsupported: set<string>)

  /** Only a rejection of points that were injected marks the model and is tried again, and only once. */
  function StripRetry<O>(unsupported: set<string>, model: string, injected: bool, first: Reply<O>, retry: Reply<O>)
    : Outcome<O>
  {
    if injected && RejectsPoints(first) then Outcome(ResultOf(retry), 2, unsupported + {model})
    else Outcome(ResultOf(first), 1, unsupported)
  }

  /** The reply is a service error that counts as a rejection of cache points. */
  ghost predicate IsRejection<O>(reply: Reply<O>) {
    && reply.ServiceError? && reply.code.Some? && reply.message.Some?
    && var message := reply.message.value;
       || (reply.code.value == "AccessDeniedException" && Mentions(message, "prompt caching"))
       || (reply.code.value == "ValidationException"
           && (|| Mentions(message, "cachepoint") || Mentions(message, "prompt cache")
               || Mentions(message, "prompt caching")
               || (Mentions(message, "does not support") && Mentions(message, "cache"))))
  }

  /** The result is what the reply says. */
  ghost predicate IsResultOf<O>(result: Result<O, SendFailure>, reply: Reply<O>) {
    match reply
    case Answered(output) => result == Ok(output)
    case ServiceError(code, message) => result == Err(FromService(code, message))
    case GatewayError(reason) => result == Err(FromGateway(reason))
  }

  lemma {:induction false} RejectsIff<O>(reply: Reply<O>)
    ensures RejectsPoints(reply) <==> IsRejection(reply)
  {
    if reply.ServiceError? {
      RejectionIs(reply.code.GetOr(""), reply.message.GetOr(""));
      NothingMentions("prompt caching");
      NothingMentions("cachepoint");
      NothingMentions("prompt cache");
      NothingMentions("cache");
    }
  }

  lemma {:induction false} NothingMentions(words: string)
    requires words != ""
    ensures !Mentions("", words)
  {
  }

  /**
   * One call of the retrying send: the reply to the second send counts, and the model is remembered, exactly when the
   * first was a rejection and points had been injected; otherwise the first reply counts and nothing is remembered.
   */
  lemma {:induction false} RetryIs<O>(unsupported: set<string>, model: string, injected: bool, first: Reply<O>,
                                      retry: Reply<O>)
    ensures var o := StripRetry(unsupported, model, injected, first, retry);
            if injected && IsRejection(first)
            then o.sends == 2 && o.unsupported == unsupported + {model} && IsResultOf(o.result, retry)
            else o.sends == 1 && o.unsupported == unsupported && IsResultOf(o.result, first)
  {
    RejectsIff(first);
  }

  class CacheSupportRegistry {
    var unsupported: set<string>

    constructor ()
      ensures unsupported == {}
    {
      unsupported := {};
    }

    predicate IsUnsupported(model: string)
      reads this
    {
      model in unsupported
    }

    method MarkUnsupported(model: string)
      modifies this
      ensures unsupported == old(unsupported) + {model}
    {
      unsupported := unsupported + {model};
    }

    /**
     * The sends are closures of the caller; here they are the replies they would get. The second is looked
     * at only after the first was a rejection of points that were injected, and its result is final.
     */
    method SendWithCacheStripRetry<O>(model: string, injected: bool, first: Reply<O>, retry: Reply<O>)
      returns (r: Result<O, SendFailure>, sends: nat)
      modifies this
      ensures Outcome(r, sends, unsupported) == StripRetry(old(unsupported), model, injected, first, retry)
    {
      sends := 1;
      match first
      case Answered(output) => return Ok(output), sends;
      case GatewayError(reason) => return Err(FromGateway(reason)), sends;
      case ServiceError(code, message) =>
        if injected && IsCacheUnsupported(code.GetOr(""), message.GetOr("")) {
          MarkUnsupported(model);
          sends := 2;
          match retry
          case Answered(output) => return Ok(output), sends;
          case GatewayError(reason) => return Err(FromGateway(reason)), sends;
          case ServiceError(code2, message2) => return Err(FromService(code2, message2)), sends;
        }
        return Err(FromService(code, message)), sends;
    }
  }
}
