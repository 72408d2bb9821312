/** What the metadata of a terminal frame say: where in the event's JSON each comes from. */
module SseMetadata {
  import opened Prelude
  import opened Json
  import SseBytes
  import opened SseTerminator

  // ---- what stands at a path ----

  function At(json: Json, path: seq<string>): Option<Json>
    decreases |path|
  {
    if path == [] then Some(json)
    else if json.Object? && path[0] in json.fields then At(json.fields[path[0]], path[1..])
    else None
  }

  function TextAt(json: Json, path: seq<string>): Option<string> {
    match At(json, path)
    case Some(String(text)) => Some(text)
    case _ => None
  }

  function CountAt(json: Json, path: seq<string>): Option<int> {
    match At(json, path)
    case Some(Number(n)) => if -0x8000_0000_0000_0000 <= n < 0x8000_0000_0000_0000 then Some(n) else None
    case _ => None
  }

  lemma {:induction false} AtOne(json: Json, key: string)
    ensures At(json, [key]) == json.Get(key)
  {
    assert [key][1..] == [];
  }

  lemma {:induction false} AtTwo(json: Json, key: string, last: string)
    ensures At(json, [key, last]) == GetFrom(json.Get(key), last)
  {
    assert [key, last][1..] == [last];
    if json.Get(key).Some? {
      AtOne(json.Get(key).value, last);
    }
  }

  lemma {:induction false} AtThree(json: Json, key: string, next: string, last: string)
    ensures At(json, [key, next, last]) == GetFrom(GetFrom(json.Get(key), next), last)
  {
    assert [key, next, last][1..] == [next, last];
    if json.Get(key).Some? {
      AtTwo(json.Get(key).value, next, last);
    }
  }

  // ---- the metadata of any event ----

  /** The whole response if the event has one, and otherwise the event itself. */
  function ResponseOf(event: Json): Json {
    if event.Object? && "response" in event.fields then event.fields["response"] else event
  }

  /** The metadata other than the error's. */
  predicate ReportsResponse(t: Terminal, response: Json) {
    && t.status == TextAt(response, ["status"])
    && t.inputTokens == CountAt(response, ["usage", "input_tokens"])
    && t.outputTokens == CountAt(response, ["usage", "output_tokens"])
    && t.totalTokens == CountAt(response, ["usage", "total_tokens"])
    && t.reasoningTokens == CountAt(response, ["usage", "output_tokens_details", "reasoning_tokens"])
  }

  /** The error is the response's, whose kind may stand under either of two names; an `error` event may be its own. */
  predicate ReportsError(t: Terminal, event: Json, response: Json) {
    if At(response, ["error"]).Some? then
      && t.errorCode == TextAt(response, ["error", "code"])
      && t.errorType == TextAt(response, ["error", if At(response, ["error", "error_type"]).Some? then "error_type"
                                                  else "type"])
    else if t.eventType == "error" then
      t.errorCode == TextAt(event, ["code"]) && t.errorType == TextAt(event, ["error_type"])
    else t.errorCode.None? && t.errorType.None?
  }

  lemma {:induction false} ResponseIsReported(eventType: string, event: Json)
    ensures ReportsResponse(FromEvent(eventType, Some(event)), ResponseOf(event))
  {
    var response := ResponseOf(event);
    AtOne(response, "status");
    AtTwo(response, "usage", "input_tokens");
    AtTwo(response, "usage", "output_tokens");
    AtTwo(response, "usage", "total_tokens");
    AtThree(response, "usage", "output_tokens_details", "reasoning_tokens");
  }

  lemma {:induction false} ErrorIsReported(eventType: string, event: Json)
    ensures ReportsError(FromEvent(eventType, Some(event)), event, ResponseOf(event))
  {
    var response := ResponseOf(event);
    AtOne(response, "error");
    AtTwo(response, "error", "code");
    AtTwo(response, "error", "error_type");
    AtTwo(response, "error", "type");
    AtOne(event, "code");
    AtOne(event, "error_type");
  }

  /** The metadata of an event are what its JSON says where it says it; a bare event name has no further metadata. */
  lemma {:induction false} MetadataAreTheEvents(eventType: string, event: Json)
    ensures var t := FromEvent(eventType, Some(event));
            && t.eventType == eventType
            && ReportsResponse(t, ResponseOf(event)) && ReportsError(t, event, ResponseOf(event))
    ensures FromEvent(eventType, None) == Terminal(eventType, None, None, None, None, None, None, None)
  {
    ResponseIsReported(eventType, event);
    ErrorIsReported(eventType, event);
  }

  // ---- the names that end an answer ----

  predicate EndsAnswer(name: string) {
    name == "response.completed" || name == "response.incomplete" || name == "response.failed" || name == "error"
  }

  lemma {:induction false} AsciiTells(a: string, b: string)
    ensures SseBytes.Ascii(a) == SseBytes.Ascii(b) <==> a == b
  {
    var x, y := SseBytes.Ascii(a), SseBytes.Ascii(b);
    if x == y {
      assert |a| == |b|;
      forall i | 0 <= i < |a| ensures a[i] == b[i] {
        assert x[i] == a[i] as int && y[i] == b[i] as int;
      }
    }
  }

  /** The same four names end an answer in the event line and in the JSON. */
  lemma {:induction false} NamesAre(name: string)
    ensures IsTerminalName(name) <==> EndsAnswer(name)
    ensures TerminalName(SseBytes.Ascii(name)) == if EndsAnswer(name) then Some(name) else None
  {
    AsciiTells(name, "response.completed");
    AsciiTells(name, "response.incomplete");
    AsciiTells(name, "response.failed");
    AsciiTells(name, "error");
  }

  predicate IsSpaceByte(b: int) { b == 9 || b == 10 || b == 12 || b == 13 || b == 32 }

  predicate IsSpace(bytes: Bytes) { forall i :: 0 <= i < |bytes| ==> IsSpaceByte(bytes[i]) }

  /** The value of a line is what white space around it leaves. */
  lemma {:induction false} TrimIs(before: Bytes, value: Bytes, behind: Bytes)
    requires IsSpace(before) && IsSpace(behind)
    requires value != [] && !IsSpaceByte(value[0]) && !IsSpaceByte(value[|value| - 1])
    ensures TrimAscii(before + value + behind) == value
    decreases |before| + |behind|
  {
    var all := before + value + behind;
    if before != [] {
      assert all[0] == before[0] && all[1..] == before[1..] + value + behind;
      TrimIs(before[1..], value, behind);
    } else if behind != [] {
      var n := |behind| - 1;
      assert all[0] == value[0] && all[|all| - 1] == behind[n];
      assert all[..|all| - 1] == before + value + behind[..n];
      TrimIs(before, value, behind[..n]);
    } else {
      assert all == value;
    }
  }

  // ---- events as upstream writes them ----

  datatype Counts = Counts(input: Option<int>, out: Option<int>, total: Option<int>, reasoning: Option<int>)

  /** An error names its kind as `error_type`, or as `type`. */
  datatype Fault = Fault(code: Option<string>, errorType: Option<string>, kind: Option<string>)

  function TextField(name: string, text: Option<string>): map<string, Json> {
    match text
    case None => map[]
    case Some(t) => map[name := String(t)]
  }

  function CountField(name: string, count: Option<int>): map<string, Json> {
    match count
    case None => map[]
    case Some(n) => map[name := Number(n)]
  }

  function JsonField(name: string, value: Option<Json>): map<string, Json> {
    match value
    case None => map[]
    case Some(v) => map[name := v]
  }

  function CountsJson(c: Counts): Json {
    Object(CountField("input_tokens", c.input) + CountField("output_tokens", c.out)
           + CountField("total_tokens", c.total)
           + JsonField("output_tokens_details",
                       if c.reasoning.None? then None else Some(Object(CountField("reasoning_tokens", c.reasoning)))))
  }

  function FaultJson(f: Fault): Json {
    Object(TextField("code", f.code) + TextField("error_type", f.errorType) + TextField("type", f.kind))
  }

  function ResponseFields(status: Option<string>, counts: Option<Counts>, fault: Option<Fault>): map<string, Json> {
    TextField("status", status)
    + JsonField("usage", if counts.None? then None else Some(CountsJson(counts.value)))
    + JsonField("error", if fault.None? then None else Some(FaultJson(fault.value)))
  }

  /** The event around a response. */
  function Nested(name: string, status: Option<string>, counts: Option<Counts>, fault: Option<Fault>): Json {
    Object(map["type" := String(name), "response" := Object(ResponseFields(status, counts, fault))])
  }

  /** The event with the fields of a response as its own. */
  function Flat(name: string, status: Option<string>, counts: Option<Counts>, fault: Option<Fault>): Json {
    Object(map["type" := String(name)] + ResponseFields(status, counts, fault))
  }

  /** An `error` event with its error as its own fields. */
  function Bare(code: Option<string>, errorType: Option<string>): Json {
    Object(map["type" := String("error")] + TextField("code", code) + TextField("error_type", errorType))
  }

  predicate Is64(n: Option<int>) { n.Some? ==> -0x8000_0000_0000_0000 <= n.value < 0x8000_0000_0000_0000 }

  predicate Counted(counts: Option<Counts>) {
    counts.Some? ==> Is64(counts.value.input) && Is64(counts.value.out) && Is64(counts.value.total)
                     && Is64(counts.value.reasoning)
  }

  const NO_COUNTS := Counts(None, None, None, None)
  const NO_FAULT := Fault(None, None, None)

  /** The metadata of an event that was written from these. */
  function Reported(name: string, status: Option<string>, counts: Option<Counts>, fault: Option<Fault>): Terminal {
    var c, f := counts.GetOr(NO_COUNTS), fault.GetOr(NO_FAULT);
    Terminal(name, status, f.code, if f.errorType.Some? then f.errorType else f.kind,
             c.input, c.out, c.total, c.reasoning)
  }

  /** The JSON has these three fields. */
  predicate HasFields(json: Json, status: Option<string>, counts: Option<Counts>, fault: Option<Fault>) {
    && json.GetString("status") == status
    && json.Get("usage") == (if counts.None? then None else Some(CountsJson(counts.value)))
    && json.Get("error") == (if fault.None? then None else Some(FaultJson(fault.value)))
  }

  lemma {:induction false} FieldsAreRead(status: Option<string>, counts: Option<Counts>, fault: Option<Fault>)
    ensures HasFields(Object(ResponseFields(status, counts, fault)), status, counts, fault)
  {
  }

  lemma {:induction false} FlatFieldsAreRead(name: string, status: Option<string>, counts: Option<Counts>,
                                             fault: Option<Fault>)
    ensures HasFields(Flat(name, status, counts, fault), status, counts, fault)
    ensures Flat(name, status, counts, fault).Get("response").None?
  {
    var fields := ResponseFields(status, counts, fault);
    FieldsAreRead(status, counts, fault);
    assert "status" != "type" && "usage" != "type" && "error" != "type";
    assert "response" !in fields && "response" != "type";
  }

  lemma {:induction false} CountsAreRead(c: Counts)
    requires Counted(Some(c))
    ensures var json := CountsJson(c);
            && json.GetInt64("input_tokens") == c.input && json.GetInt64("output_tokens") == c.out
            && json.GetInt64("total_tokens") == c.total
            && IntFrom(json.Get("output_tokens_details"), "reasoning_tokens") == c.reasoning
  {
    var json := CountsJson(c);
    assert json.Get("input_tokens") == if c.input.None? then None else Some(Number(c.input.value));
    assert json.Get("output_tokens") == if c.out.None? then None else Some(Number(c.out.value));
    assert json.Get("total_tokens") == if c.total.None? then None else Some(Number(c.total.value));
  }

  lemma {:induction false} FaultIsRead(f: Fault)
    ensures var json := FaultJson(f);
            && json.GetString("code") == f.code && json.GetString("error_type") == f.errorType
            && json.GetString("type") == f.kind && (json.Get("error_type").Some? <==> f.errorType.Some?)
  {
  }

  /** An event that nests a response reports exactly what the response was written from, whatever its kind. */
  lemma {:induction false} NestedIsReported(name: string, status: Option<string>, counts: Option<Counts>,
                                            fault: Option<Fault>)
    requires Counted(counts) && (name == "error" ==> fault.Some?)
    ensures FromEvent(name, Some(Nested(name, status, counts, fault))) == Reported(name, status, counts, fault)
  {
    var response := Object(ResponseFields(status, counts, fault));
    assert Nested(name, status, counts, fault).Get("response") == Some(response);
    FieldsAreRead(status, counts, fault);
    CountsAreRead(counts.GetOr(NO_COUNTS));
    FaultIsRead(fault.GetOr(NO_FAULT));
  }

  /** So does an event without a `response`, whose own fields they are. */
  lemma {:induction false} FlatIsReported(name: string, status: Option<string>, counts: Option<Counts>,
                                          fault: Option<Fault>)
    requires Counted(counts) && (name == "error" ==> fault.Some?)
    ensures FromEvent(name, Some(Flat(name, status, counts, fault))) == Reported(name, status, counts, fault)
  {
    var event := Flat(name, status, counts, fault);
    FlatFieldsAreRead(name, status, counts, fault);
    CountsAreRead(counts.GetOr(NO_COUNTS));
    FaultIsRead(fault.GetOr(NO_FAULT));
  }

  /** An `error` event with its error at the top reports that error and nothing else. */
  lemma {:induction false} BareIsReported(code: Option<string>, errorType: Option<string>)
    ensures FromEvent("error", Some(Bare(code, errorType)))
            == Terminal("error", None, code, errorType, None, None, None, None)
  {
    var event := Bare(code, errorType);
    assert event.Get("response").None? && event.Get("error").None? && event.Get("usage").None?;
    assert event.Get("status").None? && event.GetString("code") == code && event.GetString("error_type") == errorType;
  }

  /** A frame whose one line is the JSON of a terminal event is reported with that event's metadata. */
  lemma {:induction false} FrameReportsItsEvent(parse: SseBytes.Parser, line: Bytes, name: string, json: Json)
    requires StripPrefix(line, SseBytes.Ascii("data:")).Some? && StripPrefix(line, SseBytes.Ascii("event:")).None?
    requires parse(TrimAscii(StripPrefix(line, SseBytes.Ascii("data:")).value)) == Some(json)
    requires json.GetString("type") == Some(name) && IsTerminalName(name)
    ensures ReadFrame(parse, [line]) == Recogniser([], true, Some(FromEvent(name, Some(json))))
  {
    assert [line][..0] == [];
  }
}
