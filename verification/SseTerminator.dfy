/**
 * The recogniser of terminal Responses frames in a raw SSE byte stream, and the wrapper that forwards
 * chunks until one contains the end of such a frame.
 */
module SseTerminator {
  import opened Prelude
  import opened Json
  import opened SseBytes

  const MAX_SSE_LINE_BYTES := 2 * 1024 * 1024

  /** Metadata read off a terminal event. */
  datatype Terminal = Terminal(eventType: string, status: Option<string>, errorCode: Option<string>,
                               errorType: Option<string>, inputTokens: Option<int>, outputTokens: Option<int>,
                               totalTokens: Option<int>, reasoningTokens: Option<int>)

  predicate IsTerminalName(name: string) {
    name == "response.completed" || name == "response.incomplete" || name == "response.failed" || name == "error"
  }

  /** The terminal event name that the bytes spell, if they spell one. */
  function TerminalName(value: Bytes): Option<string> {
    if value == Ascii("response.completed") then Some("response.completed")
    else if value == Ascii("response.incomplete") then Some("response.incomplete")
    else if value == Ascii("response.failed") then Some("response.failed")
    else if value == Ascii("error") then Some("error")
    else None
  }

  function GetFrom(value: Option<Json>, key: string): Option<Json> {
    if value.Some? then value.value.Get(key) else None
  }

  function StringFrom(value: Option<Json>, key: string): Option<string> {
    if value.Some? then value.value.GetString(key) else None
  }

  function IntFrom(value: Option<Json>, key: string): Option<int> {
    if value.Some? then value.value.GetInt64(key) else None
  }

  function OrElse<T>(a: Option<T>, b: Option<T>): Option<T> { if a.Some? then a else b }

  /** An error event carries its error at the top level; the other kinds nest it in the response. */
  function FromEvent(eventType: string, event: Option<Json>): Terminal {
    var response := OrElse(GetFrom(event, "response"), event);
    var usage := GetFrom(response, "usage");
    var nested := GetFrom(response, "error");
    var error := OrElse(nested, if eventType == "error" then event else None);
    var errorType := OrElse(GetFrom(error, "error_type"), if nested.Some? then GetFrom(error, "type") else None);
    Terminal(eventType, StringFrom(response, "status"), StringFrom(error, "code"),
             if errorType.Some? then errorType.value.AsString() else None,
             IntFrom(usage, "input_tokens"), IntFrom(usage, "output_tokens"), IntFrom(usage, "total_tokens"),
             IntFrom(GetFrom(usage, "output_tokens_details"), "reasoning_tokens"))
  }

  function TrimAscii(value: Bytes): Bytes {
    if value == [] then []
    else if IsAsciiWhitespace(value[0]) then TrimAscii(value[1..])
    else if IsAsciiWhitespace(value[|value| - 1]) then TrimAscii(value[..|value| - 1])
    else value
  }

  // ---- the recogniser ----

  datatype Recogniser = Recogniser(line: Bytes, flagged: bool, held: Option<Terminal>)

  const FRESH := Recogniser([], false, None)

  /** What a non-empty line of a frame does to the flag and the metadata. */
  function ReadLine(parse: Parser, r: Recogniser, line: Bytes): Recogniser {
    var event := StripPrefix(line, Ascii("event:"));
    var data := StripPrefix(line, Ascii("data:"));
    if event.Some? then
      var name := TerminalName(TrimAscii(event.value));
      if name.None? then r.(flagged := false, held := None)
      else r.(flagged := true, held := if r.held.Some? then r.held else Some(FromEvent(name.value, None)))
    else if data.Some? then
      var value := parse(TrimAscii(data.value));
      if value.None? then r
      else
        var eventType := value.value.GetString("type");
        if eventType.Some? && IsTerminalName(eventType.value)
        then r.(flagged := true, held := Some(FromEvent(eventType.value, value)))
        else if r.flagged
        then r.(held := Some(FromEvent(if r.held.Some? then r.held.value.eventType else "response.completed", value)))
        else r
    else r
  }

  /** `used` bytes were looked at; on a hit the last of them ended the terminal frame. */
  datatype Observed = Observed(next: Recogniser, hit: bool, terminal: Option<Terminal>, used: nat)

  function KeepByte(line: Bytes, b: int): Bytes { if |line| < MAX_SSE_LINE_BYTES then line + [b] else line }

  /** A whole line has been read: a blank one ends the frame. */
  function EndLine(parse: Parser, r: Recogniser): Recogniser {
    var line := StripReturn(r.line);
    if line == [] then Recogniser([], false, None) else ReadLine(parse, r, line).(line := [])
  }

  predicate EndsTerminalFrame(r: Recogniser) { StripReturn(r.line) == [] && r.flagged }

  function Observe(parse: Parser, r: Recogniser, chunk: Bytes): Observed
    decreases |chunk|
  {
    if chunk == [] then Observed(r, false, None, 0)
    else if chunk[0] != LF then
      var rest := Observe(parse, r.(line := KeepByte(r.line, chunk[0])), chunk[1..]);
      rest.(used := rest.used + 1)
    else if EndsTerminalFrame(r) then Observed(EndLine(parse, r), true, r.held, 1)
    else
      var rest := Observe(parse, EndLine(parse, r), chunk[1..]);
      rest.(used := rest.used + 1)
  }

  /** The flag is set exactly when metadata is held. */
  predicate Coherent(r: Recogniser) { r.flagged <==> r.held.Some? }

  lemma {:induction false} ReadLineStaysCoherent(parse: Parser, r: Recogniser, line: Bytes)
    requires Coherent(r)
    ensures Coherent(ReadLine(parse, r, line))
  {
  }

  /** Observing keeps the flag and the metadata together, so a hit always comes with metadata. */
  lemma {:induction false} ObserveStaysCoherent(parse: Parser, r: Recogniser, chunk: Bytes)
    requires Coherent(r)
    ensures var o := Observe(parse, r, chunk);
            Coherent(o.next) && (o.hit <==> o.terminal.Some?) && o.used <= |chunk| && (!o.hit ==> o.used == |chunk|)
    decreases |chunk|
  {
    if chunk != [] {
      if chunk[0] != LF {
        ObserveStaysCoherent(parse, r.(line := KeepByte(r.line, chunk[0])), chunk[1..]);
      } else if !EndsTerminalFrame(r) {
        ReadLineStaysCoherent(parse, r, StripReturn(r.line));
        ObserveStaysCoherent(parse, EndLine(parse, r), chunk[1..]);
      }
    }
  }

  /** Cutting a chunk in two does not change what is seen, nor where. */
  lemma {:induction false} ObserveInPieces(parse: Parser, r: Recogniser, a: Bytes, b: Bytes)
    ensures var first := Observe(parse, r, a);
            Observe(parse, r, a + b)
            == if first.hit then first
               else var second := Observe(parse, first.next, b); second.(used := first.used + second.used)
    decreases |a|
  {
    if a == [] {
      assert a + b == b;
    } else {
      assert (a + b)[0] == a[0] && (a + b)[1..] == a[1..] + b;
      if a[0] != LF {
        ObserveInPieces(parse, r.(line := KeepByte(r.line, a[0])), a[1..], b);
      } else if !EndsTerminalFrame(r) {
        ObserveInPieces(parse, EndLine(parse, r), a[1..], b);
      }
    }
  }

  // ---- the wrapper ----

  datatype Item = Chunk(bytes: Bytes) | Failure

  /** What the wrapper forwards and what it tells the observer. */
  datatype Forwarded = Forwarded(items: seq<Item>, terminal: Option<Terminal>)

  function Forward(parse: Parser, r: Recogniser, input: seq<Item>): Forwarded
    decreases |input|
  {
    if input == [] then Forwarded([], None)
    else if input[0].Failure? then Forwarded([Failure], None)
    else
      var o := Observe(parse, r, input[0].bytes);
      if o.terminal.Some? then Forwarded([input[0]], o.terminal)
      else
        var rest := Forward(parse, o.next, input[1..]);
        rest.(items := [input[0]] + rest.items)
  }

  /** The bytes that arrive before the first transport failure. */
  function Arrived(input: seq<Item>): Bytes {
    if input == [] || input[0].Failure? then [] else input[0].bytes + Arrived(input[1..])
  }

  /** What was forwarded, against what the recogniser makes of all the bytes. */
  predicate ForwardsRightly(f: Forwarded, o: Observed, input: seq<Item>) {
    && f.terminal == o.terminal
    && f.items <= input
    && (o.hit ==> f.items != [] && |Arrived(f.items[..|f.items| - 1])| < o.used <= |Arrived(f.items)|)
    && (!o.hit ==> Arrived(f.items) == Arrived(input))
    && (!o.hit ==> f.items == input || (f.items != [] && f.items[|f.items| - 1].Failure?))
  }

  /** One chunk more in front. */
  lemma {:induction false} ForwardsOneMore(item: Item, f: Forwarded, o: Observed, rest: seq<Item>)
    requires item.Chunk? && ForwardsRightly(f, o, rest)
    ensures ForwardsRightly(f.(items := [item] + f.items), o.(used := o.used + |item.bytes|), [item] + rest)
  {
    var all := [item] + f.items;
    assert all[1..] == f.items && ([item] + rest)[1..] == rest;
    if f.items != [] {
      assert all[..|all| - 1] == [item] + f.items[..|f.items| - 1];
      assert (all[..|all| - 1])[1..] == f.items[..|f.items| - 1];
    }
  }

  /** The chunk in which the terminal frame ends. */
  lemma {:induction false} ForwardsLast(item: Item, o: Observed, rest: seq<Item>)
    requires item.Chunk? && o.hit && 0 < o.used <= |item.bytes|
    ensures ForwardsRightly(Forwarded([item], o.terminal), o, [item] + rest)
  {
    assert [item][1..] == [] && [item][..0] == [];
    assert Arrived([item]) == item.bytes + Arrived([]);
  }

  lemma {:induction false} ObserveArrived(parse: Parser, r: Recogniser, input: seq<Item>, o: Observed)
    requires input != [] && input[0].Chunk? && o == Observe(parse, r, input[0].bytes)
    ensures Observe(parse, r, Arrived(input))
            == if o.hit then o
               else var second := Observe(parse, o.next, Arrived(input[1..])); second.(used := o.used + second.used)
  {
    ObserveInPieces(parse, r, input[0].bytes, Arrived(input[1..]));
  }

  /** What the wrapper makes of one chunk. */
  lemma {:induction false} ForwardStep(parse: Parser, r: Recogniser, input: seq<Item>, i: nat, o: Observed)
    requires i < |input| && input[i].Chunk? && o == Observe(parse, r, input[i].bytes)
    ensures o.terminal.Some? ==> Forward(parse, r, input[i..]) == Forwarded([input[i]], o.terminal)
    ensures o.terminal.None? ==>
              var rest := Forward(parse, o.next, input[i + 1..]);
              Forward(parse, r, input[i..]) == rest.(items := [input[i]] + rest.items)
  {
    assert input[i..][0] == input[i] && input[i..][1..] == input[i + 1..];
  }

  /**
   * However the bytes are cut into chunks, the wrapper reports exactly the terminal that the recogniser
   * sees in the uncut bytes, forwards a prefix of its input that holds the whole terminal frame, and
   * overruns it by less than one chunk.
   */
  lemma {:induction false} ForwardIsChunkingIndependent(parse: Parser, r: Recogniser, input: seq<Item>)
    requires Coherent(r)
    ensures ForwardsRightly(Forward(parse, r, input), Observe(parse, r, Arrived(input)), input)
    decreases |input|
  {
    if input != [] && input[0].Chunk? {
      var bytes, later := input[0].bytes, input[1..];
      var o := Observe(parse, r, bytes);
      ObserveStaysCoherent(parse, r, bytes);
      ObserveArrived(parse, r, input, o);
      ForwardStep(parse, r, input, 0, o);
      assert input[0..] == input == [input[0]] + later;
      if o.hit {
        ForwardsLast(input[0], o, later);
      } else {
        var rest, seen := Forward(parse, o.next, later), Observe(parse, o.next, Arrived(later));
        ForwardIsChunkingIndependent(parse, o.next, later);
        ForwardsOneMore(input[0], rest, seen, later);
      }
    }
  }

  /** Two streams that deliver the same bytes in different chunks report the same terminal. */
  lemma {:induction false} SameBytesSameTerminal(parse: Parser, a: seq<Item>, b: seq<Item>)
    requires Arrived(a) == Arrived(b)
    ensures Forward(parse, FRESH, a).terminal == Forward(parse, FRESH, b).terminal
  {
    ForwardIsChunkingIndependent(parse, FRESH, a);
    ForwardIsChunkingIndependent(parse, FRESH, b);
  }

  // ---- the same by lines and frames ----

  /** The line names a terminal event, or carries JSON of a terminal type. */
  predicate Declares(parse: Parser, line: Bytes) {
    var event := StripPrefix(line, Ascii("event:"));
    var data := StripPrefix(line, Ascii("data:"));
    if event.Some? then TerminalName(TrimAscii(event.value)).Some?
    else data.Some? && (var value := parse(TrimAscii(data.value));
                        value.Some? && var eventType := value.value.GetString("type");
                                       eventType.Some? && IsTerminalName(eventType.value))
  }

  /** The line names an event that is not terminal. */
  predicate Retracts(line: Bytes) {
    var event := StripPrefix(line, Ascii("event:"));
    event.Some? && TerminalName(TrimAscii(event.value)).None?
  }

  function ReadFrame(parse: Parser, frame: seq<Bytes>): Recogniser {
    if frame == [] then FRESH else ReadLine(parse, ReadFrame(parse, frame[..|frame| - 1]), frame[|frame| - 1])
  }

  ghost predicate IsTerminalFrame(parse: Parser, frame: seq<Bytes>) {
    exists i :: 0 <= i < |frame| && Declares(parse, frame[i]) && forall j :: i < j < |frame| ==> !Retracts(frame[j])
  }

  lemma {:induction false} ReadLineFlags(parse: Parser, r: Recogniser, line: Bytes)
    ensures ReadLine(parse, r, line).flagged <==> Declares(parse, line) || (r.flagged && !Retracts(line))
  {
    assert Ascii("event:")[0] == 'e' as int && Ascii("data:")[0] == 'd' as int;
  }

  lemma {:induction false} TerminalFrameGrows(parse: Parser, front: seq<Bytes>, line: Bytes)
    ensures IsTerminalFrame(parse, front + [line])
            <==> Declares(parse, line) || (IsTerminalFrame(parse, front) && !Retracts(line))
  {
    var frame, n := front + [line], |front|;
    assert frame[n] == line && forall j :: 0 <= j < n ==> frame[j] == front[j];
    if IsTerminalFrame(parse, front) && !Retracts(line) {
      var i :| 0 <= i < n && Declares(parse, front[i]) && forall j :: i < j < n ==> !Retracts(front[j]);
      assert Declares(parse, frame[i]);
    }
    if IsTerminalFrame(parse, frame) && !Declares(parse, line) {
      var i :| 0 <= i <= n && Declares(parse, frame[i]) && forall j :: i < j <= n ==> !Retracts(frame[j]);
      assert Declares(parse, front[i]);
      assert forall j :: i < j < n ==> !Retracts(front[j]);
      assert !Retracts(frame[n]);
    }
  }

  /** A frame is recognised exactly when some line declares it terminal and no later line retracts that. */
  lemma {:induction false} RecognisedIffTerminal(parse: Parser, frame: seq<Bytes>)
    ensures ReadFrame(parse, frame).flagged <==> IsTerminalFrame(parse, frame)
  {
    if frame != [] {
      var n := |frame| - 1;
      RecognisedIffTerminal(parse, frame[..n]);
      ReadLineFlags(parse, ReadFrame(parse, frame[..n]), frame[n]);
      TerminalFrameGrows(parse, frame[..n], frame[n]);
      assert frame == frame[..n] + [frame[n]];
    }
  }

  // ---- which lines the metadata come from ----

  /** The JSON that a data line carries, if it parses. */
  function Carried(parse: Parser, line: Bytes): Option<Json> {
    var data := StripPrefix(line, Ascii("data:"));
    if data.Some? && StripPrefix(line, Ascii("event:")).None? then parse(TrimAscii(data.value)) else None
  }

  /** The terminal type of that JSON. */
  function CarriedType(parse: Parser, line: Bytes): Option<string> {
    var eventType := StringFrom(Carried(parse, line), "type");
    if eventType.Some? && IsTerminalName(eventType.value) then eventType else None
  }

  /** The terminal name on an event line. */
  function LineName(line: Bytes): Option<string> {
    var event := StripPrefix(line, Ascii("event:"));
    if event.Some? then TerminalName(TrimAscii(event.value)) else None
  }

  /** The first declaration that no later line retracts. */
  function DeclarationIn(parse: Parser, frame: seq<Bytes>): (r: Option<nat>)
    ensures r.Some? ==> r.value < |frame|
  {
    if frame == [] then None
    else
      var n := |frame| - 1;
      var before := DeclarationIn(parse, frame[..n]);
      if Retracts(frame[n]) then None
      else if before.Some? then before
      else if Declares(parse, frame[n]) then Some(n)
      else None
  }

  function LastCarried(parse: Parser, lines: seq<Bytes>): Option<Json> {
    if lines == [] then None
    else OrElse(Carried(parse, lines[|lines| - 1]), LastCarried(parse, lines[..|lines| - 1]))
  }

  function LastCarriedType(parse: Parser, lines: seq<Bytes>): Option<string> {
    if lines == [] then None
    else OrElse(CarriedType(parse, lines[|lines| - 1]), LastCarriedType(parse, lines[..|lines| - 1]))
  }

  /**
   * The metadata of a frame, from its lines from the first declaration on: the JSON is that of the last data line
   * that parses, the name is the last terminal type such a line has, or else the one on the declaring event line.
   */
  function MetadataOf(parse: Parser, frame: seq<Bytes>): Option<Terminal> {
    match DeclarationIn(parse, frame)
    case None => None
    case Some(d) => Some(FromEvent(NameOf(parse, frame[d..]), LastCarried(parse, frame[d..])))
  }

  function NameOf(parse: Parser, lines: seq<Bytes>): string
    requires lines != []
  {
    LastCarriedType(parse, lines).GetOr(LineName(lines[0]).GetOr(""))
  }

  /** What it means to be that declaration. */
  ghost predicate StandsAt(parse: Parser, frame: seq<Bytes>, d: nat) {
    && d < |frame| && Declares(parse, frame[d])
    && (forall j :: d < j < |frame| ==> !Retracts(frame[j]))
    && (forall i :: 0 <= i < d && Declares(parse, frame[i]) ==> exists j :: i < j < d && Retracts(frame[j]))
  }

  lemma {:induction false} DeclarationStands(parse: Parser, frame: seq<Bytes>)
    ensures match DeclarationIn(parse, frame)
            case Some(d) => StandsAt(parse, frame, d)
            case None => !IsTerminalFrame(parse, frame)
  {
    if frame != [] {
      var front, line := frame[..|frame| - 1], frame[|frame| - 1];
      assert frame == front + [line];
      DeclarationStands(parse, front);
      TerminalFrameGrows(parse, front, line);
      if DeclarationIn(parse, front).None? && DeclarationIn(parse, frame).Some? {
        RetractedBefore(parse, front, line);
      }
    }
  }

  lemma {:induction false} RetractedBefore(parse: Parser, front: seq<Bytes>, line: Bytes)
    requires !IsTerminalFrame(parse, front) && Declares(parse, line)
    ensures StandsAt(parse, front + [line], |front|)
  {
    var frame := front + [line];
    forall i | 0 <= i < |front| && Declares(parse, frame[i]) ensures exists j :: i < j < |front| && Retracts(frame[j]) {
      assert Declares(parse, front[i]);
      var j :| i < j < |front| && Retracts(front[j]);
      assert Retracts(frame[j]);
    }
  }

  /** What one more line does to the metadata. */
  lemma {:induction false} MetadataGrows(parse: Parser, front: seq<Bytes>, line: Bytes)
    ensures var held := MetadataOf(parse, front);
            MetadataOf(parse, front + [line])
            == if Retracts(line) then None
               else if held.None? && !Declares(parse, line) then None
               else Some(FromEvent(
                 CarriedType(parse, line).GetOr(if held.Some? then held.value.eventType else LineName(line).GetOr("")),
                 if held.Some? then OrElse(Carried(parse, line),
                                               LastCarried(parse, front[DeclarationIn(parse, front).value..]))
                 else Carried(parse, line)))
  {
    var frame, d := front + [line], DeclarationIn(parse, front);
    assert frame[..|front|] == front;
    if !Retracts(line) {
      if d.Some? {
        LinesGrow(parse, front, line, d.value);
      } else if Declares(parse, line) {
        assert frame[|front|..] == [line] && [line][..0] == [];
        assert LastCarried(parse, [line]) == OrElse(Carried(parse, line), LastCarried(parse, []));
        assert LastCarriedType(parse, [line]) == OrElse(CarriedType(parse, line), LastCarriedType(parse, []));
      }
    }
  }

  lemma {:induction false} LinesGrow(parse: Parser, front: seq<Bytes>, line: Bytes, d: nat)
    requires d < |front|
    ensures var before, lines := front[d..], (front + [line])[d..];
            && LastCarried(parse, lines) == OrElse(Carried(parse, line), LastCarried(parse, before))
            && NameOf(parse, lines) == CarriedType(parse, line).GetOr(NameOf(parse, before))
  {
    var before, lines := front[d..], (front + [line])[d..];
    assert lines == before + [line] && lines[..|before|] == before && lines[0] == before[0];
  }

  /** The automaton holds, after any lines, the metadata that these lines call for. */
  lemma {:induction false} ReadFrameHolds(parse: Parser, frame: seq<Bytes>)
    ensures ReadFrame(parse, frame).held == MetadataOf(parse, frame)
  {
    if frame != [] {
      var front, line := frame[..|frame| - 1], frame[|frame| - 1];
      assert frame == front + [line];
      ReadFrameHolds(parse, front);
      ReadFrameIsCoherent(parse, front);
      MetadataGrows(parse, front, line);
      ReadLineHolds(parse, ReadFrame(parse, front), front, line);
    }
  }

  lemma {:induction false} ReadLineHolds(parse: Parser, r: Recogniser, front: seq<Bytes>, line: Bytes)
    requires Coherent(r) && r.held == MetadataOf(parse, front)
    ensures ReadLine(parse, r, line).held == MetadataOf(parse, front + [line])
  {
    MetadataGrows(parse, front, line);
    assert Ascii("event:")[0] == 'e' as int && Ascii("data:")[0] == 'd' as int;
  }

  lemma {:induction false} ReadFrameIsCoherent(parse: Parser, frame: seq<Bytes>)
    ensures Coherent(ReadFrame(parse, frame)) && ReadFrame(parse, frame).line == []
  {
    if frame != [] {
      ReadFrameIsCoherent(parse, frame[..|frame| - 1]);
      ReadLineStaysCoherent(parse, ReadFrame(parse, frame[..|frame| - 1]), frame[|frame| - 1]);
    }
  }

  function NewlineAt(bytes: Bytes): (r: Option<nat>)
    ensures r.Some? ==> r.value < |bytes| && bytes[r.value] == LF && LF !in bytes[..r.value]
    ensures r.None? ==> LF !in bytes
  {
    if bytes == [] then None
    else if bytes[0] == LF then Some(0)
    else
      var rest := NewlineAt(bytes[1..]);
      if rest.None? then None
      else
        assert bytes[..rest.value + 1] == [bytes[0]] + bytes[1..][..rest.value];
        Some(rest.value + 1)
  }

  /** A line longer than 2 MiB keeps its first bytes. */
  function Capped(line: Bytes): Bytes { if |line| <= 2097152 then line else line[..2097152] }

  datatype Sighting = Sighting(terminal: Terminal, end: nat)

  /**
   * The reference reading: `bytes` is cut at newlines, blank lines end frames, and the first frame that
   * is terminal is reported with the number of bytes up to its end. `frame` holds the lines so far.
   */
  function FirstTerminal(held: Holding, bytes: Bytes, frame: seq<Bytes>): Option<Sighting>
    decreases |bytes|
  {
    match NewlineAt(bytes)
    case None => None
    case Some(n) =>
      var line := StripReturn(Capped(bytes[..n]));
      if line == [] && held(frame).Some? then Some(Sighting(held(frame).value, n + 1))
      else Later(FirstTerminal(held, bytes[n + 1..], Continued(frame, line)), n + 1)
  }

  /** What a frame of some lines holds. */
  type Holding = seq<Bytes> -> Option<Terminal>

  function HeldBy(parse: Parser): Holding { frame => MetadataOf(parse, frame) }

  function Later(found: Option<Sighting>, n: nat): Option<Sighting> {
    match found
    case None => None
    case Some(sighting) => Some(sighting.(end := sighting.end + n))
  }

  function Continued(frame: seq<Bytes>, line: Bytes): seq<Bytes> { if line == [] then [] else frame + [line] }

  /** Bytes without a newline only fill the current line. */
  lemma {:induction false} FillLine(parse: Parser, r: Recogniser, line: Bytes, text: Bytes, rest: Bytes)
    requires LF !in text && r.line == Capped(line)
    ensures Observe(parse, r, text + rest)
         == var o := Observe(parse, r.(line := Capped(line + text)), rest); o.(used := o.used + |text|)
    decreases |text|
  {
    if text == [] {
      assert text + rest == rest && line + text == line;
    } else {
      assert (text + rest)[0] == text[0] && (text + rest)[1..] == text[1..] + rest;
      assert line + [text[0]] + text[1..] == line + text;
      assert KeepByte(Capped(line), text[0]) == Capped(line + [text[0]]);
      FillLine(parse, r.(line := Capped(line + [text[0]])), line + [text[0]], text[1..], rest);
    }
  }

  /** What a newline does. */
  function AtNewline(parse: Parser, full: Recogniser, after: Bytes): Observed {
    if EndsTerminalFrame(full) then Observed(EndLine(parse, full), true, full.held, 1)
    else var o := Observe(parse, EndLine(parse, full), after); o.(used := o.used + 1)
  }

  lemma {:induction false} ObserveNewline(parse: Parser, full: Recogniser, after: Bytes)
    ensures Observe(parse, full, [LF] + after) == AtNewline(parse, full, after)
  {
    assert ([LF] + after)[1..] == after;
  }

  /** One whole line is read at its newline. */
  lemma {:induction false} ObserveLine(parse: Parser, r: Recogniser, text: Bytes, after: Bytes)
    requires r.line == [] && LF !in text
    ensures var o := AtNewline(parse, r.(line := Capped(text)), after);
            Observe(parse, r, text + ([LF] + after)) == o.(used := o.used + |text|)
  {
    FillLine(parse, r, [], text, [LF] + after);
    assert [] + text == text;
    ObserveNewline(parse, r.(line := Capped(text)), after);
  }

  lemma {:induction false} ReadFrameOneMore(parse: Parser, frame: seq<Bytes>, full: Recogniser)
    requires full == ReadFrame(parse, frame).(line := full.line) && StripReturn(full.line) != []
    ensures EndLine(parse, full) == ReadFrame(parse, frame + [StripReturn(full.line)])
  {
    var line := StripReturn(full.line);
    assert (frame + [line])[..|frame|] == frame;
    ReadFrameIsCoherent(parse, frame);
    ReadLineIgnoresLine(parse, ReadFrame(parse, frame), full.line, line);
  }

  /** The automaton's result agrees with the reference's. */
  predicate Agree(o: Observed, found: Option<Sighting>) {
    if found.None? then !o.hit
    else o.hit && o.terminal == Some(found.value.terminal) && o.used == found.value.end
  }

  /** What a whole line decides, given what the bytes behind it do. */
  lemma {:induction false} LineAgrees(parse: Parser, frame: seq<Bytes>, full: Recogniser, after: Bytes, n: nat,
                                      later: Option<Sighting>)
    requires full == ReadFrame(parse, frame).(line := full.line)
    requires Agree(Observe(parse, ReadFrame(parse, Continued(frame, StripReturn(full.line))), after), later)
    ensures var o, held := AtNewline(parse, full, after), MetadataOf(parse, frame);
            Agree(o.(used := o.used + n),
                  if StripReturn(full.line) == [] && held.Some? then Some(Sighting(held.value, n + 1))
                  else Later(later, n + 1))
  {
    ReadFrameIsCoherent(parse, frame);
    ReadFrameHolds(parse, frame);
    if StripReturn(full.line) != [] {
      ReadFrameOneMore(parse, frame, full);
    }
  }

  /** The byte automaton finds what the reference reading finds, at the same byte. */
  lemma {:induction false} ObserveIsFirstTerminal(parse: Parser, bytes: Bytes, frame: seq<Bytes>)
    ensures Agree(Observe(parse, ReadFrame(parse, frame), bytes), FirstTerminal(HeldBy(parse), bytes, frame))
    decreases |bytes|
  {
    var r := ReadFrame(parse, frame);
    ReadFrameIsCoherent(parse, frame);
    match NewlineAt(bytes)
    case None =>
      FillLine(parse, r, [], bytes, []);
      assert bytes + [] == bytes;
    case Some(n) =>
      var text, after := bytes[..n], bytes[n + 1..];
      var full := r.(line := Capped(text));
      var line := StripReturn(full.line);
      assert bytes == text + ([LF] + after);
      ObserveLine(parse, r, text, after);
      ObserveIsFirstTerminal(parse, after, Continued(frame, line));
      LineAgrees(parse, frame, full, after, n, FirstTerminal(HeldBy(parse), after, Continued(frame, line)));
      FirstTerminalStep(HeldBy(parse), bytes, frame, n, line);
  }

  lemma {:induction false} FirstTerminalStep(held: Holding, bytes: Bytes, frame: seq<Bytes>, n: nat, line: Bytes)
    requires NewlineAt(bytes) == Some(n) && line == StripReturn(Capped(bytes[..n]))
    ensures FirstTerminal(held, bytes, frame)
            == if line == [] && held(frame).Some? then Some(Sighting(held(frame).value, n + 1))
               else Later(FirstTerminal(held, bytes[n + 1..], Continued(frame, line)), n + 1)
  {
  }

  lemma {:induction false} ReadLineIgnoresLine(parse: Parser, r: Recogniser, buffered: Bytes, line: Bytes)
    requires r.line == []
    ensures ReadLine(parse, r.(line := buffered), line).(line := []) == ReadLine(parse, r, line)
  {
  }

  /**
   * The wrapper on any chunking of a byte stream: it reports the first terminal frame of the stream, if
   * there is one, and forwards up to the chunk in which that frame ends; otherwise it forwards all.
   */
  lemma {:induction false} ForwardsUpToFirstTerminalFrame(parse: Parser, input: seq<Item>)
    ensures ForwardsSighted(Forward(parse, FRESH, input), input, FirstTerminal(HeldBy(parse), Arrived(input), []))
  {
    ForwardIsChunkingIndependent(parse, FRESH, input);
    ObserveIsFirstTerminal(parse, Arrived(input), []);
    ObserveStaysCoherent(parse, FRESH, Arrived(input));
    SightingIsForwarded(Forward(parse, FRESH, input), Observe(parse, FRESH, Arrived(input)), input,
                        FirstTerminal(HeldBy(parse), Arrived(input), []));
  }

  /** Whether the wrapper has forwarded what is sighted, and no more than the chunk that holds its end. */
  predicate ForwardsSighted(f: Forwarded, input: seq<Item>, found: Option<Sighting>) {
    match found
    case None => f.terminal.None? && Arrived(f.items) == Arrived(input)
    case Some(sighting) =>
      && f.terminal == Some(sighting.terminal) && f.items <= input && f.items != []
      && |Arrived(f.items[..|f.items| - 1])| < sighting.end <= |Arrived(f.items)|
  }

  lemma {:induction false} SightingIsForwarded(f: Forwarded, o: Observed, input: seq<Item>, found: Option<Sighting>)
    requires ForwardsRightly(f, o, input) && Agree(o, found) && (o.hit <==> o.terminal.Some?)
    ensures ForwardsSighted(f, input, found)
  {
  }

  // ---- as it runs ----

  class ResponsesSseTerminator {
    const parse: Parser
    var line: Bytes
    var terminalEvent: bool
    var terminal: Option<Terminal>

    ghost function View(): Recogniser
      reads this
    {
      Recogniser(line, terminalEvent, terminal)
    }

    constructor (parse: Parser)
      ensures this.parse == parse && View() == FRESH
    {
      this.parse := parse;
      line, terminalEvent, terminal := [], false, None;
    }

    /** Looks at the chunk byte by byte and stops behind the first terminal frame. */
    method ObserveChunk(chunk: Bytes) returns (found: Option<Terminal>)
      modifies this
      ensures View() == Observe(parse, old(View()), chunk).next
      ensures found == Observe(parse, old(View()), chunk).terminal
    {
      for i := 0 to |chunk|
        invariant var o := Observe(parse, View(), chunk[i..]);
                  var whole := Observe(parse, old(View()), chunk);
                  o.next == whole.next && o.terminal == whole.terminal
      {
        assert chunk[i..][0] == chunk[i] && chunk[i..][1..] == chunk[i + 1..];
        if chunk[i] != LF {
          if |line| < MAX_SSE_LINE_BYTES {
            line := line + [chunk[i]];
          }
          continue;
        }
        var stripped := StripReturn(line);
        if stripped == [] {
          line := [];
          found := terminal;
          terminal := None;
          if terminalEvent {
            terminalEvent := false;
            return;
          }
          continue;
        }
        var read := ReadLine(parse, Recogniser(line, terminalEvent, terminal), stripped);
        terminalEvent, terminal := read.flagged, read.held;
        line := [];
      }
      found := None;
    }
  }

  /** Forwards items and calls the observer at most once, with the terminal that ended the stream. */
  method Terminate(parse: Parser, input: seq<Item>) returns (items: seq<Item>, observed: seq<Terminal>)
    ensures items == Forward(parse, FRESH, input).items
    ensures observed == match Forward(parse, FRESH, input).terminal case Some(t) => [t] case None => []
  {
    var terminator := new ResponsesSseTerminator(parse);
    items, observed := [], [];
    ghost var whole := Forward(parse, FRESH, input);
    assert input[0..] == input;
    for i := 0 to |input|
      invariant fresh(terminator) && terminator.parse == parse && observed == []
      invariant var f := Forward(parse, terminator.View(), input[i..]);
                items + f.items == whole.items && f.terminal == whole.terminal
    {
      ghost var before := terminator.View();
      items := items + [input[i]];
      if input[i].Failure? {
        assert input[i..][0] == input[i];
        return;
      }
      ForwardStep(parse, before, input, i, Observe(parse, before, input[i].bytes));
      var found := terminator.ObserveChunk(input[i].bytes);
      if found.Some? {
        observed := [found.value];
        return;
      }
    }
  }
}
