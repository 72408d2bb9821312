/**
 * The incremental decoder of Responses SSE frames: it buffers bytes, cuts frames at a blank line (LF LF
 * or CR LF CR LF, whichever comes first) and parses the data lines of each.
 */
module SseDecoding {
  import opened Prelude
  import opened Json
  import opened SseBytes

  const LF_LF: Bytes := [LF, LF]
  const CRLF_CRLF: Bytes := [CR, LF, CR, LF]
  const MAX_SSE_FRAME_BYTES := 4 * 1024 * 1024

  datatype DecodeError = FrameTooLarge | InvalidEvent

  // ---- frame boundaries ----

  predicate OccursAt(b: Bytes, pattern: Bytes, i: int) {
    0 <= i && i + |pattern| <= |b| && b[i..i + |pattern|] == pattern
  }

  /** The first position at which the pattern occurs. */
  function Find(b: Bytes, pattern: Bytes): (r: Option<nat>)
    ensures r.Some? ==> OccursAt(b, pattern, r.value) && forall j :: j < r.value ==> !OccursAt(b, pattern, j)
    ensures r.None? ==> forall j :: !OccursAt(b, pattern, j)
  {
    FindFrom(b, pattern, 0)
  }

  function FindFrom(b: Bytes, pattern: Bytes, from: nat): (r: Option<nat>)
    requires forall j :: j < from ==> !OccursAt(b, pattern, j)
    ensures r.Some? ==> OccursAt(b, pattern, r.value) && forall j :: j < r.value ==> !OccursAt(b, pattern, j)
    ensures r.None? ==> forall j :: !OccursAt(b, pattern, j)
    decreases |b| - from
  {
    if from + |pattern| > |b| then None
    else if b[from..from + |pattern|] == pattern then Some(from)
    else FindFrom(b, pattern, from + 1)
  }

  datatype Boundary = Boundary(position: nat, length: nat)

  /** The first blank line; of two that start together the LF form wins. */
  function FrameBoundary(b: Bytes): (r: Option<Boundary>)
    ensures r.Some? ==> r.value.position + r.value.length <= |b| && 2 <= r.value.length
  {
    var lf := Find(b, LF_LF);
    var crlf := Find(b, CRLF_CRLF);
    if lf.Some? && (crlf.None? || lf.value <= crlf.value) then Some(Boundary(lf.value, 2))
    else if crlf.Some? then Some(Boundary(crlf.value, 4))
    else None
  }

  lemma {:induction false} OccursInPrefix(a: Bytes, b: Bytes, pattern: Bytes, i: int)
    requires i + |pattern| <= |a|
    ensures OccursAt(a + b, pattern, i) <==> OccursAt(a, pattern, i)
  {
    if 0 <= i {
      assert (a + b)[i..i + |pattern|] == a[i..i + |pattern|];
    }
  }

  /** An occurrence that is found stays the first one when more bytes arrive. */
  lemma {:induction false} FindIsStable(a: Bytes, b: Bytes, pattern: Bytes)
    ensures match Find(a, pattern)
            case Some(i) => Find(a + b, pattern) == Some(i)
            case None => Find(a + b, pattern).Some? ==> |a| < Find(a + b, pattern).value + |pattern|
  {
    var whole := Find(a + b, pattern);
    match Find(a, pattern)
    case Some(i) =>
      OccursInPrefix(a, b, pattern, i);
      if whole.value < i {
        OccursInPrefix(a, b, pattern, whole.value);
      }
    case None =>
      if whole.Some? && whole.value + |pattern| <= |a| {
        OccursInPrefix(a, b, pattern, whole.value);
      }
  }

  lemma {:induction false} OccursBytewise(b: Bytes, i: nat)
    ensures OccursAt(b, LF_LF, i) ==> b[i] == LF && b[i + 1] == LF
    ensures OccursAt(b, CRLF_CRLF, i) ==> b[i] == CR && b[i + 1] == LF && b[i + 2] == CR && b[i + 3] == LF
  {
    if OccursAt(b, LF_LF, i) {
      assert b[i..i + 2][0] == b[i] && b[i..i + 2][1] == b[i + 1];
    }
    if OccursAt(b, CRLF_CRLF, i) {
      var window := b[i..i + 4];
      assert window[0] == b[i] && window[1] == b[i + 1] && window[2] == b[i + 2] && window[3] == b[i + 3];
    }
  }

  /** A CR LF CR LF cannot start one byte before an LF LF. */
  lemma {:induction false} PatternsCannotOverlap(b: Bytes, i: int, j: int)
    requires 0 <= i && 0 <= j && OccursAt(b, LF_LF, i) && OccursAt(b, CRLF_CRLF, j)
    ensures j != i - 1
  {
    OccursBytewise(b, i);
    OccursBytewise(b, j);
  }

  /** So is a boundary, even where LF LF and CR LF CR LF mix. */
  lemma {:induction false} BoundaryIsStable(a: Bytes, b: Bytes)
    requires FrameBoundary(a).Some?
    ensures FrameBoundary(a + b) == FrameBoundary(a)
  {
    FindIsStable(a, b, LF_LF);
    FindIsStable(a, b, CRLF_CRLF);
    var lf, late := Find(a + b, LF_LF), Find(a + b, CRLF_CRLF);
    if lf.Some? && late.Some? {
      PatternsCannotOverlap(a + b, lf.value, late.value);
    }
  }

  // ---- frames ----

  function SplitLines(b: Bytes): (r: seq<Bytes>)
    ensures r != []
  {
    if b == [] then [[]]
    else
      var rest := SplitLines(b[1..]);
      if b[0] == LF then [[]] + rest else [[b[0]] + rest[0]] + rest[1..]
  }

  /** The value of a `data:` line, without the one space that may lead it. */
  function DataValue(line: Bytes): seq<Bytes> {
    match StripPrefix(StripReturn(line), Ascii("data:"))
    case None => []
    case Some(value) => [StripPrefix(value, Ascii(" ")).GetOr(value)]
  }

  function JoinLines(lines: seq<Bytes>): Bytes {
    if lines == [] then [] else if |lines| == 1 then lines[0] else lines[0] + [LF] + JoinLines(lines[1..])
  }

  /** A frame without data, and the `[DONE]` marker, carry no event. */
  function ParseFrame(parse: Parser, frame: Bytes): Result<Option<Json>, DecodeError> {
    var data := FlatMap(DataValue, SplitLines(frame));
    if data == [] then Ok(None)
    else
      var joined := JoinLines(data);
      if joined == Ascii("[DONE]") then Ok(None)
      else match parse(joined)
        case None => Err(InvalidEvent)
        case Some(event) => Ok(Some(event))
  }

  /** How one frame is read; the decoder reads it with ParseFrame. */
  type FrameReader = Bytes -> Result<Option<Json>, DecodeError>

  function Reader(parse: Parser): FrameReader { frame => ParseFrame(parse, frame) }

  datatype Decoded = Decoded(events: seq<Json>, rest: Bytes)

  /** Puts an event in front of a decoding. */
  function Prepend(events: seq<Json>, r: Result<Decoded, DecodeError>): Result<Decoded, DecodeError> {
    match r
    case Err(e) => Err(e)
    case Ok(d) => Ok(Decoded(events + d.events, d.rest))
  }

  function EventsOf(event: Option<Json>): seq<Json> { if event.Some? then [event.value] else [] }

  datatype Cut = Cut(frame: Bytes, rest: Bytes)

  /** The first complete frame, and the bytes behind its boundary. */
  function NextFrame(b: Bytes): (r: Option<Cut>)
    ensures r.Some? ==> |r.value.rest| < |b|
    ensures r.Some? <==> FrameBoundary(b).Some?
  {
    match FrameBoundary(b)
    case None => None
    case Some(cut) => Some(Cut(b[..cut.position], b[cut.position + cut.length..]))
  }

  lemma {:induction false} NextFrameIsStable(a: Bytes, b: Bytes)
    requires NextFrame(a).Some?
    ensures NextFrame(a + b) == Some(Cut(NextFrame(a).value.frame, NextFrame(a).value.rest + b))
  {
    BoundaryIsStable(a, b);
    var cut := FrameBoundary(a).value;
    assert (a + b)[..cut.position] == a[..cut.position];
    assert (a + b)[cut.position + cut.length..] == a[cut.position + cut.length..] + b;
  }

  /** Cuts and reads every complete frame, in order; the first that does not parse fails the whole. */
  function Drain(read: FrameReader, b: Bytes): Result<Decoded, DecodeError>
    decreases |b|
  {
    match NextFrame(b)
    case None => Ok(Decoded([], b))
    case Some(cut) =>
      match read(cut.frame)
      case Err(e) => Err(e)
      case Ok(event) => Prepend(EventsOf(event), Drain(read, cut.rest))
  }

  /** More bytes after a drain are as good as all of them at once. */
  lemma {:induction false} DrainInPieces(read: FrameReader, a: Bytes, b: Bytes)
    ensures Drain(read, a + b)
            == match Drain(read, a)
               case Err(e) => Err(e)
               case Ok(d) => Prepend(d.events, Drain(read, d.rest + b))
    decreases |a|
  {
    match NextFrame(a)
    case None =>
      PrependNothing(Drain(read, a + b));
    case Some(cut) =>
      NextFrameIsStable(a, b);
      DrainInPieces(read, cut.rest, b);
      var frame, tail := read(cut.frame), Drain(read, cut.rest);
      if frame.Ok? && tail.Ok? {
        PrependTwice(EventsOf(frame.value), tail.value.events, Drain(read, tail.value.rest + b));
      }
  }

  lemma {:induction false} PrependNothing(r: Result<Decoded, DecodeError>)
    ensures Prepend([], r) == r
  {
    if r.Ok? {
      assert [] + r.value.events == r.value.events;
    }
  }

  lemma {:induction false} PrependTwice(x: seq<Json>, y: seq<Json>, r: Result<Decoded, DecodeError>)
    ensures Prepend(x, Prepend(y, r)) == Prepend(x + y, r)
  {
    if r.Ok? {
      assert x + y + r.value.events == x + (y + r.value.events);
    }
  }

  // ---- pushing chunks ----

  /** A push first refuses a buffer that is over the limit and has no boundary. */
  function PushChunk(read: FrameReader, buffer: Bytes, chunk: Bytes): Result<Decoded, DecodeError> {
    var b := buffer + chunk;
    if |b| > MAX_SSE_FRAME_BYTES && FrameBoundary(b).None? then Err(FrameTooLarge) else Drain(read, b)
  }

  /** Here an end of line is followed by a blank line: line feeds alone, or each behind a carriage return. */
  predicate BlankLineAt(b: Bytes, i: nat) {
    || (i + 1 < |b| && b[i] == 10 && b[i + 1] == 10)
    || (i + 3 < |b| && b[i] == 13 && b[i + 1] == 10 && b[i + 2] == 13 && b[i + 3] == 10)
  }

  ghost predicate HasBlankLine(b: Bytes) { exists i :: BlankLineAt(b, i) }

  lemma {:induction false} OccursIffBlank(b: Bytes, i: nat)
    ensures OccursAt(b, LF_LF, i) || OccursAt(b, CRLF_CRLF, i) <==> BlankLineAt(b, i)
  {
    OccursBytewise(b, i);
    if i + 2 <= |b| {
      assert b[i..i + 2] == [b[i], b[i + 1]];
    }
    if i + 4 <= |b| {
      assert b[i..i + 4] == [b[i], b[i + 1], b[i + 2], b[i + 3]];
    }
  }

  lemma {:induction false} BoundaryIffBlankLine(b: Bytes)
    ensures FrameBoundary(b).Some? <==> HasBlankLine(b)
  {
    forall i: nat ensures OccursAt(b, LF_LF, i) || OccursAt(b, CRLF_CRLF, i) <==> BlankLineAt(b, i) {
      OccursIffBlank(b, i);
    }
    if FrameBoundary(b).Some? {
      assert BlankLineAt(b, FrameBoundary(b).value.position);
    }
  }

  /** A push is refused, and nothing read, exactly when it leaves more than 4 MiB without a blank line. */
  lemma {:induction false} PushIs(read: FrameReader, buffer: Bytes, chunk: Bytes)
    ensures var b := buffer + chunk;
            PushChunk(read, buffer, chunk)
            == if HasBlankLine(b) then Drain(read, b)
               else if |b| > 4194304 then Err(FrameTooLarge)
               else Ok(Decoded([], b))
  {
    BoundaryIffBlankLine(buffer + chunk);
  }

  function PushAll(read: FrameReader, buffer: Bytes, chunks: seq<Bytes>): Result<Decoded, DecodeError>
    decreases |chunks|
  {
    if chunks == [] then Ok(Decoded([], buffer))
    else match PushChunk(read, buffer, chunks[0])
      case Err(e) => Err(e)
      case Ok(d) => Prepend(d.events, PushAll(read, d.rest, chunks[1..]))
  }

  function Flatten(chunks: seq<Bytes>): Bytes {
    if chunks == [] then [] else chunks[0] + Flatten(chunks[1..])
  }

  /** No frame, with its boundary still incomplete, is over the limit; nor is what follows the last one. */
  predicate Fits(b: Bytes)
    decreases |b|
  {
    match NextFrame(b)
    case None => |b| <= MAX_SSE_FRAME_BYTES
    case Some(cut) => |b| - |cut.rest| - 1 <= MAX_SSE_FRAME_BYTES && Fits(cut.rest)
  }

  /** Nothing that could be in the buffer while such bytes arrive is refused. */
  lemma {:induction false} FitsPrefix(a: Bytes, b: Bytes)
    requires Fits(a + b) && NextFrame(a).None?
    ensures |a| <= MAX_SSE_FRAME_BYTES
  {
    match FrameBoundary(a + b)
    case None =>
    case Some(cut) =>
      if cut.position + cut.length <= |a| {
        BoundaryInPrefix(a, b, cut);
      }
  }

  /** A boundary that lies within a prefix is the prefix's own. */
  lemma {:induction false} BoundaryInPrefix(a: Bytes, b: Bytes, cut: Boundary)
    requires FrameBoundary(a + b) == Some(cut) && cut.position + cut.length <= |a|
    ensures FrameBoundary(a) == Some(cut)
  {
    OccursInPrefix(a, b, if cut.length == 2 then LF_LF else CRLF_CRLF, cut.position);
    BoundaryIsStable(a, b);
  }

  lemma {:induction false} FitsAfterDrain(read: FrameReader, a: Bytes, b: Bytes)
    requires Fits(a + b) && Drain(read, a).Ok?
    ensures Fits(Drain(read, a).value.rest + b) && NextFrame(Drain(read, a).value.rest).None?
    decreases |a|
  {
    match NextFrame(a)
    case None =>
    case Some(cut) =>
      NextFrameIsStable(a, b);
      FitsAfterDrain(read, cut.rest, b);
  }

  /**
   * Chunking does not matter: when every frame fits, pushing the bytes in any pieces gives the events
   * and the leftover buffer, or the error, that draining them all at once gives.
   */
  lemma {:induction false} DecodingIsChunkingIndependent(read: FrameReader, buffer: Bytes, chunks: seq<Bytes>)
    requires NextFrame(buffer).None? && Fits(buffer + Flatten(chunks))
    ensures PushAll(read, buffer, chunks) == Drain(read, buffer + Flatten(chunks))
    decreases |chunks|
  {
    if chunks == [] {
      assert buffer + [] == buffer;
    } else {
      var b, later := buffer + chunks[0], Flatten(chunks[1..]);
      assert buffer + Flatten(chunks) == b + later;
      DrainInPieces(read, b, later);
      if NextFrame(b).None? {
        FitsPrefix(b, later);
      }
      if Drain(read, b).Ok? {
        FitsAfterDrain(read, b, later);
        DecodingIsChunkingIndependent(read, Drain(read, b).value.rest, chunks[1..]);
      }
    }
  }

  /** Exactly when no frame is over the limit does chunking not matter to bytes whose frames all parse. */
  lemma {:induction false} ChunkingIndependentIffFits(read: FrameReader, b: Bytes)
    requires Drain(read, b).Ok?
    ensures (forall chunks :: Flatten(chunks) == b ==> PushAll(read, [], chunks) == Drain(read, b)) <==> Fits(b)
  {
    if Fits(b) {
      assert [] + b == b;
      forall chunks | Flatten(chunks) == b ensures PushAll(read, [], chunks) == Drain(read, b) {
        DecodingIsChunkingIndependent(read, [], chunks);
      }
    } else {
      var chunks := RefusedChunking(read, b);
    }
  }

  /** Where a frame is over the limit, cutting just before its last boundary byte has it refused. */
  lemma {:induction false} RefusedChunking(read: FrameReader, b: Bytes) returns (chunks: seq<Bytes>)
    requires Drain(read, b).Ok? && !Fits(b)
    ensures Flatten(chunks) == b && PushAll(read, [], chunks) == Err(FrameTooLarge)
    decreases |b|
  {
    match NextFrame(b)
    case None =>
      chunks := [b];
      assert [] + b == b == b + [];
    case Some(cut) =>
      var n := |b| - |cut.rest|;
      if MAX_SSE_FRAME_BYTES < n - 1 {
        chunks := RefusedCut(read, b, n - 1);
      } else {
        var first := FirstFrameSplits(b);
        var later := RefusedChunking(read, cut.rest);
        chunks := [first] + later;
        PushOneFrame(read, first, cut.frame, later);
        FlattenMore(first, later);
      }
  }

  lemma {:induction false} FlattenMore(first: Bytes, later: seq<Bytes>)
    ensures Flatten([first] + later) == first + Flatten(later)
  {
    assert ([first] + later)[1..] == later;
  }

  lemma {:induction false} RefusedCut(read: FrameReader, b: Bytes, n: nat) returns (chunks: seq<Bytes>)
    requires NextFrame(b).Some? && n == |b| - |NextFrame(b).value.rest| - 1 && MAX_SSE_FRAME_BYTES < n
    ensures Flatten(chunks) == b && PushAll(read, [], chunks) == Err(FrameTooLarge)
  {
    chunks := [b[..n], b[n..]];
    NoBoundaryYet(b, FrameBoundary(b).value);
    assert chunks[1..] == [b[n..]] && [] + b[..n] == b[..n];
    assert Flatten([b[n..]]) == b[n..] + Flatten([b[n..]][1..]);
    assert b == b[..n] + b[n..];
  }

  lemma {:induction false} NoBoundaryYet(b: Bytes, cut: Boundary)
    requires FrameBoundary(b) == Some(cut)
    ensures FrameBoundary(b[..cut.position + cut.length - 1]).None?
  {
    var n := cut.position + cut.length - 1;
    assert b == b[..n] + b[n..];
    if FrameBoundary(b[..n]).Some? {
      BoundaryIsStable(b[..n], b[n..]);
    }
  }

  /** The first frame with its boundary, and nothing more, is a frame with nothing behind it. */
  lemma {:induction false} FirstFrameAlone(b: Bytes)
    requires NextFrame(b).Some?
    ensures var n := |b| - |NextFrame(b).value.rest|;
            NextFrame(b[..n]) == Some(Cut(NextFrame(b).value.frame, []))
  {
    var cut := FrameBoundary(b).value;
    var n := cut.position + cut.length;
    assert b == b[..n] + b[n..];
    BoundaryInPrefix(b[..n], b[n..], cut);
    assert b[..n][..cut.position] == b[..cut.position];
  }

  lemma {:induction false} FirstFrameSplits(b: Bytes) returns (first: Bytes)
    requires NextFrame(b).Some?
    ensures b == first + NextFrame(b).value.rest
    ensures NextFrame(first) == Some(Cut(NextFrame(b).value.frame, []))
  {
    first := b[..|b| - |NextFrame(b).value.rest|];
    FirstFrameAlone(b);
  }

  lemma {:induction false} PushOneFrame(read: FrameReader, b: Bytes, frame: Bytes, later: seq<Bytes>)
    requires NextFrame(b) == Some(Cut(frame, [])) && read(frame).Ok? && PushAll(read, [], later).Err?
    ensures PushAll(read, [], [b] + later) == PushAll(read, [], later)
  {
    var chunks := [b] + later;
    assert [] + b == b && chunks[0] == b && chunks[1..] == later;
    assert Drain(read, []) == Ok(Decoded([], []));
    assert PushChunk(read, [], b).value.rest == [];
  }

  // ---- what a sender writes is what the decoder delivers ----

  /** A line as a sender has it: some data, with or without the space in front, or anything else. */
  datatype Line = Data(value: Bytes, spaced: bool) | Field(text: Bytes)
  {
    function Written(): Bytes {
      match this
      case Data(value, spaced) => Ascii(if spaced then "data: " else "data:") + value
      case Field(text) => text
    }

    /** The other lines name the event or an id, or are comments: what counts is that they are no data. */
    predicate Clean() {
      match this
      case Data(value, spaced) => LineClean(value) && (!spaced && value != [] ==> value[0] != Ascii(" ")[0])
      case Field(text) => LineWritten(text) && StripPrefix(text, Ascii("data:")).None?
    }

    function Values(): seq<Bytes> { if Data? then [value] else [] }
  }

  /** A frame as a sender has it: at least one line, and one kind of line end. */
  datatype Frame = Frame(content: seq<Line>, crlf: bool)
  {
    function Eol(): Bytes { if crlf then [CR, LF] else [LF] }

    function Lines(): seq<Bytes> { WrittenLines(content) }

    function Values(): seq<Bytes> { LineValues(content) }

    /** The values of the data lines, a line feed between each two. */
    function Data(): Bytes { Joined(Values(), [LF]) }

    function Text(): Bytes { Joined(Lines(), Eol()) }

    function Encode(): Bytes { Text() + Eol() + Eol() }

    predicate Clean() { content != [] && forall line <- content :: line.Clean() }
  }

  function WrittenLines(lines: seq<Line>): (r: seq<Bytes>)
    ensures |r| == |lines|
  {
    if lines == [] then [] else [lines[0].Written()] + WrittenLines(lines[1..])
  }

  function LineValues(lines: seq<Line>): seq<Bytes> {
    if lines == [] then [] else lines[0].Values() + LineValues(lines[1..])
  }

  function Joined(lines: seq<Bytes>, eol: Bytes): Bytes {
    if lines == [] then [] else if |lines| == 1 then lines[0] else lines[0] + eol + Joined(lines[1..], eol)
  }

  /** Nothing in the line can be taken for an end of line. */
  predicate LineClean(line: Bytes) { LF !in line && (line != [] ==> line[|line| - 1] != CR) }

  /** A line as it stands in a frame: it starts with the name of its field. */
  predicate LineWritten(line: Bytes) { line != [] && LineClean(line) && line[0] != CR }

  lemma {:induction false} LinesAreWritten(lines: seq<Line>)
    requires forall line <- lines :: line.Clean()
    ensures forall text <- WrittenLines(lines) :: LineWritten(text)
  {
    if lines != [] {
      LineIsRead(lines[0]);
      LinesAreWritten(lines[1..]);
    }
  }

  // ---- where such a frame ends ----

  function Shift(r: Option<Boundary>, n: nat): Option<Boundary> {
    match r
    case None => None
    case Some(cut) => Some(Boundary(cut.position + n, cut.length))
  }

  lemma {:induction false} OccursInTail(p: Bytes, tail: Bytes, pattern: Bytes, i: int)
    requires |p| <= i
    ensures OccursAt(p + tail, pattern, i) <==> OccursAt(tail, pattern, i - |p|)
  {
    if i + |pattern| <= |p + tail| {
      assert (p + tail)[i..i + |pattern|] == tail[i - |p|..i - |p| + |pattern|];
    }
  }

  lemma {:induction false} FindShifts(p: Bytes, tail: Bytes, pattern: Bytes)
    requires forall i :: i < |p| ==> !OccursAt(p + tail, pattern, i)
    ensures match Find(tail, pattern)
            case None => Find(p + tail, pattern).None?
            case Some(i) => Find(p + tail, pattern) == Some(i + |p|)
  {
    var late := Find(p + tail, pattern);
    if late.Some? {
      OccursInTail(p, tail, pattern, late.value);
    }
    match Find(tail, pattern)
    case None =>
    case Some(i) =>
      OccursInTail(p, tail, pattern, i + |p|);
  }

  /** A written line and its end hold no boundary when more than an end of line follows. */
  lemma {:induction false} BoundarySkipsLine(line: Bytes, crlf: bool, tail: Bytes)
    requires LineWritten(line) && tail != [] && tail[0] != LF && tail[0] != CR
    ensures var eol := if crlf then [CR, LF] else [LF];
            FrameBoundary(line + eol + tail) == Shift(FrameBoundary(tail), |line| + |eol|)
  {
    var p := line + (if crlf then [CR, LF] else [LF]);
    forall i | 0 <= i < |p| ensures !OccursAt(p + tail, LF_LF, i) && !OccursAt(p + tail, CRLF_CRLF, i) {
      NoBoundaryInLine(line, crlf, tail, i);
    }
    FindShifts(p, tail, LF_LF);
    FindShifts(p, tail, CRLF_CRLF);
  }

  lemma {:induction false} NoBoundaryInLine(line: Bytes, crlf: bool, tail: Bytes, i: nat)
    requires LineWritten(line) && tail != [] && tail[0] != LF && tail[0] != CR
    requires i < |line| + (if crlf then 2 else 1)
    ensures var b := line + (if crlf then [CR, LF] else [LF]) + tail;
            !OccursAt(b, LF_LF, i) && !OccursAt(b, CRLF_CRLF, i)
  {
    var b := line + (if crlf then [CR, LF] else [LF]) + tail;
    assert forall j :: 0 <= j < |line| ==> b[j] == line[j];
    OccursBytewise(b, i);
  }

  lemma {:induction false} EndsTwice(line: Bytes, rest: Bytes)
    ensures OccursAt(line + [CR, LF] + [CR, LF] + rest, CRLF_CRLF, |line|)
  {
    var b := line + [CR, LF] + [CR, LF] + rest;
    var four := b[|line|..|line| + 4];
    assert four[0] == CR && four[1] == LF && four[2] == CR && four[3] == LF;
    assert four == CRLF_CRLF;
  }

  /** Two ends of line after a written line are the first boundary. */
  lemma {:induction false} BoundaryEndsLine(line: Bytes, crlf: bool, rest: Bytes)
    requires LineWritten(line)
    ensures var eol := if crlf then [CR, LF] else [LF];
            FrameBoundary(line + eol + eol + rest) == Some(Boundary(|line|, 2 * |eol|))
  {
    var eol := if crlf then [CR, LF] else [LF];
    var b := line + eol + eol + rest;
    forall i | 0 <= i < |line| ensures !OccursAt(b, LF_LF, i) && !OccursAt(b, CRLF_CRLF, i) {
      NoBoundaryBeforeEnd(line, crlf, rest, i);
    }
    if crlf {
      EndsTwice(line, rest);
      assert b[|line|..|line| + 2][0] == CR;
    } else {
      assert OccursAt(b, LF_LF, |line|);
    }
  }

  lemma {:induction false} NoBoundaryBeforeEnd(line: Bytes, crlf: bool, rest: Bytes, i: nat)
    requires LineWritten(line) && i < |line|
    ensures var eol := if crlf then [CR, LF] else [LF];
            !OccursAt(line + eol + eol + rest, LF_LF, i) && !OccursAt(line + eol + eol + rest, CRLF_CRLF, i)
  {
    var eol := if crlf then [CR, LF] else [LF];
    var b := line + eol + eol + rest;
    assert forall j :: 0 <= j < |line| ==> b[j] == line[j];
    OccursBytewise(b, i);
  }

  lemma {:induction false} BoundaryEndsText(lines: seq<Bytes>, crlf: bool, rest: Bytes)
    requires lines != [] && forall line <- lines :: LineWritten(line)
    ensures var eol := if crlf then [CR, LF] else [LF];
            FrameBoundary(Joined(lines, eol) + eol + eol + rest) == Some(Boundary(|Joined(lines, eol)|, 2 * |eol|))
  {
    var eol := if crlf then [CR, LF] else [LF];
    if |lines| == 1 {
      BoundaryEndsLine(lines[0], crlf, rest);
    } else {
      var later := Joined(lines[1..], eol);
      BoundaryEndsText(lines[1..], crlf, rest);
      assert LineWritten(lines[1]) && later[0] == lines[1][0];
      BoundarySkipsFirst(lines[0], later, crlf, rest);
    }
  }

  lemma {:induction false} BoundarySkipsFirst(first: Bytes, later: Bytes, crlf: bool, rest: Bytes)
    requires LineWritten(first) && later != [] && later[0] != LF && later[0] != CR
    requires var eol := if crlf then [CR, LF] else [LF];
             FrameBoundary(later + eol + eol + rest) == Some(Boundary(|later|, 2 * |eol|))
    ensures var eol := if crlf then [CR, LF] else [LF];
            FrameBoundary(first + eol + later + eol + eol + rest) == Some(Boundary(|first + eol + later|, 2 * |eol|))
  {
    var eol := if crlf then [CR, LF] else [LF];
    BoundarySkipsLine(first, crlf, later + eol + eol + rest);
    assert first + eol + later + eol + eol + rest == first + eol + (later + eol + eol + rest);
  }

  // ---- what such a frame says ----

  lemma {:induction false} SplitLinesAt(line: Bytes, tail: Bytes)
    requires LF !in line
    ensures SplitLines(line + [LF] + tail) == [line] + SplitLines(tail)
    decreases |line|
  {
    if line == [] {
      assert ([LF] + tail)[1..] == tail;
      assert line + [LF] + tail == [LF] + tail;
    } else {
      SplitLinesAt(line[1..], tail);
      assert (line + [LF] + tail)[1..] == line[1..] + [LF] + tail;
      assert line == [line[0]] + line[1..];
    }
  }

  lemma {:induction false} SplitLinesOfOne(line: Bytes)
    requires LF !in line
    ensures SplitLines(line) == [line]
    decreases |line|
  {
    if line != [] {
      SplitLinesOfOne(line[1..]);
      assert line == [line[0]] + line[1..];
    }
  }

  function DataOf(text: Bytes): seq<Bytes> { FlatMap(DataValue, SplitLines(text)) }

  lemma {:induction false} DataOfFirst(line: Bytes, tail: Bytes)
    requires LF !in line
    ensures DataOf(line + [LF] + tail) == DataValue(line) + DataOf(tail)
  {
    SplitLinesAt(line, tail);
    FlatMapFirst(DataValue, line, SplitLines(tail));
  }

  lemma {:induction false} ReturnIsStripped(line: Bytes)
    requires LineClean(line)
    ensures DataValue(line + [CR]) == DataValue(line)
  {
    assert (line + [CR])[..|line|] == line;
    assert StripReturn(line + [CR]) == StripReturn(line);
  }

  /** A carriage return before the line feed is not part of the line. */
  lemma {:induction false} DataOfLine(line: Bytes, crlf: bool, tail: Bytes)
    requires LineClean(line)
    ensures DataOf(line + (if crlf then [CR, LF] else [LF]) + tail) == DataValue(line) + DataOf(tail)
  {
    if crlf {
      var written := line + [CR];
      ReturnIsStripped(line);
      DataOfFirst(written, tail);
      assert line + [CR, LF] == written + [LF];
    } else {
      DataOfFirst(line, tail);
    }
  }

  lemma {:induction false} DataOfLast(line: Bytes)
    requires LineClean(line)
    ensures DataOf(line) == DataValue(line)
  {
    SplitLinesOfOne(line);
    FlatMapSingle(DataValue, line);
  }

  /** What the decoder reads off a written line. */
  lemma {:induction false} LineIsRead(line: Line)
    requires line.Clean()
    ensures LineWritten(line.Written()) && DataValue(line.Written()) == line.Values()
  {
    match line
    case Data(value, spaced) => DataOfLabel(value, spaced);
    case Field(text) => assert StripReturn(text) == text;
  }

  lemma {:induction false} DataOfLabel(value: Bytes, spaced: bool)
    requires Line.Data(value, spaced).Clean()
    ensures var line := Line.Data(value, spaced).Written(); LineWritten(line) && DataValue(line) == [value]
  {
    var line, name := Line.Data(value, spaced).Written(), Ascii("data:");
    var tail := (if spaced then Ascii(" ") else []) + value;
    assert Ascii("data: ") == name + Ascii(" ");
    assert line == name + tail && line[..5] == name && line[5..] == tail;
    assert StripReturn(line) == line;
    if spaced {
      assert tail[..1] == Ascii(" ") && tail[1..] == value;
    } else {
      NoSpaceToStrip(value);
      assert tail == value;
    }
  }

  lemma {:induction false} NoSpaceToStrip(value: Bytes)
    requires value != [] ==> value[0] != Ascii(" ")[0]
    ensures StripPrefix(value, Ascii(" ")).None?
  {
  }

  lemma {:induction false} DataOfLines(lines: seq<Line>, crlf: bool)
    requires lines != [] && forall line <- lines :: line.Clean()
    ensures DataOf(Joined(WrittenLines(lines), if crlf then [CR, LF] else [LF])) == LineValues(lines)
  {
    var eol, first := if crlf then [CR, LF] else [LF], lines[0].Written();
    LineIsRead(lines[0]);
    assert WrittenLines(lines)[0] == first && WrittenLines(lines)[1..] == WrittenLines(lines[1..]);
    if |lines| == 1 {
      DataOfLast(first);
      assert LineValues(lines[1..]) == [];
    } else {
      DataOfLines(lines[1..], crlf);
      DataOfLine(first, crlf, Joined(WrittenLines(lines[1..]), eol));
    }
  }

  /** The event a frame is meant to carry: none without data, and none for the `[DONE]` marker. */
  function Meant(parse: Parser, f: Frame): Option<Json> { if Marks(f) then None else parse(f.Data()) }

  predicate Marks(f: Frame) { f.Values() == [] || f.Data() == Ascii("[DONE]") }

  predicate Sendable(parse: Parser, f: Frame) {
    && f.Clean()
    && |f.Encode()| - 1 <= MAX_SSE_FRAME_BYTES
    && (Marks(f) || parse(f.Data()).Some?)
  }

  function EncodeAll(frames: seq<Frame>): Bytes {
    if frames == [] then [] else frames[0].Encode() + EncodeAll(frames[1..])
  }

  function MeantAll(parse: Parser, frames: seq<Frame>): seq<Json> {
    if frames == [] then [] else EventsOf(Meant(parse, frames[0])) + MeantAll(parse, frames[1..])
  }

  lemma {:induction false} FrameIsCut(f: Frame, rest: Bytes)
    requires f.Clean()
    ensures NextFrame(f.Encode() + rest) == Some(Cut(f.Text(), rest))
  {
    LinesAreWritten(f.content);
    BoundaryEndsText(f.Lines(), f.crlf, rest);
    var b := f.Text() + f.Eol() + f.Eol() + rest;
    assert b == f.Encode() + rest && b[..|f.Text()|] == f.Text() && b[|f.Encode()|..] == rest;
  }

  lemma {:induction false} FrameIsRead(parse: Parser, f: Frame)
    requires Sendable(parse, f)
    ensures Reader(parse)(f.Text()) == Ok(Meant(parse, f))
  {
    DataOfLines(f.content, f.crlf);
    LinesAreJoined(f.Values());
  }

  /** A frame with data that does not parse fails the decoding as an invalid event. */
  lemma {:induction false} FrameIsInvalid(parse: Parser, f: Frame)
    requires f.Clean() && !Marks(f) && parse(f.Data()).None?
    ensures Reader(parse)(f.Text()) == Err(InvalidEvent)
  {
    DataOfLines(f.content, f.crlf);
    LinesAreJoined(f.Values());
  }

  lemma {:induction false} LinesAreJoined(lines: seq<Bytes>)
    ensures JoinLines(lines) == Joined(lines, [LF])
  {
    if |lines| > 1 {
      LinesAreJoined(lines[1..]);
    }
  }

  /** What a push leaves buffered, whether or not every frame parses. */
  function Leftover(read: FrameReader, b: Bytes): Bytes
    decreases |b|
  {
    match NextFrame(b)
    case None => b
    case Some(cut) => if read(cut.frame).Err? then cut.rest else Leftover(read, cut.rest)
  }

  lemma {:induction false} FrameIsFirst(parse: Parser, f: Frame, rest: Bytes)
    requires Sendable(parse, f)
    ensures NextFrame(f.Encode() + rest) == Some(Cut(f.Text(), rest))
    ensures Reader(parse)(f.Text()) == Ok(Meant(parse, f))
    ensures Fits(rest) ==> Fits(f.Encode() + rest)
  {
    FrameIsCut(f, rest);
    FrameIsRead(parse, f);
  }

  /** One turn of the draining loop, behind events already collected. */
  lemma {:induction false} CutStep(read: FrameReader, events: seq<Json>, b: Bytes, frame: Bytes, rest: Bytes)
    requires NextFrame(b) == Some(Cut(frame, rest))
    ensures match read(frame)
            case Err(e) => Drain(read, b) == Err(e) && Leftover(read, b) == rest
            case Ok(event) =>
              && Prepend(events, Drain(read, b)) == Prepend(events + EventsOf(event), Drain(read, rest))
              && Leftover(read, b) == Leftover(read, rest)
  {
    if read(frame).Ok? {
      PrependTwice(events, EventsOf(read(frame).value), Drain(read, rest));
    }
  }

  lemma {:induction false} FramesAreDrained(parse: Parser, frames: seq<Frame>)
    requires forall f <- frames :: Sendable(parse, f)
    ensures Drain(Reader(parse), EncodeAll(frames)) == Ok(Decoded(MeantAll(parse, frames), []))
    ensures Fits(EncodeAll(frames))
  {
    if frames != [] {
      var f, rest := frames[0], EncodeAll(frames[1..]);
      FramesAreDrained(parse, frames[1..]);
      FrameIsFirst(parse, f, rest);
      CutStep(Reader(parse), [], f.Encode() + rest, f.Text(), rest);
    }
  }

  /**
   * Round trip: frames written with either line ending, with data of any number of lines, and cut into
   * any chunks, are decoded to exactly the events they were meant to carry, and leave nothing behind.
   */
  lemma {:induction false} FramesSurviveTheWire(parse: Parser, frames: seq<Frame>, chunks: seq<Bytes>)
    requires (forall f <- frames :: Sendable(parse, f)) && Flatten(chunks) == EncodeAll(frames)
    ensures PushAll(Reader(parse), [], chunks) == Ok(Decoded(MeantAll(parse, frames), []))
  {
    FramesAreDrained(parse, frames);
    assert [] + Flatten(chunks) == Flatten(chunks);
    DecodingIsChunkingIndependent(Reader(parse), [], chunks);
  }

  // ---- the decoder itself ----

  lemma {:induction false} LeftoverIsRest(read: FrameReader, b: Bytes)
    requires Drain(read, b).Ok?
    ensures Leftover(read, b) == Drain(read, b).value.rest
    decreases |b|
  {
    if NextFrame(b).Some? {
      LeftoverIsRest(read, NextFrame(b).value.rest);
    }
  }

  function Delivered(r: Result<Decoded, DecodeError>): Result<seq<Json>, DecodeError> {
    match r
    case Ok(d) => Ok(d.events)
    case Err(e) => Err(e)
  }

  /** The frames are read by Reader(parse); every method takes the reader. */
  class SseDecoder {
    var buffer: Bytes

    constructor ()
      ensures buffer == []
    {
      buffer := [];
    }

    method Push(read: FrameReader, bytes: Bytes) returns (r: Result<seq<Json>, DecodeError>)
      modifies this
      ensures r == Delivered(PushChunk(read, old(buffer), bytes))
      ensures buffer == Leftover(read, old(buffer) + bytes)
    {
      buffer := buffer + bytes;
      if |buffer| > MAX_SSE_FRAME_BYTES && FrameBoundary(buffer).None? {
        return Err(FrameTooLarge);
      }
      r := TakeFrames(read);
    }

    /** The draining loop of a push. */
    method TakeFrames(read: FrameReader) returns (r: Result<seq<Json>, DecodeError>)
      modifies this
      ensures r == Delivered(Drain(read, old(buffer)))
      ensures buffer == Leftover(read, old(buffer))
    {
      var events := [];
      PrependNothing(Drain(read, buffer));
      var cut := NextFrame(buffer);
      while cut.Some?
        invariant cut == NextFrame(buffer)
        invariant Drain(read, old(buffer)) == Prepend(events, Drain(read, buffer))
        invariant Leftover(read, old(buffer)) == Leftover(read, buffer)
        decreases |buffer|
      {
        CutStep(read, events, buffer, cut.value.frame, cut.value.rest);
        var event := read(cut.value.frame);
        buffer := cut.value.rest;
        if event.Err? {
          return Err(event.error);
        }
        events := events + EventsOf(event.value);
        cut := NextFrame(buffer);
      }
      assert events + [] == events;
      return Ok(events);
    }

    /** At the end of the body what is left is read as one last frame, unless it is blank. */
    method Finish(read: FrameReader) returns (r: Result<seq<Json>, DecodeError>)
      modifies this
      ensures buffer == []
      ensures r == if forall byte <- old(buffer) :: IsAsciiWhitespace(byte) then Ok([])
                   else match read(old(buffer))
                        case Ok(event) => Ok(EventsOf(event))
                        case Err(e) => Err(e)
    {
      var frame := buffer;
      buffer := [];
      if forall byte <- frame :: IsAsciiWhitespace(byte) {
        return Ok([]);
      }
      var event := read(frame);
      return match event case Ok(e) => Ok(EventsOf(e)) case Err(e) => Err(e);
    }
  }
}
