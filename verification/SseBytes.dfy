/** What both readers of server-sent events share: bytes as text, and the ends of lines. */
module SseBytes {
  import opened Prelude
  import opened Json

  const LF := 10
  const CR := 13

  /** The JSON parser is not defined here. */
  type Parser = Bytes -> Option<Json>

  function Ascii(s: string): Bytes { seq(|s|, i requires 0 <= i < |s| => s[i] as int) }

  lemma {:induction false} Spelled()
    ensures Ascii("data:") == [100, 97, 116, 97, 58] && Ascii("event:") == [101, 118, 101, 110, 116, 58]
    ensures Ascii(" ") == [32] && Ascii("[DONE]") == [91, 68, 79, 78, 69, 93]
  {
  }

  predicate IsAsciiWhitespace(byte: int) { byte == 32 || byte == 9 || byte == 10 || byte == 12 || byte == 13 }

  function StripReturn(line: Bytes): Bytes {
    if line != [] && line[|line| - 1] == CR then line[..|line| - 1] else line
  }
}
