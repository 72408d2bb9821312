/** The URL-safe base64 alphabet of section 5 of RFC 4648, without padding (its section 3.2). */
module Base64Url {
  import opened Prelude

  type Octet = x: int | 0 <= x < 256
  type Sextet = x: int | 0 <= x < 64

  // ---- octets and sextets ----

  function ToSextets(b: seq<Octet>): seq<Sextet> {
    if |b| == 0 then []
    else if |b| == 1 then [b[0] / 4, b[0] % 4 * 16]
    else if |b| == 2 then [b[0] / 4, b[0] % 4 * 16 + b[1] / 16, b[1] % 16 * 4]
    else [b[0] / 4, b[0] % 4 * 16 + b[1] / 16, b[1] % 16 * 4 + b[2] / 64, b[2] % 64] + ToSextets(b[3..])
  }

  function First(v: Sextet, w: Sextet): Octet { v * 4 + w / 16 }

  function Second(w: Sextet, x: Sextet): Octet { w % 16 * 16 + x / 4 }

  function Third(x: Sextet, y: Sextet): Octet { x % 4 * 64 + y }

  /** A lone sextet, and unused bits that are not zero, are errors. */
  function FromSextets(v: seq<Sextet>): Option<seq<Octet>> {
    if |v| == 0 then Some([])
    else if |v| == 1 then None
    else if |v| == 2 then if v[1] % 16 == 0 then Some([First(v[0], v[1])]) else None
    else if |v| == 3 then if v[2] % 4 == 0 then Some([First(v[0], v[1]), Second(v[1], v[2])]) else None
    else
      match FromSextets(v[4..])
      case None => None
      case Some(rest) => Some([First(v[0], v[1]), Second(v[1], v[2]), Third(v[2], v[3])] + rest)
  }

  /** Three octets cut into four sextets are put together again. */
  lemma {:induction false} GroupRoundTrip(x: Octet, y: Octet, z: Octet)
    ensures First(x / 4, x % 4 * 16 + y / 16) == x
    ensures Second(x % 4 * 16 + y / 16, y % 16 * 4 + z / 64) == y
    ensures Third(y % 16 * 4 + z / 64, z % 64) == z
  {
  }

  lemma {:induction false} FromGroup(v: Sextet, w: Sextet, x: Sextet, y: Sextet, rest: seq<Sextet>, b: seq<Octet>)
    requires FromSextets(rest) == Some(b)
    ensures FromSextets([v, w, x, y] + rest) == Some([First(v, w), Second(w, x), Third(x, y)] + b)
  {
    assert ([v, w, x, y] + rest)[4..] == rest;
  }

  lemma {:induction false} OneOctet(x: Octet)
    ensures FromSextets([x / 4, x % 4 * 16]) == Some([x])
  {
    GroupRoundTrip(x, 0, 0);
    var v: seq<Sextet> := [x / 4, x % 4 * 16];
    assert v[1] % 16 == 0;
  }

  lemma {:induction false} TwoOctets(x: Octet, y: Octet)
    ensures FromSextets([x / 4, x % 4 * 16 + y / 16, y % 16 * 4]) == Some([x, y])
  {
    GroupRoundTrip(x, y, 0);
    var v: seq<Sextet> := [x / 4, x % 4 * 16 + y / 16, y % 16 * 4];
    assert v[2] % 4 == 0;
  }

  lemma {:induction false} ThreeOctets(x: Octet, y: Octet, z: Octet, rest: seq<Sextet>, b: seq<Octet>)
    requires FromSextets(rest) == Some(b)
    ensures FromSextets([x / 4, x % 4 * 16 + y / 16, y % 16 * 4 + z / 64, z % 64] + rest) == Some([x, y, z] + b)
  {
    GroupRoundTrip(x, y, z);
    FromGroup(x / 4, x % 4 * 16 + y / 16, y % 16 * 4 + z / 64, z % 64, rest, b);
  }

  lemma {:induction false} SextetsRoundTrip(b: seq<Octet>)
    ensures FromSextets(ToSextets(b)) == Some(b)
  {
    if |b| == 1 {
      OneOctet(b[0]);
      assert [b[0]] == b;
    } else if |b| == 2 {
      TwoOctets(b[0], b[1]);
      assert [b[0], b[1]] == b;
    } else if 3 <= |b| {
      SextetsRoundTrip(b[3..]);
      ThreeOctets(b[0], b[1], b[2], ToSextets(b[3..]), b[3..]);
      assert [b[0], b[1], b[2]] + b[3..] == b;
    }
  }

  /** And four sextets put together into three octets are cut again. */
  lemma {:induction false} GroupIsCanonical(v: Sextet, w: Sextet, x: Sextet, y: Sextet)
    ensures First(v, w) / 4 == v
    ensures First(v, w) % 4 * 16 + Second(w, x) / 16 == w
    ensures Second(w, x) % 16 * 4 + Third(x, y) / 64 == x
    ensures Third(x, y) % 64 == y
  {
  }

  lemma {:induction false} SextetsAreCanonical(v: seq<Sextet>)
    requires FromSextets(v).Some?
    ensures ToSextets(FromSextets(v).value) == v
  {
    if |v| == 2 {
      GroupIsCanonical(v[0], v[1], 0, 0);
      TailIsCanonical(v[1]);
      assert v == [v[0], v[1]];
    } else if |v| == 3 {
      GroupIsCanonical(v[0], v[1], v[2], 0);
      TailIsCanonical(v[2]);
      assert v == [v[0], v[1], v[2]];
    } else if 4 <= |v| {
      SextetsAreCanonical(v[4..]);
      GroupIsCanonical(v[0], v[1], v[2], v[3]);
      assert FromSextets(v).value[3..] == FromSextets(v[4..]).value;
      assert v == [v[0], v[1], v[2], v[3]] + v[4..];
    }
  }

  /** The unused low bits of a last sextet. */
  lemma {:induction false} TailIsCanonical(v: Sextet)
    ensures v % 16 == 0 ==> v / 16 * 16 == v
    ensures v % 4 == 0 ==> v / 4 * 4 == v
  {
  }

  // ---- sextets and characters ----

  function Digit(v: Sextet): char {
    if v < 26 then ('A' as int + v) as char
    else if v < 52 then ('a' as int + v - 26) as char
    else if v < 62 then ('0' as int + v - 52) as char
    else if v == 62 then '-'
    else '_'
  }

  function Value(c: char): (r: Option<Sextet>)
    ensures forall v: Sextet :: r == Some(v) <==> Digit(v) == c
  {
    if 'A' <= c <= 'Z' then Some(c as int - 'A' as int)
    else if 'a' <= c <= 'z' then Some(c as int - 'a' as int + 26)
    else if '0' <= c <= '9' then Some(c as int - '0' as int + 52)
    else if c == '-' then Some(62)
    else if c == '_' then Some(63)
    else None
  }

  function Digits(v: seq<Sextet>): (r: string)
    ensures |r| == |v|
  {
    if v == [] then [] else [Digit(v[0])] + Digits(v[1..])
  }

  function Values(s: string): (r: Option<seq<Sextet>>)
  {
    if s == [] then Some([])
    else if Value(s[0]).None? || Values(s[1..]).None? then None
    else Some([Value(s[0]).value] + Values(s[1..]).value)
  }

  lemma {:induction false} DigitsRoundTrip(v: seq<Sextet>)
    ensures Values(Digits(v)) == Some(v)
  {
    if v != [] {
      DigitsRoundTrip(v[1..]);
      assert Digits(v)[1..] == Digits(v[1..]) && v == [v[0]] + v[1..];
    }
  }

  lemma {:induction false} DigitsAreCanonical(s: string)
    requires Values(s).Some?
    ensures Digits(Values(s).value) == s
  {
    if s != [] {
      DigitsAreCanonical(s[1..]);
      assert Values(s).value[1..] == Values(s[1..]).value && s == [s[0]] + s[1..];
    }
  }

  // ---- the codec ----

  function Encode(b: seq<Octet>): string { Digits(ToSextets(b)) }

  function Decode(s: string): Option<seq<Octet>> {
    match Values(s)
    case None => None
    case Some(v) => FromSextets(v)
  }

  /** Decoding undoes encoding, and only what encoding writes can be decoded: text and octets are one to one. */
  lemma {:induction false} DecodeIffEncoded(s: string, b: seq<Octet>)
    ensures Decode(s) == Some(b) <==> s == Encode(b)
  {
    SextetsRoundTrip(b);
    DigitsRoundTrip(ToSextets(b));
    if Decode(s) == Some(b) {
      DigitsAreCanonical(s);
      SextetsAreCanonical(Values(s).value);
    }
  }

  predicate IsDigit(c: char) { Value(c).Some? }

  lemma {:induction false} DigitsAreDigits(v: seq<Sextet>)
    ensures forall c <- Digits(v) :: IsDigit(c)
  {
    if v != [] {
      DigitsAreDigits(v[1..]);
    }
  }

  lemma {:induction false} EncodeIsText(b: seq<Octet>)
    ensures forall c <- Encode(b) :: IsDigit(c)
    ensures b != [] ==> Encode(b) != []
  {
    DigitsAreDigits(ToSextets(b));
  }

  /** The characters are ASCII. */
  lemma {:induction false} DigitsAreAscii(c: char)
    ensures IsDigit(c) ==> c < '\U{0080}' && c != '.'
  {
  }

  /** The number that digits to a base write, the first of them the highest. */
  function Big(digits: seq<int>, base: int): int {
    if digits == [] then 0 else Big(digits[..|digits| - 1], base) * base + digits[|digits| - 1]
  }

  lemma {:induction false} BigOf(base: int, a: int, b: int, c: int, d: int)
    ensures Big([a], base) == a && Big([a, b], base) == a * base + b
    ensures Big([a, b, c], base) == (a * base + b) * base + c
    ensures Big([a, b, c, d], base) == ((a * base + b) * base + c) * base + d
  {
    assert [a, b, c, d][..3] == [a, b, c] && [a, b, c][..2] == [a, b] && [a, b][..1] == [a] && [a][..0] == [];
  }

  /** A group of octets and its sextets are the same bits, and what is missing of a last group counts as zeros. */
  lemma {:induction false} GroupKeepsBits(x: Octet, y: Octet, z: Octet)
    ensures Big(ToSextets([x, y, z]), 64) == Big([x, y, z], 256)
    ensures Big(ToSextets([x, y]), 64) == Big([x, y], 256) * 4
    ensures Big(ToSextets([x]), 64) == Big([x], 256) * 16
  {
    OneGroup(x, y, z);
    BigOf(256, x, y, z, 0);
    BigOf(64, x / 4, x % 4 * 16 + y / 16, y % 16 * 4 + z / 64, z % 64);
    BigOf(64, x / 4, x % 4 * 16 + y / 16, y % 16 * 4, 0);
    BigOf(64, x / 4, x % 4 * 16, 0, 0);
  }

  /** The vectors of section 10 of RFC 4648 without their padding, and the two marks of its section 5. */
  lemma {:induction false} Vectors()
    ensures Encode([]) == "" && Encode([0x66]) == "Zg" && Encode([0x66, 0x6f]) == "Zm8"
    ensures Encode([0x66, 0x6f, 0x6f]) == "Zm9v" && Encode([0xfb, 0xff, 0xbf]) == "-_-_"
  {
    assert ToSextets([0x66]) == [25, 32];
    assert ToSextets([0x66, 0x6f]) == [25, 38, 60];
    OneGroup(0x66, 0x6f, 0x6f);
    OneGroup(0xfb, 0xff, 0xbf);
    FourDigits(25, 38, 61, 47);
    FourDigits(62, 63, 62, 63);
    assert Digits([25, 38, 60]) == "Zm8" by {
      assert [25, 38, 60][1..] == [38, 60] && [38, 60][1..] == [60] && [60][1..] == [];
    }
    assert Digits([25, 32]) == "Zg" by {
      assert [25, 32][1..] == [32] && [32][1..] == [];
    }
  }

  lemma {:induction false} OneGroup(x: Octet, y: Octet, z: Octet)
    ensures ToSextets([x, y, z]) == [x / 4, x % 4 * 16 + y / 16, y % 16 * 4 + z / 64, z % 64]
  {
    assert [x, y, z][3..] == [];
  }

  lemma {:induction false} FourDigits(a: Sextet, b: Sextet, c: Sextet, d: Sextet)
    ensures Digits([a, b, c, d]) == [Digit(a), Digit(b), Digit(c), Digit(d)]
  {
    assert [d][1..] == [] && Digits([d]) == [Digit(d)];
    assert [c, d][1..] == [d] && Digits([c, d]) == [Digit(c)] + [Digit(d)];
    assert [b, c, d][1..] == [c, d] && [a, b, c, d][1..] == [b, c, d];
  }
}
