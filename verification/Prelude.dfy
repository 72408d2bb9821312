/** Stock datatypes and text helpers shared by every component of the model. */
module Prelude {

  datatype Option<+T> = None | Some(value: T)
  {
    function GetOr(default: T): T {
      match this
      case Some(v) => v
      case None => default
    }
  }

  datatype Result<+T, +E> = Ok(value: T) | Err(error: E)

  /** Bytes are modelled as integers; the operations only compare and copy them. */
  type Bytes = seq<int>

  predicate HasPrefix<T(==)>(s: seq<T>, prefix: seq<T>) {
    |prefix| <= |s| && s[..|prefix|] == prefix
  }

  /** Rust's `strip_prefix`. */
  function StripPrefix<T(==)>(s: seq<T>, prefix: seq<T>): Option<seq<T>> {
    if HasPrefix(s, prefix) then Some(s[|prefix|..]) else None
  }

  /** Concatenates the images of the elements, in order. */
  function FlatMap<A, B>(f: A -> seq<B>, xs: seq<A>): seq<B> {
    if xs == [] then [] else FlatMap(f, xs[..|xs| - 1]) + f(xs[|xs| - 1])
  }

  lemma {:induction false} FlatMapOne<A, B>(f: A -> seq<B>, xs: seq<A>, x: A)
    ensures FlatMap(f, xs + [x]) == FlatMap(f, xs) + f(x)
  {
    assert (xs + [x])[..|xs|] == xs;
  }

  lemma {:induction false} FlatMapAppend<A, B>(f: A -> seq<B>, xs: seq<A>, ys: seq<A>)
    ensures FlatMap(f, xs + ys) == FlatMap(f, xs) + FlatMap(f, ys)
  {
    if ys == [] {
      assert xs + ys == xs;
    } else {
      var n := |ys| - 1;
      assert (xs + ys)[..|xs| + n] == xs + ys[..n];
      FlatMapAppend(f, xs, ys[..n]);
    }
  }

  lemma {:induction false} FlatMapSingle<A, B>(f: A -> seq<B>, x: A)
    ensures FlatMap(f, [x]) == f(x)
  {
    FlatMapOne(f, [], x);
    assert [] + [x] == [x] && [] + f(x) == f(x);
  }

  lemma {:induction false} FlatMapFirst<A, B>(f: A -> seq<B>, x: A, xs: seq<A>)
    ensures FlatMap(f, [x] + xs) == f(x) + FlatMap(f, xs)
  {
    FlatMapAppend(f, [x], xs);
    FlatMapSingle(f, x);
  }

  /** Concatenates the images of the elements, in order; the first that fails, fails the whole. */
  function TryFlatMap<A, B, E>(f: A -> Result<seq<B>, E>, xs: seq<A>): Result<seq<B>, E> {
    if xs == [] then Ok([])
    else match TryFlatMap(f, xs[..|xs| - 1])
      case Err(e) => Err(e)
      case Ok(ys) => Then(ys, f(xs[|xs| - 1]))
  }

  function Then<B, E>(ys: seq<B>, more: Result<seq<B>, E>): Result<seq<B>, E> {
    match more
    case Err(e) => Err(e)
    case Ok(zs) => Ok(ys + zs)
  }

  lemma {:induction false} TryFlatMapOne<A, B, E>(f: A -> Result<seq<B>, E>, x: A)
    ensures TryFlatMap(f, [x]) == f(x)
  {
    assert [x][..0] == [];
    if f(x).Ok? {
      assert [] + f(x).value == f(x).value;
    }
  }

  lemma {:induction false} TryFlatMapAppend<A, B, E>(f: A -> Result<seq<B>, E>, xs: seq<A>, ys: seq<A>)
    ensures TryFlatMap(f, xs + ys) == match TryFlatMap(f, xs)
                                      case Err(e) => Err(e)
                                      case Ok(done) => Then(done, TryFlatMap(f, ys))
  {
    if ys == [] {
      assert xs + ys == xs;
      if TryFlatMap(f, xs).Ok? {
        assert TryFlatMap(f, xs).value + [] == TryFlatMap(f, xs).value;
      }
    } else {
      var n := |ys| - 1;
      assert (xs + ys)[..|xs| + n] == xs + ys[..n];
      TryFlatMapAppend(f, xs, ys[..n]);
      if TryFlatMap(f, xs).Ok? && TryFlatMap(f, ys[..n]).Ok? && f(ys[n]).Ok? {
        var a, b, c := TryFlatMap(f, xs).value, TryFlatMap(f, ys[..n]).value, f(ys[n]).value;
        assert a + b + c == a + (b + c);
      }
    }
  }

  lemma {:induction false} TryFlatMapFails<A, B, E>(f: A -> Result<seq<B>, E>, xs: seq<A>, n: nat)
    requires n <= |xs| && TryFlatMap(f, xs[..n]).Err?
    ensures TryFlatMap(f, xs) == TryFlatMap(f, xs[..n])
  {
    assert xs == xs[..n] + xs[n..];
    TryFlatMapAppend(f, xs[..n], xs[n..]);
  }

  /** The Unicode White_Space characters, as trimmed by Rust's `str::trim`. */
  predicate IsWhitespace(c: char) {
    || '\U{0009}' <= c <= '\U{000D}'
    || c == ' '
    || c == '\U{0085}'
    || c == '\U{00A0}'
    || c == '\U{1680}'
    || '\U{2000}' <= c <= '\U{200A}'
    || c == '\U{2028}'
    || c == '\U{2029}'
    || c == '\U{202F}'
    || c == '\U{205F}'
    || c == '\U{3000}'
  }

  predicate IsBlank(s: string) {
    forall i :: 0 <= i < |s| ==> IsWhitespace(s[i])
  }

  /** `to_lowercase` on the ASCII letters; other characters are left alone. */
  function LowerChar(c: char): char {
    if 'A' <= c <= 'Z' then (c as int + 32) as char else c
  }

  function Lower(s: string): (r: string)
    ensures |r| == |s|
    ensures forall i :: 0 <= i < |s| ==> r[i] == LowerChar(s[i])
  {
    seq(|s|, i requires 0 <= i < |s| => LowerChar(s[i]))
  }

  /** Equal up to the case of the ASCII letters. */
  predicate SameLetter(a: char, b: char) {
    || a == b
    || ('A' <= a <= 'Z' && a as int + 32 == b as int)
    || ('A' <= b <= 'Z' && b as int + 32 == a as int)
  }

  predicate SameWord(a: string, b: string) {
    |a| == |b| && forall i :: 0 <= i < |a| ==> SameLetter(a[i], b[i])
  }

  predicate HasNoCapital(s: string) { forall c <- s :: !('A' <= c <= 'Z') }

  lemma {:induction false} LowerIffSameWord(s: string, word: string)
    requires HasNoCapital(word)
    ensures Lower(s) == word <==> SameWord(s, word)
  {
    if SameWord(s, word) {
      forall i | 0 <= i < |s| ensures Lower(s)[i] == word[i] {
        assert word[i] in word;
      }
    }
  }

  /** The white space of everyday texts is white space, and their letters, digits and marks are none. */
  lemma {:induction false} UsualWhitespace(c: char)
    ensures c == ' ' || c == '\t' || c == '\n' || c == '\r' ==> IsWhitespace(c)
    ensures '!' <= c <= '~' ==> !IsWhitespace(c)
  {
  }
}
