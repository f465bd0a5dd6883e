/** Bytes, little-endian words and decimal numbers: the alphabet of the files the store writes. */
module Bytes {
  import opened Bits

  type byte = b: nat | b < 256

  const NEWLINE: byte := 10
  const SPACE: byte := 32
  const SEMICOLON: byte := 59

  // ---------------------------------------------------------------------------------------------
  // Fixed-width words

  function LE(x: nat, n: nat): (s: seq<byte>)
    ensures |s| == n
  {
    if n == 0 then [] else [x % 256] + LE(x / 256, n - 1)
  }

  /** The `n`-byte word that stands at `pos`. */
  function Word(file: seq<byte>, pos: nat, n: nat): nat
    requires pos + n <= |file|
    decreases n
  {
    if n == 0 then 0 else file[pos] + 256 * Word(file, pos + 1, n - 1)
  }

  function Pow256(n: nat): (p: nat)
    ensures p > 0
  {
    if n == 0 then 1 else 256 * Pow256(n - 1)
  }

  /** A word that fits its width is read back as it was written, wherever it stands. */
  lemma {:induction false} WordRoundTrip(pre: seq<byte>, x: nat, n: nat, post: seq<byte>)
    requires x < Pow256(n)
    ensures Word(pre + LE(x, n) + post, |pre|, n) == x
    decreases n
  {
    if n > 0 {
      var b: byte := x % 256;
      WordRoundTrip(pre + [b], x / 256, n - 1, post);
      assert pre + LE(x, n) + post == (pre + [b]) + LE(x / 256, n - 1) + post;
    }
  }

  lemma {:induction false} Widths()
    ensures Pow256(4) == U32 && Pow256(8) == U64
  {
  }

  // ---------------------------------------------------------------------------------------------
  // Decimal numbers

  predicate IsDigit(b: byte) {
    48 <= b <= 57
  }

  predicate IsSpace(b: byte) {
    b == 32 || 9 <= b <= 13
  }

  /** The digits that `%d` prints for a non-negative number. */
  function Dec(n: nat): (s: seq<byte>)
    ensures |s| > 0
  {
    if n < 10 then [48 + n] else Dec(n / 10) + [48 + n % 10]
  }

  /** Reads the longest run of digits from `pos`, continuing from `acc`; returns the number and
      the position after it. */
  function NumberAt(text: seq<byte>, pos: nat, acc: nat): (r: (nat, nat))
    requires pos <= |text|
    ensures pos <= r.1 <= |text|
    decreases |text| - pos
  {
    if pos < |text| && IsDigit(text[pos]) then NumberAt(text, pos + 1, 10 * acc + (text[pos] - 48)) else (acc, pos)
  }

  function SkipSpaces(text: seq<byte>, pos: nat): (r: nat)
    requires pos <= |text|
    ensures pos <= r <= |text|
    decreases |text| - pos
  {
    if pos < |text| && IsSpace(text[pos]) then SkipSpaces(text, pos + 1) else pos
  }

  const MINUS: byte := 45
  const PLUS: byte := 43

  /** The low 32 bits of a number. */
  function Low32(v: nat): (r: nat)
    ensures r < U32
  {
    if v < U32 then v else Low32(v - U32)
  }

  /** What `strtoul` makes of the digits `v` after an optional minus: too large a number saturates, a minus negates in 64 bits. */
  function Ulong(negative: bool, v: nat): (r: nat)
    ensures r < U64
  {
    if v >= U64 then U64 - 1 else if negative && v > 0 then U64 - v else v
  }

  /** `strtoul` in base ten, kept in 32 bits: the value and where it stopped; `pos` itself when there
      is no number. */
  function StrToU32(text: seq<byte>, pos: nat): (r: (nat, nat))
    requires pos <= |text|
    ensures pos <= r.1 <= |text|
  {
    var p := SkipSpaces(text, pos);
    var signed := p < |text| && (text[p] == MINUS || text[p] == PLUS);
    var q := if signed then p + 1 else p;
    var (v, e) := NumberAt(text, q, 0);
    if e == q then (0, pos)
    else (Low32(Ulong(signed && text[p] == MINUS, v)), e)
  }

  /** The number with its sign, as both `atoi` and `strtoul` read it, before it is narrowed. */
  function ToInt(text: seq<byte>, pos: nat): int
    requires pos <= |text|
  {
    var p := SkipSpaces(text, pos);
    var signed := p < |text| && (text[p] == MINUS || text[p] == PLUS);
    var v: int := NumberAt(text, if signed then p + 1 else p, 0).0;
    if signed && text[p] == MINUS then -v else v
  }

  /** `strtol`: a number out of range saturates. */
  function Long(x: int): int {
    if x >= U64 / 2 then U64 / 2 - 1 else if x < -(U64 / 2) then -(U64 / 2) else x
  }

  /** The 32 bits of the `int` that `atoi` makes of the number `x`. */
  function IntBits(x: int): (r: nat)
    ensures r < U32
  {
    Low32(Long(x) + U64 / 2)
  }

  lemma {:induction false} LowShift(x: nat, k: nat)
    requires x < U32
    ensures Low32(x + k * U32) == x
  {
    if k > 0 {
      LowShift(x, k - 1);
    }
  }

  lemma {:induction false} DecDigits(n: nat)
    ensures forall i :: 0 <= i < |Dec(n)| ==> IsDigit(Dec(n)[i])
  {
    if n >= 10 {
      DecDigits(n / 10);
    }
  }

  lemma {:induction false} NumberOfDec(pre: seq<byte>, n: nat, post: seq<byte>)
    ensures NumberAt(pre + Dec(n) + post, |pre|, 0) == NumberAt(pre + Dec(n) + post, |pre| + |Dec(n)|, n)
    decreases n
  {
    var text := pre + Dec(n) + post;
    if n < 10 {
      assert text[|pre|] == 48 + n;
    } else {
      var d: byte := 48 + n % 10;
      var high := Dec(n / 10);
      assert text == pre + high + ([d] + post);
      NumberOfDec(pre, n / 10, [d] + post);
      assert text[|pre| + |high|] == d;
    }
  }

  /** A printed number followed by a non-digit is read back, and reading stops right after it. */
  lemma {:induction false} DecRoundTrip(pre: seq<byte>, n: nat, post: seq<byte>)
    requires post == [] || !IsDigit(post[0])
    ensures NumberAt(pre + Dec(n) + post, |pre|, 0) == (n, |pre| + |Dec(n)|)
    ensures n < U32 ==> StrToU32(pre + Dec(n) + post, |pre|) == (n, |pre| + |Dec(n)|)
  {
    NumberOfDec(pre, n, post);
    DecDigits(n);
    var text := pre + Dec(n) + post;
    assert text[|pre|] == Dec(n)[0];
    assert post != [] ==> text[|pre| + |Dec(n)|] == post[0];
  }

  /** `atoi` reads it back, too. */
  lemma {:induction false} IntRoundTrip(pre: seq<byte>, n: nat, post: seq<byte>)
    requires n < U32 && (post == [] || !IsDigit(post[0]))
    ensures IntBits(ToInt(pre + Dec(n) + post, |pre|)) == n
  {
    DecRoundTrip(pre, n, post);
    DecDigits(n);
    assert (pre + Dec(n) + post)[|pre|] == Dec(n)[0];
    LowShift(n, U32 / 2);
  }

  function Pow10(k: nat): nat {
    if k == 0 then 1 else 10 * Pow10(k - 1)
  }

  lemma {:induction false} DecLength(n: nat, k: nat, bound: nat)
    requires k > 0 && n < bound && bound == Pow10(k)
    ensures |Dec(n)| <= k
    decreases k
  {
    if n >= 10 {
      DecLength(n / 10, k - 1, Pow10(k - 1));
    }
  }

  /** A number of up to 31 bits has at most ten digits. */
  lemma {:induction false} DecShort(n: nat)
    requires n <= 0x8000_0000
    ensures |Dec(n)| <= 10
  {
    assert Pow10(10) == 10000000000;
    DecLength(n, 10, 10000000000);
  }

  /** Regrouping of concatenations. */
  lemma {:induction false} Regroup<T>(pre: seq<T>, a: seq<T>, b: seq<T>, c: seq<T>, post: seq<T>)
    ensures pre + (a + b + c) + post == (pre + a) + b + (c + post)
    ensures pre + (a + b + c) + post == (pre + a + b) + c + post
    ensures pre + (a + b + c) + post == pre + a + (b + c + post)
  {
  }
}
