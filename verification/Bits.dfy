/** Word arithmetic shared by the model: bitwise operators on naturals, powers of two
    and the wrap-around of the source's `uint32_t` and `uint64_t`.
  */
module Bits {
  import opened Markers

  const U32: nat := 0x1_0000_0000
  const U64: nat := 0x1_0000_0000_0000_0000

  /** The value kept by a `uint64_t`. It is the remainder modulo 2^64, written as repeated
      subtraction so that proofs unfold it one step at a time; see `WrapIsMod`. */
  function Wrap(x: nat): (r: nat)
    ensures r < U64
  {
    if x < U64 then x else Wrap(x - U64)
  }

  /** `uint64_t` addition. */
  function AddU64(x: nat, y: nat): nat {
    Wrap(x + y)
  }

  function And(x: nat, y: nat): nat {
    if x == 0 || y == 0 then 0
    else 2 * And(x / 2, y / 2) + (if x % 2 == 1 && y % 2 == 1 then 1 else 0)
  }

  function Xor(x: nat, y: nat): nat
    decreases x + y
  {
    if x == 0 && y == 0 then 0
    else 2 * Xor(x / 2, y / 2) + (if x % 2 != y % 2 then 1 else 0)
  }

  function Pow2(k: nat): (p: nat)
    ensures p > 0
  {
    if k == 0 then 1 else 2 * Pow2(k - 1)
  }

  /** The test `value && !(value & (value - 1))`. */
  predicate IsPowerOfTwo(x: nat) {
    x != 0 && And(x, x - 1) == 0
  }

  lemma {:induction false} AndSelf(x: nat)
    ensures And(x, x) == x
  {
    if x != 0 {
      AndSelf(x / 2);
    }
  }

  /** A power of two above one is even and its half is again a power of two. */
  lemma {:induction false} PowerOfTwoHalves(n: nat)
    requires n > 1
    ensures IsPowerOfTwo(n) <==> n % 2 == 0 && IsPowerOfTwo(n / 2)
  {
    var m := n / 2;
    if n % 2 == 1 {
      assert (n - 1) / 2 == m;
      AndSelf(m);
    } else {
      assert (n - 1) / 2 == m - 1 && (n - 1) % 2 == 1;
    }
  }

  lemma {:induction false} Pow2Grows(j: nat, k: nat)
    requires j <= k
    ensures Pow2(j) <= Pow2(k)
  {
    if j < k {
      Pow2Grows(j, k - 1);
    }
  }

  lemma {:induction false} Pow2Recognised(k: nat)
    ensures IsPowerOfTwo(Pow2(k))
  {
    if k == 0 {
      assert And(1, 0) == 0;
    } else {
      Pow2Recognised(k - 1);
      PowerOfTwoHalves(Pow2(k));
    }
  }

  lemma {:induction false} Exponent(n: nat) returns (k: nat)
    requires IsPowerOfTwo(n)
    ensures n == Pow2(k)
  {
    if n == 1 {
      k := 0;
    } else {
      PowerOfTwoHalves(n);
      var h := Exponent(n / 2);
      k := h + 1;
    }
  }

  /** The bit trick recognises exactly the powers of two. */
  lemma {:induction false} PowerOfTwoIff(n: nat)
    ensures IsPowerOfTwo(n) <==> exists k: nat :: n == Pow2(k)
  {
    if IsPowerOfTwo(n) {
      var k := Exponent(n);
    }
    forall k: nat | n == Pow2(k)
      ensures IsPowerOfTwo(n)
    {
      Pow2Recognised(k);
    }
  }

  /** Masking with `n - 1` is reduction modulo `n` for every power of two `n`. */
  lemma {:induction false} MaskIsMod(x: nat, n: nat)
    requires IsPowerOfTwo(n)
    ensures And(x, n - 1) == x % n
  {
    if n > 1 {
      var m := n / 2;
      PowerOfTwoHalves(n);
      assert (n - 1) / 2 == m - 1 && (n - 1) % 2 == 1;
      MaskIsMod(x / 2, m);
      assert And(x, n - 1) == 2 * And(x / 2, m - 1) + x % 2;
      ModDoubles(x, m);
    }
  }

  lemma {:induction false} ModDoubles(x: nat, m: nat)
    requires m > 0
    ensures x % (2 * m) == 2 * ((x / 2) % m) + x % 2
  {
    var q := (x / 2) / m;
    var r := (x / 2) % m;
    assert x / 2 == q * m + r;
    assert x == q * (2 * m) + (2 * r + x % 2) by {
      assert x == 2 * (x / 2) + x % 2;
      assert 2 * (q * m) == q * (2 * m);
    }
    ModUnique(x, 2 * m, q, 2 * r + x % 2);
  }

  lemma {:induction false} ModUnique(x: nat, d: nat, q: nat, r: nat)
    requires 0 <= r < d && x == q * d + r
    ensures x % d == r
  {
    var q', r' := x / d, x % d;
    assert (q' - q) * d == r - r' by {
      assert x == q' * d + r';
      assert (q' - q) * d == q' * d - q * d;
    }
    MultipleBelow(q' - q, d);
  }

  /** A multiple of `d` strictly between `-d` and `d` is zero. */
  lemma {:induction false} MultipleBelow(k: int, d: nat)
    requires 0 - d < k * d < d
    ensures k == 0
  {
    MulAtLeast(k, d);
    MulAtLeast(-k, d);
    assert (-k) * d == -(k * d);
  }

  lemma {:induction false} MulAtLeast(k: int, d: nat)
    ensures k >= 1 ==> k * d >= d
  {
    if k >= 1 {
      assert k * d == (k - 1) * d + d;
      assert (k - 1) * d >= 0;
    }
  }

  lemma {:induction false} WrapIsMod(x: nat)
    ensures Wrap(x) == x % U64
  {
    if x >= U64 {
      WrapIsMod(x - U64);
      ModUnique(x, U64, (x - U64) / U64 + 1, (x - U64) % U64);
    }
  }

  /** Wrapping once at the end equals wrapping at every addition. */
  lemma {:induction false} AddWraps(x: nat, y: nat)
    ensures AddU64(Wrap(x), y) == Wrap(x + y)
    ensures AddU64(y, Wrap(x)) == Wrap(x + y)
  {
    if x >= U64 {
      AddWraps(x - U64, y);
    }
  }

  ghost predicate Shifted(a: nat, b: nat, k: int) {
    forall m {:trigger OpenCong(m)} :: OpenCong(m) ==> a == b + k * U64
  }

  /** Equality of counts up to the wrap-around of a `uint64_t`. */
  ghost predicate Cong(a: nat, b: nat) {
    exists k :: Shifted(a, b, k)
  }

  lemma {:induction false} CongSame(a: nat)
    ensures Cong(a, a)
  {
    assert OpenCong(0);
    assert Shifted(a, a, 0);
  }

  lemma {:induction false} CongSwap(a: nat, b: nat)
    requires Cong(a, b)
    ensures Cong(b, a)
  {
    assert OpenCong(0);
    var k :| Shifted(a, b, k);
    assert Shifted(b, a, -k);
  }

  lemma {:induction false} CongTrans(a: nat, b: nat, c: nat)
    requires Cong(a, b) && Cong(b, c)
    ensures Cong(a, c)
  {
    assert OpenCong(0);
    var k :| Shifted(a, b, k);
    var l :| Shifted(b, c, l);
    assert Shifted(a, c, k + l);
  }

  lemma {:induction false} CongSum(a: nat, a': nat, b: nat, b': nat)
    requires Cong(a, a') && Cong(b, b')
    ensures Cong(a + b, a' + b')
  {
    assert OpenCong(0);
    var k :| Shifted(a, a', k);
    var l :| Shifted(b, b', l);
    assert Shifted(a + b, a' + b', k + l);
  }

  lemma {:induction false} CongWrap(x: nat)
    ensures Cong(Wrap(x), x)
  {
    assert OpenCong(0);
    if x < U64 {
      assert Shifted(Wrap(x), x, 0);
    } else {
      CongWrap(x - U64);
      var k :| Shifted(Wrap(x), x - U64, k);
      assert Shifted(Wrap(x), x, k - 1);
    }
  }

  /** Congruent counts are the same `uint64_t`. */
  lemma {:induction false} CongIsSameWord(a: nat, b: nat)
    ensures Cong(a, b) <==> Wrap(a) == Wrap(b)
  {
    assert OpenCong(0);
    CongWrap(a);
    CongWrap(b);
    var k :| Shifted(Wrap(a), a, k);
    var l :| Shifted(Wrap(b), b, l);
    if Wrap(a) == Wrap(b) {
      assert Shifted(a, b, l - k);
    }
    if Cong(a, b) {
      var m :| Shifted(a, b, m);
      assert Wrap(a) - Wrap(b) == (m + k - l) * U64;
    }
  }
}
