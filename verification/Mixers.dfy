/** The finalisation mixers of the three hashes, and why none of them can make
    two different words meet. */
module Mixers {
  import opened Bits
  import opened BitLemmas

  const PRIME32_1: u32 := 0x9E3779B1
  const PRIME32_2: u32 := 0x85EBCA77
  const PRIME32_3: u32 := 0xC2B2AE3D
  const PRIME32_4: u32 := 0x27D4EB2F
  const PRIME32_5: u32 := 0x165667B1

  const PRIME64_1: u64 := 0x9E3779B185EBCA87
  const PRIME64_2: u64 := 0xC2B2AE3D27D4EB4F
  const PRIME64_3: u64 := 0x165667B19E3779F9
  const PRIME64_4: u64 := 0x85EBCA77C2B2AE63
  const PRIME64_5: u64 := 0x27D4EB2F165667C5

  const PRIME_MX1: u64 := 0x165667919E3779F9
  const PRIME_MX2: u64 := 0x9FB21C651E98DF25

  function XorShift64(v: u64, shift: nat): u64 { Xor64(v, Shr64(v, shift)) }

  function XorShift32(v: u32, shift: nat): u32 { Xor32(v, Shr32(v, shift)) }

  function Xxh32Avalanche(hash: u32): u32 {
    XorShift32(Mul32(XorShift32(Mul32(XorShift32(hash, 15), PRIME32_2), 13), PRIME32_3), 16)
  }

  function Xxh64Avalanche(hash: u64): u64 {
    XorShift64(Mul64(XorShift64(Mul64(XorShift64(hash, 33), PRIME64_2), 29), PRIME64_3), 32)
  }

  function Xxh3Avalanche(h: u64): u64 {
    XorShift64(Mul64(XorShift64(h, 37), PRIME_MX1), 32)
  }

  function RotateMix(h: u64): u64 {
    Xor64(h, Xor64(Rotl64(h, 49), Rotl64(h, 24)))
  }

  function LengthMix(h: u64, len: u64): u64 {
    Xor64(h, Add64(Shr64(h, 35), len))
  }

  function Rrmxmx(h: u64, len: u64): u64 {
    XorShift64(Mul64(LengthMix(Mul64(RotateMix(h), PRIME_MX2), len), PRIME_MX2), 28)
  }

  /* Multiplication by an odd constant */

  /** A multiplier with an inverse modulo 2^64 can be undone. */
  lemma MulInjective(a: u64, b: u64, p: u64, inverse: u64)
    requires Mul64(p, inverse) == 1
    requires Mul64(a, p) == Mul64(b, p)
    ensures a == b
  {
    var m := 0x1_0000_0000_0000_0000;
    var j := (p as int * inverse as int) / m;
    var t := (a as int * p as int) / m - (b as int * p as int) / m;
    var d := a as int - b as int;
    assert d * p as int == t * m;
    calc {
      d + d * j * m;
    ==
      d * (1 + j * m);
    ==
      d * (p as int * inverse as int);
    ==
      d * p as int * inverse as int;
    ==
      t * m * inverse as int;
    }
    MultipleOf(d, t * inverse as int - d * j, m);
  }

  lemma MultipleOf(d: int, k: int, m: int)
    requires d == k * m && -m < d < m
    ensures d == 0
  {
    if k >= 1 {
      AtLeast(k, m);
    } else if k <= -1 {
      AtLeast(-k, m);
    }
  }

  lemma AtLeast(k: int, m: int)
    requires k >= 1 && m >= 0
    ensures k * m >= m && -k * m <= -m
  {
  }

  lemma PrimesAreOdd()
    ensures Mul64(PRIME64_1, 0x887493432BADB37) == 1
    ensures Mul64(PRIME64_2, 0xBA79078168D4BAF) == 1
    ensures Mul64(PRIME64_3, 0xE9E9F4C41D6DF849) == 1
    ensures Mul64(PRIME_MX1, 0x8DA8EE41D6DF849) == 1
    ensures Mul64(PRIME_MX2, 0x2AB9C720D1024AD) == 1
  {
  }

  /* Each mixer is injective */

  lemma Xxh64AvalancheInjective(a: u64, b: u64)
    requires Xxh64Avalanche(a) == Xxh64Avalanche(b)
    ensures a == b
  {
    hide Mul64;
    PrimesAreOdd();
    var a1, b1 := XorShift64(a, 33), XorShift64(b, 33);
    var a2, b2 := Mul64(a1, PRIME64_2), Mul64(b1, PRIME64_2);
    var a3, b3 := XorShift64(a2, 29), XorShift64(b2, 29);
    XorShiftInjective(Mul64(a3, PRIME64_3), Mul64(b3, PRIME64_3), 32);
    MulInjective(a3, b3, PRIME64_3, 0xE9E9F4C41D6DF849);
    XorShiftInjective(a2, b2, 29);
    MulInjective(a1, b1, PRIME64_2, 0xBA79078168D4BAF);
    XorShiftInjective(a, b, 33);
  }

  lemma Xxh3AvalancheInjective(a: u64, b: u64)
    requires Xxh3Avalanche(a) == Xxh3Avalanche(b)
    ensures a == b
  {
    hide Mul64;
    PrimesAreOdd();
    var a1, b1 := XorShift64(a, 37), XorShift64(b, 37);
    XorShiftInjective(Mul64(a1, PRIME_MX1), Mul64(b1, PRIME_MX1), 32);
    MulInjective(a1, b1, PRIME_MX1, 0x8DA8EE41D6DF849);
    XorShiftInjective(a, b, 37);
  }

  /** Digit i of a 64-digit word is the sum modulo 2 of the digits p and q
      places above it, counting cyclically. */
  ghost predicate CancelsAt(d: seq<nat>, p: nat, q: nat, i: nat)
    requires |d| == 64 && i < 64
  {
    d[i] == if d[(i + p) % 64] == d[(i + q) % 64] then 0 else 1
  }

  ghost predicate Cancels(d: seq<nat>, p: nat, q: nat) {
    |d| == 64 && forall i :: 0 <= i < 64 ==> CancelsAt(d, p, q, i)
  }

  /** Squaring 1 + x^p + x^q over GF(2) doubles both exponents. */
  lemma CancelsDoubled(d: seq<nat>, p: nat, q: nat)
    requires Cancels(d, p, q)
    ensures Cancels(d, 2 * p, 2 * q)
  {
    forall i | 0 <= i < 64 ensures CancelsAt(d, 2 * p, 2 * q, i) {
      Cyclic(i, p, p);
      Cyclic(i, q, q);
      Cyclic(i, p, q);
      Cyclic(i, q, p);
      assert CancelsAt(d, p, q, i);
      assert CancelsAt(d, p, q, (i + p) % 64);
      assert CancelsAt(d, p, q, (i + q) % 64);
      assert CancelsAt(d, p, q, (i + 2 * p) % 64);
      assert CancelsAt(d, p, q, (i + 2 * q) % 64);
      assert CancelsAt(d, p, q, (i + (p + q)) % 64);
    }
  }

  lemma Cyclic(i: nat, p: nat, q: nat)
    ensures ((i + p) % 64 + q) % 64 == (i + (p + q)) % 64
  {
  }

  /** 1 + x^15 + x^40 raised to the 64th power is 1 modulo x^64 - 1. */
  lemma CancelsToZero(d: seq<nat>)
    requires Cancels(d, 15, 40)
    ensures forall i :: 0 <= i < 64 ==> d[i] == 0
  {
    CancelsDoubled(d, 15, 40);
    CancelsDoubled(d, 30, 80);
    CancelsDoubled(d, 60, 160);
    CancelsDoubled(d, 120, 320);
    CancelsDoubled(d, 240, 640);
    CancelsDoubled(d, 480, 1280);
    forall i | 0 <= i < 64 ensures d[i] == 0 {
      assert CancelsAt(d, 960, 2560, i);
    }
  }

  lemma BitRotateMix(h: u64, i: nat)
    requires i < 64
    ensures Bit(RotateMix(h), i)
         == if Bit(h, i) == (if Bit(h, (i + 15) % 64) == Bit(h, (i + 40) % 64) then 0 else 1) then 0 else 1
  {
    hide Bit;
    BitXor(h, Xor64(Rotl64(h, 49), Rotl64(h, 24)), i);
    BitXor(Rotl64(h, 49), Rotl64(h, 24), i);
    BitRotl64(h, 49, i);
    BitRotl64(h, 24, i);
  }

  lemma DifferenceCancels(a: u64, b: u64, diff: seq<nat>, i: nat)
    requires RotateMix(a) == RotateMix(b) && i < 64
    requires |diff| == 64 && forall k :: 0 <= k < 64 ==> diff[k] == if Bit(a, k) == Bit(b, k) then 0 else 1
    ensures CancelsAt(diff, 15, 40, i)
  {
    hide RotateMix, Bit;
    BitRotateMix(a, i);
    BitRotateMix(b, i);
  }

  lemma RotateMixInjective(a: u64, b: u64)
    requires RotateMix(a) == RotateMix(b)
    ensures a == b
  {
    hide RotateMix, Bit, Pow2, CancelsAt;
    var diff := seq(64, i requires 0 <= i < 64 => if Bit(a, i) == Bit(b, i) then 0 else 1);
    forall i | 0 <= i < 64 ensures CancelsAt(diff, 15, 40, i) {
      DifferenceCancels(a, b, diff, i);
    }
    CancelsToZero(diff);
    forall i | 0 <= i < 64 ensures Bit(a, i) == Bit(b, i) {
      assert diff[i] == 0;
    }
    Pow2Values();
    SameDigits(a, b, 64);
  }

  /** The added length stays below digit 35, so the digits that feed the shift
      survive unchanged. */
  lemma LengthMixInjective(a: u64, b: u64, len: u64)
    requires len <= 8
    requires LengthMix(a, len) == LengthMix(b, len)
    ensures a == b
  {
    LengthMixTop(a, len);
    LengthMixTop(b, len);
    XorCancel(a, b, Add64(Shr64(a, 35), len));
  }

  lemma LengthMixTop(a: u64, len: u64)
    requires len <= 8
    ensures Shr(LengthMix(a, len), 35) == Shr(a, 35)
  {
    hide Shr, Pow2;
    Pow2Values();
    Pow2At29And35();
    ShrBelow(a, 64, 35);
    var low := Add64(Shr64(a, 35), len);
    ShrAbove(low, 35);
    ShrXor(a, low, 35);
    XorZero(Shr(a, 35));
  }

  lemma Pow2At29And35()
    ensures Pow2(29) == 0x2000_0000 && Pow2(35) == 0x8_0000_0000
  {
    Pow2Values();
    assert Pow2(32) == 2 * Pow2(31) && Pow2(31) == 2 * Pow2(30) && Pow2(30) == 2 * Pow2(29);
    assert Pow2(35) == 2 * Pow2(34) && Pow2(34) == 2 * Pow2(33) && Pow2(33) == 2 * Pow2(32);
  }

  lemma {:induction false} ShrBelow(a: nat, n: nat, k: nat)
    requires a < Pow2(n) && k <= n
    ensures Shr(a, k) < Pow2(n - k)
  {
    if k != 0 {
      ShrBelow(a / 2, n - 1, k - 1);
    }
  }

  lemma RrmxmxInjective(a: u64, b: u64, len: u64)
    requires len <= 8
    requires Rrmxmx(a, len) == Rrmxmx(b, len)
    ensures a == b
  {
    hide Mul64, RotateMix, LengthMix;
    PrimesAreOdd();
    var a1, b1 := RotateMix(a), RotateMix(b);
    var a2, b2 := Mul64(a1, PRIME_MX2), Mul64(b1, PRIME_MX2);
    var a3, b3 := LengthMix(a2, len), LengthMix(b2, len);
    XorShiftInjective(Mul64(a3, PRIME_MX2), Mul64(b3, PRIME_MX2), 28);
    MulInjective(a3, b3, PRIME_MX2, 0x2AB9C720D1024AD);
    LengthMixInjective(a2, b2, len);
    MulInjective(a1, b1, PRIME_MX2, 0x2AB9C720D1024AD);
    RotateMixInjective(a, b);
  }
}
