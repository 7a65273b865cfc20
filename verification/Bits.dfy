/** Fixed-width unsigned words as bounded integers, and the C operators the
    hash engine applies to them. Every wrap-around is an explicit modulus, and
    the bitwise operators work on one binary digit at a time. */
module Bits {

  type u8 = x: int | 0 <= x < 0x100
  type u32 = x: int | 0 <= x < 0x1_0000_0000
  type u64 = x: int | 0 <= x < 0x1_0000_0000_0000_0000
  type bytes = seq<u8>

  function Pow2(k: nat): (p: nat)
    ensures p >= 1
  {
    if k == 0 then 1 else 2 * Pow2(k - 1)
  }

  function Xor(a: nat, b: nat): nat
    decreases a + b
  {
    if a == 0 && b == 0 then 0
    else 2 * Xor(a / 2, b / 2) + (if a % 2 == b % 2 then 0 else 1)
  }

  function Or(a: nat, b: nat): nat
    decreases a + b
  {
    if a == 0 && b == 0 then 0
    else 2 * Or(a / 2, b / 2) + (if a % 2 == 1 || b % 2 == 1 then 1 else 0)
  }

  /** `a >> k`. */
  function Shr(a: nat, k: nat): (r: nat)
    ensures r <= a
    decreases k
  {
    if k == 0 then a else Shr(a / 2, k - 1)
  }

  /** `a << k`, before any bits are lost. */
  function Shl(a: nat, k: nat): nat
  {
    if k == 0 then a else 2 * Shl(a, k - 1)
  }

  lemma {:induction false} XorBound(a: nat, b: nat, k: nat)
    requires a < Pow2(k) && b < Pow2(k)
    ensures Xor(a, b) < Pow2(k)
  {
    if a != 0 || b != 0 {
      assert k != 0;
      XorBound(a / 2, b / 2, k - 1);
    }
  }

  lemma {:induction false} OrBound(a: nat, b: nat, k: nat)
    requires a < Pow2(k) && b < Pow2(k)
    ensures Or(a, b) < Pow2(k)
  {
    if a != 0 || b != 0 {
      assert k != 0;
      OrBound(a / 2, b / 2, k - 1);
    }
  }

  lemma Pow2Doubled(k: nat)
    ensures Pow2(k + 8) == 0x100 * Pow2(k)
  {
    assert Pow2(k + 8) == 2 * Pow2(k + 7);
    assert Pow2(k + 7) == 2 * Pow2(k + 6);
    assert Pow2(k + 6) == 2 * Pow2(k + 5);
    assert Pow2(k + 5) == 2 * Pow2(k + 4);
    assert Pow2(k + 4) == 2 * Pow2(k + 3);
    assert Pow2(k + 3) == 2 * Pow2(k + 2);
    assert Pow2(k + 2) == 2 * Pow2(k + 1);
  }

  lemma Pow2Zero()
    ensures Pow2(0) == 1
  {
  }

  lemma Pow2Values()
    ensures Pow2(32) == 0x1_0000_0000
    ensures Pow2(64) == 0x1_0000_0000_0000_0000
  {
    hide Pow2;
    Pow2Zero();
    Pow2Doubled(0); Pow2Doubled(8); Pow2Doubled(16); Pow2Doubled(24);
    Pow2Doubled(32); Pow2Doubled(40); Pow2Doubled(48); Pow2Doubled(56);
  }

  /* 64-bit words */

  function Add64(a: u64, b: u64): u64 { (a as int + b as int) % 0x1_0000_0000_0000_0000 }

  function Sub64(a: u64, b: u64): u64 { (a as int - b as int) % 0x1_0000_0000_0000_0000 }

  function Mul64(a: u64, b: u64): u64 { (a as int * b as int) % 0x1_0000_0000_0000_0000 }

  function Not64(a: u64): u64 { 0xFFFF_FFFF_FFFF_FFFF - a as int }

  function Xor64(a: u64, b: u64): u64
  {
    Pow2Values();
    XorBound(a, b, 64);
    Xor(a, b)
  }

  function Or64(a: u64, b: u64): u64
  {
    Pow2Values();
    OrBound(a, b, 64);
    Or(a, b)
  }

  function Shr64(a: u64, k: nat): u64 { Shr(a, k) }

  function Shl64(a: u64, k: nat): u64 { Shl(a, k) % 0x1_0000_0000_0000_0000 }

  function Rotl64(a: u64, r: nat): u64
    requires 0 < r < 64
  {
    Or64(Shl64(a, r), Shr64(a, 64 - r))
  }

  /** `(xxh_u32)a`, also `a & 0xFFFFFFFF`. */
  function Low32(a: u64): u32 { a as int % 0x1_0000_0000 }

  /** `a >> 32`. */
  function High32(a: u64): u32 { a as int / 0x1_0000_0000 }

  /* 32-bit words */

  function Add32(a: u32, b: u32): u32 { (a as int + b as int) % 0x1_0000_0000 }

  function Sub32(a: u32, b: u32): u32 { (a as int - b as int) % 0x1_0000_0000 }

  function Mul32(a: u32, b: u32): u32 { (a as int * b as int) % 0x1_0000_0000 }

  function Xor32(a: u32, b: u32): u32
  {
    Pow2Values();
    XorBound(a, b, 32);
    Xor(a, b)
  }

  function Or32(a: u32, b: u32): u32
  {
    Pow2Values();
    OrBound(a, b, 32);
    Or(a, b)
  }

  function Shr32(a: u32, k: nat): u32 { Shr(a, k) }

  function Shl32(a: u32, k: nat): u32 { Shl(a, k) % 0x1_0000_0000 }

  function Rotl32(a: u32, r: nat): u32
    requires 0 < r < 32
  {
    Or32(Shl32(a, r), Shr32(a, 32 - r))
  }

  /* Little-endian memory access */

  function Read32(b: bytes, at: nat): u32
    requires at + 4 <= |b|
  {
    b[at] as int + 0x100 * b[at + 1] as int + 0x1_0000 * b[at + 2] as int + 0x100_0000 * b[at + 3] as int
  }

  function Read64(b: bytes, at: nat): u64
    requires at + 8 <= |b|
  {
    Read32(b, at) as int + 0x1_0000_0000 * Read32(b, at + 4) as int
  }

  function Bytes32(v: u32): (b: bytes)
    ensures |b| == 4 && Read32(b, 0) == v
  {
    var v1 := v as int / 0x100;
    var v2 := v1 / 0x100;
    [v as int % 0x100, v1 % 0x100, v2 % 0x100, v2 / 0x100]
  }

  /** The eight bytes `XXH_writeLE64` stores. */
  function Bytes64(v: u64): (b: bytes)
    ensures |b| == 8 && Read64(b, 0) == v
  {
    Bytes32(Low32(v)) + Bytes32(High32(v))
  }

  function Swap32(a: u32): u32
  {
    var b := Bytes32(a);
    b[3] as int + 0x100 * b[2] as int + 0x1_0000 * b[1] as int + 0x100_0000 * b[0] as int
  }

  function Swap64(a: u64): u64
  {
    Swap32(High32(a)) as int + 0x1_0000_0000 * Swap32(Low32(a)) as int
  }

  /** The input that a sequence of update calls delivers. */
  function Concat(chunks: seq<bytes>): bytes {
    if chunks == [] then [] else Concat(chunks[..|chunks| - 1]) + chunks[|chunks| - 1]
  }

  lemma {:induction false} ConcatGrows(chunks: seq<bytes>, n: nat)
    requires n <= |chunks|
    ensures |Concat(chunks[..n])| <= |Concat(chunks)|
    decreases |chunks| - n
  {
    if n == |chunks| {
      assert chunks[..n] == chunks;
    } else {
      assert chunks[..n + 1][..n] == chunks[..n];
      ConcatGrows(chunks, n + 1);
    }
  }
}
