/** XXH3 on inputs of at most 240 bytes, 64 and 128 bits wide. */
module Xxh3Short {
  import opened Bits
  import opened BitLemmas
  import opened Mixers
  import opened Mult128

  const MIDSIZE_MAX: nat := 240

  function MulFold64(lhs: u64, rhs: u64): u64 {
    var product := Mult64To128(lhs, rhs);
    Xor64(product.low64, product.high64)
  }

  /* 64-bit hashes */

  /** First, middle and last byte with the length, packed into one word. */
  function Combined(input: bytes): u32
    requires 1 <= |input| <= 3
  {
    var c1, c2, c3 := input[0], input[|input| / 2], input[|input| - 1];
    Or32(Or32(Or32(Shl32(c1, 16), Shl32(c2, 24)), c3), Shl32(|input|, 8))
  }

  /** The four fields do not overlap. */
  lemma CombinedValue(input: bytes)
    requires 1 <= |input| <= 3
    ensures Combined(input) as int
         == input[0] as int * 0x1_0000 + input[|input| / 2] as int * 0x100_0000
            + input[|input| - 1] as int + |input| * 0x100
  {
    hide Or, Shl, Pow2;
    var c1, c2, c3 := input[0], input[|input| / 2], input[|input| - 1];
    ShiftedBytes(c1, c2, |input|);
    OrComm(Shl(c1, 16), Shl(c2, 24));
    OrDisjoint(c2, 24, Shl(c1, 16));
    var upper := c2 as int * 0x100 + c1 as int;
    assert Or(Shl(c1, 16), Shl(c2, 24)) == Shl(upper, 16);
    OrAssoc(Shl(upper, 16), c3, Shl(|input|, 8));
    OrComm(c3, Shl(|input|, 8));
    OrDisjoint(|input|, 8, c3);
    OrDisjoint(upper, 16, Shl(|input|, 8) + c3 as int);
  }

  lemma ShiftedBytes(c1: u8, c2: u8, len: nat)
    requires len <= 3
    ensures Shl(c1, 16) == c1 as int * 0x1_0000 && Shl(c2, 24) == c2 as int * 0x100_0000 && Shl(len, 8) == len * 0x100
    ensures Shl(c2 as int * 0x100 + c1 as int, 16) == c2 as int * 0x100_0000 + c1 as int * 0x1_0000
    ensures Pow2(8) == 0x100 && Pow2(16) == 0x1_0000 && Pow2(24) == 0x100_0000
  {
    hide Shl, Pow2;
    Pow2Zero();
    Pow2Doubled(0);
    Pow2Doubled(8);
    Pow2Doubled(16);
    ShlByPow(c1, 16);
    ShlByPow(c2, 24);
    ShlByPow(len, 8);
    ShlByPow(c2 as int * 0x100 + c1 as int, 16);
  }

  function Len1To3Keyed(input: bytes, secret: bytes, seed: u64): u64
    requires 1 <= |input| <= 3 && |secret| >= 136
  {
    Xor64(Combined(input), Add64(Xor32(Read32(secret, 0), Read32(secret, 4)), seed))
  }

  function Len1To3_64(input: bytes, secret: bytes, seed: u64): u64
    requires 1 <= |input| <= 3 && |secret| >= 136
  {
    Xxh64Avalanche(Len1To3Keyed(input, secret, seed))
  }

  /** `seed ^ ((u64)swap32((u32)seed) << 32)`. */
  function SpreadSeed(seed: u64): u64 {
    Xor64(seed, Shl64(Swap32(Low32(seed)), 32))
  }

  function Len4To8Keyed(input: bytes, secret: bytes, seed: u64): u64
    requires 4 <= |input| <= 8 && |secret| >= 136
  {
    var bitflip := Sub64(Xor64(Read64(secret, 8), Read64(secret, 16)), SpreadSeed(seed));
    var input64 := Add64(Read32(input, |input| - 4), Shl64(Read32(input, 0), 32));
    Xor64(input64, bitflip)
  }

  function Len4To8_64(input: bytes, secret: bytes, seed: u64): u64
    requires 4 <= |input| <= 8 && |secret| >= 136
  {
    Rrmxmx(Len4To8Keyed(input, secret, seed), |input|)
  }

  function Len9To16_64(input: bytes, secret: bytes, seed: u64): u64
    requires 9 <= |input| <= 16 && |secret| >= 136
  {
    var bitflip1 := Add64(Xor64(Read64(secret, 24), Read64(secret, 32)), seed);
    var bitflip2 := Sub64(Xor64(Read64(secret, 40), Read64(secret, 48)), seed);
    var inputLo := Xor64(Read64(input, 0), bitflip1);
    var inputHi := Xor64(Read64(input, |input| - 8), bitflip2);
    Xxh3Avalanche(Add64(Add64(Add64(|input|, Swap64(inputLo)), inputHi), MulFold64(inputLo, inputHi)))
  }

  function Len0To16_64(input: bytes, secret: bytes, seed: u64): u64
    requires |input| <= 16 && |secret| >= 136
  {
    if |input| > 8 then Len9To16_64(input, secret, seed)
    else if |input| >= 4 then Len4To8_64(input, secret, seed)
    else if |input| > 0 then Len1To3_64(input, secret, seed)
    else Xxh64Avalanche(Xor64(seed, Xor64(Read64(secret, 56), Read64(secret, 64))))
  }

  function Mix16B(input: bytes, at: nat, secret: bytes, off: nat, seed: u64): u64
    requires at + 16 <= |input| && off + 16 <= |secret|
  {
    MulFold64(Xor64(Read64(input, at), Add64(Read64(secret, off), seed)),
              Xor64(Read64(input, at + 8), Sub64(Read64(secret, off + 8), seed)))
  }

  /** One pair of 16-byte blocks, i blocks in from either end. */
  function MixPair(acc: u64, input: bytes, i: nat, secret: bytes, seed: u64): u64
    requires 16 * i + 16 <= |input| && 32 * i + 32 <= |secret|
  {
    Add64(Add64(acc, Mix16B(input, 16 * i, secret, 32 * i, seed)),
          Mix16B(input, |input| - 16 * (i + 1), secret, 32 * i + 16, seed))
  }

  /** The unrolled form that the default build uses. */
  function Len17To128_64(input: bytes, secret: bytes, seed: u64): u64
    requires 17 <= |input| <= 128 && |secret| >= 136
  {
    var acc := Mul64(|input|, PRIME64_1);
    var acc := if |input| > 96 then MixPair(acc, input, 3, secret, seed) else acc;
    var acc := if |input| > 64 then MixPair(acc, input, 2, secret, seed) else acc;
    var acc := if |input| > 32 then MixPair(acc, input, 1, secret, seed) else acc;
    Xxh3Avalanche(MixPair(acc, input, 0, secret, seed))
  }

  /** Pairs i, i - 1, ..., 0. */
  function MixPairsDown(acc: u64, input: bytes, i: nat, secret: bytes, seed: u64): u64
    requires 16 * i + 16 <= |input| && 32 * i + 32 <= |secret|
    decreases i
  {
    var next := MixPair(acc, input, i, secret, seed);
    if i == 0 then next else MixPairsDown(next, input, i - 1, secret, seed)
  }

  /** The innermost pair. */
  function LastPair(len: nat): (i: nat)
    requires 17 <= len <= 128
    ensures i <= 3 && 16 * i + 16 <= len && 32 * i < len
  {
    (len - 1) / 32
  }

  lemma UnrolledIsRolled(input: bytes, secret: bytes, seed: u64)
    requires 17 <= |input| <= 128 && |secret| >= 136
    ensures Len17To128_64(input, secret, seed)
         == Xxh3Avalanche(MixPairsDown(Mul64(|input|, PRIME64_1), input, LastPair(|input|), secret, seed))
  {
    hide MixPair, Xxh3Avalanche, Mul64;
    var acc := Mul64(|input|, PRIME64_1);
    if |input| > 96 {
      assert LastPair(|input|) == 3;
    } else if |input| > 64 {
      assert LastPair(|input|) == 2;
    } else if |input| > 32 {
      assert LastPair(|input|) == 1;
    }
  }

  /** The rolled loop of the size-optimised build computes the unrolled hash. */
  method Len17To128Rolled_64(input: bytes, secret: bytes, seed: u64) returns (h: u64)
    requires 17 <= |input| <= 128 && |secret| >= 136
    ensures h == Len17To128_64(input, secret, seed)
  {
    hide Mix16B, Xxh3Avalanche, Mul64, Add64, Len17To128_64;
    var acc := Mul64(|input|, PRIME64_1);
    ghost var start := acc;
    var i := LastPair(|input|);
    while true
      invariant 0 <= i <= 3 && 32 * i < |input|
      invariant MixPairsDown(acc, input, i, secret, seed)
             == MixPairsDown(start, input, LastPair(|input|), secret, seed)
      decreases i
    {
      ghost var before := acc;
      acc := Add64(acc, Mix16B(input, 16 * i, secret, 32 * i, seed));
      acc := Add64(acc, Mix16B(input, |input| - 16 * (i + 1), secret, 32 * i + 16, seed));
      assert acc == MixPair(before, input, i, secret, seed);
      if i == 0 { break; }
      i := i - 1;
    }
    UnrolledIsRolled(input, secret, seed);
    h := Xxh3Avalanche(acc);
  }

  /** Blocks `from` to `to` - 1 of the second half, keyed from offset 3. */
  function LateBlocks(acc: u64, input: bytes, secret: bytes, seed: u64, to: nat): u64
    requires 8 <= to <= 15 && 16 * to <= |input| && |secret| >= 136
  {
    if to == 8 then acc
    else Add64(LateBlocks(acc, input, secret, seed, to - 1),
               Mix16B(input, 16 * (to - 1), secret, 16 * (to - 9) + 3, seed))
  }

  function EarlyBlocks(acc: u64, input: bytes, secret: bytes, seed: u64, to: nat): u64
    requires to <= 8 && 16 * to <= |input| && |secret| >= 136
  {
    if to == 0 then acc
    else Add64(EarlyBlocks(acc, input, secret, seed, to - 1),
               Mix16B(input, 16 * (to - 1), secret, 16 * (to - 1), seed))
  }

  function Len129To240_64(input: bytes, secret: bytes, seed: u64): u64
    requires 129 <= |input| <= 240 && |secret| >= 136
  {
    var early := Xxh3Avalanche(EarlyBlocks(Mul64(|input|, PRIME64_1), input, secret, seed, 8));
    var last := Mix16B(input, |input| - 16, secret, 136 - 17, seed);
    Xxh3Avalanche(Add64(early, LateBlocks(last, input, secret, seed, |input| / 16)))
  }

  method Len129To240Loop_64(input: bytes, secret: bytes, seed: u64) returns (h: u64)
    requires 129 <= |input| <= 240 && |secret| >= 136
    ensures h == Len129To240_64(input, secret, seed)
  {
    hide Mix16B, Xxh3Avalanche, Mul64, Add64;
    var acc := Mul64(|input|, PRIME64_1);
    ghost var start := acc;
    var nbRounds := |input| / 16;
    for i := 0 to 8
      invariant acc == EarlyBlocks(start, input, secret, seed, i)
    {
      acc := Add64(acc, Mix16B(input, 16 * i, secret, 16 * i, seed));
    }
    var accEnd := Mix16B(input, |input| - 16, secret, 136 - 17, seed);
    ghost var last := accEnd;
    acc := Xxh3Avalanche(acc);
    for i := 8 to nbRounds
      invariant accEnd == LateBlocks(last, input, secret, seed, i)
    {
      accEnd := Add64(accEnd, Mix16B(input, 16 * i, secret, 16 * (i - 8) + 3, seed));
    }
    h := Xxh3Avalanche(Add64(acc, accEnd));
  }

  function Short64(input: bytes, secret: bytes, seed: u64): u64
    requires |input| <= MIDSIZE_MAX && |secret| >= 136
  {
    if |input| <= 16 then Len0To16_64(input, secret, seed)
    else if |input| <= 128 then Len17To128_64(input, secret, seed)
    else Len129To240_64(input, secret, seed)
  }

  /** The loops above where the library has them; the size-optimised build also
      rolls up the lengths from 17 to 128. */
  method ShortHash64(input: bytes, secret: bytes, seed: u64, sizeOpt: bool) returns (h: u64)
    requires |input| <= MIDSIZE_MAX && |secret| >= 136
    ensures h == Short64(input, secret, seed)
  {
    hide Len0To16_64, Len17To128_64, Len129To240_64;
    if |input| <= 16 {
      h := Len0To16_64(input, secret, seed);
    } else if |input| <= 128 && sizeOpt {
      h := Len17To128Rolled_64(input, secret, seed);
    } else if |input| <= 128 {
      h := Len17To128_64(input, secret, seed);
    } else {
      h := Len129To240Loop_64(input, secret, seed);
    }
  }

  /* 128-bit hashes */

  function Len1To3_128(input: bytes, secret: bytes, seed: u64): Hash128
    requires 1 <= |input| <= 3 && |secret| >= 136
  {
    var combinedh := Rotl32(Swap32(Combined(input)), 13);
    var bitfliph := Sub64(Xor32(Read32(secret, 8), Read32(secret, 12)), seed);
    Hash128(Xxh64Avalanche(Len1To3Keyed(input, secret, seed)), Xxh64Avalanche(Xor64(combinedh, bitfliph)))
  }

  function Len4To8Keyed128(input: bytes, secret: bytes, seed: u64): u64
    requires 4 <= |input| <= 8 && |secret| >= 136
  {
    var input64 := Add64(Read32(input, 0), Shl64(Read32(input, |input| - 4), 32));
    Xor64(input64, Add64(Xor64(Read64(secret, 16), Read64(secret, 24)), SpreadSeed(seed)))
  }

  function Len4To8Finish(m: Hash128): Hash128 {
    var high := Add64(m.high64, Shl64(m.low64, 1));
    var low := Xor64(m.low64, Shr64(high, 3));
    Hash128(XorShift64(Mul64(XorShift64(low, 35), PRIME_MX2), 28), Xxh3Avalanche(high))
  }

  function Len4To8_128(input: bytes, secret: bytes, seed: u64): Hash128
    requires 4 <= |input| <= 8 && |secret| >= 136
  {
    Len4To8Finish(Mult64To128(Len4To8Keyed128(input, secret, seed), Add64(PRIME64_1, 4 * |input|)))
  }

  /** The two builds' ways of adding `high + low * PRIME32_2`. */
  function HighTerm32(inputHi: u64): u64 {
    Add64(Sub64(inputHi, Low32(inputHi)), Mult32To64(Low32(inputHi), PRIME32_2))
  }

  function HighTerm64(inputHi: u64): u64 {
    Add64(inputHi, Mult32To64(Low32(inputHi), PRIME32_2 as int - 1))
  }

  lemma HighTermsAgree(inputHi: u64)
    ensures HighTerm32(inputHi) == HighTerm64(inputHi)
  {
    hide HighTerm32, HighTerm64;
    HighTermValue(inputHi);
    HighTerm32Value(inputHi);
  }

  /** The upper half, and the lower half times the prime. */
  lemma HighTermValue(a: u64)
    ensures HighTerm64(a) as int
         == (Low32(a) as int * 0x85EBCA77 + 0x1_0000_0000 * High32(a) as int) % 0x1_0000_0000_0000_0000
  {
    hide Mult32To64;
    ProductOfLows(Low32(a), PRIME32_2 as int - 1);
    assert PRIME32_2 as int - 1 == 0x85EBCA76;
    assert a as int + Low32(a) as int * 0x85EBCA76 == Low32(a) as int * 0x85EBCA77 + 0x1_0000_0000 * High32(a) as int;
  }

  lemma HighTerm32Value(a: u64)
    ensures HighTerm32(a) as int
         == (Low32(a) as int * 0x85EBCA77 + 0x1_0000_0000 * High32(a) as int) % 0x1_0000_0000_0000_0000
  {
    hide Mult32To64;
    ProductOfLows(Low32(a), PRIME32_2);
    assert Sub64(a, Low32(a)) as int == 0x1_0000_0000 * High32(a) as int;
  }

  /** What becomes of the two keyed words of a 9 to 16 byte input. */
  function Len9To16Finish(keyedLo: u64, keyedHi: u64, len: u64): Hash128
    requires len >= 1
  {
    var m := Mult64To128(keyedLo, PRIME64_1);
    var low := Add64(m.low64, Shl64(len - 1, 54));
    var high := Add64(m.high64, HighTerm64(keyedHi));
    var low := Xor64(low, Swap64(high));
    var h := Mult64To128(low, PRIME64_2);
    Hash128(Xxh3Avalanche(h.low64), Xxh3Avalanche(Add64(h.high64, Mul64(high, PRIME64_2))))
  }

  function Len9To16_128(input: bytes, secret: bytes, seed: u64): Hash128
    requires 9 <= |input| <= 16 && |secret| >= 136
  {
    var bitflipl := Sub64(Xor64(Read64(secret, 32), Read64(secret, 40)), seed);
    var bitfliph := Add64(Xor64(Read64(secret, 48), Read64(secret, 56)), seed);
    var inputLo := Read64(input, 0);
    var inputHi := Read64(input, |input| - 8);
    Len9To16Finish(Xor64(Xor64(inputLo, inputHi), bitflipl), Xor64(inputHi, bitfliph), |input|)
  }

  function Len0To16_128(input: bytes, secret: bytes, seed: u64): Hash128
    requires |input| <= 16 && |secret| >= 136
  {
    if |input| > 8 then Len9To16_128(input, secret, seed)
    else if |input| >= 4 then Len4To8_128(input, secret, seed)
    else if |input| > 0 then Len1To3_128(input, secret, seed)
    else Hash128(Xxh64Avalanche(Xor64(seed, Xor64(Read64(secret, 64), Read64(secret, 72)))),
                 Xxh64Avalanche(Xor64(seed, Xor64(Read64(secret, 80), Read64(secret, 88)))))
  }

  function Mix32B(acc: Hash128, input: bytes, at1: nat, at2: nat, secret: bytes, off: nat, seed: u64): Hash128
    requires at1 + 16 <= |input| && at2 + 16 <= |input| && off + 32 <= |secret|
  {
    Hash128(
      Xor64(Add64(acc.low64, Mix16B(input, at1, secret, off, seed)),
            Add64(Read64(input, at2), Read64(input, at2 + 8))),
      Xor64(Add64(acc.high64, Mix16B(input, at2, secret, off + 16, seed)),
            Add64(Read64(input, at1), Read64(input, at1 + 8))))
  }

  function MidFinish(acc: Hash128, len: u64, seed: u64): Hash128 {
    var low := Add64(acc.low64, acc.high64);
    var high := Add64(Add64(Mul64(acc.low64, PRIME64_1), Mul64(acc.high64, PRIME64_4)),
                      Mul64(Sub64(len, seed), PRIME64_2));
    Hash128(Xxh3Avalanche(low), Sub64(0, Xxh3Avalanche(high)))
  }

  function MixPair128(acc: Hash128, input: bytes, i: nat, secret: bytes, seed: u64): Hash128
    requires 16 * i + 16 <= |input| && 32 * i + 32 <= |secret|
  {
    Mix32B(acc, input, 16 * i, |input| - 16 * (i + 1), secret, 32 * i, seed)
  }

  function Len17To128_128(input: bytes, secret: bytes, seed: u64): Hash128
    requires 17 <= |input| <= 128 && |secret| >= 136
  {
    var acc := Hash128(Mul64(|input|, PRIME64_1), 0);
    var acc := if |input| > 96 then MixPair128(acc, input, 3, secret, seed) else acc;
    var acc := if |input| > 64 then MixPair128(acc, input, 2, secret, seed) else acc;
    var acc := if |input| > 32 then MixPair128(acc, input, 1, secret, seed) else acc;
    MidFinish(MixPair128(acc, input, 0, secret, seed), |input|, seed)
  }

  function MixPairsDown128(acc: Hash128, input: bytes, i: nat, secret: bytes, seed: u64): Hash128
    requires 16 * i + 16 <= |input| && 32 * i + 32 <= |secret|
    decreases i
  {
    var next := MixPair128(acc, input, i, secret, seed);
    if i == 0 then next else MixPairsDown128(next, input, i - 1, secret, seed)
  }

  lemma NextPair128(acc: Hash128, input: bytes, i: nat, secret: bytes, seed: u64)
    requires 16 * i + 16 <= |input| && 32 * i + 32 <= |secret|
    ensures var next := MixPair128(acc, input, i, secret, seed);
      MixPairsDown128(acc, input, i, secret, seed)
      == if i == 0 then next else MixPairsDown128(next, input, i - 1, secret, seed)
  {
    hide MixPair128;
  }

  lemma UnrolledIsRolled128(input: bytes, secret: bytes, seed: u64)
    requires 17 <= |input| <= 128 && |secret| >= 136
    ensures Len17To128_128(input, secret, seed)
         == MidFinish(MixPairsDown128(Hash128(Mul64(|input|, PRIME64_1), 0), input, LastPair(|input|), secret, seed),
                      |input|, seed)
  {
    hide MixPair128, MixPairsDown128, MidFinish, Mul64;
    var acc := Hash128(Mul64(|input|, PRIME64_1), 0);
    if |input| > 96 {
      assert LastPair(|input|) == 3;
      NextPair128(acc, input, 3, secret, seed);
      acc := MixPair128(acc, input, 3, secret, seed);
    }
    if |input| > 64 {
      assert |input| <= 96 ==> LastPair(|input|) == 2;
      NextPair128(acc, input, 2, secret, seed);
      acc := MixPair128(acc, input, 2, secret, seed);
    }
    if |input| > 32 {
      assert |input| <= 64 ==> LastPair(|input|) == 1;
      NextPair128(acc, input, 1, secret, seed);
      acc := MixPair128(acc, input, 1, secret, seed);
    }
    assert |input| <= 32 ==> LastPair(|input|) == 0;
    NextPair128(acc, input, 0, secret, seed);
  }

  method Len17To128Rolled_128(input: bytes, secret: bytes, seed: u64) returns (h: Hash128)
    requires 17 <= |input| <= 128 && |secret| >= 136
    ensures h == Len17To128_128(input, secret, seed)
  {
    hide Mix32B, MidFinish, Mul64, Len17To128_128;
    var acc := Hash128(Mul64(|input|, PRIME64_1), 0);
    ghost var start := acc;
    var i := LastPair(|input|);
    while true
      invariant 0 <= i <= 3 && 32 * i < |input|
      invariant MixPairsDown128(acc, input, i, secret, seed)
             == MixPairsDown128(start, input, LastPair(|input|), secret, seed)
      decreases i
    {
      acc := Mix32B(acc, input, 16 * i, |input| - 16 * (i + 1), secret, 32 * i, seed);
      if i == 0 { break; }
      i := i - 1;
    }
    UnrolledIsRolled128(input, secret, seed);
    h := MidFinish(acc, |input|, seed);
  }

  /** 32-byte blocks 0 to n - 1 of the first 128 bytes. */
  function EarlyBlocks128(acc: Hash128, input: bytes, secret: bytes, seed: u64, n: nat): Hash128
    requires n <= 4 && 32 * n <= |input| && |secret| >= 136
  {
    if n == 0 then acc
    else Mix32B(EarlyBlocks128(acc, input, secret, seed, n - 1),
                input, 32 * n - 32, 32 * n - 16, secret, 32 * n - 32, seed)
  }

  /** 32-byte blocks 4 to n - 1, keyed from offset 3. */
  function LateBlocks128(acc: Hash128, input: bytes, secret: bytes, seed: u64, n: nat): Hash128
    requires 4 <= n <= 7 && 32 * n <= |input| && |secret| >= 136
  {
    if n == 4 then acc
    else Mix32B(LateBlocks128(acc, input, secret, seed, n - 1),
                input, 32 * n - 32, 32 * n - 16, secret, 3 + 32 * n - 160, seed)
  }

  function Len129To240_128(input: bytes, secret: bytes, seed: u64): Hash128
    requires 129 <= |input| <= 240 && |secret| >= 136
  {
    var early := EarlyBlocks128(Hash128(Mul64(|input|, PRIME64_1), 0), input, secret, seed, 4);
    var mixed := Hash128(Xxh3Avalanche(early.low64), Xxh3Avalanche(early.high64));
    var late := LateBlocks128(mixed, input, secret, seed, |input| / 32);
    MidFinish(Mix32B(late, input, |input| - 16, |input| - 32, secret, 136 - 17 - 16, Sub64(0, seed)), |input|, seed)
  }

  /** The source's loop, which counts byte offsets in steps of 32. */
  method Len129To240Loop_128(input: bytes, secret: bytes, seed: u64) returns (h: Hash128)
    requires 129 <= |input| <= 240 && |secret| >= 136
    ensures h == Len129To240_128(input, secret, seed)
  {
    hide Mix32B, Xxh3Avalanche, Mul64, MidFinish;
    var acc := Hash128(Mul64(|input|, PRIME64_1), 0);
    ghost var start := acc;
    var i := 32;
    while i < 160
      invariant i % 32 == 0 && 32 <= i <= 160
      invariant acc == EarlyBlocks128(start, input, secret, seed, i / 32 - 1)
    {
      acc := Mix32B(acc, input, i - 32, i - 16, secret, i - 32, seed);
      i := i + 32;
    }
    acc := Hash128(Xxh3Avalanche(acc.low64), Xxh3Avalanche(acc.high64));
    ghost var mixed := acc;
    i := 160;
    while i <= |input|
      invariant i % 32 == 0 && 160 <= i <= |input| + 32
      invariant acc == LateBlocks128(mixed, input, secret, seed, i / 32 - 1)
    {
      acc := Mix32B(acc, input, i - 32, i - 16, secret, 3 + i - 160, seed);
      i := i + 32;
    }
    acc := Mix32B(acc, input, |input| - 16, |input| - 32, secret, 136 - 17 - 16, Sub64(0, seed));
    h := MidFinish(acc, |input|, seed);
  }

  function Short128(input: bytes, secret: bytes, seed: u64): Hash128
    requires |input| <= MIDSIZE_MAX && |secret| >= 136
  {
    if |input| <= 16 then Len0To16_128(input, secret, seed)
    else if |input| <= 128 then Len17To128_128(input, secret, seed)
    else Len129To240_128(input, secret, seed)
  }

  method ShortHash128(input: bytes, secret: bytes, seed: u64, sizeOpt: bool) returns (h: Hash128)
    requires |input| <= MIDSIZE_MAX && |secret| >= 136
    ensures h == Short128(input, secret, seed)
  {
    hide Len0To16_128, Len17To128_128, Len129To240_128;
    if |input| <= 16 {
      h := Len0To16_128(input, secret, seed);
    } else if |input| <= 128 && sizeOpt {
      h := Len17To128Rolled_128(input, secret, seed);
    } else if |input| <= 128 {
      h := Len17To128_128(input, secret, seed);
    } else {
      h := Len129To240Loop_128(input, secret, seed);
    }
  }
}
