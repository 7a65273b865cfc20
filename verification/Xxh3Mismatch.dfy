/** The streaming 128-bit digest with a secret and seed 0: on at most 240 bytes
    it is keyed by the caller's secret, while the one-shot hash is keyed by the
    default secret. The two agree for every secret and input of a length
    exactly when the seed is not 0 or the length exceeds 240. */
module Xxh3Mismatch {
  import opened Bits
  import opened BitLemmas
  import opened Mixers
  import opened Mult128
  import opened Xxh3Short
  import opened Xxh3Secret
  import opened Xxh3Long
  import opened Xxh3Stream
  import opened Xxh3Injective

  function Zeros(n: nat): (s: bytes)
    ensures |s| == n
  {
    seq(n, i => 0)
  }

  /** A secret of zeros but for a 1 at p and a byte b at q. */
  function Marked(p: nat, q: nat, b: u8): (s: bytes)
    ensures IsSecret(s)
  {
    seq(136, i => if i == p then 1 else if i == q then b else 0)
  }

  lemma ZeroWord(p: nat, q: nat, b: u8, at: nat)
    requires at + 8 <= 136
    requires !(at <= p < at + 8) && !(at <= q < at + 8)
    ensures Read64(Marked(p, q, b), at) == 0
  {
  }

  lemma LowestByte(p: nat, q: nat, b: u8, at: nat)
    requires at + 8 <= 136 && p != q
    requires (q == at && !(at <= p < at + 8)) || (p == at && !(at <= q < at + 8))
    ensures Read64(Marked(p, q, b), at) == if q == at then b else 1
  {
  }

  lemma FoldTrivial(x: u64)
    ensures MulFold64(0, x) == 0 && MulFold64(x, 0) == 0 && MulFold64(1, x) == x
  {
    hide Xor;
    SmallProduct(0, x, 0);
    SmallProduct(x, 0, 0);
    SmallProduct(1, x, x);
    XorZero(0);
    XorZero(x);
  }

  lemma SmallProduct(a: u64, b: u64, p: u64)
    requires a as int * b as int == p
    ensures Mult64To128(a, b) == Hash128(p, 0)
  {
    hide Mult64To128;
    Mult64To128Exact(a, b);
  }

  /** On zero data a block mixes in just the product of two secret words. */
  lemma MixZeros(n: nat, at: nat, secret: bytes, off: nat)
    requires at + 16 <= n && off + 16 <= |secret|
    ensures Mix16B(Zeros(n), at, secret, off, 0) == MulFold64(Read64(secret, off), Read64(secret, off + 8))
  {
    hide MulFold64, Xor;
    XorZero(Read64(secret, off));
    XorZero(Read64(secret, off + 8));
    assert Read64(Zeros(n), at) == 0 && Read64(Zeros(n), at + 8) == 0;
  }

  /** ... so a double block just adds two such products. */
  lemma Mix32Zeros(acc: Hash128, n: nat, at1: nat, at2: nat, secret: bytes, off: nat)
    requires at1 + 16 <= n && at2 + 16 <= n && off + 32 <= |secret|
    ensures Mix32B(acc, Zeros(n), at1, at2, secret, off, 0)
         == Hash128(Add64(acc.low64, MulFold64(Read64(secret, off), Read64(secret, off + 8))),
                    Add64(acc.high64, MulFold64(Read64(secret, off + 16), Read64(secret, off + 24))))
  {
    hide Mix16B, MulFold64, Xor, Read64, Zeros, Add64;
    MixZeros(n, at1, secret, off);
    MixZeros(n, at2, secret, off + 16);
    ZeroData(n, at1);
    ZeroData(n, at2);
    XorZero(Add64(acc.low64, MulFold64(Read64(secret, off), Read64(secret, off + 8))));
    XorZero(Add64(acc.high64, MulFold64(Read64(secret, off + 16), Read64(secret, off + 24))));
  }

  lemma AddZero(a: u64)
    ensures Add64(a, 0) == a
  {
  }

  /** Nothing happens when one word of each pair is zero. */
  lemma MixNothing(acc: Hash128, n: nat, at1: nat, at2: nat, secret: bytes, off: nat)
    requires at1 + 16 <= n && at2 + 16 <= n && off + 32 <= |secret|
    requires Read64(secret, off) == 0 || Read64(secret, off + 8) == 0
    requires Read64(secret, off + 16) == 0 || Read64(secret, off + 24) == 0
    ensures Mix32B(acc, Zeros(n), at1, at2, secret, off, 0) == acc
  {
    hide Mix32B, MulFold64, Read64, Zeros, Add64;
    Mix32Zeros(acc, n, at1, at2, secret, off);
    FoldTrivial(Read64(secret, off));
    FoldTrivial(Read64(secret, off + 8));
    FoldTrivial(Read64(secret, off + 16));
    FoldTrivial(Read64(secret, off + 24));
    AddZero(acc.low64);
    AddZero(acc.high64);
  }

  /* Lengths 17 to 128 */

  lemma PairIdle(acc: Hash128, n: nat, i: nat, b: u8)
    requires 1 <= i <= 3 && 16 * i + 16 <= n
    ensures MixPair128(acc, Zeros(n), i, Marked(0, 8, b), 0) == acc
  {
    hide Mix32B, Marked, Read64, Zeros;
    ZeroWord(0, 8, b, 32 * i);
    ZeroWord(0, 8, b, 32 * i + 16);
    MixNothing(acc, n, 16 * i, n - 16 * (i + 1), Marked(0, 8, b), 32 * i);
  }

  lemma LastPair(acc: Hash128, n: nat, b: u8)
    requires n >= 16
    ensures MixPair128(acc, Zeros(n), 0, Marked(0, 8, b), 0) == Hash128(Add64(acc.low64, b), acc.high64)
  {
    hide Mix32B, MulFold64, Marked, Read64, Add64, Zeros;
    var s := Marked(0, 8, b);
    assert |Zeros(n)| == n;
    LowestByte(0, 8, b, 0);
    LowestByte(0, 8, b, 8);
    ZeroWord(0, 8, b, 16);
    Mix32Zeros(acc, n, 0, n - 16, s, 0);
    FoldTrivial(b);
    FoldTrivial(Read64(s, 24));
    AddZero(acc.high64);
  }

  lemma ZeroData(n: nat, at: nat)
    requires at + 16 <= n
    ensures Add64(Read64(Zeros(n), at), Read64(Zeros(n), at + 8)) == 0
  {
  }

  lemma Low17To128(n: nat, b: u8)
    requires 17 <= n <= 128
    ensures Short128(Zeros(n), Marked(0, 8, b), 0).low64 == Xxh3Avalanche(Add64(Mul64(n, PRIME64_1), b))
  {
    hide MixPair128, Xxh3Avalanche, Mul64, Add64, Marked;
    var start := Hash128(Mul64(n, PRIME64_1), 0);
    if n > 96 { PairIdle(start, n, 3, b); }
    if n > 64 { PairIdle(start, n, 2, b); }
    if n > 32 { PairIdle(start, n, 1, b); }
    LastPair(start, n, b);
    AddZero(Add64(Mul64(n, PRIME64_1), b));
  }

  /* Lengths 129 to 240 */

  lemma {:induction false} EarlyIdle(acc: Hash128, n: nat, b: u8, blocks: nat)
    requires blocks <= 4 && 129 <= n
    ensures EarlyBlocks128(acc, Zeros(n), Marked(119, 128, b), 0, blocks) == acc
  {
    hide Mix32B;
    if blocks != 0 {
      EarlyIdle(acc, n, b, blocks - 1);
      ZeroWord(119, 128, b, 32 * blocks - 32);
      ZeroWord(119, 128, b, 32 * blocks - 8);
      MixNothing(acc, n, 32 * blocks - 32, 32 * blocks - 16, Marked(119, 128, b), 32 * blocks - 32);
    }
  }

  lemma {:induction false} LateIdle(acc: Hash128, n: nat, b: u8, blocks: nat)
    requires 4 <= blocks <= 7 && 32 * blocks <= n
    ensures LateBlocks128(acc, Zeros(n), Marked(119, 128, b), 0, blocks) == acc
  {
    hide Mix32B;
    if blocks != 4 {
      LateIdle(acc, n, b, blocks - 1);
      ZeroWord(119, 128, b, 32 * blocks - 157);
      ZeroWord(119, 128, b, 32 * blocks - 141);
      MixNothing(acc, n, 32 * blocks - 32, 32 * blocks - 16, Marked(119, 128, b), 32 * blocks - 157);
    }
  }

  lemma LastMix(acc: Hash128, n: nat, b: u8)
    requires n >= 32
    ensures Mix32B(acc, Zeros(n), n - 16, n - 32, Marked(119, 128, b), 103, 0)
         == Hash128(acc.low64, Add64(acc.high64, 0x100 * b as int))
  {
    hide Mix32B, MulFold64, Marked, Read64, Add64;
    var s := Marked(119, 128, b);
    ZeroWord(119, 128, b, 103);
    LowestByte(119, 128, b, 119);
    SecondByte(b);
    Mix32Zeros(acc, n, n - 16, n - 32, s, 103);
    FoldTrivial(Read64(s, 111));
    FoldTrivial(Read64(s, 127));
    AddZero(acc.low64);
  }

  lemma SecondByte(b: u8)
    ensures Read64(Marked(119, 128, b), 127) == 0x100 * b as int
  {
  }

  lemma Low129To240(n: nat, b: u8)
    requires 129 <= n <= 240
    ensures Short128(Zeros(n), Marked(119, 128, b), 0).low64
         == Xxh3Avalanche(Add64(Xxh3Avalanche(Mul64(n, PRIME64_1)), Add64(Xxh3Avalanche(0), 0x100 * b as int)))
  {
    hide Mix32B, Xxh3Avalanche, Mul64, Add64, Marked, EarlyBlocks128, LateBlocks128;
    var start := Hash128(Mul64(n, PRIME64_1), 0);
    EarlyIdle(start, n, b, 4);
    var mixed := Hash128(Xxh3Avalanche(start.low64), Xxh3Avalanche(0));
    LateIdle(mixed, n, b, n / 32);
    LastMix(mixed, n, b);
    assert Sub64(0, 0) == 0;
  }

  /* Every short length has an input that notices the secret */

  function NoticedAt(n: nat): (nat, nat) {
    if n == 0 then (130, 64)
    else if n <= 3 then (130, 0)
    else if n <= 8 then (130, 16)
    else if n <= 16 then (130, 32)
    else if n <= 128 then (0, 8)
    else (119, 128)
  }

  lemma AddInjective(a: u64, b: u64, c: u64)
    requires Add64(c, a) == Add64(c, b)
    ensures a == b
  {
  }

  lemma XorKeyInjective(x: u64, a: u64, b: u64)
    requires Xor64(x, a) == Xor64(x, b)
    ensures a == b
  {
    XorComm(x, a);
    XorComm(x, b);
    XorCancel(a, b, x);
  }

  lemma SecretNoticed(n: nat)
    requires n <= 240
    ensures var (p, q) := NoticedAt(n);
      Short128(Zeros(n), Marked(p, q, 0), 0) != Short128(Zeros(n), Marked(p, q, 1), 0)
  {
    hide Short128, Marked;
    if n == 0 {
      NoticedEmpty();
    } else if n <= 3 {
      Noticed1To3(n);
    } else if n <= 8 {
      Noticed4To8(n);
    } else if n <= 16 {
      Noticed9To16(n);
    } else if n <= 128 {
      Noticed17To128(n);
    } else {
      Noticed129To240(n);
    }
  }

  lemma NoticedEmpty()
    ensures Short128(Zeros(0), Marked(130, 64, 0), 0) != Short128(Zeros(0), Marked(130, 64, 1), 0)
  {
    hide Xxh64Avalanche, Marked, Xor, Read64;
    forall b: u8 | b <= 1
      ensures Short128(Zeros(0), Marked(130, 64, b), 0).low64 == Xxh64Avalanche(b)
    {
      LowestByte(130, 64, b, 64);
      ZeroWord(130, 64, b, 72);
      XorZero(b);
    }
    if Xxh64Avalanche(0) == Xxh64Avalanche(1) {
      Xxh64AvalancheInjective(0, 1);
    }
  }

  lemma FirstKeyWord(b: u8)
    ensures Xor32(Read32(Marked(130, 0, b), 0), Read32(Marked(130, 0, b), 4)) == b
  {
    hide Xor;
    assert Read32(Marked(130, 0, b), 0) == b && Read32(Marked(130, 0, b), 4) == 0;
    XorZero(b);
  }

  lemma Noticed1To3(n: nat)
    requires 1 <= n <= 3
    ensures Short128(Zeros(n), Marked(130, 0, 0), 0) != Short128(Zeros(n), Marked(130, 0, 1), 0)
  {
    hide Xxh64Avalanche, Xor32, Xor64, Rotl32, Swap32, Combined, Marked, Read32, Read64;
    var d := Zeros(n);
    var k0, k1 := Len1To3Keyed(d, Marked(130, 0, 0), 0), Len1To3Keyed(d, Marked(130, 0, 1), 0);
    FirstKeyWord(0);
    FirstKeyWord(1);
    if k0 == k1 {
      XorKeyInjective(Combined(d), 0, 1);
    }
    if Xxh64Avalanche(k0) == Xxh64Avalanche(k1) {
      Xxh64AvalancheInjective(k0, k1);
    }
  }

  lemma Noticed4To8(n: nat)
    requires 4 <= n <= 8
    ensures Short128(Zeros(n), Marked(130, 16, 0), 0) != Short128(Zeros(n), Marked(130, 16, 1), 0)
  {
    hide Xor, Marked, Read64, Mult64To128, Len4To8Finish, Add64, SpreadSeed, Mul64, Shl64, LengthMultiplierInverse;
    var d, s0, s1 := Zeros(n), Marked(130, 16, 0), Marked(130, 16, 1);
    LowestByte(130, 16, 0, 16);
    LowestByte(130, 16, 1, 16);
    ZeroWord(130, 16, 0, 24);
    ZeroWord(130, 16, 1, 24);
    XorZero(0);
    XorZero(1);
    var k0, k1 := Len4To8Keyed128(d, s0, 0), Len4To8Keyed128(d, s1, 0);
    if Short128(d, s0, 0) == Short128(d, s1, 0) {
      var p := Add64(PRIME64_1, 4 * n);
      Len4To8FinishInjective(Mult64To128(k0, p), Mult64To128(k1, p));
      LowWord(k0, p);
      LowWord(k1, p);
      LengthMultipliersAreOdd(n);
      MulInjective(k0, k1, p, LengthMultiplierInverse(n));
      var input64 := Add64(Read32(d, 0), Shl64(Read32(d, n - 4), 32));
      XorKeyInjective(input64, Add64(0, SpreadSeed(0)), Add64(1, SpreadSeed(0)));
      AddCancel(0, 1, SpreadSeed(0));
    }
  }

  lemma Noticed9To16(n: nat)
    requires 9 <= n <= 16
    ensures Short128(Zeros(n), Marked(130, 32, 0), 0) != Short128(Zeros(n), Marked(130, 32, 1), 0)
  {
    hide Xor, Marked, Read64, Len9To16Finish, Add64;
    var d, s0, s1 := Zeros(n), Marked(130, 32, 0), Marked(130, 32, 1);
    LowestByte(130, 32, 0, 32);
    LowestByte(130, 32, 1, 32);
    ZeroWord(130, 32, 0, 40);
    ZeroWord(130, 32, 1, 40);
    ZeroWord(130, 32, 0, 48);
    ZeroWord(130, 32, 1, 48);
    ZeroWord(130, 32, 0, 56);
    ZeroWord(130, 32, 1, 56);
    XorZero(0);
    XorZero(1);
    if Short128(d, s0, 0) == Short128(d, s1, 0) {
      var x := Xor64(Read64(d, 0), Read64(d, n - 8));
      var hi := Xor64(Read64(d, n - 8), Add64(0, 0));
      Len9To16FinishInjective(Xor64(x, 0), hi, Xor64(x, 1), hi, n);
      XorKeyInjective(x, 0, 1);
    }
  }

  lemma Noticed17To128(n: nat)
    requires 17 <= n <= 128
    ensures Short128(Zeros(n), Marked(0, 8, 0), 0) != Short128(Zeros(n), Marked(0, 8, 1), 0)
  {
    hide Short128, Marked, Xxh3Avalanche, Add64, Mul64;
    Low17To128(n, 0);
    Low17To128(n, 1);
    var x := Mul64(n, PRIME64_1);
    if Xxh3Avalanche(Add64(x, 0)) == Xxh3Avalanche(Add64(x, 1)) {
      Xxh3AvalancheInjective(Add64(x, 0), Add64(x, 1));
      AddInjective(0, 1, x);
    }
  }

  lemma Noticed129To240(n: nat)
    requires 129 <= n <= 240
    ensures Short128(Zeros(n), Marked(119, 128, 0), 0) != Short128(Zeros(n), Marked(119, 128, 1), 0)
  {
    hide Short128, Marked, Xxh3Avalanche, Add64, Mul64;
    Low129To240(n, 0);
    Low129To240(n, 1);
    var x, y := Xxh3Avalanche(Mul64(n, PRIME64_1)), Xxh3Avalanche(0);
    var s0, s1 := Add64(x, Add64(y, 0)), Add64(x, Add64(y, 0x100));
    if Xxh3Avalanche(s0) == Xxh3Avalanche(s1) {
      Xxh3AvalancheInjective(s0, s1);
      AddInjective(Add64(y, 0), Add64(y, 0x100), x);
      AddInjective(0, 0x100, y);
    }
  }

  ghost predicate AgreesOn(secret: bytes, seed: u64, data: bytes)
    requires IsSecret(secret) && |data| < 0x1_0000_0000_0000_0000
  {
    Streamed128(WithSecretAndSeed(secret, seed), data) == OneShot128(WithSecretAndSeed(secret, seed), data)
  }

  /** A concrete disagreement for every short length. */
  lemma Disagreement(n: nat) returns (secret: bytes, data: bytes)
    requires n <= MIDSIZE_MAX
    ensures IsSecret(secret) && |data| == n && !AgreesOn(secret, 0, data)
  {
    hide Short128, Marked, KSecret;
    data := Zeros(n);
    var (p, q) := NoticedAt(n);
    SecretNoticed(n);
    secret := Marked(p, q, if Short128(data, Marked(p, q, 0), 0) != Short128(data, KSecret(), 0) then 0 else 1);
  }

  /** Streaming and one-shot agree on all inputs of length n and all secrets
      exactly when the seed is not 0 or the input is long. */
  lemma AgreementCondition(seed: u64, n: nat)
    requires n < 0x1_0000_0000_0000_0000
    ensures (forall secret: bytes, data: bytes :: IsSecret(secret) && |data| == n ==> AgreesOn(secret, seed, data))
       <==> seed != 0 || n > MIDSIZE_MAX
  {
    hide OneShot128;
    if seed == 0 && n <= MIDSIZE_MAX {
      var secret, data := Disagreement(n);
    }
  }
}
