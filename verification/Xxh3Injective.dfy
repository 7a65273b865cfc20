/** Short keys never collide: on up to 16 bytes the hashes only permute. */
module Xxh3Injective {
  import opened Bits
  import opened BitLemmas
  import opened Mixers
  import opened Mult128
  import opened Xxh3Short

  /* Reading back bytes */

  lemma PackedDigits(c1: u8, c2: u8, c3: u8, len: u8, v: int)
    requires v == c1 as int * 0x1_0000 + c2 as int * 0x100_0000 + c3 as int + len as int * 0x100
    ensures v / 0x100 % 0x100 == len && v % 0x100 == c3 && v / 0x1_0000 % 0x100 == c1 && v / 0x100_0000 == c2
  {
    assert v / 0x100 == len as int + 0x100 * c1 as int + 0x1_0000 * c2 as int;
    assert v / 0x1_0000 == c1 as int + 0x100 * c2 as int;
  }

  lemma Read32Injective(a: bytes, b: bytes, at: nat)
    requires at + 4 <= |a| && at + 4 <= |b|
    requires Read32(a, at) == Read32(b, at)
    ensures a[at..at + 4] == b[at..at + 4]
  {
    PackedDigits(a[at + 2], a[at + 3], a[at], a[at + 1], Read32(a, at));
    PackedDigits(b[at + 2], b[at + 3], b[at], b[at + 1], Read32(b, at));
  }

  lemma Read64Injective(a: bytes, b: bytes, at: nat)
    requires at + 8 <= |a| && at + 8 <= |b|
    requires Read64(a, at) == Read64(b, at)
    ensures a[at..at + 8] == b[at..at + 8]
  {
    hide Read32;
    Read32Injective(a, b, at);
    Read32Injective(a, b, at + 4);
    assert a[at..at + 8] == a[at..at + 4] + a[at + 4..at + 8];
    assert b[at..at + 8] == b[at..at + 4] + b[at + 4..at + 8];
  }

  /** Two overlapping windows of width w cover a key of n <= 2w bytes. */
  lemma WindowsCover(a: bytes, b: bytes, w: nat)
    requires |a| == |b| && w <= |a| <= 2 * w
    requires a[..w] == b[..w] && a[|a| - w..] == b[|b| - w..]
    ensures a == b
  {
    forall i | 0 <= i < |a| ensures a[i] == b[i] {
      if i < w {
        assert a[..w][i] == b[..w][i];
      } else {
        assert a[|a| - w..][i - (|a| - w)] == b[|b| - w..][i - (|b| - w)];
      }
    }
  }

  /* 1 to 3 bytes: the packed word already contains everything */

  lemma CombinedInjective(a: bytes, b: bytes)
    requires 1 <= |a| <= 3 && 1 <= |b| <= 3
    requires Combined(a) == Combined(b)
    ensures a == b
  {
    hide Combined;
    CombinedValue(a);
    CombinedValue(b);
    PackedDigits(a[0], a[|a| / 2], a[|a| - 1], |a|, Combined(a));
    PackedDigits(b[0], b[|b| / 2], b[|b| - 1], |b|, Combined(b));
  }

  lemma XorKeyCancel(a: u64, b: u64, key: u64)
    requires Xor64(a, key) == Xor64(b, key)
    ensures a == b
  {
    XorCancel(a, b, key);
  }

  lemma Keyed1To3Injective(a: bytes, b: bytes, secret: bytes, seed: u64)
    requires 1 <= |a| <= 3 && 1 <= |b| <= 3 && |secret| >= 136
    requires Len1To3Keyed(a, secret, seed) == Len1To3Keyed(b, secret, seed)
    ensures a == b
  {
    hide Xor64, Combined, Xor32, Read32;
    XorKeyCancel(Combined(a), Combined(b), Add64(Xor32(Read32(secret, 0), Read32(secret, 4)), seed));
    CombinedInjective(a, b);
  }

  /** Distinct keys of one to three bytes, even of different lengths, have
      distinct 64-bit hashes under every secret and seed. */
  lemma ShortestKeysDistinct64(a: bytes, b: bytes, secret: bytes, seed: u64)
    requires 1 <= |a| <= 3 && 1 <= |b| <= 3 && |secret| >= 136 && a != b
    ensures Short64(a, secret, seed) != Short64(b, secret, seed)
  {
    hide Xxh64Avalanche, Len1To3Keyed;
    if Short64(a, secret, seed) == Short64(b, secret, seed) {
      Xxh64AvalancheInjective(Len1To3Keyed(a, secret, seed), Len1To3Keyed(b, secret, seed));
      Keyed1To3Injective(a, b, secret, seed);
    }
  }

  /** ... and distinct low halves of their 128-bit hashes. */
  lemma ShortestKeysDistinct128(a: bytes, b: bytes, secret: bytes, seed: u64)
    requires 1 <= |a| <= 3 && 1 <= |b| <= 3 && |secret| >= 136 && a != b
    ensures Short128(a, secret, seed).low64 != Short128(b, secret, seed).low64
  {
    hide Xxh64Avalanche, Len1To3Keyed, Rotl32, Swap32, Xor32, Xor64;
    if Short128(a, secret, seed).low64 == Short128(b, secret, seed).low64 {
      Xxh64AvalancheInjective(Len1To3Keyed(a, secret, seed), Len1To3Keyed(b, secret, seed));
      Keyed1To3Injective(a, b, secret, seed);
    }
  }

  /* 4 to 8 bytes */

  lemma JoinInjective(x: u32, y: u32, x': u32, y': u32)
    requires Add64(x, Shl64(y, 32)) == Add64(x', Shl64(y', 32))
    ensures x == x' && y == y'
  {
    hide Add64, Shl64;
    JoinedValue(x, y);
    JoinedValue(x', y');
  }

  lemma JoinedValue(x: u32, y: u32)
    ensures Add64(x, Shl64(y, 32)) as int == x as int + 0x1_0000_0000 * y as int
  {
    hide Shl, Pow2;
    Pow2Values();
    ShlByPow(y, 32);
  }

  lemma Keyed4To8Injective(a: bytes, b: bytes, secret: bytes, seed: u64)
    requires 4 <= |a| == |b| <= 8 && |secret| >= 136
    requires Len4To8Keyed(a, secret, seed) == Len4To8Keyed(b, secret, seed)
    ensures a == b
  {
    hide Xor64, Read64, Read32, Add64, Shl64, Sub64, SpreadSeed;
    var n := |a|;
    XorKeyCancel(Add64(Read32(a, n - 4), Shl64(Read32(a, 0), 32)), Add64(Read32(b, n - 4), Shl64(Read32(b, 0), 32)),
                 Sub64(Xor64(Read64(secret, 8), Read64(secret, 16)), SpreadSeed(seed)));
    JoinInjective(Read32(a, n - 4), Read32(a, 0), Read32(b, n - 4), Read32(b, 0));
    Read32Injective(a, b, 0);
    Read32Injective(a, b, n - 4);
    WindowsCover(a, b, 4);
  }

  lemma Keys4To8Distinct64(a: bytes, b: bytes, secret: bytes, seed: u64)
    requires 4 <= |a| == |b| <= 8 && |secret| >= 136 && a != b
    ensures Short64(a, secret, seed) != Short64(b, secret, seed)
  {
    hide Rrmxmx, Len4To8Keyed;
    if Short64(a, secret, seed) == Short64(b, secret, seed) {
      RrmxmxInjective(Len4To8Keyed(a, secret, seed), Len4To8Keyed(b, secret, seed), |a|);
      Keyed4To8Injective(a, b, secret, seed);
    }
  }

  lemma Keyed4To8Injective128(a: bytes, b: bytes, secret: bytes, seed: u64)
    requires 4 <= |a| == |b| <= 8 && |secret| >= 136
    requires Len4To8Keyed128(a, secret, seed) == Len4To8Keyed128(b, secret, seed)
    ensures a == b
  {
    hide Xor64, Read64, Read32, Add64, Shl64, SpreadSeed;
    var n := |a|;
    XorKeyCancel(Add64(Read32(a, 0), Shl64(Read32(a, n - 4), 32)), Add64(Read32(b, 0), Shl64(Read32(b, n - 4), 32)),
                 Add64(Xor64(Read64(secret, 16), Read64(secret, 24)), SpreadSeed(seed)));
    JoinInjective(Read32(a, 0), Read32(a, n - 4), Read32(b, 0), Read32(b, n - 4));
    Read32Injective(a, b, 0);
    Read32Injective(a, b, n - 4);
    WindowsCover(a, b, 4);
  }

  /** The final 128-bit mix loses neither half. */
  lemma Len4To8FinishInjective(m: Hash128, m': Hash128)
    requires Len4To8Finish(m) == Len4To8Finish(m')
    ensures m.low64 == m'.low64
  {
    hide Mul64, Add64, Shl64, Shr, Xor, Xxh3Avalanche;
    PrimesAreOdd();
    var high, high' := Add64(m.high64, Shl64(m.low64, 1)), Add64(m'.high64, Shl64(m'.low64, 1));
    Xxh3AvalancheInjective(high, high');
    var low, low' := Xor64(m.low64, Shr64(high, 3)), Xor64(m'.low64, Shr64(high', 3));
    var x, x' := XorShift64(low, 35), XorShift64(low', 35);
    XorShiftInjective(Mul64(x, PRIME_MX2), Mul64(x', PRIME_MX2), 28);
    MulInjective(x, x', PRIME_MX2, 0x2AB9C720D1024AD);
    XorShiftInjective(low, low', 35);
    XorKeyCancel(m.low64, m'.low64, Shr64(high, 3));
  }

  /** The low word of a 128-bit product is the 64-bit product. */
  lemma LowWord(lhs: u64, rhs: u64)
    ensures Mult64To128(lhs, rhs).low64 == Mul64(lhs, rhs)
  {
    hide Mult64To128, Mul64;
    Mult64To128Exact(lhs, rhs);
    LowOf(lhs as int * rhs as int, Mult64To128(lhs, rhs));
    ProductModulo(lhs, rhs);
  }

  lemma LowOf(v: nat, h: Hash128)
    requires v == Value128(h)
    ensures h.low64 == v % 0x1_0000_0000_0000_0000
  {
  }

  lemma ProductModulo(lhs: u64, rhs: u64)
    ensures Mul64(lhs, rhs) == (lhs as int * rhs as int) % 0x1_0000_0000_0000_0000
  {
  }

  function LengthMultiplierInverse(len: nat): u64 {
    match len
    case 4 => 0xC58FC94211B05527
    case 5 => 0xF3655C2B3B120B93
    case 6 => 0x4A353FC06E6CD15F
    case 7 => 0x72A86F8FF240390B
    case _ => 0x6261C8662F213D17
  }

  lemma LengthMultipliersAreOdd(len: nat)
    requires 4 <= len <= 8
    ensures Mul64(Add64(PRIME64_1, 4 * len), LengthMultiplierInverse(len)) == 1
  {
    assert PRIME64_1 == 0x9E3779B185EBCA87;
    match len
    case 4 => assert Add64(PRIME64_1, 16) == 0x9E3779B185EBCA97;
    case 5 => assert Add64(PRIME64_1, 20) == 0x9E3779B185EBCA9B;
    case 6 => assert Add64(PRIME64_1, 24) == 0x9E3779B185EBCA9F;
    case 7 => assert Add64(PRIME64_1, 28) == 0x9E3779B185EBCAA3;
    case 8 => assert Add64(PRIME64_1, 32) == 0x9E3779B185EBCAA7;
  }

  lemma Keys4To8Distinct128(a: bytes, b: bytes, secret: bytes, seed: u64)
    requires 4 <= |a| == |b| <= 8 && |secret| >= 136 && a != b
    ensures Short128(a, secret, seed) != Short128(b, secret, seed)
  {
    hide Len4To8Keyed128, Len4To8Finish, Mult64To128, Mul64, Add64, LengthMultiplierInverse;
    if Short128(a, secret, seed) == Short128(b, secret, seed) {
      var p := Add64(PRIME64_1, 4 * |a|);
      var x, y := Len4To8Keyed128(a, secret, seed), Len4To8Keyed128(b, secret, seed);
      Len4To8FinishInjective(Mult64To128(x, p), Mult64To128(y, p));
      LowWord(x, p);
      LowWord(y, p);
      LengthMultipliersAreOdd(|a|);
      MulInjective(x, y, p, LengthMultiplierInverse(|a|));
      Keyed4To8Injective128(a, b, secret, seed);
    }
  }

  /* 9 to 16 bytes, 128-bit hash */

  lemma AddCancel(a: u64, b: u64, c: u64)
    requires Add64(a, c) == Add64(b, c)
    ensures a == b
  {
  }

  /** Multiplying the low half by an odd 32-bit prime can be undone. */
  lemma HighTermInjective(a: u64, b: u64)
    requires HighTerm64(a) == HighTerm64(b)
    ensures a == b
  {
    hide HighTerm64;
    HighTermValue(a);
    HighTermValue(b);
    var al, bl := Low32(a) as int, Low32(b) as int;
    var ah, bh := High32(a) as int, High32(b) as int;
    var wide := (al - bl) * 0x85EBCA77 + 0x1_0000_0000 * (ah - bh);
    SameResidue(al * 0x85EBCA77 + 0x1_0000_0000 * ah, bl * 0x85EBCA77 + 0x1_0000_0000 * bh, 0x1_0000_0000);
    var t := wide / 0x1_0000_0000_0000_0000;
    assert wide == t * 0x1_0000_0000_0000_0000;
    assert (al - bl) * 0x85EBCA77 == 0x1_0000_0000 * (t * 0x1_0000_0000 - (ah - bh));
    OddPrimeResidue(al - bl, t * 0x1_0000_0000 - (ah - bh));
  }

  lemma SameResidue(x: int, y: int, unit: int)
    requires x % 0x1_0000_0000_0000_0000 == y % 0x1_0000_0000_0000_0000
    ensures (x - y) % 0x1_0000_0000_0000_0000 == 0
  {
  }

  lemma OddPrimeResidue(d: int, k: int)
    requires -0x1_0000_0000 < d < 0x1_0000_0000
    requires d * 0x85EBCA77 == 0x1_0000_0000 * k
    ensures d == 0
  {
    assert 0x85EBCA77 * 0xB6C92F47 == 1 + 0x5F9EE0CE * 0x1_0000_0000;
    MultipleOf(d, k * 0xB6C92F47 - d * 0x5F9EE0CE, 0x1_0000_0000);
  }

  lemma Len9To16FinishInjective(lo: u64, hi: u64, lo': u64, hi': u64, len: u64)
    requires len >= 1 && Len9To16Finish(lo, hi, len) == Len9To16Finish(lo', hi', len)
    ensures lo == lo' && hi == hi'
  {
    hide Mul64, Add64, Shl64, Swap64, Xxh3Avalanche, Mult64To128, HighTerm64, Xor64;
    PrimesAreOdd();
    var m, m' := Mult64To128(lo, PRIME64_1), Mult64To128(lo', PRIME64_1);
    var sum, sum' := Add64(m.low64, Shl64(len - 1, 54)), Add64(m'.low64, Shl64(len - 1, 54));
    var high, high' := Add64(m.high64, HighTerm64(hi)), Add64(m'.high64, HighTerm64(hi'));
    var low, low' := Xor64(sum, Swap64(high)), Xor64(sum', Swap64(high'));
    var h, h' := Mult64To128(low, PRIME64_2), Mult64To128(low', PRIME64_2);
    Xxh3AvalancheInjective(h.low64, h'.low64);
    LowWord(low, PRIME64_2);
    LowWord(low', PRIME64_2);
    MulInjective(low, low', PRIME64_2, 0xBA79078168D4BAF);
    Xxh3AvalancheInjective(Add64(h.high64, Mul64(high, PRIME64_2)), Add64(h.high64, Mul64(high', PRIME64_2)));
    AddCommutes(h.high64, Mul64(high, PRIME64_2));
    AddCommutes(h.high64, Mul64(high', PRIME64_2));
    AddCancel(Mul64(high, PRIME64_2), Mul64(high', PRIME64_2), h.high64);
    MulInjective(high, high', PRIME64_2, 0xBA79078168D4BAF);
    XorKeyCancel(sum, sum', Swap64(high));
    AddCancel(m.low64, m'.low64, Shl64(len - 1, 54));
    LowWord(lo, PRIME64_1);
    LowWord(lo', PRIME64_1);
    MulInjective(lo, lo', PRIME64_1, 0x887493432BADB37);
    AddCommutes(m.high64, HighTerm64(hi));
    AddCommutes(m.high64, HighTerm64(hi'));
    AddCancel(HighTerm64(hi), HighTerm64(hi'), m.high64);
    HighTermInjective(hi, hi');
  }

  lemma AddCommutes(a: u64, b: u64)
    ensures Add64(a, b) == Add64(b, a)
  {
  }

  /** The hash gives back the first and the last eight bytes. */
  lemma Words9To16(a: bytes, b: bytes, secret: bytes, seed: u64)
    requires 9 <= |a| == |b| <= 16 && |secret| >= 136
    requires Len9To16_128(a, secret, seed) == Len9To16_128(b, secret, seed)
    ensures Read64(a, 0) == Read64(b, 0) && Read64(a, |a| - 8) == Read64(b, |b| - 8)
  {
    hide Add64, Sub64, Xor64, Read64, Len9To16Finish;
    var flipl := Sub64(Xor64(Read64(secret, 32), Read64(secret, 40)), seed);
    var fliph := Add64(Xor64(Read64(secret, 48), Read64(secret, 56)), seed);
    KeyedWordsInjective(Read64(a, 0), Read64(a, |a| - 8), Read64(b, 0), Read64(b, |b| - 8), flipl, fliph, |a|);
  }

  lemma KeyedWordsInjective(aLo: u64, aHi: u64, bLo: u64, bHi: u64, flipl: u64, fliph: u64, len: u64)
    requires len >= 1
    requires Len9To16Finish(Xor64(Xor64(aLo, aHi), flipl), Xor64(aHi, fliph), len)
          == Len9To16Finish(Xor64(Xor64(bLo, bHi), flipl), Xor64(bHi, fliph), len)
    ensures aLo == bLo && aHi == bHi
  {
    hide Xor64, Len9To16Finish;
    Len9To16FinishInjective(Xor64(Xor64(aLo, aHi), flipl), Xor64(aHi, fliph),
                            Xor64(Xor64(bLo, bHi), flipl), Xor64(bHi, fliph), len);
    XorKeyCancel(aHi, bHi, fliph);
    XorKeyCancel(Xor64(aLo, aHi), Xor64(bLo, aHi), flipl);
    XorKeyCancel(aLo, bLo, aHi);
  }

  lemma Keys9To16Injective128(a: bytes, b: bytes, secret: bytes, seed: u64)
    requires 9 <= |a| == |b| <= 16 && |secret| >= 136
    requires Len9To16_128(a, secret, seed) == Len9To16_128(b, secret, seed)
    ensures a == b
  {
    hide Read64, Len9To16_128;
    Words9To16(a, b, secret, seed);
    Read64Injective(a, b, 0);
    Read64Injective(a, b, |a| - 8);
    assert a[..8] == a[0..0 + 8] && b[..8] == b[0..0 + 8];
    assert a[|a| - 8..] == a[|a| - 8..|a| - 8 + 8] && b[|b| - 8..] == b[|b| - 8..|b| - 8 + 8];
    WindowsCover(a, b, 8);
  }

  lemma Keys9To16Distinct128(a: bytes, b: bytes, secret: bytes, seed: u64)
    requires 9 <= |a| == |b| <= 16 && |secret| >= 136 && a != b
    ensures Short128(a, secret, seed) != Short128(b, secret, seed)
  {
    hide Len9To16_128;
    if Len9To16_128(a, secret, seed) == Len9To16_128(b, secret, seed) {
      Keys9To16Injective128(a, b, secret, seed);
    }
  }

  /** No two keys of one length up to 16 share a 128-bit hash, whatever the
      secret and the seed; up to 8 bytes the 64-bit hash already tells them
      apart. */
  lemma ShortKeysDistinct(a: bytes, b: bytes, secret: bytes, seed: u64)
    requires |a| == |b| <= 16 && |secret| >= 136 && a != b
    ensures Short128(a, secret, seed) != Short128(b, secret, seed)
    ensures |a| <= 8 ==> Short64(a, secret, seed) != Short64(b, secret, seed)
  {
    hide Short64, Short128;
    if |a| <= 3 {
      ShortestKeysDistinct64(a, b, secret, seed);
      ShortestKeysDistinct128(a, b, secret, seed);
    } else if |a| <= 8 {
      Keys4To8Distinct64(a, b, secret, seed);
      Keys4To8Distinct128(a, b, secret, seed);
    } else {
      Keys9To16Distinct128(a, b, secret, seed);
    }
  }
}
