/** Values of machine words given as bit-vector literals, so that the operators
    of `Bits` can be computed on given words. */
module WordValues {
  import opened Bits
  import opened BitLemmas
  import opened Mixers
  import opened Mult128
  import opened Xxh3Short

  /* Bytes */

  function ByteValue(x: bv8): (n: nat)
    ensures n < 0x100
  {
    x as nat
  }

  function HalfByte(x: bv8): bv8 { x >> 1 }

  function LowBit(x: bv8): nat { if x & 1 == 1 then 1 else 0 }

  function XorBytes(x: bv8, y: bv8): bv8 { x ^ y }

  lemma HalfValue(x: bv8)
    ensures ByteValue(x) == 2 * ByteValue(HalfByte(x)) + LowBit(x) && LowBit(x) <= 1
  {
    LowValue(x);
  }

  lemma LowValue(x: bv8)
    ensures (x as nat) % 2 == LowBit(x)
  {
  }

  lemma XorParts(x: bv8, y: bv8)
    ensures HalfByte(XorBytes(x, y)) == XorBytes(HalfByte(x), HalfByte(y))
    ensures LowBit(XorBytes(x, y)) == if LowBit(x) == LowBit(y) then 0 else 1
  {
  }

  lemma XorOnce(a: nat, b: nat)
    ensures Xor(a, b) == 2 * Xor(a / 2, b / 2) + if a % 2 == b % 2 then 0 else 1
  {
  }

  lemma XorOfZeros(x: bv8, y: bv8)
    requires ByteValue(x) == ByteValue(y) == 0
    ensures Xor(ByteValue(x), ByteValue(y)) == ByteValue(XorBytes(x, y))
  {
  }

  lemma {:induction false} XorOfBytes(x: bv8, y: bv8, n: nat)
    requires ByteValue(x) < n && ByteValue(y) < n
    ensures Xor(ByteValue(x), ByteValue(y)) == ByteValue(XorBytes(x, y))
    decreases n
  {
    hide Xor, ByteValue, HalfByte, XorBytes, LowBit;
    if ByteValue(x) == 0 && ByteValue(y) == 0 {
      XorOfZeros(x, y);
    } else {
      HalfValue(x);
      HalfValue(y);
      HalfValue(XorBytes(x, y));
      XorOfBytes(HalfByte(x), HalfByte(y), n - 1);
      XorParts(x, y);
      XorOnce(ByteValue(x), ByteValue(y));
    }
  }

  /* Words */

  /** Byte i of a word. */
  function ByteOf(x: bv64, i: nat): bv8
    requires i < 8
  {
    match i
    case 0 => (x & 0xFF) as bv8
    case 1 => ((x >> 8) & 0xFF) as bv8
    case 2 => ((x >> 16) & 0xFF) as bv8
    case 3 => ((x >> 24) & 0xFF) as bv8
    case 4 => ((x >> 32) & 0xFF) as bv8
    case 5 => ((x >> 40) & 0xFF) as bv8
    case 6 => ((x >> 48) & 0xFF) as bv8
    case _ => ((x >> 56) & 0xFF) as bv8
  }

  function Half(b0: u8, b1: u8, b2: u8, b3: u8): u32 {
    b0 as int + 0x100 * (b1 as int + 0x100 * (b2 as int + 0x100 * b3 as int))
  }

  function Part(x: bv64, i: nat): u8
    requires i < 8
  {
    ByteValue(ByteOf(x, i))
  }

  function Bytewise(x: bv64): nat {
    ((x & 0xFF) as bv8) as nat
    + 0x100 * (((x >> 8) & 0xFF) as bv8) as nat
    + 0x1_0000 * (((x >> 16) & 0xFF) as bv8) as nat
    + 0x100_0000 * (((x >> 24) & 0xFF) as bv8) as nat
    + 0x1_0000_0000 * (((x >> 32) & 0xFF) as bv8) as nat
    + 0x100_0000_0000 * (((x >> 40) & 0xFF) as bv8) as nat
    + 0x1_0000_0000_0000 * (((x >> 48) & 0xFF) as bv8) as nat
    + 0x100_0000_0000_0000 * (((x >> 56) & 0xFF) as bv8) as nat
  }

  lemma ByPart(x: bv64)
    ensures Bytewise(x)
         == Half(Part(x, 0), Part(x, 1), Part(x, 2), Part(x, 3)) as int
            + 0x1_0000_0000 * Half(Part(x, 4), Part(x, 5), Part(x, 6), Part(x, 7)) as int
  {
  }

  function Value(x: bv64): u64 {
    ByPart(x);
    Bytewise(x)
  }

  lemma XorByteOf(x: bv64, y: bv64, i: nat)
    requires i < 8
    ensures Xor(Part(x, i), Part(y, i)) == Part(x ^ y, i)
  {
    hide Xor, ByteValue;
    ByteOfXor(x, y, i);
    XorOfBytes(ByteOf(x, i), ByteOf(y, i), 0x100);
  }

  lemma ByteOfXor(x: bv64, y: bv64, i: nat)
    requires i < 8
    ensures ByteOf(x ^ y, i) == XorBytes(ByteOf(x, i), ByteOf(y, i))
  {
    match i
    case 0 =>
    case 1 =>
    case 2 =>
    case 3 =>
    case 4 =>
    case 5 =>
    case 6 =>
    case _ =>
  }

  lemma {:induction false} XorJoin(p: nat, a: nat, q: nat, b: nat, k: nat)
    requires p < Pow2(k) && q < Pow2(k)
    ensures Xor(p + Pow2(k) * a, q + Pow2(k) * b) == Xor(p, q) + Pow2(k) * Xor(a, b)
  {
    if k == 0 {
      XorNone(p, q);
    } else {
      var h := Pow2(k - 1);
      XorJoin(p / 2, a, q / 2, b, k - 1);
      XorJoinOnce(p, a, q, b, h);
    }
  }

  lemma XorNone(p: nat, q: nat)
    requires p == q == 0
    ensures Xor(p, q) == 0
  {
  }

  lemma XorJoinOnce(p: nat, a: nat, q: nat, b: nat, h: nat)
    requires Xor(p / 2 + h * a, q / 2 + h * b) == Xor(p / 2, q / 2) + h * Xor(a, b)
    ensures Xor(p + 2 * h * a, q + 2 * h * b) == Xor(p, q) + 2 * h * Xor(a, b)
  {
    hide Xor;
    Halves(p, a, h);
    Halves(q, b, h);
    XorOnce(p, q);
    XorOnce(p + 2 * h * a, q + 2 * h * b);
    Doubled(h, Xor(a, b));
  }

  lemma Halves(p: nat, a: nat, h: nat)
    ensures 2 * h * a >= 0 && (p + 2 * h * a) / 2 == p / 2 + h * a && (p + 2 * h * a) % 2 == p % 2
  {
    assert 2 * h * a == 2 * (h * a);
  }

  lemma Doubled(h: nat, x: nat)
    ensures 2 * (h * x) == 2 * h * x
  {
  }

  /** A low byte and the rest. */
  lemma XorAbove(p: u8, a: nat, q: u8, b: nat)
    ensures Xor(p as int + 0x100 * a, q as int + 0x100 * b) == Xor(p, q) + 0x100 * Xor(a, b)
  {
    hide Xor, Pow2;
    Pow2Zero();
    Pow2Doubled(0);
    XorJoin(p, a, q, b, 8);
  }

  lemma XorOfHalf(a0: u8, a1: u8, a2: u8, a3: u8, b0: u8, b1: u8, b2: u8, b3: u8, c0: u8, c1: u8, c2: u8, c3: u8)
    requires Xor(a0, b0) == c0 && Xor(a1, b1) == c1 && Xor(a2, b2) == c2 && Xor(a3, b3) == c3
    ensures Xor(Half(a0, a1, a2, a3), Half(b0, b1, b2, b3)) == Half(c0, c1, c2, c3)
  {
    hide Xor;
    XorAbove(a2, a3, b2, b3);
    XorAbove(a1, a2 as int + 0x100 * a3 as int, b1, b2 as int + 0x100 * b3 as int);
    XorAbove(a0, a1 as int + 0x100 * (a2 as int + 0x100 * a3 as int),
             b0, b1 as int + 0x100 * (b2 as int + 0x100 * b3 as int));
  }

  lemma XorOfHalves(a: u32, c: u32, b: u32, d: u32)
    ensures Xor(a as int + 0x1_0000_0000 * c as int, b as int + 0x1_0000_0000 * d as int)
         == Xor(a, b) + 0x1_0000_0000 * Xor(c, d)
  {
    hide Xor, Pow2;
    Pow2Values();
    XorJoin(a, c, b, d, 32);
  }

  lemma XorOf(x: bv64, y: bv64)
    ensures Xor64(Value(x), Value(y)) == Value(x ^ y)
  {
    hide Bytewise, Part, Xor, Half;
    var z := x ^ y;
    ByPart(x);
    ByPart(y);
    ByPart(z);
    forall i: nat | i < 8 ensures Xor(Part(x, i), Part(y, i)) == Part(z, i) {
      XorByteOf(x, y, i);
    }
    XorOfHalf(Part(x, 0), Part(x, 1), Part(x, 2), Part(x, 3), Part(y, 0), Part(y, 1), Part(y, 2), Part(y, 3),
              Part(z, 0), Part(z, 1), Part(z, 2), Part(z, 3));
    XorOfHalf(Part(x, 4), Part(x, 5), Part(x, 6), Part(x, 7), Part(y, 4), Part(y, 5), Part(y, 6), Part(y, 7),
              Part(z, 4), Part(z, 5), Part(z, 6), Part(z, 7));
    XorOfHalves(Half(Part(x, 0), Part(x, 1), Part(x, 2), Part(x, 3)),
                Half(Part(x, 4), Part(x, 5), Part(x, 6), Part(x, 7)),
                Half(Part(y, 0), Part(y, 1), Part(y, 2), Part(y, 3)),
                Half(Part(y, 4), Part(y, 5), Part(y, 6), Part(y, 7)));
  }

  /* Operators on given words */

  /** The quotient q shows what is left of a word after a shift. */
  lemma ShrIs(a: nat, k: nat, p: nat, q: nat)
    requires p == Pow2(k) && q * p <= a < q * p + p
    ensures Shr(a, k) == q
  {
    hide Shr, Shl, Pow2;
    var r := Shr(a, k);
    ShrSplit(a, k);
    ShlByPow(r, k);
    SameQuotient(a, p, q, r);
  }

  lemma SameQuotient(a: nat, p: nat, q: nat, r: nat)
    requires q * p <= a < q * p + p && r * p <= a < r * p + p
    ensures q == r
  {
    if q < r {
      Bigger(q, r, p);
    } else if r < q {
      Bigger(r, q, p);
    }
  }

  lemma Bigger(q: nat, r: nat, p: nat)
    requires q < r
    ensures q * p + p <= r * p
  {
    AtLeast(r - q, p);
    assert (r - q) * p == r * p - q * p;
  }

  /** s is x without its digits below the power of two p. */
  predicate Drops(x: bv64, p: nat, s: bv64) { Value(s) * p <= Value(x) < Value(s) * p + p }

  lemma DropIs(x: bv64, k: nat, p: nat, s: bv64)
    requires p == Pow2(k) && Drops(x, p, s)
    ensures Shr64(Value(x), k) == Value(s)
  {
    hide Value, Pow2, Shr;
    ShrIs(Value(x), k, p, Value(s));
  }

  lemma XorShiftIs(x: bv64, k: nat, p: nat, s: bv64)
    requires p == Pow2(k) && Drops(x, p, s)
    ensures XorShift64(Value(x), k) == Value(x ^ s)
  {
    hide Value, Pow2, Xor64, Shr;
    ShrIs(Value(x), k, p, Value(s));
    XorOf(x, s);
  }

  lemma {:induction false} PowerSum(j: nat, k: nat)
    ensures Pow2(j + k) == Pow2(j) * Pow2(k)
  {
    if k != 0 {
      PowerSum(j, k - 1);
      assert Pow2(j) * (2 * Pow2(k - 1)) == 2 * (Pow2(j) * Pow2(k - 1));
    }
  }

  lemma SmallPowers()
    ensures Pow2(1) == 2 && Pow2(2) == 4 && Pow2(3) == 8 && Pow2(4) == 16
    ensures Pow2(5) == 32 && Pow2(6) == 64 && Pow2(7) == 128
  {
    assert Pow2(1) == 2;
    assert Pow2(2) == 4;
    assert Pow2(3) == 8;
    assert Pow2(4) == 16;
    assert Pow2(5) == 32;
    assert Pow2(6) == 64;
  }

  lemma BytePowers()
    ensures Pow2(8) == 0x100 && Pow2(16) == 0x1_0000 && Pow2(24) == 0x100_0000
    ensures Pow2(32) == 0x1_0000_0000 && Pow2(40) == 0x100_0000_0000 && Pow2(48) == 0x1_0000_0000_0000
    ensures Pow2(56) == 0x100_0000_0000_0000
  {
    hide Pow2;
    Pow2Zero();
    Pow2Doubled(0);
    Pow2Doubled(8);
    Pow2Doubled(16);
    Pow2Doubled(24);
    Pow2Doubled(32);
    Pow2Doubled(40);
    Pow2Doubled(48);
  }

  /** 2^k for k = 8 * i + j, where b = 2^(8 * i) and c = 2^j. */
  lemma PowerIs(i: nat, j: nat, b: nat, c: nat)
    requires Pow2(8 * i) == b && Pow2(j) == c
    ensures Pow2(8 * i + j) == b * c
  {
    PowerSum(8 * i, j);
  }

  /** The shifts of the mixers. */
  lemma ShiftPowers()
    ensures Pow2(28) == 0x1000_0000 && Pow2(29) == 0x2000_0000 && Pow2(33) == 0x2_0000_0000
    ensures Pow2(35) == 0x8_0000_0000 && Pow2(37) == 0x20_0000_0000 && Pow2(47) == 0x8000_0000_0000
    ensures Pow2(13) == 0x2000 && Pow2(15) == 0x8000 && Pow2(32) == 0x1_0000_0000 && Pow2(16) == 0x1_0000
  {
    hide Pow2;
    SmallPowers();
    BytePowers();
    PowerIs(1, 5, 0x100, 32);
    PowerIs(1, 7, 0x100, 128);
    PowerIs(3, 4, 0x100_0000, 16);
    PowerIs(3, 5, 0x100_0000, 32);
    PowerIs(4, 1, 0x1_0000_0000, 2);
    PowerIs(4, 3, 0x1_0000_0000, 8);
    PowerIs(4, 5, 0x1_0000_0000, 32);
    PowerIs(5, 7, 0x100_0000_0000, 128);
  }

  /** Of h, where s is h >> 37, y the product and t its upper half. */
  lemma AvalancheIs(h: bv64, s: bv64, y: bv64, t: bv64)
    requires Drops(h, 0x20_0000_0000, s) && Drops(y, 0x1_0000_0000, t)
    requires Mul64(Value(h ^ s), PRIME_MX1) == Value(y)
    ensures Xxh3Avalanche(Value(h)) == Value(y ^ t)
  {
    hide Value, Drops, Pow2, XorShift64, Mul64;
    ShiftPowers();
    XorShiftIs(h, 37, 0x20_0000_0000, s);
    XorShiftIs(y, 32, 0x1_0000_0000, t);
  }

  lemma Avalanche64Is(h: bv64, s: bv64, y: bv64, t: bv64, z: bv64, u: bv64)
    requires Drops(h, 0x2_0000_0000, s) && Drops(y, 0x2000_0000, t) && Drops(z, 0x1_0000_0000, u)
    requires Mul64(Value(h ^ s), PRIME64_2) == Value(y) && Mul64(Value(y ^ t), PRIME64_3) == Value(z)
    ensures Xxh64Avalanche(Value(h)) == Value(z ^ u)
  {
    hide Value, Drops, Pow2, XorShift64, Mul64;
    ShiftPowers();
    XorShiftIs(h, 33, 0x2_0000_0000, s);
    XorShiftIs(y, 29, 0x2000_0000, t);
    XorShiftIs(z, 32, 0x1_0000_0000, u);
  }

  predicate Fits32(x: bv64) { Value(x) < 0x1_0000_0000 }

  lemma Xor32Of(x: bv64, y: bv64)
    requires Fits32(x) && Fits32(y)
    ensures Fits32(x ^ y) && Xor32(Value(x), Value(y)) == Value(x ^ y)
  {
    hide Value, Xor;
    XorOf(x, y);
    assert Xor32(Value(x), Value(y)) == Xor64(Value(x), Value(y));
  }

  lemma XorShift32Is(x: bv64, k: nat, p: nat, s: bv64)
    requires p == Pow2(k) && Drops(x, p, s) && Fits32(x) && Fits32(s)
    ensures Fits32(x ^ s) && XorShift32(Value(x), k) == Value(x ^ s)
  {
    hide Value, Pow2, Xor32, Shr;
    ShrIs(Value(x), k, p, Value(s));
    Xor32Of(x, s);
  }

  predicate Multiplies32(x: bv64, prime: u32, y: bv64) {
    Fits32(x) && Fits32(y) && Mul32(Value(x), prime) == Value(y)
  }

  lemma Avalanche32Is(h: bv64, s: bv64, y: bv64, t: bv64, z: bv64, u: bv64)
    requires Fits32(h) && Fits32(s) && Fits32(t) && Fits32(u)
    requires Drops(h, 0x8000, s) && Drops(y, 0x2000, t) && Drops(z, 0x1_0000, u)
    requires Multiplies32(h ^ s, PRIME32_2, y) && Multiplies32(y ^ t, PRIME32_3, z)
    ensures Fits32(z ^ u) && Xxh32Avalanche(Value(h)) == Value(z ^ u)
  {
    hide Value, Drops, Pow2, XorShift32, Mul32;
    ShiftPowers();
    XorShift32Is(h, 15, 0x8000, s);
    XorShift32Is(y, 13, 0x2000, t);
    XorShift32Is(z, 16, 0x1_0000, u);
  }

  /* Rotations and byte swaps */

  lemma RotationPowers()
    ensures Pow2(49) == 0x2_0000_0000_0000 && Pow2(15) == 0x8000 && Pow2(24) == 0x100_0000
    ensures Pow2(40) == 0x100_0000_0000 && Pow2(54) == 0x40_0000_0000_0000
    ensures Pow2(13) == 0x2000 && Pow2(19) == 0x8_0000
  {
    hide Pow2;
    SmallPowers();
    BytePowers();
    ShiftPowers();
    PowerIs(6, 1, 0x1_0000_0000_0000, 2);
    PowerIs(6, 6, 0x1_0000_0000_0000, 64);
    PowerIs(2, 3, 0x1_0000, 8);
  }

  /** The r upper digits hi of a word change places with the others. */
  lemma Rotl64Is(a: u64, r: nat, p: nat, q: nat, hi: nat, lo: nat)
    requires 0 < r < 64 && p == Pow2(r) && q == Pow2(64 - r) && p * q == 0x1_0000_0000_0000_0000
    requires a as int == hi * q + lo && lo < q && hi < p
    ensures Rotl64(a, r) as int == lo * p + hi
  {
    hide Pow2, Shl, Shr, Or;
    ShrIs(a, 64 - r, q, hi);
    ShlByPow(a, r);
    ShlByPow(lo, r);
    RotatedLow(p, q, 0x1_0000_0000_0000_0000, hi, lo);
    OrDisjoint(lo, r, hi);
  }

  lemma Rotl32Is(a: u32, r: nat, p: nat, q: nat, hi: nat, lo: nat)
    requires 0 < r < 32 && p == Pow2(r) && q == Pow2(32 - r) && p * q == 0x1_0000_0000
    requires a as int == hi * q + lo && lo < q && hi < p
    ensures Rotl32(a, r) as int == lo * p + hi
  {
    hide Pow2, Shl, Shr, Or;
    ShrIs(a, 32 - r, q, hi);
    ShlByPow(a, r);
    ShlByPow(lo, r);
    RotatedLow(p, q, 0x1_0000_0000, hi, lo);
    OrDisjoint(lo, r, hi);
  }

  lemma RotatedLow(p: nat, q: nat, m: nat, hi: nat, lo: nat)
    requires p * q == m && lo < q && p > 0 && m > 0
    ensures ((hi * q + lo) * p) % m == lo * p
  {
    Distributed(hi, lo, p, q);
    Bigger(lo, q, p);
    assert p * q == q * p;
    RemainderOf(hi, m, lo * p);
  }

  lemma Distributed(hi: nat, lo: nat, p: nat, q: nat)
    ensures (hi * q + lo) * p == hi * (p * q) + lo * p
  {
  }

  lemma RemainderOf(k: nat, m: nat, x: nat)
    requires x < m
    ensures (k * m + x) % m == x
  {
    var d := (k * m + x) / m - k;
    assert (k * m + x) == ((k * m + x) / m) * m + (k * m + x) % m;
    assert d * m == ((k * m + x) / m) * m - k * m;
    MultipleOf(x - (k * m + x) % m, d, m);
  }

  lemma Swap32Is(b0: u8, b1: u8, b2: u8, b3: u8)
    ensures Swap32(Half(b0, b1, b2, b3)) == Half(b3, b2, b1, b0)
  {
    var b := Bytes32(Half(b0, b1, b2, b3));
    hide Bytes32;
    SameBytes(b[0], b[1], b[2], b[3], b0, b1, b2, b3);
  }

  lemma Swap64Is(b0: u8, b1: u8, b2: u8, b3: u8, b4: u8, b5: u8, b6: u8, b7: u8, a: u64)
    requires a as int == Half(b0, b1, b2, b3) as int + 0x1_0000_0000 * Half(b4, b5, b6, b7) as int
    ensures Swap64(a) as int == Half(b7, b6, b5, b4) as int + 0x1_0000_0000 * Half(b3, b2, b1, b0) as int
  {
    hide Half, Swap32;
    Swap32Is(b0, b1, b2, b3);
    Swap32Is(b4, b5, b6, b7);
    SameHalves(Low32(a), High32(a), Half(b0, b1, b2, b3), Half(b4, b5, b6, b7));
  }

  lemma Shl64Is(a: u64, k: nat, p: nat)
    requires p == Pow2(k)
    ensures Shl64(a, k) as int == (a as int * p) % 0x1_0000_0000_0000_0000
  {
    hide Pow2, Shl;
    ShlByPow(a, k);
  }

  lemma RotateMixIs(h: bv64, f: bv64, g: bv64)
    requires Rotl64(Value(h), 49) == Value(f) && Rotl64(Value(h), 24) == Value(g)
    ensures RotateMix(Value(h)) == Value(h ^ (f ^ g))
  {
    hide Value, Rotl64, Xor64;
    XorOf(f, g);
    XorOf(h, f ^ g);
  }

  lemma LengthMixIs(y: bv64, len: u64, s: bv64, t: bv64)
    requires Drops(y, 0x8_0000_0000, s) && Add64(Value(s), len) == Value(t)
    ensures LengthMix(Value(y), len) == Value(y ^ t)
  {
    hide Value, Drops, Pow2, Add64, Xor64, Shr64;
    ShiftPowers();
    DropIs(y, 35, 0x8_0000_0000, s);
    XorOf(y, t);
  }

  /** The product of a and b has the words lo and hi. */
  lemma FoldIs(a: u64, b: u64, lo: bv64, hi: bv64)
    requires a as int * b as int == Value(lo) as int + 0x1_0000_0000_0000_0000 * Value(hi) as int
    ensures MulFold64(a, b) == Value(lo ^ hi)
  {
    hide Value, Mult64To128, Xor64;
    Mult64To128Exact(a, b);
    XorOf(lo, hi);
    Mult128Is(a, b, Value(lo), Value(hi));
  }

  lemma Mult128Is(a: u64, b: u64, lo: u64, hi: u64)
    requires a as int * b as int == lo as int + 0x1_0000_0000_0000_0000 * hi as int
    ensures Mult64To128(a, b) == Hash128(lo, hi)
  {
    hide Mult64To128;
    Mult64To128Exact(a, b);
  }

  /** Two input words x0 and x1 keyed with k0 and k1 are a and b. */
  lemma MixIs(input: bytes, at: nat, secret: bytes, off: nat, seed: u64, x0: bv64, x1: bv64, k0: bv64, k1: bv64,
              a: u64, b: u64, lo: bv64, hi: bv64)
    requires at + 16 <= |input| && off + 16 <= |secret|
    requires Read64(input, at) == Value(x0) && Read64(input, at + 8) == Value(x1)
    requires Add64(Read64(secret, off), seed) == Value(k0) && Sub64(Read64(secret, off + 8), seed) == Value(k1)
    requires a == Value(x0 ^ k0) && b == Value(x1 ^ k1)
    requires a as int * b as int == Value(lo) as int + 0x1_0000_0000_0000_0000 * Value(hi) as int
    ensures Mix16B(input, at, secret, off, seed) == Value(lo ^ hi)
  {
    hide Value, MulFold64, Xor64, Add64, Sub64;
    XorOf(x0, k0);
    XorOf(x1, k1);
    FoldIs(a, b, lo, hi);
  }

  /* Words in memory */

  lemma BytesOfWord(b: bytes, at: nat, w: bv64)
    requires at + 8 <= |b| && Read64(b, at) == Value(w)
    ensures forall i: nat :: i < 8 ==> b[at + i] == Part(w, i)
  {
    hide Bytewise, Part;
    ByPart(w);
    BytesAre(b, at, Part(w, 0), Part(w, 1), Part(w, 2), Part(w, 3), Part(w, 4), Part(w, 5), Part(w, 6), Part(w, 7));
  }

  lemma BytesAre(b: bytes, at: nat, b0: u8, b1: u8, b2: u8, b3: u8, b4: u8, b5: u8, b6: u8, b7: u8)
    requires at + 8 <= |b|
    requires Read64(b, at) as int == Half(b0, b1, b2, b3) as int + 0x1_0000_0000 * Half(b4, b5, b6, b7) as int
    ensures b[at..at + 8] == [b0, b1, b2, b3, b4, b5, b6, b7]
    ensures b[at] == b0 && b[at + 1] == b1 && b[at + 2] == b2 && b[at + 3] == b3
    ensures b[at + 4] == b4 && b[at + 5] == b5 && b[at + 6] == b6 && b[at + 7] == b7
  {
    SameHalves(Read32(b, at), Read32(b, at + 4), Half(b0, b1, b2, b3), Half(b4, b5, b6, b7));
    SameBytes(b[at], b[at + 1], b[at + 2], b[at + 3], b0, b1, b2, b3);
    SameBytes(b[at + 4], b[at + 5], b[at + 6], b[at + 7], b4, b5, b6, b7);
  }

  lemma HalvesOf(b: bytes, at: nat, lo: u32, hi: u32)
    requires at + 8 <= |b| && Read64(b, at) as int == lo as int + 0x1_0000_0000 * hi as int
    ensures Read32(b, at) == lo && Read32(b, at + 4) == hi
  {
    hide Read32;
    SameHalves(Read32(b, at), Read32(b, at + 4), lo, hi);
  }

  lemma SameHalves(a: u32, b: u32, c: u32, d: u32)
    requires a as int + 0x1_0000_0000 * b as int == c as int + 0x1_0000_0000 * d as int
    ensures a == c && b == d
  {
  }

  lemma SameBytes(a0: u8, a1: u8, a2: u8, a3: u8, b0: u8, b1: u8, b2: u8, b3: u8)
    requires Half(a0, a1, a2, a3) == Half(b0, b1, b2, b3)
    ensures a0 == b0 && a1 == b1 && a2 == b2 && a3 == b3
  {
    assert a3 == b3;
    assert a2 == b2;
    assert a1 == b1;
  }

  /** The word that starts s bytes into x and ends in y. */
  function Across(x: bv64, y: bv64, s: nat): bv64
    requires s == 1 || s == 3 || s == 5 || s == 7
  {
    match s
    case 1 => (x >> 8) | (y << 56)
    case 3 => (x >> 24) | (y << 40)
    case 5 => (x >> 40) | (y << 24)
    case _ => (x >> 56) | (y << 8)
  }

  lemma Across1(x: bv64, y: bv64, i: nat)
    requires i < 8
    ensures ByteOf((x >> 8) | (y << 56), i) == if i < 7 then ByteOf(x, i + 1) else ByteOf(y, i - 7)
  {
    match i
    case 0 => case 1 => case 2 => case 3 => case 4 => case 5 => case 6 => case _ =>
  }

  lemma Across3(x: bv64, y: bv64, i: nat)
    requires i < 8
    ensures ByteOf((x >> 24) | (y << 40), i) == if i < 5 then ByteOf(x, i + 3) else ByteOf(y, i - 5)
  {
    match i
    case 0 => case 1 => case 2 => case 3 => case 4 => case 5 => case 6 => case _ =>
  }

  lemma Across5(x: bv64, y: bv64, i: nat)
    requires i < 8
    ensures ByteOf((x >> 40) | (y << 24), i) == if i < 3 then ByteOf(x, i + 5) else ByteOf(y, i - 3)
  {
    match i
    case 0 => case 1 => case 2 => case 3 => case 4 => case 5 => case 6 => case _ =>
  }

  lemma Across7(x: bv64, y: bv64, i: nat)
    requires i < 8
    ensures ByteOf((x >> 56) | (y << 8), i) == if i < 1 then ByteOf(x, i + 7) else ByteOf(y, i - 1)
  {
    match i
    case 0 => case 1 => case 2 => case 3 => case 4 => case 5 => case 6 => case _ =>
  }

  lemma AcrossByte(x: bv64, y: bv64, s: nat, i: nat)
    requires (s == 1 || s == 3 || s == 5 || s == 7) && i < 8
    ensures ByteOf(Across(x, y, s), i) == if s + i < 8 then ByteOf(x, s + i) else ByteOf(y, s + i - 8)
  {
    hide ByteOf;
    match s
    case 1 => Across1(x, y, i);
    case 3 => Across3(x, y, i);
    case 5 => Across5(x, y, i);
    case _ => Across7(x, y, i);
  }

  lemma ReadAcross(b: bytes, at: nat, x: bv64, y: bv64, s: nat)
    requires at + 16 <= |b| && Read64(b, at) == Value(x) && Read64(b, at + 8) == Value(y)
    requires s == 1 || s == 3 || s == 5 || s == 7
    ensures Read64(b, at + s) == Value(Across(x, y, s))
  {
    hide Bytewise, Part, Across, Value;
    BytesOfWord(b, at, x);
    BytesOfWord(b, at + 8, y);
    var z := Across(x, y, s);
    forall i: nat | i < 8 ensures b[at + s + i] == Part(z, i) {
      PartAcross(x, y, s, i);
      assert s + i >= 8 ==> b[at + 8 + (s + i - 8)] == Part(y, s + i - 8);
    }
    WordOfBytes(b, at + s, z);
  }

  lemma PartAcross(x: bv64, y: bv64, s: nat, i: nat)
    requires (s == 1 || s == 3 || s == 5 || s == 7) && i < 8
    ensures Part(Across(x, y, s), i) == if s + i < 8 then Part(x, s + i) else Part(y, s + i - 8)
  {
    hide ByteOf, Across;
    AcrossByte(x, y, s, i);
  }

  lemma WordOfBytes(b: bytes, at: nat, w: bv64)
    requires at + 8 <= |b| && forall i: nat :: i < 8 ==> b[at + i] == Part(w, i)
    ensures Read64(b, at) == Value(w)
  {
    hide Bytewise, Part;
    ByPart(w);
    assert b[at + 0] == Part(w, 0) && b[at + 1] == Part(w, 1) && b[at + 2] == Part(w, 2) && b[at + 3] == Part(w, 3);
    assert b[at + 4] == Part(w, 4) && b[at + 5] == Part(w, 5) && b[at + 6] == Part(w, 6) && b[at + 7] == Part(w, 7);
  }
}
