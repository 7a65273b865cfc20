/** The portable 64 x 64 -> 128 bit multiplication. */
module Mult128 {
  import opened Bits
  import opened BitLemmas

  datatype Hash128 = Hash128(low64: u64, high64: u64)

  function Value128(h: Hash128): nat { h.low64 as int + 0x1_0000_0000_0000_0000 * h.high64 as int }

  /** The product of two 32-bit halves, which always fits in 64 bits. */
  function Mult32To64(x: u64, y: u64): u64
  {
    HalvesFit(Low32(x), Low32(y));
    Low32(x) as int * Low32(y) as int
  }

  lemma HalvesFit(x: u32, y: u32)
    ensures 0 <= x as int * y as int <= 0xFFFF_FFFE_0000_0001
  {
    MulMonotone(x, 0xFFFF_FFFF, y);
    MulMonotone(y, 0xFFFF_FFFF, 0xFFFF_FFFF);
  }

  lemma MulMonotone(x: nat, bound: nat, y: nat)
    requires x <= bound
    ensures 0 <= x * y <= bound * y
  {
  }

  /** Grade-school multiplication on 32-bit digits. */
  function Mult64To128(lhs: u64, rhs: u64): Hash128
  {
    var loLo := Mult32To64(Low32(lhs), Low32(rhs));
    var hiLo := Mult32To64(High32(lhs), Low32(rhs));
    var loHi := Mult32To64(Low32(lhs), High32(rhs));
    var hiHi := Mult32To64(High32(lhs), High32(rhs));
    var cross := Add64(Add64(High32(loLo), Low32(hiLo)), loHi);
    var upper := Add64(Add64(High32(hiLo), High32(cross)), hiHi);
    var lower := Or64(Shl64(cross, 32), Low32(loLo));
    Hash128(lower, upper)
  }

  /** The multiplication is exact: no intermediate sum overflows, and the two
      result words together are the full product. */
  lemma Mult64To128Exact(lhs: u64, rhs: u64)
    ensures Value128(Mult64To128(lhs, rhs)) == lhs as int * rhs as int
  {
    hide Mult32To64;
    var a, b, c, d := Low32(lhs) as int, High32(lhs) as int, Low32(rhs) as int, High32(rhs) as int;
    var loLo, hiLo, loHi, hiHi :=
      Mult32To64(Low32(lhs), Low32(rhs)) as int, Mult32To64(High32(lhs), Low32(rhs)) as int,
      Mult32To64(Low32(lhs), High32(rhs)) as int, Mult32To64(High32(lhs), High32(rhs)) as int;
    ProductOfHalves(Low32(lhs), Low32(rhs));
    ProductOfHalves(High32(lhs), Low32(rhs));
    ProductOfHalves(Low32(lhs), High32(rhs));
    ProductOfHalves(High32(lhs), High32(rhs));
    assert lhs as int * rhs as int == loLo + 0x1_0000_0000 * (hiLo + loHi) + 0x1_0000_0000_0000_0000 * hiHi by {
      assert lhs as int == a + 0x1_0000_0000 * b && rhs as int == c + 0x1_0000_0000 * d;
      Expand(a, b, c, d);
    }
    ColumnSums(loLo, hiLo, loHi, hiHi);
  }

  lemma ProductOfLows(x: u64, y: u64)
    ensures Mult32To64(x, y) as int == Low32(x) as int * Low32(y) as int
  {
  }

  lemma ProductOfHalves(x: u32, y: u32)
    ensures Mult32To64(x, y) as int == x as int * y as int <= 0xFFFF_FFFE_0000_0001
  {
    HalvesFit(x, y);
  }

  lemma Expand(a: int, b: int, c: int, d: int)
    ensures (a + 0x1_0000_0000 * b) * (c + 0x1_0000_0000 * d)
         == a * c + 0x1_0000_0000 * (b * c + a * d) + 0x1_0000_0000_0000_0000 * (b * d)
  {
  }

  /** Adding the four partial products column by column. */
  lemma ColumnSums(loLo: u64, hiLo: u64, loHi: u64, hiHi: u64)
    requires loLo <= 0xFFFF_FFFE_0000_0001 && hiLo <= 0xFFFF_FFFE_0000_0001
    requires loHi <= 0xFFFF_FFFE_0000_0001 && hiHi <= 0xFFFF_FFFE_0000_0001
    ensures
      var cross := Add64(Add64(High32(loLo), Low32(hiLo)), loHi);
      var upper := Add64(Add64(High32(hiLo), High32(cross)), hiHi);
      var lower := Or64(Shl64(cross, 32), Low32(loLo));
      && lower as int + 0x1_0000_0000_0000_0000 * upper as int
         == loLo as int + 0x1_0000_0000 * (hiLo as int + loHi as int) + 0x1_0000_0000_0000_0000 * hiHi as int
  {
    hide Or64, Shl64, Add64;
    Carries(loLo, hiLo, loHi, hiHi);
    AddExact(High32(loLo), Low32(hiLo));
    AddExact(Add64(High32(loLo), Low32(hiLo)), loHi);
    var cross := Add64(Add64(High32(loLo), Low32(hiLo)), loHi);
    AddExact(High32(hiLo), High32(cross));
    AddExact(Add64(High32(hiLo), High32(cross)), hiHi);
    JoinHalves(cross, Low32(loLo));
  }

  lemma AddExact(a: u64, b: u64)
    requires a as int + b as int < 0x1_0000_0000_0000_0000
    ensures Add64(a, b) as int == a as int + b as int
  {
  }

  lemma Carries(loLo: int, hiLo: int, loHi: int, hiHi: int)
    requires 0 <= loLo <= 0xFFFF_FFFE_0000_0001 && 0 <= hiLo <= 0xFFFF_FFFE_0000_0001
    requires 0 <= loHi <= 0xFFFF_FFFE_0000_0001 && 0 <= hiHi <= 0xFFFF_FFFE_0000_0001
    ensures
      var cross := loLo / 0x1_0000_0000 + hiLo % 0x1_0000_0000 + loHi;
      var upper := hiLo / 0x1_0000_0000 + cross / 0x1_0000_0000 + hiHi;
      && 0 <= cross < 0x1_0000_0000_0000_0000
      && 0 <= upper < 0x1_0000_0000_0000_0000
      && 0x1_0000_0000 * (cross % 0x1_0000_0000) + loLo % 0x1_0000_0000 + 0x1_0000_0000_0000_0000 * upper
         == loLo + 0x1_0000_0000 * (hiLo + loHi) + 0x1_0000_0000_0000_0000 * hiHi
  {
  }

  /** `(high << 32) | low` for a 32-bit `low`. */
  lemma JoinHalves(high: u64, low: u32)
    ensures Or64(Shl64(high, 32), low) as int == 0x1_0000_0000 * Low32(high) as int + low as int
  {
    hide Shl, Or, Pow2;
    Pow2Values();
    ShlByPow(high, 32);
    ShlByPow(Low32(high), 32);
    assert Shl64(high, 32) == Shl(Low32(high), 32);
    OrDisjoint(Low32(high), 32, low);
  }

  lemma {:induction false} OrDisjoint(high: nat, k: nat, low: nat)
    requires low < Pow2(k)
    ensures Or(Shl(high, k), low) == Shl(high, k) + low
  {
    if k == 0 {
      OrZero(high);
    } else {
      var half := Shl(high, k - 1);
      OrDisjoint(high, k - 1, low / 2);
      assert (2 * half) / 2 == half;
      assert Or(2 * half, low) == 2 * Or(half, low / 2) + low % 2;
    }
  }

  lemma {:induction false} OrZero(a: nat)
    ensures Or(a, 0) == a
  {
    if a != 0 {
      OrZero(a / 2);
    }
  }
}
