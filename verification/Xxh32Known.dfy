/** XXH32 of the empty input and of 31 bytes, in numbers. */
module Xxh32Known {
  import opened Bits
  import opened Mixers
  import opened WordValues
  import opened Xxh3Words
  import opened Xxh32

  lemma XxhPowers()
    ensures Pow2(1) == 0x2
    ensures Pow2(7) == 0x80
    ensures Pow2(11) == 0x800
    ensures Pow2(12) == 0x1000
    ensures Pow2(13) == 0x2000
    ensures Pow2(14) == 0x4000
    ensures Pow2(15) == 0x8000
    ensures Pow2(17) == 0x20000
    ensures Pow2(18) == 0x40000
    ensures Pow2(19) == 0x80000
    ensures Pow2(20) == 0x100000
    ensures Pow2(21) == 0x200000
    ensures Pow2(25) == 0x2000000
    ensures Pow2(31) == 0x80000000
  {
    hide Pow2;
    SmallPowers();
    BytePowers();
    PowerIs(1, 3, 0x100, 8);
    PowerIs(1, 4, 0x100, 16);
    PowerIs(1, 5, 0x100, 32);
    PowerIs(1, 6, 0x100, 64);
    PowerIs(1, 7, 0x100, 128);
    PowerIs(2, 1, 0x10000, 2);
    PowerIs(2, 2, 0x10000, 4);
    PowerIs(2, 3, 0x10000, 8);
    PowerIs(2, 4, 0x10000, 16);
    PowerIs(2, 5, 0x10000, 32);
    PowerIs(3, 1, 0x1000000, 2);
    PowerIs(3, 7, 0x1000000, 128);
  }

  lemma Ramp31Rounds()
    ensures Xxh32Round(0x24234428, 0x3020100) == 0xf817bccb
    ensures Xxh32Round(0x85ebca77, 0x7060504) == 0x222719b
    ensures Xxh32Round(0x0, 0xb0a0908) == 0xd4b0c0a4
    ensures Xxh32Round(0x61c8864f, 0xf0e0d0c) == 0xdebb7574
  {
    hide Rotl32, Pow2;
    XxhPowers();
    Rotl32Is(0x9dbbb28, 13, 0x2000, 0x80000, 0x13b, 0x3bb28);
    RoundIs(0x24234428, 0x3020100, 0xe5b87700, 0x9dbbb28, 0x7765013b, 0xf817bccb);
    Rotl32Is(0x38594753, 13, 0x2000, 0x80000, 0x70b, 0x14753);
    RoundIs(0x85ebca77, 0x7060504, 0xb26d7cdc, 0x38594753, 0x28ea670b, 0x222719b);
    Rotl32Is(0x7f2282b8, 13, 0x2000, 0x80000, 0xfe4, 0x282b8);
    RoundIs(0x0, 0xb0a0908, 0x7f2282b8, 0x7f2282b8, 0x50570fe4, 0xd4b0c0a4);
    Rotl32Is(0xada00ee3, 13, 0x2000, 0x80000, 0x15b4, 0xee3);
    RoundIs(0x61c8864f, 0xf0e0d0c, 0x4bd78894, 0xada00ee3, 0x1dc75b4, 0xdebb7574);
  }

  lemma Ramp31Converged()
    ensures Converge([0xf817bccb, 0x222719b, 0xd4b0c0a4, 0xdebb7574]) == 0xe3460f50
  {
    hide Rotl32, Pow2;
    XxhPowers();
    Rotl32Is(0xf817bccb, 1, 0x2, 0x80000000, 0x1, 0x7817bccb);
    Rotl32Is(0x222719b, 7, 0x80, 0x2000000, 0x1, 0x22719b);
    Rotl32Is(0xd4b0c0a4, 12, 0x1000, 0x100000, 0xd4b, 0xc0a4);
    Rotl32Is(0xdebb7574, 18, 0x40000, 0x4000, 0x37aed, 0x3574);
  }

  lemma Ramp31Tail()
    ensures Process4(0xe3460f6f, 0x13121110) == 0x781b3446
    ensures Process4(0x781b3446, 0x17161514) == 0x4328355d
    ensures Process4(0x4328355d, 0x1b1a1918) == 0xff8ada33
    ensures Process1(0xff8ada33, 0x1c) == 0x44853757
    ensures Process1(0x44853757, 0x1d) == 0x2b0fdbc2
    ensures Process1(0x2b0fdbc2, 0x1e) == 0x6c7fd979
  {
    hide Rotl32, Pow2;
    XxhPowers();
    Rotl32Is(0xb34d003f, 17, 0x20000, 0x8000, 0x1669a, 0x3f);
    Process4Is(0xe3460f6f, 0x13121110, 0xd006f0d0, 0xb34d003f, 0x7f669a, 0x781b3446);
    Rotl32Is(0xca99d20a, 17, 0x20000, 0x8000, 0x19533, 0x520a);
    Process4Is(0x781b3446, 0x17161514, 0x527e9dc4, 0xca99d20a, 0xa4159533, 0x4328355d);
    Rotl32Is(0x181e8015, 17, 0x20000, 0x8000, 0x303d, 0x15);
    Process4Is(0x4328355d, 0x1b1a1918, 0xd4f64ab8, 0x181e8015, 0x2a303d, 0xff8ada33);
    Rotl32Is(0x70fe318f, 11, 0x800, 0x200000, 0x387, 0x1e318f);
    Process1Is(0xff8ada33, 0x1c, 0x7173575c, 0x70fe318f, 0xf18c7b87, 0x44853757);
    Rotl32Is(0xcc4ef664, 11, 0x800, 0x200000, 0x662, 0xef664);
    Process1Is(0x44853757, 0x1d, 0x87c9bf0d, 0xcc4ef664, 0x77b32662, 0x2b0fdbc2);
    Rotl32Is(0xc9300280, 11, 0x800, 0x200000, 0x649, 0x100280);
    Process1Is(0x2b0fdbc2, 0x1e, 0x9e2026be, 0xc9300280, 0x80140649, 0x6c7fd979);
  }

  lemma Avalanches()
    ensures Xxh32Avalanche(0x6c7fd979) == 0xef24f709 && Xxh32Avalanche(0x165667b1) == 0x2cc5d05
  {
    hide Xxh32Avalanche;
    Avalanche32Is(0x6C7FD979, 0xD8FF, 0xAA3F714A, 0x551FB, 0xEF24182D, 0xEF24);
    Avalanche32Is(0x165667B1, 0x2CAC, 0x7E00CC7B, 0x3F006, 0x2CC5FC9, 0x2CC);
  }

  lemma RoundIs(a: u32, w: u32, m: u32, t: u32, s: u32, r: u32)
    requires Mul32(w, PRIME32_2) == m && Add32(a, m) == t && Rotl32(t, 13) == s && Mul32(s, PRIME32_1) == r
    ensures Xxh32Round(a, w) == r
  {
    hide Mul32, Add32, Rotl32;
  }

  lemma Process4Is(a: u32, w: u32, m: u32, t: u32, s: u32, r: u32)
    requires Mul32(w, PRIME32_3) == m && Add32(a, m) == t && Rotl32(t, 17) == s && Mul32(s, PRIME32_4) == r
    ensures Process4(a, w) == r
  {
    hide Mul32, Add32, Rotl32;
  }

  lemma Process1Is(a: u32, w: u8, m: u32, t: u32, s: u32, r: u32)
    requires Mul32(w, PRIME32_5) == m && Add32(a, m) == t && Rotl32(t, 11) == s && Mul32(s, PRIME32_1) == r
    ensures Process1(a, w) == r
  {
    hide Mul32, Add32, Rotl32;
  }

  lemma RampReads32(n: nat)
    requires n <= 0x100
    ensures forall at: nat :: at + 4 <= n ==> Read32(Ramp(n), at) as int == 0x03020100 + 0x01010101 * at
  {
    forall at: nat | at + 4 <= n ensures Read32(Ramp(n), at) as int == 0x03020100 + 0x01010101 * at {
    }
  }

  lemma FifteenBytes(h: u32, tail: bytes)
    requires |tail| == 15
    ensures Drain(h, tail)
         == Process1(Process1(Process1(Process4(Process4(Process4(h, Read32(tail, 0)), Read32(tail, 4)),
                                              Read32(tail, 8)), tail[12]), tail[13]), tail[14])
  {
    hide Process4, Process1;
    var h4 := Process4(h, Read32(tail, 0));
    var h8 := Process4(h4, Read32(tail, 4));
    var h12 := Process4(h8, Read32(tail, 8));
    assert Read32(tail[4..], 0) == Read32(tail, 4) && tail[4..][4..] == tail[8..];
    assert Read32(tail[8..], 0) == Read32(tail, 8) && tail[8..][4..] == tail[12..];
    assert Drain(h, tail) == Drain(h12, tail[12..]) by {
      assert Drain(h, tail) == Drain(h4, tail[4..]);
      assert Drain(h4, tail[4..]) == Drain(h8, tail[8..]);
    }
    var h13 := Process1(h12, tail[12]);
    assert tail[12..][0] == tail[12] && tail[12..][1..] == tail[13..];
    assert Drain(h12, tail[12..]) == Drain(h13, tail[13..]);
    var h14 := Process1(h13, tail[13]);
    assert tail[13..][0] == tail[13] && tail[13..][1..] == tail[14..];
    assert Drain(h13, tail[13..]) == Drain(h14, tail[14..]);
    assert tail[14..][0] == tail[14] && tail[14..][1..] == [];
    assert Drain(h14, tail[14..]) == Drain(Process1(h14, tail[14]), []);
  }

  lemma Ramp31Lanes()
    ensures Rounds(StartLanes(0), Ramp(31), 1) == [0xf817bccb, 0x222719b, 0xd4b0c0a4, 0xdebb7574]
  {
    hide Xxh32Round, Read32, Ramp;
    RampReads32(31);
    PartReads32(Ramp(31), 0, 16);
    Ramp31Rounds();
    assert StartLanes(0) == [0x24234428, 0x85ebca77, 0x0, 0x61c8864f];
    assert Rounds(StartLanes(0), Ramp(31), 0) == StartLanes(0);
    assert Stripe16(Ramp(31), 0) == Ramp(31)[0..16];
  }

  lemma PartReads32(b: bytes, from: nat, to: nat)
    requires from <= to <= |b|
    ensures forall at: nat :: at + 4 <= to - from ==> Read32(b[from..to], at) == Read32(b, from + at)
  {
    forall at: nat | at + 4 <= to - from ensures Read32(b[from..to], at) == Read32(b, from + at) {
      var s := b[from..to];
      assert s[at] == b[from + at] && s[at + 1] == b[from + at + 1];
      assert s[at + 2] == b[from + at + 2] && s[at + 3] == b[from + at + 3];
    }
  }

  lemma Ramp31Drained()
    ensures Drain(0xe3460f6f, Ramp(31)[16..]) == 0x6c7fd979
  {
    hide Process4, Process1, Read32, Drain;
    RampReads32(31);
    PartReads32(Ramp(31), 16, 31);
    assert Ramp(31)[16..] == Ramp(31)[16..31];
    Ramp31Tail();
    FifteenBytes(0xe3460f6f, Ramp(31)[16..]);
  }

  lemma Ramp31Known()
    ensures Hash(Ramp(31), 0) == 0xef24f709
  {
    hide Rounds, Converge, Drain, Xxh32Avalanche, Ramp, StartLanes;
    Ramp31Lanes();
    Ramp31Converged();
    Ramp31Drained();
    Avalanches();
    assert Add32(0xe3460f50, Length32(31)) == 0xe3460f6f;
  }

  lemma EmptyKnown()
    ensures Hash([], 0) == 0x2cc5d05
  {
    hide Xxh32Avalanche;
    Avalanches();
    assert Add32(Add32(0, PRIME32_5), Length32(0)) == 0x165667b1;
  }
}
