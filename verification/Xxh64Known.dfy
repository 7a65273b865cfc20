/** XXH64 of the empty input and of 47 bytes, in numbers. */
module Xxh64Known {
  import opened Bits
  import opened Mixers
  import opened WordValues
  import opened Xxh3Words
  import opened Xxh64

  lemma XxhPowers()
    ensures Pow2(1) == 0x2
    ensures Pow2(7) == 0x80
    ensures Pow2(11) == 0x800
    ensures Pow2(12) == 0x1000
    ensures Pow2(18) == 0x40000
    ensures Pow2(23) == 0x800000
    ensures Pow2(27) == 0x8000000
    ensures Pow2(31) == 0x80000000
    ensures Pow2(33) == 0x200000000
    ensures Pow2(37) == 0x2000000000
    ensures Pow2(41) == 0x20000000000
    ensures Pow2(46) == 0x400000000000
    ensures Pow2(52) == 0x10000000000000
    ensures Pow2(53) == 0x20000000000000
    ensures Pow2(57) == 0x200000000000000
    ensures Pow2(63) == 0x8000000000000000
  {
    hide Pow2;
    SmallPowers();
    BytePowers();
    PowerIs(1, 3, 0x100, 8);
    PowerIs(1, 4, 0x100, 16);
    PowerIs(2, 2, 0x10000, 4);
    PowerIs(2, 7, 0x10000, 128);
    PowerIs(3, 3, 0x1000000, 8);
    PowerIs(3, 7, 0x1000000, 128);
    PowerIs(4, 1, 0x100000000, 2);
    PowerIs(4, 5, 0x100000000, 32);
    PowerIs(5, 1, 0x10000000000, 2);
    PowerIs(5, 6, 0x10000000000, 64);
    PowerIs(6, 4, 0x1000000000000, 16);
    PowerIs(6, 5, 0x1000000000000, 32);
    PowerIs(7, 1, 0x100000000000000, 2);
    PowerIs(7, 7, 0x100000000000000, 128);
  }

  lemma Ramp47Rounds()
    ensures Xxh64Round(0x60EA27EEADC0B5D6, 0x0706050403020100) == 0xF4B53B57406B5E99
    ensures Xxh64Round(0xC2B2AE3D27D4EB4F, 0x0F0E0D0C0B0A0908) == 0xC3D34B511FC32561
    ensures Xxh64Round(0x0, 0x1716151413121110) == 0xCB26C007C8A1553F
    ensures Xxh64Round(0x61C8864E7A143579, 0x1F1E1D1C1B1A1918) == 0x9A44D001A7F91C07
  {
    hide Rotl64, Pow2;
    XxhPowers();
    Rotl64Is(0x9C506BBE464A04D6, 31, 0x80000000, 0x200000000, 0x4e2835df, 0x464a04d6);
    RoundIs(0x60EA27EEADC0B5D6, 0x0706050403020100, 0x3B6643CF98894F00, 0x9C506BBE464A04D6, 0x2325026B4E2835DF,
            0xF4B53B57406B5E99);
    Rotl64Is(0xBCC205AE78D80CC7, 31, 0x80000000, 0x200000000, 0x5e6102d7, 0x78d80cc7);
    RoundIs(0xC2B2AE3D27D4EB4F, 0x0F0E0D0C0B0A0908, 0xFA0F577151032178, 0xBCC205AE78D80CC7, 0x3C6C0663DE6102D7,
            0xC3D34B511FC32561);
    Rotl64Is(0xB8B86B13097CF3F0, 31, 0x80000000, 0x200000000, 0x5c5c3589, 0x1097cf3f0);
    RoundIs(0x0, 0x1716151413121110, 0xB8B86B13097CF3F0, 0xB8B86B13097CF3F0, 0x84BE79F85C5C3589, 0xCB26C007C8A1553F);
    Rotl64Is(0xD92A05033C0AFBE1, 31, 0x80000000, 0x200000000, 0x6c950281, 0x13c0afbe1);
    RoundIs(0x61C8864E7A143579, 0x1F1E1D1C1B1A1918, 0x77617EB4C1F6C668, 0xD92A05033C0AFBE1, 0x9E057DF0EC950281,
            0x9A44D001A7F91C07);
  }

  lemma Ramp47MergeRounds()
    ensures Xxh64Round(0x0, 0xF4B53B57406B5E99) == 0x9CD67B4D40A72EF4
    ensures Xxh64Round(0x0, 0xC3D34B511FC32561) == 0xDD60FE6790F3F09B
    ensures Xxh64Round(0x0, 0xCB26C007C8A1553F) == 0xBD5C8ED0D808921A
    ensures Xxh64Round(0x0, 0x9A44D001A7F91C07) == 0x3AF12CA7A85553C1
  {
    hide Rotl64, Pow2;
    XxhPowers();
    Rotl64Is(0x5CBBA4D816ACA437, 31, 0x80000000, 0x200000000, 0x2e5dd26c, 0x16aca437);
    RoundIs(0x0, 0xF4B53B57406B5E99, 0x5CBBA4D816ACA437, 0x5CBBA4D816ACA437, 0x0B56521BAE5DD26C, 0x9CD67B4D40A72EF4);
    Rotl64Is(0xD3B6949AABDC93EF, 31, 0x80000000, 0x200000000, 0x69db4a4d, 0xabdc93ef);
    RoundIs(0x0, 0xC3D34B511FC32561, 0xD3B6949AABDC93EF, 0xD3B6949AABDC93EF, 0x55EE49F7E9DB4A4D, 0xDD60FE6790F3F09B);
    Rotl64Is(0xF36F432D34362371, 31, 0x80000000, 0x200000000, 0x79b7a196, 0x134362371);
    RoundIs(0x0, 0xCB26C007C8A1553F, 0xF36F432D34362371, 0xF36F432D34362371, 0x9A1B11B8F9B7A196, 0xBD5C8ED0D808921A);
    Rotl64Is(0x6A6A32EFC9661329, 31, 0x80000000, 0x200000000, 0x35351977, 0x1c9661329);
    RoundIs(0x0, 0x9A44D001A7F91C07, 0x6A6A32EFC9661329, 0x6A6A32EFC9661329, 0xE4B30994B5351977, 0x3AF12CA7A85553C1);
  }

  lemma Ramp47Merged()
    ensures MergeRound(0x7F173BACE7DBD3D9, 0xF4B53B57406B5E99) == 0xF4F010017EB0B31E
    ensures MergeRound(0xF4F010017EB0B31E, 0xC3D34B511FC32561) == 0x3EBAF0888F893B86
    ensures MergeRound(0x3EBAF0888F893B86, 0xCB26C007C8A1553F) == 0x570DD21AF61C37A7
    ensures MergeRound(0x570DD21AF61C37A7, 0x9A44D001A7F91C07) == 0xC845DBC88C411C2D
  {
    hide Xor64, Xxh64Round;
    Ramp47MergeRounds();
    XorOf(0x7F173BACE7DBD3D9, 0x9CD67B4D40A72EF4);
    MergeRoundIs(0x7F173BACE7DBD3D9, 0xF4B53B57406B5E99, 0x9CD67B4D40A72EF4, 0xE3C140E1A77CFD2D, 0x6F044589BBFE04BB,
                 0xF4F010017EB0B31E);
    XorOf(0xF4F010017EB0B31E, 0xDD60FE6790F3F09B);
    MergeRoundIs(0xF4F010017EB0B31E, 0xC3D34B511FC32561, 0xDD60FE6790F3F09B, 0x2990EE66EE434385, 0xB8CF2610CCD68D23,
                 0x3EBAF0888F893B86);
    XorOf(0x3EBAF0888F893B86, 0xBD5C8ED0D808921A);
    MergeRoundIs(0x3EBAF0888F893B86, 0xCB26C007C8A1553F, 0xBD5C8ED0D808921A, 0x83E67E585781A99C, 0xD12207A333698944,
                 0x570DD21AF61C37A7);
    XorOf(0x570DD21AF61C37A7, 0x3AF12CA7A85553C1);
    MergeRoundIs(0x570DD21AF61C37A7, 0x9A44D001A7F91C07, 0x3AF12CA7A85553C1, 0x6DFCFEBD5E496466, 0x425A1150C98E6DCA,
                 0xC845DBC88C411C2D);
  }

  lemma Ramp47Converged()
    ensures Converge([0xF4B53B57406B5E99, 0xC3D34B511FC32561,
                      0xCB26C007C8A1553F, 0x9A44D001A7F91C07]) == 0xC845DBC88C411C2D
  {
    hide Rotl64, Pow2, MergeRound;
    XxhPowers();
    Rotl64Is(0xF4B53B57406B5E99, 1, 0x2, 0x8000000000000000, 0x1, 0x74b53b57406b5e99);
    Rotl64Is(0xC3D34B511FC32561, 7, 0x80, 0x200000000000000, 0x61, 0x1d34b511fc32561);
    Rotl64Is(0xCB26C007C8A1553F, 12, 0x1000, 0x10000000000000, 0xcb2, 0x6c007c8a1553f);
    Rotl64Is(0x9A44D001A7F91C07, 18, 0x40000, 0x400000000000, 0x26913, 0x1001a7f91c07);
    Ramp47Merged();
  }

  lemma Ramp47TailRound()
    ensures Xxh64Round(0x0, 0x2726252423222120) == 0x8E6D3B08ECFE83AD
  {
    hide Rotl64, Pow2;
    XxhPowers();
    Rotl64Is(0x360A92567A7098E0, 31, 0x80000000, 0x200000000, 0x1b05492b, 0x7a7098e0);
    RoundIs(0x0, 0x2726252423222120, 0x360A92567A7098E0, 0x360A92567A7098E0, 0x3D384C701B05492B, 0x8E6D3B08ECFE83AD);
  }

  lemma Ramp47Eight()
    ensures Process8(0xC845DBC88C411C5C, 0x2726252423222120) == 0xA6033E8CD53BDE8D
  {
    hide Rotl64, Pow2, Xor64, Xxh64Round;
    XxhPowers();
    Ramp47TailRound();
    XorOf(0xC845DBC88C411C5C, 0x8E6D3B08ECFE83AD);
    Rotl64Is(0x4628E0C060BF9FF1, 27, 0x8000000, 0x2000000000, 0x2314706, 0x60bf9ff1);
  }

  lemma Ramp47Four()
    ensures Process4(0xA6033E8CD53BDE8D, 0x2b2a2928) == 0x9626E388AACFDFEC
  {
    hide Rotl64, Pow2, Xor64;
    XxhPowers();
    assert Mul64(0x2b2a2928, PRIME64_1) == 0x63C705E3976D4418;
    XorOf(0xA6033E8CD53BDE8D, 0x63C705E3976D4418);
    Rotl64Is(0xC5C43B6F42569A95, 23, 0x800000, 0x20000000000, 0x62e21d, 0x16f42569a95);
  }

  lemma Ramp47Ones()
    ensures Process1(0x9626E388AACFDFEC, 44) == 0x2BABD21BD6531DB3
    ensures Process1(0x2BABD21BD6531DB3, 45) == 0xAC91634DE94AD492
    ensures Process1(0xAC91634DE94AD492, 46) == 0xD7866A8745278C0A
  {
    hide Rotl64, Pow2, Xor64;
    XxhPowers();
    assert Mul64(44, PRIME64_5) == 0xD8986C17D6D9D5DC;
    XorOf(0x9626E388AACFDFEC, 0xD8986C17D6D9D5DC);
    Rotl64Is(0x4EBE8F9F7C160A30, 11, 0x800, 0x20000000000000, 0x275, 0x1e8f9f7c160a30);
    assert Mul64(45, PRIME64_5) == 0x006D5746ED303DA1;
    XorOf(0x2BABD21BD6531DB3, 0x006D5746ED303DA1);
    Rotl64Is(0x2BC6855D3B632012, 11, 0x800, 0x20000000000000, 0x15e, 0x6855d3b632012);
    assert Mul64(46, PRIME64_5) == 0x284242760386A566;
    XorOf(0xAC91634DE94AD492, 0x284242760386A566);
    Rotl64Is(0x84D3213BEACC71F4, 11, 0x800, 0x20000000000000, 0x426, 0x13213beacc71f4);
  }

  lemma Avalanches()
    ensures Xxh64Avalanche(0xD7866A8745278C0A) == 0x0D9883A03E7BFBB8
    ensures Xxh64Avalanche(0x27D4EB2F165667C5) == 0xEF46DB3751D8E999
  {
    hide Xxh64Avalanche;
    Avalanche64Is(0xD7866A8745278C0A, 0x6BC33543, 0x7F8E69CBFE1F3087, 0x00000003FC734E5F, 0x0D9883A033E37818,
                  0xD9883A0);
    Avalanche64Is(0x27D4EB2F165667C5, 0x13EA7597, 0xBEB13DDA13C2ED4E, 0x00000005F589EED0, 0xEF46DB37BE9E32AE,
                  0xEF46DB37);
  }

  lemma RoundIs(a: u64, w: u64, m: u64, t: u64, s: u64, r: u64)
    requires Mul64(w, PRIME64_2) == m && Add64(a, m) == t && Rotl64(t, 31) == s && Mul64(s, PRIME64_1) == r
    ensures Xxh64Round(a, w) == r
  {
    hide Mul64, Add64, Rotl64;
  }

  lemma MergeRoundIs(a: u64, v: u64, k: u64, x: u64, m: u64, r: u64)
    requires Xxh64Round(0, v) == k && Xor64(a, k) == x && Mul64(x, PRIME64_1) == m && Add64(m, PRIME64_4) == r
    ensures MergeRound(a, v) == r
  {
    hide Xxh64Round, Xor64, Mul64, Add64;
  }

  lemma FifteenBytes(h: u64, tail: bytes)
    requires |tail| == 15
    ensures Drain(h, tail)
         == Process1(Process1(Process1(Process4(Process8(h, Read64(tail, 0)), Read32(tail, 8)),
                                       tail[12]), tail[13]), tail[14])
  {
    hide Process8, Process4, Process1;
    var h8 := Process8(h, Read64(tail, 0));
    var h12 := Process4(h8, Read32(tail, 8));
    assert Read32(tail[8..], 0) == Read32(tail, 8) && tail[8..][4..] == tail[12..];
    assert Drain(h, tail) == Drain(h8, tail[8..]);
    assert Drain(h8, tail[8..]) == Drain(h12, tail[12..]);
    var h13 := Process1(h12, tail[12]);
    assert tail[12..][0] == tail[12] && tail[12..][1..] == tail[13..];
    assert Drain(h12, tail[12..]) == Drain(h13, tail[13..]);
    var h14 := Process1(h13, tail[13]);
    assert tail[13..][0] == tail[13] && tail[13..][1..] == tail[14..];
    assert Drain(h13, tail[13..]) == Drain(h14, tail[14..]);
    assert tail[14..][0] == tail[14] && tail[14..][1..] == [];
    assert Drain(h14, tail[14..]) == Drain(Process1(h14, tail[14]), []);
  }

  lemma Ramp47Lanes()
    ensures Rounds(StartLanes(0), Ramp(47), 1)
         == [0xF4B53B57406B5E99, 0xC3D34B511FC32561, 0xCB26C007C8A1553F, 0x9A44D001A7F91C07]
  {
    hide Xxh64Round, Read64, Ramp;
    RampReads(47);
    PartReads(Ramp(47), 0, 32);
    Ramp47Rounds();
    assert StartLanes(0) == [0x60EA27EEADC0B5D6, 0xC2B2AE3D27D4EB4F, 0x0, 0x61C8864E7A143579];
    assert Rounds(StartLanes(0), Ramp(47), 0) == StartLanes(0);
    assert Stripe32(Ramp(47), 0) == Ramp(47)[0..32];
  }

  lemma Ramp47Drained()
    ensures Drain(0xC845DBC88C411C5C, Ramp(47)[32..]) == 0xD7866A8745278C0A
  {
    hide Process8, Process4, Process1, Drain;
    var tail := Ramp(47)[32..];
    RampTail(tail);
    hide Read32, Read64, Ramp;
    Ramp47Eight();
    Ramp47Four();
    Ramp47Ones();
    FifteenBytes(0xC845DBC88C411C5C, tail);
  }

  lemma RampTail(tail: bytes)
    requires tail == Ramp(47)[32..]
    ensures Read64(tail, 0) == 0x2726252423222120 && Read32(tail, 8) == 0x2b2a2928
    ensures tail[12] == 44 && tail[13] == 45 && tail[14] == 46
  {
  }

  lemma Ramp47Known()
    ensures Hash(Ramp(47), 0) == 0x0D9883A03E7BFBB8
  {
    hide Rounds, Converge, Drain, Xxh64Avalanche, Ramp, StartLanes;
    Ramp47Lanes();
    Ramp47Converged();
    Ramp47Drained();
    Avalanches();
    assert Add64(0xC845DBC88C411C2D, 47) == 0xC845DBC88C411C5C;
  }

  lemma EmptyKnown()
    ensures Hash([], 0) == 0xEF46DB3751D8E999
  {
    hide Xxh64Avalanche;
    Avalanches();
    assert Add64(Add64(0, PRIME64_5), 0) == 0x27D4EB2F165667C5;
  }
}
