/** XXH3 of given inputs of at most 16 bytes, in numbers: the values that the
    published algorithm has there. Each lemma is a step of the computation. */
module Xxh3KnownShort {
  import opened Bits
  import opened Mixers
  import opened Mult128
  import opened Xxh3Short
  import opened Xxh3Secret
  import opened Xxh3Stream
  import opened WordValues
  import opened Xxh3Words

  const SEED: u64 := 0x9E3779B185EBCA8D

  lemma EmptyKey56()
    ensures Xor64(0, Xor64(Read64(KSecret(), 56), Read64(KSecret(), 64))) == 0x8726F9105DC21DDC
  {
    hide Read64, KSecretRows, Xor64;
    SecretReads(56, 0x4C263A81E69035E0);
    SecretReads(64, 0xCB00C391BB52283C);
    XorOf(0x4C263A81E69035E0, 0xCB00C391BB52283C);
    XorOf(0x0, 0x8726F9105DC21DDC);
  }

  lemma EmptyMix56()
    ensures Xxh64Avalanche(0x8726F9105DC21DDC) == 0x2D06800538D394C2
  {
    hide Xxh64Avalanche;
    Avalanche64Is(0x8726F9105DC21DDC, 0x43937C88, 0x0F93720A750524EC, 0x7C9B9053, 0x2D06800515D514C7, 0x2D068005);
  }

  lemma EmptyKey64()
    ensures Xor64(0, Xor64(Read64(KSecret(), 64), Read64(KSecret(), 72))) == 0x682E908A3037F8B4
  {
    hide Read64, KSecretRows, Xor64;
    SecretReads(64, 0xCB00C391BB52283C);
    SecretReads(72, 0xA32E531B8B65D088);
    XorOf(0xCB00C391BB52283C, 0xA32E531B8B65D088);
    XorOf(0x0, 0x682E908A3037F8B4);
  }

  lemma EmptyMix64()
    ensures Xxh64Avalanche(0x682E908A3037F8B4) == 0x6001C324468D497F
  {
    hide Xxh64Avalanche;
    Avalanche64Is(0x682E908A3037F8B4, 0x34174845, 0x7B99A9D58717D55F, 0x00000003DCCD4EAC, 0x6001C324268C8A5B,
                  0x6001C324);
  }

  lemma EmptyKey80()
    ensures Xor64(0, Xor64(Read64(KSecret(), 80), Read64(KSecret(), 88))) == 0x9655D30BD1A77D49
  {
    hide Read64, KSecretRows, Xor64;
    SecretReads(80, 0x4EF90DA297486471);
    SecretReads(88, 0xD8ACDEA946EF1938);
    XorOf(0x4EF90DA297486471, 0xD8ACDEA946EF1938);
    XorOf(0x0, 0x9655D30BD1A77D49);
  }

  lemma EmptyMix80()
    ensures Xxh64Avalanche(0x9655D30BD1A77D49) == 0x99AA06D3014798D8
  {
    hide Xxh64Avalanche;
    Avalanche64Is(0x9655D30BD1A77D49, 0x4B2AE985, 0xD41672FAF6382EF4, 0x00000006A0B397D7, 0x99AA06D398ED9E0B,
                  0x99AA06D3);
  }

  lemma EmptyKnown()
    ensures OneShot64(Default, []) == 0x2D06800538D394C2
    ensures OneShot128(Default, []) == Hash128(0x6001C324468D497F, 0x99AA06D3014798D8)
  {
    hide Xxh64Avalanche, Xor64, Read64, KSecretRows;
    EmptyKey56();
    EmptyKey64();
    EmptyKey80();
    EmptyMix56();
    EmptyMix64();
    EmptyMix80();
  }

  lemma Ramp3Combined()
    ensures Combined(Ramp(3)) == 0x1000302
    ensures Rotl32(Swap32(0x1000302), 13) == 0x60002040
  {
    hide Combined, Swap32, Rotl32, Pow2;
    CombinedValue(Ramp(3));
    Swap32Is(0x02, 0x03, 0x00, 0x01);
    RotationPowers();
    Rotl32Is(0x2030001, 13, 0x2000, 0x80000, 0x40, 0x30001);
  }

  lemma Ramp3Keys()
    ensures Xor32(Read32(KSecret(), 0), Read32(KSecret(), 4)) == 0x87275a9b
    ensures Xor32(Read32(KSecret(), 8), Read32(KSecret(), 12)) == 0x302c208b
  {
    hide Read32, KSecretRows, Xor32;
    SecretReads(0, 0xBE4BA423396CFEB8);
    SecretReads(8, 0x1CAD21F72C81017C);
    HalvesOf(KSecret(), 0, 0x396cfeb8, 0xbe4ba423);
    HalvesOf(KSecret(), 8, 0x2c81017c, 0x1cad21f7);
    Xor32Of(0x396CFEB8, 0xBE4BA423);
    Xor32Of(0x2C81017C, 0x1CAD21F7);
  }

  lemma Ramp3Mixed()
    ensures Xxh64Avalanche(Xor64(0x1000302, 0x9E3779B20D132528)) == 0x1A6E223BE5F46239
    ensures Xxh64Avalanche(Xor64(0x60002040, 0x61C8864EAA4055FE)) == 0x05A6AA16B11FAD25
  {
    hide Xxh64Avalanche, Xor64;
    XorOf(0x1000302, 0x9E3779B20D132528);
    XorOf(0x60002040, 0x61C8864EAA4055FE);
    Avalanche64Is(0x9E3779B20C13262A, 0x4F1BBCD9, 0x64FF1A2DEC20E1FD, 0x0000000327F8D16F, 0x1A6E223BFF9A4002,
                  0x1A6E223B);
    Avalanche64Is(0x61C8864ECA4075BE, 0x30E44327, 0xC06187379C7F4C37, 0x00000006030C39BC, 0x05A6AA16B4B90733,
                  0x5A6AA16);
  }

  lemma Ramp3Known()
    ensures OneShot64(WithSeed(SEED), Ramp(3)) == 0x1A6E223BE5F46239
    ensures OneShot128(WithSeed(SEED), Ramp(3)) == Hash128(0x1A6E223BE5F46239, 0x05A6AA16B11FAD25)
  {
    hide Combined, Swap32, Rotl32, Xor32, Xor64, Read32, Ramp, KSecretRows, Xxh64Avalanche;
    Ramp3Combined();
    Ramp3Keys();
    Ramp3Mixed();
    assert Add64(0x87275a9b, SEED) == 0x9E3779B20D132528 && Sub64(0x302c208b, SEED) == 0x61C8864EAA4055FE;
  }

  lemma Ramp6Words()
    ensures Read32(Ramp(6), 0) == 0x3020100 && Read32(Ramp(6), 2) == 0x5040302
  {

  }

  lemma SeedSpread()
    ensures SpreadSeed(SEED) == 0x13FD923485EBCA8D
  {
    hide Pow2, Swap32, Shl64, Xor64;
    Swap32Is(0x8d, 0xca, 0xeb, 0x85);
    Pow2Values();
    Shl64Is(0x8dcaeb85, 32, 0x1_0000_0000);
    XorOf(0x9E3779B185EBCA8D, 0x8DCAEB8500000000);
  }

  lemma Ramp6Keyed()
    ensures Len4To8Keyed(Ramp(6), KSecret(), SEED) == 0xB03F1E4045050817
    ensures Len4To8Keyed128(Ramp(6), KSecret(), SEED) == 0xDDE9B66AD0B75E39
  {
    hide Read32, Read64, KSecretRows, Ramp, SpreadSeed, Shl64, Pow2, Xor64;
    Ramp6Words();
    SeedSpread();
    SecretReads(8, 0x1CAD21F72C81017C);
    SecretReads(16, 0xDB979083E96DD4DE);
    SecretReads(24, 0x1F67B3B7A4A44072);
    XorOf(0x1CAD21F72C81017C, 0xDB979083E96DD4DE);
    XorOf(0xDB979083E96DD4DE, 0x1F67B3B7A4A44072);
    XorOf(0x0302010005040302, 0xB33D1F4040010B15);
    XorOf(0x0504030203020100, 0xD8EDB568D3B55F39);
    Pow2Values();
    Shl64Is(0x3020100, 32, 0x1_0000_0000);
    Shl64Is(0x5040302, 32, 0x1_0000_0000);
    assert Sub64(0xC73AB174C5ECD5A2, 0x13FD923485EBCA8D) == 0xB33D1F4040010B15;
    assert Add64(0xC4F023344DC994AC, 0x13FD923485EBCA8D) == 0xD8EDB568D3B55F39;
    assert Add64(0x5040302, 0x0302010000000000) == 0x0302010005040302;
    assert Add64(0x3020100, 0x0504030200000000) == 0x0504030203020100;
  }

  lemma Ramp6Rotated()
    ensures RotateMix(0xB03F1E4045050817) == 0xE0557B366E35BD03
  {
    hide Pow2, Rotl64, RotateMix;
    RotationPowers();
    Rotl64Is(0xB03F1E4045050817, 49, 0x2000000000000, 0x8000, 0x1607e3c808a0a, 0x817);
    Rotl64Is(0xB03F1E4045050817, 24, 0x1000000, 0x10000000000, 0xb03f1e, 0x4045050817);
    RotateMixIs(0xB03F1E4045050817, 0x102F607E3C808A0A, 0x4045050817B03F1E);
  }

  lemma Ramp6Mixed()
    ensures Rrmxmx(0xB03F1E4045050817, 6) == 0xAA0870E19D23AD6D
  {
    hide RotateMix, LengthMix, XorShift64, Pow2;
    Ramp6Rotated();
    ShiftPowers();
    LengthMixIs(0x10E0DB1C5131EE6F, 6, 0x21C1B63, 0x21C1B69);
    XorShiftIs(0xAA0870EB3DA4A3DE, 28, 0x1000_0000, 0x0000000AA0870EB3);
    assert Mul64(0xE0557B366E35BD03, PRIME_MX2) == 0x10E0DB1C5131EE6F;
    assert Mul64(0x10E0DB1C532DF506, PRIME_MX2) == 0xAA0870EB3DA4A3DE;
  }

  lemma Ramp6Product()
    ensures Mult64To128(0xDDE9B66AD0B75E39, Add64(PRIME64_1, 24)) == Hash128(0x972587B86D8F7F67, 0x8926554977AA7101)
  {
    hide Mult64To128;
    assert Add64(PRIME64_1, 24) == 0x9E3779B185EBCA9F;
    Mult128Is(0xDDE9B66AD0B75E39, 0x9E3779B185EBCA9F, 0x972587B86D8F7F67, 0x8926554977AA7101);
  }

  lemma Ramp6Low()
    ensures XorShift64(0x81CBAB2F27D6529E, 35) == 0x81CBAB2F37EF27FB
    ensures Mul64(0x81CBAB2F37EF27FB, PRIME_MX2) == 0x44655642906C6C47
    ensures XorShift64(0x44655642906C6C47, 28) == 0x44655646D639086E
  {
    hide XorShift64, Pow2;
    ShiftPowers();
    XorShiftIs(0x81CBAB2F27D6529E, 35, 0x8_0000_0000, 0x10397565);
    XorShiftIs(0x44655642906C6C47, 28, 0x1000_0000, 0x0000000446556429);
  }

  lemma Ramp6High()
    ensures Add64(0x8926554977AA7101, Shl64(0x972587B86D8F7F67, 1)) == 0xB77164BA52C96FCF
    ensures Xor64(0x972587B86D8F7F67, Shr64(0xB77164BA52C96FCF, 3)) == 0x81CBAB2F27D6529E
  {
    hide Shl64, Shr64, Pow2, Xor64;
    ShiftPowers();
    SmallPowers();
    Shl64Is(0x972587B86D8F7F67, 1, 2);
    DropIs(0xB77164BA52C96FCF, 3, 8, 0x16EE2C974A592DF9);
    XorOf(0x972587B86D8F7F67, 0x16EE2C974A592DF9);
  }

  lemma Ramp6Finish()
    ensures Len4To8Finish(Hash128(0x972587B86D8F7F67, 0x8926554977AA7101))
         == Hash128(0x44655646D639086E, 0x70B28E15878BCF8F)
  {
    hide XorShift64, Xxh3Avalanche, Shl64, Shr64, Xor64;
    Ramp6Low();
    Ramp6High();
    AvalancheIs(0xB77164BA52C96FCF, 0x5BB8B25, 0x70B28E15F739419A, 0x70B28E15);
  }

  lemma Ramp6Known()
    ensures OneShot64(WithSeed(SEED), Ramp(6)) == 0xAA0870E19D23AD6D
    ensures OneShot128(WithSeed(SEED), Ramp(6)) == Hash128(0x44655646D639086E, 0x70B28E15878BCF8F)
  {
    hide Len4To8Keyed, Len4To8Keyed128, Rrmxmx, Mult64To128, Len4To8Finish, Ramp, KSecretRows;
    Ramp6Keyed();
    Ramp6Mixed();
    Ramp6Product();
    Ramp6Finish();
  }

  lemma Ramp14Keys()
    ensures Add64(Xor64(Read64(KSecret(), 24), Read64(KSecret(), 32)), SEED) == 0x05B9ED2D702E0446
    ensures Sub64(Xor64(Read64(KSecret(), 40), Read64(KSecret(), 48)), SEED) == 0x111F428983AA87AD
  {
    hide Read64, KSecretRows, Xor64;
    SecretReads(24, 0x1F67B3B7A4A44072);
    SecretReads(32, 0x78E5C0CC4EE679CB);
    SecretReads(40, 0x2172FFCC7DD05A82);
    SecretReads(48, 0x8E2443F7744608B8);
    XorOf(0x1F67B3B7A4A44072, 0x78E5C0CC4EE679CB);
    XorOf(0x2172FFCC7DD05A82, 0x8E2443F7744608B8);
  }

  lemma Ramp14Mixed()
    ensures Xxh3Avalanche(0xF79A969E9A52E7D7) == 0x37F45AE460CA9CAF
    ensures MulFold64(0x02BFE829732C0546, 0x1C1349838AA280AB) == 0x958220A7E5C7A81C
    ensures Swap64(0x02BFE829732C0546) == 0x46052C7329E8BF02
  {
    hide Xxh3Avalanche, MulFold64, Swap64;
    AvalancheIs(0xF79A969E9A52E7D7, 0x7BCD4B4, 0x37F45AE4573EC64B, 0x37F45AE4);
    FoldIs(0x02BFE829732C0546, 0x1C1349838AA280AB, 0x95CF12CB035685C2, 0x004D326CE6912DDE);
    Swap64Is(0x46, 0x05, 0x2c, 0x73, 0x29, 0xe8, 0xbf, 0x02, 0x02BFE829732C0546);
  }

  lemma Ramp14Known64()
    ensures OneShot64(WithSeed(SEED), Ramp(14)) == 0x37F45AE460CA9CAF
  {
    hide Xxh3Avalanche, MulFold64, Swap64, Read64, KSecretRows, Ramp, Xor64;
    RampReads(14);
    Ramp14Keys();
    Ramp14Mixed();
    XorOf(0x0706050403020100, 0x05B9ED2D702E0446);
    XorOf(0x0D0C0B0A09080706, 0x111F428983AA87AD);
    assert Add64(Add64(Add64(14, 0x46052C7329E8BF02), 0x1C1349838AA280AB), 0x958220A7E5C7A81C) == 0xF79A969E9A52E7D7;
  }

  lemma Ramp14Keys128()
    ensures Sub64(Xor64(Read64(KSecret(), 32), Read64(KSecret(), 40)), SEED) == 0xBB5FC54EAD4A58BC
    ensures Add64(Xor64(Read64(KSecret(), 48), Read64(KSecret(), 56)), SEED) == 0x6039F32818C207E5
  {
    hide Read64, KSecretRows, Xor64;
    SecretReads(32, 0x78E5C0CC4EE679CB);
    SecretReads(40, 0x2172FFCC7DD05A82);
    SecretReads(48, 0x8E2443F7744608B8);
    SecretReads(56, 0x4C263A81E69035E0);
    XorOf(0x78E5C0CC4EE679CB, 0x2172FFCC7DD05A82);
    XorOf(0x8E2443F7744608B8, 0x4C263A81E69035E0);
  }

  lemma Ramp14Products()
    ensures Mult64To128(0xB155CB40A7405EBA, PRIME64_1) == Hash128(0x981A94F8946EB816, 0x6D99612D1845A8B1)
    ensures Mult64To128(0xAD6AD479D1C0A5F2, PRIME64_2) == Hash128(0xCACF789EDD305BAE, 0x83E3FF541782C589)
    ensures HighTerm64(0x6D35F82211CA00E3) == 0x76844D1868FA8785
    ensures Mul64(0xE41DAE4581403036, PRIME64_2) == 0x6AFE9676F5C872AA
    ensures Shl64(13, 54) == 0x0340000000000000
  {
    hide Mult64To128, Mult32To64, Shl64, Pow2;
    RotationPowers();
    Mult128Is(0xB155CB40A7405EBA, PRIME64_1, 0x981A94F8946EB816, 0x6D99612D1845A8B1);
    Mult128Is(0xAD6AD479D1C0A5F2, PRIME64_2, 0xCACF789EDD305BAE, 0x83E3FF541782C589);
    ProductOfLows(0x11ca00e3, PRIME32_2 as int - 1);
    Shl64Is(13, 54, 0x40_0000_0000_0000);
  }

  lemma Ramp14Finish()
    ensures Len9To16Finish(0xB155CB40A7405EBA, 0x6D35F82211CA00E3, 14)
         == Hash128(0xA4D89533AAB53429, 0x6EE770B68FBFE903)
  {
    hide Xxh3Avalanche, Mult64To128, HighTerm64, Mul64, Swap64, Shl64, Xor64;
    Ramp14Products();
    Swap64Is(0x36, 0x30, 0x40, 0x81, 0x45, 0xae, 0x1d, 0xe4, 0xE41DAE4581403036);
    XorOf(0x9B5A94F8946EB816, 0x3630408145AE1DE4);
    assert Add64(0x981A94F8946EB816, 0x0340000000000000) == 0x9B5A94F8946EB816;
    assert Add64(0x6D99612D1845A8B1, 0x76844D1868FA8785) == 0xE41DAE4581403036;
    assert Add64(0x83E3FF541782C589, 0x6AFE9676F5C872AA) == 0xEEE295CB0D4B3833;
    Ramp14Avalanches();
  }

  lemma Ramp14Avalanches()
    ensures Xxh3Avalanche(0xCACF789EDD305BAE) == 0xA4D89533AAB53429
    ensures Xxh3Avalanche(0xEEE295CB0D4B3833) == 0x6EE770B68FBFE903
  {
    hide Xxh3Avalanche;
    AvalancheIs(0xCACF789EDD305BAE, 0x6567BC4, 0xA4D895330E6DA11A, 0xA4D89533);
    AvalancheIs(0xEEE295CB0D4B3833, 0x77714AE, 0x6EE770B6E15899B5, 0x6EE770B6);
  }

  lemma Ramp14Known128()
    ensures OneShot128(WithSeed(SEED), Ramp(14)) == Hash128(0xA4D89533AAB53429, 0x6EE770B68FBFE903)
  {
    hide Len9To16Finish, Read64, KSecretRows, Ramp, Xor64;
    RampReads(14);
    Ramp14Keys128();
    Ramp14Finish();
    XorOf(0x0706050403020100, 0x0D0C0B0A09080706);
    XorOf(0x0A0A0E0E0A0A0606, 0xBB5FC54EAD4A58BC);
    XorOf(0x0D0C0B0A09080706, 0x6039F32818C207E5);
  }
}
