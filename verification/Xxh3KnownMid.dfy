/** XXH3 of an input of 40 and one of 192 bytes, in numbers, with a seed. */
module Xxh3KnownMid {
  import opened Bits
  import opened Mixers
  import opened Mult128
  import opened Xxh3Short
  import opened Xxh3Secret
  import opened Xxh3Stream
  import opened WordValues
  import opened Xxh3Words

  const SEED: u64 := 0x9E3779B185EBCA8D

  lemma Ramp40Pair1Mixes()
    ensures Mix16B(Ramp(40), 16, KSecret(), 32, 0x9E3779B185EBCA8D) == 0x7CCE25928A72B5AD
    ensures Mix16B(Ramp(40), 8, KSecret(), 48, 0x9E3779B185EBCA8D) == 0xB784F76F12EC839B
  {
    hide Mix16B, Read64, Ramp, KSecretRows;
    RampReads(40);
    KeyedMix(Ramp(40), 16, 32, 0x1716151413121110, 0x1F1E1D1C1B1A1918, 0x78E5C0CC4EE679CB, 0x2172FFCC7DD05A82,
             0x9E3779B185EBCA8D, 0x000B2F69C7C05548, 0x9C259B06ECFE96ED, 0x7CC8F71B9C7723A8, 0x0006D28916059605);
    KeyedMix(Ramp(40), 8, 48, 0x0F0E0D0C0B0A0908, 0x1716151413121110, 0x8E2443F7744608B8, 0x4C263A81E69035E0,
             0x9E3779B185EBCA8D, 0x2355B0A4F13BDA4D, 0xBAF8D5C473B67A43, 0xAE4A6DB37270D427, 0x19CE9ADC609C57BC);
  }

  lemma Ramp40Pair1()
    ensures Mix32B(Hash128(0xB8AB03BCECD7A518, 0x0), Ramp(40), 16, 8,
                   KSecret(), 32, 0x9E3779B185EBCA8D)
         == Hash128(0x135D0B6F695640DD, 0x81B0C55F3CC0A9B3)
  {
    hide Mix16B, Mix32B, Read64, Ramp, KSecretRows;
    RampReads(40);
    Ramp40Pair1Mixes();
    Mix32Is(Ramp(40), 16, 8, 32, 0x9E3779B185EBCA8D, 0xB8AB03BCECD7A518, 0x0, 0x7CCE25928A72B5AD, 0xB784F76F12EC839B,
            0x363432302E2C2A28, 0x262422201E1C1A18);
  }

  lemma Ramp40Pair0Mixes()
    ensures Mix16B(Ramp(40), 0, KSecret(), 0, 0x9E3779B185EBCA8D) == 0x9ED05EE47E7DBE7B
    ensures Mix16B(Ramp(40), 24, KSecret(), 16, 0x9E3779B185EBCA8D) == 0x0AF24B8719069F95
  {
    hide Mix16B, Read64, Ramp, KSecretRows;
    RampReads(40);
    KeyedMix(Ramp(40), 0, 0, 0x0706050403020100, 0x0F0E0D0C0B0A0908, 0xBE4BA423396CFEB8, 0x1CAD21F72C81017C,
             0x9E3779B185EBCA8D, 0x5B8518D0BC5AC845, 0x717BA549AD9F3FE7, 0xB641AD1A510EB143, 0x2891F3FE2F730F38);
    KeyedMix(Ramp(40), 24, 16, 0x1F1E1D1C1B1A1918, 0x2726252423222120, 0xDB979083E96DD4DE, 0x1F67B3B7A4A44072,
             0x9E3779B185EBCA8D, 0x66D1172974438673, 0xA6161F223D9A54C5, 0x48463CFAE842327F, 0x42B4777DF144ADEA);
  }

  lemma Ramp40Pair0()
    ensures Mix32B(Hash128(0x135D0B6F695640DD, 0x81B0C55F3CC0A9B3), Ramp(40), 0, 24,
                   KSecret(), 0, 0x9E3779B185EBCA8D)
         == Hash128(0xF4692813D9EFC560, 0x9AB702F65BCB4340)
  {
    hide Mix16B, Mix32B, Read64, Ramp, KSecretRows;
    RampReads(40);
    Ramp40Pair0Mixes();
    Mix32Is(Ramp(40), 0, 24, 0, 0x9E3779B185EBCA8D, 0x135D0B6F695640DD, 0x81B0C55F3CC0A9B3, 0x9ED05EE47E7DBE7B,
            0x0AF24B8719069F95, 0x161412100E0C0A08, 0x464442403E3C3A38);
  }

  lemma Ramp40FinishProducts()
    ensures Mul64(0xF4692813D9EFC560, PRIME64_1) == 0xA23844742E4ED5A0
    ensures Mul64(0x9AB702F65BCB4340, PRIME64_4) == 0x03F236B4E9D081C0
    ensures Mul64(Sub64(40, 0x9E3779B185EBCA8D), PRIME64_2) == 0xFCC7C91E3ACDD3D5
  {
    assert Sub64(40, 0x9E3779B185EBCA8D) == 0x61C8864E7A14359B;
    assert Mul64(0x61C8864E7A14359B, PRIME64_2) == 0xFCC7C91E3ACDD3D5;
  }

  lemma Ramp40Finish()
    ensures MidFinish(Hash128(0xF4692813D9EFC560, 0x9AB702F65BCB4340), 40, 0x9E3779B185EBCA8D)
         == Hash128(0xDEC28EBE8E7B6486, 0x6F4021E4650AC7BC)
  {
    hide Xxh3Avalanche;
    AvalancheIs(0x8F202B0A35BB08A0, 0x4790158, 0xDEC28EBE50B9EA38, 0xDEC28EBE);
    AvalancheIs(0xA2F2444752ED2B35, 0x5179222, 0x90BFDE1B0A4AE65F, 0x90BFDE1B);
    hide Mul64;
    Ramp40FinishProducts();
  }

  lemma Ramp40Known128()
    ensures OneShot128(WithSeed(SEED), Ramp(40)) == Hash128(0xDEC28EBE8E7B6486, 0x6F4021E4650AC7BC)
  {
    hide Mix32B, MidFinish, Ramp, KSecretRows;
    Ramp40Pair1();
    Ramp40Pair0();
    Ramp40Finish();
    assert Mul64(40, PRIME64_1) == 0xB8AB03BCECD7A518;
  }

  lemma Ramp40Known64()
    ensures OneShot64(WithSeed(SEED), Ramp(40)) == 0xC9231777DE0AE596
  {
    hide Mix16B, Xxh3Avalanche, Ramp, KSecretRows;
    Ramp40Pair1Mixes();
    Ramp40Pair0Mixes();
    assert Mul64(40, PRIME64_1) == 0xB8AB03BCECD7A518;
    assert MixPair(0xB8AB03BCECD7A518, Ramp(40), 1, KSecret(), 0x9E3779B185EBCA8D) == 0xECFE20BE8A36DE60;
    assert MixPair(0xECFE20BE8A36DE60, Ramp(40), 0, KSecret(), 0x9E3779B185EBCA8D) == 0x96C0CB2A21BB3C70;
    AvalancheIs(0x96C0CB2A21BB3C70, 0x4B60659, 0xC92317771729F2E1, 0xC9231777);
  }

  lemma Ramp192Early0Mixes()
    ensures Mix16B(Ramp(192), 0, KSecret(), 0, 0x9E3779B185EBCA8D) == 0x9ED05EE47E7DBE7B
    ensures Mix16B(Ramp(192), 16, KSecret(), 16, 0x9E3779B185EBCA8D) == 0x62B2C6B6DD6B7E83
  {
    hide Mix16B, Read64, Ramp, KSecretRows;
    RampReads(192);
    KeyedMix(Ramp(192), 0, 0, 0x0706050403020100, 0x0F0E0D0C0B0A0908, 0xBE4BA423396CFEB8, 0x1CAD21F72C81017C,
             0x9E3779B185EBCA8D, 0x5B8518D0BC5AC845, 0x717BA549AD9F3FE7, 0xB641AD1A510EB143, 0x2891F3FE2F730F38);
    KeyedMix(Ramp(192), 16, 16, 0x1716151413121110, 0x1F1E1D1C1B1A1918, 0xDB979083E96DD4DE, 0x1F67B3B7A4A44072,
             0x9E3779B185EBCA8D, 0x6ED91F217C4B8E7B, 0x9E2E271A05A26CFD, 0x26CF3B9E479DB38F, 0x447DFD289AF6CD0C);
  }

  lemma Ramp192Early0()
    ensures Mix32B(Hash128(0xA99B452470D7E540, 0x0), Ramp(192), 0, 16,
                   KSecret(), 0, 0x9E3779B185EBCA8D)
         == Hash128(0x7E5F9638C1798993, 0x74A6D4A6D367748B)
  {
    hide Mix16B, Mix32B, Read64, Ramp, KSecretRows;
    RampReads(192);
    Ramp192Early0Mixes();
    Mix32Is(Ramp(192), 0, 16, 0, 0x9E3779B185EBCA8D, 0xA99B452470D7E540, 0x0, 0x9ED05EE47E7DBE7B, 0x62B2C6B6DD6B7E83,
            0x161412100E0C0A08, 0x363432302E2C2A28);
  }

  lemma Ramp192Early1Mixes()
    ensures Mix16B(Ramp(192), 32, KSecret(), 32, 0x9E3779B185EBCA8D) == 0x7840DF4E6A1926E9
    ensures Mix16B(Ramp(192), 48, KSecret(), 48, 0x9E3779B185EBCA8D) == 0x778FF4B0628A7398
  {
    hide Mix16B, Read64, Ramp, KSecretRows;
    RampReads(192);
    KeyedMix(Ramp(192), 32, 32, 0x2726252423222120, 0x2F2E2D2C2B2A2928, 0x78E5C0CC4EE679CB, 0x2172FFCC7DD05A82,
             0x9E3779B185EBCA8D, 0x303B1F59F7F06578, 0xAC15AB36DCCEA6DD, 0x582B1165B2E36898, 0x206BCE2BD8FA4E71);
    KeyedMix(Ramp(192), 48, 48, 0x3736353433323130, 0x3F3E3D3C3B3A3938, 0x8E2443F7744608B8, 0x4C263A81E69035E0,
             0x9E3779B185EBCA8D, 0x1B6D889CC903E275, 0x92D0FDEC5B9E526B, 0x783528AC9E5F20E7, 0x0FBADC1CFCD5537F);
  }

  lemma Ramp192Early1()
    ensures Mix32B(Hash128(0x7E5F9638C1798993, 0x74A6D4A6D367748B), Ramp(192), 32, 48,
                   KSecret(), 32, 0x9E3779B185EBCA8D)
         == Hash128(0x80D407F745FEDA14, 0xBA629B077BBDA26B)
  {
    hide Mix16B, Mix32B, Read64, Ramp, KSecretRows;
    RampReads(192);
    Ramp192Early1Mixes();
    Mix32Is(Ramp(192), 32, 48, 32, 0x9E3779B185EBCA8D, 0x7E5F9638C1798993, 0x74A6D4A6D367748B, 0x7840DF4E6A1926E9,
            0x778FF4B0628A7398, 0x565452504E4C4A48, 0x767472706E6C6A68);
  }

  lemma Ramp192Early2Mixes()
    ensures Mix16B(Ramp(192), 64, KSecret(), 64, 0x9E3779B185EBCA8D) == 0x1F9BAE58756556DE
    ensures Mix16B(Ramp(192), 80, KSecret(), 80, 0x9E3779B185EBCA8D) == 0xEF71451D8C8F78E9
  {
    hide Mix16B, Read64, Ramp, KSecretRows;
    RampReads(192);
    KeyedMix(Ramp(192), 64, 64, 0x4746454443424140, 0x4F4E4D4C4B4A4948, 0xCB00C391BB52283C, 0xA32E531B8B65D088,
             0x9E3779B185EBCA8D, 0x2E7E7807027FB389, 0x4BB894264E304CB3, 0x125B3CA0104734CB, 0x0DC092F865226215);
    KeyedMix(Ramp(192), 80, 80, 0x5756555453525150, 0x5F5E5D5C5B5A5958, 0x4EF90DA297486471, 0xD8ACDEA946EF1938,
             0x9E3779B185EBCA8D, 0xBA66D2004E667FAE, 0x652B39AB9A5917F3, 0xA6DB4F00B041D42A, 0x49AA0A1D3CCEACC3);
  }

  lemma Ramp192Early2()
    ensures Mix32B(Hash128(0x80D407F745FEDA14, 0xBA629B077BBDA26B), Ramp(192), 64, 80,
                   KSecret(), 64, 0x9E3779B185EBCA8D)
         == Hash128(0x16DB04FF15C89A5A, 0x3F4772B586C191DC)
  {
    hide Mix16B, Mix32B, Read64, Ramp, KSecretRows;
    RampReads(192);
    Ramp192Early2Mixes();
    Mix32Is(Ramp(192), 64, 80, 64, 0x9E3779B185EBCA8D, 0x80D407F745FEDA14, 0xBA629B077BBDA26B, 0x1F9BAE58756556DE,
            0xEF71451D8C8F78E9, 0x969492908E8C8A88, 0xB6B4B2B0AEACAAA8);
  }

  lemma Ramp192Early3Mixes()
    ensures Mix16B(Ramp(192), 96, KSecret(), 96, 0x9E3779B185EBCA8D) == 0x69E66DAD361ADAF4
    ensures Mix16B(Ramp(192), 112, KSecret(), 112, 0x9E3779B185EBCA8D) == 0x35133426BC16BF70
  {
    hide Mix16B, Read64, Ramp, KSecretRows;
    RampReads(192);
    KeyedMix(Ramp(192), 96, 96, 0x6766656463626160, 0x6F6E6D6C6B6A6968, 0x3F349CE33F76FAA8, 0x1D4F0BC7C7BBDCF9,
             0x9E3779B185EBCA8D, 0xBA0A73F0A600A455, 0x1079FF7A2ABA7B04, 0x621F22743EB96854, 0x0BF94FD908A3B2A0);
    KeyedMix(Ramp(192), 112, 112, 0x7776757473727170, 0x7F7E7D7C7B7A7978, 0x3159B4CD4BE0518A, 0x647378D9C97E9FC8,
             0x9E3779B185EBCA8D, 0xB8E75B0AA2BE6D67, 0xB945825438E8AC43, 0xB0C2516E36AFD5F5, 0x85D165488AB96A85);
  }

  lemma Ramp192Early3()
    ensures Mix32B(Hash128(0x16DB04FF15C89A5A, 0x3F4772B586C191DC), Ramp(192), 96, 112,
                   KSecret(), 96, 0x9E3779B185EBCA8D)
         == Hash128(0x7635805CA50F9FA6, 0xA28E740C8C149B84)
  {
    hide Mix16B, Mix32B, Read64, Ramp, KSecretRows;
    RampReads(192);
    Ramp192Early3Mixes();
    Mix32Is(Ramp(192), 96, 112, 96, 0x9E3779B185EBCA8D, 0x16DB04FF15C89A5A, 0x3F4772B586C191DC, 0x69E66DAD361ADAF4,
            0x35133426BC16BF70, 0xD6D4D2D0CECCCAC8, 0xF6F4F2F0EEECEAE8);
  }

  lemma Ramp192Late4Mixes()
    ensures Mix16B(Ramp(192), 128, KSecret(), 3, 0x9E3779B185EBCA8D) == 0xA6A5BB669003651F
    ensures Mix16B(Ramp(192), 144, KSecret(), 19, 0x9E3779B185EBCA8D) == 0xF975D8BDF2711333
  {
    hide Mix16B, Read64, Ramp, KSecretRows;
    RampReads(192);
    KeyedMix(Ramp(192), 128, 3, 0x8786858483828180, 0x8F8E8D8C8B8A8988, 0x81017CBE4BA42339, 0x6DD4DE1CAD21F72C,
             0x9E3779B185EBCA8D, 0x98BE73EB520D6C46, 0x4013E9E7ACBCA517, 0x809EC5CB9165D84A, 0x263B7EAD0166BD55);
    KeyedMix(Ramp(192), 144, 19, 0x9796959493929190, 0x9F9E9D9C9B9A9998, 0xA44072DB979083E9, 0xE679CB1F67B3B7A4,
             0x9E3779B185EBCA8D, 0xD5E179198EEEDFE6, 0xD7DCCCF17A5D748F, 0x4D2D0D0C0771497A, 0xB458D5B1F5005A49);
  }

  lemma Ramp192Late4()
    ensures Mix32B(Hash128(0x7021178E1585A90A, 0x27AAC3CEE0FC0CCA), Ramp(192), 128, 144,
                   KSecret(), 3, 0x9E3779B185EBCA8D)
         == Hash128(0x21F3E1C58AA42501, 0x36358F9DDC6014F5)
  {
    hide Mix16B, Mix32B, Read64, Ramp, KSecretRows;
    RampReads(192);
    Ramp192Late4Mixes();
    Mix32Is(Ramp(192), 128, 144, 3, 0x9E3779B185EBCA8D, 0x7021178E1585A90A, 0x27AAC3CEE0FC0CCA, 0xA6A5BB669003651F,
            0xF975D8BDF2711333, 0x171513110F0D0B08, 0x373533312F2D2B28);
  }

  lemma Ramp192Late5Mixes()
    ensures Mix16B(Ramp(192), 160, KSecret(), 35, 0x9E3779B185EBCA8D) == 0xED83BCA1C1D32906
    ensures Mix16B(Ramp(192), 176, KSecret(), 51, 0x9E3779B185EBCA8D) == 0xB404599C8BB7FC04
  {
    hide Mix16B, Read64, Ramp, KSecretRows;
    RampReads(192);
    KeyedMix(Ramp(192), 160, 35, 0xA7A6A5A4A3A2A1A0, 0xAFAEADACABAAA9A8, 0xD05A8278E5C0CC4E, 0x4608B82172FFCC7D,
             0x9E3779B185EBCA8D, 0xC937598EC80E377B, 0x087F93C346BEA858, 0xEB2DBDC7E895CA48, 0x06AE01662946E34E);
    KeyedMix(Ramp(192), 176, 51, 0xB7B6B5B4B3B2B1B0, 0xBFBEBDBCBBBAB9B8, 0x9035E08E2443F774, 0x52283C4C263A81E6,
             0x9E3779B185EBCA8D, 0x99DBEF8B199D73B1, 0x0C4E7F261BF40EE1, 0xB36125340F6A5C91, 0x07657CA884DDA095);
  }

  lemma Ramp192Late5()
    ensures Mix32B(Hash128(0x21F3E1C58AA42501, 0x36358F9DDC6014F5), Ramp(192), 160, 176,
                   KSecret(), 35, 0x9E3779B185EBCA8D)
         == Hash128(0x7802ED16231A256F, 0xBD6CBA6B27555BB1)
  {
    hide Mix16B, Mix32B, Read64, Ramp, KSecretRows;
    RampReads(192);
    Ramp192Late5Mixes();
    Mix32Is(Ramp(192), 160, 176, 35, 0x9E3779B185EBCA8D, 0x21F3E1C58AA42501, 0x36358F9DDC6014F5, 0xED83BCA1C1D32906,
            0xB404599C8BB7FC04, 0x575553514F4D4B48, 0x777573716F6D6B68);
  }

  lemma Ramp192LastMixes()
    ensures Mix16B(Ramp(192), 176, KSecret(), 103, 0x61C8864E7A143573) == 0x09289093DC14ABAB
    ensures Mix16B(Ramp(192), 160, KSecret(), 119, 0x61C8864E7A143573) == 0x77B00C49837FBD10
  {
    hide Mix16B, Read64, Ramp, KSecretRows;
    RampReads(192);
    KeyedMix(Ramp(192), 176, 103, 0xB7B6B5B4B3B2B1B0, 0xBFBEBDBCBBBAB9B8, 0x4F0BC7C7BBDCF93F, 0x59B4CD4BE0518A1D,
             0x61C8864E7A143573, 0x0762FBA286439F02, 0x4852FB41DD87ED12, 0x0B3EAB299F040824, 0x02163BBA4310A38F);
    KeyedMix(Ramp(192), 160, 119, 0xA7A6A5A4A3A2A1A0, 0xAFAEADACABAAA9A8, 0x7378D9C97E9FC831, 0xEBD33483ACC5EA64,
             0x61C8864E7A143573, 0x72E7C5B35B115C04, 0x25A40399991B1D59, 0x675511E2B8E17164, 0x10E51DAB3B9ECC74);
  }

  lemma Ramp192Last()
    ensures Mix32B(Hash128(0x7802ED16231A256F, 0xBD6CBA6B27555BB1), Ramp(192), 176, 160,
                   KSecret(), 103, 0x61C8864E7A143573)
         == Hash128(0xD67E2EF8B0639A52, 0x4269B5C5C5B873A9)
  {
    hide Mix16B, Mix32B, Read64, Ramp, KSecretRows;
    RampReads(192);
    Ramp192LastMixes();
    Mix32Is(Ramp(192), 176, 160, 103, 0x61C8864E7A143573, 0x7802ED16231A256F, 0xBD6CBA6B27555BB1, 0x09289093DC14ABAB,
            0x77B00C49837FBD10, 0x777573716F6D6B68, 0x575553514F4D4B48);
  }

  lemma Ramp192FinishProducts()
    ensures Mul64(0xD67E2EF8B0639A52, PRIME64_1) == 0xCBF51FA0DF91153E
    ensures Mul64(0x4269B5C5C5B873A9, PRIME64_4) == 0x38EB17545273985B
    ensures Mul64(Sub64(192, 0x9E3779B185EBCA8D), PRIME64_2) == 0x96DF3D6DE1398ABD
  {
    assert Sub64(192, 0x9E3779B185EBCA8D) == 0x61C8864E7A143633;
    assert Mul64(0x61C8864E7A143633, PRIME64_2) == 0x96DF3D6DE1398ABD;
  }

  lemma Ramp192Finish()
    ensures MidFinish(Hash128(0xD67E2EF8B0639A52, 0x4269B5C5C5B873A9), 192, 0x9E3779B185EBCA8D)
         == Hash128(0x352577AA12D41044, 0xCC94AFADFF5FC9E1)
  {
    hide Xxh3Avalanche;
    AvalancheIs(0x18E7E4BE761C0DFB, 0xC73F25, 0x352577AA27F167EE, 0x352577AA);
    AvalancheIs(0x9BBF7463133E3856, 0x4DDFBA3, 0x336B505233CB664D, 0x336B5052);
    hide Mul64;
    Ramp192FinishProducts();
  }

  lemma Ramp192EarlyBlocks()
    ensures EarlyBlocks128(Hash128(0xA99B452470D7E540, 0x0), Ramp(192), KSecret(), 0x9E3779B185EBCA8D, 4)
         == Hash128(0x7635805CA50F9FA6, 0xA28E740C8C149B84)
  {
    hide Mix32B, Ramp, KSecretRows;
    var start, seed: u64 := Hash128(0xA99B452470D7E540, 0x0), 0x9E3779B185EBCA8D;
    Ramp192Early0();
    Ramp192Early1();
    Ramp192Early2();
    Ramp192Early3();
    assert EarlyBlocks128(start, Ramp(192), KSecret(), seed, 0) == Hash128(0xA99B452470D7E540, 0x0);
    assert EarlyBlocks128(start, Ramp(192), KSecret(), seed, 1) == Hash128(0x7E5F9638C1798993, 0x74A6D4A6D367748B);
    assert EarlyBlocks128(start, Ramp(192), KSecret(), seed, 2) == Hash128(0x80D407F745FEDA14, 0xBA629B077BBDA26B);
    assert EarlyBlocks128(start, Ramp(192), KSecret(), seed, 3) == Hash128(0x16DB04FF15C89A5A, 0x3F4772B586C191DC);
    assert EarlyBlocks128(start, Ramp(192), KSecret(), seed, 4) == Hash128(0x7635805CA50F9FA6, 0xA28E740C8C149B84);
  }

  lemma Ramp192Between()
    ensures Xxh3Avalanche(0x7635805CA50F9FA6) == 0x7021178E1585A90A
    ensures Xxh3Avalanche(0xA28E740C8C149B84) == 0x27AAC3CEE0FC0CCA
  {
    hide Xxh3Avalanche;
    AvalancheIs(0x7635805CA50F9FA6, 0x3B1AC02, 0x7021178E65A4BE84, 0x7021178E);
    AvalancheIs(0xA28E740C8C149B84, 0x51473A0, 0x27AAC3CEC756CF04, 0x27AAC3CE);
  }

  lemma Ramp192LateBlocks()
    ensures LateBlocks128(Hash128(0x7021178E1585A90A, 0x27AAC3CEE0FC0CCA), Ramp(192), KSecret(), 0x9E3779B185EBCA8D, 6)
         == Hash128(0x7802ED16231A256F, 0xBD6CBA6B27555BB1)
  {
    hide Mix32B, Ramp, KSecretRows;
    var mixed, seed: u64 := Hash128(0x7021178E1585A90A, 0x27AAC3CEE0FC0CCA), 0x9E3779B185EBCA8D;
    Ramp192Late4();
    Ramp192Late5();
    assert LateBlocks128(mixed, Ramp(192), KSecret(), seed, 4) == Hash128(0x7021178E1585A90A, 0x27AAC3CEE0FC0CCA);
    assert LateBlocks128(mixed, Ramp(192), KSecret(), seed, 5) == Hash128(0x21F3E1C58AA42501, 0x36358F9DDC6014F5);
    assert LateBlocks128(mixed, Ramp(192), KSecret(), seed, 6) == Hash128(0x7802ED16231A256F, 0xBD6CBA6B27555BB1);
  }

  lemma Ramp192Known128()
    ensures OneShot128(WithSeed(SEED), Ramp(192)) == Hash128(0x352577AA12D41044, 0xCC94AFADFF5FC9E1)
  {
    hide Mix32B, MidFinish, EarlyBlocks128, LateBlocks128, Xxh3Avalanche, Ramp, KSecretRows;
    Ramp192EarlyBlocks();
    Ramp192Between();
    Ramp192LateBlocks();
    Ramp192Last();
    Ramp192Finish();
    assert Mul64(192, PRIME64_1) == 0xA99B452470D7E540 && Sub64(0, 0x9E3779B185EBCA8D) == 0x61C8864E7A143573;
  }

  lemma Ramp192EarlySum()
    ensures EarlyBlocks(0xA99B452470D7E540, Ramp(192), KSecret(), 0x9E3779B185EBCA8D, 8) == 0x48F5D4088D8B26EA
  {
    hide Mix16B, Ramp, KSecretRows;
    var start: u64, seed: u64 := 0xA99B452470D7E540, 0x9E3779B185EBCA8D;
    Ramp192Early0Mixes();
    Ramp192Early1Mixes();
    Ramp192Early2Mixes();
    Ramp192Early3Mixes();
    assert EarlyBlocks(start, Ramp(192), KSecret(), seed, 1) == 0x486BA408EF55A3BB;
    assert EarlyBlocks(start, Ramp(192), KSecret(), seed, 2) == 0xAB1E6ABFCCC1223E;
    assert EarlyBlocks(start, Ramp(192), KSecret(), seed, 3) == 0x235F4A0E36DA4927;
    assert EarlyBlocks(start, Ramp(192), KSecret(), seed, 4) == 0x9AEF3EBE9964BCBF;
    assert EarlyBlocks(start, Ramp(192), KSecret(), seed, 5) == 0xBA8AED170ECA139D;
    assert EarlyBlocks(start, Ramp(192), KSecret(), seed, 6) == 0xA9FC32349B598C86;
    assert EarlyBlocks(start, Ramp(192), KSecret(), seed, 7) == 0x13E29FE1D174677A;
    assert EarlyBlocks(start, Ramp(192), KSecret(), seed, 8) == 0x48F5D4088D8B26EA;
  }

  lemma Ramp192LateSum()
    ensures LateBlocks(0x62797CD19D5004AE, Ramp(192), KSecret(), 0x9E3779B185EBCA8D, 12) == 0xA41D27346D4FA20A
  {
    hide Mix16B, Ramp, KSecretRows;
    var last: u64, seed: u64 := 0x62797CD19D5004AE, 0x9E3779B185EBCA8D;
    Ramp192Late4Mixes();
    Ramp192Late5Mixes();
    assert LateBlocks(last, Ramp(192), KSecret(), seed, 9) == 0x091F38382D5369CD;
    assert LateBlocks(last, Ramp(192), KSecret(), seed, 10) == 0x029510F61FC47D00;
    assert LateBlocks(last, Ramp(192), KSecret(), seed, 11) == 0xF018CD97E197A606;
    assert LateBlocks(last, Ramp(192), KSecret(), seed, 12) == 0xA41D27346D4FA20A;
  }

  lemma Ramp192LastMix()
    ensures Mix16B(Ramp(192), 176, KSecret(), 119, 0x9E3779B185EBCA8D) == 0x62797CD19D5004AE
  {
    hide Mix16B, Read64, Ramp, KSecretRows;
    RampReads(192);
    KeyedMix(Ramp(192), 176, 119, 0xB7B6B5B4B3B2B1B0, 0xBFBEBDBCBBBAB9B8, 0x7378D9C97E9FC831, 0xEBD33483ACC5EA64,
             0x9E3779B185EBCA8D, 0xA606E6CFB739230E, 0xF225076E9D60A66F, 0xFF73F6D039C14712, 0x9D0A8A01A49143BC);
  }

  lemma Ramp192Known64()
    ensures OneShot64(WithSeed(SEED), Ramp(192)) == 0xF395CB84C847A3B7
  {
    hide Mix16B, Xxh3Avalanche, EarlyBlocks, LateBlocks, Ramp, KSecretRows;
    Ramp192EarlySum();
    Ramp192LateSum();
    Ramp192LastMix();
    assert Mul64(192, PRIME64_1) == 0xA99B452470D7E540;
    AvalancheIs(0x48F5D4088D8B26EA, 0x247AEA0, 0xE17561447E4189FA, 0xE1756144);
    AvalancheIs(0x859288790C848AC8, 0x42C9443, 0xF395CB843BD26833, 0xF395CB84);
  }
}
