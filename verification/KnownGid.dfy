/** The GID of one topic key, in numbers. Each lemma below is a step of the
    computation on that key. */
module KnownGid {
  import opened Bits
  import opened Mixers
  import opened Mult128
  import opened Xxh3Short
  import opened Xxh3Secret
  import opened Xxh3Stream
  import opened WordValues
  import opened Xxh3Words
  import EndpointGid
  import TopicKey

  /** A topic of strings; its type and hash are spelled below. */
  const TOPIC: TopicKey.Topic :=
    TopicKey.Topic("0", "/heartbeat", "std_" + TypeRows(), "RIHS01_" + HashRows())

  /* The key and its bytes */

  function Ascii(s: string): (b: bytes)
    ensures |b| == |s|
  {
    seq(|s|, i requires 0 <= i < |s| => s[i] as int % 0x100)
  }

  /** The key, eight characters to the row. */
  function KeyRow(i: nat): (r: string)
    requires i < 14
    ensures |r| == 8
  {
    match i
    case 0 => "0/heartb"
    case 1 => "eat/std_"
    case 2 => "msgs::ms"
    case 3 => "g::dds_:"
    case 4 => ":String_"
    case 5 => "/RIHS01_"
    case 6 => "df668c74"
    case 7 => "0482bbd4"
    case 8 => "8fb39d76"
    case 9 => "a70dfd4b"
    case 10 => "d59db128"
    case 11 => "80217435"
    case 12 => "03259e94"
    case _ => "8f6b1a18"
  }

  function KeyRows(n: nat): (b: string)
    requires n <= 14
    ensures |b| == 8 * n
  {
    if n == 0 then "" else KeyRows(n - 1) + KeyRow(n - 1)
  }

  function KeyBytes(): (b: bytes)
    ensures |b| == 112
  {
    Ascii(KeyRows(14))
  }

  lemma KeyIsRows()
    ensures TopicKey.Key(TOPIC) == KeyRows(14)
  {
    FirstRows();
    AllRows();
    hide KeyRow, KeyRows, TypeRows, HashRows, TopicKey.Middle;
    Assembled("0" + "/" + "heartbeat/", KeyRow(0), "eat/", "std_", TypeRows(), "/", "RIHS01_",
              HashRows());
  }

  lemma Assembled(front: string, a: string, b: string, c: string, d: string, slash: string, prefix: string, hex: string)
    requires front == a + b
    ensures front + (c + d) + slash + (prefix + hex) == a + (b + c) + d + (slash + prefix) + hex
  {
  }

  lemma FirstRows()
    ensures TopicKey.Middle("/heartbeat") == "heartbeat/"
    ensures "0" + "/" + "heartbeat/" == KeyRow(0) + "eat/"
    ensures KeyRow(1) == "eat/" + "std_" && KeyRow(5) == "/" + "RIHS01_"
  {
  }

  function TypeRows(): string { KeyRow(2) + KeyRow(3) + KeyRow(4) }

  function HashRows(): string {
    KeyRow(6) + KeyRow(7) + KeyRow(8) + KeyRow(9) + KeyRow(10) + KeyRow(11) + KeyRow(12) + KeyRow(13)
  }

  lemma AllRows()
    ensures KeyRows(14) == KeyRow(0) + KeyRow(1) + TypeRows() + KeyRow(5) + HashRows()
  {
    hide KeyRow, KeyRows;
    NextRow(0);
    NextRow(1);
    ThreeRows(2);
    NextRow(5);
    ThreeRows(6);
    ThreeRows(9);
    NextRow(12);
    NextRow(13);
    Joined(KeyRows(6), KeyRow(6), KeyRow(7), KeyRow(8), KeyRow(9), KeyRow(10), KeyRow(11), KeyRow(12), KeyRow(13));
  }

  lemma NextRow(n: nat)
    requires n < 14
    ensures KeyRows(n + 1) == KeyRows(n) + KeyRow(n)
    ensures n == 0 ==> KeyRows(0) == ""
  {
    hide KeyRow;
  }

  lemma Joined(p: string, a: string, b: string, c: string, d: string, e: string, f: string, g: string, h: string)
    ensures p + (a + b + c) + (d + e + f) + g + h == p + (a + b + c + d + e + f + g + h)
  {
  }

  lemma ThreeRows(n: nat)
    requires n <= 11
    ensures KeyRows(n + 3) == KeyRows(n) + (KeyRow(n) + KeyRow(n + 1) + KeyRow(n + 2))
  {
    hide KeyRow, KeyRows;
    NextRow(n);
    NextRow(n + 1);
    NextRow(n + 2);
  }

  lemma {:induction false} RowAt(n: nat, i: nat)
    requires i < n <= 14
    ensures KeyRows(n)[8 * i..8 * i + 8] == KeyRow(i)
  {
    hide KeyRow;
    if i < n - 1 {
      RowAt(n - 1, i);
      assert KeyRows(n)[..8 * (n - 1)] == KeyRows(n - 1);
    }
  }

  lemma RowBytes(r: nat)
    requires r < 14
    ensures var b, s := KeyBytes(), Ascii(KeyRow(r));
      && b[8 * r] == s[0] && b[8 * r + 1] == s[1] && b[8 * r + 2] == s[2] && b[8 * r + 3] == s[3]
      && b[8 * r + 4] == s[4] && b[8 * r + 5] == s[5] && b[8 * r + 6] == s[6] && b[8 * r + 7] == s[7]
  {
    hide KeyRow, KeyRows;
    RowAt(14, r);
    var all, s := KeyRows(14), KeyRows(14)[8 * r..8 * r + 8];
    assert s[0] == all[8 * r] && s[1] == all[8 * r + 1] && s[2] == all[8 * r + 2] && s[3] == all[8 * r + 3];
    assert s[4] == all[8 * r + 4] && s[5] == all[8 * r + 5] && s[6] == all[8 * r + 6] && s[7] == all[8 * r + 7];
  }

  lemma Spelled(r: nat, b0: u8, b1: u8, b2: u8, b3: u8, b4: u8, b5: u8, b6: u8, b7: u8)
    requires r < 14
    requires var s := Ascii(KeyRow(r));
      s[0] == b0 && s[1] == b1 && s[2] == b2 && s[3] == b3 && s[4] == b4 && s[5] == b5 && s[6] == b6 && s[7] == b7
    ensures Read64(KeyBytes(), 8 * r) as int
         == Half(b0, b1, b2, b3) as int + 0x1_0000_0000 * Half(b4, b5, b6, b7) as int
  {
    hide KeyRow, KeyBytes, Ascii;
    RowBytes(r);
    var at := 8 * r;
    assert KeyBytes()[at + 4 + 1] == b5 && KeyBytes()[at + 4 + 2] == b6 && KeyBytes()[at + 4 + 3] == b7;
  }

  /** The words of the key. */
  lemma KeyReads()
    ensures Read64(KeyBytes(), 0) == 0x6274726165682F30 && Read64(KeyBytes(), 8) == 0x5F6474732F746165
    ensures Read64(KeyBytes(), 16) == 0x736D3A3A7367736D && Read64(KeyBytes(), 24) == 0x3A5F7364643A3A67
    ensures Read64(KeyBytes(), 32) == 0x5F676E697274533A && Read64(KeyBytes(), 40) == 0x5F3130534849522F
    ensures Read64(KeyBytes(), 48) == 0x3437633836366664 && Read64(KeyBytes(), 56) == 0x3464626232383430
    ensures Read64(KeyBytes(), 64) == 0x3637643933626638 && Read64(KeyBytes(), 72) == 0x6234646664303761
    ensures Read64(KeyBytes(), 80) == 0x3832316264393564 && Read64(KeyBytes(), 88) == 0x3533343731323038
    ensures Read64(KeyBytes(), 96) == 0x3439653935323330 && Read64(KeyBytes(), 104) == 0x3831613162366638
  {
    hide Read64, KeyBytes;
    StartReads();
    MiddleReads();
    EndReads();
  }

  lemma StartReads()
    ensures Read64(KeyBytes(), 0) == 0x6274726165682F30
    ensures Read64(KeyBytes(), 8) == 0x5F6474732F746165
    ensures Read64(KeyBytes(), 16) == 0x736D3A3A7367736D
    ensures Read64(KeyBytes(), 24) == 0x3A5F7364643A3A67
    ensures Read64(KeyBytes(), 32) == 0x5F676E697274533A
  {
    hide Read64, KeyBytes;
    Spelled(0, 0x30, 0x2f, 0x68, 0x65, 0x61, 0x72, 0x74, 0x62);
    Spelled(1, 0x65, 0x61, 0x74, 0x2f, 0x73, 0x74, 0x64, 0x5f);
    Spelled(2, 0x6d, 0x73, 0x67, 0x73, 0x3a, 0x3a, 0x6d, 0x73);
    Spelled(3, 0x67, 0x3a, 0x3a, 0x64, 0x64, 0x73, 0x5f, 0x3a);
    Spelled(4, 0x3a, 0x53, 0x74, 0x72, 0x69, 0x6e, 0x67, 0x5f);
  }

  lemma MiddleReads()
    ensures Read64(KeyBytes(), 40) == 0x5F3130534849522F
    ensures Read64(KeyBytes(), 48) == 0x3437633836366664
    ensures Read64(KeyBytes(), 56) == 0x3464626232383430
    ensures Read64(KeyBytes(), 64) == 0x3637643933626638
    ensures Read64(KeyBytes(), 72) == 0x6234646664303761
  {
    hide Read64, KeyBytes;
    Spelled(5, 0x2f, 0x52, 0x49, 0x48, 0x53, 0x30, 0x31, 0x5f);
    Spelled(6, 0x64, 0x66, 0x36, 0x36, 0x38, 0x63, 0x37, 0x34);
    Spelled(7, 0x30, 0x34, 0x38, 0x32, 0x62, 0x62, 0x64, 0x34);
    Spelled(8, 0x38, 0x66, 0x62, 0x33, 0x39, 0x64, 0x37, 0x36);
    Spelled(9, 0x61, 0x37, 0x30, 0x64, 0x66, 0x64, 0x34, 0x62);
  }

  lemma EndReads()
    ensures Read64(KeyBytes(), 80) == 0x3832316264393564
    ensures Read64(KeyBytes(), 88) == 0x3533343731323038
    ensures Read64(KeyBytes(), 96) == 0x3439653935323330
    ensures Read64(KeyBytes(), 104) == 0x3831613162366638
  {
    hide Read64, KeyBytes;
    Spelled(10, 0x64, 0x35, 0x39, 0x64, 0x62, 0x31, 0x32, 0x38);
    Spelled(11, 0x38, 0x30, 0x32, 0x31, 0x37, 0x34, 0x33, 0x35);
    Spelled(12, 0x30, 0x33, 0x32, 0x35, 0x39, 0x65, 0x39, 0x34);
    Spelled(13, 0x38, 0x66, 0x36, 0x62, 0x31, 0x61, 0x31, 0x38);
  }

  lemma KeyPair3Mixes()
    ensures Mix16B(KeyBytes(), 48, KSecret(), 96, 0x0) == 0x4DEE32C99C6CDAF0
    ensures Mix16B(KeyBytes(), 48, KSecret(), 112, 0x0) == 0x211D8820FE6B3417
  {
    hide Mix16B, Read64, KeyBytes, KSecretRows;
    KeyReads();
    KeyedMix(KeyBytes(), 48, 96, 0x3437633836366664, 0x3464626232383430, 0x3F349CE33F76FAA8, 0x1D4F0BC7C7BBDCF9, 0x0,
             0x0B03FFDB09409CCC, 0x292B69A5F583E8C9, 0x4C2BB0F84A37FC2C, 0x01C58231D65B26DC);
    KeyedMix(KeyBytes(), 48, 112, 0x3437633836366664, 0x3464626232383430, 0x3159B4CD4BE0518A, 0x647378D9C97E9FC8, 0x0,
             0x056ED7F57DD637EE, 0x50171ABBFB46ABF8, 0x20AEA923A3F62890, 0x01B321035D9D1C87);
  }

  lemma KeyPair3()
    ensures Mix32B(Hash128(0x38453DAA97289B10, 0x0), KeyBytes(), 48, 48,
                   KSecret(), 96, 0x0)
         == Hash128(0xEEA8B5EE5BFBEC94, 0x49864DBA9605AE83)
  {
    hide Mix16B, Mix32B, Read64, KeyBytes, KSecretRows;
    KeyReads();
    KeyPair3Mixes();
    Mix32Is(KeyBytes(), 48, 48, 96, 0x0, 0x38453DAA97289B10, 0x0, 0x4DEE32C99C6CDAF0, 0x211D8820FE6B3417,
            0x689BC59A686E9A94, 0x689BC59A686E9A94);
  }

  lemma KeyPair2Mixes()
    ensures Mix16B(KeyBytes(), 32, KSecret(), 64, 0x0) == 0xB23DE02E442C6B73
    ensures Mix16B(KeyBytes(), 64, KSecret(), 80, 0x0) == 0x32192DF9CF5DDD0F
  {
    hide Mix16B, Read64, KeyBytes, KSecretRows;
    KeyReads();
    KeyedMix(KeyBytes(), 32, 64, 0x5F676E697274533A, 0x5F3130534849522F, 0xCB00C391BB52283C, 0xA32E531B8B65D088, 0x0,
             0x9467ADF8C9267B06, 0xFC1F6348C32C82A7, 0x2015A173799B4CEA, 0x9228415D3DB72799);
    KeyedMix(KeyBytes(), 64, 80, 0x3637643933626638, 0x6234646664303761, 0x4EF90DA297486471, 0xD8ACDEA946EF1938, 0x0,
             0x78CE699BA42A0249, 0xBA98BACF22DF2E59, 0x6A1726884E9AE961, 0x580E0B7181C7346E);
  }

  lemma KeyPair2()
    ensures Mix32B(Hash128(0xEEA8B5EE5BFBEC94, 0x49864DBA9605AE83), KeyBytes(), 32, 64,
                   KSecret(), 64, 0x0)
         == Hash128(0x388D5E8337BAC59E, 0xC507E508DFDE2EFB)
  {
    hide Mix16B, Mix32B, Read64, KeyBytes, KSecretRows;
    KeyReads();
    KeyPair2Mixes();
    Mix32Is(KeyBytes(), 32, 64, 64, 0x0, 0xEEA8B5EE5BFBEC94, 0x49864DBA9605AE83, 0xB23DE02E442C6B73,
            0x32192DF9CF5DDD0F, 0xBE989EBCBABDA569, 0x986BC89F97929D99);
  }

  lemma KeyPair1Mixes()
    ensures Mix16B(KeyBytes(), 16, KSecret(), 32, 0x0) == 0x715313A1C83B7160
    ensures Mix16B(KeyBytes(), 80, KSecret(), 48, 0x0) == 0xD35F708E72694985
  {
    hide Mix16B, Read64, KeyBytes, KSecretRows;
    KeyReads();
    KeyedMix(KeyBytes(), 16, 32, 0x736D3A3A7367736D, 0x3A5F7364643A3A67, 0x78E5C0CC4EE679CB, 0x2172FFCC7DD05A82, 0x0,
             0x0B88FAF63D810AA6, 0x1B2D8CA819EA60E5, 0x706A6C435A28C67E, 0x01397FE29213B71E);
    KeyedMix(KeyBytes(), 80, 48, 0x3832316264393564, 0x3533343731323038, 0x8E2443F7744608B8, 0x4C263A81E69035E0, 0x0,
             0xB6167295107F3DDC, 0x79150EB6D7A205D8, 0x8540E6F950C97DA0, 0x561F967722A03425);
  }

  lemma KeyPair1()
    ensures Mix32B(Hash128(0x388D5E8337BAC59E, 0xC507E508DFDE2EFB), KeyBytes(), 16, 80,
                   KSecret(), 32, 0x0)
         == Hash128(0xC48517BD6A9D5362, 0x35ABF80985E6D554)
  {
    hide Mix16B, Mix32B, Read64, KeyBytes, KSecretRows;
    KeyReads();
    KeyPair1Mixes();
    Mix32Is(KeyBytes(), 16, 80, 32, 0x0, 0x388D5E8337BAC59E, 0xC507E508DFDE2EFB, 0x715313A1C83B7160,
            0xD35F708E72694985, 0xADCCAD9ED7A1ADD4, 0x6D656599956B659C);
  }

  lemma KeyPair0Mixes()
    ensures Mix16B(KeyBytes(), 0, KSecret(), 0, 0x0) == 0x5550CCE8B49696E4
    ensures Mix16B(KeyBytes(), 96, KSecret(), 16, 0x0) == 0x3AADB233F088EA1F
  {
    hide Mix16B, Read64, KeyBytes, KSecretRows;
    KeyReads();
    KeyedMix(KeyBytes(), 0, 0, 0x6274726165682F30, 0x5F6474732F746165, 0xBE4BA423396CFEB8, 0x1CAD21F72C81017C, 0x0,
             0xDC3FD6425C04D188, 0x43C9558403F56019, 0x6F01202DEA337648, 0x3A51ECC55EA5E0AC);
    KeyedMix(KeyBytes(), 96, 16, 0x3439653935323330, 0x3831613162366638, 0xDB979083E96DD4DE, 0x1F67B3B7A4A44072, 0x0,
             0xEFAEF5BADC5FE7EE, 0x2756D286C692264A, 0x1E79436249E25ECC, 0x24D4F151B96AB4D3);
  }

  lemma KeyPair0()
    ensures Mix32B(Hash128(0xC48517BD6A9D5362, 0x35ABF80985E6D554), KeyBytes(), 0, 96,
                   KSecret(), 0, 0x0)
         == Hash128(0x75BF22CC885B732E, 0xB1814CE9E2B32FE6)
  {
    hide Mix16B, Mix32B, Read64, KeyBytes, KSecretRows;
    KeyReads();
    KeyPair0Mixes();
    Mix32Is(KeyBytes(), 0, 96, 0, 0x0, 0xC48517BD6A9D5362, 0x35ABF80985E6D554, 0x5550CCE8B49696E4, 0x3AADB233F088EA1F,
            0xC1D8E6D494DC9095, 0x6C6AC66A97689968);
  }

  lemma KeyFinishProducts()
    ensures Mul64(0x75BF22CC885B732E, PRIME64_1) == 0xC166CD0BB2560942
    ensures Mul64(0xB1814CE9E2B32FE6, PRIME64_4) == 0x7AEBE1560FC5D9F2
    ensures Mul64(Sub64(112, 0x0), PRIME64_2) == 0x2E2C3AC16D26F290
  {
    assert Sub64(112, 0x0) == 0x70;
    assert Mul64(0x70, PRIME64_2) == 0x2E2C3AC16D26F290;
  }

  lemma KeyFinish()
    ensures MidFinish(Hash128(0x75BF22CC885B732E, 0xB1814CE9E2B32FE6), 112, 0x0)
         == Hash128(0x75D647680446E049, 0x0EA3451766E90533)
  {
    hide Xxh3Avalanche;
    AvalancheIs(0x27406FB66B0EA314, 0x13A037D, 0x75D647687190A721, 0x75D64768);
    AvalancheIs(0x6A7EE9232F42D5C4, 0x353F749, 0xF15CBAE8684A4025, 0xF15CBAE8);
    hide Mul64;
    KeyFinishProducts();
  }

  lemma KeyKnown128()
    ensures OneShot128(Default, KeyBytes()) == Hash128(0x75D647680446E049, 0x0EA3451766E90533)
  {
    hide Mix32B, MidFinish, KeyBytes, KSecretRows;
    KeyPair3();
    KeyPair2();
    KeyPair1();
    KeyPair0();
    KeyFinish();
    assert Mul64(112, PRIME64_1) == 0x38453DAA97289B10;
  }

  /** The GID of every endpoint of this topic. */
  lemma TopicGid()
    ensures EndpointGid.GenGid(Ascii(TopicKey.Key(TOPIC)))
         == [0x49, 0xe0, 0x46, 0x04, 0x68, 0x47, 0xd6, 0x75,
             0x33, 0x05, 0xe9, 0x66, 0x17, 0x45, 0xa3, 0x0e]
  {
    hide OneShot128, KeyRows, Ascii, EndpointGid.GidOf, Read64;
    var h := Hash128(0x75D647680446E049, 0x0EA3451766E90533);
    KeyIsRows();
    KeyKnown128();
    GidBytes(EndpointGid.GidOf(h));
  }

  lemma GidBytes(gid: bytes)
    requires |gid| == 16 && Read64(gid, 0) == 0x75D647680446E049 && Read64(gid, 8) == 0x0EA3451766E90533
    ensures gid == [0x49, 0xe0, 0x46, 0x04, 0x68, 0x47, 0xd6, 0x75,
                    0x33, 0x05, 0xe9, 0x66, 0x17, 0x45, 0xa3, 0x0e]
  {
    hide Read64;
    BytesAre(gid, 0, 0x49, 0xe0, 0x46, 0x04, 0x68, 0x47, 0xd6, 0x75);
    BytesAre(gid, 8, 0x33, 0x05, 0xe9, 0x66, 0x17, 0x45, 0xa3, 0x0e);
    assert gid == gid[0..8] + gid[8..16];
  }
}
