/** XXH3 of an input of 241 bytes, which is less than a block, and of one of 577
    bytes, which with a short secret is a whole block and a last stripe. */
module Xxh3KnownLong {
  import opened Bits
  import opened BitLemmas
  import opened Mixers
  import opened Mult128
  import opened Xxh3Secret
  import opened Xxh3Kernel
  import opened Xxh3Long
  import opened Xxh3Stream
  import opened WordValues
  import opened Xxh3Words

  const START: Lanes :=
    [0xC2B2AE3D, 0x9E3779B185EBCA87, 0xC2B2AE3D27D4EB4F, 0x165667B19E3779F9,
     0x85EBCA77C2B2AE63, 0x85EBCA77, 0x27D4EB2F165667C5, 0x9E3779B1]

  const AFTER1: Lanes :=
    [0x3959FC0465D0644D, 0xA84604CF318F0543, 0xA9ED5A143ADEB6E9, 0x2DC7A091694F50D7,
     0xDE29D3C6FB58A383, 0x2C07611F142C9457, 0x9ABB4D50A52D2395, 0x9ADE679E5A8F0E59]

  lemma Long241Stripe0()
    ensures Accumulate512(START, Ramp(241)[0..64], KSecret()[0..64]) == AFTER1
  {
    hide Accumulate512, Ramp, KSecretRows;
    var t := Accumulate512(START, Ramp(241)[0..64], KSecret()[0..64]);
    assert t[0] == 0x3959FC0465D0644D by {
      RampLane(START, 241, 0, 0, 0, 0, 0xC2B2AE3D, 0x0706050403020100, 0xBE4BA423396CFEB8, 0x3A6EFFB8, 0xB94DA127,
               0x0F0E0D0C0B0A0908, 0, 0x3959FC0465D0644D);
    }
    assert t[1] == 0xA84604CF318F0543 by {
      RampLane(START, 241, 0, 0, 1, 8, 0x9E3779B185EBCA87, 0x0F0E0D0C0B0A0908, 0x1CAD21F72C81017C, 0x278B0874,
               0x13A32CFB, 0x0706050403020100, 0, 0xA84604CF318F0543);
    }
    assert t[2] == 0xA9ED5A143ADEB6E9 by {
      RampLane(START, 241, 0, 0, 2, 16, 0xC2B2AE3D27D4EB4F, 0x1716151413121110, 0xDB979083E96DD4DE, 0xFA7FC5CE,
               0xCC818597, 0x1F1E1D1C1B1A1918, 1, 0xA9ED5A143ADEB6E9);
    }
    assert t[3] == 0x2DC7A091694F50D7 by {
      RampLane(START, 241, 0, 0, 3, 24, 0x165667B19E3779F9, 0x1F1E1D1C1B1A1918, 0x1F67B3B7A4A44072, 0xBFBE596A,
               0x79AEAB, 0x1716151413121110, 0, 0x2DC7A091694F50D7);
    }
    assert t[4] == 0xDE29D3C6FB58A383 by {
      RampLane(START, 241, 0, 0, 4, 32, 0x85EBCA77C2B2AE63, 0x2726252423222120, 0x78E5C0CC4EE679CB, 0x6DC458EB,
               0x5FC3E5E8, 0x2F2E2D2C2B2A2928, 0, 0xDE29D3C6FB58A383);
    }
    assert t[5] == 0x2C07611F142C9457 by {
      RampLane(START, 241, 0, 0, 5, 40, 0x85EBCA77, 0x2F2E2D2C2B2A2928, 0x2172FFCC7DD05A82, 0x56FA73AA, 0xE5CD2E0,
               0x2726252423222120, 0, 0x2C07611F142C9457);
    }
    assert t[6] == 0x9ABB4D50A52D2395 by {
      RampLane(START, 241, 0, 0, 6, 48, 0x27D4EB2F165667C5, 0x3736353433323130, 0x8E2443F7744608B8, 0x47743988,
               0xB91276C3, 0x3F3E3D3C3B3A3938, 0, 0x9ABB4D50A52D2395);
    }
    assert t[7] == 0x9ADE679E5A8F0E59 by {
      RampLane(START, 241, 0, 0, 7, 56, 0x9E3779B1, 0x3F3E3D3C3B3A3938, 0x4C263A81E69035E0, 0xDDAA0CD8, 0x731807BD,
               0x3736353433323130, 0, 0x9ADE679E5A8F0E59);
    }
    EightLanes(t);
  }

  const AFTER2: Lanes :=
    [0xB0C9755866CC0789, 0x4DD53142120A30CD, 0x4F3941FE6050CD67, 0x887D8CA886CF1BD7,
     0x55FF760B3D684D3B, 0xAEDCD0FC67218EA7, 0x3CF3F620025BAADD, 0x99D0595E6F1D33BD]

  lemma Long241Stripe1()
    ensures Accumulate512(AFTER1, Ramp(241)[64..128], KSecret()[8..72]) == AFTER2
  {
    hide Accumulate512, Ramp, KSecretRows;
    var t := Accumulate512(AFTER1, Ramp(241)[64..128], KSecret()[8..72]);
    assert t[0] == 0xB0C9755866CC0789 by {
      RampLane(AFTER1, 241, 64, 8, 0, 8, 0x3959FC0465D0644D, 0x4746454443424140, 0x1CAD21F72C81017C, 0x6FC3403C,
               0x5BEB64B3, 0x4F4E4D4C4B4A4948, 0, 0xB0C9755866CC0789);
    }
    assert t[1] == 0x4DD53142120A30CD by {
      RampLane(AFTER1, 241, 64, 8, 1, 16, 0xA84604CF318F0543, 0x4F4E4D4C4B4A4948, 0xDB979083E96DD4DE, 0xA2279D96,
               0x94D9DDCF, 0x4746454443424140, 1, 0x4DD53142120A30CD);
    }
    assert t[2] == 0x4F3941FE6050CD67 by {
      RampLane(AFTER1, 241, 64, 8, 2, 24, 0xA9ED5A143ADEB6E9, 0x5756555453525150, 0x1F67B3B7A4A44072, 0xF7F61122,
               0x4831E6E3, 0x5F5E5D5C5B5A5958, 1, 0x4F3941FE6050CD67);
    }
    assert t[3] == 0x887D8CA886CF1BD7 by {
      RampLane(AFTER1, 241, 64, 8, 3, 32, 0x2DC7A091694F50D7, 0x5F5E5D5C5B5A5958, 0x78E5C0CC4EE679CB, 0x15BC2093,
               0x27BB9D90, 0x5756555453525150, 0, 0x887D8CA886CF1BD7);
    }
    assert t[4] == 0x55FF760B3D684D3B by {
      RampLane(AFTER1, 241, 64, 8, 4, 40, 0xDE29D3C6FB58A383, 0x6766656463626160, 0x2172FFCC7DD05A82, 0x1EB23BE2,
               0x46149AA8, 0x6F6E6D6C6B6A6968, 1, 0x55FF760B3D684D3B);
    }
    assert t[5] == 0xAEDCD0FC67218EA7 by {
      RampLane(AFTER1, 241, 64, 8, 5, 48, 0x2C07611F142C9457, 0x6F6E6D6C6B6A6968, 0x8E2443F7744608B8, 0x1F2C61D0,
               0xE14A2E9B, 0x6766656463626160, 0, 0xAEDCD0FC67218EA7);
    }
    assert t[6] == 0x3CF3F620025BAADD by {
      RampLane(AFTER1, 241, 64, 8, 6, 56, 0x9ABB4D50A52D2395, 0x7776757473727170, 0x4C263A81E69035E0, 0x95E24490,
               0x3B504FF5, 0x7F7E7D7C7B7A7978, 1, 0x3CF3F620025BAADD);
    }
    assert t[7] == 0x99D0595E6F1D33BD by {
      RampLane(AFTER1, 241, 64, 8, 7, 64, 0x9ADE679E5A8F0E59, 0x7F7E7D7C7B7A7978, 0xCB00C391BB52283C, 0xC0285144,
               0xB47EBEED, 0x7776757473727170, 1, 0x99D0595E6F1D33BD);
    }
    EightLanes(t);
  }

  const AFTER3: Lanes :=
    [0x66CD283FF4209CA3, 0xF01105713EC9CAEB, 0xBDFBC9E043227D47, 0xCBD44466D8669987,
     0x28B027280E5159AB, 0x9B27A3F30E8020EF, 0x0105D20286DB1DD1, 0x56FB29CF235823BD]

  lemma Long241Stripe2()
    ensures Accumulate512(AFTER2, Ramp(241)[128..192], KSecret()[16..80]) == AFTER3
  {
    hide Accumulate512, Ramp, KSecretRows;
    var t := Accumulate512(AFTER2, Ramp(241)[128..192], KSecret()[16..80]);
    assert t[0] == 0x66CD283FF4209CA3 by {
      RampLane(AFTER2, 241, 128, 16, 0, 16, 0xB0C9755866CC0789, 0x8786858483828180, 0xDB979083E96DD4DE, 0x6AEF555E,
               0x5C111507, 0x8F8E8D8C8B8A8988, 1, 0x66CD283FF4209CA3);
    }
    assert t[1] == 0xF01105713EC9CAEB by {
      RampLane(AFTER2, 241, 128, 16, 1, 24, 0x4DD53142120A30CD, 0x8F8E8D8C8B8A8988, 0x1F67B3B7A4A44072, 0x2F2EC9FA,
               0x90E93E3B, 0x8786858483828180, 0, 0xF01105713EC9CAEB);
    }
    assert t[2] == 0xBDFBC9E043227D47 by {
      RampLane(AFTER2, 241, 128, 16, 2, 32, 0x4F3941FE6050CD67, 0x9796959493929190, 0x78E5C0CC4EE679CB, 0xDD74E85B,
               0xEF735558, 0x9F9E9D9C9B9A9998, 1, 0xBDFBC9E043227D47);
    }
    assert t[3] == 0xCBD44466D8669987 by {
      RampLane(AFTER2, 241, 128, 16, 3, 40, 0x887D8CA886CF1BD7, 0x9F9E9D9C9B9A9998, 0x2172FFCC7DD05A82, 0xE64AC31A,
               0xBEEC6250, 0x9796959493929190, 1, 0xCBD44466D8669987);
    }
    assert t[4] == 0x28B027280E5159AB by {
      RampLane(AFTER2, 241, 128, 16, 4, 48, 0x55FF760B3D684D3B, 0xA7A6A5A4A3A2A1A0, 0x8E2443F7744608B8, 0xD7E4A918,
               0x2982E653, 0xAFAEADACABAAA9A8, 1, 0x28B027280E5159AB);
    }
    assert t[5] == 0x9B27A3F30E8020EF by {
      RampLane(AFTER2, 241, 128, 16, 5, 56, 0xAEDCD0FC67218EA7, 0xAFAEADACABAAA9A8, 0x4C263A81E69035E0, 0x4D3A9C48,
               0xE388972D, 0xA7A6A5A4A3A2A1A0, 1, 0x9B27A3F30E8020EF);
    }
    assert t[6] == 0x0105D20286DB1DD1 by {
      RampLane(AFTER2, 241, 128, 16, 6, 64, 0x3CF3F620025BAADD, 0xB7B6B5B4B3B2B1B0, 0xCB00C391BB52283C, 0x8E0998C,
               0x7CB67625, 0xBFBEBDBCBBBAB9B8, 1, 0x0105D20286DB1DD1);
    }
    assert t[7] == 0x56FB29CF235823BD by {
      RampLane(AFTER2, 241, 128, 16, 7, 72, 0x99D0595E6F1D33BD, 0xBFBEBDBCBBBAB9B8, 0xA32E531B8B65D088, 0x30DF6930,
               0x1C90EEA7, 0xB7B6B5B4B3B2B1B0, 1, 0x56FB29CF235823BD);
    }
    EightLanes(t);
  }

  const LANES241: Lanes :=
    [0x4AF8CD31E13B3E32, 0xABB3FD376B1E52E4, 0xC50D0CF5A4BBA990, 0x964F95E1D75555FC,
     0xFAE93D68C0A76E4B, 0xBA1DD8F6C4AE4946, 0x5CF7A2E0D0DFAEE7, 0x6D4E46BC9CC12BF4]

  lemma Long241Last()
    ensures Accumulate512(AFTER3, Ramp(241)[177..241], KSecret()[121..185]) == LANES241
  {
    hide Accumulate512, Ramp, KSecretRows;
    var t := Accumulate512(AFTER3, Ramp(241)[177..241], KSecret()[121..185]);
    assert t[0] == 0x4AF8CD31E13B3E32 by {
      RampLane(AFTER3, 241, 177, 121, 0, 121, 0x66CD283FF4209CA3, 0xB8B7B6B5B4B3B2B1, 0xEA647378D9C97E9F, 0x6D7ACC2E,
               0x52D3C5CD, 0xC0BFBEBDBCBBBAB9, 1, 0x4AF8CD31E13B3E32);
    }
    assert t[1] == 0xABB3FD376B1E52E4 by {
      RampLane(AFTER3, 241, 177, 121, 1, 129, 0xF01105713EC9CAEB, 0xC0BFBEBDBCBBBAB9, 0xC5C3EBD33483ACC5, 0x8838167C,
               0x57C556E, 0xB8B7B6B5B4B3B2B1, 1, 0xABB3FD376B1E52E4);
    }
    assert t[2] == 0xC50D0CF5A4BBA990 by {
      RampLane(AFTER3, 241, 177, 121, 2, 137, 0xBDFBC9E043227D47, 0xC8C7C6C5C4C3C2C1, 0x17EB6313FAFFA081, 0x3E3C6240,
               0xDF2CA5D6, 0xD0CFCECDCCCBCAC9, 1, 0xC50D0CF5A4BBA990);
    }
    assert t[3] == 0x964F95E1D75555FC by {
      RampLane(AFTER3, 241, 177, 121, 3, 145, 0xCBD44466D8669987, 0xD0CFCECDCCCBCAC9, 0xD349DAF0B751DD0D, 0x7B9A17C4,
               0x386143D, 0xC8C7C6C5C4C3C2C1, 1, 0x964F95E1D75555FC);
    }
    assert t[4] == 0xFAE93D68C0A76E4B by {
      RampLane(AFTER3, 241, 177, 121, 4, 153, 0x28B027280E5159AB, 0xD8D7D6D5D4D3D2D1, 0x2B9E68D429265516, 0xFDF587C7,
               0xF349BE01, 0xE0DFDEDDDCDBDAD9, 1, 0xFAE93D68C0A76E4B);
    }
    assert t[5] == 0xBA1DD8F6C4AE4946 by {
      RampLane(AFTER3, 241, 177, 121, 5, 161, 0x9B27A3F30E8020EF, 0xE0DFDEDDDCDBDAD9, 0x8FFCA1477D58BE16, 0xA18364CF,
               0x6F237F9A, 0xD8D7D6D5D4D3D2D1, 1, 0xBA1DD8F6C4AE4946);
    }
    assert t[6] == 0x5CF7A2E0D0DFAEE7 by {
      RampLane(AFTER3, 241, 177, 121, 6, 169, 0x0105D20286DB1DD1, 0xE8E7E6E5E4E3E2E1, 0x45CE31D07AD1B8F8, 0x9E325A19,
               0xAD29D735, 0xF0EFEEEDECEBEAE9, 1, 0x5CF7A2E0D0DFAEE7);
    }
    assert t[7] == 0x6D4E46BC9CC12BF4 by {
      RampLane(AFTER3, 241, 177, 121, 7, 177, 0x56FB29CF235823BD, 0xF0EFEEEDECEBEAE9, 0xAF280416958F3ACB, 0x7964D022,
               0x5FC7EAFB, 0xE8E7E6E5E4E3E2E1, 1, 0x6D4E46BC9CC12BF4);
    }
    EightLanes(t);
  }

  lemma Long241LowStep0()
    ensures Mix2Accs(LANES241, 0, KSecret(), 11) == 0xF9026B106F43B34C
  {
    hide Mix2Accs, Read64, KSecretRows, Ramp;
    SecretReads(11, 0x6DD4DE1CAD21F72C);
    SecretReads(19, 0xA44072DB979083E9);
    MergeIs(LANES241, 0, KSecret(), 11, 0x4AF8CD31E13B3E32, 0xABB3FD376B1E52E4, 0x6DD4DE1CAD21F72C,
            0xA44072DB979083E9, 0x272C132D4C1AC91E, 0x0FF38FECFC8ED10D, 0xFB72B2EBD231B486, 0x0270D9FBBD7207CA);
  }

  lemma Long241LowStep1()
    ensures Mix2Accs(LANES241, 1, KSecret(), 27) == 0xAC8AF8FC7CAF4626
  {
    hide Mix2Accs, Read64, KSecretRows, Ramp;
    SecretReads(27, 0xE679CB1F67B3B7A4);
    SecretReads(35, 0xD05A8278E5C0CC4E);
    MergeIs(LANES241, 1, KSecret(), 27, 0xC50D0CF5A4BBA990, 0x964F95E1D75555FC, 0xE679CB1F67B3B7A4,
            0xD05A8278E5C0CC4E, 0x2374C7EAC3081E34, 0x46151799329599B2, 0xA53E227F31F61428, 0x09B4DA834D59520E);
  }

  lemma Long241LowStep2()
    ensures Mix2Accs(LANES241, 2, KSecret(), 43) == 0x48A292D566287D4E
  {
    hide Mix2Accs, Read64, KSecretRows, Ramp;
    SecretReads(43, 0x4608B82172FFCC7D);
    SecretReads(51, 0x9035E08E2443F774);
    MergeIs(LANES241, 2, KSecret(), 43, 0xFAE93D68C0A76E4B, 0xBA1DD8F6C4AE4946, 0x4608B82172FFCC7D,
            0x9035E08E2443F774, 0xBCE18549B258A236, 0x2A283878E0EDBE32, 0x57B83E1009B1C28C, 0x1F1AACC56F99BFC2);
  }

  lemma Long241LowStep3()
    ensures Mix2Accs(LANES241, 3, KSecret(), 59) == 0xEF92D65095CBD20E
  {
    hide Mix2Accs, Read64, KSecretRows, Ramp;
    SecretReads(59, 0x52283C4C263A81E6);
    SecretReads(67, 0x65D088CB00C391BB);
    MergeIs(LANES241, 3, KSecret(), 59, 0x5CF7A2E0D0DFAEE7, 0x6D4E46BC9CC12BF4, 0x52283C4C263A81E6,
            0x65D088CB00C391BB, 0x0EDF9EACF6E52F01, 0x089ECE779C02BA4F, 0xEF12E0A8AEE23B4F, 0x008036F83B29E941);
  }

  lemma Long241LowSum()
    ensures MergedSum(LANES241, KSecret(), 11, 0xF239901F12F9A917, 4) == 0xCFFC5D51FAE0F1E5
  {
    hide Mix2Accs, KSecretRows, Ramp;
    Long241LowStep0();
    Long241LowStep1();
    Long241LowStep2();
    Long241LowStep3();
    assert MergedSum(LANES241, KSecret(), 11, 0xF239901F12F9A917, 1) == 0xEB3BFB2F823D5C63;
    assert MergedSum(LANES241, KSecret(), 11, 0xF239901F12F9A917, 2) == 0x97C6F42BFEECA289;
    assert MergedSum(LANES241, KSecret(), 11, 0xF239901F12F9A917, 3) == 0xE069870165151FD7;
  }

  lemma Long241Low()
    ensures MergeAccs(LANES241, KSecret(), 11, 0xF239901F12F9A917) == 0x02E8CD95421C6D02
  {
    hide Xxh3Avalanche, MergedSum, KSecretRows, Ramp;
    Long241LowSum();
    AvalancheIs(0xCFFC5D51FAE0F1E5, 0x67FE2EA, 0x02E8CD9540F4A097, 0x2E8CD95);
  }

  lemma Long241HighStep0()
    ensures Mix2Accs(LANES241, 0, KSecret(), 117) == 0x6C5FA63E30E639C4
  {
    hide Mix2Accs, Read64, KSecretRows, Ramp;
    SecretReads(117, 0xD9C97E9FC83159B4);
    SecretReads(125, 0x3483ACC5EA647378);
    MergeIs(LANES241, 0, KSecret(), 117, 0x4AF8CD31E13B3E32, 0xABB3FD376B1E52E4, 0xD9C97E9FC83159B4,
            0x3483ACC5EA647378, 0x9331B3AE290A6786, 0x9F3051F2817A219C, 0x37D80137358B5BA8, 0x5B87A709056D626C);
  }

  lemma Long241HighStep1()
    ensures Mix2Accs(LANES241, 1, KSecret(), 133) == 0x3781DB0F5068D60F
  {
    hide Mix2Accs, Read64, KSecretRows, Ramp;
    SecretReads(133, 0xFAFFA081C5C3EBD3);
    SecretReads(141, 0xB751DD0D17EB6313);
    MergeIs(LANES241, 1, KSecret(), 133, 0xC50D0CF5A4BBA990, 0x964F95E1D75555FC, 0xFAFFA081C5C3EBD3,
            0xB751DD0D17EB6313, 0x3FF2AC7461784243, 0x211E48ECC0BE36EF, 0x3FC403EDCAF9FE8D, 0x0845D8E29A912882);
  }

  lemma Long241HighStep2()
    ensures Mix2Accs(LANES241, 2, KSecret(), 149) == 0xD196B3AA710120E8
  {
    hide Mix2Accs, Read64, KSecretRows, Ramp;
    SecretReads(149, 0x29265516D349DAF0);
    SecretReads(157, 0x7D58BE162B9E68D4);
    MergeIs(LANES241, 2, KSecret(), 149, 0xFAE93D68C0A76E4B, 0xBA1DD8F6C4AE4946, 0x29265516D349DAF0,
            0x7D58BE162B9E68D4, 0xD3CF687E13EEB4BB, 0xC74566E0EF302192, 0x754915959B7F2DA6, 0xA4DFA63FEA7E0D4E);
  }

  lemma Long241HighStep3()
    ensures Mix2Accs(LANES241, 3, KSecret(), 165) == 0x4D838D4EE3D85EBA
  {
    hide Mix2Accs, Read64, KSecretRows, Ramp;
    SecretReads(165, 0x7AD1B8F88FFCA147);
    SecretReads(173, 0x958F3ACB45CE31D0);
    MergeIs(LANES241, 3, KSecret(), 165, 0x5CF7A2E0D0DFAEE7, 0x6D4E46BC9CC12BF4, 0x7AD1B8F88FFCA147,
            0x958F3ACB45CE31D0, 0x26261A185F230FA0, 0xF8C17C77D90F1A24, 0x689233C37AE47280, 0x2511BE8D993C2C3A);
  }

  lemma Long241HighSum()
    ensures MergedSum(LANES241, KSecret(), 117, 0xB5C9F86D808E7AA0, 4) == 0x78C5BAB456B70A15
  {
    hide Mix2Accs, KSecretRows, Ramp;
    Long241HighStep0();
    Long241HighStep1();
    Long241HighStep2();
    Long241HighStep3();
    assert MergedSum(LANES241, KSecret(), 117, 0xB5C9F86D808E7AA0, 1) == 0x22299EABB174B464;
    assert MergedSum(LANES241, KSecret(), 117, 0xB5C9F86D808E7AA0, 2) == 0x59AB79BB01DD8A73;
    assert MergedSum(LANES241, KSecret(), 117, 0xB5C9F86D808E7AA0, 3) == 0x2B422D6572DEAB5B;
  }

  lemma Long241High()
    ensures MergeAccs(LANES241, KSecret(), 117, 0xB5C9F86D808E7AA0) == 0x1DA1CB61BCB8A2A1
  {
    hide Xxh3Avalanche, MergedSum, KSecretRows, Ramp;
    Long241HighSum();
    AvalancheIs(0x78C5BAB456B70A15, 0x3C62DD5, 0x1DA1CB61A11969C0, 0x1DA1CB61);
  }

  lemma Long241Lanes()
    ensures LongAcc(Ramp(241), KSecret()) == LANES241
  {
    hide Accumulate512, Ramp, KSecretRows, Scramble;
    var data, secret := Ramp(241), KSecret();
    Long241Stripe0();
    Long241Stripe1();
    Long241Stripe2();
    Long241Last();
    ThreeStripes(data, secret);
  }

  /** Three stripes are less than a block. */
  lemma ThreeStripes(data: bytes, secret: bytes)
    requires |data| == 241 && |secret| == 192
    ensures var one := Accumulate512(InitialAcc(), data[0..64], secret[0..64]);
      var two := Accumulate512(one, data[64..128], secret[8..72]);
      var three := Accumulate512(two, data[128..192], secret[16..80]);
      LongAcc(data, secret) == Accumulate512(three, data[177..241], secret[121..185])
  {
    hide Accumulate512, Scramble;
    var start := Core(InitialAcc(), 0);
    var one := Consume(start, data, 1, secret);
    assert one == Step(start, data[0..64], secret);
    var two := Consume(start, data, 2, secret);
    assert two == Step(one, data[64..128], secret);
    var three := Consume(start, data, 3, secret);
    assert three == Step(two, data[128..192], secret);
    assert data[177..] == data[177..241];
  }

  lemma Long241Known()
    ensures OneShot64(Default, Ramp(241)) == 0x02E8CD95421C6D02
    ensures OneShot128(Default, Ramp(241)) == Hash128(0x02E8CD95421C6D02, 0x1DA1CB61BCB8A2A1)
  {
    hide LongAcc, MergeAccs, Ramp, KSecretRows;
    Long241Lanes();
    Long241Low();
    Long241High();
    assert Mul64(241, PRIME64_1) == 0xF239901F12F9A917 && Not64(Mul64(241, PRIME64_2)) == 0xB5C9F86D808E7AA0;
  }

  function Zeros(n: nat): (b: bytes)
    ensures |b| == n
  {
    seq(n, i => 0)
  }

  lemma ZerosRead(n: nat, at: nat)
    requires at + 8 <= n
    ensures Read64(Zeros(n), at) == 0
  {
  }

  /** The product of a lane whose data is 0 and whose key is the word of a ramp
      that starts with `at`. */
  function RampProduct(at: nat): nat { (0x03020100 + 0x01010101 * at) * (0x07060504 + 0x01010101 * at) }

  /** What a lane gains in the first n stripes. */
  function RampProducts(lane: nat, n: nat): nat {
    if n == 0 then 0 else RampProducts(lane, n - 1) + RampProduct(8 * (n - 1 + lane))
  }

  lemma ZeroLane(acc: Lanes, stripe: bytes, from: nat, lane: nat)
    requires stripe == Zeros(64) && from + 64 <= 136 && lane < 8
    ensures Accumulate512(acc, stripe, Ramp(136)[from..from + 64])[lane] as int
         == (RampProduct(from + 8 * lane) + acc[lane] as int) % 0x1_0000_0000_0000_0000
  {
    hide Read64, Accumulate512, Ramp, Zeros, RampProduct;
    var key, at := Ramp(136)[from..from + 64], from + 8 * lane;
    RampReads(136);
    PartReads(Ramp(136), from, from + 64);
    ZerosRead(64, 8 * lane);
    ZerosRead(64, 8 * Neighbour(lane));
    var k := Read64(key, 8 * lane);
    LaneWithoutData(acc, stripe, key, lane, k);
    RampHalves(k, at);
  }

  lemma LaneWithoutData(acc: Lanes, stripe: bytes, key: bytes, lane: nat, k: u64)
    requires |stripe| == |key| == 64 && lane < 8 && Read64(stripe, 8 * lane) == Read64(stripe, 8 * Neighbour(lane)) == 0
    requires Read64(key, 8 * lane) == k
    ensures Accumulate512(acc, stripe, key)[lane] as int
         == (Low32(k) as int * High32(k) as int + acc[lane] as int) % 0x1_0000_0000_0000_0000
  {
    hide Read64, Xor64, Mult32To64;
    Xor64Zero(k);
    ProductOfLows(k, High32(k));
    AddInTurn(Mult32To64(k, High32(k)), acc[lane], 0);
  }

  lemma Xor64Zero(k: u64)
    ensures Xor64(0, k) == k
  {
    XorZero(k);
  }

  lemma RampHalves(k: u64, at: nat)
    requires at <= 128 && k as int == 0x0706050403020100 + 0x0101010101010101 * at
    ensures Low32(k) as int * High32(k) as int == RampProduct(at)
  {
    SameHalves(Low32(k), High32(k), 0x03020100 + 0x01010101 * at, 0x07060504 + 0x01010101 * at);
  }

  lemma {:induction false} ZeroStripes(acc: Lanes, n: nat, lane: nat)
    requires n <= 9 && lane < 8
    ensures AccumulateStripes(acc, Zeros(577), Ramp(136), 0, n)[lane] as int
         == (acc[lane] as int + RampProducts(lane, n)) % 0x1_0000_0000_0000_0000
  {
    hide Accumulate512, Zeros, Ramp, RampProduct;
    if n != 0 {
      ZeroStripes(acc, n - 1, lane);
      ZeroStripe(n - 1);
      var before := AccumulateStripes(acc, Zeros(577), Ramp(136), 0, n - 1);
      ZeroLane(before, Stripe(Zeros(577), n - 1), 8 * (n - 1), lane);
      AddedModulo(RampProduct(8 * (n - 1 + lane)), acc[lane] as int + RampProducts(lane, n - 1));
    }
  }

  lemma ZeroStripe(i: nat)
    requires 64 * i + 64 <= 577
    ensures Stripe(Zeros(577), i) == Zeros(64)
  {
  }

  lemma AddedModulo(x: nat, y: nat)
    ensures (x + y % 0x1_0000_0000_0000_0000) % 0x1_0000_0000_0000_0000 == (y + x) % 0x1_0000_0000_0000_0000
  {
  }

  lemma LowerProducts()
    ensures RampProducts(0, 9) == 0x3f79161f2a269b80
    ensures RampProducts(1, 9) == 0x56b6e9f84c2200e0
    ensures RampProducts(2, 9) == 0x727dcb637ba66ac0
    ensures RampProducts(3, 9) == 0x92cdba60b8b3d920
  {
    hide RampProduct;
    ProductValues();
    assert RampProducts(0, 3) == 0x273966df99a7da0;
    assert RampProducts(1, 3) == 0x5a9cf79a20ff040;
    assert RampProducts(2, 3) == 0xa630d0b4f086460;
    assert RampProducts(3, 3) == 0x109f4f230083da00;
    assert RampProducts(0, 6) == 0x1312e590fa1e57a0;
    assert RampProducts(1, 6) == 0x1e08653a58924160;
    assert RampProducts(2, 6) == 0x2c03edefc00c2e20;
    assert RampProducts(3, 6) == 0x3d057fb1308c1de0;
  }

  lemma UpperProducts()
    ensures RampProducts(4, 9) == 0xb7a6b6f0034a4c00
    ensures RampProducts(5, 9) == 0xe108c1115b69c360
    ensures RampProducts(6, 9) == 0x10ef3d8c4c1123f40
    ensures RampProducts(7, 9) == 0x14167fe0a3443bfa0
  {
    hide RampProduct;
    ProductValues();
    assert RampProducts(4, 3) == 0x185e95c0b6825120;
    assert RampProducts(5, 3) == 0x21a0e0e47103c9c0;
    assert RampProducts(6, 3) == 0x2c66308e300843e0;
    assert RampProducts(7, 3) == 0x38ae84bdf38fbf80;
    assert RampProducts(4, 6) == 0x510d1a7eaa1210a0;
    assert RampProducts(5, 6) == 0x681abe582c9e0660;
    assert RampProducts(6, 6) == 0x822e6b3db82fff20;
    assert RampProducts(7, 6) == 0x9f48212f4cc7fae0;
  }

  lemma ProductValues()
    ensures RampProduct(0) == 0x001520221C0D0400
    ensures RampProduct(8) == 0x00A631A3FD5DD460
    ensures RampProduct(16) == 0x01B844A7E02FA540
    ensures RampProduct(24) == 0x034B592DC48276A0
    ensures RampProduct(32) == 0x055F6F35AA564880
    ensures RampProduct(40) == 0x07F486BF91AB1AE0
    ensures RampProduct(48) == 0x0B0A9FCB7A80EDC0
    ensures RampProduct(56) == 0x0EA1BA5964D7C120
    ensures RampProduct(64) == 0x12B9D66950AF9500
    ensures RampProduct(72) == 0x1752F3FB3E086960
    ensures RampProduct(80) == 0x1C6D130F2CE23E40
    ensures RampProduct(88) == 0x220833A51D3D13A0
    ensures RampProduct(96) == 0x282455BD0F18E980
    ensures RampProduct(104) == 0x2EC179570275BFE0
    ensures RampProduct(112) == 0x35DF9E72F75396C0
    ensures RampProduct(120) == 0x3D7EC510EDB26E20
    ensures RampProduct(128) == 0x459EED30E5924600
  {
  }

  const BLOCK: Lanes :=
    [0x3F79161FECD949BD, 0xF4EE63A9D20DCB67, 0x353079A0A37B560F, 0xA924221256EB5319,
     0x3D928167C5FCFA63, 0xE108C111E1558DD7, 0x36C8C3F3D768A705, 0x4167FE0AD27B3951]

  const SCRAMBLED: Lanes :=
    [0x00D6B783F90C71D7, 0x8AAAEE420895387B, 0xB9210FD408BEFA07, 0x3F09F3B36148AAE1,
     0xD8B45F514FF645CE, 0x62E4BD39ED2F61D6, 0xF47D2CBB1FACF22C, 0x7778208F7A3B5CBE]

  lemma BlockLanes()
    ensures AccumulateStripes(InitialAcc(), Zeros(577), Ramp(136), 0, 9) == BLOCK
  {
    hide AccumulateStripes, Zeros, Ramp, RampProducts;
    LowerProducts();
    UpperProducts();
    forall lane: nat | lane < 8
      ensures AccumulateStripes(InitialAcc(), Zeros(577), Ramp(136), 0, 9)[lane] as int
           == (InitialAcc()[lane] as int + RampProducts(lane, 9)) % 0x1_0000_0000_0000_0000
    {
      ZeroStripes(InitialAcc(), 9, lane);
    }
    EightLanes(AccumulateStripes(InitialAcc(), Zeros(577), Ramp(136), 0, 9));
  }

  lemma ScrambledLower()
    ensures ScrambleLane(0x3F79161FECD949BD, 0x4F4E4D4C4B4A4948) == 0x00D6B783F90C71D7
    ensures ScrambleLane(0xF4EE63A9D20DCB67, 0x5756555453525150) == 0x8AAAEE420895387B
    ensures ScrambleLane(0x353079A0A37B560F, 0x5F5E5D5C5B5A5958) == 0xB9210FD408BEFA07
    ensures ScrambleLane(0xA924221256EB5319, 0x6766656463626160) == 0x3F09F3B36148AAE1
  {
    hide XorShift64, Xor64, Pow2;
    ShiftPowers();
    XorShiftIs(0x3F79161FECD949BD, 47, 0x8000_0000_0000, 0x7EF2);
    XorOf(0x3F79161FECD9374F, 0x4F4E4D4C4B4A4948);
    assert Mul64(0x70375B53A7937E07, PRIME32_1) == 0x00D6B783F90C71D7;
    XorShiftIs(0xF4EE63A9D20DCB67, 47, 0x8000_0000_0000, 0x1E9DC);
    XorOf(0xF4EE63A9D20C22BB, 0x5756555453525150);
    assert Mul64(0xA3B836FD815E73EB, PRIME32_1) == 0x8AAAEE420895387B;
    XorShiftIs(0x353079A0A37B560F, 47, 0x8000_0000_0000, 0x6A60);
    XorOf(0x353079A0A37B3C6F, 0x5F5E5D5C5B5A5958);
    assert Mul64(0x6A6E24FCF8216537, PRIME32_1) == 0xB9210FD408BEFA07;
    XorShiftIs(0xA924221256EB5319, 47, 0x8000_0000_0000, 0x15248);
    XorOf(0xA924221256EA0151, 0x6766656463626160);
    assert Mul64(0xCE42477635886031, PRIME32_1) == 0x3F09F3B36148AAE1;
  }

  lemma ScrambledUpper()
    ensures ScrambleLane(0x3D928167C5FCFA63, 0x6F6E6D6C6B6A6968) == 0xD8B45F514FF645CE
    ensures ScrambleLane(0xE108C111E1558DD7, 0x7776757473727170) == 0x62E4BD39ED2F61D6
    ensures ScrambleLane(0x36C8C3F3D768A705, 0x7F7E7D7C7B7A7978) == 0xF47D2CBB1FACF22C
    ensures ScrambleLane(0x4167FE0AD27B3951, 0x8786858483828180) == 0x7778208F7A3B5CBE
  {
    hide XorShift64, Xor64, Pow2;
    ShiftPowers();
    XorShiftIs(0x3D928167C5FCFA63, 47, 0x8000_0000_0000, 0x7B25);
    XorOf(0x3D928167C5FC8146, 0x6F6E6D6C6B6A6968);
    assert Mul64(0x52FCEC0BAE96E82E, PRIME32_1) == 0xD8B45F514FF645CE;
    XorShiftIs(0xE108C111E1558DD7, 47, 0x8000_0000_0000, 0x1C211);
    XorOf(0xE108C111E1544FC6, 0x7776757473727170);
    assert Mul64(0x967EB46592263EB6, PRIME32_1) == 0x62E4BD39ED2F61D6;
    XorShiftIs(0x36C8C3F3D768A705, 47, 0x8000_0000_0000, 0x6D91);
    XorOf(0x36C8C3F3D768CA94, 0x7F7E7D7C7B7A7978);
    assert Mul64(0x49B6BE8FAC12B3EC, PRIME32_1) == 0xF47D2CBB1FACF22C;
    XorShiftIs(0x4167FE0AD27B3951, 47, 0x8000_0000_0000, 0x82CF);
    XorOf(0x4167FE0AD27BBB9E, 0x8786858483828180);
    assert Mul64(0xC6E17B8E51F93A1E, PRIME32_1) == 0x7778208F7A3B5CBE;
  }

  lemma ScrambledLanes()
    ensures Scramble(BLOCK, Ramp(136)[72..136]) == SCRAMBLED
  {
    hide ScrambleLane, Ramp, Read64;
    ScrambledLower();
    ScrambledUpper();
    RampReads(136);
    PartReads(Ramp(136), 72, 136);
    EightLanes(Scramble(BLOCK, Ramp(136)[72..136]));
  }

  const LANES577: Lanes :=
    [0x141CA38A6B52135C, 0xA29A180AA863CE70, 0xD63A78E0D79784EC, 0x61CE9D8660AC2B36,
     0x01A54B6C8165BC13, 0x9282ED1F522BCE8B, 0x2B49A1ECB9B755D1, 0xB5F3DC8F4AD4B7D3]

  lemma LastZeroLanes()
    ensures Accumulate512(SCRAMBLED, Zeros(64), Ramp(136)[65..129]) == LANES577
  {
    hide Accumulate512, Zeros, Ramp;
    var t := Accumulate512(SCRAMBLED, Zeros(64), Ramp(136)[65..129]);
    assert t[0] == 0x141CA38A6B52135C by {
      ZeroLane(SCRAMBLED, Zeros(64), 65, 0);
    }
    assert t[1] == 0xA29A180AA863CE70 by {
      ZeroLane(SCRAMBLED, Zeros(64), 65, 1);
    }
    assert t[2] == 0xD63A78E0D79784EC by {
      ZeroLane(SCRAMBLED, Zeros(64), 65, 2);
    }
    assert t[3] == 0x61CE9D8660AC2B36 by {
      ZeroLane(SCRAMBLED, Zeros(64), 65, 3);
    }
    assert t[4] == 0x01A54B6C8165BC13 by {
      ZeroLane(SCRAMBLED, Zeros(64), 65, 4);
    }
    assert t[5] == 0x9282ED1F522BCE8B by {
      ZeroLane(SCRAMBLED, Zeros(64), 65, 5);
    }
    assert t[6] == 0x2B49A1ECB9B755D1 by {
      ZeroLane(SCRAMBLED, Zeros(64), 65, 6);
    }
    assert t[7] == 0xB5F3DC8F4AD4B7D3 by {
      ZeroLane(SCRAMBLED, Zeros(64), 65, 7);
    }
    EightLanes(t);
  }

  lemma Zeros577Step0()
    ensures Mix2Accs(LANES577, 0, Ramp(136), 11) == 0xD46C16D44ABEBBA2
  {
    hide Mix2Accs, Read64, KSecretRows, Ramp;
    RampReads(136);
    MergeIs(LANES577, 0, Ramp(136), 11, 0x141CA38A6B52135C, 0xA29A180AA863CE70, 0x1211100F0E0D0C0B,
            0x1A19181716151413, 0x060DB385655F1F57, 0xB883001DBE76DA63, 0xD030E4DF389334A5, 0x045CF20B722D8F07);
  }

  lemma Zeros577Step1()
    ensures Mix2Accs(LANES577, 1, Ramp(136), 27) == 0x1CC515D050B871D4
  {
    hide Mix2Accs, Read64, KSecretRows, Ramp;
    RampReads(136);
    MergeIs(LANES577, 1, Ramp(136), 27, 0xD63A78E0D79784EC, 0x61CE9D8660AC2B36, 0x2221201F1E1D1C1B,
            0x2A29282726252423, 0xF41B58FFC98A98F7, 0x4BE7B5A146890F15, 0x54A5E1210D840543, 0x4860F4F15D3C7497);
  }

  lemma Zeros577Step2()
    ensures Mix2Accs(LANES577, 2, Ramp(136), 43) == 0xF043FC24BCE92261
  {
    hide Mix2Accs, Read64, KSecretRows, Ramp;
    RampReads(136);
    MergeIs(LANES577, 2, Ramp(136), 43, 0x01A54B6C8165BC13, 0x9282ED1F522BCE8B, 0x3231302F2E2D2C2B,
            0x3A39383736353433, 0x33947B43AF489038, 0xA8BBD528641EFAB8, 0xD1BCB5699F8E5840, 0x21FF494D23677A21);
  }

  lemma Zeros577Step3()
    ensures Mix2Accs(LANES577, 3, Ramp(136), 59) == 0x210B7FA16BB4EF9B
  {
    hide Mix2Accs, Read64, KSecretRows, Ramp;
    RampReads(136);
    MergeIs(LANES577, 3, Ramp(136), 59, 0x2B49A1ECB9B755D1, 0xB5F3DC8F4AD4B7D3, 0x4241403F3E3D3C3B,
            0x4A49484746454443, 0x6908E1D3878A69EA, 0xFFBA94C80C91F390, 0x49E719D195EEB1A0, 0x68EC6670FE5A5E3B);
  }

  lemma Zeros577Sum()
    ensures MergedSum(LANES577, Ramp(136), 11, 0x9B09491ED8737A47, 4) == 0x9D89F1899C88B9B9
  {
    hide Mix2Accs, KSecretRows, Ramp;
    Zeros577Step0();
    Zeros577Step1();
    Zeros577Step2();
    Zeros577Step3();
    assert MergedSum(LANES577, Ramp(136), 11, 0x9B09491ED8737A47, 1) == 0x6F755FF3233235E9;
    assert MergedSum(LANES577, Ramp(136), 11, 0x9B09491ED8737A47, 2) == 0x8C3A75C373EAA7BD;
    assert MergedSum(LANES577, Ramp(136), 11, 0x9B09491ED8737A47, 3) == 0x7C7E71E830D3CA1E;
  }

  lemma Zeros577()
    ensures MergeAccs(LANES577, Ramp(136), 11, 0x9B09491ED8737A47) == 0x7300CC87FEF54A0A
  {
    hide Xxh3Avalanche, MergedSum, KSecretRows, Ramp;
    Zeros577Sum();
    AvalancheIs(0x9D89F1899C88B9B9, 0x4EC4F8C, 0x7300CC878DF5868D, 0x7300CC87);
  }

  lemma Zeros577Lanes()
    ensures LongAcc(Zeros(577), Ramp(136)) == LANES577
  {
    hide Accumulate512, AccumulateStripes, Scramble, Zeros, Ramp;
    BlockLanes();
    ScrambledLanes();
    LastZeroLanes();
    PerBlock(Ramp(136));
    OneBlock(Zeros(577), Ramp(136), 9);
    ZerosEnd();
    assert Ramp(136)[72..] == Ramp(136)[72..136];
  }

  lemma ZerosEnd()
    ensures Zeros(577)[513..] == Zeros(64)
  {
  }

  /** An input of one block and a last stripe. */
  lemma OneBlock(data: bytes, secret: bytes, n: nat)
    requires IsSecret(secret) && n == StripesPerBlock(secret) && |data| > 240 && (|data| - 1) / 64 == n
    ensures var block := AccumulateStripes(InitialAcc(), data, secret, 0, n);
      LongAcc(data, secret) == LastStripe(Scramble(block, secret[|secret| - 64..]), data[|data| - 64..], secret)
  {
    hide Accumulate512, AccumulateStripes, Scramble, Consume, LastStripe, StripesPerBlock, InitialAcc;
    ConsumeToBlockEnd(Core(InitialAcc(), 0), data, n, secret);
  }

  /** With a secret of 136 bytes a block is 576 bytes. */
  lemma PerBlock(secret: bytes)
    requires |secret| == 136
    ensures IsSecret(secret) && StripesPerBlock(secret) == 9
  {
  }

  lemma Zeros577Known()
    ensures OneShot64(WithSecret(Ramp(136)), Zeros(577)) == 0x7300CC87FEF54A0A
  {
    hide LongAcc, MergeAccs, Ramp, Zeros;
    Zeros577Lanes();
    Zeros577();
    assert Mul64(577, PRIME64_1) == 0x9B09491ED8737A47;
  }
}
