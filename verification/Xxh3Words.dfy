/** Words of the default secret and of the inputs on which the hashes are
    computed. */
module Xxh3Words {
  import opened Bits
  import opened Mult128
  import opened Xxh3Short
  import opened Xxh3Secret
  import opened Xxh3Kernel
  import opened Xxh3Long
  import opened WordValues

  /* The default secret */

  /** Its words in order. */
  function SecretWord(j: nat): bv64
    requires j < 24
  {
    if j < 12 then (if j < 6 then FirstWords(j) else SecondWords(j))
    else if j < 18 then ThirdWords(j)
    else LastWords(j)
  }

  function FirstWords(j: nat): bv64
    requires j < 6
  {
    match j
    case 0 => 0xBE4BA423396CFEB8
    case 1 => 0x1CAD21F72C81017C
    case 2 => 0xDB979083E96DD4DE
    case 3 => 0x1F67B3B7A4A44072
    case 4 => 0x78E5C0CC4EE679CB
    case _ => 0x2172FFCC7DD05A82
  }

  function SecondWords(j: nat): bv64
    requires 6 <= j < 12
  {
    match j
    case 6 => 0x8E2443F7744608B8
    case 7 => 0x4C263A81E69035E0
    case 8 => 0xCB00C391BB52283C
    case 9 => 0xA32E531B8B65D088
    case 10 => 0x4EF90DA297486471
    case _ => 0xD8ACDEA946EF1938
  }

  function ThirdWords(j: nat): bv64
    requires 12 <= j < 18
  {
    match j
    case 12 => 0x3F349CE33F76FAA8
    case 13 => 0x1D4F0BC7C7BBDCF9
    case 14 => 0x3159B4CD4BE0518A
    case 15 => 0x647378D9C97E9FC8
    case 16 => 0xC3EBD33483ACC5EA
    case _ => 0xEB6313FAFFA081C5
  }

  function LastWords(j: nat): bv64
    requires 18 <= j < 24
  {
    match j
    case 18 => 0x49DAF0B751DD0D17
    case 19 => 0x9E68D429265516D3
    case 20 => 0xFCA1477D58BE162B
    case 21 => 0xCE31D07AD1B8F88F
    case 22 => 0x280416958F3ACB45
    case _ => 0x7E404BBBCAFBD7AF
  }

  lemma {:induction false} RowAt(n: nat, i: nat)
    requires i < n <= 12
    ensures KSecretRows(n)[16 * i..16 * i + 16] == KSecretRow(i)
  {
    hide KSecretRow;
    if i < n - 1 {
      RowAt(n - 1, i);
      assert KSecretRows(n)[..16 * (n - 1)] == KSecretRows(n - 1);
    }
  }

  lemma RowWord(r: nat)
    requires r < 12
    ensures Read64(KSecretRow(r), 0) == Value(SecretWord(2 * r))
    ensures Read64(KSecretRow(r), 8) == Value(SecretWord(2 * r + 1))
  {
    if r < 3 {
      FirstRowWord(r);
    } else if r < 6 {
      SecondRowWord(r);
    } else if r < 9 {
      ThirdRowWord(r);
    } else {
      LastRowWord(r);
    }
  }

  lemma FirstRowWord(r: nat)
    requires 0 <= r < 3
    ensures Read64(KSecretRow(r), 0) == Value(SecretWord(2 * r))
    ensures Read64(KSecretRow(r), 8) == Value(SecretWord(2 * r + 1))
  {
    match r
    case 0 => case 1 => case _ =>
  }

  lemma SecondRowWord(r: nat)
    requires 3 <= r < 6
    ensures Read64(KSecretRow(r), 0) == Value(SecretWord(2 * r))
    ensures Read64(KSecretRow(r), 8) == Value(SecretWord(2 * r + 1))
  {
    match r
    case 3 => case 4 => case _ =>
  }

  lemma ThirdRowWord(r: nat)
    requires 6 <= r < 9
    ensures Read64(KSecretRow(r), 0) == Value(SecretWord(2 * r))
    ensures Read64(KSecretRow(r), 8) == Value(SecretWord(2 * r + 1))
  {
    match r
    case 6 => case 7 => case _ =>
  }

  lemma LastRowWord(r: nat)
    requires 9 <= r < 12
    ensures Read64(KSecretRow(r), 0) == Value(SecretWord(2 * r))
    ensures Read64(KSecretRow(r), 8) == Value(SecretWord(2 * r + 1))
  {
    match r
    case 9 => case 10 => case _ =>
  }

  lemma SecretWordAt(j: nat)
    requires j < 24
    ensures Read64(KSecret(), 8 * j) == Value(SecretWord(j))
  {
    hide SecretWord, Value, KSecretRow, KSecretRows;
    var r := j / 2;
    RowWord(r);
    RowAt(12, r);
    ReadInside(KSecret(), 16 * r, KSecretRow(r), 0);
    ReadInside(KSecret(), 16 * r, KSecretRow(r), 8);
  }

  lemma ReadInside(b: bytes, from: nat, part: bytes, at: nat)
    requires from + |part| <= |b| && b[from..from + |part|] == part && at + 8 <= |part|
    ensures Read64(b, from + at) == Read64(part, at)
  {
    var s := b[from..from + |part|];
    assert s[at] == b[from + at] && s[at + 1] == b[from + at + 1] && s[at + 2] == b[from + at + 2];
    assert s[at + 3] == b[from + at + 3] && s[at + 4] == b[from + at + 4] && s[at + 5] == b[from + at + 5];
    assert s[at + 6] == b[from + at + 6] && s[at + 7] == b[from + at + 7];
  }

  /** The word that starts at a given byte is k. */
  predicate SecretHas(off: nat, k: bv64)
    requires off + 8 <= 192
  {
    var s := off % 8;
    if s == 0 then SecretWord(off / 8) == k
    else (s == 1 || s == 3 || s == 5 || s == 7) && Across(SecretWord(off / 8), SecretWord(off / 8 + 1), s) == k
  }

  lemma SecretReads(off: nat, k: bv64)
    requires off + 8 <= 192 && SecretHas(off, k)
    ensures Read64(KSecret(), off) == Value(k)
  {
    hide SecretWord, Value, KSecretRows, Read64, Across;
    var j := off / 8;
    SecretWordAt(j);
    if off % 8 != 0 {
      SecretWordAt(j + 1);
      ReadAcross(KSecret(), 8 * j, SecretWord(j), SecretWord(j + 1), off % 8);
    }
  }

  /* Inputs */

  /** 0, 1, 2, ... */
  function Ramp(n: nat): (b: bytes)
    requires n <= 0x100
    ensures |b| == n
  {
    seq(n, i requires 0 <= i < n => i)
  }

  lemma RampReads(n: nat)
    requires n <= 0x100
    ensures forall at: nat :: at + 8 <= n ==> Read64(Ramp(n), at) as int == 0x0706050403020100 + 0x0101010101010101 * at
  {
    forall at: nat | at + 8 <= n
      ensures Read64(Ramp(n), at) as int == 0x0706050403020100 + 0x0101010101010101 * at
    {
    }
  }

  /* Mixing with the default secret */

  /** Words x0 and x1, keyed with k0 and k1 and a seed, are a and b, and the
      product of these has the words lo and hi. */
  predicate Mixes(x0: bv64, x1: bv64, k0: bv64, k1: bv64, seed: bv64, a: u64, b: u64, lo: bv64, hi: bv64) {
    && Add64(Value(k0), Value(seed)) == Value(k0 + seed)
    && Sub64(Value(k1), Value(seed)) == Value(k1 - seed)
    && a == Value(x0 ^ (k0 + seed)) && b == Value(x1 ^ (k1 - seed))
    && a as int * b as int == Value(lo) as int + 0x1_0000_0000_0000_0000 * Value(hi) as int
  }

  lemma SeededMix(input: bytes, at: nat, x0: bv64, x1: bv64, off: nat, k0: bv64, k1: bv64, seed: bv64, a: u64, b: u64,
                  lo: bv64, hi: bv64)
    requires at + 16 <= |input| && off + 16 <= 192
    requires Read64(input, at) == Value(x0) && Read64(input, at + 8) == Value(x1)
    requires Read64(KSecret(), off) == Value(k0) && Read64(KSecret(), off + 8) == Value(k1)
    requires Mixes(x0, x1, k0, k1, seed, a, b, lo, hi)
    ensures Mix16B(input, at, KSecret(), off, Value(seed)) == Value(lo ^ hi)
  {
    hide Value, Add64, Sub64, Mix16B, KSecretRows, Read64;
    MixIs(input, at, KSecret(), off, Value(seed), x0, x1, k0 + seed, k1 - seed, a, b, lo, hi);
  }

  lemma KeyedMix(input: bytes, at: nat, off: nat, x0: bv64, x1: bv64, k0: bv64, k1: bv64, seed: bv64,
                 a: u64, b: u64, lo: bv64, hi: bv64)
    requires at + 16 <= |input| && off + 16 <= 192
    requires Read64(input, at) == Value(x0) && Read64(input, at + 8) == Value(x1)
    requires SecretHas(off, k0) && SecretHas(off + 8, k1)
    requires Mixes(x0, x1, k0, k1, seed, a, b, lo, hi)
    ensures Mix16B(input, at, KSecret(), off, Value(seed)) == Value(lo ^ hi)
  {
    hide *;
    SecretReads(off, k0);
    SecretReads(off + 8, k1);
    SeededMix(input, at, x0, x1, off, k0, k1, seed, a, b, lo, hi);
  }

  predicate Adds(x: bv64, y: bv64) { Add64(Value(x), Value(y)) == Value(x + y) }

  lemma Mix32Is(input: bytes, at1: nat, at2: nat, off: nat, seed: bv64, low: bv64, high: bv64,
                m1: bv64, m2: bv64, s1: bv64, s2: bv64)
    requires at1 + 16 <= |input| && at2 + 16 <= |input| && off + 32 <= 192
    requires Add64(Read64(input, at1), Read64(input, at1 + 8)) == Value(s1)
    requires Add64(Read64(input, at2), Read64(input, at2 + 8)) == Value(s2)
    requires Mix16B(input, at1, KSecret(), off, Value(seed)) == Value(m1)
    requires Mix16B(input, at2, KSecret(), off + 16, Value(seed)) == Value(m2)
    requires Adds(low, m1) && Adds(high, m2)
    ensures Mix32B(Hash128(Value(low), Value(high)), input, at1, at2, KSecret(), off, Value(seed))
         == Hash128(Value((low + m1) ^ s2), Value((high + m2) ^ s1))
  {
    hide Value, Mix16B, KSecretRows, Read64, Add64, Xor64;
    XorOf(low + m1, s2);
    XorOf(high + m2, s1);
  }

  /* Lanes */

  /** The keyed word of a lane, from its data x and its key k, has the halves
      lo and hi; `other` is its neighbour's data, q what is carried out. */
  lemma LaneIs(acc: Lanes, stripe: bytes, key: bytes, lane: nat, a: u64, x: bv64, k: bv64, lo: u32, hi: u32,
               other: u64, q: nat, r: u64)
    requires |stripe| == |key| == 64 && lane < 8 && acc[lane] == a
    requires Read64(stripe, 8 * lane) == Value(x) && Read64(key, 8 * lane) == Value(k)
    requires Value(x ^ k) as int == lo as int + 0x1_0000_0000 * hi as int
    requires Read64(stripe, 8 * Neighbour(lane)) == other
    requires lo as int * hi as int + a as int + other as int == r as int + 0x1_0000_0000_0000_0000 * q
    ensures Accumulate512(acc, stripe, key)[lane] == r
  {
    hide Value, Xor64, Read64, Mult32To64, Add64;
    XorOf(x, k);
    var d := Value(x ^ k);
    SameHalves(Low32(d), High32(d), lo, hi);
    ProductOfLows(d, High32(d));
    AddInTurn(Mult32To64(d, High32(d)), a, other);
    CarriedOut(r, q);
  }

  lemma CarriedOut(r: u64, q: nat)
    ensures (r as int + 0x1_0000_0000_0000_0000 * q) % 0x1_0000_0000_0000_0000 == r as int
  {
  }

  lemma AddInTurn(a: u64, b: u64, c: u64)
    ensures Add64(a, Add64(b, c)) as int == (a as int + b as int + c as int) % 0x1_0000_0000_0000_0000
  {
    AddValue(b, c);
    AddValue(a, Add64(b, c));
  }

  lemma EightLanes(t: Lanes)
    ensures t == [t[0], t[1], t[2], t[3], t[4], t[5], t[6], t[7]]
  {
  }

  /** Where the words of part of a sequence are. */
  lemma PartReads(b: bytes, from: nat, to: nat)
    requires from <= to <= |b|
    ensures forall at: nat :: at + 8 <= to - from ==> Read64(b[from..to], at) == Read64(b, from + at)
  {
    forall at: nat | at + 8 <= to - from ensures Read64(b[from..to], at) == Read64(b, from + at) {
      ReadInside(b, from, b[from..to], at);
    }
  }

  lemma RampPart(n: nat, from: nat)
    requires from + 64 <= n <= 0x100
    ensures forall lane: nat :: lane < 8 ==>
      Read64(Ramp(n)[from..from + 64], 8 * lane) as int == 0x0706050403020100 + 0x0101010101010101 * (from + 8 * lane)
  {
    hide Read64, Ramp;
    RampReads(n);
    PartReads(Ramp(n), from, from + 64);
  }

  /** On part of a ramp, keyed by the default secret from byte `off` on. */
  lemma RampLane(acc: Lanes, n: nat, from: nat, off: nat, lane: nat, at: nat, a: u64, x: bv64, k: bv64,
                 lo: u32, hi: u32, other: u64, q: nat, r: u64)
    requires from + 64 <= n <= 0x100 && off + 64 <= 192 && lane < 8 && acc[lane] == a
    requires Value(x) as int == 0x0706050403020100 + 0x0101010101010101 * (from + 8 * lane)
    requires at == off + 8 * lane && SecretHas(at, k) && Value(x ^ k) as int == lo as int + 0x1_0000_0000 * hi as int
    requires other as int == 0x0706050403020100 + 0x0101010101010101 * (from + 8 * Neighbour(lane))
    requires lo as int * hi as int + a as int + other as int == r as int + 0x1_0000_0000_0000_0000 * q
    ensures Accumulate512(acc, Ramp(n)[from..from + 64], KSecret()[off..off + 64])[lane] == r
  {
    hide Value, Read64, Ramp, KSecretRows, SecretHas, Accumulate512;
    var stripe, key := Ramp(n)[from..from + 64], KSecret()[off..off + 64];
    RampPart(n, from);
    PartReads(KSecret(), off, off + 64);
    SecretReads(at, k);
    LaneIs(acc, stripe, key, lane, a, x, k, lo, hi, other, q, r);
  }

  /** One merge step on the lanes a0 and a1. */
  lemma MergeIs(acc: Lanes, i: nat, secret: bytes, off: nat, a0: bv64, a1: bv64, k0: bv64, k1: bv64,
                a: u64, b: u64, lo: bv64, hi: bv64)
    requires i < 4 && off + 16 <= |secret| && acc[2 * i] == Value(a0) && acc[2 * i + 1] == Value(a1)
    requires Read64(secret, off) == Value(k0) && Read64(secret, off + 8) == Value(k1)
    requires a == Value(a0 ^ k0) && b == Value(a1 ^ k1)
    requires a as int * b as int == Value(lo) as int + 0x1_0000_0000_0000_0000 * Value(hi) as int
    ensures Mix2Accs(acc, i, secret, off) == Value(lo ^ hi)
  {
    hide Value, MulFold64, Xor64, Read64;
    XorOf(a0, k0);
    XorOf(a1, k1);
    FoldIs(a, b, lo, hi);
  }
}
