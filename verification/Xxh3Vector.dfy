/** The SSE2 and AVX2 kernels, built from the vector instructions they use and
    proved to compute the same lanes as the scalar kernel. */
module Xxh3Vector {
  import opened Bits
  import opened BitLemmas
  import opened Mixers
  import opened Mult128
  import opened Xxh3Kernel

  /* Vector instructions on 64-bit elements */

  function Load(b: bytes, at: nat, width: nat): (v: seq<u64>)
    requires at + 8 * width <= |b|
    ensures |v| == width
  {
    seq(width, i requires 0 <= i < width => Read64(b, at + 8 * i))
  }

  function XorEach(a: seq<u64>, b: seq<u64>): seq<u64>
    requires |a| == |b|
  {
    seq(|a|, i requires 0 <= i < |a| => Xor64(a[i], b[i]))
  }

  function AddEach(a: seq<u64>, b: seq<u64>): seq<u64>
    requires |a| == |b|
  {
    seq(|a|, i requires 0 <= i < |a| => Add64(a[i], b[i]))
  }

  /** Multiplies the low 32 bits of each element. */
  function MulLowEach(a: seq<u64>, b: seq<u64>): seq<u64>
    requires |a| == |b|
  {
    seq(|a|, i requires 0 <= i < |a| => Mult32To64(a[i], b[i]))
  }

  function ShrEach(a: seq<u64>, k: nat): seq<u64> {
    seq(|a|, i requires 0 <= i < |a| => Shr64(a[i], k))
  }

  function ShlEach(a: seq<u64>, k: nat): seq<u64> {
    seq(|a|, i requires 0 <= i < |a| => Shl64(a[i], k))
  }

  /** 32-bit word `s` of the 128-bit group that starts at element `base`. */
  function Word32(v: seq<u64>, base: nat, s: nat): u32
    requires base + 2 <= |v| && s < 4
  {
    if s % 2 == 0 then Low32(v[base + s / 2]) else High32(v[base + s / 2])
  }

  /** Shuffles 32-bit words within every 128-bit group; word j of a group is
      taken from word sj of the same group. */
  function Shuffle32(v: seq<u64>, s0: nat, s1: nat, s2: nat, s3: nat): seq<u64>
    requires |v| % 2 == 0 && s0 < 4 && s1 < 4 && s2 < 4 && s3 < 4
  {
    seq(|v|, i requires 0 <= i < |v| =>
      if i % 2 == 0 then Word32(v, i, s0) as int + 0x1_0000_0000 * Word32(v, i, s1) as int
      else Word32(v, i - 1, s2) as int + 0x1_0000_0000 * Word32(v, i - 1, s3) as int)
  }

  function VectorWidth(kernel: Kernel): nat { if kernel.Avx2? then 4 else 2 }

  /** The 32-bit halves a product needs, brought down to the low words. */
  function HighWords(v: seq<u64>, kernel: Kernel): (r: seq<u64>)
    requires |v| % 2 == 0
    ensures |r| == |v|
  {
    if kernel.Avx2? then ShrEach(v, 32) else Shuffle32(v, 1, 0, 3, 0)
  }

  lemma HighByShift(a: u64)
    ensures Shr64(a, 32) == High32(a)
  {
    hide Shr, Shl, Pow2;
    ShrSplit(a, 32);
    ShlByPow(Shr(a, 32), 32);
    Pow2Values();
  }

  lemma HighWordsLow(v: seq<u64>, kernel: Kernel, i: nat)
    requires |v| % 2 == 0 && i < |v|
    ensures Low32(HighWords(v, kernel)[i]) == High32(v[i])
  {
    hide Shr;
    if kernel.Avx2? {
      HighByShift(v[i]);
    } else if i % 2 == 0 {
      LowOfPair(High32(v[i]), Low32(v[i]));
    } else {
      LowOfPair(High32(v[i]), Low32(v[i - 1]));
    }
  }

  lemma LowOfPair(low: u32, high: u32)
    ensures Low32(low as int + 0x1_0000_0000 * high as int) == low
  {
  }

  /* Accumulation */

  /** One vector register of the result. */
  function AccumulateGroup(acc: seq<u64>, dataVec: seq<u64>, keyVec: seq<u64>, kernel: Kernel): (r: seq<u64>)
    requires |acc| == |dataVec| == |keyVec| && |acc| % 2 == 0
    ensures |r| == |acc|
  {
    var dataKey := XorEach(dataVec, keyVec);
    var product := MulLowEach(dataKey, HighWords(dataKey, kernel));
    var dataSwap := Shuffle32(dataVec, 2, 3, 0, 1);
    AddEach(product, AddEach(acc, dataSwap))
  }

  lemma SwapIsNeighbour(v: seq<u64>, i: nat)
    requires |v| % 2 == 0 && i < |v|
    ensures Shuffle32(v, 2, 3, 0, 1)[i] == v[Neighbour(i)]
  {
  }

  lemma MulLowHalves(x: u64, y: u64, high: u64)
    requires Low32(y) == High32(high)
    ensures Mult32To64(x, y) == Mult32To64(x, High32(high))
  {
  }

  lemma GroupLane(acc: Lanes, stripe: bytes, key: bytes, kernel: Kernel, base: nat, i: nat)
    requires |stripe| == 64 && |key| == 64 && !kernel.Scalar?
    requires var w := VectorWidth(kernel); base % 2 == 0 && base + w <= 8 && i < w
    ensures var w := VectorWidth(kernel);
      AccumulateGroup(acc[base..base + w], Load(stripe, 8 * base, w), Load(key, 8 * base, w), kernel)[i]
      == Accumulate512(acc, stripe, key)[base + i]
  {
    hide Read64, Xor64, Mult32To64, Add64, Shuffle32, HighWords;
    var w := VectorWidth(kernel);
    var dataVec, keyVec := Load(stripe, 8 * base, w), Load(key, 8 * base, w);
    var dataKey := XorEach(dataVec, keyVec);
    assert dataKey[i] == DataKey(stripe, key, base + i);
    HighWordsLow(dataKey, kernel, i);
    MulLowHalves(dataKey[i], HighWords(dataKey, kernel)[i], dataKey[i]);
    SwapIsNeighbour(dataVec, i);
    assert dataVec[Neighbour(i)] == Read64(stripe, 8 * Neighbour(base + i));
  }

  method AccumulateVector512(acc: array<u64>, input: bytes, at: nat, secret: bytes, off: nat, kernel: Kernel)
    requires acc.Length == 8 && at + 64 <= |input| && off + 64 <= |secret| && !kernel.Scalar?
    modifies acc
    ensures acc[..] == Accumulate512(old(acc[..]), input[at..at + 64], secret[off..off + 64])
  {
    hide AccumulateGroup, Accumulate512, Read64;
    ghost var was: Lanes := acc[..];
    ghost var stripe, key := input[at..at + 64], secret[off..off + 64];
    var w := VectorWidth(kernel);
    var base := 0;
    while base < 8
      invariant 0 <= base <= 8 && base % w == 0
      invariant forall lane :: 0 <= lane < base ==> acc[lane] == Accumulate512(was, stripe, key)[lane]
      invariant forall lane :: base <= lane < 8 ==> acc[lane] == was[lane]
    {
      var dataVec, keyVec := Load(input, at + 8 * base, w), Load(secret, off + 8 * base, w);
      LoadInSlice(input, at, base, w);
      LoadInSlice(secret, off, base, w);
      assert acc[base..base + w] == was[base..base + w];
      var group := AccumulateGroup(acc[base..base + w], dataVec, keyVec, kernel);
      forall i | 0 <= i < w ensures group[i] == Accumulate512(was, stripe, key)[base + i] {
        GroupLane(was, stripe, key, kernel, base, i);
      }
      Store(acc, base, group);
      base := base + w;
    }
  }

  lemma LoadInSlice(b: bytes, at: nat, base: nat, w: nat)
    requires at + 64 <= |b| && base + w <= 8
    ensures Load(b, at + 8 * base, w) == Load(b[at..at + 64], 8 * base, w)
  {
  }

  method Store(acc: array<u64>, base: nat, group: seq<u64>)
    requires base + |group| <= acc.Length
    modifies acc
    ensures forall lane :: 0 <= lane < acc.Length ==>
      acc[lane] == if base <= lane < base + |group| then group[lane - base] else old(acc[lane])
  {
    for i := 0 to |group|
      invariant forall lane :: 0 <= lane < acc.Length ==>
        acc[lane] == if base <= lane < base + i then group[lane - base] else old(acc[lane])
    {
      acc[base + i] := group[i];
    }
  }

  /* Scrambling */

  function ScrambleGroup(acc: seq<u64>, keyVec: seq<u64>, kernel: Kernel): (r: seq<u64>)
    requires |acc| == |keyVec| && |acc| % 2 == 0
    ensures |r| == |acc|
  {
    var prime32 := seq(|acc|, i => PRIME32_1 as int + 0x1_0000_0000 * PRIME32_1 as int);
    var dataVec := XorEach(acc, ShrEach(acc, 47));
    var dataKey := XorEach(dataVec, keyVec);
    var prodLo := MulLowEach(dataKey, prime32);
    var prodHi := MulLowEach(HighWords(dataKey, kernel), prime32);
    AddEach(prodLo, ShlEach(prodHi, 32))
  }

  /** Two 32-bit multiplications and a shift make one 64-bit multiplication. */
  lemma SplitMultiply(x: u64, high: u64, prime: u64)
    requires Low32(high) == High32(x)
    requires prime as int == PRIME32_1 as int + 0x1_0000_0000 * PRIME32_1 as int
    ensures Add64(Mult32To64(x, prime), Shl64(Mult32To64(high, prime), 32)) == Mul64(x, PRIME32_1)
  {
    hide Shl, Pow2, Mult32To64;
    var low, p := Mult32To64(x, prime), Mult32To64(high, prime);
    ShlByPow(p, 32);
    Pow2Values();
    LowOfPair(PRIME32_1, PRIME32_1);
    ProductOfLows(x, prime);
    ProductOfLows(high, prime);
    SplitProduct(Low32(x), High32(x), PRIME32_1);
    assert x as int == Low32(x) as int + 0x1_0000_0000 * High32(x) as int;
    WrapSum(low, p);
  }

  lemma SplitProduct(low: int, high: int, p: int)
    ensures (low + 0x1_0000_0000 * high) * p == low * p + 0x1_0000_0000 * (high * p)
  {
  }

  lemma WrapSum(a: int, b: int)
    ensures (a + (b * 0x1_0000_0000) % 0x1_0000_0000_0000_0000) % 0x1_0000_0000_0000_0000
         == (a + 0x1_0000_0000 * b) % 0x1_0000_0000_0000_0000
  {
  }

  lemma ScrambleGroupLane(acc: Lanes, key: bytes, kernel: Kernel, base: nat, i: nat)
    requires |key| == 64 && !kernel.Scalar?
    requires var w := VectorWidth(kernel); base % 2 == 0 && base + w <= 8 && i < w
    ensures var w := VectorWidth(kernel);
      ScrambleGroup(acc[base..base + w], Load(key, 8 * base, w), kernel)[i] == Scramble(acc, key)[base + i]
  {
    hide Read64, Xor64, Mult32To64, Add64, HighWords, Mul64, Shl64, Shr64;
    var w := VectorWidth(kernel);
    var group, keyVec := acc[base..base + w], Load(key, 8 * base, w);
    var dataKey := XorEach(XorEach(group, ShrEach(group, 47)), keyVec);
    assert dataKey[i] == Xor64(XorShift64(acc[base + i], 47), Read64(key, 8 * (base + i)));
    HighWordsLow(dataKey, kernel, i);
    SplitMultiply(dataKey[i], HighWords(dataKey, kernel)[i], 0x9E3779B1_9E3779B1);
  }

  method ScrambleVector(acc: array<u64>, secret: bytes, off: nat, kernel: Kernel)
    requires acc.Length == 8 && off + 64 <= |secret| && !kernel.Scalar?
    modifies acc
    ensures acc[..] == Scramble(old(acc[..]), secret[off..off + 64])
  {
    hide ScrambleGroup, Scramble, Read64;
    ghost var was: Lanes := acc[..];
    ghost var key := secret[off..off + 64];
    var w := VectorWidth(kernel);
    var base := 0;
    while base < 8
      invariant 0 <= base <= 8 && base % w == 0
      invariant forall lane :: 0 <= lane < base ==> acc[lane] == Scramble(was, key)[lane]
      invariant forall lane :: base <= lane < 8 ==> acc[lane] == was[lane]
    {
      var keyVec := Load(secret, off + 8 * base, w);
      LoadInSlice(secret, off, base, w);
      assert acc[base..base + w] == was[base..base + w];
      var group := ScrambleGroup(acc[base..base + w], keyVec, kernel);
      forall i | 0 <= i < w ensures group[i] == Scramble(was, key)[base + i] {
        ScrambleGroupLane(was, key, kernel, base, i);
      }
      Store(acc, base, group);
      base := base + w;
    }
  }

  /* The kernels as the hash loops call them */

  /** `XXH3_accumulate` from stripe `pos` of a block, whatever the kernel. */
  method Accumulate(acc: array<u64>, input: bytes, at: nat, secret: bytes, pos: nat, n: nat, kernel: Kernel)
    requires acc.Length == 8 && at + 64 * n <= |input|
    requires n > 0 ==> 8 * (pos + n) + 56 <= |secret|
    modifies acc
    ensures acc[..] == AccumulateStripes(old(acc[..]), input[at..], secret, pos, n)
  {
    hide Accumulate512;
    ghost var was: Lanes := acc[..];
    for i := 0 to n
      invariant acc[..] == AccumulateStripes(was, input[at..], secret, pos, i)
    {
      AccumulateOne(acc, input, at + i * 64, secret, 8 * (pos + i), kernel);
      assert input[at + i * 64..at + i * 64 + 64] == Stripe(input[at..], i);
    }
  }

  method AccumulateOne(acc: array<u64>, input: bytes, at: nat, secret: bytes, off: nat, kernel: Kernel)
    requires acc.Length == 8 && at + 64 <= |input| && off + 64 <= |secret|
    modifies acc
    ensures acc[..] == Accumulate512(old(acc[..]), input[at..at + 64], secret[off..off + 64])
  {
    if kernel.Scalar? {
      AccumulateScalar512(acc, input, at, secret, off);
    } else {
      AccumulateVector512(acc, input, at, secret, off, kernel);
    }
  }

  method ScrambleAcc(acc: array<u64>, secret: bytes, off: nat, kernel: Kernel)
    requires acc.Length == 8 && off + 64 <= |secret|
    modifies acc
    ensures acc[..] == Scramble(old(acc[..]), secret[off..off + 64])
  {
    if kernel.Scalar? {
      ScrambleScalar(acc, secret, off);
    } else {
      ScrambleVector(acc, secret, off, kernel);
    }
  }
}
