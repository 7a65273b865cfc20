/** The two inner kernels of XXH3 in their scalar, SSE2 and AVX2 forms. All of
    them compute one simultaneous formula over the eight accumulator lanes. */
module Xxh3Kernel {
  import opened Bits
  import opened Mixers
  import opened Mult128

  type Lanes = s: seq<u64> | |s| == 8 witness [0, 0, 0, 0, 0, 0, 0, 0]

  const STRIPE_LEN: nat := 64
  const SECRET_CONSUME_RATE: nat := 8

  /** Which implementation the build selects. */
  datatype Kernel = Scalar | Sse2 | Avx2

  /** `lane ^ 1`. */
  function Neighbour(lane: nat): nat { if lane % 2 == 0 then lane + 1 else lane - 1 }

  function DataKey(stripe: bytes, key: bytes, lane: nat): u64
    requires |stripe| == 64 && |key| == 64 && lane < 8
  {
    Xor64(Read64(stripe, 8 * lane), Read64(key, 8 * lane))
  }

  function Product(stripe: bytes, key: bytes, lane: nat): u64
    requires |stripe| == 64 && |key| == 64 && lane < 8
  {
    Mult32To64(DataKey(stripe, key, lane), High32(DataKey(stripe, key, lane)))
  }

  /** Every lane receives its own product and its neighbour's raw input. */
  function Accumulate512(acc: Lanes, stripe: bytes, key: bytes): Lanes
    requires |stripe| == 64 && |key| == 64
  {
    seq(8, lane requires 0 <= lane < 8 =>
      Add64(Product(stripe, key, lane), Add64(acc[lane], Read64(stripe, 8 * Neighbour(lane)))))
  }

  function ScrambleLane(a: u64, key: u64): u64 {
    Mul64(Xor64(XorShift64(a, 47), key), PRIME32_1)
  }

  function Scramble(acc: Lanes, key: bytes): Lanes
    requires |key| == 64
  {
    seq(8, lane requires 0 <= lane < 8 => ScrambleLane(acc[lane], Read64(key, 8 * lane)))
  }

  /** Stripe i of an input. */
  function Stripe(input: bytes, i: nat): (b: bytes)
    requires |input| >= 64 * i + 64
    ensures |b| == 64
  {
    input[64 * i..64 * i + 64]
  }

  /** The secret bytes that key stripe `pos` of a block. */
  function StripeKey(secret: bytes, pos: nat): (b: bytes)
    requires |secret| >= 8 * pos + 64
    ensures |b| == 64
  {
    secret[8 * pos..8 * pos + 64]
  }

  /** n stripes in order, the secret advancing by eight bytes each time. */
  function AccumulateStripes(acc: Lanes, input: bytes, secret: bytes, pos: nat, n: nat): Lanes
    requires |input| >= 64 * n
    requires n > 0 ==> |secret| >= 8 * (pos + n) + 56
    decreases n
  {
    if n == 0 then acc
    else
      Accumulate512(AccumulateStripes(acc, input, secret, pos, n - 1),
                    Stripe(input, n - 1), StripeKey(secret, pos + n - 1))
  }

  /* Scalar kernel */

  method ScalarRound(acc: array<u64>, input: bytes, at: nat, secret: bytes, off: nat, lane: nat)
    requires acc.Length == 8 && at + 64 <= |input| && off + 64 <= |secret| && lane < 8
    modifies acc
    ensures var stripe, key, was := input[at..at + 64], secret[off..off + 64], old(acc[..]);
      acc[..] == was[Neighbour(lane) := Add64(was[Neighbour(lane)], Read64(stripe, 8 * lane))]
                    [lane := Add64(Product(stripe, key, lane), was[lane])]
  {
    hide Xor64, Mult32To64, Add64;
    var dataVal := Read64(input, at + lane * 8);
    var dataKey := Xor64(dataVal, Read64(secret, off + lane * 8));
    assert dataVal == Read64(input[at..at + 64], 8 * lane);
    assert dataKey == DataKey(input[at..at + 64], secret[off..off + 64], lane);
    acc[Neighbour(lane)] := Add64(acc[Neighbour(lane)], dataVal);
    acc[lane] := Add64(Mult32To64(dataKey, High32(dataKey)), acc[lane]);
  }

  /** Lane `lane` once the scalar loop has run rounds 0 to `done` - 1. */
  function PartialLane(acc: Lanes, stripe: bytes, key: bytes, done: nat, lane: nat): u64
    requires |stripe| == 64 && |key| == 64 && lane < 8
  {
    var fromNeighbour := if Neighbour(lane) < done then Read64(stripe, 8 * Neighbour(lane)) else 0;
    var ownProduct := if lane < done then Product(stripe, key, lane) else 0;
    Add64(ownProduct, Add64(acc[lane], fromNeighbour))
  }

  lemma AddReordered(a: u64, b: u64, c: u64)
    ensures Add64(a, Add64(b, c)) == Add64(Add64(a, b), c)
    ensures Add64(a, b) == Add64(b, a) && Add64(0, a) == a && Add64(a, 0) == a
  {
    hide Add64;
    AddValue(a, b);
    AddValue(b, a);
    AddValue(b, c);
    AddValue(0, a);
    AddValue(a, 0);
    AddValue(a, Add64(b, c));
    AddValue(Add64(a, b), c);
  }

  lemma AddValue(a: u64, b: u64)
    ensures var sum := a as int + b as int;
      Add64(a, b) as int == sum - if sum < 0x1_0000_0000_0000_0000 then 0 else 0x1_0000_0000_0000_0000
  {
  }

  lemma PartialRound(acc: Lanes, stripe: bytes, key: bytes, done: nat, lane: nat)
    requires |stripe| == 64 && |key| == 64 && lane < 8 && done < 8
    ensures var before := PartialLane(acc, stripe, key, done, lane);
      PartialLane(acc, stripe, key, done + 1, lane)
           == if lane == done then Add64(Product(stripe, key, lane), before)
              else if lane == Neighbour(done) then Add64(before, Read64(stripe, 8 * done))
              else before
  {
    hide Product, Read64, Add64;
    var p := Product(stripe, key, lane);
    var d := Read64(stripe, 8 * Neighbour(lane));
    AddReordered(p, acc[lane], 0);
    AddReordered(p, acc[lane], d);
    AddReordered(p, Add64(acc[lane], d), 0);
    AddReordered(p, Add64(acc[lane], 0), 0);
    AddReordered(0, acc[lane], d);
    AddReordered(0, acc[lane], 0);
    AddReordered(Add64(acc[lane], d), 0, 0);
    AddReordered(acc[lane], d, 0);
    AddReordered(d, 0, 0);
  }

  method AccumulateScalar512(acc: array<u64>, input: bytes, at: nat, secret: bytes, off: nat)
    requires acc.Length == 8 && at + 64 <= |input| && off + 64 <= |secret|
    modifies acc
    ensures acc[..] == Accumulate512(old(acc[..]), input[at..at + 64], secret[off..off + 64])
  {
    hide Product, Read64, Add64, PartialLane;
    ghost var was: Lanes := acc[..];
    ghost var stripe, key := input[at..at + 64], secret[off..off + 64];
    forall lane | 0 <= lane < 8 ensures PartialLane(was, stripe, key, 0, lane) == was[lane] {
      PartialStart(was, stripe, key, lane);
    }
    for i := 0 to 8
      invariant forall lane :: 0 <= lane < 8 ==> acc[lane] == PartialLane(was, stripe, key, i, lane)
    {
      forall lane | 0 <= lane < 8 {
        PartialRound(was, stripe, key, i, lane);
      }
      ScalarRound(acc, input, at, secret, off, i);
      assert forall lane :: 0 <= lane < 8 ==> acc[lane] == acc[..][lane];
    }
    forall lane | 0 <= lane < 8
      ensures acc[lane] == Accumulate512(was, stripe, key)[lane]
    {
      PartialEnd(was, stripe, key, lane);
    }
  }

  lemma PartialStart(acc: Lanes, stripe: bytes, key: bytes, lane: nat)
    requires |stripe| == 64 && |key| == 64 && lane < 8
    ensures PartialLane(acc, stripe, key, 0, lane) == acc[lane]
  {
    hide Product, Read64;
  }

  lemma PartialEnd(acc: Lanes, stripe: bytes, key: bytes, lane: nat)
    requires |stripe| == 64 && |key| == 64 && lane < 8
    ensures PartialLane(acc, stripe, key, 8, lane) == Accumulate512(acc, stripe, key)[lane]
  {
    hide Product, Read64, Add64;
  }

  method ScrambleScalar(acc: array<u64>, secret: bytes, off: nat)
    requires acc.Length == 8 && off + 64 <= |secret|
    modifies acc
    ensures acc[..] == Scramble(old(acc[..]), secret[off..off + 64])
  {
    hide Read64, ScrambleLane;
    ghost var was := acc[..];
    ghost var key := secret[off..off + 64];
    for i := 0 to 8
      invariant forall lane :: 0 <= lane < i ==> acc[lane] == ScrambleLane(was[lane], Read64(key, 8 * lane))
      invariant forall lane :: i <= lane < 8 ==> acc[lane] == was[lane]
    {
      ReadInSlice(secret, off, i);
      acc[i] := ScrambleLane(acc[i], Read64(secret, off + i * 8));
    }
  }

  lemma ReadInSlice(b: bytes, at: nat, lane: nat)
    requires at + 64 <= |b| && lane < 8
    ensures Read64(b, at + lane * 8) == Read64(b[at..at + 64], 8 * lane)
  {
  }
}
