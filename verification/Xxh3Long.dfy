/** XXH3 on inputs of more than 240 bytes: the reference consumption of stripes
    one at a time, and the block loop of the one-shot hash. */
module Xxh3Long {
  import opened Bits
  import opened Mixers
  import opened Mult128
  import opened Xxh3Kernel
  import opened Xxh3Vector
  import opened Xxh3Short
  import opened Xxh3Secret

  const SECRET_LASTACC_START: nat := 7
  const SECRET_MERGEACCS_START: nat := 11

  /** The accumulators and the number of stripes taken in the current block. */
  datatype Core = Core(acc: Lanes, pos: nat)

  predicate IsSecret(secret: bytes) { |secret| >= SECRET_SIZE_MIN }

  function StripesPerBlock(secret: bytes): (n: nat)
    requires IsSecret(secret)
    ensures n >= 9 && 8 * n + 64 <= |secret|
  {
    (|secret| - STRIPE_LEN) / SECRET_CONSUME_RATE
  }

  function InitialAcc(): Lanes {
    [PRIME32_3, PRIME64_1, PRIME64_2, PRIME64_3, PRIME64_4, PRIME32_2, PRIME64_5, PRIME32_1]
  }

  /** One stripe; the stripe that completes a block also scrambles. */
  function Step(c: Core, stripe: bytes, secret: bytes): (r: Core)
    requires |stripe| == 64 && IsSecret(secret) && c.pos < StripesPerBlock(secret)
    ensures r.pos < StripesPerBlock(secret)
  {
    var acc := Accumulate512(c.acc, stripe, StripeKey(secret, c.pos));
    if c.pos + 1 == StripesPerBlock(secret) then Core(Scramble(acc, secret[|secret| - 64..]), 0)
    else Core(acc, c.pos + 1)
  }

  function Consume(c: Core, data: bytes, n: nat, secret: bytes): (r: Core)
    requires |data| >= 64 * n && IsSecret(secret) && c.pos < StripesPerBlock(secret)
    ensures r.pos < StripesPerBlock(secret)
    decreases n
  {
    if n == 0 then c else Step(Consume(c, data, n - 1, secret), Stripe(data, n - 1), secret)
  }

  /** All whole stripes before the last byte, then the last 64 bytes. */
  function LongAcc(data: bytes, secret: bytes): Lanes
    requires |data| > MIDSIZE_MAX && IsSecret(secret)
  {
    LastStripe(Consume(Core(InitialAcc(), 0), data, (|data| - 1) / 64, secret).acc, data[|data| - 64..], secret)
  }

  function LastStripe(acc: Lanes, stripe: bytes, secret: bytes): Lanes
    requires |stripe| == 64 && IsSecret(secret)
  {
    Accumulate512(acc, stripe, secret[|secret| - 64 - SECRET_LASTACC_START..|secret| - SECRET_LASTACC_START])
  }

  function Mix2Accs(acc: Lanes, i: nat, secret: bytes, off: nat): u64
    requires i < 4 && off + 16 <= |secret|
  {
    MulFold64(Xor64(acc[2 * i], Read64(secret, off)), Xor64(acc[2 * i + 1], Read64(secret, off + 8)))
  }

  function MergedSum(acc: Lanes, secret: bytes, off: nat, start: u64, n: nat): u64
    requires n <= 4 && off + 16 * n <= |secret|
  {
    if n == 0 then start
    else Add64(MergedSum(acc, secret, off, start, n - 1), Mix2Accs(acc, n - 1, secret, off + 16 * (n - 1)))
  }

  function MergeAccs(acc: Lanes, secret: bytes, off: nat, start: u64): u64
    requires off + 64 <= |secret|
  {
    Xxh3Avalanche(MergedSum(acc, secret, off, start, 4))
  }

  function Converge64(acc: Lanes, secret: bytes, len: u64): u64
    requires IsSecret(secret)
  {
    MergeAccs(acc, secret, SECRET_MERGEACCS_START, Mul64(len, PRIME64_1))
  }

  function Converge128(acc: Lanes, secret: bytes, len: u64): Hash128
    requires IsSecret(secret)
  {
    Hash128(MergeAccs(acc, secret, SECRET_MERGEACCS_START, Mul64(len, PRIME64_1)),
            MergeAccs(acc, secret, |secret| - 64 - SECRET_MERGEACCS_START, Not64(Mul64(len, PRIME64_2))))
  }

  method MergeAccsLoop(acc: array<u64>, secret: bytes, off: nat, start: u64) returns (h: u64)
    requires acc.Length == 8 && off + 64 <= |secret|
    ensures h == MergeAccs(acc[..], secret, off, start)
  {
    hide MulFold64, Xxh3Avalanche, Add64, Xor64, Read64;
    var result64 := start;
    for i := 0 to 4
      invariant result64 == MergedSum(acc[..], secret, off, start, i)
    {
      result64 := Add64(result64, MulFold64(Xor64(acc[2 * i], Read64(secret, off + 16 * i)),
                                            Xor64(acc[2 * i + 1], Read64(secret, off + 16 * i + 8))));
    }
    h := Xxh3Avalanche(result64);
  }

  /* Consuming in pieces */

  lemma {:induction false} ConsumeSplit(c: Core, data: bytes, m: nat, n: nat, secret: bytes)
    requires |data| >= 64 * (m + n) && IsSecret(secret) && c.pos < StripesPerBlock(secret)
    ensures Consume(c, data, m + n, secret) == Consume(Consume(c, data, m, secret), data[64 * m..], n, secret)
    decreases n
  {
    hide Step;
    if n != 0 {
      ConsumeSplit(c, data, m, n - 1, secret);
      assert Stripe(data[64 * m..], n - 1) == Stripe(data, m + n - 1);
    }
  }

  lemma {:induction false} ConsumePrefix(c: Core, data: bytes, more: bytes, n: nat, secret: bytes)
    requires |data| >= 64 * n && IsSecret(secret) && c.pos < StripesPerBlock(secret)
    ensures Consume(c, data + more, n, secret) == Consume(c, data, n, secret)
  {
    hide Step;
    if n != 0 {
      ConsumePrefix(c, data, more, n - 1, secret);
      assert Stripe(data + more, n - 1) == Stripe(data, n - 1);
    }
  }

  lemma ConsumeSame(c: Core, data: bytes, other: bytes, n: nat, secret: bytes)
    requires |data| >= 64 * n && IsSecret(secret) && c.pos < StripesPerBlock(secret)
    requires data[..64 * n] <= other
    ensures Consume(c, data, n, secret) == Consume(c, other, n, secret)
  {
    assert data == data[..64 * n] + data[64 * n..];
    assert other == data[..64 * n] + other[64 * n..];
    ConsumePrefix(c, data[..64 * n], data[64 * n..], n, secret);
    ConsumePrefix(c, data[..64 * n], other[64 * n..], n, secret);
  }

  /** Inside one block nothing is scrambled. */
  lemma {:induction false} ConsumeInBlock(c: Core, data: bytes, n: nat, secret: bytes)
    requires |data| >= 64 * n && IsSecret(secret) && c.pos + n < StripesPerBlock(secret)
    ensures Consume(c, data, n, secret) == Core(AccumulateStripes(c.acc, data, secret, c.pos, n), c.pos + n)
    decreases n
  {
    hide Accumulate512, Scramble, Stripe, StripeKey, StripesPerBlock;
    if n != 0 {
      ConsumeInBlock(c, data, n - 1, secret);
    }
  }

  /** Completing a block scrambles once, at its end. */
  lemma ConsumeToBlockEnd(c: Core, data: bytes, n: nat, secret: bytes)
    requires IsSecret(secret) && c.pos + n == StripesPerBlock(secret) && n > 0
    requires |data| >= 64 * n
    ensures Consume(c, data, n, secret)
         == Core(Scramble(AccumulateStripes(c.acc, data, secret, c.pos, n), secret[|secret| - 64..]), 0)
  {
    hide Accumulate512, Scramble, Stripe, StripeKey, StripesPerBlock;
    ConsumeInBlock(c, data, n - 1, secret);
  }

  /* The one-shot block loop */

  function NbBlocks(len: nat, blockLen: nat): int
    requires blockLen > 0
  {
    (len - 1) / blockLen
  }

  function NbLastStripes(len: nat, blockLen: nat): int
    requires blockLen > 0
  {
    ((len - 1) - blockLen * NbBlocks(len, blockLen)) / STRIPE_LEN
  }

  /** Whole blocks and the stripes of the last partial block are together all
      the stripes before the last byte. */
  lemma BlockArithmetic(len: nat, perBlock: nat)
    requires len > 64 && perBlock > 0
    ensures var blocks := NbBlocks(len, 64 * perBlock);
      && 0 <= blocks && 0 <= 64 * (blocks * perBlock) < len
      && 0 <= NbLastStripes(len, 64 * perBlock) < perBlock
      && blocks * perBlock + NbLastStripes(len, 64 * perBlock) == (len - 1) / 64
  {
    var blocks := (len - 1) / (64 * perBlock);
    var whole := blocks * perBlock;
    var rest := (len - 1) % (64 * perBlock);
    assert len - 1 == 64 * perBlock * blocks + rest;
    assert 64 * perBlock * blocks == 64 * whole;
    assert (64 * whole + rest) / 64 == whole + rest / 64;
    assert whole >= 0;
  }

  /** One block of the loop. */
  method HashBlock(acc: array<u64>, input: bytes, at: nat, secret: bytes, kernel: Kernel)
    requires acc.Length == 8 && IsSecret(secret)
    requires at + 64 * StripesPerBlock(secret) <= |input|
    modifies acc
    ensures Core(acc[..], 0) == Consume(Core(old(acc[..]), 0), input[at..], StripesPerBlock(secret), secret)
  {
    hide Accumulate512, Scramble;
    ConsumeToBlockEnd(Core(acc[..], 0), input[at..], StripesPerBlock(secret), secret);
    Accumulate(acc, input, at, secret, 0, StripesPerBlock(secret), kernel);
    ScrambleAcc(acc, secret, |secret| - STRIPE_LEN, kernel);
    assert secret[|secret| - 64..|secret| - 64 + 64] == secret[|secret| - 64..];
  }

  method HashBlocks(acc: array<u64>, input: bytes, secret: bytes, nbBlocks: nat, kernel: Kernel)
    requires acc.Length == 8 && IsSecret(secret)
    requires 0 <= 64 * (nbBlocks * StripesPerBlock(secret)) <= |input|
    modifies acc
    ensures Core(acc[..], 0)
         == Consume(Core(old(acc[..]), 0), input, nbBlocks * StripesPerBlock(secret), secret)
  {
    hide Accumulate512, Scramble, Consume, StripesPerBlock;
    var perBlock := StripesPerBlock(secret);
    ghost var start := Core(acc[..], 0);
    ConsumeNone(start, input, secret);
    var done := 0;
    for n := 0 to nbBlocks
      invariant done == n * perBlock && 0 <= done
      invariant Core(acc[..], 0) == Consume(start, input, done, secret)
    {
      BlockFits(n, nbBlocks, perBlock);
      ConsumeSplit(start, input, done, perBlock, secret);
      HashBlock(acc, input, STRIPE_LEN * done, secret, kernel);
      done := done + perBlock;
    }
  }

  method HashLongLoop(acc: array<u64>, input: bytes, secret: bytes, kernel: Kernel)
    requires acc.Length == 8 && IsSecret(secret) && |input| > MIDSIZE_MAX
    requires acc[..] == InitialAcc()
    modifies acc
    ensures acc[..] == LongAcc(input, secret)
  {
    hide Accumulate512, Scramble, Consume, InitialAcc, AccumulateStripes, StripesPerBlock, NbBlocks, NbLastStripes;
    var perBlock := StripesPerBlock(secret);
    var blockLen := STRIPE_LEN * perBlock;
    BlockArithmetic(|input|, perBlock);
    var nbBlocks := NbBlocks(|input|, blockLen);
    var nbStripes := NbLastStripes(|input|, blockLen);
    HashBlocks(acc, input, secret, nbBlocks, kernel);
    HashLastBlock(acc, input, nbBlocks * perBlock, nbStripes, secret, kernel);
  }

  /** The last partial block and the last stripe. */
  method HashLastBlock(acc: array<u64>, input: bytes, done: nat, nbStripes: nat, secret: bytes, kernel: Kernel)
    requires acc.Length == 8 && IsSecret(secret) && |input| > MIDSIZE_MAX
    requires done + nbStripes == (|input| - 1) / 64 && nbStripes < StripesPerBlock(secret)
    requires Core(acc[..], 0) == Consume(Core(InitialAcc(), 0), input, done, secret)
    modifies acc
    ensures acc[..] == LongAcc(input, secret)
  {
    hide Accumulate512, Scramble, Consume, InitialAcc, AccumulateStripes, StripesPerBlock;
    ConsumeSplit(Core(InitialAcc(), 0), input, done, nbStripes, secret);
    ConsumeInBlock(Core(acc[..], 0), input[64 * done..], nbStripes, secret);
    Accumulate(acc, input, STRIPE_LEN * done, secret, 0, nbStripes, kernel);
    AccumulateOne(acc, input, |input| - STRIPE_LEN, secret, |secret| - STRIPE_LEN - SECRET_LASTACC_START, kernel);
    assert input[|input| - 64..|input| - 64 + 64] == input[|input| - 64..];
  }

  lemma ConsumeNone(c: Core, data: bytes, secret: bytes)
    requires IsSecret(secret) && c.pos < StripesPerBlock(secret)
    ensures Consume(c, data, 0, secret) == c
  {
  }

  lemma BlockFits(n: nat, nbBlocks: nat, perBlock: nat)
    requires n < nbBlocks
    ensures n * perBlock + perBlock <= nbBlocks * perBlock
  {
    assert (n + 1) * perBlock <= nbBlocks * perBlock;
  }
}
