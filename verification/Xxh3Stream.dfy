/** The public XXH3 hashes: each one-shot variant as a function of the whole
    input, its fast block-loop form, and the buffered streaming state. */
module Xxh3Stream {
  import opened Bits
  import opened Mixers
  import opened Mult128
  import opened Xxh3Kernel
  import opened Xxh3Vector
  import opened Xxh3Short
  import opened Xxh3Secret
  import opened Xxh3Long

  /** The four ways of keying a hash. */
  datatype Mode =
    | Default
    | WithSeed(seed: u64)
    | WithSecret(secret: bytes)
    | WithSecretAndSeed(secret: bytes, seed: u64)

  predicate IsMode(mode: Mode) {
    mode.WithSecret? || mode.WithSecretAndSeed? ==> IsSecret(mode.secret)
  }

  /** The secret that keys inputs of at most 240 bytes. */
  function ShortSecret(mode: Mode): (s: bytes)
    requires IsMode(mode)
    ensures IsSecret(s)
  {
    if mode.WithSecret? then mode.secret else KSecret()
  }

  function ShortSeed(mode: Mode): u64 {
    if mode.WithSeed? || mode.WithSecretAndSeed? then mode.seed else 0
  }

  /** The secret that keys longer inputs. */
  function LongSecret(mode: Mode): (s: bytes)
    requires IsMode(mode)
    ensures IsSecret(s)
  {
    match mode
    case Default => KSecret()
    case WithSeed(seed) => if seed == 0 then KSecret() else DerivedSecret(seed)
    case WithSecret(secret) => secret
    case WithSecretAndSeed(secret, _) => secret
  }

  function OneShot64(mode: Mode, data: bytes): u64
    requires IsMode(mode) && |data| < 0x1_0000_0000_0000_0000
  {
    if |data| <= MIDSIZE_MAX then Short64(data, ShortSecret(mode), ShortSeed(mode))
    else Converge64(LongAcc(data, LongSecret(mode)), LongSecret(mode), |data|)
  }

  function OneShot128(mode: Mode, data: bytes): Hash128
    requires IsMode(mode) && |data| < 0x1_0000_0000_0000_0000
  {
    if |data| <= MIDSIZE_MAX then Short128(data, ShortSecret(mode), ShortSeed(mode))
    else Converge128(LongAcc(data, LongSecret(mode)), LongSecret(mode), |data|)
  }

  /** What the 128-bit streaming digest computes: it tests `seed` where the
      64-bit digest tests `useSeed`, so a secret-and-seed state with seed 0
      keys short inputs with the caller's secret. */
  function Streamed128(mode: Mode, data: bytes): Hash128
    requires IsMode(mode) && |data| < 0x1_0000_0000_0000_0000
  {
    if mode.WithSecretAndSeed? && mode.seed == 0 && |data| <= MIDSIZE_MAX
    then OneShot128(WithSecret(mode.secret), data)
    else OneShot128(mode, data)
  }

  method NewAcc() returns (acc: array<u64>)
    ensures fresh(acc) && acc.Length == 8 && acc[..] == InitialAcc()
  {
    acc := new u64[8];
    SetInitial(acc);
  }

  method SetInitial(acc: array<u64>)
    requires acc.Length == 8
    modifies acc
    ensures acc[..] == InitialAcc()
  {
    acc[0] := PRIME32_3;
    acc[1] := PRIME64_1;
    acc[2] := PRIME64_2;
    acc[3] := PRIME64_3;
    acc[4] := PRIME64_4;
    acc[5] := PRIME32_2;
    acc[6] := PRIME64_5;
    acc[7] := PRIME32_1;
  }

  /** The secret of the long hash. A seed has it derived into a buffer, unless
      the seed is 0 and the build takes the short cut. */
  method MakeLongSecret(mode: Mode, kernel: Kernel, shortCut: bool) returns (secret: bytes)
    requires IsMode(mode)
    ensures secret == LongSecret(mode)
  {
    hide KSecret, DerivedSecret;
    match mode {
      case Default => secret := KSecret();
      case WithSecret(given) => secret := given;
      case WithSecretAndSeed(given, _) => secret := given;
      case WithSeed(seed) =>
        if seed == 0 && shortCut {
          return KSecret();
        }
        var buffer := new u8[SECRET_DEFAULT_SIZE];
        InitCustomSecret(buffer, seed, kernel);
        SeedZeroDerivesDefault();
        secret := buffer[..];
    }
  }

  /** The one-shot hash as the library computes it, on any of its kernels and
      in the default or the size-optimised build. */
  method Hash64(mode: Mode, data: bytes, kernel: Kernel, sizeOpt: bool) returns (h: u64)
    requires IsMode(mode) && |data| < 0x1_0000_0000_0000_0000
    ensures h == OneShot64(mode, data)
  {
    hide Short64, LongAcc, MergeAccs, InitialAcc, LongSecret, ShortSecret;
    if |data| <= MIDSIZE_MAX {
      h := ShortHash64(data, ShortSecret(mode), ShortSeed(mode), sizeOpt);
      return;
    }
    var secret := MakeLongSecret(mode, kernel, !sizeOpt);
    var acc := NewAcc();
    HashLongLoop(acc, data, secret, kernel);
    h := MergeAccsLoop(acc, secret, SECRET_MERGEACCS_START, Mul64(|data|, PRIME64_1));
  }

  /** Here the short cut is taken in every build. */
  method Hash128Bits(mode: Mode, data: bytes, kernel: Kernel, sizeOpt: bool) returns (h: Hash128)
    requires IsMode(mode) && |data| < 0x1_0000_0000_0000_0000
    ensures h == OneShot128(mode, data)
  {
    hide Short128, LongAcc, MergeAccs, InitialAcc, LongSecret, ShortSecret;
    if |data| <= MIDSIZE_MAX {
      h := ShortHash128(data, ShortSecret(mode), ShortSeed(mode), sizeOpt);
      return;
    }
    var secret := MakeLongSecret(mode, kernel, true);
    var acc := NewAcc();
    HashLongLoop(acc, data, secret, kernel);
    var low := MergeAccsLoop(acc, secret, SECRET_MERGEACCS_START, Mul64(|data|, PRIME64_1));
    var high := MergeAccsLoop(acc, secret, |secret| - 64 - SECRET_MERGEACCS_START, Not64(Mul64(|data|, PRIME64_2)));
    h := Hash128(low, high);
  }

  /** `XXH3_consumeStripes`: like the block loop, but it may start and stop
      anywhere inside a block. */
  method ConsumeStripes(acc: array<u64>, nbStripesSoFar: nat, nbStripesPerBlock: nat, input: bytes, at: nat,
                        nbStripes: nat, secret: bytes, secretLimit: nat, kernel: Kernel)
    returns (soFar: nat, next: nat)
    requires acc.Length == 8 && IsSecret(secret) && at + 64 * nbStripes <= |input|
    requires nbStripesPerBlock == StripesPerBlock(secret) && secretLimit == |secret| - 64
    requires nbStripesSoFar < nbStripesPerBlock
    modifies acc
    ensures soFar < nbStripesPerBlock && next == at + 64 * nbStripes
    ensures Core(acc[..], soFar)
         == Consume(Core(old(acc[..]), nbStripesSoFar), input[at..], nbStripes, secret)
  {
    hide Accumulate512, Scramble, Consume, AccumulateStripes, StripesPerBlock;
    ghost var start := Core(acc[..], nbStripesSoFar);
    ghost var data := input[at..];
    ghost var done := 0;
    soFar, next := nbStripesSoFar, at;
    var remaining := nbStripes;
    ConsumeNone(start, data, secret);
    if remaining >= nbStripesPerBlock - soFar {
      var thisIter := nbStripesPerBlock - soFar;
      while true
        invariant soFar + thisIter == nbStripesPerBlock && 0 < thisIter <= remaining
        invariant 0 <= done && done + remaining == nbStripes && next == at + 64 * done
        invariant Core(acc[..], soFar) == Consume(start, data, done, secret)
        decreases remaining
      {
        ConsumeBlockEnd(acc, soFar, input, next, thisIter, secret, secretLimit, kernel);
        ExtendConsume(start, input, at, done, thisIter, secret);
        next := next + thisIter * STRIPE_LEN;
        remaining := remaining - thisIter;
        done := done + thisIter;
        soFar := 0;
        thisIter := nbStripesPerBlock;
        if remaining < nbStripesPerBlock { break; }
      }
    }
    if remaining > 0 {
      ConsumeInBlock(Core(acc[..], soFar), input[next..], remaining, secret);
      ExtendConsume(start, input, at, done, remaining, secret);
      Accumulate(acc, input, next, secret, soFar, remaining, kernel);
      next := next + remaining * STRIPE_LEN;
      soFar := soFar + remaining;
    }
  }

  /** The rest of a block, then its scramble. */
  method ConsumeBlockEnd(acc: array<u64>, soFar: nat, input: bytes, at: nat, n: nat, secret: bytes,
                         secretLimit: nat, kernel: Kernel)
    requires acc.Length == 8 && IsSecret(secret) && at + 64 * n <= |input|
    requires soFar + n == StripesPerBlock(secret) && n > 0 && secretLimit == |secret| - 64
    modifies acc
    ensures Core(acc[..], 0) == Consume(Core(old(acc[..]), soFar), input[at..], n, secret)
  {
    hide Accumulate512, Scramble, Consume, StripesPerBlock, AccumulateStripes;
    ConsumeToBlockEnd(Core(acc[..], soFar), input[at..], n, secret);
    Accumulate(acc, input, at, secret, soFar, n, kernel);
    ScrambleAcc(acc, secret, secretLimit, kernel);
    assert secret[secretLimit..secretLimit + 64] == secret[|secret| - 64..];
  }

  lemma ExtendConsume(c: Core, input: bytes, at: nat, m: nat, n: nat, secret: bytes)
    requires at + 64 * (m + n) <= |input| && IsSecret(secret) && c.pos < StripesPerBlock(secret)
    ensures Consume(c, input[at..], m + n, secret)
         == Consume(Consume(c, input[at..], m, secret), input[at + 64 * m..], n, secret)
  {
    hide Consume, StripesPerBlock;
    ConsumeSplit(c, input[at..], m, n, secret);
    assert input[at..][64 * m..] == input[at + 64 * m..];
  }
}
