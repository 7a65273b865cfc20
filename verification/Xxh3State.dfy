/** The XXH3 streaming state. `fed` records the bytes received since the last
    reset; the digests are proved to be the one-shot hashes of `fed`. */
module Xxh3State {
  import opened Bits
  import opened Mixers
  import opened Mult128
  import opened Xxh3Kernel
  import opened Xxh3Vector
  import opened Xxh3Short
  import opened Xxh3Secret
  import opened Xxh3Long
  import opened Xxh3Stream

  const INTERNALBUFFER_SIZE: nat := 256
  const INTERNALBUFFER_STRIPES: nat := 4

  datatype ErrorCode = XXH_OK | XXH_ERROR

  /** A caller's secret, or a null pointer. */
  datatype ExtSecret = Null | Ext(secret: bytes)

  /** The accumulators hold the first `stripes` stripes of `data`. */
  ghost predicate Absorbed(c: Core, data: bytes, stripes: nat, secret: bytes) {
    && IsSecret(secret)
    && 64 * stripes <= |data|
    && c == Consume(Core(InitialAcc(), 0), data, stripes, secret)
  }

  lemma AbsorbedMore(c: Core, data: bytes, stripes: nat, secret: bytes, input: bytes, at: nat, n: nat, c': Core)
    requires Absorbed(c, data, stripes, secret) && 64 * (stripes + n) <= |data| && at + 64 * n <= |input|
    requires c.pos < StripesPerBlock(secret)
    requires input[at..at + 64 * n] == data[64 * stripes..64 * (stripes + n)]
    requires c' == Consume(c, input[at..], n, secret)
    ensures Absorbed(c', data, stripes + n, secret)
  {
    hide Consume, StripesPerBlock;
    ConsumeSplit(Core(InitialAcc(), 0), data, stripes, n, secret);
    assert input[at..][..64 * n] == input[at..at + 64 * n];
    assert data[64 * stripes..][..64 * n] == data[64 * stripes..64 * (stripes + n)];
    assert input[at..][..64 * n] <= data[64 * stripes..];
    ConsumeSame(c, input[at..], data[64 * stripes..], n, secret);
  }

  lemma AbsorbedPrefix(c: Core, data: bytes, more: bytes, stripes: nat, secret: bytes)
    requires Absorbed(c, data, stripes, secret)
    ensures Absorbed(c, data + more, stripes, secret)
  {
    hide Consume, StripesPerBlock;
    ConsumePrefix(Core(InitialAcc(), 0), data, more, stripes, secret);
  }

  lemma StripesOf(secret: bytes)
    requires IsSecret(secret)
    ensures StripesPerBlock(secret) == (|secret| - 64) / 8
  {
  }

  /** Two sequences with a common tail, n bytes further on. */
  lemma SameTail(s: bytes, p: nat, t: bytes, q: nat, n: nat)
    requires p <= |s| && q + n <= |t| && s[p..] == t[q..]
    ensures p + n <= |s| && s[p..p + n] == t[q..q + n] && s[p + n..] == t[q + n..]
    ensures n >= 64 ==> s[p + n - 64..p + n] == t[q + n - 64..q + n]
  {
    assert |s| - p == |t| - q;
    assert s[p..][..n] == t[q..][..n];
    assert s[p..][n..] == t[q..][n..];
    assert n >= 64 ==> s[p..][n - 64..n] == t[q..][n - 64..n];
  }

  /** `memcpy` into a buffer. */
  method CopyInto(dst: array<u8>, at: nat, src: bytes)
    requires at + |src| <= dst.Length
    modifies dst
    ensures dst[..] == old(dst[..at]) + src + old(dst[at + |src|..])
  {
    for i := 0 to |src|
      invariant dst[..at] == old(dst[..at]) && dst[at..at + i] == src[..i]
      invariant dst[at + i..] == old(dst[at + i..])
    {
      dst[at + i] := src[i];
      assert dst[at..at + i + 1] == dst[at..at + i] + [src[i]];
    }
    assert dst[..] == dst[..at] + dst[at..at + |src|] + dst[at + |src|..];
  }

  method CopyLanes(dst: array<u64>, src: array<u64>)
    requires dst.Length == src.Length == 8 && dst != src
    modifies dst
    ensures dst[..] == src[..]
  {
    for i := 0 to 8
      invariant dst[..i] == src[..i]
    {
      dst[i] := src[i];
    }
    assert dst[..8] == dst[..];
    assert src[..8] == src[..];
  }

  class State {
    const acc: array<u64>
    const customSecret: array<u8>
    const buffer: array<u8>
    var bufferedSize: nat
    var useSeed: bool
    var nbStripesSoFar: nat
    var totalLen: u64
    var nbStripesPerBlock: nat
    var secretLimit: int
    var seed: u64
    var extSecret: ExtSecret

    ghost var mode: Mode
    ghost var fed: bytes
    ghost var stripes: nat

    ghost predicate Shaped()
    {
      && acc.Length == 8
      && customSecret.Length == SECRET_DEFAULT_SIZE
      && buffer.Length == INTERNALBUFFER_SIZE
      && customSecret != buffer
    }

    /** What lets a reset keep a secret it derived earlier. */
    ghost predicate CacheSound()
      reads this, customSecret
    {
      extSecret.Null? && seed != 0 ==> customSecret[..] == DerivedSecret(seed)
    }

    function Secret(): bytes
      reads this, customSecret
    {
      if extSecret.Null? then customSecret[..] else extSecret.secret
    }

    /** The fields agree with the mode chosen at the last reset. */
    ghost predicate Keyed()
      reads this, customSecret
    {
      && Shaped()
      && CacheSound()
      && IsMode(mode)
      && Secret() == LongSecret(mode)
      && secretLimit == |Secret()| - STRIPE_LEN
      && nbStripesPerBlock == StripesPerBlock(LongSecret(mode))
      && match mode
         case Default => seed == 0 && !useSeed && extSecret == Ext(KSecret())
         case WithSeed(s) => seed == s && useSeed == (s != 0) && (s == 0 ==> extSecret == Ext(KSecret()))
         case WithSecret(_) => seed == 0 && !useSeed
         case WithSecretAndSeed(_, s) => seed == s && useSeed
    }

    /** Bytes behind the buffered ones are still the last consumed bytes. */
    ghost predicate CatchUp()
      reads this, buffer
      requires Shaped()
    {
      stripes > 0 ==>
        && bufferedSize > 0
        && 64 * stripes <= |fed|
        && forall j :: 192 <= j < 256 && bufferedSize <= j ==> buffer[j] == fed[64 * stripes - 256 + j]
    }

    /** Consumed stripes and buffered bytes are together the bytes received. */
    ghost predicate Ready()
      reads this, acc, customSecret, buffer
    {
      && Keyed()
      && bufferedSize <= INTERNALBUFFER_SIZE
      && |fed| == 64 * stripes + bufferedSize < 0x1_0000_0000_0000_0000
      && totalLen == |fed|
      && buffer[..bufferedSize] == fed[64 * stripes..]
      && (stripes > 0 ==> |fed| > 256)
      && CatchUp()
      && nbStripesSoFar < nbStripesPerBlock
      && Absorbed(Core(acc[..], nbStripesSoFar), fed, stripes, Secret())
    }

    /** `XXH3_createState`: only `seed` and `extSecret` are initialised. */
    constructor ()
      ensures Shaped() && CacheSound()
      ensures fresh(acc) && fresh(customSecret) && fresh(buffer)
    {
      acc := new u64[8];
      customSecret := new u8[SECRET_DEFAULT_SIZE];
      buffer := new u8[INTERNALBUFFER_SIZE];
      seed := 0;
      extSecret := Null;
      bufferedSize, useSeed, nbStripesSoFar, totalLen := 0, false, 0, 0;
      nbStripesPerBlock, secretLimit := 0, 0;
      mode, fed, stripes := Default, [], 0;
    }

    /** Nothing received and nothing consumed. */
    ghost predicate JustReset()
      reads this, acc
    {
      && bufferedSize == 0 && nbStripesSoFar == 0 && totalLen == 0
      && fed == [] && stripes == 0 && acc[..] == InitialAcc()
    }

    lemma ReadyAfterReset()
      requires Keyed() && JustReset()
      ensures Ready()
    {
      hide KSecret, DerivedSecret, InitialAcc;
    }

    /** `XXH3_reset_internal`. */
    method ResetInternal(seed: u64, secret: ExtSecret, secretSize: nat)
      requires Shaped()
      modifies this, acc
      ensures this.seed == seed && useSeed == (seed != 0) && extSecret == secret
      ensures JustReset() && mode == old(mode)
      ensures secretLimit == secretSize - STRIPE_LEN
      ensures secretSize >= 64 ==> nbStripesPerBlock == (secretSize - 64) / 8
    {
      bufferedSize, nbStripesSoFar, totalLen := 0, 0, 0;
      SetInitial(acc);
      this.seed := seed;
      useSeed := seed != 0;
      extSecret := secret;
      secretLimit := secretSize - STRIPE_LEN;
      // an undersized secret is refused by every caller after this point
      nbStripesPerBlock := if secretSize >= STRIPE_LEN then (secretSize - STRIPE_LEN) / SECRET_CONSUME_RATE else 0;
      fed, stripes := [], 0;
    }

    /** `XXH3_64bits_reset` and `XXH3_128bits_reset`. */
    method Reset()
      requires Shaped() && CacheSound()
      modifies this, acc
      ensures Ready() && mode == Default && fed == []
      ensures Keyed() && JustReset()
    {
      hide KSecret, DerivedSecret, StripesPerBlock, InitialAcc, Ready;
      ResetInternal(0, Ext(KSecret()), SECRET_DEFAULT_SIZE);
      mode := Default;
      StripesOf(KSecret());
      ReadyAfterReset();
    }

    method ResetWithSecret(secret: ExtSecret, secretSize: nat) returns (code: ErrorCode)
      requires Shaped() && CacheSound()
      requires secret.Ext? ==> secretSize == |secret.secret|
      modifies this, acc
      ensures Shaped() && CacheSound() && extSecret == secret
      ensures code == XXH_OK <==> secret.Ext? && IsSecret(secret.secret)
      ensures code == XXH_OK ==> Ready() && mode == WithSecret(secret.secret) && fed == []
    {
      hide KSecret, DerivedSecret, StripesPerBlock, InitialAcc, Ready;
      ResetInternal(0, secret, secretSize);
      if secret.Null? { return XXH_ERROR; }
      if secretSize < SECRET_SIZE_MIN { return XXH_ERROR; }
      mode := WithSecret(secret.secret);
      StripesOf(secret.secret);
      ReadyAfterReset();
      return XXH_OK;
    }

    /** Skips deriving the secret when the state already holds it. */
    method ResetWithSeed(seed: u64, kernel: Kernel)
      requires Shaped() && CacheSound()
      modifies this, acc, customSecret
      ensures Ready() && mode == WithSeed(seed) && fed == []
    {
      hide KSecret, DerivedSecret, StripesPerBlock, InitialAcc, Ready;
      if seed == 0 {
        Reset();
        mode := WithSeed(0);
        ReadyAfterReset();
        return;
      }
      if seed != this.seed || extSecret.Ext? {
        InitCustomSecret(customSecret, seed, kernel);
      }
      ResetInternal(seed, Null, SECRET_DEFAULT_SIZE);
      mode := WithSeed(seed);
      StripesOf(DerivedSecret(seed));
      ReadyAfterReset();
    }

    method ResetWithSecretAndSeed(secret: ExtSecret, secretSize: nat, seed: u64) returns (code: ErrorCode)
      requires Shaped() && CacheSound()
      requires secret.Ext? ==> secretSize == |secret.secret|
      modifies this, acc
      ensures Shaped() && CacheSound()
      ensures code == XXH_OK <==> secret.Ext? && IsSecret(secret.secret)
      ensures code == XXH_OK ==> Ready() && mode == WithSecretAndSeed(secret.secret, seed) && fed == []
      ensures code == XXH_ERROR ==> unchanged(this) && unchanged(acc)
    {
      hide KSecret, DerivedSecret, StripesPerBlock, InitialAcc, Ready;
      if secret.Null? { return XXH_ERROR; }
      if secretSize < SECRET_SIZE_MIN { return XXH_ERROR; }
      ResetInternal(seed, secret, secretSize);
      useSeed := true;
      mode := WithSecretAndSeed(secret.secret, seed);
      StripesOf(secret.secret);
      ReadyAfterReset();
      return XXH_OK;
    }

    /** `XXH3_update`. */
    method Update(input: bytes, kernel: Kernel)
      requires Ready() && |fed| + |input| < 0x1_0000_0000_0000_0000
      modifies this, acc, buffer
      ensures Ready() && mode == old(mode)
      ensures fed == old(fed) + input
    {
      hide KSecret, DerivedSecret, Consume, StripesPerBlock, InitialAcc, LongSecret, Absorbed;
      totalLen := totalLen + |input|;
      Absorb(input, Secret(), kernel);
    }

    method Absorb(input: bytes, secret: bytes, kernel: Kernel)
      requires Shaped() && IsSecret(secret) && bufferedSize <= INTERNALBUFFER_SIZE
      requires secretLimit == |secret| - 64 && nbStripesSoFar < nbStripesPerBlock == StripesPerBlock(secret)
      requires |fed| == 64 * stripes + bufferedSize && buffer[..bufferedSize] == fed[64 * stripes..]
      requires (stripes > 0 ==> |fed| > 256) && CatchUp()
      requires Absorbed(Core(acc[..], nbStripesSoFar), fed, stripes, secret)
      modifies this`bufferedSize, this`nbStripesSoFar, this`stripes, this`fed, acc, buffer
      ensures fed == old(fed) + input && bufferedSize <= INTERNALBUFFER_SIZE
      ensures |fed| == 64 * stripes + bufferedSize && buffer[..bufferedSize] == fed[64 * stripes..]
      ensures (stripes > 0 ==> |fed| > 256) && CatchUp()
      ensures nbStripesSoFar < nbStripesPerBlock
      ensures Absorbed(Core(acc[..], nbStripesSoFar), fed, stripes, secret)
    {
      hide StripesPerBlock, Absorbed;
      AbsorbedPrefix(Core(acc[..], nbStripesSoFar), fed, input, stripes, secret);
      if |input| <= INTERNALBUFFER_SIZE - bufferedSize {
        BufferAll(input);
      } else {
        assert buffer[..bufferedSize] + input == (fed + input)[64 * stripes..];
        fed := fed + input;
        UpdateLarge(input, secret, kernel);
      }
    }

    /** The input does not fit the buffer. The accumulators are worked on in a
        local copy and stored back at the end. */
    method UpdateLarge(input: bytes, secret: bytes, kernel: Kernel)
      requires Shaped() && IsSecret(secret)
      requires secretLimit == |secret| - 64 && nbStripesSoFar < nbStripesPerBlock == StripesPerBlock(secret)
      requires bufferedSize <= 256 < bufferedSize + |input|
      requires |fed| == 64 * stripes + bufferedSize + |input| && (stripes > 0 ==> bufferedSize > 0)
      requires fed[64 * stripes..] == buffer[..bufferedSize] + input
      requires Absorbed(Core(acc[..], nbStripesSoFar), fed, stripes, secret)
      modifies this`bufferedSize, this`nbStripesSoFar, this`stripes, acc, buffer
      ensures bufferedSize <= 256 && |fed| == 64 * stripes + bufferedSize
      ensures buffer[..bufferedSize] == fed[64 * stripes..] && CatchUp()
      ensures nbStripesSoFar < nbStripesPerBlock
      ensures Absorbed(Core(acc[..], nbStripesSoFar), fed, stripes, secret)
    {
      hide Consume, StripesPerBlock, InitialAcc, Absorbed, Draining, CatchUp;
      var local := new u64[8];
      CopyLanes(local, acc);
      var at := 0;
      if bufferedSize > 0 {
        at := FillBuffer(input, local, secret, kernel);
      } else {
        NothingBuffered(local, input, secret);
      }
      if |input| - at > INTERNALBUFFER_SIZE {
        at := ConsumeInput(input, at, local, secret, kernel);
      }
      BufferRest(input, at, local, secret);
      CopyLanes(acc, local);
    }

    /** Large input in progress: everything received before `input[at..]` has
        been consumed into `local`, and nothing is buffered. */
    ghost predicate Draining(local: array<u64>, input: bytes, at: nat, secret: bytes)
      reads this, local, buffer
    {
      && Shaped() && local.Length == 8
      && at < |input| && bufferedSize == 0
      && |fed| == 64 * stripes + (|input| - at)
      && fed[64 * stripes..] == input[at..]
      && (stripes > 0 ==> forall j :: 192 <= j < 256 ==> buffer[j] == fed[64 * stripes - 256 + j])
      && nbStripesSoFar < nbStripesPerBlock
      && Absorbed(Core(local[..], nbStripesSoFar), fed, stripes, secret)
    }

    lemma NothingBuffered(local: array<u64>, input: bytes, secret: bytes)
      requires Shaped() && local.Length == 8 && input != [] && bufferedSize == 0 && stripes == 0
      requires |fed| == |input| && fed == buffer[..0] + input && nbStripesSoFar < nbStripesPerBlock
      requires Absorbed(Core(local[..], nbStripesSoFar), fed, 0, secret)
      ensures Draining(local, input, 0, secret)
    {
      hide Absorbed;
      assert buffer[..0] + input == input;
    }

    /** Small input: it fits behind what is already buffered. */
    method BufferAll(input: bytes)
      requires Shaped() && bufferedSize + |input| <= 256
      requires |fed| == 64 * stripes + bufferedSize && buffer[..bufferedSize] == fed[64 * stripes..] && CatchUp()
      modifies this`bufferedSize, this`fed, buffer
      ensures fed == old(fed) + input && bufferedSize == old(bufferedSize) + |input|
      ensures buffer[..bufferedSize] == fed[64 * stripes..] && CatchUp()
    {
      CopyInto(buffer, bufferedSize, input);
      fed := fed + input;
      bufferedSize := bufferedSize + |input|;
    }

    /** Completes the internal buffer and consumes it. */
    method FillBuffer(input: bytes, local: array<u64>, secret: bytes, kernel: Kernel) returns (at: nat)
      requires Shaped() && IsSecret(secret) && local.Length == 8
      requires secretLimit == |secret| - 64 && nbStripesSoFar < nbStripesPerBlock == StripesPerBlock(secret)
      requires 0 < bufferedSize <= 256 < bufferedSize + |input|
      requires |fed| == 64 * stripes + bufferedSize + |input|
      requires fed[64 * stripes..] == buffer[..bufferedSize] + input
      requires Absorbed(Core(local[..], nbStripesSoFar), fed, stripes, secret)
      modifies this`bufferedSize, this`nbStripesSoFar, this`stripes, local, buffer
      ensures Draining(local, input, at, secret)
    {
      hide Consume, StripesPerBlock, InitialAcc;
      var loadSize := INTERNALBUFFER_SIZE - bufferedSize;
      ghost var head := buffer[..bufferedSize];
      CopyInto(buffer, bufferedSize, input[..loadSize]);
      assert buffer[..] == head + input[..loadSize];
      at := loadSize;
      ghost var before := Core(local[..], nbStripesSoFar);
      var soFar, _ := ConsumeStripes(local, nbStripesSoFar, nbStripesPerBlock, buffer[..], 0, INTERNALBUFFER_STRIPES,
                                     secret, secretLimit, kernel);
      assert buffer[..] == fed[64 * stripes..64 * (stripes + 4)] by {
        assert fed[64 * stripes..] == head + input[..loadSize] + input[loadSize..];
        assert fed[64 * stripes..64 * (stripes + 4)] == fed[64 * stripes..][..256];
      }
      assert buffer[..][0..0 + 64 * 4] == buffer[..];
      AbsorbedMore(before, fed, stripes, secret, buffer[..], 0, INTERNALBUFFER_STRIPES, Core(local[..], soFar));
      nbStripesSoFar := soFar;
      bufferedSize := 0;
      stripes := stripes + 4;
      assert fed[64 * stripes..] == input[at..];
      forall j | 192 <= j < 256 ensures buffer[j] == fed[64 * stripes - 256 + j] {
        assert buffer[j] == buffer[..][j];
      }
    }

    /** Consumes stripes straight from a large input, all but its last bytes,
        and keeps a copy of the last stripe. */
    method ConsumeInput(input: bytes, start: nat, local: array<u64>, secret: bytes, kernel: Kernel) returns (at: nat)
      requires Shaped() && IsSecret(secret) && local.Length == 8
      requires secretLimit == |secret| - 64 && nbStripesPerBlock == StripesPerBlock(secret)
      requires Draining(local, input, start, secret) && |input| - start > INTERNALBUFFER_SIZE
      modifies this`nbStripesSoFar, this`stripes, local, buffer
      ensures Draining(local, input, at, secret) && |input| - at <= INTERNALBUFFER_SIZE
    {
      hide Consume, StripesPerBlock, InitialAcc;
      var nbStripes := (|input| - 1 - start) / STRIPE_LEN;
      ghost var before := Core(local[..], nbStripesSoFar);
      var soFar, next := ConsumeStripes(local, nbStripesSoFar, nbStripesPerBlock, input, start, nbStripes,
                                        secret, secretLimit, kernel);
      at := next;
      SameTail(fed, 64 * stripes, input, start, 64 * nbStripes);
      AbsorbedMore(before, fed, stripes, secret, input, start, nbStripes, Core(local[..], soFar));
      nbStripesSoFar := soFar;
      stripes := stripes + nbStripes;
      KeepLastStripe(input, at);
    }

    /** The catch-up copy of the last consumed stripe. */
    method KeepLastStripe(input: bytes, at: nat)
      requires Shaped() && 64 <= at <= |input| && 64 * stripes >= 64 && 64 * stripes <= |fed|
      requires fed[64 * stripes - 64..64 * stripes] == input[at - 64..at]
      modifies buffer
      ensures forall j :: 192 <= j < 256 ==> buffer[j] == fed[64 * stripes - 256 + j]
    {
      var last := input[at - STRIPE_LEN..at];
      CopyInto(buffer, INTERNALBUFFER_SIZE - STRIPE_LEN, last);
      forall j | 192 <= j < 256 ensures buffer[j] == fed[64 * stripes - 256 + j] {
        assert buffer[j] == buffer[..][j] == last[j - 192];
        assert fed[64 * stripes - 64..64 * stripes][j - 192] == last[j - 192];
      }
    }

    /** There is always some input left, and it fits. */
    method BufferRest(input: bytes, at: nat, ghost local: array<u64>, ghost secret: bytes)
      requires Draining(local, input, at, secret) && |input| - at <= 256
      modifies this`bufferedSize, buffer
      ensures bufferedSize <= 256 && |fed| == 64 * stripes + bufferedSize
      ensures buffer[..bufferedSize] == fed[64 * stripes..] && CatchUp()
      ensures nbStripesSoFar < nbStripesPerBlock
      ensures Absorbed(Core(local[..], nbStripesSoFar), fed, stripes, secret)
    {
      hide Absorbed;
      ghost var was := buffer[..];
      CopyInto(buffer, 0, input[at..]);
      bufferedSize := |input| - at;
      assert buffer[..bufferedSize] == input[at..];
      forall j | 192 <= j < 256 && bufferedSize <= j ensures buffer[j] == was[j] {
        assert buffer[j] == buffer[..][j];
      }
    }

    /** `XXH3_digest_long`, on a copy of the accumulators. */
    method DigestLong(kernel: Kernel) returns (result: array<u64>)
      requires Ready() && |fed| > MIDSIZE_MAX
      ensures fresh(result) && result.Length == 8
      ensures result[..] == LongAcc(fed, Secret())
    {
      hide Consume, StripesPerBlock, InitialAcc, KSecret, DerivedSecret, LongSecret, Accumulate512, Absorbed;
      var secret := Secret();
      result := new u64[8];
      CopyLanes(result, acc);
      var lastStripe: bytes;
      if bufferedSize >= STRIPE_LEN {
        lastStripe := ConsumeBuffered(result, kernel);
      } else {
        var catchupSize := STRIPE_LEN - bufferedSize;
        lastStripe := buffer[INTERNALBUFFER_SIZE - catchupSize..] + buffer[..bufferedSize];
        CaughtUp(catchupSize);
        AbsorbedAll();
      }
      AccumulateOne(result, lastStripe, 0, secret, secretLimit - SECRET_LASTACC_START, kernel);
      assert lastStripe[0..0 + 64] == lastStripe;
    }

    lemma AbsorbedAll()
      requires Ready() && 0 < bufferedSize <= 64
      ensures |fed| >= 64 * stripes && stripes == (|fed| - 1) / 64
      ensures acc[..] == Consume(Core(InitialAcc(), 0), fed, stripes, Secret()).acc
    {
      hide Consume, StripesPerBlock, InitialAcc, KSecret, DerivedSecret, LongSecret;
    }

    /** Consumes the buffered stripes that precede the last byte. */
    method ConsumeBuffered(result: array<u64>, kernel: Kernel) returns (lastStripe: bytes)
      requires Ready() && |fed| > MIDSIZE_MAX && bufferedSize >= STRIPE_LEN
      requires result.Length == 8 && result != acc && result[..] == acc[..]
      modifies result
      ensures result[..] == Consume(Core(InitialAcc(), 0), fed, (|fed| - 1) / 64, Secret()).acc
      ensures lastStripe == fed[|fed| - 64..]
    {
      hide Consume, StripesPerBlock, InitialAcc, KSecret, DerivedSecret, LongSecret, CatchUp;
      var nbStripes := (bufferedSize - 1) / STRIPE_LEN;
      ghost var before := Core(result[..], nbStripesSoFar);
      BufferedStripes(nbStripes);
      var soFar, _ := ConsumeStripes(result, nbStripesSoFar, nbStripesPerBlock, buffer[..], 0, nbStripes,
                                     Secret(), secretLimit, kernel);
      AbsorbedMore(before, fed, stripes, Secret(), buffer[..], 0, nbStripes, Core(result[..], soFar));
      AllStripes(stripes, bufferedSize);
      lastStripe := buffer[bufferedSize - STRIPE_LEN..bufferedSize];
      BufferedTail();
    }

    lemma AllStripes(consumed: nat, buffered: nat)
      requires buffered > 0
      ensures consumed + (buffered - 1) / 64 == (64 * consumed + buffered - 1) / 64
    {
    }

    lemma BufferedTail()
      requires Ready() && bufferedSize >= 64
      ensures |fed| >= 64 && buffer[bufferedSize - 64..bufferedSize] == fed[|fed| - 64..]
    {
      hide Absorbed, LongSecret, KSecret, DerivedSecret, StripesPerBlock;
      assert buffer[bufferedSize - 64..bufferedSize] == buffer[..bufferedSize][bufferedSize - 64..];
      assert fed[|fed| - 64..] == fed[64 * stripes..][bufferedSize - 64..];
    }

    lemma BufferedStripes(n: nat)
      requires Ready() && 64 * n <= bufferedSize
      ensures 64 * (stripes + n) <= |fed|
      ensures buffer[..][0..0 + 64 * n] == fed[64 * stripes..64 * (stripes + n)]
    {
      hide Absorbed, LongSecret, KSecret, DerivedSecret, StripesPerBlock;
      assert buffer[..][0..0 + 64 * n] == buffer[..bufferedSize][..64 * n];
      assert fed[64 * stripes..64 * (stripes + n)] == fed[64 * stripes..][..64 * n];
    }

    /** Behind a nearly empty buffer lie the bytes that complete the stripe. */
    lemma CaughtUp(catchupSize: nat)
      requires Ready() && stripes > 0 && bufferedSize + catchupSize == 64
      ensures |fed| >= 64
      ensures buffer[256 - catchupSize..] + buffer[..bufferedSize] == fed[|fed| - 64..]
    {
      hide Absorbed, LongSecret, KSecret, DerivedSecret, StripesPerBlock;
      var left, right := buffer[256 - catchupSize..], fed[|fed| - 64..64 * stripes];
      forall k | 0 <= k < catchupSize ensures left[k] == right[k] {
        assert left[k] == buffer[256 - catchupSize + k];
      }
      assert left == right;
      assert fed[|fed| - 64..] == right + fed[64 * stripes..];
    }

    /** The streaming digest is the one-shot hash of everything received. */
    method Digest64(kernel: Kernel, sizeOpt: bool) returns (h: u64)
      requires Ready()
      ensures h == OneShot64(mode, fed)
    {
      hide KSecret, DerivedSecret, StripesPerBlock, LongAcc, MergeAccs, Short64, Absorbed;
      var secret := Secret();
      if totalLen as nat > MIDSIZE_MAX {
        var result := DigestLong(kernel);
        h := MergeAccsLoop(result, secret, SECRET_MERGEACCS_START, Mul64(totalLen, PRIME64_1));
        return;
      }
      assert fed[64 * stripes..] == fed;
      if useSeed {
        h := ShortHash64(buffer[..totalLen], KSecret(), seed, sizeOpt);
      } else {
        h := ShortHash64(buffer[..totalLen], secret, 0, sizeOpt);
      }
    }

    method Digest128(kernel: Kernel, sizeOpt: bool) returns (h: Hash128)
      requires Ready()
      ensures h == Streamed128(mode, fed)
    {
      hide KSecret, DerivedSecret, StripesPerBlock, LongAcc, MergeAccs, Short128, Absorbed;
      var secret := Secret();
      if totalLen as nat > MIDSIZE_MAX {
        var result := DigestLong(kernel);
        var low := MergeAccsLoop(result, secret, SECRET_MERGEACCS_START, Mul64(totalLen, PRIME64_1));
        var high := MergeAccsLoop(result, secret, secretLimit + STRIPE_LEN - 64 - SECRET_MERGEACCS_START,
                                  Not64(Mul64(totalLen, PRIME64_2)));
        return Hash128(low, high);
      }
      assert fed[64 * stripes..] == fed;
      if seed != 0 {
        h := ShortHash128(buffer[..totalLen], KSecret(), seed, sizeOpt);
      } else {
        h := ShortHash128(buffer[..totalLen], secret, 0, sizeOpt);
      }
    }
  }
}
