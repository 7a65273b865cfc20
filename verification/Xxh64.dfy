/** XXH64: the hash of a whole input, its one-shot loops, and the streaming
    state. */
module Xxh64 {
  import opened Bits
  import opened Mixers

  type Lanes64 = s: seq<u64> | |s| == 4 witness [0, 0, 0, 0]

  function Xxh64Round(acc: u64, input: u64): u64 {
    Mul64(Rotl64(Add64(acc, Mul64(input, PRIME64_2)), 31), PRIME64_1)
  }

  function StartLanes(seed: u64): Lanes64 {
    [Add64(Add64(seed, PRIME64_1), PRIME64_2), Add64(seed, PRIME64_2), seed, Sub64(seed, PRIME64_1)]
  }

  function RoundLanes(v: Lanes64, stripe: bytes): Lanes64
    requires |stripe| == 32
  {
    [Xxh64Round(v[0], Read64(stripe, 0)), Xxh64Round(v[1], Read64(stripe, 8)),
     Xxh64Round(v[2], Read64(stripe, 16)), Xxh64Round(v[3], Read64(stripe, 24))]
  }

  function Stripe32(data: bytes, i: nat): (b: bytes)
    requires |data| >= 32 * i + 32
    ensures |b| == 32
  {
    data[32 * i..32 * i + 32]
  }

  /** The lanes after n stripes. */
  function Rounds(v: Lanes64, data: bytes, n: nat): Lanes64
    requires |data| >= 32 * n
  {
    if n == 0 then v else RoundLanes(Rounds(v, data, n - 1), Stripe32(data, n - 1))
  }

  function MergeRound(acc: u64, val: u64): u64 {
    Add64(Mul64(Xor64(acc, Xxh64Round(0, val)), PRIME64_1), PRIME64_4)
  }

  function Converge(v: Lanes64): u64 {
    var sum := Add64(Add64(Add64(Rotl64(v[0], 1), Rotl64(v[1], 7)), Rotl64(v[2], 12)), Rotl64(v[3], 18));
    MergeRound(MergeRound(MergeRound(MergeRound(sum, v[0]), v[1]), v[2]), v[3])
  }

  function Process8(h: u64, word: u64): u64 {
    Add64(Mul64(Rotl64(Xor64(h, Xxh64Round(0, word)), 27), PRIME64_1), PRIME64_4)
  }

  function Process4(h: u64, word: u32): u64 {
    Add64(Mul64(Rotl64(Xor64(h, Mul64(word, PRIME64_1)), 23), PRIME64_2), PRIME64_3)
  }

  function Process1(h: u64, byte: u8): u64 {
    Mul64(Rotl64(Xor64(h, Mul64(byte, PRIME64_5)), 11), PRIME64_1)
  }

  /** Takes eight bytes at a time, then four, then one at a time. */
  function Drain(h: u64, tail: bytes): u64
    decreases |tail|
  {
    if |tail| >= 8 then Drain(Process8(h, Read64(tail, 0)), tail[8..])
    else if |tail| >= 4 then Drain(Process4(h, Read32(tail, 0)), tail[4..])
    else if |tail| > 0 then Drain(Process1(h, tail[0]), tail[1..])
    else h
  }

  function Finalize(h: u64, tail: bytes): u64 { Xxh64Avalanche(Drain(h, tail)) }

  /** The hash of a whole input. */
  function Hash(data: bytes, seed: u64): u64
    requires |data| < 0x1_0000_0000_0000_0000
  {
    var n := |data| / 32;
    var h := if |data| >= 32 then Converge(Rounds(StartLanes(seed), data, n)) else Add64(seed, PRIME64_5);
    Finalize(Add64(h, |data|), data[32 * n..])
  }

  /* One-shot */

  method FinalizeLoop(hash: u64, input: bytes, at: nat, len: nat) returns (h: u64)
    requires at + len % 32 == |input|
    ensures h == Finalize(hash, input[at..])
  {
    hide Process8, Process4, Process1, Xxh64Avalanche, Read32, Read64;
    h := hash;
    var p, left := at, len % 32;
    while left >= 8
      invariant p + left == |input| && 0 <= left
      invariant Drain(h, input[p..]) == Drain(hash, input[at..])
    {
      assert input[p..][8..] == input[p + 8..];
      ReadDropped(input, p);
      h := Process8(h, Read64(input, p));
      p, left := p + 8, left - 8;
    }
    if left >= 4 {
      assert input[p..][4..] == input[p + 4..];
      ReadDropped(input, p);
      h := Process4(h, Read32(input, p));
      p, left := p + 4, left - 4;
    }
    while left > 0
      invariant p + left == |input| && 0 <= left < 4
      invariant Drain(h, input[p..]) == Drain(hash, input[at..])
    {
      assert input[p..][1..] == input[p + 1..];
      h := Process1(h, input[p]);
      p, left := p + 1, left - 1;
    }
    h := Xxh64Avalanche(h);
  }

  lemma ReadDropped(input: bytes, p: nat)
    requires p + 4 <= |input|
    ensures Read32(input, p) == Read32(input[p..], 0)
    ensures p + 8 <= |input| ==> Read64(input, p) == Read64(input[p..], 0)
  {
  }

  method OneShot(input: bytes, seed: u64) returns (h: u64)
    requires |input| < 0x1_0000_0000_0000_0000
    ensures h == Hash(input, seed)
  {
    hide Xxh64Round, Finalize, Read64, Rotl64, Add64, MergeRound;
    var p := 0;
    if |input| >= 32 {
      var limit := |input| - 31;
      var start := StartLanes(seed);
      var v1, v2, v3, v4 := start[0], start[1], start[2], start[3];
      while true
        invariant p % 32 == 0 && 0 <= p < limit
        invariant [v1, v2, v3, v4] == Rounds(start, input, p / 32)
        decreases |input| - p
      {
        ReadStripe(input, p);
        v1 := Xxh64Round(v1, Read64(input, p));
        v2 := Xxh64Round(v2, Read64(input, p + 8));
        v3 := Xxh64Round(v3, Read64(input, p + 16));
        v4 := Xxh64Round(v4, Read64(input, p + 24));
        p := p + 32;
        assert [v1, v2, v3, v4] == Rounds(start, input, p / 32);
        if p >= limit { break; }
      }
      h := Add64(Add64(Add64(Rotl64(v1, 1), Rotl64(v2, 7)), Rotl64(v3, 12)), Rotl64(v4, 18));
      h := MergeRound(MergeRound(MergeRound(MergeRound(h, v1), v2), v3), v4);
      assert h == Converge([v1, v2, v3, v4]);
    } else {
      h := Add64(seed, PRIME64_5);
    }
    assert p == 32 * (|input| / 32);
    h := FinalizeLoop(Add64(h, |input|), input, p, |input|);
  }

  lemma ReadStripe(input: bytes, p: nat)
    requires p % 32 == 0 && p + 32 <= |input|
    ensures var stripe := Stripe32(input, p / 32);
      && Read64(input, p) == Read64(stripe, 0) && Read64(input, p + 8) == Read64(stripe, 8)
      && Read64(input, p + 16) == Read64(stripe, 16) && Read64(input, p + 24) == Read64(stripe, 24)
  {
    var stripe := Stripe32(input, p / 32);
    assert stripe == input[p..p + 32];
    ReadSlice(input, p, stripe, 0);
    ReadSlice(input, p, stripe, 8);
    ReadSlice(input, p, stripe, 16);
    ReadSlice(input, p, stripe, 24);
  }

  lemma ReadSlice(input: bytes, p: nat, stripe: bytes, at: nat)
    requires p + |stripe| <= |input| && at + 8 <= |stripe| && stripe == input[p..p + |stripe|]
    ensures Read64(input, p + at) == Read64(stripe, at)
  {
    assert stripe[at] == input[p + at] && stripe[at + 1] == input[p + at + 1];
    assert stripe[at + 2] == input[p + at + 2] && stripe[at + 3] == input[p + at + 3];
    assert stripe[at + 4] == input[p + at + 4] && stripe[at + 5] == input[p + at + 5];
    assert stripe[at + 6] == input[p + at + 6] && stripe[at + 7] == input[p + at + 7];
  }

  /* Streaming */

  lemma {:induction false} RoundsPrefix(v: Lanes64, data: bytes, more: bytes, n: nat)
    requires |data| >= 32 * n
    ensures Rounds(v, data + more, n) == Rounds(v, data, n)
  {
    hide RoundLanes;
    if n != 0 {
      RoundsPrefix(v, data, more, n - 1);
      assert Stripe32(data + more, n - 1) == Stripe32(data, n - 1);
    }
  }

  class State {
    const v: array<u64>
    const mem: array<u8>
    var totalLen: u64
    var memsize: nat

    ghost var seed: u64
    ghost var fed: bytes

    /** The lanes hold every whole stripe received, the buffer the rest. */
    ghost predicate Ready()
      reads this, v, mem
    {
      && v.Length == 4 && mem.Length == 32
      && memsize == |fed| % 32
      && mem[..memsize] == fed[32 * (|fed| / 32)..]
      && v[..] == Rounds(StartLanes(seed), fed, |fed| / 32)
      && totalLen == |fed|
    }

    constructor (seed: u64)
      ensures Ready() && fed == [] && this.seed == seed
      ensures fresh(v) && fresh(mem)
    {
      v := new u64[4];
      mem := new u8[32];
      new;
      Reset(seed);
    }

    method Reset(seed: u64)
      requires v.Length == 4 && mem.Length == 32
      modifies this, v, mem
      ensures Ready() && fed == [] && this.seed == seed
    {
      hide Rounds;
      for i := 0 to 32 {
        mem[i] := 0;
      }
      totalLen, memsize := 0, 0;
      v[0] := Add64(Add64(seed, PRIME64_1), PRIME64_2);
      v[1] := Add64(seed, PRIME64_2);
      v[2] := seed;
      v[3] := Sub64(seed, PRIME64_1);
      this.seed, fed := seed, [];
      NoRounds(StartLanes(seed), []);
      assert |fed| / 32 == 0 && mem[..0] == fed[0..] == [];
      assert v[..] == StartLanes(seed);
    }

    method Update(input: bytes)
      requires Ready() && |fed| + |input| < 0x1_0000_0000_0000_0000
      modifies this, v, mem
      ensures Ready() && seed == old(seed) && fed == old(fed) + input
    {
      hide Rounds, StartLanes, Add64;
      totalLen := totalLen + |input|;
      RoundsPrefix(StartLanes(seed), fed, input, |fed| / 32);
      ghost var n := |fed| / 32;
      assert mem[..memsize] + input == (fed + input)[32 * n..];
      fed := fed + input;
      if memsize + |input| < 32 {
        Buffer(memsize, input);
        memsize := memsize + |input|;
        assert n == |fed| / 32;
      } else {
        UpdateLarge(input, n);
      }
    }

    /** At least one stripe is complete. */
    method UpdateLarge(input: bytes, ghost n0: nat)
      requires v.Length == 4 && mem.Length == 32 && memsize < 32 <= memsize + |input|
      requires |fed| == 32 * n0 + memsize + |input| && fed[32 * n0..] == mem[..memsize] + input
      requires v[..] == Rounds(StartLanes(seed), fed, n0)
      modifies this`memsize, v, mem
      ensures memsize == |fed| % 32 && mem[..memsize] == fed[32 * (|fed| / 32)..]
      ensures v[..] == Rounds(StartLanes(seed), fed, |fed| / 32)
    {
      hide Rounds, StartLanes, RoundLanes;
      var p := 0;
      ghost var n := n0;
      if memsize > 0 {
        p := CompleteStripe(input, n0);
        memsize := 0;
        n := n + 1;
      }
      p, n := Stripes(input, p, fed, n);
      WholeStripes(|fed|, n);
      if p < |input| {
        Buffer(0, input[p..]);
        memsize := |input| - p;
      }
      assert mem[..memsize] == input[p..];
    }

    lemma WholeStripes(len: nat, n: nat)
      requires 32 * n <= len < 32 * n + 32
      ensures len / 32 == n && len % 32 == len - 32 * n
    {
    }

    /** The buffered bytes and the first of the input make a stripe. */
    method CompleteStripe(input: bytes, ghost n: nat) returns (p: nat)
      requires v.Length == 4 && mem.Length == 32 && 0 < memsize < 32 <= memsize + |input|
      requires |fed| == 32 * n + memsize + |input| && fed[32 * n..] == mem[..memsize] + input
      requires v[..] == Rounds(StartLanes(seed), fed, n)
      modifies v, mem
      ensures p == 32 - memsize && fed[32 * (n + 1)..] == input[p..]
      ensures v[..] == Rounds(StartLanes(seed), fed, n + 1)
    {
      hide Rounds, StartLanes, RoundLanes;
      p := 32 - memsize;
      ghost var head := mem[..memsize];
      Buffer(memsize, input[..p]);
      assert fed[32 * n..] == head + input[..p] + input[p..];
      assert mem[..] == fed[32 * n..][..32] == Stripe32(fed, n);
      assert fed[32 * (n + 1)..] == fed[32 * n..][32..] == input[p..];
      OneRound(StartLanes(seed), fed, n + 1);
      Round(mem[..], 0);
      assert mem[..][0..0 + 32] == mem[..];
    }

    /** The loop over whole stripes of the input. */
    method Stripes(input: bytes, start: nat, ghost all: bytes, ghost n0: nat) returns (p: nat, ghost n: nat)
      requires v.Length == 4 && start <= |input| && |all| == 32 * n0 + (|input| - start)
      requires all[32 * n0..] == input[start..]
      requires v[..] == Rounds(StartLanes(seed), all, n0)
      modifies v
      ensures p <= |input| && |all| == 32 * n + (|input| - p) && |input| - p < 32
      ensures v[..] == Rounds(StartLanes(seed), all, n) && all[32 * n..] == input[p..]
    {
      hide Rounds, StartLanes, RoundLanes;
      p, n := start, n0;
      while p <= |input| - 32
        invariant start <= p <= |input| && |all| == 32 * n + (|input| - p)
        invariant all[32 * n..] == input[p..]
        invariant v[..] == Rounds(StartLanes(seed), all, n)
        decreases |input| - p
      {
        assert Stripe32(all, n) == all[32 * n..][..32] == input[p..p + 32];
        OneRound(StartLanes(seed), all, n + 1);
        Round(input, p);
        assert all[32 * (n + 1)..] == all[32 * n..][32..] == input[p + 32..];
        p, n := p + 32, n + 1;
      }
    }

    method Round(input: bytes, p: nat)
      requires v.Length == 4 && p + 32 <= |input|
      modifies v
      ensures v[..] == RoundLanes(old(v[..]), input[p..p + 32])
    {
      hide Xxh64Round;
      ghost var stripe := input[p..p + 32];
      v[0] := Xxh64Round(v[0], Read64(input, p));
      v[1] := Xxh64Round(v[1], Read64(input, p + 8));
      v[2] := Xxh64Round(v[2], Read64(input, p + 16));
      v[3] := Xxh64Round(v[3], Read64(input, p + 24));
      assert Read64(input, p) == Read64(stripe, 0) && Read64(input, p + 8) == Read64(stripe, 8);
      assert Read64(input, p + 16) == Read64(stripe, 16) && Read64(input, p + 24) == Read64(stripe, 24);
    }

    method Buffer(at: nat, src: bytes)
      requires mem.Length == 32 && at + |src| <= 32
      modifies mem
      ensures mem[..at + |src|] == old(mem[..at]) + src
    {
      for i := 0 to |src|
        invariant mem[..at + i] == old(mem[..at]) + src[..i]
      {
        mem[at + i] := src[i];
      }
    }

    /** The streaming digest is the hash of everything received. */
    method Digest() returns (h: u64)
      requires Ready()
      ensures h == Hash(fed, seed)
    {
      hide Rounds, Finalize, Rotl64, MergeRound;
      if totalLen >= 32 {
        h := Add64(Add64(Add64(Rotl64(v[0], 1), Rotl64(v[1], 7)), Rotl64(v[2], 12)), Rotl64(v[3], 18));
        h := MergeRound(MergeRound(MergeRound(MergeRound(h, v[0]), v[1]), v[2]), v[3]);
        assert h == Converge(v[..]);
      } else {
        NoRounds(StartLanes(seed), fed);
        h := Add64(v[2], PRIME64_5);
      }
      h := Add64(h, totalLen);
      var tail := mem[..memsize];
      h := FinalizeLoop(h, tail, 0, totalLen);
      assert tail[0..] == tail;
    }
  }

  lemma NoRounds(v: Lanes64, data: bytes)
    ensures Rounds(v, data, 0) == v
  {
  }

  lemma OneRound(v: Lanes64, data: bytes, n: nat)
    requires n > 0 && |data| >= 32 * n
    ensures Rounds(v, data, n) == RoundLanes(Rounds(v, data, n - 1), Stripe32(data, n - 1))
  {
    hide RoundLanes;
  }

  /** Any chunking, empty chunks included, gives the hash of the concatenation. */
  method HashChunks(chunks: seq<bytes>, seed: u64) returns (h: u64)
    requires |Concat(chunks)| < 0x1_0000_0000_0000_0000
    ensures h == Hash(Concat(chunks), seed)
  {
    hide Hash;
    var state := new State(seed);
    for i := 0 to |chunks|
      invariant fresh(state) && fresh(state.v) && fresh(state.mem)
      invariant state.Ready() && state.seed == seed && state.fed == Concat(chunks[..i])
    {
      ConcatGrows(chunks, i + 1);
      assert chunks[..i + 1][..i] == chunks[..i];
      state.Update(chunks[i]);
    }
    assert chunks[..|chunks|] == chunks;
    h := state.Digest();
  }
}
