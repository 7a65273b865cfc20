/** XXH32: the hash of a whole input, its one-shot loops, and the streaming
    state with its wrapping 32-bit length. */
module Xxh32 {
  import opened Bits
  import opened Mixers

  type Lanes32 = s: seq<u32> | |s| == 4 witness [0, 0, 0, 0]

  function Xxh32Round(acc: u32, input: u32): u32 {
    Mul32(Rotl32(Add32(acc, Mul32(input, PRIME32_2)), 13), PRIME32_1)
  }

  function StartLanes(seed: u32): Lanes32 {
    [Add32(Add32(seed, PRIME32_1), PRIME32_2), Add32(seed, PRIME32_2), seed, Sub32(seed, PRIME32_1)]
  }

  function RoundLanes(v: Lanes32, stripe: bytes): Lanes32
    requires |stripe| == 16
  {
    [Xxh32Round(v[0], Read32(stripe, 0)), Xxh32Round(v[1], Read32(stripe, 4)),
     Xxh32Round(v[2], Read32(stripe, 8)), Xxh32Round(v[3], Read32(stripe, 12))]
  }

  function Stripe16(data: bytes, i: nat): (b: bytes)
    requires |data| >= 16 * i + 16
    ensures |b| == 16
  {
    data[16 * i..16 * i + 16]
  }

  /** The lanes after n stripes. */
  function Rounds(v: Lanes32, data: bytes, n: nat): Lanes32
    requires |data| >= 16 * n
  {
    if n == 0 then v else RoundLanes(Rounds(v, data, n - 1), Stripe16(data, n - 1))
  }

  function Converge(v: Lanes32): u32 {
    Add32(Add32(Add32(Rotl32(v[0], 1), Rotl32(v[1], 7)), Rotl32(v[2], 12)), Rotl32(v[3], 18))
  }

  function Process4(h: u32, word: u32): u32 {
    Mul32(Rotl32(Add32(h, Mul32(word, PRIME32_3)), 17), PRIME32_4)
  }

  function Process1(h: u32, byte: u8): u32 {
    Mul32(Rotl32(Add32(h, Mul32(byte, PRIME32_5)), 11), PRIME32_1)
  }

  /** Takes four bytes at a time, then one at a time. */
  function Drain(h: u32, tail: bytes): u32
    decreases |tail|
  {
    if |tail| >= 4 then Drain(Process4(h, Read32(tail, 0)), tail[4..])
    else if |tail| > 0 then Drain(Process1(h, tail[0]), tail[1..])
    else h
  }

  function Finalize(h: u32, tail: bytes): u32 { Xxh32Avalanche(Drain(h, tail)) }

  /** How many whole stripes there are. */
  function Whole(len: nat): (n: nat)
    ensures 16 * n <= len < 16 * n + 16
  {
    len / 16
  }

  /** `(XXH32_hash_t)len`. */
  function Length32(len: nat): u32 { len % 0x1_0000_0000 }

  /** The hash of a whole input. */
  function Hash(data: bytes, seed: u32): u32 {
    var n := Whole(|data|);
    var h := if |data| >= 16 then Converge(Rounds(StartLanes(seed), data, n)) else Add32(seed, PRIME32_5);
    Finalize(Add32(h, Length32(|data|)), data[16 * n..])
  }

  /* One-shot */

  method FinalizeLoop(hash: u32, input: bytes, at: nat, len: nat) returns (h: u32)
    requires at + len % 16 == |input|
    ensures h == Finalize(hash, input[at..])
  {
    hide Process4, Process1, Xxh32Avalanche, Read32;
    h := hash;
    var p, left := at, len % 16;
    while left >= 4
      invariant p + left == |input| && 0 <= left
      invariant Drain(h, input[p..]) == Drain(hash, input[at..])
    {
      assert input[p..][4..] == input[p + 4..];
      assert Read32(input, p) == Read32(input[p..], 0) by { ReadDropped(input, p); }
      h := Process4(h, Read32(input, p));
      p, left := p + 4, left - 4;
    }
    while left > 0
      invariant p + left == |input| && 0 <= left < 4
      invariant Drain(h, input[p..]) == Drain(hash, input[at..])
    {
      assert input[p..][1..] == input[p + 1..];
      h := Process1(h, input[p]);
      p, left := p + 1, left - 1;
    }
    h := Xxh32Avalanche(h);
  }

  lemma ReadDropped(input: bytes, p: nat)
    requires p + 4 <= |input|
    ensures Read32(input, p) == Read32(input[p..], 0)
  {
  }

  method OneShot(input: bytes, seed: u32) returns (h: u32)
    ensures h == Hash(input, seed)
  {
    hide Xxh32Round, Finalize, Read32, Rotl32, Add32;
    var p := 0;
    if |input| >= 16 {
      var limit := |input| - 15;
      var start := StartLanes(seed);
      var v1, v2, v3, v4 := start[0], start[1], start[2], start[3];
      while true
        invariant p % 16 == 0 && 0 <= p < limit
        invariant [v1, v2, v3, v4] == Rounds(start, input, p / 16)
        decreases |input| - p
      {
        ReadStripe(input, p);
        v1 := Xxh32Round(v1, Read32(input, p));
        v2 := Xxh32Round(v2, Read32(input, p + 4));
        v3 := Xxh32Round(v3, Read32(input, p + 8));
        v4 := Xxh32Round(v4, Read32(input, p + 12));
        p := p + 16;
        assert [v1, v2, v3, v4] == Rounds(start, input, p / 16);
        if p >= limit { break; }
      }
      h := Add32(Add32(Add32(Rotl32(v1, 1), Rotl32(v2, 7)), Rotl32(v3, 12)), Rotl32(v4, 18));
      assert h == Converge([v1, v2, v3, v4]);
    } else {
      h := Add32(seed, PRIME32_5);
    }
    WholeStripes(p, |input|);
    h := FinalizeLoop(Add32(h, Length32(|input|)), input, p, |input|);
  }

  lemma WholeStripes(p: nat, len: nat)
    requires p % 16 == 0 && p <= len < p + 16
    ensures p == 16 * Whole(len) && p + len % 16 == len
    ensures p >= 16 ==> p / 16 == Whole(len)
  {
  }

  lemma ReadStripe(input: bytes, p: nat)
    requires p % 16 == 0 && p + 16 <= |input|
    ensures var stripe := Stripe16(input, p / 16);
      && Read32(input, p) == Read32(stripe, 0) && Read32(input, p + 4) == Read32(stripe, 4)
      && Read32(input, p + 8) == Read32(stripe, 8) && Read32(input, p + 12) == Read32(stripe, 12)
  {
    var stripe := Stripe16(input, p / 16);
    assert stripe == input[p..p + 16];
    ReadSlice(input, p, stripe, 0);
    ReadSlice(input, p, stripe, 4);
    ReadSlice(input, p, stripe, 8);
    ReadSlice(input, p, stripe, 12);
  }

  lemma ReadSlice(input: bytes, p: nat, stripe: bytes, at: nat)
    requires p + |stripe| <= |input| && at + 4 <= |stripe| && stripe == input[p..p + |stripe|]
    ensures Read32(input, p + at) == Read32(stripe, at)
  {
    assert stripe[at] == input[p + at] && stripe[at + 1] == input[p + at + 1];
    assert stripe[at + 2] == input[p + at + 2] && stripe[at + 3] == input[p + at + 3];
  }

  /* Streaming */

  lemma {:induction false} RoundsPrefix(v: Lanes32, data: bytes, more: bytes, n: nat)
    requires |data| >= 16 * n
    ensures Rounds(v, data + more, n) == Rounds(v, data, n)
  {
    hide RoundLanes;
    if n != 0 {
      RoundsPrefix(v, data, more, n - 1);
      assert Stripe16(data + more, n - 1) == Stripe16(data, n - 1);
    }
  }

  class State {
    const v: array<u32>
    const mem: array<u8>
    var totalLen32: u32
    var largeLen: bool
    var memsize: nat

    ghost var seed: u32
    ghost var fed: bytes

    /** The lanes hold every whole stripe received, the buffer the rest, and
        `largeLen` remembers what a wrapped length forgets. */
    ghost predicate Ready()
      reads this, v, mem
    {
      && v.Length == 4 && mem.Length == 16
      && memsize == |fed| - 16 * Whole(|fed|)
      && mem[..memsize] == fed[16 * Whole(|fed|)..]
      && v[..] == Rounds(StartLanes(seed), fed, Whole(|fed|))
      && totalLen32 == Length32(|fed|)
      && largeLen == (|fed| >= 16)
    }

    constructor (seed: u32)
      ensures Ready() && fed == [] && this.seed == seed
      ensures fresh(v) && fresh(mem)
    {
      v := new u32[4];
      mem := new u8[16];
      new;
      Reset(seed);
    }

    method Reset(seed: u32)
      requires v.Length == 4 && mem.Length == 16
      modifies this, v, mem
      ensures Ready() && fed == [] && this.seed == seed
    {
      hide Rounds;
      for i := 0 to 16 {
        mem[i] := 0;
      }
      totalLen32, largeLen, memsize := 0, false, 0;
      v[0] := Add32(Add32(seed, PRIME32_1), PRIME32_2);
      v[1] := Add32(seed, PRIME32_2);
      v[2] := seed;
      v[3] := Sub32(seed, PRIME32_1);
      this.seed, fed := seed, [];
      NoRounds(StartLanes(seed), []);
      assert Whole(|fed|) == 0 && mem[..0] == fed[0..] == [];
      assert v[..] == StartLanes(seed);
    }

    method Update(input: bytes)
      requires Ready()
      modifies this, v, mem
      ensures Ready() && seed == old(seed) && fed == old(fed) + input
    {
      hide Rounds, StartLanes, Add32, Whole, Length32;
      LengthWraps(|fed|, |input|);
      totalLen32 := Add32(totalLen32, Length32(|input|));
      largeLen := largeLen || |input| >= 16 || totalLen32 >= 16;
      ghost var n := Whole(|fed|);
      RoundsPrefix(StartLanes(seed), fed, input, n);
      assert mem[..memsize] + input == (fed + input)[16 * n..];
      fed := fed + input;
      if memsize + |input| < 16 {
        Buffer(memsize, input);
        memsize := memsize + |input|;
        WholeIs(|fed|, n);
      } else {
        UpdateLarge(input, n);
      }
    }

    /** At least one stripe is complete. */
    method UpdateLarge(input: bytes, ghost n0: nat)
      requires v.Length == 4 && mem.Length == 16 && memsize < 16 <= memsize + |input|
      requires |fed| == 16 * n0 + memsize + |input| && fed[16 * n0..] == mem[..memsize] + input
      requires v[..] == Rounds(StartLanes(seed), fed, n0)
      modifies this`memsize, v, mem
      ensures memsize == |fed| - 16 * Whole(|fed|) && mem[..memsize] == fed[16 * Whole(|fed|)..]
      ensures v[..] == Rounds(StartLanes(seed), fed, Whole(|fed|))
    {
      hide Rounds, StartLanes, RoundLanes, Whole;
      var p := 0;
      ghost var n := n0;
      if memsize > 0 {
        var rest := 16 - memsize;
        ghost var head := mem[..memsize];
        Buffer(memsize, input[..rest]);
        assert fed[16 * n..] == head + input[..rest] + input[rest..];
        assert mem[..] == fed[16 * n..][..16] == Stripe16(fed, n);
        assert fed[16 * (n + 1)..] == fed[16 * n..][16..] == input[rest..];
        OneRound(StartLanes(seed), fed, n + 1);
        Round(mem[..], 0);
        assert mem[..][0..0 + 16] == mem[..];
        p := rest;
        memsize := 0;
        n := n + 1;
      }
      p, n := Stripes(input, p, fed, n);
      WholeIs(|fed|, n);
      if p < |input| {
        Buffer(0, input[p..]);
        memsize := |input| - p;
      }
      assert mem[..memsize] == input[p..];
    }

    /** The loop over whole stripes of the input. */
    method Stripes(input: bytes, start: nat, ghost all: bytes, ghost n0: nat) returns (p: nat, ghost n: nat)
      requires v.Length == 4 && start <= |input| && |all| == 16 * n0 + (|input| - start)
      requires all[16 * n0..] == input[start..]
      requires v[..] == Rounds(StartLanes(seed), all, n0)
      modifies v
      ensures p <= |input| && |all| == 16 * n + (|input| - p) && |input| - p < 16
      ensures v[..] == Rounds(StartLanes(seed), all, n) && all[16 * n..] == input[p..]
    {
      hide Rounds, StartLanes, RoundLanes;
      p, n := start, n0;
      while p <= |input| - 16
        invariant start <= p <= |input| && |all| == 16 * n + (|input| - p)
        invariant all[16 * n..] == input[p..]
        invariant v[..] == Rounds(StartLanes(seed), all, n)
        decreases |input| - p
      {
        assert Stripe16(all, n) == all[16 * n..][..16] == input[p..p + 16];
        OneRound(StartLanes(seed), all, n + 1);
        Round(input, p);
        assert all[16 * (n + 1)..] == all[16 * n..][16..] == input[p + 16..];
        p, n := p + 16, n + 1;
      }
    }

    method Round(input: bytes, p: nat)
      requires v.Length == 4 && p + 16 <= |input|
      modifies v
      ensures v[..] == RoundLanes(old(v[..]), input[p..p + 16])
    {
      hide Xxh32Round;
      ghost var stripe := input[p..p + 16];
      v[0] := Xxh32Round(v[0], Read32(input, p));
      v[1] := Xxh32Round(v[1], Read32(input, p + 4));
      v[2] := Xxh32Round(v[2], Read32(input, p + 8));
      v[3] := Xxh32Round(v[3], Read32(input, p + 12));
      assert Read32(input, p) == Read32(stripe, 0) && Read32(input, p + 4) == Read32(stripe, 4);
      assert Read32(input, p + 8) == Read32(stripe, 8) && Read32(input, p + 12) == Read32(stripe, 12);
    }

    method Buffer(at: nat, src: bytes)
      requires mem.Length == 16 && at + |src| <= 16
      modifies mem
      ensures mem[..at + |src|] == old(mem[..at]) + src
    {
      for i := 0 to |src|
        invariant mem[..at + i] == old(mem[..at]) + src[..i]
      {
        mem[at + i] := src[i];
      }
    }

    /** The streaming digest is the hash of everything received, whatever the
        chunks were and however often the 32-bit length has wrapped. */
    method Digest() returns (h: u32)
      requires Ready()
      ensures h == Hash(fed, seed)
    {
      hide Rounds, Finalize, Rotl32, Add32, Whole, Length32;
      if largeLen {
        h := Add32(Add32(Add32(Rotl32(v[0], 1), Rotl32(v[1], 7)), Rotl32(v[2], 12)), Rotl32(v[3], 18));
        assert h == Converge(v[..]);
      } else {
        NoRounds(StartLanes(seed), fed);
        h := Add32(v[2], PRIME32_5);
      }
      h := Add32(h, totalLen32);
      var tail := mem[..memsize];
      SmallRest(memsize);
      h := FinalizeLoop(h, tail, 0, memsize);
      assert tail[0..] == tail;
    }
  }

  /** The wrapped length misses 16 only when a flag already says so. */
  lemma LengthWraps(before: nat, len: nat)
    ensures var total := Add32(Length32(before), Length32(len));
      && total == Length32(before + len)
      && (before >= 16 || len >= 16 || total >= 16 <==> before + len >= 16)
  {
    ModuloSum(before, len);
  }

  lemma WholeIs(len: nat, n: nat)
    requires 16 * n <= len < 16 * n + 16
    ensures Whole(len) == n
  {
  }

  lemma SmallRest(rest: nat)
    requires rest < 16
    ensures rest % 16 == rest
  {
  }

  lemma ModuloSum(a: nat, b: nat)
    ensures (a % 0x1_0000_0000 + b % 0x1_0000_0000) % 0x1_0000_0000 == (a + b) % 0x1_0000_0000
  {
    var q := a / 0x1_0000_0000 + b / 0x1_0000_0000;
    var r := a % 0x1_0000_0000 + b % 0x1_0000_0000;
    assert a + b == q * 0x1_0000_0000 + r;
  }

  lemma NoRounds(v: Lanes32, data: bytes)
    ensures Rounds(v, data, 0) == v
  {
  }

  lemma OneRound(v: Lanes32, data: bytes, n: nat)
    requires n > 0 && |data| >= 16 * n
    ensures Rounds(v, data, n) == RoundLanes(Rounds(v, data, n - 1), Stripe16(data, n - 1))
  {
    hide RoundLanes;
  }

  /** Any chunking, empty chunks included, gives the hash of the concatenation. */
  method HashChunks(chunks: seq<bytes>, seed: u32) returns (h: u32)
    ensures h == Hash(Concat(chunks), seed)
  {
    hide Hash;
    var state := new State(seed);
    for i := 0 to |chunks|
      invariant fresh(state) && fresh(state.v) && fresh(state.mem)
      invariant state.Ready() && state.seed == seed && state.fed == Concat(chunks[..i])
    {
      state.Update(chunks[i]);
      assert chunks[..i + 1][..i] == chunks[..i];
    }
    assert chunks[..|chunks|] == chunks;
    h := state.Digest();
  }
}
