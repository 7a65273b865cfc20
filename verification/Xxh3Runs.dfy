/** Whole runs of the streaming API. */
module Xxh3Runs {
  import opened Bits
  import opened Mult128
  import opened Xxh3Kernel
  import opened Xxh3Secret
  import opened Xxh3Long
  import opened Xxh3Stream
  import opened Xxh3State

  /** One call of the reset family, with any secret at all. */
  datatype ResetCall =
    | ResetDefault
    | ResetSeed(seed: u64)
    | ResetSecret(secret: ExtSecret)
    | ResetSecretAndSeed(secret: ExtSecret, seed: u64)

  predicate Accepted(call: ResetCall) {
    call.ResetSecret? || call.ResetSecretAndSeed? ==> call.secret.Ext? && IsSecret(call.secret.secret)
  }

  function ModeOf(call: ResetCall): (m: Mode)
    requires Accepted(call)
    ensures IsMode(m)
  {
    match call
    case ResetDefault => Default
    case ResetSeed(seed) => WithSeed(seed)
    case ResetSecret(secret) => WithSecret(secret.secret)
    case ResetSecretAndSeed(secret, seed) => WithSecretAndSeed(secret.secret, seed)
  }

  /** Any call on a state. */
  datatype Call = ToReset(call: ResetCall) | Feed(chunk: bytes) | Digest

  /** What a caller may expect of a state: nothing before the first accepted
      reset and after a secret has been refused, or the hash of an input. */
  datatype Tracked = NotReady | Hashing(mode: Mode, input: bytes)

  type Track = t: Tracked | t.Hashing? ==> IsMode(t.mode) && |t.input| < 0x1_0000_0000_0000_0000 witness NotReady

  predicate Allowed(t: Track, c: Call) {
    match c
    case ToReset(_) => true
    case Feed(chunk) => t.Hashing? && |t.input| + |chunk| < 0x1_0000_0000_0000_0000
    case Digest => t.Hashing?
  }

  /** A refused secret alone spoils the state; refused together with a seed it
      leaves the state as it was. */
  function After(t: Track, c: Call): Track
    requires Allowed(t, c)
  {
    match c
    case ToReset(call) =>
      if Accepted(call) then Hashing(ModeOf(call), []) else if call.ResetSecret? then NotReady else t
    case Feed(chunk) => Hashing(t.mode, t.input + chunk)
    case Digest => t
  }

  datatype Option<+T> = None | Some(value: T)

  /** Where a sequence of calls leads, if each of them is allowed. */
  function AfterAll(calls: seq<Call>): Option<Track> {
    if calls == [] then Some(NotReady)
    else
      var n := |calls| - 1;
      var t := AfterAll(calls[..n]);
      if t.None? || !Allowed(t.value, calls[n]) then None
      else
        var next: Track := After(t.value, calls[n]);
        Some(next)
  }

  datatype Digested = Digested(h64: u64, h128: Hash128)

  /** The one-shot hashes of the input so far. */
  function HashesOf(t: Track): Digested
    requires t.Hashing?
  {
    Digested(OneShot64(t.mode, t.input), Streamed128(t.mode, t.input))
  }

  /** What the digest calls of a sequence should return. */
  function Expected(calls: seq<Call>): seq<Digested>
    requires AfterAll(calls).Some?
  {
    if calls == [] then []
    else
      var n := |calls| - 1;
      Expected(calls[..n]) + if calls[n].Digest? then [HashesOf(AfterAll(calls[..n]).value)] else []
  }

  ghost predicate Follows(state: State, t: Track)
    reads state, state.acc, state.customSecret, state.buffer
  {
    && state.Shaped() && state.CacheSound()
    && (t.Hashing? ==> state.Ready() && state.mode == t.mode && state.fed == t.input)
  }

  method Apply(state: State, call: ResetCall, kernel: Kernel)
    requires state.Shaped() && state.CacheSound()
    modifies state, state.acc, state.customSecret
    ensures state.Shaped() && state.CacheSound()
    ensures Accepted(call) ==> state.Ready() && state.mode == ModeOf(call) && state.fed == []
    ensures !Accepted(call) && call.ResetSecretAndSeed? ==>
      unchanged(state) && unchanged(state.acc) && unchanged(state.customSecret)
  {
    hide KSecret, DerivedSecret, State.Ready;
    match call {
      case ResetDefault => state.Reset();
      case ResetSeed(seed) =>
        state.ResetWithSeed(seed, kernel);
        ShapedWhenReady(state);
      case ResetSecret(secret) =>
        var _ := state.ResetWithSecret(secret, if secret.Ext? then |secret.secret| else 0);
      case ResetSecretAndSeed(secret, seed) =>
        var _ := state.ResetWithSecretAndSeed(secret, if secret.Ext? then |secret.secret| else 0, seed);
    }
  }

  /** One call; `digests` has one result if it is a digest. */
  method Do(state: State, c: Call, kernel: Kernel, sizeOpt: bool, ghost t: Track) returns (digests: seq<Digested>)
    requires Follows(state, t) && Allowed(t, c)
    modifies state, state.acc, state.customSecret, state.buffer
    ensures Follows(state, After(t, c))
    ensures digests == if c.Digest? then [HashesOf(t)] else []
  {
    hide KSecret, DerivedSecret, OneShot64, Streamed128, State.Ready, State.CacheSound;
    digests := [];
    match c {
      case ToReset(call) => Apply(state, call, kernel);
      case Feed(chunk) =>
        SmallEnough(state, t);
        state.Update(chunk, kernel);
        ShapedWhenReady(state);
      case Digest =>
        var h64 := state.Digest64(kernel, sizeOpt);
        var h128 := state.Digest128(kernel, sizeOpt);
        digests := [Digested(h64, h128)];
    }
  }

  lemma SmallEnough(state: State, t: Track)
    requires Follows(state, t) && t.Hashing?
    ensures |state.fed| == |t.input|
  {
  }

  lemma ShapedWhenReady(state: State)
    requires state.Ready()
    ensures state.Shaped() && state.CacheSound()
  {
  }

  /** Any sequence of resets, accepted or refused, updates and digests: every
      digest is the hash of what was fed since the last reset that took effect,
      under its keying. */
  method Session(calls: seq<Call>, kernel: Kernel, sizeOpt: bool) returns (digests: seq<Digested>)
    requires AfterAll(calls).Some?
    ensures digests == Expected(calls)
  {
    var state;
    state, digests := Drive(calls, kernel, sizeOpt);
  }

  method Drive(calls: seq<Call>, kernel: Kernel, sizeOpt: bool) returns (state: State, digests: seq<Digested>)
    requires AfterAll(calls).Some?
    ensures Follows(state, AfterAll(calls).value) && digests == Expected(calls)
    ensures fresh(state) && fresh(state.acc) && fresh(state.customSecret) && fresh(state.buffer)
  {
    hide HashesOf, After, Allowed, Follows;
    state := NewState();
    digests := [];
    var i := 0;
    while i < |calls|
      invariant 0 <= i <= |calls|
      invariant fresh(state) && fresh(state.acc) && fresh(state.customSecret) && fresh(state.buffer)
      invariant AfterAll(calls[..i]).Some? && Follows(state, AfterAll(calls[..i]).value)
      invariant digests == Expected(calls[..i])
    {
      PrefixAllowed(calls, i + 1);
      assert calls[..i + 1][..i] == calls[..i];
      var more := Do(state, calls[i], kernel, sizeOpt, AfterAll(calls[..i]).value);
      digests := digests + more;
      i := i + 1;
    }
    assert calls[..i] == calls;
  }

  method NewState() returns (state: State)
    ensures Follows(state, NotReady)
    ensures fresh(state) && fresh(state.acc) && fresh(state.customSecret) && fresh(state.buffer)
  {
    state := new State();
  }

  lemma {:induction false} PrefixAllowed(calls: seq<Call>, i: nat)
    requires AfterAll(calls).Some? && i <= |calls|
    ensures AfterAll(calls[..i]).Some?
    decreases |calls| - i
  {
    hide After, Allowed;
    if i == |calls| {
      assert calls[..i] == calls;
    } else {
      PrefixAllowed(calls, i + 1);
      assert calls[..i + 1][..i] == calls[..i];
    }
  }

  /** A state that has been through any calls and is then reset and fed any
      chunks produces the one-shot hashes of the concatenation. */
  method HashChunks(history: seq<Call>, last: ResetCall, chunks: seq<bytes>, kernel: Kernel, sizeOpt: bool)
    returns (d: Digested)
    requires AfterAll(history).Some? && Accepted(last) && |Concat(chunks)| < 0x1_0000_0000_0000_0000
    ensures d.h64 == OneShot64(ModeOf(last), Concat(chunks))
    ensures d.h128 == Streamed128(ModeOf(last), Concat(chunks))
  {
    hide OneShot64, Streamed128, ModeOf, Follows;
    var state, _ := Drive(history, kernel, sizeOpt);
    ghost var t: Track := AfterAll(history).value;
    var none := Do(state, ToReset(last), kernel, sizeOpt, t);
    t := Hashing(ModeOf(last), []);
    var i := 0;
    while i < |chunks|
      invariant 0 <= i <= |chunks|
      invariant fresh(state) && fresh(state.acc) && fresh(state.customSecret) && fresh(state.buffer)
      invariant t == Hashing(ModeOf(last), Concat(chunks[..i])) && Follows(state, t)
    {
      ConcatGrows(chunks, i + 1);
      assert chunks[..i + 1][..i] == chunks[..i];
      none := Do(state, Feed(chunks[i]), kernel, sizeOpt, t);
      t := After(t, Feed(chunks[i]));
      i := i + 1;
    }
    assert chunks[..i] == chunks;
    var digests := Do(state, Digest, kernel, sizeOpt, t);
    d := digests[0];
  }
}
