/** Endpoint identifiers: the 128-bit XXH3 hash of a key, low word first. */
module EndpointGid {
  import opened Bits
  import opened Mult128
  import Xxh3Stream
  import RecvMsgList

  /** The two words of a hash as the bytes a little-endian host stores. */
  function GidOf(h: Hash128): (gid: RecvMsgList.Gid)
    ensures Read64(gid, 0) == h.low64 && Read64(gid, 8) == h.high64
  {
    HalvesRead(h.low64, h.high64);
    Bytes64(h.low64) + Bytes64(h.high64)
  }

  lemma HalvesRead(low: u64, high: u64)
    ensures Read64(Bytes64(low) + Bytes64(high), 0) == low
    ensures Read64(Bytes64(low) + Bytes64(high), 8) == high
  {
    var l, h := Bytes64(low), Bytes64(high);
    hide Bytes64;
    assert Read64(l + h, 0) == Read64(l, 0) && Read64(l + h, 8) == Read64(h, 0);
  }

  /** `zenoh_pico_gen_gid`. */
  function GenGid(key: bytes): RecvMsgList.Gid
    requires |key| < 0x1_0000_0000_0000_0000
  {
    GidOf(Xxh3Stream.OneShot128(Xxh3Stream.Default, key))
  }

  /** Two keys share an identifier exactly when their hashes agree in both words. */
  lemma GidsEqualExactly(k: bytes, l: bytes)
    requires |k| < 0x1_0000_0000_0000_0000 && |l| < 0x1_0000_0000_0000_0000
    ensures GenGid(k) == GenGid(l)
      <==> Xxh3Stream.OneShot128(Xxh3Stream.Default, k) == Xxh3Stream.OneShot128(Xxh3Stream.Default, l)
  {
    hide Xxh3Stream.OneShot128, GidOf;
    GidInjective(Xxh3Stream.OneShot128(Xxh3Stream.Default, k), Xxh3Stream.OneShot128(Xxh3Stream.Default, l));
  }

  lemma GidInjective(g: Hash128, h: Hash128)
    ensures GidOf(g) == GidOf(h) <==> g == h
  {
    assert GidOf(g) == GidOf(h) ==> Read64(GidOf(g), 0) == Read64(GidOf(h), 0);
  }
}
