/** The default secret and the secrets derived from a seed. */
module Xxh3Secret {
  import opened Bits
  import opened Xxh3Kernel
  import opened Xxh3Vector

  const SECRET_SIZE_MIN: nat := 136
  const SECRET_DEFAULT_SIZE: nat := 192

  /** The default secret, sixteen bytes to the row. */
  function KSecretRow(i: nat): (r: bytes)
    requires i < 12
    ensures |r| == 16
  {
    match i
    case 0 => [0xb8, 0xfe, 0x6c, 0x39, 0x23, 0xa4, 0x4b, 0xbe, 0x7c, 0x01, 0x81, 0x2c, 0xf7, 0x21, 0xad, 0x1c]
    case 1 => [0xde, 0xd4, 0x6d, 0xe9, 0x83, 0x90, 0x97, 0xdb, 0x72, 0x40, 0xa4, 0xa4, 0xb7, 0xb3, 0x67, 0x1f]
    case 2 => [0xcb, 0x79, 0xe6, 0x4e, 0xcc, 0xc0, 0xe5, 0x78, 0x82, 0x5a, 0xd0, 0x7d, 0xcc, 0xff, 0x72, 0x21]
    case 3 => [0xb8, 0x08, 0x46, 0x74, 0xf7, 0x43, 0x24, 0x8e, 0xe0, 0x35, 0x90, 0xe6, 0x81, 0x3a, 0x26, 0x4c]
    case 4 => [0x3c, 0x28, 0x52, 0xbb, 0x91, 0xc3, 0x00, 0xcb, 0x88, 0xd0, 0x65, 0x8b, 0x1b, 0x53, 0x2e, 0xa3]
    case 5 => [0x71, 0x64, 0x48, 0x97, 0xa2, 0x0d, 0xf9, 0x4e, 0x38, 0x19, 0xef, 0x46, 0xa9, 0xde, 0xac, 0xd8]
    case 6 => [0xa8, 0xfa, 0x76, 0x3f, 0xe3, 0x9c, 0x34, 0x3f, 0xf9, 0xdc, 0xbb, 0xc7, 0xc7, 0x0b, 0x4f, 0x1d]
    case 7 => [0x8a, 0x51, 0xe0, 0x4b, 0xcd, 0xb4, 0x59, 0x31, 0xc8, 0x9f, 0x7e, 0xc9, 0xd9, 0x78, 0x73, 0x64]
    case 8 => [0xea, 0xc5, 0xac, 0x83, 0x34, 0xd3, 0xeb, 0xc3, 0xc5, 0x81, 0xa0, 0xff, 0xfa, 0x13, 0x63, 0xeb]
    case 9 => [0x17, 0x0d, 0xdd, 0x51, 0xb7, 0xf0, 0xda, 0x49, 0xd3, 0x16, 0x55, 0x26, 0x29, 0xd4, 0x68, 0x9e]
    case 10 => [0x2b, 0x16, 0xbe, 0x58, 0x7d, 0x47, 0xa1, 0xfc, 0x8f, 0xf8, 0xb8, 0xd1, 0x7a, 0xd0, 0x31, 0xce]
    case _ => [0x45, 0xcb, 0x3a, 0x8f, 0x95, 0x16, 0x04, 0x28, 0xaf, 0xd7, 0xfb, 0xca, 0xbb, 0x4b, 0x40, 0x7e]
  }

  function KSecretRows(n: nat): (s: bytes)
    requires n <= 12
    ensures |s| == 16 * n
  {
    if n == 0 then [] else KSecretRows(n - 1) + KSecretRow(n - 1)
  }

  function KSecret(): (s: bytes)
    ensures |s| == SECRET_DEFAULT_SIZE
  {
    KSecretRows(12)
  }

  /** Even words of the default secret gain the seed, odd words lose it. */
  function DerivedWord(base: bytes, seed: u64, j: nat): u64
    requires |base| >= 8 * j + 8
  {
    if j % 2 == 0 then Add64(Read64(base, 8 * j), seed) else Sub64(Read64(base, 8 * j), seed)
  }

  function DerivedWords(base: bytes, seed: u64, n: nat): (b: bytes)
    requires |base| >= 8 * n
    ensures |b| == 8 * n
  {
    if n == 0 then [] else DerivedWords(base, seed, n - 1) + Bytes64(DerivedWord(base, seed, n - 1))
  }

  function DerivedSecret(seed: u64): (b: bytes)
    ensures |b| == SECRET_DEFAULT_SIZE
  {
    DerivedWords(KSecret(), seed, 24)
  }

  method WriteLE64(dst: array<u8>, at: nat, v: u64)
    requires at + 8 <= dst.Length
    modifies dst
    ensures dst[at..at + 8] == Bytes64(v)
    ensures dst[..at] == old(dst[..at]) && dst[at + 8..] == old(dst[at + 8..])
  {
    var b := Bytes64(v);
    for i := 0 to 8
      invariant dst[at..at + i] == b[..i]
      invariant dst[..at] == old(dst[..at]) && dst[at + 8..] == old(dst[at + 8..])
    {
      dst[at + i] := b[i];
    }
  }

  /** Appends word j of the derived secret. */
  method WriteDerived(dst: array<u8>, ghost base: bytes, ghost seed: u64, j: nat, v: u64)
    requires dst.Length == SECRET_DEFAULT_SIZE == |base| && j < 24
    requires dst[..8 * j] == DerivedWords(base, seed, j) && v == DerivedWord(base, seed, j)
    modifies dst
    ensures dst[..8 * (j + 1)] == DerivedWords(base, seed, j + 1)
  {
    hide DerivedWord, Bytes64;
    WriteLE64(dst, 8 * j, v);
    assert dst[..8 * (j + 1)] == dst[..8 * j] + dst[8 * j..8 * j + 8];
  }

  method InitCustomSecretScalar(customSecret: array<u8>, seed: u64)
    requires customSecret.Length == SECRET_DEFAULT_SIZE
    modifies customSecret
    ensures customSecret[..] == DerivedSecret(seed)
  {
    hide KSecret, DerivedWords, Read64, Add64, Sub64;
    var base := KSecret();
    NoWords(base, seed);
    for i := 0 to SECRET_DEFAULT_SIZE / 16
      invariant customSecret[..16 * i] == DerivedWords(base, seed, 2 * i)
    {
      var lo := Add64(Read64(base, 16 * i), seed);
      var hi := Sub64(Read64(base, 16 * i + 8), seed);
      WriteDerived(customSecret, base, seed, 2 * i, lo);
      WriteDerived(customSecret, base, seed, 2 * i + 1, hi);
    }
    assert customSecret[..] == customSecret[..192];
  }

  lemma NoWords(base: bytes, seed: u64)
    ensures DerivedWords(base, seed, 0) == []
  {
  }

  /** One register of the derived secret. */
  method StoreDerived(dst: array<u8>, ghost base: bytes, ghost seed: u64, j: nat, sum: seq<u64>, w: nat)
    requires dst.Length == SECRET_DEFAULT_SIZE == |base| && j % 2 == 0 && j + w <= 24 && w == |sum|
    requires forall i :: 0 <= i < w ==>
      sum[i] == Add64(Read64(base, 8 * (j + i)), if i % 2 == 0 then seed else Sub64(0, seed))
    requires dst[..8 * j] == DerivedWords(base, seed, j)
    modifies dst
    ensures dst[..8 * (j + w)] == DerivedWords(base, seed, j + w)
  {
    hide DerivedWords, Read64, Add64, Sub64;
    for i := 0 to w
      invariant dst[..8 * (j + i)] == DerivedWords(base, seed, j + i)
    {
      NegatedSeed(Read64(base, 8 * (j + i)), seed);
      WriteDerived(dst, base, seed, j + i, sum[i]);
    }
  }

  /** The vector form adds a register of alternating `seed` and `0 - seed`. */
  method InitCustomSecretVector(customSecret: array<u8>, seed: u64, kernel: Kernel)
    requires customSecret.Length == SECRET_DEFAULT_SIZE && !kernel.Scalar?
    modifies customSecret
    ensures customSecret[..] == DerivedSecret(seed)
  {
    hide KSecret, DerivedWords, Read64, Add64, Sub64;
    var base := KSecret();
    var w := VectorWidth(kernel);
    var seedVec := seq(w, i => if i % 2 == 0 then seed else Sub64(0, seed));
    NoWords(base, seed);
    var j := 0;
    while j < 24
      invariant 0 <= j <= 24 && j % w == 0
      invariant customSecret[..8 * j] == DerivedWords(base, seed, j)
    {
      var sum := AddEach(Load(base, 8 * j, w), seedVec);
      StoreDerived(customSecret, base, seed, j, sum, w);
      j := j + w;
    }
    assert customSecret[..] == customSecret[..192];
  }

  lemma NegatedSeed(x: u64, seed: u64)
    ensures Add64(x, Sub64(0, seed)) == Sub64(x, seed)
  {
  }

  method InitCustomSecret(customSecret: array<u8>, seed: u64, kernel: Kernel)
    requires customSecret.Length == SECRET_DEFAULT_SIZE
    modifies customSecret
    ensures customSecret[..] == DerivedSecret(seed)
  {
    if kernel.Scalar? {
      InitCustomSecretScalar(customSecret, seed);
    } else {
      InitCustomSecretVector(customSecret, seed, kernel);
    }
  }

  /** Whatever the seed, it is added to the even words of the default secret and
      taken from the odd ones. */
  lemma SeedShiftsSecret(seed: u64, j: nat)
    requires j < 24
    ensures Read64(DerivedSecret(seed), 8 * j) as int
         == (Read64(KSecret(), 8 * j) as int + if j % 2 == 0 then seed as int else -(seed as int))
            % 0x1_0000_0000_0000_0000
  {
    hide KSecretRows, DerivedWords, Bytes64, Read64;
    DerivedAt(KSecret(), seed, 24, j);
    var b, w := DerivedSecret(seed), Bytes64(DerivedWord(KSecret(), seed, j));
    ReadSlice(b, 8 * j, w);
  }

  lemma ReadSlice(b: bytes, at: nat, w: bytes)
    requires at + 8 <= |b| && b[at..at + 8] == w
    ensures Read64(b, at) == Read64(w, 0)
  {
    assert w[0] == b[at] && w[1] == b[at + 1] && w[2] == b[at + 2] && w[3] == b[at + 3];
    assert w[4] == b[at + 4] && w[5] == b[at + 5] && w[6] == b[at + 6] && w[7] == b[at + 7];
  }

  lemma {:induction false} DerivedAt(base: bytes, seed: u64, n: nat, j: nat)
    requires j < n && |base| >= 8 * n
    ensures DerivedWords(base, seed, n)[8 * j..8 * j + 8] == Bytes64(DerivedWord(base, seed, j))
  {
    hide DerivedWord, Bytes64;
    if j < n - 1 {
      DerivedAt(base, seed, n - 1, j);
      assert DerivedWords(base, seed, n)[..8 * (n - 1)] == DerivedWords(base, seed, n - 1);
    }
  }

  /** Seed 0 derives the default secret, so skipping its derivation is safe. */
  lemma SeedZeroDerivesDefault()
    ensures DerivedSecret(0) == KSecret()
  {
    hide KSecret, DerivedWords;
    ZeroKeepsWords(KSecret(), 24);
    assert KSecret()[..192] == KSecret();
  }

  lemma {:induction false} ZeroKeepsWords(base: bytes, n: nat)
    requires |base| >= 8 * n
    ensures DerivedWords(base, 0, n) == base[..8 * n]
  {
    hide DerivedWord, Read64, Bytes64;
    if n > 0 {
      ZeroKeepsWords(base, n - 1);
      WordBytes(base, 8 * (n - 1));
      ZeroKeepsWord(base, n - 1);
      assert base[..8 * n] == base[..8 * (n - 1)] + base[8 * (n - 1)..8 * (n - 1) + 8];
    }
  }

  lemma ZeroKeepsWord(base: bytes, j: nat)
    requires |base| >= 8 * j + 8
    ensures DerivedWord(base, 0, j) == Read64(base, 8 * j)
  {
    hide Read64;
  }

  /** Writing what was read. */
  lemma WordBytes(b: bytes, at: nat)
    requires at + 8 <= |b|
    ensures Bytes64(Read64(b, at)) == b[at..at + 8]
  {
    var written, read := Bytes64(Read64(b, at)), b[at..at + 8];
    hide Bytes64;
    assert Read64(written, 0) == Read64(read, 0);
    SameWord(written, read);
  }

  lemma SameWord(a: bytes, b: bytes)
    requires |a| == |b| == 8 && Read64(a, 0) == Read64(b, 0)
    ensures a == b
  {
    hide Read32;
    SameHalf(a, b, 0);
    SameHalf(a, b, 4);
  }

  lemma SameHalf(a: bytes, b: bytes, at: nat)
    requires |a| == |b| == 8 && at + 4 <= 8 && Read32(a, at) == Read32(b, at)
    ensures a[at] == b[at] && a[at + 1] == b[at + 1] && a[at + 2] == b[at + 2] && a[at + 3] == b[at + 3]
  {
    assert a[at + 3] == b[at + 3];
    assert a[at + 2] == b[at + 2];
    assert a[at + 1] == b[at + 1];
  }
}
