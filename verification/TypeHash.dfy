/** The RIHS01 text of a type hash. */
module TypeHash {
  import opened CText

  const PREFIX := "RIHS01_"
  const PREFIX_LEN: nat := 7
  const HASH_SIZE: nat := 32
  const STRING_LEN: nat := 71

  type byte = x: int | 0 <= x < 0x100
  type Hash = h: seq<byte> | |h| == 32 witness seq(32, i => 0)

  function Nibble(n: int): char
    requires 0 <= n < 16
  {
    if n < 0xa then '0' + n as char else 'a' + (n - 0xa) as char
  }

  /** The two digits of a byte. */
  function ByteText(b: byte): (s: string)
    ensures |s| == 2
  {
    [Nibble(b / 16), Nibble(b % 16)]
  }

  function HexText(h: seq<byte>): (s: string)
    ensures |s| == 2 * |h|
  {
    if h == [] then "" else HexText(h[..|h| - 1]) + ByteText(h[|h| - 1])
  }

  lemma HexTextNext(h: seq<byte>, i: nat)
    requires i < |h|
    ensures HexText(h[..i + 1]) == HexText(h[..i]) + ByteText(h[i])
  {
    assert h[..i + 1][..i] == h[..i];
  }

  function Text(h: Hash): string { PREFIX + HexText(h) }

  method ConvertHash(h: Hash) returns (text: string)
    ensures text == Text(h)
  {
    hide HexText, ByteText, UpToNul;
    var data := new char[STRING_LEN + 1](_ => NUL);
    WritePrefix(data);
    EmptyHex();
    assert PREFIX + HexText(h[..0]) == PREFIX;
    for i := 0 to HASH_SIZE
      invariant data[..PREFIX_LEN + 2 * i] == PREFIX + HexText(h[..i]) && data[STRING_LEN] == NUL
    {
      WriteByte(data, PREFIX_LEN + i * 2, h[i]);
      HexTextNext(h, i);
    }
    assert h[..HASH_SIZE] == h;
    HexIsPlain(h);
    UpToNulAt(data[..], STRING_LEN);
    text := UpToNul(data[..]);
  }

  method WritePrefix(data: array<char>)
    requires data.Length == STRING_LEN + 1
    modifies data
    ensures data[..PREFIX_LEN] == PREFIX && data[STRING_LEN] == old(data[STRING_LEN])
  {
    for k := 0 to PREFIX_LEN
      invariant data[..k] == PREFIX[..k] && data[STRING_LEN] == old(data[STRING_LEN])
    {
      data[k] := PREFIX[k];
    }
  }

  /** The upper digit, then the lower. */
  method WriteByte(data: array<char>, dest: nat, b: byte)
    requires dest + 2 < data.Length
    modifies data
    ensures data[..dest + 2] == old(data[..dest]) + ByteText(b) && data[dest + 2..] == old(data[dest + 2..])
  {
    var nibble := b / 16;
    data[dest] := if nibble < 0xa then '0' + nibble as char else 'a' + (nibble - 0xa) as char;
    nibble := b % 16;
    data[dest + 1] := if nibble < 0xa then '0' + nibble as char else 'a' + (nibble - 0xa) as char;
  }

  lemma EmptyHex()
    ensures HexText([]) == ""
  {
  }

  lemma {:induction false} HexIsPlain(h: seq<byte>)
    ensures NUL !in HexText(h)
  {
    if h != [] {
      HexIsPlain(h[..|h| - 1]);
    }
  }

  function NibbleValue(c: char): int {
    if c <= '9' then c as int - '0' as int else c as int - 'a' as int + 0xa
  }

  function Decode(text: string): seq<int>
    requires |text| % 2 == 0
  {
    if text == "" then []
    else Decode(text[..|text| - 2]) + [ByteValue(text[|text| - 2], text[|text| - 1])]
  }

  function ByteValue(upper: char, lower: char): int { 16 * NibbleValue(upper) + NibbleValue(lower) }

  /** The hexadecimal digits behind the prefix give back the hash bytes. */
  lemma {:induction false} HashDecodes(h: seq<byte>)
    ensures Decode(HexText(h)) == h
  {
    if h == [] {
      EmptyHex();
    } else {
      hide ByteText, ByteValue, HexText, Decode;
      var n := |h| - 1;
      HashDecodes(h[..n]);
      ByteDecodes(h[n]);
      HexTextNext(h, n);
      DecodePair(HexText(h[..n]), ByteText(h[n]));
      assert h[..n + 1] == h;
      LastByte(h, Decode(HexText(h[..n])));
    }
  }

  lemma LastByte(h: seq<byte>, decoded: seq<int>)
    requires h != [] && decoded == h[..|h| - 1]
    ensures decoded + [h[|h| - 1]] == h
  {
  }

  lemma DecodePair(text: string, pair: string)
    requires |text| % 2 == 0 && |pair| == 2
    ensures Decode(text + pair) == Decode(text) + [ByteValue(pair[0], pair[1])]
  {
    hide ByteValue;
    assert (text + pair)[..|text|] == text;
  }

  lemma ByteDecodes(b: byte)
    ensures ByteValue(ByteText(b)[0], ByteText(b)[1]) == b
  {
    NibbleRoundTrip(b / 16);
    NibbleRoundTrip(b % 16);
    hide Nibble, NibbleValue;
  }

  lemma NibbleRoundTrip(n: int)
    requires 0 <= n < 16
    ensures NibbleValue(Nibble(n)) == n
  {
  }

  lemma TextDecodes(h: Hash)
    ensures |Text(h)| == 71 && Text(h)[..7] == "RIHS01_" && Decode(Text(h)[7..]) == h
  {
    HashDecodes(h);
    assert Text(h)[7..] == HexText(h);
  }

  /** The digits are the sixteen lower-case ones. */
  lemma DigitsAre(b: byte)
    ensures "0123456789abcdef"[b / 16] == ByteText(b)[0] && "0123456789abcdef"[b % 16] == ByteText(b)[1]
  {
  }
}
