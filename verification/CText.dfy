/** Bounded C text: what `snprintf` leaves in a buffer, decimal numbers, and
    splitting at a separator. */
module CText {

  const NUL: char := '\0'

  /** The C string that starts a character sequence. */
  function UpToNul(s: string): (r: string)
    ensures |r| <= |s| && NUL !in r
    ensures NUL !in s ==> r == s
    ensures |r| == |s| ==> r == s
  {
    if s == "" || s[0] == NUL then "" else [s[0]] + UpToNul(s[1..])
  }

  function Cut(s: string, max: nat): string { if |s| <= max then s else s[..max] }

  lemma CutAppend(text: string, s: string, max: nat)
    requires |text| <= max
    ensures Cut(text + s, max) == text + Cut(s, max - |text|)
  {
  }

  lemma {:induction false} UpToNulIsPrefix(s: string)
    ensures UpToNul(s) == s[..|UpToNul(s)|]
    ensures |UpToNul(s)| < |s| ==> s[|UpToNul(s)|] == NUL
  {
    if s != "" && s[0] != NUL {
      UpToNulIsPrefix(s[1..]);
    }
  }

  lemma {:induction false} UpToNulAt(s: string, k: nat)
    requires k < |s| && s[k] == NUL && NUL !in s[..k]
    ensures UpToNul(s) == s[..k]
  {
    if k != 0 {
      assert s[0] == s[..k][0];
      assert s[1..][..k - 1] == s[..k][1..];
      UpToNulAt(s[1..], k - 1);
    }
  }

  /** `snprintf(buf + at, left, "%s", s)`: at most left - 1 characters and a
      terminator are written, or nothing if left is 0; the untruncated length is
      returned. */
  method Snprintf(buf: array<char>, at: nat, left: nat, s: string) returns (ret: nat)
    requires at + left <= buf.Length
    modifies buf
    ensures ret == |s|
    ensures left == 0 ==> buf[..] == old(buf[..])
    ensures left > 0 ==>
      var out := Cut(s, left - 1);
      buf[..] == old(buf[..at]) + out + [NUL] + old(buf[at + |out| + 1..])
  {
    ret := |s|;
    if left == 0 {
      return;
    }
    CopyText(buf, at, Cut(s, left - 1));
  }

  method CopyText(buf: array<char>, at: nat, out: string)
    requires at + |out| < buf.Length
    modifies buf
    ensures buf[..] == old(buf[..at]) + out + [NUL] + old(buf[at + |out| + 1..])
  {
    ghost var was := buf[..];
    for i := 0 to |out|
      invariant buf[..] == was[..at] + out[..i] + was[at + i..]
    {
      assert out[..i + 1] == out[..i] + [out[i]];
      buf[at + i] := out[i];
    }
    assert out[..|out|] == out;
    buf[at + |out|] := NUL;
  }

  /* Decimal numbers */

  function Digit(d: nat): char
    requires d < 10
  {
    '0' + d as char
  }

  function DecimalNat(n: nat): (s: string)
    ensures |s| > 0
    ensures forall i :: 0 <= i < |s| ==> '0' <= s[i] <= '9'
  {
    if n < 10 then [Digit(n)] else DecimalNat(n / 10) + [Digit(n % 10)]
  }

  /** `"%d"`. */
  function Decimal(n: int): (s: string)
    ensures forall i :: 0 <= i < |s| ==> s[i] == '-' || '0' <= s[i] <= '9'
  {
    if n < 0 then "-" + DecimalNat(-n) else DecimalNat(n)
  }

  /** `(int)value` of a wider unsigned value on a machine with 32-bit ints. */
  function ToInt32(value: nat): (r: int)
    ensures -0x8000_0000 <= r < 0x8000_0000
  {
    (value + 0x8000_0000) % 0x1_0000_0000 - 0x8000_0000
  }

  function ParseNat(s: string): int {
    if s == "" then 0 else 10 * ParseNat(s[..|s| - 1]) + (s[|s| - 1] as int - '0' as int)
  }

  function ParseDecimal(s: string): int {
    if s != "" && s[0] == '-' then -ParseNat(s[1..]) else ParseNat(s)
  }

  lemma {:induction false} ParseDecimalNat(n: nat)
    ensures ParseNat(DecimalNat(n)) == n
  {
    if n >= 10 {
      ParseDecimalNat(n / 10);
      var s := DecimalNat(n);
      assert s[..|s| - 1] == DecimalNat(n / 10);
    } else {
      assert DecimalNat(n)[..0] == "";
    }
  }

  lemma ParseOfDecimal(n: int)
    ensures ParseDecimal(Decimal(n)) == n
  {
    if n < 0 {
      ParseDecimalNat(-n);
      assert Decimal(n)[1..] == DecimalNat(-n);
    } else {
      ParseDecimalNat(n);
      assert '0' <= DecimalNat(n)[0] <= '9';
    }
  }

  lemma {:induction false} DecimalLength(n: nat, k: nat)
    requires k > 0
    ensures |DecimalNat(n)| <= k <==> n < Pow10(k)
  {
    if n >= 10 && k > 1 {
      DecimalLength(n / 10, k - 1);
    } else if n >= 10 {
      assert Pow10(1) == 10;
    }
  }

  function Pow10(k: nat): (r: nat)
    ensures r > 0
  {
    if k == 0 then 1 else 10 * Pow10(k - 1)
  }

  /* Separated lists */

  function Join(parts: seq<string>, sep: char): string
    requires parts != []
  {
    if |parts| == 1 then parts[0] else parts[0] + [sep] + Join(parts[1..], sep)
  }

  function Split(s: string, sep: char): (parts: seq<string>)
    ensures parts != []
  {
    if s == "" then [""] else Grow(s[0], Split(s[1..], sep), sep)
  }

  /** The parts of a text with one more character in front. */
  function Grow(c: char, parts: seq<string>, sep: char): (r: seq<string>)
    requires parts != []
    ensures r != []
  {
    if c == sep then [""] + parts else [[c] + parts[0]] + parts[1..]
  }

  lemma GrowConcat(c: char, first: seq<string>, rest: seq<string>, sep: char)
    requires first != []
    ensures Grow(c, first + rest, sep) == Grow(c, first, sep) + rest
  {
    if c != sep {
      assert (first + rest)[1..] == first[1..] + rest;
    }
  }

  lemma SplitFront(c: char, s: string, sep: char)
    ensures Split([c] + s, sep) == Grow(c, Split(s, sep), sep)
  {
    assert ([c] + s)[1..] == s;
  }

  lemma {:induction false} SplitConcat(head: string, tail: string, sep: char)
    ensures Split(head + [sep] + tail, sep) == Split(head, sep) + Split(tail, sep)
  {
    if head == "" {
      assert head + [sep] + tail == [sep] + tail;
      SplitFront(sep, tail, sep);
    } else {
      var inner := head[1..] + [sep] + tail;
      assert head + [sep] + tail == [head[0]] + inner && head == [head[0]] + head[1..];
      hide Grow;
      SplitConcat(head[1..], tail, sep);
      SplitFront(head[0], inner, sep);
      SplitFront(head[0], head[1..], sep);
      GrowConcat(head[0], Split(head[1..], sep), Split(tail, sep), sep);
    }
  }

  lemma {:induction false} SplitNone(s: string, sep: char)
    requires sep !in s
    ensures Split(s, sep) == [s]
  {
    if s != "" {
      SplitNone(s[1..], sep);
      assert [s[0]] + s[1..] == s;
    }
  }

  lemma {:induction false} SplitOfJoin(parts: seq<string>, sep: char)
    requires parts != [] && forall p :: p in parts ==> sep !in p
    ensures Split(Join(parts, sep), sep) == parts
  {
    SplitNone(parts[0], sep);
    if |parts| != 1 {
      SplitOfJoin(parts[1..], sep);
      SplitConcat(parts[0], Join(parts[1..], sep), sep);
    }
  }

  lemma {:induction false} JoinOfSplit(s: string, sep: char)
    ensures Join(Split(s, sep), sep) == s
  {
    if s != "" {
      var rest := Split(s[1..], sep);
      JoinOfSplit(s[1..], sep);
      if s[0] == sep {
        assert ([""] + rest)[1..] == rest;
      } else {
        var parts := [[s[0]] + rest[0]] + rest[1..];
        assert |rest| > 1 ==> parts[1..] == rest[1..];
        assert [s[0]] + s[1..] == s;
      }
    }
  }

  /** All characters of a list, with one separator between neighbours. */
  function JoinedLength(parts: seq<string>): int {
    if parts == [] then -1 else |parts[0]| + 1 + JoinedLength(parts[1..])
  }

  lemma {:induction false} JoinLength(parts: seq<string>, sep: char)
    requires parts != []
    ensures |Join(parts, sep)| == JoinedLength(parts)
  {
    if |parts| != 1 {
      JoinLength(parts[1..], sep);
    }
  }

  lemma {:induction false} SplitLength(s: string, sep: char)
    ensures JoinedLength(Split(s, sep)) == |s|
  {
    if s != "" {
      SplitLength(s[1..], sep);
      var rest := Split(s[1..], sep);
      if s[0] == sep {
        assert ([""] + rest)[1..] == rest;
      } else {
        assert ([[s[0]] + rest[0]] + rest[1..])[1..] == rest[1..];
      }
    }
  }

  lemma {:induction false} JoinAppend(parts: seq<string>, last: string, sep: char)
    requires parts != []
    ensures Join(parts + [last], sep) == Join(parts, sep) + [sep] + last
  {
    if |parts| == 1 {
      assert (parts + [last])[1..] == [last];
    } else {
      assert (parts + [last])[1..] == parts[1..] + [last];
      JoinAppend(parts[1..], last, sep);
    }
  }
}
