/** QoS strings: eleven numbers between fixed separators, zero written as
    nothing at all. */
module QosKey {
  import opened CText
  import opened Bits

  const QOS_DELIMITER: char := ':'
  const QOS_COMPONENT_DELIMITER: char := ','
  const QOS_BUFFER_LEN: nat := 64

  /** The size left at the start; one character stays for the terminator. */
  const ROOM: nat := QOS_BUFFER_LEN - 1

  datatype Duration = Duration(sec: nat, nsec: nat)

  datatype Qos = Qos(reliability: nat, durability: nat, history: nat, depth: nat, deadline: Duration,
                     lifespan: Duration, liveliness: nat, lease: Duration)

  predicate IsInt32(v: int) { -0x8000_0000 <= v < 0x8000_0000 }

  /** The numbers in the order they are written, each cast to `int`. */
  function Values(q: Qos): (v: seq<int>)
    ensures |v| == 11
    ensures forall i :: 0 <= i < 11 ==> IsInt32(v[i])
  {
    [ToInt32(q.reliability), ToInt32(q.durability), ToInt32(q.history), ToInt32(q.depth),
     ToInt32(q.deadline.sec), ToInt32(q.deadline.nsec), ToInt32(q.lifespan.sec), ToInt32(q.lifespan.nsec),
     ToInt32(q.liveliness), ToInt32(q.lease.sec), ToInt32(q.lease.nsec)]
  }

  /** The separator after each number but the last. */
  const SEPARATORS: string := "::,:,:,:,,"

  function ValueText(value: int): string { if value == 0 then "" else Decimal(value) }

  /** The first n numbers with the separators between them. */
  function Text(values: seq<int>, n: nat): string
    requires 0 < n <= |values| && n <= 11
  {
    if n == 1 then ValueText(values[0])
    else Text(values, n - 1) + [SEPARATORS[n - 2]] + ValueText(values[n - 1])
  }

  function QosText(q: Qos): string { Text(Values(q), 11) }

  lemma {:induction false} TextGrows(values: seq<int>, n: nat)
    requires |values| == 11 && 0 < n <= 11
    ensures |Text(values, n)| <= |Text(values, 11)|
    decreases 11 - n
  {
    if n < 11 {
      TextGrows(values, n + 1);
    }
  }

  lemma TextNext(values: seq<int>, n: nat)
    requires 1 < n <= |values| && n <= 11
    ensures Text(values, n) == Text(values, n - 1) + [SEPARATORS[n - 2]] + ValueText(values[n - 1])
  {
  }

  /* Builder */

  datatype Option<T> = None | Some(value: T)

  /** How far the builder has got. `Open`: all fits so far. `Full`: the size
      left is 0 and nothing more is written. `Wild`: a number was cut, so the
      unsigned size left has wrapped around and the pointer is past the buffer.
      `Outside`: something was written there. */
  datatype Built = Open(text: string) | Full(text: string) | Wild(text: string) | Outside

  function AddText(b: Built, s: string): Built {
    match b
    case Open(t) =>
      if |t + s| < ROOM then Open(t + s)
      else if |t + s| == ROOM then Full(Cut(t + s, ROOM - 1))
      else Wild(Cut(t + s, ROOM - 1))
    case Full(_) => b
    case Wild(_) => Outside
    case Outside => Outside
  }

  function AddNumber(b: Built, value: int): Built { if value == 0 then b else AddText(b, Decimal(value)) }

  function AddMark(b: Built, c: char): Built {
    if b.Open? && |b.text| + 1 == ROOM then Full(b.text + [c]) else AddText(b, [c])
  }

  /** The builder after the first n numbers. */
  function After(values: seq<int>, n: nat): Built
    requires 0 < n <= |values| && n <= 11
  {
    if n == 1 then AddNumber(Open(""), values[0])
    else AddNumber(AddMark(After(values, n - 1), SEPARATORS[n - 2]), values[n - 1])
  }

  function Returned(b: Built): Option<string> { if b.Outside? then None else Some(b.text) }

  /** The buffer is a C string. */
  ghost predicate Reads(buf: array<char>, text: string)
    reads buf
  {
    |text| < buf.Length && buf[..|text|] == text && buf[|text|] == NUL && NUL !in text
  }

  ghost predicate Holds(b: Built, buf: array<char>, ptr: nat, left: u64)
    reads buf
  {
    && buf.Length == QOS_BUFFER_LEN
    && match b
       case Open(t) => |t| < ROOM && ptr == |t| && left == ROOM - ptr && Reads(buf, t) && AllNul(buf, ptr)
       case Full(t) => left == 0 && Reads(buf, t)
       case Wild(t) => left > 0 && ptr >= buf.Length && Reads(buf, t)
       case Outside => true
  }

  ghost predicate AllNul(buf: array<char>, from: nat)
    reads buf
  {
    forall i :: from <= i < buf.Length ==> buf[i] == NUL
  }

  /** `qos_append_value`. A write that starts outside the buffer is not made:
      what C does from then on is not defined. */
  method QosAppendValue(buf: array<char>, ptr: nat, left: u64, value: int, ghost b: Built)
    returns (inside: bool, ptr': nat, left': u64)
    requires Holds(b, buf, ptr, left) && !b.Outside? && IsInt32(value)
    modifies buf
    ensures inside <==> !AddNumber(b, value).Outside?
    ensures Holds(AddNumber(b, value), buf, ptr', left')
  {
    inside, ptr', left' := true, ptr, left;
    if left <= 0 {
      return;
    }
    if value != 0 {
      if ptr >= buf.Length {
        return false, ptr, left;
      }
      PlainDecimal(value);
      ShortNumber(value);
      inside, ptr', left' := PrintNumber(buf, ptr, left, Decimal(value), b.text);
    }
  }

  method PrintNumber(buf: array<char>, ptr: nat, left: u64, s: string, ghost text: string)
    returns (inside: bool, ptr': nat, left': u64)
    requires Holds(Open(text), buf, ptr, left) && NUL !in s && |s| <= 11
    modifies buf
    ensures inside && Holds(AddText(Open(text), s), buf, ptr', left')
  {
    var ret := Snprintf(buf, ptr, left, s);
    inside, ptr', left' := true, ptr + ret, (left as int - ret) % 0x1_0000_0000_0000_0000;
    CutAppend(text, s, ROOM - 1);
    ghost var out := Cut(text + s, ROOM - 1);
    assert NUL !in text + s;
    assert buf[..] == out + [NUL] + old(buf[|out| + 1..]);
    Terminated(buf, out, old(buf[|out| + 1..]));
    assert |s| <= left || ptr' >= buf.Length;
    hide Reads, AllNul;
  }

  lemma Terminated(buf: array<char>, out: string, rest: string)
    requires buf[..] == out + [NUL] + rest && NUL !in out && forall i :: 0 <= i < |rest| ==> rest[i] == NUL
    ensures Reads(buf, out) && AllNul(buf, |out|)
  {
    assert buf[..][..|out|] == out && buf[..][|out|] == NUL;
    forall i | |out| <= i < buf.Length ensures buf[i] == NUL {
      assert buf[i] == buf[..][i];
    }
  }

  /** `qos_add_delimiter`. */
  method QosAddDelimiter(buf: array<char>, ptr: nat, left: u64, delimiter: char, ghost b: Built)
    returns (inside: bool, ptr': nat, left': u64)
    requires Holds(b, buf, ptr, left) && !b.Outside? && delimiter != NUL
    modifies buf
    ensures inside <==> !AddMark(b, delimiter).Outside?
    ensures Holds(AddMark(b, delimiter), buf, ptr', left')
  {
    inside, ptr', left' := true, ptr, left;
    if left <= 0 {
      return;
    }
    if ptr >= buf.Length {
      return false, ptr, left;
    }
    buf[ptr] := delimiter;
    ptr', left' := ptr + 1, left - 1;
    assert buf[..|b.text| + 1] == b.text + [delimiter];
  }

  /** `QOS_APPEND_DELIMITER(d); QOS_APPEND_VALUE(v)` for number n, unless a
      write outside has ended it all. */
  method NextValue(buf: array<char>, before: bool, ptr: nat, left: u64, delimiter: char, value: int,
                   ghost q: Qos, ghost n: nat)
    returns (inside: bool, ptr': nat, left': u64)
    requires 0 < n < 11 && delimiter == SEPARATORS[n - 1] && value == Values(q)[n]
    requires Tracks(buf, before, ptr, left, q, n)
    modifies buf
    ensures Tracks(buf, inside, ptr', left', q, n + 1)
  {
    hide Values, Holds, AddText;
    ghost var b := After(Values(q), n);
    AfterNext(Values(q), n);
    MarkStaysOutside(b, delimiter);
    NumberStaysOutside(AddMark(b, delimiter), value);
    inside, ptr', left' := before, ptr, left;
    if inside {
      inside, ptr', left' := QosAddDelimiter(buf, ptr, left, delimiter, b);
    }
    if inside {
      inside, ptr', left' := QosAppendValue(buf, ptr', left', value, AddMark(b, delimiter));
    }
  }

  ghost predicate Tracks(buf: array<char>, inside: bool, ptr: nat, left: u64, q: Qos, n: nat)
    requires 0 < n <= 11
    reads buf
  {
    Holds(After(Values(q), n), buf, ptr, left) && (inside <==> !After(Values(q), n).Outside?)
  }

  lemma AfterNext(values: seq<int>, n: nat)
    requires |values| == 11 && 0 < n < 11
    ensures After(values, n + 1) == AddNumber(AddMark(After(values, n), SEPARATORS[n - 1]), values[n])
  {
  }

  lemma MarkStaysOutside(b: Built, c: char)
    ensures b.Outside? ==> AddMark(b, c).Outside?
  {
  }

  lemma NumberStaysOutside(b: Built, value: int)
    ensures b.Outside? ==> AddNumber(b, value).Outside?
  {
  }

  /** The text for every profile, or nothing defined if the builder writes
      outside its buffer. */
  method QosToKeyexpr(q: Qos) returns (text: Option<string>)
    ensures text == Returned(After(Values(q), 11))
  {
    hide After, Values, AddText, UpToNul;
    var buf := new char[QOS_BUFFER_LEN](_ => NUL);
    AfterFirst(q);
    var inside, ptr, left := QosAppendValue(buf, 0, ROOM, ToInt32(q.reliability), Open(""));
    inside, ptr, left := AppendPolicies(buf, inside, ptr, left, q);
    inside, ptr, left := AppendDurations(buf, inside, ptr, left, q);
    if !inside {
      return None;
    }
    ghost var built := After(Values(q), 11);
    UpToNulAt(buf[..], |built.text|);
    text := Some(UpToNul(buf[..]));
  }

  lemma AfterFirst(q: Qos)
    ensures After(Values(q), 1) == AddNumber(Open(""), ToInt32(q.reliability))
  {
  }

  method AppendPolicies(buf: array<char>, before: bool, ptr: nat, left: u64, q: Qos)
    returns (inside: bool, ptr': nat, left': u64)
    requires Tracks(buf, before, ptr, left, q, 1)
    modifies buf
    ensures Tracks(buf, inside, ptr', left', q, 6)
  {
    hide Tracks, ToInt32;
    inside, ptr', left' := NextValue(buf, before, ptr, left, QOS_DELIMITER, ToInt32(q.durability), q, 1);
    inside, ptr', left' := NextValue(buf, inside, ptr', left', QOS_DELIMITER, ToInt32(q.history), q, 2);
    inside, ptr', left' := NextValue(buf, inside, ptr', left', QOS_COMPONENT_DELIMITER, ToInt32(q.depth), q, 3);
    inside, ptr', left' := NextValue(buf, inside, ptr', left', QOS_DELIMITER, ToInt32(q.deadline.sec), q, 4);
    inside, ptr', left' := NextValue(buf, inside, ptr', left', QOS_COMPONENT_DELIMITER, ToInt32(q.deadline.nsec), q, 5);
  }

  method AppendDurations(buf: array<char>, before: bool, ptr: nat, left: u64, q: Qos)
    returns (inside: bool, ptr': nat, left': u64)
    requires Tracks(buf, before, ptr, left, q, 6)
    modifies buf
    ensures Tracks(buf, inside, ptr', left', q, 11)
  {
    hide Tracks, ToInt32;
    inside, ptr', left' := NextValue(buf, before, ptr, left, QOS_DELIMITER, ToInt32(q.lifespan.sec), q, 6);
    inside, ptr', left' := NextValue(buf, inside, ptr', left', QOS_COMPONENT_DELIMITER, ToInt32(q.lifespan.nsec), q, 7);
    inside, ptr', left' := NextValue(buf, inside, ptr', left', QOS_DELIMITER, ToInt32(q.liveliness), q, 8);
    inside, ptr', left' := NextValue(buf, inside, ptr', left', QOS_COMPONENT_DELIMITER, ToInt32(q.lease.sec), q, 9);
    inside, ptr', left' := NextValue(buf, inside, ptr', left', QOS_COMPONENT_DELIMITER, ToInt32(q.lease.nsec), q, 10);
  }

  /* When the builder stays in its buffer, and when it says everything */

  /** Number k starts with room to spare and ends past the buffer. */
  predicate CutAt(values: seq<int>, k: nat)
    requires |values| == 11 && 1 < k <= 11
  {
    |Text(values, k - 1)| + 1 < ROOM < |Text(values, k)|
  }

  /** What is known of the builder after n numbers: it holds the text while the
      text fits, it has written outside once a number before the last was cut,
      and it has everything only if the text fits or ends in the very separator
      that fills the buffer. */
  ghost predicate Known(values: seq<int>, n: nat)
    requires |values| == 11 && 0 < n <= 11
  {
    var b, t := After(values, n), Text(values, n);
    && (b.Open? <==> |t| < ROOM) && (b.Open? ==> b.text == t)
    && (b.Outside? <==> exists k :: 1 < k < n && CutAt(values, k))
    && (b.Wild? <==> n > 1 && CutAt(values, n))
    && (b.Full? || b.Wild? ==> |b.text| <= ROOM && (b.text == t <==> |t| == ROOM && values[n - 1] == 0))
  }

  lemma KnownFirst(values: seq<int>)
    requires |values| == 11 && forall i :: 0 <= i < 11 ==> IsInt32(values[i])
    ensures Known(values, 1)
  {
    ShortNumber(values[0]);
  }

  lemma ShortNumber(value: int)
    requires IsInt32(value)
    ensures |Decimal(value)| <= 11
  {
    DecimalLength(if value < 0 then -value else value, 10);
  }

  lemma {:induction false} AlwaysKnown(values: seq<int>, n: nat)
    requires |values| == 11 && forall i :: 0 <= i < 11 ==> IsInt32(values[i])
    requires 0 < n <= 11
    ensures Known(values, n)
  {
    if n == 1 {
      KnownFirst(values);
    } else {
      AlwaysKnown(values, n - 1);
      KnownNext(values, n);
    }
  }

  lemma KnownNext(values: seq<int>, n: nat)
    requires |values| == 11 && 1 < n <= 11 && Known(values, n - 1)
    ensures Known(values, n)
  {
    hide Decimal, Known, After, Text, AddText;
    PlainDecimal(values[n - 1]);
    if After(values, n - 1).Open? {
      KnownFromOpen(values, n);
    } else {
      KnownFromStuck(values, n);
    }
  }

  /** There was still room before number n. */
  lemma KnownFromOpen(values: seq<int>, n: nat)
    requires |values| == 11 && 1 < n <= 11 && Known(values, n - 1) && After(values, n - 1).Open?
    ensures Known(values, n)
  {
    hide Decimal, Text, After;
    PlainDecimal(values[n - 1]);
    TextNext(values, n);
    AfterNext(values, n - 1);
    forall k | 1 < k < n ensures !CutAt(values, k) {
      if k < n - 1 {
        assert !After(values, n - 1).Outside?;
      }
    }
  }

  /** There was not. */
  lemma KnownFromStuck(values: seq<int>, n: nat)
    requires |values| == 11 && 1 < n <= 11 && Known(values, n - 1) && !After(values, n - 1).Open?
    ensures Known(values, n)
  {
    hide Decimal, Text, After;
    PlainDecimal(values[n - 1]);
    TextNext(values, n);
    AfterNext(values, n - 1);
    assert !CutAt(values, n);
    if After(values, n - 1).Wild? {
      assert CutAt(values, n - 1);
    }
  }

  /** The builder stays in its buffer exactly when no number but the last is cut
      by its end. */
  lemma StaysInsideExactly(q: Qos)
    ensures Returned(After(Values(q), 11)).Some? <==> forall k :: 1 < k < 11 ==> !CutAt(Values(q), k)
  {
    hide Values, After, CutAt;
    AlwaysKnown(Values(q), 11);
  }

  const INFINITE: Duration := Duration(9223372036, 854775807)

  /** A profile that runs over: every duration infinite and a large depth. */
  const UNBOUNDED: Qos := Qos(1, 2, 1, 1000000, INFINITE, INFINITE, 1, INFINITE)

  lemma UnboundedLengths()
    ensures Values(UNBOUNDED)
         == [1, 2, 1, 1000000, 633437444, 854775807, 633437444, 854775807, 1, 633437444, 854775807]
    ensures |DecimalNat(1000000)| == 7 && |DecimalNat(633437444)| == 9 && |DecimalNat(854775807)| == 9
  {
    assert ToInt32(9223372036) == 633437444;
    assert Pow10(6) == 1000000 && Pow10(7) == 10000000 && Pow10(8) == 100000000 && Pow10(9) == 1000000000;
    HasDigits(1000000, 7);
    HasDigits(633437444, 9);
    HasDigits(854775807, 9);
  }

  lemma HasDigits(n: nat, k: nat)
    requires k > 1 && Pow10(k - 1) <= n < Pow10(k)
    ensures |DecimalNat(n)| == k
  {
    DecimalLength(n, k - 1);
    DecimalLength(n, k);
  }

  lemma NextLength(values: seq<int>, n: nat, before: nat)
    requires |values| == 11 && 1 < n <= 11 && values[n - 1] > 0 && |Text(values, n - 1)| == before
    ensures |Text(values, n)| == before + 1 + |DecimalNat(values[n - 1])|
  {
  }

  /** Number 10 ends past the buffer, and number 11 is written outside. */
  lemma UnboundedRunsOver()
    ensures Returned(After(Values(UNBOUNDED), 11)).None?
  {
    var values := Values(UNBOUNDED);
    hide Values, Text, DecimalNat, Returned, After;
    UnboundedLengths();
    FirstLength(values);
    NextLength(values, 2, 1);
    NextLength(values, 3, 3);
    NextLength(values, 4, 5);
    NextLength(values, 5, 13);
    NextLength(values, 6, 23);
    NextLength(values, 7, 33);
    NextLength(values, 8, 43);
    NextLength(values, 9, 53);
    NextLength(values, 10, 55);
    assert CutAt(values, 10);
    StaysInsideExactly(UNBOUNDED);
  }

  lemma FirstLength(values: seq<int>)
    requires |values| == 11 && 0 < values[0] < 10
    ensures |Text(values, 1)| == 1 && |DecimalNat(1)| == |DecimalNat(2)| == 1
  {
  }

  /** It returns the whole text exactly when that has at most 62 characters, or
      63 of which the last is a separator. */
  lemma WholeTextExactly(q: Qos)
    ensures Returned(After(Values(q), 11)) == Some(QosText(q))
       <==> |QosText(q)| <= 62 || (|QosText(q)| == 63 && Values(q)[10] == 0)
  {
    hide Values, After, Text;
    var values := Values(q);
    AlwaysKnown(values, 11);
    forall k | 1 < k < 11 && CutAt(values, k) ensures |Text(values, 11)| > ROOM {
      TextGrows(values, k);
    }
  }

  lemma PlainDecimal(value: int)
    ensures NUL !in Decimal(value) && Decimal(value) != ""
  {
  }

  /* Reading a string back */

  /** Both separators seen as one. */
  function Unify(s: string): (r: string)
    ensures |r| == |s|
  {
    seq(|s|, i requires 0 <= i < |s| => if s[i] == QOS_COMPONENT_DELIMITER then QOS_DELIMITER else s[i])
  }

  function ParseValue(token: string): int { if token == "" then 0 else ParseDecimal(token) }

  function Parse(text: string): seq<int> {
    var tokens := Split(Unify(text), QOS_DELIMITER);
    seq(|tokens|, i requires 0 <= i < |tokens| => ParseValue(tokens[i]))
  }

  function Tokens(values: seq<int>, n: nat): (t: seq<string>)
    requires n <= |values|
    ensures |t| == n
  {
    seq(n, i requires 0 <= i < n => ValueText(values[i]))
  }

  lemma UnifyConcat(a: string, b: string)
    ensures Unify(a + b) == Unify(a) + Unify(b)
  {
  }

  lemma PlainValue(value: int)
    ensures Unify(ValueText(value)) == ValueText(value)
    ensures QOS_DELIMITER !in ValueText(value) && NUL !in ValueText(value)
  {
  }

  lemma {:induction false} UnifiedText(values: seq<int>, n: nat)
    requires |values| == 11 && 0 < n <= 11
    ensures Unify(Text(values, n)) == Join(Tokens(values, n), QOS_DELIMITER)
  {
    hide ValueText, Unify;
    PlainValue(values[n - 1]);
    if n == 1 {
      assert Tokens(values, 1) == [ValueText(values[0])];
    } else {
      UnifiedText(values, n - 1);
      var before, last := Text(values, n - 1), ValueText(values[n - 1]);
      UnifyConcat(before + [SEPARATORS[n - 2]], last);
      UnifyConcat(before, [SEPARATORS[n - 2]]);
      UnifiedSeparator(n - 2);
      assert Tokens(values, n) == Tokens(values, n - 1) + [last];
      JoinAppend(Tokens(values, n - 1), last, QOS_DELIMITER);
    }
  }

  lemma UnifiedSeparator(i: nat)
    requires i < 10
    ensures Unify([SEPARATORS[i]]) == [QOS_DELIMITER]
  {
  }

  lemma ParseValueText(value: int)
    ensures ParseValue(ValueText(value)) == value
  {
    ParseOfDecimal(value);
    if value < 0 {
      assert Decimal(value)[0] == '-';
    }
  }

  /** Every QoS string gives back all eleven numbers. */
  lemma QosDecodes(q: Qos)
    ensures Parse(QosText(q)) == Values(q)
  {
    hide Values, ValueText, Split, Join;
    var values := Values(q);
    var tokens := Tokens(values, 11);
    UnifiedText(values, 11);
    forall t | t in tokens ensures QOS_DELIMITER !in t {
      var i :| 0 <= i < 11 && tokens[i] == t;
      PlainValue(values[i]);
    }
    SplitOfJoin(tokens, QOS_DELIMITER);
    forall i | 0 <= i < 11 ensures ParseValue(tokens[i]) == values[i] {
      ParseValueText(values[i]);
    }
  }
}
