/** Liveliness keys: the bounded-buffer builder, the text it is meant to
    produce, and when that text can be read back. */
module Liveliness {
  import opened CText

  const ADMIN_SPACE := "@ros2_lv"
  const KEYEXPR_DELIMITER: char := '/'
  const SLASH_REPLACEMENT: char := '%'
  const STRING_MAX_LEN: nat := 128

  /** `RMW_ZENOH_PICO_MAX_LINENESS_LEN`, a build option. */
  type BufferSize = n: nat | n >= 2 witness 256

  datatype EntityType = Node | Publisher | Subscription | Service | Client

  datatype NodeInfo = NodeInfo(domain: string, enclave: string, ns: string, name: string)

  datatype TopicInfo = TopicInfo(name: string, typeName: string, hash: string, qos: string)

  datatype Option<T> = None | Some(value: T)

  datatype Entity = Entity(kind: EntityType, zid: string, nid: nat, id: nat,
                           node: Option<NodeInfo>, topic: Option<TopicInfo>)

  function ConvEntityType(kind: EntityType): string {
    match kind
    case Node => "NN"
    case Publisher => "MP"
    case Subscription => "MS"
    case Service => "SS"
    case Client => "SC"
  }

  /* Specification */

  function Mangle(s: string): (r: string)
    ensures |r| == |s|
  {
    seq(|s|, i requires 0 <= i < |s| => if s[i] == KEYEXPR_DELIMITER then SLASH_REPLACEMENT else s[i])
  }

  function Demangle(s: string): (r: string)
    ensures |r| == |s|
  {
    seq(|s|, i requires 0 <= i < |s| => if s[i] == SLASH_REPLACEMENT then KEYEXPR_DELIMITER else s[i])
  }

  /** One field as it appears in a key: cut at 127 characters and mangled. */
  function FieldText(s: string): (r: string)
    ensures |r| <= |s| && |r| < STRING_MAX_LEN
  {
    Mangle(UpToNul(Cut(s, STRING_MAX_LEN - 1)))
  }

  function FieldTexts(fields: seq<string>): (r: seq<string>)
    ensures |r| == |fields|
  {
    seq(|fields|, i requires 0 <= i < |fields| => FieldText(fields[i]))
  }

  function NodeFields(e: Entity): (f: seq<string>)
    requires e.node.Some?
    ensures |f| == 9
  {
    [ADMIN_SPACE, e.node.value.domain, e.zid, Decimal(ToInt32(e.nid)), Decimal(ToInt32(e.id)),
     ConvEntityType(e.kind), e.node.value.enclave, e.node.value.ns, e.node.value.name]
  }

  /** The 9 or 13 fields of a key, before mangling. */
  function Fields(e: Entity): (f: seq<string>)
    requires e.node.Some?
    ensures |f| == if e.topic.Some? then 13 else 9
  {
    NodeFields(e) +
    if e.topic.Some? then [e.topic.value.name, e.topic.value.typeName, e.topic.value.hash, e.topic.value.qos] else []
  }

  /** The key an unbounded buffer would hold. */
  function IdealKey(e: Entity): string {
    if e.node.Some? then Join(FieldTexts(Fields(e)), KEYEXPR_DELIMITER) else ""
  }

  /** The key that is actually returned. */
  function Key(e: Entity, n: BufferSize): string { Cut(IdealKey(e), n - 2) }

  /* In-place mangling */

  method MangleName(buf: array<char>, size: nat)
    requires size <= buf.Length
    modifies buf
    ensures buf[..size] == Mangle(old(buf[..size])) && buf[size..] == old(buf[size..])
  {
    for count := 0 to size
      invariant forall i :: 0 <= i < count ==> buf[i] == Mangle(old(buf[..size]))[i]
      invariant forall i :: count <= i < buf.Length ==> buf[i] == old(buf[i])
    {
      if buf[count] == KEYEXPR_DELIMITER {
        buf[count] := SLASH_REPLACEMENT;
      }
    }
  }

  method DemangleName(buf: array<char>, size: nat)
    requires size <= buf.Length
    modifies buf
    ensures buf[..size] == Demangle(old(buf[..size])) && buf[size..] == old(buf[size..])
  {
    for count := 0 to size
      invariant forall i :: 0 <= i < count ==> buf[i] == Demangle(old(buf[..size]))[i]
      invariant forall i :: count <= i < buf.Length ==> buf[i] == old(buf[i])
    {
      if buf[count] == SLASH_REPLACEMENT {
        buf[count] := KEYEXPR_DELIMITER;
      }
    }
  }

  lemma MangleKeepsNul(s: string)
    ensures UpToNul(Mangle(s)) == Mangle(UpToNul(s))
  {
    var k := |UpToNul(s)|;
    UpToNulIsPrefix(s);
    forall i | 0 <= i < k ensures Mangle(s)[i] != NUL {
      assert s[i] == UpToNul(s)[i];
    }
    if k < |s| {
      UpToNulAt(Mangle(s), k);
    }
  }

  lemma PaddingIgnored(s: string, pad: string)
    requires pad != "" && forall i :: 0 <= i < |pad| ==> pad[i] == NUL
    ensures UpToNul(s + pad) == UpToNul(s)
  {
    if s != "" {
      assert (s + pad)[1..] == s[1..] + pad;
      if s[0] != NUL {
        PaddingIgnored(s[1..], pad);
      }
    } else {
      assert s + pad == pad;
    }
  }

  /** Copies a field into a zeroed work buffer, cut to fit, and mangles it. */
  method Worker(value: string) returns (text: string)
    ensures text == FieldText(value)
  {
    hide UpToNul, Mangle;
    var work := new char[STRING_MAX_LEN](_ => NUL);
    var len := if |value| > STRING_MAX_LEN - 1 then STRING_MAX_LEN - 1 else |value|;
    CopyField(work, value, len);
    MangleName(work, len);
    assert value[..len] == Cut(value, STRING_MAX_LEN - 1);
    MangleKeepsNul(value[..len]);
    PaddingIgnored(Mangle(value[..len]), work[len..]);
    assert work[..] == work[..len] + work[len..];
    text := UpToNul(work[..]);
  }

  method CopyField(work: array<char>, value: string, len: nat)
    requires len <= |value| && len <= work.Length && forall j :: 0 <= j < work.Length ==> work[j] == NUL
    modifies work
    ensures work[..len] == value[..len] && forall j :: len <= j < work.Length ==> work[j] == NUL
  {
    for i := 0 to len
      invariant work[..i] == value[..i] && forall j :: i <= j < work.Length ==> work[j] == NUL
    {
      work[i] := value[i];
    }
  }

  /* The builder */

  /** A key buffer with the running pointer and the space believed left. The
      ghost `text` is everything appended so far. */
  class KeyBuffer {
    const buf: array<char>
    var ptr: nat
    var left: int
    ghost var text: string

    ghost predicate Holds()
      reads this, buf
    {
      && buf.Length >= 2
      && NUL !in text
      && (left > 0 ==> ptr == |text| && left == buf.Length - 1 - |text|)
      && (left <= 0 ==> |text| >= buf.Length - 1)
      && var out := Cut(text, buf.Length - 2);
         buf[..|out|] == out && buf[|out|] == NUL
    }

    constructor (n: BufferSize)
      ensures Holds() && text == "" && fresh(buf) && buf.Length == n
    {
      buf := new char[n](_ => NUL);
      ptr, left := 0, n - 1;
      text := "";
    }

    /** All appenders end this way; nothing is written once no space is left. */
    method Append(s: string)
      requires Holds() && NUL !in s
      modifies this, buf
      ensures Holds() && text == old(text) + s
    {
      if left <= 0 {
        text := text + s;
        return;
      }
      ghost var before := text;
      ghost var was := buf[..];
      var ret := Snprintf(buf, ptr, left, s);
      text := text + s;
      CutAppend(before, s, buf.Length - 2);
      assert was[..ptr] == before;
      assert buf[..] == before + Cut(s, left - 1) + [NUL] + was[ptr + |Cut(s, left - 1)| + 1..];
      ptr := ptr + ret;
      left := left - ret;
    }

    method AddInt(value: nat)
      requires Holds()
      modifies this, buf
      ensures Holds() && text == old(text) + Decimal(ToInt32(value))
    {
      Append(Decimal(ToInt32(value)));
    }

    method AddString(value: string)
      requires Holds()
      modifies this, buf
      ensures Holds() && text == old(text) + FieldText(value)
    {
      if left <= 0 {
        FieldHasNoNul(value);
        text := text + FieldText(value);
        return;
      }
      var work := Worker(value);
      FieldHasNoNul(value);
      Append(work);
    }

    method AddDelimiter()
      requires Holds()
      modifies this, buf
      ensures Holds() && text == old(text) + [KEYEXPR_DELIMITER]
    {
      Append([KEYEXPR_DELIMITER]);
    }

    /** `APPEND_DELIMITER(); APPEND_VALUE(v)` for a string field. */
    method NextField(value: string, ghost parts: seq<string>)
      requires Holds() && parts != [] && text == Join(parts, KEYEXPR_DELIMITER)
      modifies this, buf
      ensures Holds() && text == Join(parts + [FieldText(value)], KEYEXPR_DELIMITER)
    {
      JoinAppend(parts, FieldText(value), KEYEXPR_DELIMITER);
      AddDelimiter();
      AddString(value);
    }

    /** ... and for a number. */
    method NextInt(value: nat, ghost parts: seq<string>)
      requires Holds() && parts != [] && text == Join(parts, KEYEXPR_DELIMITER)
      modifies this, buf
      ensures Holds() && text == Join(parts + [FieldText(Decimal(ToInt32(value)))], KEYEXPR_DELIMITER)
    {
      DecimalIsPlain(ToInt32(value));
      JoinAppend(parts, Decimal(ToInt32(value)), KEYEXPR_DELIMITER);
      AddDelimiter();
      AddInt(value);
    }
  }

  method GenerateLiveliness(e: Entity, n: BufferSize) returns (key: string)
    ensures key == Key(e, n)
  {
    hide FieldTexts, Join, Fields, UpToNul;
    var b := new KeyBuffer(n);
    if e.node.Some? {
      AppendIdentity(b, e);
      AppendNode(b, e);
      if e.topic.Some? {
        AppendTopic(b, e);
      }
    }
    ghost var out := Cut(b.text, n - 2);
    assert b.buf[..][..|out|] == out;
    UpToNulAt(b.buf[..], |out|);
    key := UpToNul(b.buf[..]);
  }

  /** The first k fields of a key as they appear in it. */
  ghost function Leading(e: Entity, k: nat): (texts: seq<string>)
    requires e.node.Some? && 0 < k <= |Fields(e)|
    ensures |texts| == k
  {
    FieldTexts(Fields(e))[..k]
  }

  lemma LeadingNext(e: Entity, k: nat)
    requires e.node.Some? && 0 < k < |Fields(e)|
    ensures Leading(e, k + 1) == Leading(e, k) + [FieldText(Fields(e)[k])]
  {
  }

  /** Admin space, domain, session id, node id and entity id. */
  method AppendIdentity(b: KeyBuffer, e: Entity)
    requires b.Holds() && e.node.Some? && b.text == ""
    modifies b, b.buf
    ensures b.Holds() && b.text == Join(Leading(e, 5), KEYEXPR_DELIMITER)
  {
    hide FieldText, Join, Decimal, ToInt32, Leading;
    forall k | 0 < k < 5 ensures Leading(e, k + 1) == Leading(e, k) + [FieldText(Fields(e)[k])] {
      LeadingNext(e, k);
    }
    b.AddString(ADMIN_SPACE);
    FirstField(e);
    b.NextField(e.node.value.domain, Leading(e, 1));
    b.NextField(e.zid, Leading(e, 2));
    b.NextInt(e.nid, Leading(e, 3));
    b.NextInt(e.id, Leading(e, 4));
  }

  /** Entity kind, enclave, namespace and node name. */
  method AppendNode(b: KeyBuffer, e: Entity)
    requires b.Holds() && e.node.Some? && b.text == Join(Leading(e, 5), KEYEXPR_DELIMITER)
    modifies b, b.buf
    ensures b.Holds() && b.text == Join(Leading(e, 9), KEYEXPR_DELIMITER)
    ensures e.topic.None? ==> b.text == IdealKey(e)
  {
    hide FieldText, Join, Decimal, ToInt32, Leading;
    forall k | 5 <= k < 9 ensures Leading(e, k + 1) == Leading(e, k) + [FieldText(Fields(e)[k])] {
      LeadingNext(e, k);
    }
    b.NextField(ConvEntityType(e.kind), Leading(e, 5));
    b.NextField(e.node.value.enclave, Leading(e, 6));
    b.NextField(e.node.value.ns, Leading(e, 7));
    b.NextField(e.node.value.name, Leading(e, 8));
    AllFields(e);
  }

  /** Topic name, type, hash and QoS. */
  method AppendTopic(b: KeyBuffer, e: Entity)
    requires b.Holds() && e.node.Some? && e.topic.Some?
    requires b.text == Join(Leading(e, 9), KEYEXPR_DELIMITER)
    modifies b, b.buf
    ensures b.Holds() && b.text == IdealKey(e)
  {
    hide FieldText, Join, Decimal, ToInt32, Leading;
    forall k | 9 <= k < 13 ensures Leading(e, k + 1) == Leading(e, k) + [FieldText(Fields(e)[k])] {
      LeadingNext(e, k);
    }
    b.NextField(e.topic.value.name, Leading(e, 9));
    b.NextField(e.topic.value.typeName, Leading(e, 10));
    b.NextField(e.topic.value.hash, Leading(e, 11));
    b.NextField(e.topic.value.qos, Leading(e, 12));
    AllFields(e);
  }

  lemma FirstField(e: Entity)
    requires e.node.Some?
    ensures Join(Leading(e, 1), KEYEXPR_DELIMITER) == FieldText(ADMIN_SPACE)
  {
    hide FieldText;
    assert Leading(e, 1) == [FieldText(ADMIN_SPACE)];
  }

  lemma AllFields(e: Entity)
    requires e.node.Some?
    ensures Join(Leading(e, |Fields(e)|), KEYEXPR_DELIMITER) == IdealKey(e)
  {
    hide Join;
    assert Leading(e, |Fields(e)|) == FieldTexts(Fields(e));
  }

  lemma FieldHasNoNul(s: string)
    ensures NUL !in FieldText(s)
  {
    var cut := UpToNul(Cut(s, STRING_MAX_LEN - 1));
    forall i | 0 <= i < |cut| ensures Mangle(cut)[i] != NUL {
      assert cut[i] in cut;
    }
  }

  /** Numbers and the fixed fields need no mangling. */
  lemma PlainField(s: string)
    requires |s| < STRING_MAX_LEN && NUL !in s && KEYEXPR_DELIMITER !in s
    ensures FieldText(s) == s
  {
    assert Cut(s, STRING_MAX_LEN - 1) == s;
  }

  lemma DecimalIsPlain(n: int)
    requires -0x8000_0000 <= n < 0x8000_0000
    ensures FieldText(Decimal(n)) == Decimal(n) && Recoverable(Decimal(n))
  {
    var s := Decimal(n);
    DecimalLength(if n < 0 then -n else n, 10);
    PlainField(s);
  }

  /* Reading a key back */

  /** Splits a key at its delimiters and restores the slashes. */
  function Decode(key: string): seq<string> {
    var parts := Split(key, KEYEXPR_DELIMITER);
    seq(|parts|, i requires 0 <= i < |parts| => Demangle(parts[i]))
  }

  /** A field that mangling and the work buffer leave recoverable. */
  predicate Recoverable(s: string) {
    |s| < STRING_MAX_LEN && NUL !in s && SLASH_REPLACEMENT !in s
  }

  lemma FieldTextHasNoSlash(s: string)
    ensures KEYEXPR_DELIMITER !in FieldText(s)
  {
  }

  lemma RecoverableField(s: string)
    ensures Recoverable(s) <==> Demangle(FieldText(s)) == s
  {
    if Recoverable(s) {
      assert UpToNul(Cut(s, STRING_MAX_LEN - 1)) == s;
      forall i | 0 <= i < |s| ensures Demangle(Mangle(s))[i] == s[i] {
        assert s[i] in s;
      }
    }
    if Demangle(FieldText(s)) == s {
      assert |UpToNul(Cut(s, STRING_MAX_LEN - 1))| == |s|;
      assert UpToNul(Cut(s, STRING_MAX_LEN - 1)) == s;
      forall i | 0 <= i < |s| ensures s[i] != SLASH_REPLACEMENT {
        assert Demangle(Mangle(s))[i] == s[i];
      }
    }
  }

  /** Decoding never changes how many characters there are. */
  lemma DecodeLength(key: string)
    ensures JoinedLength(Decode(key)) == |key|
  {
    var parts := Split(key, KEYEXPR_DELIMITER);
    SplitLength(key, KEYEXPR_DELIMITER);
    SameLengths(parts, Decode(key));
  }

  lemma {:induction false} SameLengths(a: seq<string>, b: seq<string>)
    requires |a| == |b| && forall i :: 0 <= i < |a| ==> |a[i]| == |b[i]|
    ensures JoinedLength(a) == JoinedLength(b)
  {
    if a != [] {
      SameLengths(a[1..], b[1..]);
    }
  }

  lemma {:induction false} ShorterFields(a: seq<string>, b: seq<string>)
    requires |a| == |b| && forall i :: 0 <= i < |a| ==> |a[i]| <= |b[i]|
    ensures JoinedLength(a) <= JoinedLength(b)
    ensures JoinedLength(a) == JoinedLength(b) ==> forall i :: 0 <= i < |a| ==> |a[i]| == |b[i]|
  {
    if a != [] {
      ShorterFields(a[1..], b[1..]);
      forall i | 0 <= i < |a| && JoinedLength(a) == JoinedLength(b) ensures |a[i]| == |b[i]| {
        if i > 0 {
          assert |a[1..][i - 1]| == |b[1..][i - 1]|;
        }
      }
    }
  }

  lemma DecodeIdeal(fields: seq<string>)
    requires fields != []
    ensures Decode(Join(FieldTexts(fields), KEYEXPR_DELIMITER))
         == seq(|fields|, i requires 0 <= i < |fields| => Demangle(FieldText(fields[i])))
  {
    var texts := FieldTexts(fields);
    forall p | p in texts ensures KEYEXPR_DELIMITER !in p {
      var i :| 0 <= i < |texts| && texts[i] == p;
      FieldTextHasNoSlash(fields[i]);
    }
    SplitOfJoin(texts, KEYEXPR_DELIMITER);
  }

  /** The strings an entity is given; the other fields are numbers and fixed
      texts. */
  function GivenFields(e: Entity): seq<string>
    requires e.node.Some?
  {
    [e.node.value.domain, e.zid, e.node.value.enclave, e.node.value.ns, e.node.value.name] +
    if e.topic.Some? then [e.topic.value.name, e.topic.value.typeName, e.topic.value.hash, e.topic.value.qos] else []
  }

  lemma GeneratedFieldsRecoverable(e: Entity)
    ensures Recoverable(ADMIN_SPACE) && Recoverable(ConvEntityType(e.kind))
    ensures Recoverable(Decimal(ToInt32(e.nid))) && Recoverable(Decimal(ToInt32(e.id)))
  {
    DecimalIsPlain(ToInt32(e.nid));
    DecimalIsPlain(ToInt32(e.id));
  }

  lemma FieldsRecoverable(e: Entity)
    requires e.node.Some?
    ensures (forall f :: f in Fields(e) ==> Recoverable(f)) <==> (forall f :: f in GivenFields(e) ==> Recoverable(f))
  {
    hide Recoverable, Decimal, ToInt32, ConvEntityType;
    GeneratedFieldsRecoverable(e);
    var generated := [ADMIN_SPACE, Decimal(ToInt32(e.nid)), Decimal(ToInt32(e.id)), ConvEntityType(e.kind)];
    assert forall f :: f in Fields(e) <==> f in GivenFields(e) || f in generated;
  }

  /** A key decodes to the fields it was built from exactly when the whole fits
      and none of the entity's own strings was cut or contains the replacement
      character. */
  lemma DecodableExactly(e: Entity, n: BufferSize)
    requires e.node.Some?
    ensures Decode(Key(e, n)) == Fields(e)
       <==> |IdealKey(e)| <= n - 2 && forall f :: f in GivenFields(e) ==> Recoverable(f)
  {
    hide Recoverable, FieldText, FieldTexts, Fields, GivenFields, Join, Decode, Demangle;
    var fields := Fields(e);
    FieldsRecoverable(e);
    DecodeIdeal(fields);
    forall i | 0 <= i < |fields| ensures Recoverable(fields[i]) <==> Demangle(FieldText(fields[i])) == fields[i] {
      RecoverableField(fields[i]);
    }
    if |IdealKey(e)| <= n - 2 && forall f :: f in fields ==> Recoverable(f) {
      assert Decode(Key(e, n)) == fields;
    }
    if Decode(Key(e, n)) == fields {
      NothingCut(e, n);
      assert Key(e, n) == IdealKey(e);
      forall f | f in fields ensures Recoverable(f) {
        var i :| 0 <= i < |fields| && fields[i] == f;
        assert Decode(Key(e, n))[i] == fields[i];
      }
    }
  }

  /** A key that decodes to all fields has as many characters as they have, so
      neither a field nor the key can have been cut. */
  lemma NothingCut(e: Entity, n: BufferSize)
    requires e.node.Some? && Decode(Key(e, n)) == Fields(e)
    ensures |IdealKey(e)| <= n - 2
  {
    hide Fields;
    DecodeLength(Key(e, n));
    JoinLength(FieldTexts(Fields(e)), KEYEXPR_DELIMITER);
    ShorterFields(FieldTexts(Fields(e)), Fields(e));
  }
}
