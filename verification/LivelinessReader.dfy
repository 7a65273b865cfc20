/** What a reader makes of a liveliness key, field by field. */
module LivelinessReader {
  import opened CText
  import opened Liveliness

  function ReadKind(text: string): Option<EntityType> {
    if text == "NN" then Some(Node)
    else if text == "MP" then Some(Publisher)
    else if text == "MS" then Some(Subscription)
    else if text == "SS" then Some(Service)
    else if text == "SC" then Some(Client)
    else None
  }

  /** The fields between slashes, a percent sign standing for a slash. */
  function ReadEntity(key: string): Option<Entity> {
    var f := Decode(key);
    if (|f| != 9 && |f| != 13) || f[0] != "@ros2_lv" || ReadKind(f[5]).None? then None
    else
      var nid, id := ParseDecimal(f[3]), ParseDecimal(f[4]);
      if nid < 0 || id < 0 then None
      else
        Some(Entity(ReadKind(f[5]).value, f[2], nid, id, Some(NodeInfo(f[1], f[6], f[7], f[8])),
                    if |f| == 13 then Some(TopicInfo(f[9], f[10], f[11], f[12])) else None))
  }

  lemma {:induction false} SplitOfPrefix(s: string, k: nat, sep: char)
    requires k <= |s|
    ensures |Split(s[..k], sep)| <= |Split(s, sep)|
    ensures forall i :: 0 <= i < |Split(s[..k], sep)| - 1 ==> Split(s[..k], sep)[i] == Split(s, sep)[i]
  {
    if k > 0 {
      assert s[..k][1..] == s[1..][..k - 1];
      SplitOfPrefix(s[1..], k - 1, sep);
    }
  }

  /** All but the last field of a key that has its full number of fields are
      those it was built from. */
  lemma EarlyFieldsKept(e: Entity, n: BufferSize, i: nat)
    requires e.node.Some? && |Decode(Key(e, n))| == |Fields(e)| && i < |Fields(e)| - 1
    ensures Decode(Key(e, n))[i] == Demangle(FieldText(Fields(e)[i]))
  {
    hide FieldText, Fields, Demangle;
    var ideal := IdealKey(e);
    DecodeIdeal(Fields(e));
    assert Key(e, n) == ideal[..|Key(e, n)|];
    SplitOfPrefix(ideal, |Key(e, n)|, KEYEXPR_DELIMITER);
    assert Decode(ideal)[i] == Demangle(FieldText(Fields(e)[i]));
  }

  lemma KindIsRead(kind: EntityType, text: string)
    ensures ReadKind(text) == Some(kind) <==> text == ConvEntityType(kind)
  {
  }

  predicate IsInt31(n: nat) { n < 0x8000_0000 }

  lemma NumberIsRead(n: nat)
    ensures ParseDecimal(Decimal(ToInt32(n))) == n <==> IsInt31(n)
  {
    ParseOfDecimal(ToInt32(n));
  }

  /** A key gives its entity back exactly when the whole fits, the entity's
      strings are short enough and free of percent signs, and its numbers are
      not negative as 32-bit ints. */
  lemma EntityRecoveredExactly(e: Entity, n: BufferSize)
    requires e.node.Some?
    ensures ReadEntity(Key(e, n)) == Some(e)
       <==> |IdealKey(e)| <= n - 2 && (forall f :: f in GivenFields(e) ==> Recoverable(f))
            && IsInt31(e.nid) && IsInt31(e.id)
  {
    hide Recoverable, IdealKey, GivenFields, Key, Decode, ReadKind, ConvEntityType, Decimal, ToInt32, ParseDecimal;
    DecodableExactly(e, n);
    NumberIsRead(e.nid);
    NumberIsRead(e.id);
    KindIsRead(e.kind, ConvEntityType(e.kind));
    if ReadEntity(Key(e, n)) == Some(e) {
      FieldsOfRead(e, n);
    }
  }

  lemma FieldsOfRead(e: Entity, n: BufferSize)
    requires e.node.Some? && ReadEntity(Key(e, n)) == Some(e)
    ensures Decode(Key(e, n)) == Fields(e) && IsInt31(e.nid) && IsInt31(e.id)
  {
    hide Key, Decode, ReadKind, ConvEntityType, Decimal, ToInt32, ParseDecimal, FieldText, Demangle, IsInt31;
    var f := Decode(Key(e, n));
    KindIsRead(e.kind, f[5]);
    EarlyFieldsKept(e, n, 3);
    EarlyFieldsKept(e, n, 4);
    NumberKept(e.nid);
    NumberKept(e.id);
    NumberIsRead(e.nid);
    NumberIsRead(e.id);
  }

  lemma NumberKept(n: nat)
    ensures Demangle(FieldText(Decimal(ToInt32(n)))) == Decimal(ToInt32(n))
  {
    DecimalIsPlain(ToInt32(n));
    RecoverableField(Decimal(ToInt32(n)));
  }

  const NODE: Entity := Entity(Node, "a1b2", 0, 7, Some(NodeInfo("0", "/", "/ns", "talker")), None)

  /** The key of a node, character by character. */
  lemma NodeKey()
    ensures Key(NODE, 256)
         == "@ros2_lv" + "/" + "0" + "/" + "a1b2" + "/" + "0" + "/" + "7" + "/" + "NN"
            + "/" + "%" + "/" + "%ns" + "/" + "talker"
  {
    hide FieldText, Join, Cut;
    NodeTexts();
    NineJoined("@ros2_lv", "0", "a1b2", "0", "7", "NN", "%", "%ns", "talker");
    WholeKey(IdealKey(NODE));
  }

  lemma WholeKey(key: string)
    requires |key| <= 254
    ensures Cut(key, 254) == key
  {
  }

  lemma NodeTexts()
    ensures FieldTexts(Fields(NODE)) == ["@ros2_lv", "0", "a1b2", "0", "7", "NN", "%", "%ns", "talker"]
  {
    Numbers();
    hide FieldText, Decimal, ToInt32;
    assert FieldText("@ros2_lv") == "@ros2_lv" by { PlainField("@ros2_lv"); }
    assert FieldText("0") == "0" by { PlainField("0"); }
    assert FieldText("a1b2") == "a1b2" by { PlainField("a1b2"); }
    assert FieldText("7") == "7" by { PlainField("7"); }
    assert FieldText("NN") == "NN" by { PlainField("NN"); }
    assert FieldText("talker") == "talker" by { PlainField("talker"); }
    Slashes();
  }

  lemma Numbers()
    ensures Decimal(ToInt32(0)) == "0" && Decimal(ToInt32(7)) == "7"
  {
    SmallNumber(0);
    SmallNumber(7);
    hide ToInt32;
    assert DecimalNat(0) == [Digit(0)] && DecimalNat(7) == [Digit(7)];
  }

  lemma SmallNumber(n: nat)
    requires IsInt31(n)
    ensures ToInt32(n) == n
  {
  }

  lemma Slashes()
    ensures FieldText("/") == "%" && FieldText("/ns") == "%ns"
  {
    hide UpToNul;
    assert Cut("/", 127) == "/" && Cut("/ns", 127) == "/ns";
    assert UpToNul("/") == "/" && UpToNul("/ns") == "/ns";
  }

  lemma NineJoined(a: string, b: string, c: string, d: string, e: string, f: string, g: string, h: string, i: string)
    ensures Join([a, b, c, d, e, f, g, h, i], KEYEXPR_DELIMITER)
         == a + "/" + b + "/" + c + "/" + d + "/" + e + "/" + f + "/" + g + "/" + h + "/" + i
  {
    hide Join;
    JoinOne(a);
    JoinAppend([a], b, KEYEXPR_DELIMITER);
    assert [a] + [b] == [a, b];
    JoinAppend([a, b], c, KEYEXPR_DELIMITER);
    assert [a, b] + [c] == [a, b, c];
    JoinAppend([a, b, c], d, KEYEXPR_DELIMITER);
    assert [a, b, c] + [d] == [a, b, c, d];
    JoinAppend([a, b, c, d], e, KEYEXPR_DELIMITER);
    assert [a, b, c, d] + [e] == [a, b, c, d, e];
    JoinAppend([a, b, c, d, e], f, KEYEXPR_DELIMITER);
    assert [a, b, c, d, e] + [f] == [a, b, c, d, e, f];
    JoinAppend([a, b, c, d, e, f], g, KEYEXPR_DELIMITER);
    assert [a, b, c, d, e, f] + [g] == [a, b, c, d, e, f, g];
    JoinAppend([a, b, c, d, e, f, g], h, KEYEXPR_DELIMITER);
    assert [a, b, c, d, e, f, g] + [h] == [a, b, c, d, e, f, g, h];
    JoinAppend([a, b, c, d, e, f, g, h], i, KEYEXPR_DELIMITER);
    assert [a, b, c, d, e, f, g, h] + [i] == [a, b, c, d, e, f, g, h, i];
  }

  lemma JoinOne(a: string)
    ensures Join([a], KEYEXPR_DELIMITER) == a
  {
  }
}
