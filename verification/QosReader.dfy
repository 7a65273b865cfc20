/** What a reader makes of a QoS string of the form
    reliability:durability:history,depth:deadline:lifespan:liveliness,lease
    in which a duration is seconds,nanoseconds. */
module QosReader {
  import opened CText
  import opened QosKey

  datatype Fields = Malformed | Fields(reliability: int, durability: int, history: int, depth: int,
                                       deadlineSec: int, deadlineNsec: int, lifespanSec: int, lifespanNsec: int,
                                       liveliness: int, leaseSec: int, leaseNsec: int)

  function ReadFields(text: string): Fields {
    var parts := Split(text, ':');
    if |parts| != 6 then Malformed
    else
      var history, deadline, lifespan := Split(parts[2], ','), Split(parts[3], ','), Split(parts[4], ',');
      var liveliness := Split(parts[5], ',');
      if |history| != 2 || |deadline| != 2 || |lifespan| != 2 || |liveliness| != 3 then Malformed
      else
        Fields(ParseValue(parts[0]), ParseValue(parts[1]), ParseValue(history[0]), ParseValue(history[1]),
               ParseValue(deadline[0]), ParseValue(deadline[1]), ParseValue(lifespan[0]), ParseValue(lifespan[1]),
               ParseValue(liveliness[0]), ParseValue(liveliness[1]), ParseValue(liveliness[2]))
  }

  /** A profile has no negative numbers. */
  function ReadQos(text: string): Option<Qos> {
    var f := ReadFields(text);
    if f.Malformed? || f.reliability < 0 || f.durability < 0 || f.history < 0 || f.depth < 0
       || f.deadlineSec < 0 || f.deadlineNsec < 0 || f.lifespanSec < 0 || f.lifespanNsec < 0
       || f.liveliness < 0 || f.leaseSec < 0 || f.leaseNsec < 0
    then None
    else
      Some(Qos(f.reliability, f.durability, f.history, f.depth, Duration(f.deadlineSec, f.deadlineNsec),
               Duration(f.lifespanSec, f.lifespanNsec), f.liveliness, Duration(f.leaseSec, f.leaseNsec)))
  }

  predicate IsInt31(n: nat) { n < 0x8000_0000 }

  predicate SmallNumbers(q: Qos) {
    && IsInt31(q.reliability) && IsInt31(q.durability) && IsInt31(q.history) && IsInt31(q.depth)
    && IsInt31(q.deadline.sec) && IsInt31(q.deadline.nsec) && IsInt31(q.lifespan.sec) && IsInt31(q.lifespan.nsec)
    && IsInt31(q.liveliness) && IsInt31(q.lease.sec) && IsInt31(q.lease.nsec)
  }

  /** The text in groups, as a reader splits it. */
  lemma Grouped(t: seq<string>, values: seq<int>)
    requires |values| == 11 && |t| == 11 && forall i :: 0 <= i < 11 ==> t[i] == ValueText(values[i])
    ensures Text(values, 11)
         == Join([t[0], t[1], Join([t[2], t[3]], ','), Join([t[4], t[5]], ','), Join([t[6], t[7]], ','),
                  Join([t[8], t[9], t[10]], ',')], ':')
  {
    hide Join, Text, ValueText;
    FirstText(values);
    TextNext(values, 2);
    TextNext(values, 3);
    TextNext(values, 4);
    TextNext(values, 5);
    TextNext(values, 6);
    TextNext(values, 7);
    TextNext(values, 8);
    TextNext(values, 9);
    TextNext(values, 10);
    TextNext(values, 11);
    Pair(t[2], t[3]);
    Pair(t[4], t[5]);
    Pair(t[6], t[7]);
    Triple(t[8], t[9], t[10]);
    var p2, p3, p4, p5 := Join([t[2], t[3]], ','), Join([t[4], t[5]], ','), Join([t[6], t[7]], ','),
                          Join([t[8], t[9], t[10]], ',');
    SixJoined(t[0], t[1], p2, p3, p4, p5);
    assert Text(values, 4) == t[0] + ":" + t[1] + ":" + p2;
    assert Text(values, 6) == Text(values, 4) + ":" + p3;
    assert Text(values, 8) == Text(values, 6) + ":" + p4;
    assert Text(values, 11) == Text(values, 8) + ":" + p5;
  }

  lemma FirstText(values: seq<int>)
    requires |values| == 11
    ensures Text(values, 1) == ValueText(values[0])
  {
  }

  lemma Pair(a: string, b: string)
    ensures Join([a, b], ',') == a + "," + b
  {
    assert [a, b][1..] == [b];
  }

  lemma Triple(a: string, b: string, c: string)
    ensures Join([a, b, c], ',') == a + "," + b + "," + c
  {
    assert [a, b, c][1..] == [b, c];
    Pair(b, c);
  }

  lemma SixJoined(a: string, b: string, c: string, d: string, e: string, f: string)
    ensures Join([a, b, c, d, e, f], ':') == a + ":" + b + ":" + c + ":" + d + ":" + e + ":" + f
  {
    hide Join;
    JoinOne(a);
    JoinAppend([a], b, ':');
    assert [a] + [b] == [a, b];
    JoinAppend([a, b], c, ':');
    assert [a, b] + [c] == [a, b, c];
    JoinAppend([a, b, c], d, ':');
    assert [a, b, c] + [d] == [a, b, c, d];
    JoinAppend([a, b, c, d], e, ':');
    assert [a, b, c, d] + [e] == [a, b, c, d, e];
    JoinAppend([a, b, c, d, e], f, ':');
    assert [a, b, c, d, e] + [f] == [a, b, c, d, e, f];
  }

  lemma JoinOne(a: string)
    ensures Join([a], ':') == a
  {
  }

  lemma PlainText(value: int)
    ensures ':' !in ValueText(value) && ',' !in ValueText(value) && ParseValue(ValueText(value)) == value
  {
    ParseValueText(value);
  }

  lemma SplitPair(a: string, b: string)
    requires ',' !in a && ',' !in b
    ensures Split(Join([a, b], ','), ',') == [a, b]
    ensures ':' !in a && ':' !in b ==> ':' !in Join([a, b], ',')
  {
    SplitOfJoin([a, b], ',');
    Pair(a, b);
  }

  lemma SplitTriple(a: string, b: string, c: string)
    requires ',' !in a && ',' !in b && ',' !in c
    ensures Split(Join([a, b, c], ','), ',') == [a, b, c]
    ensures ':' !in a && ':' !in b && ':' !in c ==> ':' !in Join([a, b, c], ',')
  {
    SplitOfJoin([a, b, c], ',');
    Triple(a, b, c);
  }

  lemma FieldsRead(v: seq<int>)
    requires |v| == 11
    ensures ReadFields(Text(v, 11)) == Fields(v[0], v[1], v[2], v[3], v[4], v[5], v[6], v[7], v[8], v[9], v[10])
  {
    hide Text, Split, Join, ParseValue, ValueText;
    var t := Tokens(v, 11);
    forall i | 0 <= i < 11 ensures ':' !in t[i] && ',' !in t[i] && ParseValue(t[i]) == v[i] {
      PlainText(v[i]);
    }
    Grouped(t, v);
    SplitPair(t[2], t[3]);
    SplitPair(t[4], t[5]);
    SplitPair(t[6], t[7]);
    SplitTriple(t[8], t[9], t[10]);
    SplitOfJoin([t[0], t[1], Join([t[2], t[3]], ','), Join([t[4], t[5]], ','), Join([t[6], t[7]], ','),
                 Join([t[8], t[9], t[10]], ',')], ':');
  }

  lemma Int31Kept(n: nat)
    ensures ToInt32(n) == n <==> IsInt31(n)
    ensures IsInt31(n) ==> ToInt32(n) >= 0
  {
  }

  /** The text of a profile gives it back exactly when its numbers are not
      negative as 32-bit ints. */
  lemma QosRecoveredExactly(q: Qos)
    ensures ReadQos(QosText(q)) == Some(q) <==> SmallNumbers(q)
  {
    hide ReadFields, Text, ToInt32, IsInt31;
    FieldsRead(Values(q));
    Int31Kept(q.reliability);
    Int31Kept(q.durability);
    Int31Kept(q.history);
    Int31Kept(q.depth);
    Int31Kept(q.deadline.sec);
    Int31Kept(q.deadline.nsec);
    Int31Kept(q.lifespan.sec);
    Int31Kept(q.lifespan.nsec);
    Int31Kept(q.liveliness);
    Int31Kept(q.lease.sec);
    Int31Kept(q.lease.nsec);
  }

  /** A profile with few digits, character by character. */
  lemma ShortProfile()
    ensures QosText(Qos(1, 2, 1, 9, Duration(5, 0), Duration(7, 8), 3, Duration(0, 4))) == "1:2:1,9:5,:7,8:3,,4"
  {
    var values := Values(Qos(1, 2, 1, 9, Duration(5, 0), Duration(7, 8), 3, Duration(0, 4)));
    assert values == [1, 2, 1, 9, 5, 0, 7, 8, 3, 0, 4];
    hide Values, ValueText;
    ShortTexts();
    assert Text(values, 4) == "1:2:1,9";
    assert Text(values, 8) == "1:2:1,9:5,:7,8";
  }

  lemma ShortTexts()
    ensures ValueText(0) == "" && ValueText(1) == "1" && ValueText(2) == "2" && ValueText(3) == "3"
    ensures ValueText(4) == "4" && ValueText(5) == "5" && ValueText(7) == "7" && ValueText(8) == "8"
    ensures ValueText(9) == "9"
  {
  }
}
