/** The receive queue: a singly linked list whose ends and length are kept by
    hand, proved to be the sequence `items`. */
module RecvMsgList {

  type byte = x: int | 0 <= x < 0x100
  type Gid = g: seq<byte> | |g| == 16 witness seq(16, i => 0)

  /** A received message or query. Its attachment never changes. */
  class Message {
    const gid: Gid
    const sequenceNum: int
    var next: Message?

    constructor (gid: Gid, sequenceNum: int)
      ensures this.gid == gid && this.sequenceNum == sequenceNum && next == null
    {
      this.gid, this.sequenceNum, next := gid, sequenceNum, null;
    }
  }

  /** Index of the first element that satisfies `f`, or the length if none does. */
  function FirstMatch<T>(items: seq<T>, f: T -> bool): (k: nat)
    ensures k <= |items|
    ensures forall i :: 0 <= i < k ==> !f(items[i])
    ensures k < |items| ==> f(items[k])
  {
    if items == [] then 0
    else if f(items[0]) then 0
    else
      var rest := FirstMatch(items[1..], f);
      assert forall i :: 0 < i <= rest ==> items[i] == items[1..][i - 1];
      1 + rest
  }

  lemma FirstMatchIs<T>(items: seq<T>, f: T -> bool, k: nat)
    requires k <= |items| && (forall i :: 0 <= i < k ==> !f(items[i])) && (k < |items| ==> f(items[k]))
    ensures FirstMatch(items, f) == k
  {
    var m := FirstMatch(items, f);
  }

  function Without<T>(s: seq<T>, k: nat): seq<T>
    requires k < |s|
  {
    s[..k] + s[k + 1..]
  }

  ghost predicate Distinct<T>(s: seq<T>) {
    forall i, j :: 0 <= i < j < |s| ==> s[i] != s[j]
  }

  class List {
    var top: Message?
    var bottom: Message?
    var count: int
    ghost var items: seq<Message>

    /** Each node points to the next, the last to nothing; `top`, `bottom` and
        `count` are the ends and the length. */
    ghost predicate Valid()
      reads this, items
    {
      && count == |items|
      && Distinct(items)
      && (items == [] ==> top == null && bottom == null)
      && (items != [] ==> top == items[0] && bottom == items[|items| - 1] && items[|items| - 1].next == null)
      && forall i :: 0 <= i < |items| - 1 ==> items[i].next == items[i + 1]
    }

    constructor ()
      ensures Valid() && items == []
    {
      top, bottom, count, items := null, null, 0, [];
    }

    method Append(m: Message)
      requires Valid() && m !in items
      modifies this, m, bottom
      ensures Valid() && items == old(items) + [m]
    {
      m.next := null;
      if bottom != null {
        bottom.next := m;
      }
      bottom := m;
      count := count + 1;
      if top == null {
        top := m;
      }
      items := items + [m];
    }

    method Pop() returns (r: Message?)
      requires Valid()
      modifies this, top
      ensures Valid()
      ensures old(items) == [] ==> r == null && items == []
      ensures old(items) != [] ==> r == old(items)[0] && r.next == null && items == old(items)[1..]
    {
      r := top;
      if r == null {
        return;
      }
      top := r.next;
      count := count - 1;
      if bottom == r {
        bottom := null;
      }
      r.next := null;
      items := items[1..];
    }

    /** Unlinks the first match; with no match the list is left alone. */
    method Pickup(f: Message -> bool) returns (r: Message?)
      requires Valid()
      modifies this, items
      ensures Valid()
      ensures var k := FirstMatch(old(items), f);
        if k == |old(items)|
        then r == null && items == old(items)
        else r == old(items)[k] && r.next == null && items == Without(old(items), k)
    {
      var current := top;
      if current == null {
        return null;
      }
      if f(current) {
        FirstMatchIs(items, f, 0);
        top := current.next;
        count := count - 1;
        if bottom == current {
          bottom := null;
        }
        current.next := null;
        items := items[1..];
        return current;
      }
      var before := current;
      ghost var k := 0;
      while current.next != null
        invariant 0 <= k < |items| && current == before == items[k]
        invariant Valid() && items == old(items)
        invariant forall i :: 0 <= i <= k ==> !f(items[i])
        decreases |items| - k
      {
        current := current.next;
        k := k + 1;
        if f(current) {
          FirstMatchIs(items, f, k);
          Unlink(before, current, k);
          return current;
        }
        before := current;
      }
      OnlyLastEnds(k);
      FirstMatchIs(items, f, |items|);
      r := null;
    }

    lemma OnlyLastEnds(k: nat)
      requires Valid() && k < |items|
      ensures items[k].next == null <==> k == |items| - 1
    {
      if k < |items| - 1 {
        var after: Message := items[k + 1];
        assert items[k].next == after;
      }
    }

    method Unlink(before: Message, current: Message, ghost k: nat)
      requires Valid() && 0 < k < |items| && before == items[k - 1] && current == items[k]
      modifies this, before, current
      ensures Valid() && current.next == null && items == Without(old(items), k)
    {
      before.next := current.next;
      count := count - 1;
      if bottom == current {
        bottom := before;
      }
      current.next := null;
      items := Without(items, k);
    }

    method Count() returns (n: int)
      requires Valid()
      ensures n == |items|
    {
      n := count;
    }

    method Empty() returns (b: bool)
      requires Valid()
      ensures b <==> items == []
    {
      var n := Count();
      b := n == 0;
    }

    /** The node n links from the top. The links visit the items in order and
        then run out, so they form no cycle. */
    ghost function Follow(n: nat): (m: Message?)
      requires Valid() && n <= |items|
      reads this, items
      ensures m == if n < |items| then items[n] else null
    {
      if n == 0 then top else Follow(n - 1).next
    }
  }
}
