/** Reference-counted ownership of node data, node info, entities and topic
    info by node handles, publishers, subscriptions, services and clients. */
module RefCount {

  /** A counted structure: its `ref` and the functions every such type gets.
      `live` is the memory itself, from allocation to `Z_FREE`; each operation
      needs it, so nothing is used or freed after it is freed. */
  class Counted {
    var ref: int
    ghost var live: bool

    constructor Generate()
      ensures ref == 1 && live
    {
      ref, live := 1, true;
    }

    method RefClone()
      requires live
      modifies this
      ensures live && ref == old(ref) + 1
    {
      ref := ref + 1;
    }

    method Release() returns (last: bool)
      requires live
      modifies this
      ensures live && ref == old(ref) - 1 && (last <==> ref == 0)
    {
      ref := ref - 1;
      last := ref == 0;
    }

    method Destroy()
      requires live
      modifies this
      ensures ref == old(ref) && (live <==> ref != 0)
    {
      if ref == 0 {
        live := false;
      }
    }
  }

  /** One reference to node info or topic info goes away, with the memory if it
      was the last. */
  method DestroyInfo(info: Counted)
    requires info.live && info.ref > 0
    modifies info
    ensures info.ref == old(info.ref) - 1 && (info.live <==> info.ref > 0)
  {
    var last := info.Release();
    if last {
      info.Destroy();
    }
  }

  class Entity {
    const count: Counted
    var nodeInfo: Counted?
    var topicInfo: Counted?

    constructor (nodeInfo: Counted, topicInfo: Counted?)
      ensures fresh(count) && count.ref == 1 && count.live
      ensures this.nodeInfo == nodeInfo && this.topicInfo == topicInfo
    {
      count := new Counted.Generate();
      this.nodeInfo, this.topicInfo := nodeInfo, topicInfo;
    }
  }

  method DestroyEntity(e: Entity)
    requires e.count.live && e.count.ref == 1
    requires e.nodeInfo != null && e.nodeInfo.live && e.nodeInfo.ref > 0
    requires e.topicInfo != null ==> e.topicInfo.live && e.topicInfo.ref > 0
    requires e.count != e.nodeInfo && e.count != e.topicInfo && e.nodeInfo != e.topicInfo
    modifies e, e.count, e.nodeInfo, e.topicInfo
    ensures !e.count.live
    ensures var info := old(e.nodeInfo); info.ref == old(info.ref) - 1 && (info.live <==> info.ref > 0)
    ensures var topic := old(e.topicInfo);
      topic != null ==> topic.ref == old(topic.ref) - 1 && (topic.live <==> topic.ref > 0)
  {
    var last := e.count.Release();
    if last {
      if e.nodeInfo != null {
        DestroyInfo(e.nodeInfo);
        e.nodeInfo := null;
      }
      if e.topicInfo != null {
        DestroyInfo(e.topicInfo);
        e.topicInfo := null;
      }
      e.count.Destroy();
    }
  }

  /** A publisher, subscription, service or client: all keep the same pointers
      and release the same references. */
  class Endpoint {
    const count: Counted
    var node: NodeData?
    var entity: Entity?
    ghost const ownEntity: Entity
    ghost const topic: Counted

    /** What it alone owns. */
    ghost function Own(): set<object> { {this, count, ownEntity, ownEntity.count, topic} }

    constructor (node: NodeData, entity: Entity, ghost topic: Counted)
      ensures fresh(count) && count.ref == 1 && count.live
      ensures this.node == node && this.entity == entity && ownEntity == entity && this.topic == topic
    {
      count := new Counted.Generate();
      this.node, this.entity, ownEntity, this.topic := node, entity, entity, topic;
    }

    /** In use, as a holder of `n`. */
    ghost predicate Holds(n: NodeData)
      reads this, count, ownEntity, ownEntity.count, topic
    {
      && count.live && count.ref == 1 && node == n && entity == ownEntity
      && ownEntity.count.live && ownEntity.count.ref == 1 && ownEntity.nodeInfo == n.info
      && ownEntity.topicInfo == topic && topic.live && topic.ref == 1
      && count != ownEntity.count && count != topic && topic != ownEntity.count
    }

    /** Destroyed, with everything it owned freed. */
    ghost predicate Gone()
      reads count, ownEntity.count, topic
    {
      !count.live && !ownEntity.count.live && !topic.live
    }
  }

  /** Inside `repr`, no two of the structures share memory of their own. */
  ghost predicate Separate(base: set<object>, repr: set<object>, holders: set<Endpoint>, gone: set<Endpoint>) {
    && base <= repr
    && (forall x :: x in holders ==> x.Own() <= repr && x.Own() !! base)
    && (forall x :: x in gone ==> x.Own() <= repr && x.Own() !! base)
    && (forall x, y :: x in holders && y in holders && x != y ==> x.Own() !! y.Own())
    && (forall x, y :: x in holders && y in gone ==> x.Own() !! y.Own())
  }

  lemma SeparateWithNew(base: set<object>, repr: set<object>, holders: set<Endpoint>, gone: set<Endpoint>, x: Endpoint)
    requires Separate(base, repr, holders, gone) && x.Own() !! repr
    ensures Separate(base, repr + x.Own(), holders + {x}, gone) && x !in holders
  {
    assert x in x.Own();
    hide Endpoint.Own;
  }

  lemma SeparateRetired(base: set<object>, repr: set<object>, holders: set<Endpoint>, gone: set<Endpoint>, x: Endpoint)
    requires Separate(base, repr, holders, gone) && x in holders
    ensures Separate(base, repr, holders - {x}, gone + {x})
  {
    hide Endpoint.Own;
  }

  /** Who uses a node: its handle, if `open`, and the endpoints in `holders`.
      Those in `gone` did once. `services` counts the services and clients ever
      made. `repr` has the memory of all of them. */
  datatype Ledger = Ledger(open: bool, holders: set<Endpoint>, gone: set<Endpoint>, services: nat, repr: set<object>)

  /** The references that are left: services and clients give one back without
      having taken one. */
  function RefsLeft(l: Ledger): int { |l.holders| + (if l.open then 1 else 0) - l.services }

  class NodeData {
    const count: Counted
    var entity: Entity?
    ghost const nodeEntity: Entity
    ghost const info: Counted

    ghost function Own(): set<object> { {this, count, nodeEntity, nodeEntity.count, info} }

    ghost predicate Valid(l: Ledger)
      reads this, Own(), l.repr
    {
      && Separate(Own(), l.repr, l.holders, l.gone)
      && Counts(RefsLeft(l), |l.holders|)
      && (forall x :: x in l.holders ==> x.Holds(this))
      && (forall x :: x in l.gone ==> x.Gone())
    }

    /** With `k` endpoints in use, the node info counts the entities in use, the
        node's own among them. Node data and node info are freed at the last
        release and not before. */
    ghost predicate Counts(refs: int, k: int)
      reads this, Own()
    {
      && count != nodeEntity.count && count != info && info != nodeEntity.count
      && count.ref == refs >= 0 && (count.live <==> refs > 0)
      && info.ref == k + (if count.live then 1 else 0) && (info.live <==> info.ref > 0)
      && (count.live <==> nodeEntity.count.live)
      && (count.live ==> entity == nodeEntity && nodeEntity.count.ref == 1
                         && nodeEntity.nodeInfo == info && nodeEntity.topicInfo == null)
    }

    /** `zenoh_pico_generate_node_data`. */
    constructor ()
      ensures fresh(Own()) && Valid(Ledger(true, {}, {}, 0, Own()))
    {
      var i := new Counted.Generate();
      var e := new Entity(i, null);
      count := new Counted.Generate();
      info, nodeEntity, entity := i, e, e;
    }

    /** The node is in memory exactly while references are left, its info while
        the node or an endpoint is. */
    lemma LiveWhileHeld(l: Ledger)
      requires Valid(l)
      ensures count.live <==> RefsLeft(l) > 0
      ensures nodeEntity.count.live <==> RefsLeft(l) > 0
      ensures info.live <==> RefsLeft(l) > 0 || l.holders != {}
    {
      assert l.holders != {} <==> |l.holders| > 0;
    }

    lemma Adopt(l: Ledger, x: Endpoint, services: nat)
      requires Separate(Own(), l.repr, l.holders, l.gone)
      requires Counts(RefsLeft(l) + 1 - services, |l.holders| + 1)
      requires (forall y :: y in l.holders ==> y.Holds(this)) && (forall y :: y in l.gone ==> y.Gone())
      requires x.Holds(this) && x.Own() !! l.repr
      ensures Valid(l.(holders := l.holders + {x}, services := l.services + services, repr := l.repr + x.Own()))
    {
      SeparateWithNew(Own(), l.repr, l.holders, l.gone, x);
    }

    lemma Retire(l: Ledger, x: Endpoint)
      requires Separate(Own(), l.repr, l.holders, l.gone) && x in l.holders
      requires Counts(RefsLeft(l) - 1, |l.holders| - 1)
      requires (forall y :: y in l.holders && y != x ==> y.Holds(this)) && (forall y :: y in l.gone ==> y.Gone())
      requires x.Gone()
      ensures Valid(l.(holders := l.holders - {x}, gone := l.gone + {x}))
    {
      SeparateRetired(Own(), l.repr, l.holders, l.gone, x);
    }
  }

  /** `zenoh_pico_destroy_node_data`: one reference goes away. */
  method DestroyNodeData(n: NodeData)
    requires n.count.live && n.count.ref > 0
    requires n.count != n.nodeEntity.count && n.count != n.info && n.info != n.nodeEntity.count
    requires n.entity == n.nodeEntity && n.nodeEntity.count.live && n.nodeEntity.count.ref == 1
    requires n.nodeEntity.nodeInfo == n.info && n.nodeEntity.topicInfo == null && n.info.live && n.info.ref > 0
    modifies n`entity, n.count, n.nodeEntity, n.nodeEntity.count, n.info
    ensures n.count.ref == old(n.count.ref) - 1 && (n.count.live <==> n.count.ref > 0)
    ensures n.nodeEntity.count.live <==> n.count.live
    ensures n.count.live ==> n.entity == n.nodeEntity && n.nodeEntity.count.ref == 1
                             && n.nodeEntity.nodeInfo == n.info && n.nodeEntity.topicInfo == null
    ensures n.info.ref == old(n.info.ref) - (if n.count.live then 0 else 1)
    ensures n.info.live <==> n.info.ref > 0
  {
    var last := n.count.Release();
    if last {
      if n.entity != null {
        DestroyEntity(n.entity);
        n.entity := null;
      }
      n.count.Destroy();
    }
  }

  /** `rmw_destroy_node`: the handle's reference. Like every operation on a
      node it needs the node to be in memory. */
  method CloseNode(n: NodeData, ghost l: Ledger)
    requires n.Valid(l) && l.open && RefsLeft(l) > 0
    modifies l.repr
    ensures n.Valid(l.(open := false))
  {
    DestroyNodeData(n);
    forall x | x in l.holders ensures x.Holds(n) {
      assert old(x.Holds(n)) && x.Own() !! n.Own();
    }
    forall x | x in l.gone ensures x.Gone() {
      assert old(x.Gone()) && x.Own() !! n.Own();
    }
  }

  /** `rmw_create_publisher` or `rmw_create_subscription`: a reference to the
      node, then the data. */
  method CreateEndpoint(n: NodeData, ghost l: Ledger) returns (x: Endpoint)
    requires n.Valid(l) && l.open && RefsLeft(l) > 0
    modifies l.repr
    ensures fresh(x) && fresh(x.Own()) && n.Valid(l.(holders := l.holders + {x}, repr := l.repr + x.Own()))
  {
    x := AddEndpoint(n, true, l);
  }

  /** `rmw_create_service` or `rmw_create_client`: the data alone. */
  method CreateService(n: NodeData, ghost l: Ledger) returns (x: Endpoint)
    requires n.Valid(l) && l.open && RefsLeft(l) > 0
    modifies l.repr
    ensures fresh(x) && fresh(x.Own())
    ensures n.Valid(l.(holders := l.holders + {x}, services := l.services + 1, repr := l.repr + x.Own()))
  {
    x := AddEndpoint(n, false, l);
  }

  method AddEndpoint(n: NodeData, cloneNode: bool, ghost l: Ledger) returns (x: Endpoint)
    requires n.Valid(l) && RefsLeft(l) > 0
    modifies l.repr
    ensures fresh(x) && fresh(x.Own())
    ensures var services := if cloneNode then l.services else l.services + 1;
      n.Valid(l.(holders := l.holders + {x}, services := services, repr := l.repr + x.Own()))
  {
    x := MakeEndpoint(n, cloneNode, RefsLeft(l), |l.holders|);
    forall y | y in l.holders ensures y.Holds(n) {
      assert old(y.Holds(n)) && y.Own() !! n.Own();
    }
    forall y | y in l.gone ensures y.Gone() {
      assert old(y.Gone()) && y.Own() !! n.Own();
    }
    n.Adopt(l, x, if cloneNode then 0 else 1);
  }

  /** The data of an endpoint, with the references it takes. */
  method MakeEndpoint(n: NodeData, cloneNode: bool, ghost refs: int, ghost k: nat) returns (x: Endpoint)
    requires n.Counts(refs, k) && n.count.live
    modifies n.count, n.info
    ensures n.Counts(refs + (if cloneNode then 1 else 0), k + 1) && fresh(x) && fresh(x.Own()) && x.Holds(n)
  {
    if cloneNode {
      n.count.RefClone();
    }
    var nodeInfo := n.entity.nodeInfo;
    nodeInfo.RefClone();
    var topicInfo := new Counted.Generate();
    var entity := new Entity(nodeInfo, topicInfo);
    x := new Endpoint(n, entity, topicInfo);
  }

  /** `zenoh_pico_destroy_publisher_data`, `zenoh_pico_destroy_subscription_data`
      or `zenoh_pico_destroy_service_data`. */
  method DestroyEndpoint(n: NodeData, x: Endpoint, ghost l: Ledger)
    requires n.Valid(l) && x in l.holders && RefsLeft(l) > 0
    modifies l.repr
    ensures n.Valid(l.(holders := l.holders - {x}, gone := l.gone + {x}))
  {
    DestroyEndpointData(n, x, RefsLeft(l), |l.holders|);
    forall y | y in l.holders && y != x ensures y.Holds(n) {
      assert old(y.Holds(n)) && y.Own() !! n.Own() && y.Own() !! x.Own();
    }
    forall y | y in l.gone ensures y.Gone() {
      assert old(y.Gone()) && y.Own() !! n.Own() && y.Own() !! x.Own();
    }
    n.Retire(l, x);
  }

  method DestroyEndpointData(n: NodeData, x: Endpoint, ghost refs: int, ghost k: nat)
    requires k > 0 && refs > 0 && n.Counts(refs, k) && x.Holds(n) && x.Own() !! n.Own()
    modifies n`entity, n.count, n.nodeEntity, n.nodeEntity.count, n.info, x.Own()
    ensures n.Counts(refs - 1, k - 1) && x.Gone()
  {
    var last := x.count.Release();
    if last {
      if x.node != null {
        DestroyNodeData(x.node);
        x.node := null;
      }
      if x.entity != null {
        DestroyEntity(x.entity);
        x.entity := null;
      }
      x.count.Destroy();
    }
  }

  /* Whole lifetimes */

  datatype Option<T> = None | Some(value: T)

  /** What applications do to a node once it is created. `Create` makes a
      publisher or subscription, `Serve` a service or client, and `Destroy(k)`
      is for the k-th of all of them. */
  datatype Op = Close | Create | Serve | Destroy(k: nat)

  datatype Handles = Handles(open: bool, made: nat, inUse: set<nat>, services: nat)

  /** The caller holds the handle it uses. */
  predicate CallerRight(h: Handles, op: Op) { if op.Destroy? then op.k in h.inUse else h.open }

  function References(h: Handles): int { |h.inUse| + (if h.open then 1 else 0) - h.services }

  function After(h: Handles, op: Op): Handles {
    match op
    case Close => h.(open := false)
    case Create => h.(made := h.made + 1, inUse := h.inUse + {h.made})
    case Serve => h.(made := h.made + 1, inUse := h.inUse + {h.made}, services := h.services + 1)
    case Destroy(k) => h.(inUse := h.inUse - {k})
  }

  const FIRST: Handles := Handles(true, 0, {}, 0)

  /** The handles after a sequence of operations, if the caller was right in each
      and each found the node in memory. */
  function HandlesAfter(ops: seq<Op>): Option<Handles> {
    if ops == [] then Some(FIRST)
    else
      var n := |ops| - 1;
      var h := HandlesAfter(ops[..n]);
      if h.Some? && CallerRight(h.value, ops[n]) && References(h.value) > 0 then Some(After(h.value, ops[n])) else None
  }

  /** The ledger has the objects that the handles name. */
  ghost predicate Names(h: Handles, made: seq<Endpoint>, l: Ledger) {
    && l.open == h.open && |made| == h.made && |l.holders| == |h.inUse| && l.services == h.services
    && Filed(made, h.inUse, l.holders, l.gone)
  }

  ghost predicate Filed(made: seq<Endpoint>, inUse: set<nat>, holders: set<Endpoint>, gone: set<Endpoint>) {
    && (forall k :: k in inUse ==> k < |made|)
    && (forall j, k :: 0 <= j < k < |made| ==> made[j] != made[k])
    && (forall k :: 0 <= k < |made| && k in inUse ==> made[k] in holders)
    && (forall k :: 0 <= k < |made| && k !in inUse ==> made[k] in gone && made[k] !in holders)
  }

  ghost predicate CountedAs(n: NodeData, made: seq<Endpoint>, h: Handles)
    reads n, n.Own(), set k | 0 <= k < |made| :: made[k].count
    reads set k | 0 <= k < |made| :: made[k].ownEntity.count
    reads set k | 0 <= k < |made| :: made[k].topic
  {
    var refs := References(h);
    && n.count.ref == refs && n.info.ref == |h.inUse| + (if refs > 0 then 1 else 0)
    && (n.count.live <==> refs > 0) && (n.nodeEntity.count.live <==> refs > 0)
    && (n.info.live <==> refs > 0 || h.inUse != {})
    && |made| == h.made
    && (forall k :: 0 <= k < |made| ==> (made[k].count.live <==> k in h.inUse))
    && (forall k :: 0 <= k < |made| ==> (made[k].ownEntity.count.live <==> k in h.inUse))
    && (forall k :: 0 <= k < |made| ==> (made[k].topic.live <==> k in h.inUse))
  }

  lemma LedgerCounts(n: NodeData, made: seq<Endpoint>, h: Handles, l: Ledger)
    requires n.Valid(l) && Names(h, made, l)
    ensures CountedAs(n, made, h)
    ensures n.count.live <==> References(h) > 0
  {
    n.LiveWhileHeld(l);
    assert l.holders != {} <==> |l.holders| > 0;
    assert h.inUse != {} <==> |h.inUse| > 0;
    forall k | 0 <= k < |made|
      ensures (made[k].count.live <==> k in h.inUse) && (made[k].ownEntity.count.live <==> k in h.inUse)
      ensures made[k].topic.live <==> k in h.inUse
    {
      assert if k in h.inUse then made[k].Holds(n) else made[k].Gone();
    }
  }

  method Perform(n: NodeData, made: seq<Endpoint>, op: Op, ghost h: Handles, ghost l: Ledger)
    returns (more: seq<Endpoint>, ghost l2: Ledger)
    requires n.Valid(l) && Names(h, made, l) && CallerRight(h, op) && References(h) > 0
    modifies l.repr
    ensures n.Valid(l2) && Names(After(h, op), more, l2) && fresh(l2.repr - l.repr)
  {
    hide NodeData.Valid, Endpoint.Own;
    more := made;
    match op {
      case Close =>
        CloseNode(n, l);
        l2 := l.(open := false);
      case Create =>
        var x := CreateEndpoint(n, l);
        NamesWithNew(h, made, l, x);
        l2 := l.(holders := l.holders + {x}, repr := l.repr + x.Own());
        more := made + [x];
      case Serve =>
        var x := CreateService(n, l);
        NamesWithNew(h, made, l, x);
        l2 := l.(holders := l.holders + {x}, services := l.services + 1, repr := l.repr + x.Own());
        more := made + [x];
      case Destroy(k) =>
        DestroyEndpoint(n, made[k], l);
        NamesWithout(h, made, l, k);
        l2 := l.(holders := l.holders - {made[k]}, gone := l.gone + {made[k]});
    }
  }

  /** Any sequence of creations and destructions, in any order: the node counts
      the handles in use less the services and clients ever made, and the memory
      goes with the last reference. So the node is gone exactly when as many
      services and clients have been made as handles are in use. */
  method Lifetime(ops: seq<Op>) returns (n: NodeData, made: seq<Endpoint>)
    requires HandlesAfter(ops).Some?
    ensures CountedAs(n, made, HandlesAfter(ops).value)
    ensures var h := HandlesAfter(ops).value;
      !n.count.live <==> h.services >= |h.inUse| + (if h.open then 1 else 0)
  {
    hide NodeData.Valid, Names, CountedAs;
    n := new NodeData();
    made := [];
    ghost var l := Ledger(true, {}, {}, 0, n.Own());
    ghost var h := FIRST;
    NothingNamed(l);
    var i := 0;
    while i < |ops|
      invariant 0 <= i <= |ops| && HandlesAfter(ops[..i]) == Some(h)
      invariant n.Valid(l) && Names(h, made, l) && fresh(l.repr)
    {
      LegalNext(ops, i, h);
      made, l := Perform(n, made, ops[i], h, l);
      h := After(h, ops[i]);
      i := i + 1;
    }
    assert ops[..i] == ops;
    LedgerCounts(n, made, h, l);
  }

  /** Without services and clients the count is the handles in use, and whoever
      holds a handle finds the node in memory. */
  lemma {:induction false} HandlesKeepNode(ops: seq<Op>, op: Op)
    requires HandlesAfter(ops).Some? && Serve !in ops
    ensures var h := HandlesAfter(ops).value;
      && References(h) == |h.inUse| + (if h.open then 1 else 0)
      && (CallerRight(h, op) ==> References(h) > 0)
  {
    NoServices(ops);
    var h := HandlesAfter(ops).value;
    if op.Destroy? && op.k in h.inUse {
      assert |h.inUse| > 0;
    }
  }

  lemma {:induction false} NoServices(ops: seq<Op>)
    requires HandlesAfter(ops).Some? && Serve !in ops
    ensures HandlesAfter(ops).value.services == 0
  {
    if ops != [] {
      NoServices(ops[..|ops| - 1]);
    }
  }

  lemma ServeThenDestroy()
    ensures var h := HandlesAfter([Serve, Destroy(0)]);
      h.Some? && h.value.open && References(h.value) == 0
  {
    assert [Serve, Destroy(0)][..1] == [Serve] && [Serve][..0] == [];
    var h := After(FIRST, Serve);
    assert HandlesAfter([Serve]) == Some(h) && h.inUse == {0};
    assert After(h, Destroy(0)).inUse == {};
  }

  /** One service made and destroyed under an open node frees the node. */
  method OneServiceFreesNode() returns (n: NodeData)
    ensures !n.count.live && HandlesAfter([Serve, Destroy(0)]).Some? && HandlesAfter([Serve, Destroy(0)]).value.open
  {
    hide CountedAs;
    ServeThenDestroy();
    var made;
    n, made := Lifetime([Serve, Destroy(0)]);
  }

  lemma NothingNamed(l: Ledger)
    requires l.open && l.holders == l.gone == {} && l.services == 0
    ensures Names(FIRST, [], l)
  {
  }

  lemma LegalNext(ops: seq<Op>, i: nat, h: Handles)
    requires HandlesAfter(ops).Some? && i < |ops| && HandlesAfter(ops[..i]) == Some(h)
    ensures CallerRight(h, ops[i]) && References(h) > 0 && HandlesAfter(ops[..i + 1]) == Some(After(h, ops[i]))
  {
    assert ops[..i + 1][..i] == ops[..i];
    PrefixLegal(ops, i + 1);
  }

  lemma {:induction false} PrefixLegal(ops: seq<Op>, i: nat)
    requires HandlesAfter(ops).Some? && i <= |ops|
    ensures HandlesAfter(ops[..i]).Some?
    decreases |ops| - i
  {
    if i == |ops| {
      assert ops[..i] == ops;
    } else {
      assert ops[..i + 1][..i] == ops[..i];
      PrefixLegal(ops, i + 1);
    }
  }

  lemma NamesWithNew(h: Handles, made: seq<Endpoint>, l: Ledger, x: Endpoint)
    requires Names(h, made, l) && x !in made && x !in l.holders
    ensures Names(After(h, Create), made + [x], l.(holders := l.holders + {x}, repr := l.repr + x.Own()))
    ensures Names(After(h, Serve), made + [x],
                  l.(holders := l.holders + {x}, services := l.services + 1, repr := l.repr + x.Own()))
  {
    FiledWithNew(made, h.inUse, l.holders, l.gone, x);
    assert h.made !in h.inUse;
    hide Endpoint.Own, Filed;
  }

  lemma FiledWithNew(made: seq<Endpoint>, inUse: set<nat>, holders: set<Endpoint>, gone: set<Endpoint>, x: Endpoint)
    requires Filed(made, inUse, holders, gone) && x !in made
    ensures Filed(made + [x], inUse + {|made|}, holders + {x}, gone)
  {
  }

  lemma NamesWithout(h: Handles, made: seq<Endpoint>, l: Ledger, k: nat)
    requires Names(h, made, l) && k in h.inUse
    ensures Names(After(h, Destroy(k)), made, l.(holders := l.holders - {made[k]}, gone := l.gone + {made[k]}))
  {
    FiledWithout(made, h.inUse, l.holders, l.gone, k);
    hide Filed;
  }

  lemma FiledWithout(made: seq<Endpoint>, inUse: set<nat>, holders: set<Endpoint>, gone: set<Endpoint>, k: nat)
    requires Filed(made, inUse, holders, gone) && k in inUse
    ensures Filed(made, inUse - {k}, holders - {made[k]}, gone + {made[k]}) && made[k] in holders
  {
  }
}
