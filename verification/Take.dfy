/** Taking messages from a subscription's queue, one or many at a time. */
module Take {
  import opened RecvMsgList

  datatype RmwRet = RMW_RET_OK | RMW_RET_ERROR | RMW_RET_INVALID_ARGUMENT

  const UINT_MAX := 0xFFFF_FFFF

  /** How many messages at the front deserialise, up to `count`. */
  function Deliverable(items: seq<Message>, readable: Message -> bool, count: nat): (n: nat)
    ensures n <= count && n <= |items|
    ensures forall i :: 0 <= i < n ==> readable(items[i])
    ensures n < count && n < |items| ==> !readable(items[n])
  {
    if count == 0 || items == [] || !readable(items[0]) then 0
    else
      var n := Deliverable(items[1..], readable, count - 1);
      assert forall i :: 0 < i <= n ==> items[i] == items[1..][i - 1];
      1 + n
  }

  /** The contract of `Deliverable` leaves one number. */
  lemma DeliverableIs(items: seq<Message>, readable: Message -> bool, count: nat, n: nat)
    requires n <= count && n <= |items|
    requires forall i :: 0 <= i < n ==> readable(items[i])
    requires n < count && n < |items| ==> !readable(items[n])
    ensures n == Deliverable(items, readable, count)
  {
    var d := Deliverable(items, readable, count);
  }

  /** `rmw_zenoh_pico_take_one`. */
  method TakeOne(queue: List, readable: Message -> bool) returns (ret: RmwRet, taken: bool, m: Message?)
    requires queue.Valid()
    modifies queue, queue.top
    ensures queue.Valid()
    ensures old(queue.items) == [] ==> ret == RMW_RET_ERROR && !taken && queue.items == []
    ensures old(queue.items) != [] ==>
      && m == old(queue.items)[0] && queue.items == old(queue.items)[1..]
      && taken == readable(m) && ret == if taken then RMW_RET_OK else RMW_RET_ERROR
  {
    m := queue.Pop();
    if m == null {
      return RMW_RET_ERROR, false, null;
    }
    taken := readable(m);
    ret := if taken then RMW_RET_OK else RMW_RET_ERROR;
  }

  /** `rmw_take_sequence`. It succeeds exactly when it fills the whole request;
      a queue that runs out is an error too. A message that does not deserialise
      is gone. */
  method TakeSequence(queue: List, readable: Message -> bool, count: nat, slots: array<Message?>, infoCapacity: nat)
    returns (ret: RmwRet, taken: nat)
    requires queue.Valid()
    modifies queue, queue.items, slots
    ensures queue.Valid()
    ensures forall i :: taken <= i < slots.Length ==> slots[i] == old(slots[i])
    ensures count == 0 || count > slots.Length || count > infoCapacity ==>
      ret == RMW_RET_INVALID_ARGUMENT && queue.items == old(queue.items)
    ensures 0 < count <= slots.Length && count <= infoCapacity && count > UINT_MAX ==>
      ret == RMW_RET_ERROR && queue.items == old(queue.items)
    ensures 0 < count <= slots.Length && count <= infoCapacity && count <= UINT_MAX ==>
      && taken == Deliverable(old(queue.items), readable, count)
      && slots[..taken] == old(queue.items)[..taken]
      && ret == (if taken == count then RMW_RET_OK else RMW_RET_ERROR)
      && queue.items == old(queue.items)[if taken < count && taken < |old(queue.items)| then taken + 1 else taken..]
  {
    taken := 0;
    if count == 0 || count > slots.Length || count > infoCapacity {
      return RMW_RET_INVALID_ARGUMENT, 0;
    }
    if count > UINT_MAX {
      return RMW_RET_ERROR, 0;
    }
    ret, taken := FillSlots(queue, readable, count, slots);
  }

  method FillSlots(queue: List, readable: Message -> bool, count: nat, slots: array<Message?>)
    returns (ret: RmwRet, taken: nat)
    requires queue.Valid() && 0 < count <= slots.Length
    modifies queue, queue.items, slots
    ensures queue.Valid()
    ensures forall i :: taken <= i < slots.Length ==> slots[i] == old(slots[i])
    ensures taken == Deliverable(old(queue.items), readable, count)
    ensures slots[..taken] == old(queue.items)[..taken]
    ensures ret == if taken == count then RMW_RET_OK else RMW_RET_ERROR
    ensures queue.items == old(queue.items)[if taken < count && taken < |old(queue.items)| then taken + 1 else taken..]
  {
    hide Deliverable;
    ret, taken := RMW_RET_ERROR, 0;
    ghost var was := queue.items;
    while taken < count
      invariant 0 <= taken <= count && taken <= |was|
      invariant queue.Valid() && queue.items == was[taken..]
      invariant slots[..taken] == was[..taken]
      invariant forall i :: taken <= i < slots.Length ==> slots[i] == old(slots[i])
      invariant forall i :: 0 <= i < taken ==> readable(was[i])
      invariant taken > 0 ==> ret == RMW_RET_OK
    {
      var one, m;
      ret, one, m := TakeOne(queue, readable);
      if ret != RMW_RET_OK || !one {
        break;
      }
      slots[taken] := m;
      taken := taken + 1;
    }
    DeliverableIs(was, readable, count, taken);
  }
}
