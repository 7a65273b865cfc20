/** The counts of the wait protocol are the lengths of the linked queues. */
module WaitQueues {
  import opened RecvMsgList
  import opened WaitProtocol

  /** The queue of entity e is where the state says. */
  ghost predicate QueueAt(q: List, s: State, e: nat)
    reads q, q.items
  {
    q.Valid() && IsQueue(s, e) && s.entities[e].count == |q.items|
  }

  /** A callback appends. */
  method AppendStep(q: List, m: Message, ghost s: State, ghost p: nat)
    requires p < |s.jobs| && s.jobs[p].InQueue? && QueueAt(q, s, s.jobs[p].e) && m !in q.items
    modifies q, q.items, m
    ensures q.items == old(q.items) + [m] && QueueAt(q, WorkStep(s, p), s.jobs[p].e)
  {
    q.Append(m);
  }

  /** A take pops, if there is something. */
  method PopStep(q: List, ghost s: State, ghost p: nat) returns (m: Message?)
    requires p < |s.jobs| && s.jobs[p].Taking? && QueueAt(q, s, s.jobs[p].e)
    modifies q, q.items
    ensures QueueAt(q, WorkStep(s, p), s.jobs[p].e)
    ensures m == null <==> s.entities[s.jobs[p].e].count == 0
    ensures m != null ==> old(q.items) == [m] + q.items
  {
    m := q.Pop();
  }

  /** The wait looks before it attaches, and before it leaves a slot. */
  method ProbeStep(q: List, ghost s: State) returns (empty: bool)
    requires (s.call.AttachCount? || s.call.DetachCount?) && InList(s, s.call.i)
    requires QueueAt(q, s, s.listed[s.call.i].e)
    ensures s.call.AttachCount? ==> AttachStep(s).call == AttachWrite(s.call.i, empty)
    ensures s.call.DetachCount? ==>
      DetachStep(s).call == DetachLeave(s.call.i, |q.items|) && (empty <==> |q.items| == 0)
  {
    empty := q.Empty();
  }
}
