/** A service moves every query from its request queue to its response queue
    and finds it again by (gid, sequence number) when the answer is sent. */
module Service {
  import opened RecvMsgList

  /** `rmw_request_id_t`. */
  datatype RequestId = RequestId(writerGuid: Gid, sequenceNumber: int)

  datatype RmwRet = RMW_RET_OK | RMW_RET_ERROR

  /** How the service's part in a query ended. */
  datatype Outcome =
    | Replied(accepted: bool)
    | Dropped
    | Leaked

  /** What `rmw_send_response` does. Its null check reports an error but does
      not return, so an unmatched id goes on to dereference null. */
  datatype SendResult = Returned(ret: RmwRet) | NullDereference

  /** `rmw_zneoh_fill_request_header`, the part that identifies the request. */
  function IdOf(m: Message): RequestId { RequestId(m.gid, m.sequenceNum) }

  /** `_compare_responce_msg`. */
  predicate CompareResponse(m: Message, id: RequestId) {
    m.gid == id.writerGuid && m.sequenceNum == id.sequenceNumber
  }

  function Matcher(id: RequestId): Message -> bool { (m: Message) => CompareResponse(m, id) }

  class ServiceData {
    const requestQueue: List
    const responseQueue: List

    ghost var received: seq<Message>
    ghost var taken: seq<Message>
    ghost var inHand: set<Message>
    ghost var outcome: map<Message, Outcome>
    ghost var replies: seq<Message>

    ghost predicate Valid()
      reads this, requestQueue, responseQueue, requestQueue.items, responseQueue.items
    {
      && requestQueue != responseQueue
      && requestQueue.Valid() && responseQueue.Valid()
      && Distinct(received)
      // requests are taken in arrival order
      && received == taken + requestQueue.items
      && Placed(responseQueue.items)
      // no query is answered twice
      && Distinct(replies)
      && (forall m :: m in replies ==> m in outcome && outcome[m].Replied?)
      && (forall m :: m in outcome && outcome[m].Replied? ==> m in replies)
    }

    /** A taken query waits for its answer, is in the hands of a call that has
        taken it off one queue and not yet finished with it, or has been disposed
        of: one of the three. */
    ghost predicate Placed(waiting: seq<Message>)
      reads this
    {
      && (forall m :: m in taken ==> m in waiting || m in inHand || m in outcome)
      && (forall m :: m in waiting ==> m in taken && m !in inHand && m !in outcome)
      && (forall m :: m in inHand ==> m in taken && m !in outcome)
      && (forall m :: m in outcome ==> m in taken)
    }

    constructor ()
      ensures Valid() && received == [] && inHand == {}
      ensures fresh(requestQueue) && fresh(responseQueue)
      ensures requestQueue.items == responseQueue.items == []
    {
      requestQueue := new List();
      responseQueue := new List();
      received, taken, inHand, outcome, replies := [], [], {}, map[], [];
    }

    /** Every received query is in exactly one place. */
    lemma ExactlyOnePlace(m: Message)
      requires Valid()
      ensures m in received <==> m in requestQueue.items || m in responseQueue.items || m in inHand || m in outcome
      ensures m in requestQueue.items ==> m !in responseQueue.items && m !in inHand && m !in outcome
      ensures m in responseQueue.items ==> m !in inHand && m !in outcome
      ensures m in inHand ==> m !in outcome
    {
      DisjointParts(taken, requestQueue.items);
    }

    lemma QueuesApart()
      requires Valid()
      ensures forall m: Message :: m in requestQueue.items ==> m !in responseQueue.items && m !in taken
      ensures forall i, j :: 0 <= i < |requestQueue.items| && 0 <= j < |responseQueue.items| ==>
        requestQueue.items[i] != responseQueue.items[j]
      ensures forall m: Message :: m in responseQueue.items ==> m in received
    {
      DisjointParts(taken, requestQueue.items);
      forall j | 0 <= j < |responseQueue.items| ensures responseQueue.items[j] !in requestQueue.items {
        assert responseQueue.items[j] in taken;
      }
    }

    /** `add_new_request_message`. */
    method AddNewRequestMessage(m: Message)
      requires Valid() && m !in received
      modifies this, requestQueue, requestQueue.items, m
      ensures Valid() && received == old(received) + [m]
      ensures requestQueue.items == old(requestQueue.items) + [m]
      ensures taken == old(taken) && inHand == old(inHand) && outcome == old(outcome) && replies == old(replies)
      ensures responseQueue.items == old(responseQueue.items)
    {
      QueuesApart();
      requestQueue.Append(m);
      assert forall i :: 0 <= i < |responseQueue.items| ==>
        responseQueue.items[i].next == old(responseQueue.items[i].next);
      received := received + [m];
    }

    /** `rmw_take_request`. The query moves on even when its payload does not
        deserialise; the id is then left as it was. */
    method TakeRequest(deserialized: bool, was: RequestId) returns (ret: RmwRet, took: bool, id: RequestId)
      requires Valid()
      modifies this, requestQueue, responseQueue, requestQueue.items, responseQueue.items
      ensures Valid() && received == old(received) && inHand == old(inHand)
      ensures outcome == old(outcome) && replies == old(replies)
      ensures old(requestQueue.items) == [] ==>
        && ret == RMW_RET_ERROR && taken == old(taken)
        && requestQueue.items == [] && responseQueue.items == old(responseQueue.items)
      ensures old(requestQueue.items) != [] ==>
        var m := old(requestQueue.items)[0];
        && ret == RMW_RET_OK && took == deserialized
        && (if deserialized then id.writerGuid == m.gid && id.sequenceNumber == m.sequenceNum else id == was)
        && taken == old(taken) + [m]
        && requestQueue.items == old(requestQueue.items)[1..]
        && responseQueue.items == old(responseQueue.items) + [m]
    {
      hide Valid;
      took, id := false, was;
      var m := PopRequest();
      if m == null {
        return RMW_RET_ERROR, took, id;
      }
      took := deserialized;
      if deserialized {
        id := IdOf(m);
      }
      QueueResponse(m);
      return RMW_RET_OK, took, id;
    }

    /** The first half of a take: the oldest request is in the caller's hands. */
    method PopRequest() returns (m: Message?)
      requires Valid()
      modifies `taken, `inHand, requestQueue, requestQueue.items
      ensures Valid() && responseQueue.items == old(responseQueue.items)
      ensures m !in old(inHand)
      ensures old(requestQueue.items) == [] ==>
        m == null && taken == old(taken) && inHand == old(inHand) && requestQueue.items == []
      ensures old(requestQueue.items) != [] ==>
        && m == old(requestQueue.items)[0] && requestQueue.items == old(requestQueue.items)[1..]
        && taken == old(taken) + [m] && inHand == old(inHand) + {m}
    {
      QueuesApart();
      m := requestQueue.Pop();
      assert forall i :: 0 <= i < |responseQueue.items| ==>
        responseQueue.items[i].next == old(responseQueue.items[i].next);
      if m != null {
        ExactlyOnePlaceBefore(old(taken), old(requestQueue.items), m);
        taken := taken + [m];
        inHand := inHand + {m};
      }
    }

    lemma ExactlyOnePlaceBefore(taken: seq<Message>, queue: seq<Message>, m: Message)
      requires Distinct(taken + queue) && m in queue
      ensures m !in taken
    {
      DisjointParts(taken, queue);
    }

    /** The second half. */
    method QueueResponse(m: Message)
      requires Valid() && m in inHand
      modifies `inHand, responseQueue, responseQueue.items, m
      ensures Valid() && requestQueue.items == old(requestQueue.items)
      ensures responseQueue.items == old(responseQueue.items) + [m] && inHand == old(inHand) - {m}
    {
      QueuesApart();
      responseQueue.Append(m);
      assert forall i :: 0 <= i < |requestQueue.items| ==>
        requestQueue.items[i].next == old(requestQueue.items[i].next);
      inHand := inHand - {m};
    }

    /** `rmw_send_response`. */
    method SendResponse(id: RequestId, serialized: bool, attached: bool, accepted: bool)
      returns (result: SendResult, ghost answered: Message?)
      requires Valid()
      modifies this, responseQueue, responseQueue.items
      ensures Valid() && received == old(received) && taken == old(taken) && inHand == old(inHand)
      ensures requestQueue.items == old(requestQueue.items)
      ensures var k := FirstMatch(old(responseQueue.items), Matcher(id));
        if k == |old(responseQueue.items)| then
          && result == (if serialized then NullDereference else Returned(RMW_RET_ERROR))
          && answered == null
          && responseQueue.items == old(responseQueue.items)
          && outcome == old(outcome) && replies == old(replies)
        else
          var m := old(responseQueue.items)[k];
          && IdOf(m) == id && m !in old(outcome)
          && answered == m
          && responseQueue.items == Without(old(responseQueue.items), k)
          && outcome
             == old(outcome)[m := if !serialized then Dropped else if !attached then Leaked else Replied(accepted)]
          && replies == old(replies) + (if serialized && attached then [m] else [])
          && result == Returned(if serialized && attached && accepted then RMW_RET_OK else RMW_RET_ERROR)
    {
      hide Valid;
      var m := PickResponse(id);
      answered := m;
      if m == null {
        return if serialized then NullDereference else Returned(RMW_RET_ERROR), null;
      }
      if !serialized {
        Dispose(m, Dropped);
        return Returned(RMW_RET_ERROR), m;
      }
      if !attached {
        Dispose(m, Leaked);
        return Returned(RMW_RET_ERROR), m;
      }
      Dispose(m, Replied(accepted));
      return Returned(if accepted then RMW_RET_OK else RMW_RET_ERROR), m;
    }

    /** A matching query leaves the response queue for the caller's hands. */
    method PickResponse(id: RequestId) returns (m: Message?)
      requires Valid()
      modifies `inHand, responseQueue, responseQueue.items
      ensures Valid() && requestQueue.items == old(requestQueue.items)
      ensures m !in old(inHand)
      ensures var k := FirstMatch(old(responseQueue.items), Matcher(id));
        if k == |old(responseQueue.items)|
        then m == null && responseQueue.items == old(responseQueue.items) && inHand == old(inHand)
        else m == old(responseQueue.items)[k] && IdOf(m) == id && inHand == old(inHand) + {m}
             && responseQueue.items == Without(old(responseQueue.items), k)
    {
      QueuesApart();
      ghost var k := FirstMatch(responseQueue.items, Matcher(id));
      ghost var before := responseQueue.items;
      m := responseQueue.Pickup(Matcher(id));
      assert forall i :: 0 <= i < |requestQueue.items| ==>
        requestQueue.items[i].next == old(requestQueue.items[i].next);
      if m != null {
        WithoutMembers(before, k);
        inHand := inHand + {m};
      }
    }

    /** The call is done with the query. */
    ghost method Dispose(m: Message, how: Outcome)
      requires Valid() && m in inHand
      modifies `inHand, `outcome, `replies
      ensures Valid() && inHand == old(inHand) - {m}
      ensures m !in old(outcome) && outcome == old(outcome)[m := how]
      ensures replies == old(replies) + if how.Replied? then [m] else []
    {
      hide List.Valid;
      assert m !in replies;
      inHand := inHand - {m};
      outcome := outcome[m := how];
      if how.Replied? {
        replies := replies + [m];
      }
    }
  }

  /** A second answer to a request finds no query waiting for it. */
  method AnswerTwice(gid: Gid, sequenceNum: int) returns (first: SendResult, second: SendResult)
    ensures first == Returned(RMW_RET_OK) && second == NullDereference
  {
    hide ServiceData.Valid, FirstMatch, List.Valid;
    var service := new ServiceData();
    var query := new Message(gid, sequenceNum);
    service.AddNewRequestMessage(query);
    var ret, took, id := service.TakeRequest(true, RequestId(gid, sequenceNum));
    ghost var answered: Message?;
    FirstMatchIs([query], Matcher(id), 0);
    first, answered := service.SendResponse(id, true, true, true);
    FirstMatchIs<Message>([], Matcher(id), 0);
    second, answered := service.SendResponse(id, true, true, true);
  }

  lemma DisjointParts<T>(s: seq<T>, t: seq<T>)
    requires Distinct(s + t)
    ensures forall x :: x in s ==> x !in t
  {
    forall i, j | 0 <= i < |s| && 0 <= j < |t| ensures s[i] != t[j] {
      assert (s + t)[i] == s[i] && (s + t)[|s| + j] == t[j];
    }
  }

  lemma WithoutMembers<T>(s: seq<T>, k: nat)
    requires k < |s| && Distinct(s)
    ensures forall x :: x in Without(s, k) <==> x in s && x != s[k]
  {
    forall x | x in s && x != s[k] ensures x in Without(s, k) {
      var i :| 0 <= i < |s| && s[i] == x;
      assert Without(s, k)[if i < k then i else i - 1] == x;
    }
  }

  /** The id of a taken query finds a match for as long as the query waits; the
      match is that very query exactly when no query taken before it and still
      waiting has the same id. */
  lemma TakenIdFindsQuery(waiting: seq<Message>, i: nat)
    requires i < |waiting|
    ensures var k := FirstMatch(waiting, Matcher(IdOf(waiting[i])));
      && k <= i
      && waiting[k].gid == waiting[i].gid && waiting[k].sequenceNum == waiting[i].sequenceNum
      && (k == i <==> forall j :: 0 <= j < i ==>
            waiting[j].gid != waiting[i].gid || waiting[j].sequenceNum != waiting[i].sequenceNum)
  {
    var f := Matcher(IdOf(waiting[i]));
    var k := FirstMatch(waiting, f);
    assert f(waiting[i]);
    assert f(waiting[k]);
    forall j | 0 <= j < k
      ensures waiting[j].gid != waiting[i].gid || waiting[j].sequenceNum != waiting[i].sequenceNum
    {
      assert !f(waiting[j]);
    }
  }
}
