/** A service client: it numbers its requests and queues the replies. */
module Client {
  import opened RecvMsgList
  import opened Service

  const INT64_MAX := 0x7FFF_FFFF_FFFF_FFFF

  /** What `rmw_send_request` reports and what it puts on the wire. */
  datatype Sent =
    | NotSerialized
    | NoAttachment(sequenceId: int)
    | Requested(sequenceId: int, carried: RequestId)

  class ClientData {
    const gid: Gid
    var sequenceNum: int
    const responseQueue: List

    ghost var repliesReceived: seq<Message>
    ghost var repliesTaken: seq<Message>

    ghost predicate Valid()
      reads this, responseQueue, responseQueue.items
    {
      && responseQueue.Valid()
      && 0 <= sequenceNum <= INT64_MAX
      && Distinct(repliesReceived)
      && repliesReceived == repliesTaken + responseQueue.items
    }

    constructor (gid: Gid)
      ensures Valid() && fresh(responseQueue)
      ensures this.gid == gid && sequenceNum == 0 && repliesReceived == []
    {
      this.gid, sequenceNum := gid, 0;
      responseQueue := new List();
      repliesReceived, repliesTaken := [], [];
    }

    /** `rmw_send_request`. The caller is told the number before the increment,
        the attachment carries the number after it. */
    method SendRequest(serialized: bool, attached: bool) returns (r: Sent)
      requires Valid() && sequenceNum < INT64_MAX
      modifies `sequenceNum
      ensures Valid()
      ensures !serialized ==> r == NotSerialized && sequenceNum == old(sequenceNum)
      ensures serialized ==>
        !r.NotSerialized? && r.sequenceId == old(sequenceNum) && sequenceNum == old(sequenceNum) + 1
      ensures serialized && !attached ==> r.NoAttachment?
      ensures serialized && attached ==> r.Requested? && r.carried == RequestId(gid, r.sequenceId + 1)
    {
      if !serialized {
        return NotSerialized;
      }
      var sequenceId := sequenceNum;
      sequenceNum := sequenceNum + 1;
      if !attached {
        return NoAttachment(sequenceId);
      }
      return Requested(sequenceId, RequestId(gid, sequenceNum));
    }

    /** `add_new_replay_message`. */
    method AddNewReplyMessage(m: Message)
      requires Valid() && m !in repliesReceived
      modifies `repliesReceived, responseQueue, responseQueue.items, m
      ensures Valid() && repliesReceived == old(repliesReceived) + [m] && repliesTaken == old(repliesTaken)
      ensures responseQueue.items == old(responseQueue.items) + [m]
    {
      responseQueue.Append(m);
      repliesReceived := repliesReceived + [m];
    }

    /** `rmw_take_response`: replies come out in arrival order. One that does
        not deserialise is lost. */
    method TakeResponse(deserialized: bool) returns (ret: RmwRet, taken: bool, ghost reply: Message?)
      requires Valid()
      modifies `repliesTaken, responseQueue, responseQueue.items
      ensures Valid() && repliesReceived == old(repliesReceived)
      ensures old(responseQueue.items) == [] ==>
        && ret == RMW_RET_ERROR && !taken && reply == null
        && repliesTaken == old(repliesTaken) && responseQueue.items == []
      ensures old(responseQueue.items) != [] ==>
        && reply == old(responseQueue.items)[0] && responseQueue.items == old(responseQueue.items)[1..]
        && repliesTaken == old(repliesTaken) + [reply]
        && taken == deserialized && ret == if deserialized then RMW_RET_OK else RMW_RET_ERROR
    {
      taken := false;
      var m := responseQueue.Pop();
      reply := m;
      if m == null {
        return RMW_RET_ERROR, taken, reply;
      }
      repliesTaken := repliesTaken + [m];
      taken := deserialized;
      ret := if deserialized then RMW_RET_OK else RMW_RET_ERROR;
    }
  }
}
