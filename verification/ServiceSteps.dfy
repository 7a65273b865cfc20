/** The methods of a service and of its clients make the steps of the
    request-reply state machine. */
module ServiceSteps {
  import opened RecvMsgList
  import opened Service
  import opened Client
  import opened RequestReply

  /** A queue of messages stands for a queue of queries or answers. */
  ghost predicate StandsFor<T>(names: map<Message, T>, items: seq<Message>, values: seq<T>) {
    |items| == |values| && forall i :: 0 <= i < |items| ==> items[i] in names && names[items[i]] == values[i]
  }

  lemma StandsForMore<T>(names: map<Message, T>, items: seq<Message>, values: seq<T>, m: Message, value: T)
    requires StandsFor(names, items, values) && m in names && names[m] == value
    ensures StandsFor(names, items + [m], values + [value])
  {
  }

  lemma StandsForLess<T>(names: map<Message, T>, items: seq<Message>, values: seq<T>, k: nat)
    requires StandsFor(names, items, values) && k < |items|
    ensures StandsFor(names, Without(items, k), Without(values, k))
  {
  }

  lemma StandsForAfterNaming<T>(names: map<Message, T>, items: seq<Message>, values: seq<T>, m: Message, value: T)
    requires StandsFor(names, items, values) && m !in items
    ensures StandsFor(names[m := value], items, values)
  {
  }

  /* The service */

  /** Which query each message stands for, and the messages in the hands of a
      take or of an answer, in the order in which they left their queue. */
  datatype Link = Link(names: map<Message, Query>, taking: seq<Message>, picked: seq<Message>)

  ghost predicate Mirrors(l: Link, requests: seq<Message>, responses: seq<Message>, s: State) {
    && (forall m :: m in l.names ==> l.names[m].id == IdOf(m))
    && StandsFor(l.names, requests, s.requests)
    && StandsFor(l.names, l.taking, s.taking)
    && StandsFor(l.names, responses, s.responses)
    && StandsFor(l.names, l.picked, Tos(s.picked))
  }

  ghost predicate InHands(l: Link, inHand: set<Message>) {
    multiset(l.taking) + multiset(l.picked) == multiset(inHand)
  }

  /** The service is where the state says. */
  ghost predicate ServiceAt(d: ServiceData, l: Link, s: State)
    reads d, d.requestQueue, d.responseQueue, d.requestQueue.items, d.responseQueue.items
  {
    d.Valid() && Mirrors(l, d.requestQueue.items, d.responseQueue.items, s) && InHands(l, d.inHand)
  }

  /** Both look for the same query. */
  lemma SameMatch(names: map<Message, Query>, items: seq<Message>, queries: seq<Query>, id: RequestId)
    requires StandsFor(names, items, queries) && forall m :: m in names ==> names[m].id == IdOf(m)
    ensures FirstMatch(items, Matcher(id)) == FirstMatch(queries, Matches(id))
  {
    var k := FirstMatch(items, Matcher(id));
    forall i | 0 <= i < |items| ensures Matcher(id)(items[i]) <==> Matches(id)(queries[i]) {
      assert queries[i].id == IdOf(items[i]);
    }
    FirstMatchIs(queries, Matches(id), k);
  }

  lemma TosMore(answers: seq<Answer>, r: Answer)
    ensures Tos(answers + [r]) == Tos(answers) + [r.to] && |Tos(answers)| == |answers|
  {
  }

  lemma TosLess(answers: seq<Answer>, k: nat)
    requires k < |answers|
    ensures Tos(Without(answers, k)) == Without(Tos(answers), k)
  {
  }

  lemma MirrorsDelivery(l: Link, requests: seq<Message>, responses: seq<Message>, gids: seq<Gid>, s: State, m: Message,
                        k: nat)
    requires Mirrors(l, requests, responses, s) && k < |s.wire| && s.wire[k].id == IdOf(m)
    requires m !in requests && m !in responses && m !in l.taking && m !in l.picked
    ensures Mirrors(l.(names := l.names[m := s.wire[k]]), requests + [m], responses, Step(gids, s, Deliver(k)))
  {
    hide Without, Tos;
    var q := s.wire[k];
    StandsForAfterNaming(l.names, requests, s.requests, m, q);
    StandsForAfterNaming(l.names, l.taking, s.taking, m, q);
    StandsForAfterNaming(l.names, responses, s.responses, m, q);
    StandsForAfterNaming(l.names, l.picked, Tos(s.picked), m, q);
    StandsForMore(l.names[m := q], requests, s.requests, m, q);
    hide StandsFor;
  }

  lemma MirrorsPop(l: Link, requests: seq<Message>, responses: seq<Message>, gids: seq<Gid>, s: State)
    requires Mirrors(l, requests, responses, s) && requests != []
    ensures s.requests != []
    ensures Mirrors(l.(taking := l.taking + [requests[0]]), requests[1..], responses, Step(gids, s, Pop))
  {
    hide Tos;
    StandsForMore(l.names, l.taking, s.taking, requests[0], s.requests[0]);
  }

  lemma MirrorsHand(l: Link, requests: seq<Message>, responses: seq<Message>, gids: seq<Gid>, s: State, k: nat,
                    read: bool)
    requires Mirrors(l, requests, responses, s) && k < |l.taking|
    ensures k < |s.taking|
    ensures var t := Step(gids, s, Hand(k, read));
      Mirrors(l.(taking := Without(l.taking, k)), requests, responses + [l.taking[k]], t)
  {
    hide Tos, Without;
    StandsForLess(l.names, l.taking, s.taking, k);
    StandsForMore(l.names, responses, s.responses, l.taking[k], s.taking[k]);
  }

  lemma PickFinds(l: Link, requests: seq<Message>, responses: seq<Message>, gids: seq<Gid>, s: State, about: Query)
    requires Mirrors(l, requests, responses, s) && about in s.handed
    ensures FirstMatch(responses, Matcher(about.id)) == FirstMatch(s.responses, Matches(about.id))
    ensures FirstMatch(responses, Matcher(about.id)) < |responses| <==> Enabled(gids, s, Pick(about))
  {
    hide Tos, FirstMatch;
    SameMatch(l.names, responses, s.responses, about.id);
  }

  lemma MirrorsPick(l: Link, requests: seq<Message>, responses: seq<Message>, gids: seq<Gid>, s: State, about: Query)
    requires Mirrors(l, requests, responses, s) && Enabled(gids, s, Pick(about))
    ensures |l.picked| == |s.picked| && |Step(gids, s, Pick(about)).picked| == |s.picked| + 1
    ensures var k := FirstMatch(responses, Matcher(about.id));
      && k < |responses|
      && Mirrors(l.(picked := l.picked + [responses[k]]), requests, Without(responses, k), Step(gids, s, Pick(about)))
  {
    hide Tos, Without, FirstMatch;
    PickFinds(l, requests, responses, gids, s, about);
    var k := FirstMatch(responses, Matcher(about.id));
    var q := s.responses[k];
    StandsForLess(l.names, responses, s.responses, k);
    StandsForMore(l.names, l.picked, Tos(s.picked), responses[k], q);
    hide StandsFor;
    TosMore(s.picked, Answer(q, q.id, about));
  }

  lemma MirrorsReply(l: Link, requests: seq<Message>, responses: seq<Message>, gids: seq<Gid>, s: State, k: nat,
                     replied: bool)
    requires Mirrors(l, requests, responses, s) && k < |l.picked|
    ensures k < |s.picked| && l.picked[k] in l.names && s.picked[k].to == l.names[l.picked[k]]
    ensures Mirrors(l.(picked := Without(l.picked, k)), requests, responses, Step(gids, s, Reply(k, replied)))
  {
    hide Without;
    StandsForLess(l.names, l.picked, Tos(s.picked), k);
    TosLess(s.picked, k);
  }

  /** The clients and the network change nothing in the service. */
  lemma OthersLeaveService(l: Link, requests: seq<Message>, responses: seq<Message>, gids: seq<Gid>, s: State, e: Event)
    requires Mirrors(l, requests, responses, s) && Enabled(gids, s, e)
    requires e.Send? || e.Lose? || e.DeliverReply? || e.LoseReply? || e.TakeReply?
    ensures Mirrors(l, requests, responses, Step(gids, s, e))
  {
    hide Without, FirstMatch, Tos, StandsFor, Issue;
  }

  lemma MoreInHand(inHand: set<Message>, m: Message)
    requires m !in inHand
    ensures multiset(inHand + {m}) == multiset(inHand) + multiset{m}
  {
  }

  lemma LessInHand(items: seq<Message>, k: nat, inHand: set<Message>, rest: multiset<Message>)
    requires k < |items| && multiset(items) + rest == multiset(inHand)
    ensures items[k] in inHand && multiset(Without(items, k)) + rest == multiset(inHand - {items[k]})
  {
    assert items == items[..k] + [items[k]] + items[k + 1..];
    assert items[k] in multiset(items);
    assert items[k] in multiset(inHand);
    assert multiset(inHand - {items[k]}) == multiset(inHand) - multiset{items[k]};
  }

  lemma AllReceived(d: ServiceData, l: Link, s: State)
    requires ServiceAt(d, l, s)
    ensures forall m :: m in d.requestQueue.items || m in d.responseQueue.items || m in l.taking || m in l.picked ==>
      m in d.received
  {
    hide Mirrors;
    forall m | m in l.taking || m in l.picked ensures m in d.received {
      assert m in multiset(l.taking) + multiset(l.picked);
      assert m in multiset(d.inHand);
    }
  }

  /** A query arrives. */
  method DeliverStep(d: ServiceData, m: Message, ghost gids: seq<Gid>, ghost s: State, ghost l: Link, ghost k: nat)
    requires ServiceAt(d, l, s) && k < |s.wire| && s.wire[k].id == IdOf(m) && m !in d.received
    modifies d, d.requestQueue, d.requestQueue.items, m
    ensures ServiceAt(d, l.(names := l.names[m := s.wire[k]]), Step(gids, s, Deliver(k)))
  {
    hide Mirrors, Step, ServiceData.Valid;
    AllReceived(d, l, s);
    MirrorsDelivery(l, d.requestQueue.items, d.responseQueue.items, gids, s, m, k);
    d.AddNewRequestMessage(m);
  }

  /** The first half of a take. */
  method PopStep(d: ServiceData, ghost gids: seq<Gid>, ghost s: State, ghost l: Link) returns (m: Message?)
    requires ServiceAt(d, l, s)
    modifies d`taken, d`inHand, d.requestQueue, d.requestQueue.items
    ensures m == null <==> !Enabled(gids, s, Pop)
    ensures m == null ==> ServiceAt(d, l, s)
    ensures m != null ==> ServiceAt(d, l.(taking := l.taking + [m]), Step(gids, s, Pop))
  {
    hide Mirrors, Step, ServiceData.Valid;
    PopEnabled(l, d.requestQueue.items, d.responseQueue.items, gids, s);
    if d.requestQueue.items != [] {
      MirrorsPop(l, d.requestQueue.items, d.responseQueue.items, gids, s);
    }
    ghost var was := d.inHand;
    m := d.PopRequest();
    if m != null {
      MoreInHand(was, m);
    }
  }

  lemma PopEnabled(l: Link, requests: seq<Message>, responses: seq<Message>, gids: seq<Gid>, s: State)
    requires Mirrors(l, requests, responses, s)
    ensures requests == [] <==> !Enabled(gids, s, Pop)
  {
  }

  /** The second half. */
  method HandStep(d: ServiceData, m: Message, ghost gids: seq<Gid>, ghost s: State, ghost l: Link, ghost k: nat,
                  ghost read: bool)
    requires ServiceAt(d, l, s) && k < |l.taking| && l.taking[k] == m
    modifies d`inHand, d.responseQueue, d.responseQueue.items, m
    ensures k < |s.taking| && ServiceAt(d, l.(taking := Without(l.taking, k)), Step(gids, s, Hand(k, read)))
  {
    hide Mirrors, Step, ServiceData.Valid, Without;
    LessInHand(l.taking, k, d.inHand, multiset(l.picked));
    MirrorsHand(l, d.requestQueue.items, d.responseQueue.items, gids, s, k, read);
    d.QueueResponse(m);
  }

  /** A query is picked up to be answered. */
  method PickStep(d: ServiceData, about: Query, ghost gids: seq<Gid>, ghost s: State, ghost l: Link)
    returns (m: Message?)
    requires ServiceAt(d, l, s) && about in s.handed
    modifies d`inHand, d.responseQueue, d.responseQueue.items
    ensures m == null <==> !Enabled(gids, s, Pick(about))
    ensures m == null ==> ServiceAt(d, l, s)
    ensures m != null ==> ServiceAt(d, l.(picked := l.picked + [m]), Step(gids, s, Pick(about)))
  {
    hide Mirrors, Step, ServiceData.Valid, Without, FirstMatch;
    ghost var was := d.inHand;
    PickFinds(l, d.requestQueue.items, d.responseQueue.items, gids, s, about);
    if Enabled(gids, s, Pick(about)) {
      MirrorsPick(l, d.requestQueue.items, d.responseQueue.items, gids, s, about);
    }
    m := d.PickResponse(about.id);
    if m != null {
      MoreInHand(was, m);
    }
  }

  /** A reply that is accepted is put on the network, and is not lost; one that
      is not is lost. */
  predicate Travels(s: State, t: State, r: Answer, accepted: bool) {
    && t.network == (if accepted then s.network + [r] else s.network)
    && t.lost == (if accepted then s.lost else s.lost + [r.to])
  }

  lemma ReplyTravels(gids: seq<Gid>, s: State, k: nat, replied: bool)
    requires k < |s.picked|
    ensures Travels(s, Step(gids, s, Reply(k, replied)), s.picked[k], replied)
  {
    hide Without;
  }

  /** The call that has picked it up is done with it. */
  ghost method ReplyStep(d: ServiceData, m: Message, how: Outcome, gids: seq<Gid>, s: State, l: Link, k: nat)
    requires ServiceAt(d, l, s) && k < |l.picked| && l.picked[k] == m
    modifies d`inHand, d`outcome, d`replies
    ensures k < |s.picked|
    ensures ServiceAt(d, l.(picked := Without(l.picked, k)), Step(gids, s, Reply(k, how == Replied(true))))
    ensures m in l.names && s.picked[k].to == l.names[m]
    ensures Travels(s, Step(gids, s, Reply(k, how == Replied(true))), s.picked[k], how == Replied(true))
    ensures how == Replied(true) ==> m in d.replies
  {
    ReplyTravels(gids, s, k, how == Replied(true));
    hide Mirrors, Step, ServiceData.Valid, Without, Travels;
    LessInHand(l.picked, k, d.inHand, multiset(l.taking));
    MirrorsReply(l, d.requestQueue.items, d.responseQueue.items, gids, s, k, how == Replied(true));
    d.Dispose(m, how);
  }

  /** A whole take in one go, and the id it hands out. */
  method TakeRequestSteps(d: ServiceData, deserialized: bool, was: RequestId, ghost gids: seq<Gid>, ghost s: State,
                          ghost l: Link)
    returns (ret: RmwRet, took: bool, id: RequestId)
    requires ServiceAt(d, l, s)
    modifies d, d.requestQueue, d.responseQueue, d.requestQueue.items, d.responseQueue.items
    ensures ret == RMW_RET_OK <==> Enabled(gids, s, Pop)
    ensures ret == RMW_RET_ERROR ==> ServiceAt(d, l, s)
    ensures ret == RMW_RET_OK ==>
      var t := Step(gids, s, Pop);
      && Enabled(gids, t, Hand(|s.taking|, deserialized))
      && var u := Step(gids, t, Hand(|s.taking|, deserialized));
         ServiceAt(d, l, u) && (deserialized ==> took && u.handed != [] && id == u.handed[|u.handed| - 1].id)
  {
    hide Mirrors, Step, ServiceData.Valid, Without;
    ghost var requests, responses := d.requestQueue.items, d.responseQueue.items;
    PopEnabled(l, requests, responses, gids, s);
    if requests != [] {
      MirrorsTake(l, requests, responses, gids, s, deserialized);
    }
    ret, took, id := d.TakeRequest(deserialized, was);
  }

  lemma MirrorsTake(l: Link, requests: seq<Message>, responses: seq<Message>, gids: seq<Gid>, s: State, read: bool)
    requires Mirrors(l, requests, responses, s) && requests != []
    ensures Enabled(gids, s, Pop)
    ensures var t := Step(gids, s, Pop);
      && Enabled(gids, t, Hand(|s.taking|, read))
      && var u := Step(gids, t, Hand(|s.taking|, read));
         && Mirrors(l, requests[1..], responses + [requests[0]], u)
         && (read ==> u.handed != [] && u.handed[|u.handed| - 1].id == IdOf(requests[0]))
  {
    var popped := l.(taking := l.taking + [requests[0]]);
    MirrorsPop(l, requests, responses, gids, s);
    MirrorsHand(popped, requests[1..], responses, gids, Step(gids, s, Pop), |s.taking|, read);
    LastGone(l.taking, requests[0]);
  }

  /** A whole answer in one go. */
  method SendResponseSteps(d: ServiceData, about: Query, serialized: bool, attached: bool, accepted: bool,
                           ghost gids: seq<Gid>, ghost s: State, ghost l: Link)
    returns (result: SendResult)
    requires ServiceAt(d, l, s) && about in s.handed
    modifies d, d.responseQueue, d.responseQueue.items
    ensures !Enabled(gids, s, Pick(about)) ==>
      ServiceAt(d, l, s) && result == if serialized then NullDereference else Returned(RMW_RET_ERROR)
    ensures Enabled(gids, s, Pick(about)) ==>
      var t, replied := Step(gids, s, Pick(about)), serialized && attached && accepted;
      && Enabled(gids, t, Reply(|s.picked|, replied)) && ServiceAt(d, l, Step(gids, t, Reply(|s.picked|, replied)))
      && result == Returned(if replied then RMW_RET_OK else RMW_RET_ERROR)
      && var q := s.responses[FirstMatch(s.responses, Matches(about.id))];
         Travels(s, Step(gids, t, Reply(|s.picked|, replied)), Answer(q, q.id, about), result == Returned(RMW_RET_OK))
  {
    hide Mirrors, Step, ServiceData.Valid, Without, FirstMatch, Travels;
    ghost var requests, responses := d.requestQueue.items, d.responseQueue.items;
    PickFinds(l, requests, responses, gids, s, about);
    if Enabled(gids, s, Pick(about)) {
      MirrorsAnswer(l, requests, responses, gids, s, about, serialized && attached && accepted);
      AnswerTravels(gids, s, about, serialized && attached && accepted);
    }
    ghost var answered;
    result, answered := d.SendResponse(about.id, serialized, attached, accepted);
  }

  lemma AnswerTravels(gids: seq<Gid>, s: State, about: Query, replied: bool)
    requires Enabled(gids, s, Pick(about))
    ensures var t, q := Step(gids, s, Pick(about)), s.responses[FirstMatch(s.responses, Matches(about.id))];
      && Enabled(gids, t, Reply(|s.picked|, replied))
      && Travels(s, Step(gids, t, Reply(|s.picked|, replied)), Answer(q, q.id, about), replied)
  {
    hide FirstMatch, Without;
  }

  lemma MirrorsAnswer(l: Link, requests: seq<Message>, responses: seq<Message>, gids: seq<Gid>, s: State, about: Query,
                      replied: bool)
    requires Mirrors(l, requests, responses, s) && Enabled(gids, s, Pick(about))
    ensures var t, k := Step(gids, s, Pick(about)), FirstMatch(responses, Matcher(about.id));
      && Enabled(gids, t, Reply(|s.picked|, replied)) && k < |responses|
      && Mirrors(l, requests, Without(responses, k), Step(gids, t, Reply(|s.picked|, replied)))
  {
    hide FirstMatch, Step, Mirrors, Without;
    var k := FirstMatch(responses, Matcher(about.id));
    MirrorsPick(l, requests, responses, gids, s, about);
    var picked := l.(picked := l.picked + [responses[k]]);
    MirrorsReply(picked, requests, Without(responses, k), gids, Step(gids, s, Pick(about)), |s.picked|, replied);
    LastGone(l.picked, responses[k]);
  }

  lemma LastGone<T>(items: seq<T>, last: T)
    ensures Without(items + [last], |items|) == items
  {
  }

  /* A client */

  /** The replies to one client, of all that have arrived. */
  function To(answers: seq<Answer>, c: nat): seq<Answer> {
    if answers == [] then []
    else
      var n := |answers| - 1;
      To(answers[..n], c) + (if answers[n].to.client == c then [answers[n]] else [])
  }

  /** The client is where the state says. */
  ghost predicate ClientAt(d: ClientData, names: map<Message, Answer>, gids: seq<Gid>, c: nat, s: State)
    reads d, d.responseQueue, d.responseQueue.items
  {
    && d.Valid() && c < |gids| == |s.sent|
    && d.gid == gids[c] && d.sequenceNum == s.sent[c]
    && (forall m :: m in names ==> names[m].carried == IdOf(m))
    && StandsFor(names, d.responseQueue.items, To(s.inbox, c))
  }

  lemma LastStays<T>(items: seq<T>, k: nat)
    requires k < |items| - 1
    ensures var n := |items| - 1;
      var rest := Without(items, k);
      |rest| == n && rest[..n - 1] == Without(items[..n], k) && rest[n - 1] == items[n]
  {
  }

  lemma LastDropped<T>(items: seq<T>)
    requires items != []
    ensures Without(items, |items| - 1) == items[..|items| - 1]
  {
  }

  /** Dropping an answer to another client. */
  lemma {:induction false} ToWithoutOther(answers: seq<Answer>, c: nat, k: nat)
    requires k < |answers| && answers[k].to.client != c
    ensures To(Without(answers, k), c) == To(answers, c)
  {
    hide Without;
    var n := |answers| - 1;
    if k == n {
      LastDropped(answers);
    } else {
      LastStays(answers, k);
      ToWithoutOther(answers[..n], c, k);
    }
  }

  /** Dropping the first answer to this one. */
  lemma {:induction false} ToWithoutFirst(answers: seq<Answer>, c: nat, k: nat)
    requires k < |answers| && k == FirstMatch(answers, ForClient(c))
    ensures To(answers, c) != [] && To(answers, c)[0] == answers[k]
    ensures To(Without(answers, k), c) == To(answers, c)[1..]
  {
    hide FirstMatch, Without;
    var n := |answers| - 1;
    if k == n {
      LastDropped(answers);
      NoneTo(answers[..n], c);
      NoMatchBefore(answers, c, n);
    } else {
      LastStays(answers, k);
      FirstMatchIs(answers[..n], ForClient(c), k);
      ToWithoutFirst(answers[..n], c, k);
    }
  }

  lemma NoMatchBefore(answers: seq<Answer>, c: nat, n: nat)
    requires n <= FirstMatch(answers, ForClient(c))
    ensures FirstMatch(answers[..n], ForClient(c)) == n
  {
    hide FirstMatch;
    FirstMatchIs(answers[..n], ForClient(c), n);
  }

  lemma {:induction false} NoneTo(answers: seq<Answer>, c: nat)
    ensures To(answers, c) == [] <==> FirstMatch(answers, ForClient(c)) == |answers|
  {
    hide FirstMatch;
    if answers != [] {
      var n := |answers| - 1;
      NoneTo(answers[..n], c);
      assert forall i :: 0 <= i < n ==> answers[..n][i] == answers[i];
      if To(answers[..n], c) != [] {
        FirstMatchIs(answers, ForClient(c), FirstMatch(answers[..n], ForClient(c)));
      } else if answers[n].to.client == c {
        FirstMatchIs(answers, ForClient(c), n);
      } else {
        FirstMatchIs(answers, ForClient(c), n + 1);
      }
    }
  }

  lemma ToMore(answers: seq<Answer>, c: nat, r: Answer)
    ensures To(answers + [r], c) == To(answers, c) + if r.to.client == c then [r] else []
  {
    assert (answers + [r])[..|answers|] == answers;
  }

  /** A request is sent, with the id of the query that the state machine issues. */
  method SendStep(d: ClientData, serialized: bool, attached: bool, ghost names: map<Message, Answer>,
                  ghost gids: seq<Gid>, ghost c: nat, ghost s: State)
    returns (r: Sent)
    requires ClientAt(d, names, gids, c, s) && d.sequenceNum < INT64_MAX
    modifies d`sequenceNum
    ensures Enabled(gids, s, Send(c, attached))
    ensures ClientAt(d, names, gids, c, if serialized then Step(gids, s, Send(c, attached)) else s)
    ensures serialized && attached ==> r.Requested? && r.carried == Issue(gids, s, c).id
  {
    hide StandsFor, To;
    r := d.SendRequest(serialized, attached);
  }

  /** A reply arrives. */
  method ReceiveStep(d: ClientData, m: Message, ghost names: map<Message, Answer>, ghost gids: seq<Gid>, ghost c: nat,
                     ghost s: State, ghost k: nat)
    requires ClientAt(d, names, gids, c, s) && m !in d.repliesReceived
    requires k < |s.network| && s.network[k].to.client == c && s.network[k].carried == IdOf(m)
    modifies d`repliesReceived, d.responseQueue, d.responseQueue.items, m
    ensures ClientAt(d, names[m := s.network[k]], gids, c, Step(gids, s, DeliverReply(k)))
  {
    hide StandsFor, To, Without;
    var r := s.network[k];
    StandsForAfterNaming(names, d.responseQueue.items, To(s.inbox, c), m, r);
    StandsForMore(names[m := r], d.responseQueue.items, To(s.inbox, c), m, r);
    ToMore(s.inbox, c, r);
    d.AddNewReplyMessage(m);
  }

  /** A reply is taken: the one the state machine takes. */
  method TakeStep(d: ClientData, deserialized: bool, ghost names: map<Message, Answer>, ghost gids: seq<Gid>,
                  ghost c: nat, ghost s: State)
    returns (taken: bool, ghost reply: Message?)
    requires ClientAt(d, names, gids, c, s)
    modifies d`repliesTaken, d.responseQueue, d.responseQueue.items
    ensures reply == null <==> !Enabled(gids, s, TakeReply(c, deserialized))
    ensures reply == null ==> ClientAt(d, names, gids, c, s)
    ensures reply != null ==>
      && taken == deserialized && reply in names && names[reply] == s.inbox[FirstMatch(s.inbox, ForClient(c))]
      && ClientAt(d, names, gids, c, Step(gids, s, TakeReply(c, deserialized)))
  {
    hide To, FirstMatch, Without;
    NoneTo(s.inbox, c);
    var k := FirstMatch(s.inbox, ForClient(c));
    if k < |s.inbox| {
      ToWithoutFirst(s.inbox, c, k);
    }
    var ret;
    ret, taken, reply := d.TakeResponse(deserialized);
  }

  /** Everything else leaves the client alone. */
  lemma OthersLeaveClient(gids: seq<Gid>, c: nat, s: State, e: Event)
    requires Enabled(gids, s, e) && c < |s.sent|
    requires !(e.Send? && e.client == c) && !(e.DeliverReply? && s.network[e.k].to.client == c)
    requires !(e.TakeReply? && e.client == c)
    ensures var t := Step(gids, s, e);
      |t.sent| == |s.sent| && t.sent[c] == s.sent[c] && To(t.inbox, c) == To(s.inbox, c)
  {
    hide To, FirstMatch, Without, Issue;
    match e
    case DeliverReply(k) => ToMore(s.inbox, c, s.network[k]);
    case TakeReply(b, _) => ToWithoutOther(s.inbox, c, FirstMatch(s.inbox, ForClient(b)));
    case _ =>
  }
}
