/** Requests that are answered, and what becomes of the rest. */
module RoundTrip {
  import opened RecvMsgList
  import opened Service
  import opened RequestReply

  /* What a run loses, hands out and answers */

  /** The events that lose a request or its reply. */
  predicate LosesOne(e: Event) {
    match e
    case Lose(_) => true
    case LoseReply(_) => true
    case Send(_, attached) => !attached
    case Reply(_, replied) => !replied
    case TakeReply(_, deserialized) => !deserialized
    case _ => false
  }

  predicate HandsOne(e: Event) { e.Hand? && e.deserialized }

  predicate AnswersOne(e: Event) { e.TakeReply? && e.deserialized }

  function Count(events: seq<Event>, p: Event -> bool): nat {
    if events == [] then 0
    else Count(events[..|events| - 1], p) + if p(events[|events| - 1]) then 1 else 0
  }

  /** Every losing event loses one request, and nothing else does; the same for
      handing requests to the application and answers to the clients. */
  lemma {:induction false} Tally(gids: seq<Gid>, events: seq<Event>)
    requires Run(gids, events).Some?
    ensures var s := Run(gids, events).value;
      && |s.lost| == Count(events, LosesOne)
      && |s.handed| == Count(events, HandsOne)
      && |s.answered| == Count(events, AnswersOne)
  {
    hide Step, Enabled;
    if events != [] {
      var n := |events| - 1;
      Tally(gids, events[..n]);
      StepTallies(gids, Run(gids, events[..n]).value, events[n]);
    }
  }

  lemma StepTallies(gids: seq<Gid>, s: State, e: Event)
    requires Enabled(gids, s, e)
    ensures var t := Step(gids, s, e);
      && |t.lost| == |s.lost| + (if LosesOne(e) then 1 else 0)
      && |t.handed| == |s.handed| + (if HandsOne(e) then 1 else 0)
      && |t.answered| == |s.answered| + (if AnswersOne(e) then 1 else 0)
  {
    hide FirstMatch, Without, Issue;
  }

  /* The good path */

  /** Nothing is under way. */
  predicate AtRest(s: State) {
    && s.wire == s.requests == s.taking == s.responses == []
    && s.picked == s.network == s.inbox == []
  }

  function GoodPath(c: nat, q: Query): seq<Event> {
    [Send(c, true), Deliver(0), Pop, Hand(0, true), Pick(q), Reply(0, true), DeliverReply(0), TakeReply(c, true)]
  }

  /** One event more. */
  lemma Next(gids: seq<Gid>, before: seq<Event>, path: seq<Event>, n: nat, s: State)
    requires n < |path| && Run(gids, before + path[..n]) == Some(s) && Enabled(gids, s, path[n])
    ensures Run(gids, before + path[..n + 1]) == Some(Step(gids, s, path[n]))
  {
    hide Step, Enabled;
    var events := before + path[..n + 1];
    assert events[..|events| - 1] == before + path[..n];
  }

  /** Whatever has been before, when nothing is under way a client that sends a
      request is answered by these eight events, and is told its answer. */
  lemma RequestIsAnswered(gids: seq<Gid>, before: seq<Event>, c: nat)
    requires Run(gids, before).Some? && AtRest(Run(gids, before).value)
    requires c < |gids| == |Run(gids, before).value.sent| && Run(gids, before).value.sent[c] < Client.INT64_MAX
    ensures var s, q := Run(gids, before).value, Issue(gids, Run(gids, before).value, c);
      var end := Run(gids, before + GoodPath(c, q));
      && end.Some? && AtRest(end.value) && end.value.lost == s.lost
      && end.value.answered == s.answered + [Answer(q, q.id, q)]
  {
    var s := Run(gids, before).value;
    var q := Issue(gids, s, c);
    var path := GoodPath(c, q);
    hide Run, Issue;
    assert before + path[..0] == before;
    var taken := RequestIsTaken(gids, before, c, s, q);
    hide AtRest;
    AnswerIsTaken(gids, before, c, taken, q);
    assert before + path[..8] == before + path;
  }

  lemma RequestIsTaken(gids: seq<Gid>, before: seq<Event>, c: nat, s: State, q: Query) returns (t: State)
    requires c < |gids| == |s.sent| && s.sent[c] < Client.INT64_MAX && AtRest(s) && q == Issue(gids, s, c)
    requires Run(gids, before + GoodPath(c, q)[..0]) == Some(s)
    ensures Run(gids, before + GoodPath(c, q)[..4]) == Some(t)
    ensures t == s.(sent := t.sent, responses := [q], handed := s.handed + [q])
  {
    hide Run, Issue;
    var path := GoodPath(c, q);
    Next(gids, before, path, 0, s);
    t := Step(gids, s, path[0]);
    assert t.wire == [q];
    Next(gids, before, path, 1, t);
    t := Step(gids, t, path[1]);
    assert t.wire == [] && t.requests == [q];
    Next(gids, before, path, 2, t);
    t := Step(gids, t, path[2]);
    assert t.requests == [] && t.taking == [q];
    Next(gids, before, path, 3, t);
    t := Step(gids, t, path[3]);
    assert t.taking == [] && t.responses == [q];
  }

  lemma AnswerIsTaken(gids: seq<Gid>, before: seq<Event>, c: nat, s: State, q: Query)
    requires q.client == c && q in s.handed && s.responses == [q]
    requires s.wire == s.requests == s.taking == [] && s.picked == s.network == s.inbox == []
    requires Run(gids, before + GoodPath(c, q)[..4]) == Some(s)
    ensures Run(gids, before + GoodPath(c, q)[..8])
         == Some(s.(responses := [], answered := s.answered + [Answer(q, q.id, q)]))
  {
    hide Run, Issue, FirstMatch;
    var path, r := GoodPath(c, q), Answer(q, q.id, q);
    FirstMatchIs(s.responses, Matches(q.id), 0);
    Next(gids, before, path, 4, s);
    var t := Step(gids, s, path[4]);
    assert t.responses == [] && t.picked == [r];
    Next(gids, before, path, 5, t);
    t := Step(gids, t, path[5]);
    assert t.picked == [] && t.network == [r];
    Next(gids, before, path, 6, t);
    t := Step(gids, t, path[6]);
    assert t.network == [] && t.inbox == [r];
    FirstMatchIs(t.inbox, ForClient(c), 0);
    Next(gids, before, path, 7, t);
    t := Step(gids, t, path[7]);
    assert t.inbox == [];
  }

  /** So every client can be answered, from the start. */
  lemma EveryClientCanBeAnswered(gids: seq<Gid>, c: nat)
    requires c < |gids|
    ensures var q := Query(c, 1, RequestId(gids[c], 1));
      var end := Run(gids, GoodPath(c, q));
      end.Some? && end.value.answered == [Answer(q, q.id, q)] && end.value.lost == []
  {
    var q := Issue(gids, Initial(gids), c);
    NothingYet(gids);
    hide Run, GoodPath;
    RequestIsAnswered(gids, [], c);
    assert [] + GoodPath(c, q) == GoodPath(c, q);
  }
}
