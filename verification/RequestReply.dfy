/** Requests and replies end to end: any number of clients of one service, a
    network that delays, reorders and loses, the service's two queues, and an
    application that takes requests and answers them in any order and in any
    number of threads. */
module RequestReply {
  import opened RecvMsgList
  import opened Service
  import Client
  import EndpointGid
  import Bits

  datatype Option<T> = None | Some(value: T)

  /** The `index`-th request of a client, and the id its attachment carries. */
  datatype Query = Query(client: nat, index: nat, id: RequestId)

  /** A reply travels back on the query `to`, with that query's attachment.
      Its payload is the application's answer to the request `about`. */
  datatype Answer = Answer(to: Query, carried: RequestId, about: Query)

  /** `taking` has the requests between the two queues, `handed` the ids given
      to the application in the order given, `picked` the answers to queries that
      have left the response queue and are about to be sent. */
  datatype State = State(
    sent: seq<nat>,
    wire: seq<Query>,
    requests: seq<Query>,
    taking: seq<Query>,
    responses: seq<Query>,
    handed: seq<Query>,
    picked: seq<Answer>,
    network: seq<Answer>,
    inbox: seq<Answer>,
    answered: seq<Answer>,
    lost: seq<Query>)

  datatype Event =
    | Send(client: nat, attached: bool)
    | Deliver(k: nat)
    | Lose(k: nat)
    | Pop
    | Hand(k: nat, deserialized: bool)
    | Pick(about: Query)
    | Reply(k: nat, replied: bool)
    | DeliverReply(k: nat)
    | LoseReply(k: nat)
    | TakeReply(client: nat, deserialized: bool)

  function Initial(gids: seq<Gid>): State {
    State(seq(|gids|, i => 0), [], [], [], [], [], [], [], [], [], [])
  }

  function Matches(id: RequestId): Query -> bool { (q: Query) => q.id == id }

  /** The reply queue of one client, inside the list of all waiting replies. */
  function ForClient(c: nat): Answer -> bool { (r: Answer) => r.to.client == c }

  function Issue(gids: seq<Gid>, s: State, c: nat): Query
    requires c < |gids| == |s.sent|
  {
    Query(c, s.sent[c] + 1, RequestId(gids[c], s.sent[c] + 1))
  }

  /** Answering a request that no waiting query matches ends the process. */
  predicate Enabled(gids: seq<Gid>, s: State, e: Event) {
    match e
    case Send(c, _) => c < |gids| == |s.sent| && s.sent[c] < Client.INT64_MAX
    case Deliver(k) => k < |s.wire|
    case Lose(k) => k < |s.wire|
    case Pop => s.requests != []
    case Hand(k, _) => k < |s.taking|
    case Pick(about) => about in s.handed && FirstMatch(s.responses, Matches(about.id)) < |s.responses|
    case Reply(k, _) => k < |s.picked|
    case DeliverReply(k) => k < |s.network|
    case LoseReply(k) => k < |s.network|
    case TakeReply(c, _) => FirstMatch(s.inbox, ForClient(c)) < |s.inbox|
  }

  function Step(gids: seq<Gid>, s: State, e: Event): State
    requires Enabled(gids, s, e)
  {
    match e
    case Send(c, attached) =>
      var q := Issue(gids, s, c);
      var t := s.(sent := s.sent[c := s.sent[c] + 1]);
      if attached then t.(wire := s.wire + [q]) else t.(lost := s.lost + [q])
    case Deliver(k) =>
      s.(wire := Without(s.wire, k), requests := s.requests + [s.wire[k]])
    case Lose(k) =>
      s.(wire := Without(s.wire, k), lost := s.lost + [s.wire[k]])
    case Pop =>
      s.(requests := s.requests[1..], taking := s.taking + [s.requests[0]])
    case Hand(k, deserialized) =>
      var q := s.taking[k];
      s.(taking := Without(s.taking, k), responses := s.responses + [q],
         handed := if deserialized then s.handed + [q] else s.handed)
    case Pick(about) =>
      var k := FirstMatch(s.responses, Matches(about.id));
      var q := s.responses[k];
      s.(responses := Without(s.responses, k), picked := s.picked + [Answer(q, q.id, about)])
    case Reply(k, replied) =>
      var t := s.(picked := Without(s.picked, k));
      if replied then t.(network := s.network + [s.picked[k]]) else t.(lost := s.lost + [s.picked[k].to])
    case DeliverReply(k) =>
      s.(network := Without(s.network, k), inbox := s.inbox + [s.network[k]])
    case LoseReply(k) =>
      s.(network := Without(s.network, k), lost := s.lost + [s.network[k].to])
    case TakeReply(c, deserialized) =>
      var k := FirstMatch(s.inbox, ForClient(c));
      var t := s.(inbox := Without(s.inbox, k));
      if deserialized then t.(answered := s.answered + [s.inbox[k]]) else t.(lost := s.lost + [s.inbox[k].to])
  }

  /** The state after a run of events, if every one of them was possible. */
  function Run(gids: seq<Gid>, events: seq<Event>): Option<State> {
    if events == [] then Some(Initial(gids))
    else
      var n := |events| - 1;
      var before := Run(gids, events[..n]);
      if before.Some? && Enabled(gids, before.value, events[n])
      then Some(Step(gids, before.value, events[n])) else None
  }

  /* Where the requests are */

  function Tos(answers: seq<Answer>): seq<Query> { seq(|answers|, i requires 0 <= i < |answers| => answers[i].to) }

  function Times(items: seq<Query>, q: Query): nat { multiset(items)[q] }

  function TimesTo(answers: seq<Answer>, q: Query): nat { multiset(Tos(answers))[q] }

  /** How many places a request is in. */
  function Places(s: State, q: Query): nat {
    Times(s.wire, q) + Times(s.requests, q) + Times(s.taking, q) + Times(s.responses, q)
    + TimesTo(s.picked, q) + TimesTo(s.network, q) + TimesTo(s.inbox, q) + TimesTo(s.answered, q) + Times(s.lost, q)
  }

  predicate Issued(gids: seq<Gid>, sent: seq<nat>, q: Query) {
    && q.client < |gids| == |sent| && 1 <= q.index <= sent[q.client]
    && q.id == RequestId(gids[q.client], q.index)
  }

  ghost predicate Conserved(gids: seq<Gid>, s: State) {
    && |s.sent| == |gids|
    && forall q: Query :: Places(s, q) == if Issued(gids, s.sent, q) then 1 else 0
  }

  lemma TimesWithout(items: seq<Query>, k: nat, q: Query)
    requires k < |items|
    ensures Times(Without(items, k), q) == Times(items, q) - if q == items[k] then 1 else 0
  {
    assert items == items[..k] + [items[k]] + items[k + 1..];
  }

  lemma TimesMore(items: seq<Query>, x: Query, q: Query)
    ensures Times(items + [x], q) == Times(items, q) + if q == x then 1 else 0
  {
  }

  lemma TimesToWithout(answers: seq<Answer>, k: nat, q: Query)
    requires k < |answers|
    ensures TimesTo(Without(answers, k), q) == TimesTo(answers, q) - if q == answers[k].to then 1 else 0
  {
    assert Tos(Without(answers, k)) == Without(Tos(answers), k);
    TimesWithout(Tos(answers), k, q);
  }

  lemma TimesToMore(answers: seq<Answer>, x: Answer, q: Query)
    ensures TimesTo(answers + [x], q) == TimesTo(answers, q) + if q == x.to then 1 else 0
  {
    assert Tos(answers + [x]) == Tos(answers) + [x.to];
    TimesMore(Tos(answers), x.to, q);
  }

  /** A step moves one request and keeps the rest where they are; only sending
      adds one. */
  lemma StepConserves(gids: seq<Gid>, s: State, e: Event, q: Query)
    requires Enabled(gids, s, e)
    ensures Places(Step(gids, s, e), q) == Places(s, q) + if e.Send? && q == Issue(gids, s, e.client) then 1 else 0
  {
    hide Times, TimesTo, FirstMatch, Without, Issue;
    match e
    case Send(c, _) =>
      TimesMore(s.wire, Issue(gids, s, c), q);
      TimesMore(s.lost, Issue(gids, s, c), q);
    case Deliver(k) =>
      TimesWithout(s.wire, k, q);
      TimesMore(s.requests, s.wire[k], q);
    case Lose(k) =>
      TimesWithout(s.wire, k, q);
      TimesMore(s.lost, s.wire[k], q);
    case Pop =>
      FirstGone(s.requests);
      TimesWithout(s.requests, 0, q);
      TimesMore(s.taking, s.requests[0], q);
    case Hand(k, _) =>
      TimesWithout(s.taking, k, q);
      TimesMore(s.responses, s.taking[k], q);
    case Pick(about) =>
      var k := FirstMatch(s.responses, Matches(about.id));
      TimesWithout(s.responses, k, q);
      TimesToMore(s.picked, Answer(s.responses[k], s.responses[k].id, about), q);
    case Reply(k, _) =>
      TimesToWithout(s.picked, k, q);
      TimesToMore(s.network, s.picked[k], q);
      TimesMore(s.lost, s.picked[k].to, q);
    case DeliverReply(k) =>
      TimesToWithout(s.network, k, q);
      TimesToMore(s.inbox, s.network[k], q);
    case LoseReply(k) =>
      TimesToWithout(s.network, k, q);
      TimesMore(s.lost, s.network[k].to, q);
    case TakeReply(c, _) =>
      var k := FirstMatch(s.inbox, ForClient(c));
      TimesToWithout(s.inbox, k, q);
      TimesToMore(s.answered, s.inbox[k], q);
      TimesMore(s.lost, s.inbox[k].to, q);
  }

  lemma FirstGone<T>(items: seq<T>)
    requires items != []
    ensures Without(items, 0) == items[1..]
  {
  }

  lemma IssueIsNew(gids: seq<Gid>, s: State, c: nat, q: Query)
    requires c < |gids| == |s.sent|
    ensures var after := s.sent[c := s.sent[c] + 1];
      && (Issued(gids, after, q) <==> Issued(gids, s.sent, q) || q == Issue(gids, s, c))
      && !Issued(gids, s.sent, Issue(gids, s, c))
  {
  }

  lemma StepKeepsConserved(gids: seq<Gid>, s: State, e: Event)
    requires Enabled(gids, s, e) && Conserved(gids, s)
    ensures Conserved(gids, Step(gids, s, e))
  {
    hide Places, Issued, Issue, FirstMatch;
    var t := Step(gids, s, e);
    forall q: Query ensures Places(t, q) == if Issued(gids, t.sent, q) then 1 else 0 {
      StepConserves(gids, s, e, q);
      assert Places(s, q) == if Issued(gids, s.sent, q) then 1 else 0;
      if e.Send? {
        IssueIsNew(gids, s, e.client, q);
      }
    }
  }

  /** In every run each request sent is in exactly one place, and nothing else
      is in any. */
  lemma {:induction false} EveryRequestInOnePlace(gids: seq<Gid>, events: seq<Event>)
    requires Run(gids, events).Some?
    ensures Conserved(gids, Run(gids, events).value)
  {
    if events != [] {
      var n := |events| - 1;
      EveryRequestInOnePlace(gids, events[..n]);
      StepKeepsConserved(gids, Run(gids, events[..n]).value, events[n]);
    }
  }

  /* What a reply says */

  /** Every reply carries the id of the query it travels on, and answers some
      issued request with that same id. */
  ghost predicate Truthful(gids: seq<Gid>, s: State) {
    && (forall q :: q in s.handed ==> Issued(gids, s.sent, q))
    && (forall r :: r in Answers(s) ==> RepliesTruly(gids, s.sent, r))
  }

  /** All answers on their way or arrived. */
  function Answers(s: State): seq<Answer> { s.picked + s.network + s.inbox + s.answered }

  predicate RepliesTruly(gids: seq<Gid>, sent: seq<nat>, r: Answer) {
    && Issued(gids, sent, r.to) && Issued(gids, sent, r.about)
    && r.carried == r.to.id == r.about.id
  }

  lemma Present(gids: seq<Gid>, s: State, q: Query)
    requires Conserved(gids, s) && q in s.taking + s.responses
    ensures Issued(gids, s.sent, q)
  {
    assert Times(s.taking, q) + Times(s.responses, q) > 0;
    assert Places(s, q) > 0;
  }

  lemma StillIssued(gids: seq<Gid>, s: State, e: Event, q: Query)
    requires Enabled(gids, s, e) && Issued(gids, s.sent, q)
    ensures Issued(gids, Step(gids, s, e).sent, q)
  {
    hide Issue;
  }

  /** Only picking makes an answer. */
  lemma AnswersComeFrom(gids: seq<Gid>, s: State, e: Event, r: Answer)
    requires Enabled(gids, s, e) && r in Answers(Step(gids, s, e))
    ensures r in Answers(s)
      || (e.Pick? && var q := s.responses[FirstMatch(s.responses, Matches(e.about.id))]; r == Answer(q, q.id, e.about))
  {
    hide Issue, Without, FirstMatch;
    AnswersParts(s, r);
    AnswersParts(Step(gids, s, e), r);
    match e
    case Reply(k, _) => WithoutWithin(s.picked, k);
    case DeliverReply(k) => WithoutWithin(s.network, k);
    case LoseReply(k) => WithoutWithin(s.network, k);
    case TakeReply(c, _) => WithoutWithin(s.inbox, FirstMatch(s.inbox, ForClient(c)));
    case _ =>
  }

  lemma AnswersParts(s: State, r: Answer)
    ensures r in Answers(s) <==> r in s.picked || r in s.network || r in s.inbox || r in s.answered
  {
  }

  lemma WithoutWithin<T>(items: seq<T>, k: nat)
    requires k < |items|
    ensures forall x :: x in Without(items, k) ==> x in items
    ensures items[k] in items
  {
  }

  lemma PickIsTrue(gids: seq<Gid>, s: State, about: Query)
    requires Enabled(gids, s, Pick(about)) && Conserved(gids, s) && Truthful(gids, s)
    ensures var q := s.responses[FirstMatch(s.responses, Matches(about.id))];
      RepliesTruly(gids, s.sent, Answer(q, q.id, about))
  {
    hide Conserved, Issued;
    var k := FirstMatch(s.responses, Matches(about.id));
    Present(gids, s, s.responses[k]);
    assert Matches(about.id)(s.responses[k]);
  }

  lemma StepKeepsTruthful(gids: seq<Gid>, s: State, e: Event)
    requires Enabled(gids, s, e) && Conserved(gids, s) && Truthful(gids, s)
    ensures Truthful(gids, Step(gids, s, e))
  {
    hide Conserved, Issued, Answers, Enabled, Step;
    var t := Step(gids, s, e);
    forall q | q in t.handed ensures Issued(gids, t.sent, q) {
      HandedAreIssued(gids, s, e, q);
      StillIssued(gids, s, e, q);
    }
    forall r | r in Answers(t) ensures RepliesTruly(gids, t.sent, r) {
      AnswersComeFrom(gids, s, e, r);
      if e.Pick? {
        PickIsTrue(gids, s, e.about);
      }
      StillIssued(gids, s, e, r.to);
      StillIssued(gids, s, e, r.about);
    }
  }

  lemma HandedAreIssued(gids: seq<Gid>, s: State, e: Event, q: Query)
    requires Enabled(gids, s, e) && Conserved(gids, s) && Truthful(gids, s) && q in Step(gids, s, e).handed
    ensures Issued(gids, s.sent, q)
  {
    hide Conserved, Issued, Answers, Issue;
    if e.Hand? {
      Present(gids, s, s.taking[e.k]);
    }
  }

  lemma {:induction false} RepliesAreTruthful(gids: seq<Gid>, events: seq<Event>)
    requires Run(gids, events).Some?
    ensures Truthful(gids, Run(gids, events).value)
  {
    if events != [] {
      var n := |events| - 1;
      RepliesAreTruthful(gids, events[..n]);
      EveryRequestInOnePlace(gids, events[..n]);
      StepKeepsTruthful(gids, Run(gids, events[..n]).value, events[n]);
    }
  }

  /** The reply a client takes carries the number of exactly one of its earlier
      requests, the one it was sent on. */
  lemma ReplyIdentifiesRequest(gids: seq<Gid>, events: seq<Event>, r: Answer, i: nat)
    requires Run(gids, events).Some? && r in Run(gids, events).value.answered
    ensures var s := Run(gids, events).value;
      var c := r.to.client;
      && c < |gids| == |s.sent| && 1 <= r.to.index <= s.sent[c]
      && (1 <= i <= s.sent[c] && r.carried == RequestId(gids[c], i) <==> i == r.to.index)
  {
    RepliesAreTruthful(gids, events);
    var s := Run(gids, events).value;
    assert r in Answers(s);
  }

  lemma TwicePresent<T>(s: seq<T>, i: nat, j: nat)
    requires i < j < |s|
    ensures s[i] == s[j] ==> multiset(s)[s[j]] >= 2
  {
    assert s == s[..j] + [s[j]] + s[j + 1..];
    assert s[i] in s[..j];
  }

  /** No request is answered to its client twice. */
  lemma AnsweredAtMostOnce(gids: seq<Gid>, events: seq<Event>, i: nat, j: nat)
    requires Run(gids, events).Some? && i < j < |Run(gids, events).value.answered|
    ensures var s := Run(gids, events).value; s.answered[i].to != s.answered[j].to
  {
    EveryRequestInOnePlace(gids, events);
    var s := Run(gids, events).value;
    var tos := Tos(s.answered);
    TwicePresent(tos, i, j);
    assert Places(s, tos[j]) <= 1;
  }

  /* Whose answer a reply brings */

  /** A reply with someone else's answer needs two clients that share a gid. */
  lemma CrossingNeedsSharedGid(gids: seq<Gid>, events: seq<Event>, r: Answer)
    requires Run(gids, events).Some? && r in Run(gids, events).value.answered && r.to != r.about
    ensures r.to.client < |gids| && r.about.client < |gids| && r.to.client != r.about.client
    ensures gids[r.to.client] == gids[r.about.client] && r.to.index == r.about.index
  {
    RepliesAreTruthful(gids, events);
    var s := Run(gids, events).value;
    assert r in Answers(s);
  }

  /** Number i waits, and nothing that has waited longer has its id. */
  predicate LongestWaiting(waiting: seq<Query>, about: Query, i: nat)
    requires i < |waiting|
  {
    waiting[i] == about && forall j :: 0 <= j < i ==> waiting[j].id != about.id
  }

  /** An answer goes to the request it is for exactly when that request is
      waiting and no query that has waited longer has the same id. */
  lemma AnswerGoesRightExactly(gids: seq<Gid>, s: State, about: Query)
    requires Enabled(gids, s, Pick(about))
    ensures |Step(gids, s, Pick(about)).picked| == |s.picked| + 1
    ensures Step(gids, s, Pick(about)).picked[|s.picked|].to == about
       <==> (exists i :: 0 <= i < |s.responses| && LongestWaiting(s.responses, about, i))
  {
    var f := Matches(about.id);
    var k := FirstMatch(s.responses, f);
    forall j | 0 <= j < k ensures s.responses[j].id != about.id {
      assert !f(s.responses[j]);
    }
    forall i | 0 <= i < |s.responses| && LongestWaiting(s.responses, about, i) ensures k == i {
      assert f(s.responses[i]) && f(s.responses[k]);
    }
    assert s.responses[k] == about ==> LongestWaiting(s.responses, about, k);
  }

  /* Runs in which a client gets another's answer */

  predicate Crosses(gids: seq<Gid>, events: seq<Event>, r: Answer, a: nat, b: nat) {
    var end := Run(gids, events);
    end.Some? && r in end.value.answered && r.to.client == a && r.about.client == b
  }

  /** Every request the service takes deserialises. */
  predicate AllReadable(events: seq<Event>) {
    forall i :: 0 <= i < |events| && events[i].Hand? ==> events[i].deserialized
  }

  /** How many answers the application has given. */
  function Picks(events: seq<Event>): nat {
    if events == [] then 0
    else Picks(events[..|events| - 1]) + if events[|events| - 1].Pick? then 1 else 0
  }

  /** The application answers the requests it is handed, in that order. */
  predicate InOrder(gids: seq<Gid>, events: seq<Event>) {
    events == [] ||
      var n := |events| - 1;
      && InOrder(gids, events[..n])
      && (events[n].Pick? ==>
        var before := Run(gids, events[..n]);
        before.Some? && IsNext(before.value, Picks(events[..n]), events[n].about))
  }

  predicate IsNext(s: State, done: nat, about: Query) { done < |s.handed| && about == s.handed[done] }

  ghost predicate CrossesReadable(gids: seq<Gid>, a: nat, b: nat) {
    exists events: seq<Event>, r: Answer :: Crosses(gids, events, r, a, b) && AllReadable(events)
  }

  ghost predicate CrossesInOrder(gids: seq<Gid>, a: nat, b: nat) {
    exists events: seq<Event>, r: Answer :: Crosses(gids, events, r, a, b) && InOrder(gids, events)
  }

  lemma Extend(gids: seq<Gid>, events: seq<Event>, s: State, e: Event) returns (longer: seq<Event>, t: State)
    requires Run(gids, events) == Some(s) && Enabled(gids, s, e)
    ensures t == Step(gids, s, e) && Run(gids, longer) == Some(t)
    ensures Picks(longer) == Picks(events) + if e.Pick? then 1 else 0
    ensures AllReadable(longer) <==> AllReadable(events) && (e.Hand? ==> e.deserialized)
    ensures InOrder(gids, longer) <==> InOrder(gids, events) && (e.Pick? ==> IsNext(s, Picks(events), e.about))
  {
    hide Step, Enabled, IsNext;
    longer, t := events + [e], Step(gids, s, e);
    assert longer[..|events|] == events;
    assert longer[|events|] == e && forall i :: 0 <= i < |events| ==> longer[i] == events[i];
  }

  lemma NothingYet(gids: seq<Gid>)
    ensures Run(gids, []) == Some(Initial(gids)) && InOrder(gids, []) && AllReadable([]) && Picks([]) == 0
  {
  }

  /** The run so far has brought answers to nobody. */
  ghost predicate Quiet(gids: seq<Gid>, events: seq<Event>, s: State) {
    && Run(gids, events) == Some(s) && InOrder(gids, events) && Picks(events) == 0
    && s.picked == s.network == s.inbox == s.answered == []
  }

  lemma QuietStep(gids: seq<Gid>, events: seq<Event>, s: State, e: Event) returns (longer: seq<Event>, t: State)
    requires Quiet(gids, events, s) && Enabled(gids, s, e) && (e.Send? || e.Deliver? || e.Pop? || e.Hand?)
    ensures t == Step(gids, s, e) && Quiet(gids, longer, t)
    ensures AllReadable(longer) <==> AllReadable(events) && (e.Hand? ==> e.deserialized)
  {
    hide Run, InOrder, AllReadable, Picks, Issue;
    longer, t := Extend(gids, events, s, e);
  }

  /** Both clients have asked once. */
  lemma BothSent(gids: seq<Gid>, a: nat, b: nat, qa: Query, qb: Query)
    returns (events: seq<Event>, s: State)
    requires a < |gids| && b < |gids| && a != b
    requires qa == Query(a, 1, RequestId(gids[a], 1)) && qb == Query(b, 1, RequestId(gids[b], 1))
    ensures Quiet(gids, events, s) && AllReadable(events)
    ensures s.wire == [qa, qb] && s.requests == s.taking == s.responses == s.handed == []
  {
    hide Quiet, AllReadable;
    events, s := [], Initial(gids);
    QuietAtFirst(gids);
    events, s := QuietStep(gids, events, s, Send(a, true));
    assert s.wire == [qa] && s.sent[b] == 0;
    events, s := QuietStep(gids, events, s, Send(b, true));
  }

  lemma QuietAtFirst(gids: seq<Gid>)
    ensures Quiet(gids, [], Initial(gids)) && AllReadable([])
  {
    NothingYet(gids);
  }

  /** Both requests have arrived. */
  lemma BothArrived(gids: seq<Gid>, before: seq<Event>, start: State, qa: Query, qb: Query)
    returns (events: seq<Event>, s: State)
    requires Quiet(gids, before, start) && AllReadable(before)
    requires start.wire == [qa, qb] && start.requests == start.taking == start.responses == start.handed == []
    ensures Quiet(gids, events, s) && AllReadable(events)
    ensures s.requests == [qa, qb] && s.taking == s.responses == s.handed == []
  {
    hide Quiet, AllReadable;
    events, s := QuietStep(gids, before, start, Deliver(0));
    assert s.wire == [qb] && s.requests == [qa];
    events, s := QuietStep(gids, events, s, Deliver(0));
  }

  /** The service has taken both; the first may not have deserialised. */
  lemma BothTaken(gids: seq<Gid>, before: seq<Event>, start: State, qa: Query, qb: Query, readable: bool)
    returns (events: seq<Event>, s: State)
    requires Quiet(gids, before, start) && AllReadable(before)
    requires start.requests == [qa, qb] && start.taking == start.responses == start.handed == []
    ensures Quiet(gids, events, s) && (readable ==> AllReadable(events))
    ensures s.responses == [qa, qb] && s.handed == if readable then [qa, qb] else [qb]
  {
    hide Quiet, AllReadable;
    events, s := QuietStep(gids, before, start, Pop);
    assert s.requests == [qb] && s.taking == [qa];
    events, s := QuietStep(gids, events, s, Hand(0, readable));
    assert s.taking == [] && s.responses == [qa] && s.handed == if readable then [qa] else [];
    events, s := QuietStep(gids, events, s, Pop);
    assert s.taking == [qb];
    events, s := QuietStep(gids, events, s, Hand(0, true));
  }

  /** The second request is answered, and the answer reaches the first client. */
  lemma AnswerSecond(gids: seq<Gid>, before: seq<Event>, start: State, qa: Query, qb: Query)
    returns (events: seq<Event>, r: Answer)
    requires Quiet(gids, before, start) && start.responses == [qa, qb] && qb in start.handed && qa.id == qb.id
    ensures Crosses(gids, events, r, qa.client, qb.client)
    ensures AllReadable(before) ==> AllReadable(events)
    ensures start.handed == [qb] ==> InOrder(gids, events)
  {
    hide Run, AllReadable, InOrder, Picks;
    r := Answer(qa, qa.id, qb);
    FirstMatchIs(start.responses, Matches(qb.id), 0);
    var s;
    events, s := Extend(gids, before, start, Pick(qb));
    assert s.picked == [r] && s.network == s.inbox == s.answered == [];
    events, s := Extend(gids, events, s, Reply(0, true));
    assert s.network == [r] && s.inbox == s.answered == [];
    events, s := Extend(gids, events, s, DeliverReply(0));
    assert s.inbox == [r] && s.answered == [];
    FirstMatchIs(s.inbox, ForClient(qa.client), 0);
    events, s := Extend(gids, events, s, TakeReply(qa.client, true));
    assert s.answered == [r];
  }

  /** Both clients ask once. The service answers the second request, either
      before the first or because the first did not deserialise. */
  lemma SharedGidCrosses(gids: seq<Gid>, a: nat, b: nat, readable: bool) returns (events: seq<Event>, r: Answer)
    requires a < |gids| && b < |gids| && a != b && gids[a] == gids[b]
    ensures Crosses(gids, events, r, a, b)
    ensures if readable then AllReadable(events) else InOrder(gids, events)
  {
    hide Quiet, AllReadable, InOrder, Crosses;
    var qa, qb := Query(a, 1, RequestId(gids[a], 1)), Query(b, 1, RequestId(gids[b], 1));
    var s;
    events, s := BothSent(gids, a, b, qa, qb);
    events, s := BothArrived(gids, events, s, qa, qb);
    events, s := BothTaken(gids, events, s, qa, qb, readable);
    events, r := AnswerSecond(gids, events, s, qa, qb);
  }

  /** One client can be handed the answer to another's request exactly when the
      two share a gid: by an application that answers out of order though every
      request deserialises, and by one that answers in order. */
  lemma CrossingPossibleExactly(gids: seq<Gid>, a: nat, b: nat)
    requires a < |gids| && b < |gids| && a != b
    ensures CrossesReadable(gids, a, b) <==> gids[a] == gids[b]
    ensures CrossesInOrder(gids, a, b) <==> gids[a] == gids[b]
  {
    hide Crosses, AllReadable, InOrder;
    forall events, r | Crosses(gids, events, r, a, b) ensures gids[a] == gids[b] {
      CrossingSharesGid(gids, events, r, a, b);
    }
    if gids[a] == gids[b] {
      var events, r := SharedGidCrosses(gids, a, b, true);
      events, r := SharedGidCrosses(gids, a, b, false);
    }
  }

  lemma CrossingSharesGid(gids: seq<Gid>, events: seq<Event>, r: Answer, a: nat, b: nat)
    requires a < |gids| && b < |gids| && a != b && Crosses(gids, events, r, a, b)
    ensures gids[a] == gids[b]
  {
    CrossingNeedsSharedGid(gids, events, r);
  }

  function AllWith(gid: Gid, clients: nat): seq<Gid> { seq(clients, i => gid) }

  /** A client's gid hashes the service's topic key and nothing of the client,
      so any two clients of a service can get each other's answers. */
  lemma ClientsOfOneServiceCanCross(topicKey: Bits.bytes, clients: nat, a: nat, b: nat)
    requires |topicKey| < 0x1_0000_0000_0000_0000 && a < clients && b < clients && a != b
    ensures CrossesReadable(AllWith(EndpointGid.GenGid(topicKey), clients), a, b)
    ensures CrossesInOrder(AllWith(EndpointGid.GenGid(topicKey), clients), a, b)
  {
    hide EndpointGid.GenGid, CrossesReadable, CrossesInOrder;
    CrossingPossibleExactly(AllWith(EndpointGid.GenGid(topicKey), clients), a, b);
  }

  /** While the application answers in order and every request deserialises, the
      queries that wait are the requests handed out and not yet answered. */
  ghost predicate Aligned(s: State, done: nat) {
    && done <= |s.handed| && s.responses == s.handed[done..]
    && forall r :: r in Answers(s) ==> r.to == r.about
  }

  lemma StepKeepsAligned(gids: seq<Gid>, s: State, e: Event, done: nat)
    requires Enabled(gids, s, e) && Aligned(s, done)
    requires e.Hand? ==> e.deserialized
    requires e.Pick? ==> IsNext(s, done, e.about)
    ensures Aligned(Step(gids, s, e), if e.Pick? then done + 1 else done)
  {
    hide Issue, Answers, FirstMatch;
    var t := Step(gids, s, e);
    if e.Pick? {
      assert s.responses[0] == e.about;
      FirstMatchIs(s.responses, Matches(e.about.id), 0);
      FirstGone(s.responses);
      assert s.handed[done..][1..] == s.handed[done + 1..];
    }
    forall r | r in Answers(t) ensures r.to == r.about {
      AnswersComeFrom(gids, s, e, r);
    }
  }

  /** An application that answers in order, and can read every request, always
      answers the right client. */
  lemma {:induction false} InOrderNeverCrosses(gids: seq<Gid>, events: seq<Event>)
    requires Run(gids, events).Some? && InOrder(gids, events) && AllReadable(events)
    ensures Aligned(Run(gids, events).value, Picks(events))
  {
    hide Aligned, Step, Enabled;
    if events == [] {
      AlignedAtFirst(gids);
    } else {
      var n := |events| - 1;
      assert AllReadable(events[..n]);
      InOrderNeverCrosses(gids, events[..n]);
      StepKeepsAligned(gids, Run(gids, events[..n]).value, events[n], Picks(events[..n]));
    }
  }

  lemma AlignedAtFirst(gids: seq<Gid>)
    ensures Aligned(Initial(gids), 0)
  {
  }
}
