/** Runs of the wait protocol: a message that wakes a wait or is there before it
    is reported, and one that comes too early for a timed wait is slept through. */
module WaitRuns {
  import opened WaitProtocol
  import opened WaitLocks
  import opened WaitSafety
  import opened WaitTheorems
  import opened WaitReport

  /* The wait goes on alone */

  lemma AloneCanStep(s: State)
    requires Inv(s) && AllIdle(s) && Busy(s, Waiter)
    ensures CanStep(s, Waiter)
  {
    hide CanStep, Busy;
    if !CanStep(s, Waiter) {
      BlockedThreadHasRunnableOwner(s, Waiter);
      var u: Thread :| WaitsFor(s, Waiter, u) && Unblocked(s, u);
      NeverWaitsForItself(s, Waiter);
      IdleIsQuiet(s, u);
      assert false;
    }
  }

  lemma IdleIsQuiet(s: State, u: Thread)
    requires AllIdle(s) && u != Waiter
    ensures !CanStep(s, u) && forall v: Thread :: !WaitsFor(s, u, v)
  {
  }

  /** A call that will not sleep comes back, and reports what is ready. Once it
      has been woken `triggered` ends up reset. */
  lemma WaitHome(start: State, before: seq<Action>, s: State, i: nat, e: nat) returns (actions: seq<Action>, t: State)
    requires Run(start, before) == Some(s) && Inv(s) && AllIdle(s) && OnItsWay(s) && Ready(s, i, e)
    ensures Run(start, actions) == Some(t) && Inv(t) && AllIdle(t) && t.call.Returned? && Ready(t, i, e)
    ensures Sleeping(s.call) || !s.triggered ==> !t.triggered
    decreases WaitLeft(s)
  {
    hide Inv, Run, WaitLeft, Ready, Step;
    actions, t := before, s;
    if !s.call.Returned? {
      AloneCanStep(s);
      actions, t := Then(start, before, s, Wait);
      StepGoesHome(s, i, e);
      actions, t := WaitHome(start, actions, t, i, e);
    }
  }

  lemma StepGoesHome(s: State, i: nat, e: nat)
    requires Inv(s) && AllIdle(s) && OnItsWay(s) && Ready(s, i, e) && CanStep(s, Waiter)
    ensures var t := Step(s, Wait);
      && Inv(t) && AllIdle(t) && OnItsWay(t) && Ready(t, i, e) && 0 <= WaitLeft(t) < WaitLeft(s)
      && (Sleeping(s.call) || !s.triggered ==> Sleeping(t.call) || !t.triggered)
  {
    hide Inv, Ready, WaitLeft, WaitStep;
    GoesOn(s, Wait);
    WaitGoesOn(s);
    WaitLeftIsNatural(Step(s, Wait));
    WaitKeepsReady(s, i, e);
    KeepsReset(s);
  }

  lemma KeepsReset(s: State)
    requires Busy(s, Waiter)
    ensures Sleeping(s.call) || !s.triggered ==>
      Sleeping(WaitStep(s).call) || WaitStep(s).call.Asleep? || !WaitStep(s).triggered
  {
  }

  /* A callback runs alone */

  predicate SignalSent(j: Job) { j.Signalled? || j.Leaving? || j.Idle? }

  /** Worker 0 is somewhere in the append that started in s0; nobody else has
      moved since. */
  ghost predicate Appending(s0: State, s: State, e: nat) {
    && e < |s0.entities| == |s.entities| && IsQueue(s0, e)
    && |s.jobs| == |s0.jobs| > 0 && (forall p :: 1 <= p < |s.jobs| ==> s.jobs[p].Idle?)
    && s.listed == s0.listed && s.patience == s0.patience && s.seen == s0.seen && s.slots == s0.slots
    && (forall d :: 0 <= d < |s.entities| ==>
          && s.entities[d].kind == s0.entities[d].kind && s.entities[d].attached == s0.entities[d].attached
          && (d != e ==> s.entities[d].count == s0.entities[d].count))
    && var j, b := s.jobs[0], s0.entities[e].attached;
       && !j.WantTake? && !j.Taking? && !j.WantTrip? && !j.Tripping? && (!j.Idle? ==> j.e == e)
       && s.entities[e].count == s0.entities[e].count + (if j.WantQueue? || j.InQueue? then 0 else 1)
       && (b && (j.Raised? || SignalSent(j)) ==> s.triggered)
       && (!b ==> s.triggered == s0.triggered && !j.WantSet? && !j.HasSet? && !j.Raised? && !j.Signalled?)
       && s.call == if b && SignalSent(j) && s0.call.Asleep? then Woken else s0.call
  }

  predicate HoldsNothing(c: Call) { c.Outside? || c.Returned? || c.SetWant? || c.Asleep? || c.Woken? }

  lemma LoneWorkerCanStep(s: State)
    requires Inv(s) && |s.jobs| > 0 && !s.jobs[0].Idle? && HoldsNothing(s.call)
    requires forall p :: 1 <= p < |s.jobs| ==> s.jobs[p].Idle?
    ensures CanStep(s, Worker(0))
  {
    hide AttachedAsListed, Heard, SleepExplained, Recorded, JobsSound, Shaped;
    if !CanStep(s, Worker(0)) {
      var l := Wants(s, Worker(0)).value;
      NeverWaitsForItself(s, Worker(0));
      OwnerHolds(s, l);
      assert false;
    }
  }

  lemma OwnerHolds(s: State, l: Lock)
    requires LocksMatch(s) && l in s.held
    ensures l in Holds(s, s.held[l])
  {
  }

  lemma AppendGoesOn(s0: State, s: State, e: nat)
    requires Inv(s) && Appending(s0, s, e) && !s.jobs[0].Idle? && CanStep(s, Worker(0)) && s.jobs[0].e < |s.entities|
    ensures Appending(s0, WorkStep(s, 0), e) && StepsLeft(WorkStep(s, 0).jobs[0]) < StepsLeft(s.jobs[0])
  {
    hide LocksMatch, AttachedAsListed, Heard, SleepExplained, Recorded, JobsSound, Shaped, WorkStep, CanStep;
    WorkHasEffect(s, 0);
  }

  lemma AppendHome(start: State, before: seq<Action>, s0: State, s: State, e: nat)
    returns (actions: seq<Action>, t: State)
    requires Run(start, before) == Some(s) && Inv(s) && Appending(s0, s, e) && HoldsNothing(s0.call)
    ensures Run(start, actions) == Some(t) && Inv(t) && Appending(s0, t, e) && AllIdle(t)
    decreases StepsLeft(s.jobs[0])
  {
    hide Inv, Run, WorkStep;
    actions, t := before, s;
    if !s.jobs[0].Idle? {
      LoneWorkerCanStep(s);
      WorkerFits(s);
      hide CanStep;
      actions, t := Then(start, before, s, Work(0));
      AppendGoesOn(s0, s, e);
      StepKeepsInv(s, Work(0));
      actions, t := AppendHome(start, actions, s0, t, e);
    }
  }

  lemma WorkerFits(s: State)
    requires Inv(s) && CanStep(s, Worker(0))
    ensures Enabled(s, Work(0))
  {
    hide LocksMatch, AttachedAsListed, Heard, SleepExplained, Recorded, JobsSound;
    assert JobFits(s, s.jobs[0]);
  }

  /** A message arrives while everybody else is at rest. */
  lemma MessageArrives(start: State, before: seq<Action>, s0: State, e: nat) returns (actions: seq<Action>, t: State)
    requires Run(start, before) == Some(s0) && Inv(s0) && AllIdle(s0) && |s0.jobs| > 0
    requires IsQueue(s0, e) && HoldsNothing(s0.call)
    ensures Run(start, actions) == Some(t) && Inv(t) && Appending(s0, t, e) && AllIdle(t)
  {
    hide Inv, Run;
    actions, t := Then(start, before, s0, Start(0, WantQueue(e)));
    StepKeepsInv(s0, Start(0, WantQueue(e)));
    actions, t := AppendHome(start, actions, s0, t, e);
  }

  /** A message that arrives while an untimed wait sleeps on its queue wakes the
      wait, which reports it and leaves `triggered` reset. */
  lemma SleeperIsWoken(s: State, i: nat, e: nat) returns (actions: seq<Action>, t: State)
    requires Inv(s) && AllIdle(s) && |s.jobs| > 0 && s.call.Asleep? && s.patience.Forever?
    requires i < |s.listed| && s.listed[i] == Listed(e) && IsQueue(s, e)
    ensures Run(s, actions) == Some(t) && AllIdle(t) && t.call.Returned? && !t.triggered
    ensures |t.slots| > i && t.slots[i] == Listed(e) && Result(t) == RMW_RET_OK
  {
    hide Run;
    NoActions(s);
    SleeperIsAttached(s, i);
    hide Inv;
    actions, t := MessageArrives(s, [], s, e);
    NothingSeenYet(t);
    actions, t := WaitHome(s, actions, t, i, e);
    SeenIsReported(t, i, e);
  }

  lemma SleeperIsAttached(s: State, i: nat)
    requires Inv(s) && s.call.Asleep? && InList(s, i)
    ensures s.entities[s.listed[i].e].attached
  {
    hide LocksMatch, Shaped, Heard, SleepExplained, Recorded, JobsSound;
    assert i < High(s);
  }

  lemma NothingSeenYet(s: State)
    requires Inv(s) && Waiting(s.call)
    ensures s.seen == []
  {
    hide LocksMatch, Shaped, Heard, SleepExplained, AttachedAsListed, JobsSound;
  }

  /** A message that is there before a zero-timeout wait is reported. */
  lemma PollFinds(s: State, listed: seq<Slot>, i: nat, e: nat) returns (actions: seq<Action>, t: State)
    requires Inv(s) && AllIdle(s) && |s.jobs| > 0 && Enabled(s, Begin(listed, Poll))
    requires i < |listed| && listed[i] == Listed(e) && IsQueue(s, e)
    ensures Run(s, actions) == Some(t) && AllIdle(t) && t.call.Returned?
    ensures |t.slots| > i && t.slots[i] == Listed(e) && Result(t) == RMW_RET_OK
  {
    hide Inv, Run;
    NoActions(s);
    actions, t := MessageArrives(s, [], s, e);
    StepKeepsInv(t, Begin(listed, Poll));
    actions, t := Then(s, actions, t, Begin(listed, Poll));
    actions, t := WaitHome(s, actions, t, i, e);
    SeenIsReported(t, i, e);
  }

  /* Where a timed wait is deaf */

  /** Everything is at rest, `triggered` is set and a listed queue has something
      in it, and the timed wait on these slots sleeps on. */
  ghost predicate TimedSleepsThrough(kinds: seq<Kind>, workers: nat, listed: seq<Slot>, actions: seq<Action>) {
    var end := Run(Initial(kinds, workers), actions);
    && end.Some? && end.value.call.Asleep? && end.value.patience.Timed? && end.value.listed == listed
    && AllIdle(end.value) && end.value.triggered && !ListedQueuesEmpty(end.value)
  }

  predicate ListsQueue(kinds: seq<Kind>, listed: seq<Slot>) {
    exists i :: 0 <= i < |listed| && listed[i].Listed? && listed[i].e < |kinds| && kinds[listed[i].e] == Queue
  }

  predicate NothingReady(s: State) { forall e :: 0 <= e < |s.entities| ==> s.entities[e].count == 0 }

  /** With nothing ready the attach loops run to their end. */
  lemma AttachHome(start: State, before: seq<Action>, s: State) returns (actions: seq<Action>, t: State)
    requires Run(start, before) == Some(s) && Inv(s) && AllIdle(s) && NothingReady(s)
    requires s.call.SetWant? || (Attaching(s.call) && (s.call.AttachWrite? ==> s.call.empty))
    ensures Run(start, actions) == Some(t) && Inv(t) && AllIdle(t) && NothingReady(t) && t.call.SetWant?
    ensures t.jobs == s.jobs && t.listed == s.listed && t.patience == s.patience && SameCounts(s, t)
    decreases WaitLeft(s)
  {
    hide Inv, Run, WaitLeft, Step;
    actions, t := before, s;
    if Attaching(s.call) {
      AloneCanStep(s);
      actions, t := Then(start, before, s, Wait);
      AttachStepHome(s);
      actions, t := AttachHome(start, actions, t);
    }
  }

  lemma AttachStepHome(s: State)
    requires Inv(s) && AllIdle(s) && NothingReady(s) && CanStep(s, Waiter)
    requires Attaching(s.call) && (s.call.AttachWrite? ==> s.call.empty)
    ensures var t := Step(s, Wait);
      && Inv(t) && AllIdle(t) && NothingReady(t)
      && (t.call.SetWant? || (Attaching(t.call) && (t.call.AttachWrite? ==> t.call.empty)))
      && t.jobs == s.jobs && t.listed == s.listed && t.patience == s.patience && SameCounts(s, t)
      && 0 <= WaitLeft(t) < WaitLeft(s)
  {
    hide Inv, WaitLeft;
    GoesOn(s, Wait);
    WaitGoesOn(s);
    WaitLeftIsNatural(Step(s, Wait));
    hide WaitStep;
    WaitKeepsCounts(s);
    WaitIsFramed(s);
    StillAttaching(s);
  }

  lemma StillAttaching(s: State)
    requires Inv(s) && NothingReady(s) && Attaching(s.call) && (s.call.AttachWrite? ==> s.call.empty)
    ensures var t := WaitStep(s); t.call.SetWant? || (Attaching(t.call) && (t.call.AttachWrite? ==> t.call.empty))
  {
    hide LocksMatch, AttachedAsListed, Heard, SleepExplained, Recorded, JobsSound, JobFits;
  }

  lemma AttachedAtEnd(s: State, i: nat)
    requires Inv(s) && s.call.SetWant? && InList(s, i)
    ensures s.entities[s.listed[i].e].attached
  {
    hide LocksMatch, Shaped, Heard, SleepExplained, Recorded, JobsSound;
    assert i < High(s);
  }

  lemma MessageCanBeSleptThrough(kinds: seq<Kind>, workers: nat, listed: seq<Slot>)
    requires workers > 0 && ValidSlots(kinds, listed) && ListsQueue(kinds, listed)
    ensures exists actions :: TimedSleepsThrough(kinds, workers, listed, actions)
  {
    hide Run, Inv;
    var i: nat :| i < |listed| && listed[i].Listed? && listed[i].e < |kinds| && kinds[listed[i].e] == Queue;
    var e := listed[i].e;
    var start := Initial(kinds, workers);
    NoActions(start);
    InitialInv(kinds, workers);
    var actions, s := Then(start, [], start, Begin(listed, Timed));
    StepKeepsInv(start, Begin(listed, Timed));
    hide Initial;
    actions, s := AttachHome(start, actions, s);
    AttachedAtEnd(s, i);
    var waiting := s;
    actions, s := MessageArrives(start, actions, waiting, e);
    AloneCanStep(s);
    var asleep;
    actions, asleep := Then(start, actions, s, Wait);
    assert asleep.call.Asleep? && asleep.patience.Timed? && asleep.triggered && AllIdle(asleep);
    assert asleep.listed == listed;
    assert InList(asleep, i) && Nonempty(asleep, asleep.listed[i].e);
    assert !ListedQueuesEmpty(asleep);
    assert TimedSleepsThrough(kinds, workers, listed, actions);
  }

  /** A timed wait can be left asleep with a message in a listed queue and
      `triggered` set exactly when it lists a queue: it does not look before it
      sleeps. */
  lemma TimedSleepsThroughExactly(kinds: seq<Kind>, workers: nat, listed: seq<Slot>)
    requires workers > 0 && ValidSlots(kinds, listed)
    ensures (exists actions :: TimedSleepsThrough(kinds, workers, listed, actions)) <==> ListsQueue(kinds, listed)
  {
    if ListsQueue(kinds, listed) {
      MessageCanBeSleptThrough(kinds, workers, listed);
    }
    forall actions | TimedSleepsThrough(kinds, workers, listed, actions) ensures ListsQueue(kinds, listed) {
      hide Run;
      KindsNeverChange(kinds, workers, actions);
    }
  }
}
