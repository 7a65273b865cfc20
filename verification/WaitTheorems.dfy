/** What the wait protocol guarantees over whole runs, and where it does not. */
module WaitTheorems {
  import opened WaitProtocol
  import opened WaitLocks
  import opened WaitSafety

  /* No lost wake-up */

  /** While an untimed wait sleeps, every listed entity points at the wait set,
      and a queue with something in it has a callback between its append and its
      signal. `triggered` is false unless a callback is about to signal or a
      guard condition was tripped. */
  lemma NoLostWakeup(kinds: seq<Kind>, workers: nat, actions: seq<Action>)
    requires Run(Initial(kinds, workers), actions).Some?
    ensures var s := Run(Initial(kinds, workers), actions).value;
      s.call.Asleep? && s.patience.Forever? ==>
        && (forall i :: 0 <= i < |s.listed| && InList(s, i) ==>
            && s.entities[s.listed[i].e].attached
            && (Nonempty(s, s.listed[i].e) ==> Pending(s, s.listed[i].e)))
        && (s.triggered ==> Signalling(s) || GuardTripped(s))
  {
    InvAlways(kinds, workers, actions);
    hide Run, LocksMatch, Shaped, Pending, Recorded, JobsSound;
    var s := Run(Initial(kinds, workers), actions).value;
    if s.call.Asleep? && s.patience.Forever? {
      forall i | 0 <= i < |s.listed| && InList(s, i)
        ensures s.entities[s.listed[i].e].attached
        ensures Nonempty(s, s.listed[i].e) ==> Pending(s, s.listed[i].e)
      {
        assert i < High(s);
        assert Nonempty(s, s.listed[i].e) ==> HeardFrom(s, s.listed[i].e);
      }
    }
  }

  ghost predicate AllIdle(s: State) { forall p :: 0 <= p < |s.jobs| ==> s.jobs[p].Idle? }

  ghost predicate ListedQueuesEmpty(s: State) {
    forall i :: 0 <= i < |s.listed| && InList(s, i) ==> !Nonempty(s, s.listed[i].e)
  }

  lemma QuietMeansEmpty(s: State)
    requires Inv(s) && s.call.Asleep? && s.patience.Forever? && AllIdle(s)
    ensures ListedQueuesEmpty(s) && (s.triggered ==> GuardTripped(s))
  {
    hide LocksMatch, Shaped, Recorded, JobsSound;
    forall i | 0 <= i < |s.listed| && InList(s, i) ensures !Nonempty(s, s.listed[i].e) {
      assert i < High(s);
      assert Nonempty(s, s.listed[i].e) ==> HeardFrom(s, s.listed[i].e);
    }
  }

  /** The steps a callback or a take still has to make. */
  function StepsLeft(j: Job): nat {
    match j
    case Idle => 0
    case Leaving(_) => 1
    case Signalled(_) => 2
    case Raised(_) => 3
    case HasSet(_) => 4
    case WantSet(_) => 5
    case HasCond(_) => 6
    case Appended(_) => 7
    case Tripping(_) => 7
    case InQueue(_) => 8
    case WantTrip(_) => 8
    case WantQueue(_) => 9
    case Taking(_) => 1
    case WantTake(_) => 2
  }

  function WorkLeft(jobs: seq<Job>): nat {
    if jobs == [] then 0 else WorkLeft(jobs[..|jobs| - 1]) + StepsLeft(jobs[|jobs| - 1])
  }

  lemma {:induction false} OneJobShorter(jobs: seq<Job>, p: nat, j: Job)
    requires p < |jobs| && StepsLeft(j) < StepsLeft(jobs[p])
    ensures WorkLeft(jobs[p := j]) < WorkLeft(jobs)
  {
    var n := |jobs| - 1;
    hide StepsLeft;
    if p == n {
      assert jobs[p := j][..n] == jobs[..n];
    } else {
      assert jobs[p := j][..n] == jobs[..n][p := j];
      OneJobShorter(jobs[..n], p, j);
    }
  }

  lemma WorkShortens(s: State, p: nat)
    requires Inv(s) && CanStep(s, Worker(p))
    ensures Enabled(s, Work(p)) && WorkLeft(Step(s, Work(p)).jobs) < WorkLeft(s.jobs)
  {
    hide LocksMatch, AttachedAsListed, Heard, SleepExplained, Recorded, JobsSound, WorkStep;
    WorkHasEffect(s, p);
    var t := WorkStep(s, p);
    assert t.jobs == s.jobs[p := t.jobs[p]];
    OneJobShorter(s.jobs, p, t.jobs[p]);
  }

  lemma SomeWorkerCanStep(s: State) returns (p: nat)
    requires Inv(s) && s.call.Asleep? && !AllIdle(s)
    ensures CanStep(s, Worker(p))
  {
    hide AttachedAsListed, Heard, SleepExplained, Recorded, JobsSound, Shaped, LocksMatch, Wants, WaitsFor;
    p :| 0 <= p < |s.jobs| && !s.jobs[p].Idle?;
    if !CanStep(s, Worker(p)) {
      BlockedThreadHasRunnableOwner(s, Worker(p));
      var u :| WaitsFor(s, Worker(p), u) && Unblocked(s, u);
      if CanStep(s, u) {
        p := u.p;
      } else {
        var v :| WaitsFor(s, u, v) && CanStep(s, v);
        p := v.p;
      }
    }
  }

  ghost predicate OnlyWork(actions: seq<Action>) { forall i :: 0 <= i < |actions| ==> actions[i].Work? }

  /** No callback or take can go on. */
  ghost predicate Stuck(s: State) { forall p: nat :: !CanStep(s, Worker(p)) }

  /** Whatever the order in which the callbacks and takes that have begun go on,
      each step uses up some of their work. */
  lemma {:induction false} WorkIsBounded(s: State, actions: seq<Action>)
    requires Inv(s) && OnlyWork(actions) && Run(s, actions).Some?
    ensures |actions| + WorkLeft(Run(s, actions).value.jobs) <= WorkLeft(s.jobs)
    ensures Inv(Run(s, actions).value)
  {
    hide Inv, Step, Enabled, WorkLeft;
    if actions != [] {
      var n := |actions| - 1;
      WorkIsBounded(s, actions[..n]);
      var t := Run(s, actions[..n]).value;
      var p := actions[n].p;
      WorkEnabled(t, p);
      StepKeepsInv(t, Work(p));
      WorkShortens(t, p);
    }
  }

  lemma WorkEnabled(s: State, p: nat)
    requires Enabled(s, Work(p))
    ensures CanStep(s, Worker(p))
  {
  }

  /** Every maximal run of the callbacks and takes that have begun wakes the
      sleeper or leaves every listed queue empty. */
  lemma {:induction false} WakesOrDrains(s: State, actions: seq<Action>)
    requires Inv(s) && s.call.Asleep? && s.patience.Forever?
    requires OnlyWork(actions) && Run(s, actions).Some? && Stuck(Run(s, actions).value)
    ensures var t := Run(s, actions).value; t.call.Woken? || (t.call.Asleep? && AllIdle(t) && ListedQueuesEmpty(t))
  {
    hide Inv, CanStep, Run;
    var t := Run(s, actions).value;
    WorkIsBounded(s, actions);
    SleeperAfterWork(s, actions);
    if t.call.Asleep? {
      if !AllIdle(t) {
        var p := SomeWorkerCanStep(t);
        assert false;
      }
      QuietMeansEmpty(t);
    }
  }

  lemma {:induction false} SleeperAfterWork(s: State, actions: seq<Action>)
    requires Inv(s) && (s.call.Asleep? || s.call.Woken?) && OnlyWork(actions) && Run(s, actions).Some?
    ensures var t := Run(s, actions).value; t.patience == s.patience && (t.call.Woken? || t.call.Asleep?)
  {
    hide Inv, Step, Enabled;
    if actions != [] {
      var n := |actions| - 1;
      SleeperAfterWork(s, actions[..n]);
      WorkIsBounded(s, actions[..n]);
      SleeperAfterStep(Run(s, actions[..n]).value, actions[n].p);
    }
  }

  lemma SleeperAfterStep(s: State, p: nat)
    requires Inv(s) && (s.call.Asleep? || s.call.Woken?) && Enabled(s, Work(p))
    ensures var t := Step(s, Work(p)); t.patience == s.patience && (t.call.Woken? || t.call.Asleep?)
  {
    WorkIsFramed(s, p);
  }

  /* From the beginning of a call to its end */

  /** The wait will not sleep any more: woken by a signal it finds `triggered`
      set, which only it clears. */
  predicate PastSleep(s: State) {
    || s.call.Clearing? || Detaching(s.call) || s.call.Returned?
    || (s.call.Woken? && !s.patience.Forever?)
    || ((s.call.Woken? || s.call.Testing?) && s.triggered)
  }

  /** It will return without sleeping from here on. */
  predicate OnItsWay(s: State) { PastSleep(s) || (s.patience.Poll? && (Attaching(s.call) || s.call.SetWant?)) }

  /** The most steps the wait can still make by itself. */
  function WaitLeft(s: State): int {
    var n := |s.listed|;
    match s.call
    case Outside => 0
    case AttachWant(i) => 4 * n + 9 + 4 * (n - i)
    case AttachProbe(i) => 4 * n + 8 + 4 * (n - i)
    case AttachCount(i) => 4 * n + 7 + 4 * (n - i)
    case AttachWrite(i, _) => 4 * n + 6 + 4 * (n - i)
    case SetWant => 4 * n + 8
    case Testing => if s.triggered then 4 * n + 3 else 4 * n + 6
    case Asleep => 4 * n + 4
    case Woken => if s.triggered || !s.patience.Forever? then 4 * n + 4 else 4 * n + 7
    case Clearing => 4 * n + 2
    case DetachWant(i) => 4 * (n - i) + 1
    case DetachProbe(i) => 4 * (n - i)
    case DetachCount(i) => 4 * (n - i) - 1
    case DetachLeave(i, _) => 4 * (n - i) - 2
    case Returned => 0
  }

  function CallLeft(s: State): int { WorkLeft(s.jobs) + WaitLeft(s) }

  lemma WaitLeftIsNatural(s: State)
    requires Inv(s)
    ensures 0 <= WaitLeft(s) <= 8 * |s.listed| + 9
  {
    hide LocksMatch, AttachedAsListed, Heard, SleepExplained, Recorded, JobsSound, JobFits;
  }

  lemma WaitGoesOn(s: State)
    requires Inv(s) && CanStep(s, Waiter)
    ensures WaitLeft(WaitStep(s)) < WaitLeft(s) && WaitStep(s).jobs == s.jobs
    ensures OnItsWay(s) ==> OnItsWay(WaitStep(s))
  {
    hide LocksMatch, AttachedAsListed, Heard, SleepExplained, Recorded, JobsSound, JobFits;
    hide AttachStep, SleepStep, DetachStep, WaitLeft, OnItsWay;
    if Attaching(s.call) {
      AttachGoesOn(s);
    } else if Sleeping(s.call) {
      SleepGoesOn(s);
    } else {
      DetachGoesOn(s);
    }
  }

  lemma AttachGoesOn(s: State)
    requires CallFits(s) && Attaching(s.call)
    ensures var t := AttachStep(s); WaitLeft(t) < WaitLeft(s) && t.jobs == s.jobs && (OnItsWay(s) ==> OnItsWay(t))
  {
    NextInAttach(s);
    hide AttachStep, IsQueue;
  }

  /** The next place in the attach loops. */
  lemma NextInAttach(s: State)
    requires CallFits(s) && Attaching(s.call)
    ensures var t, i := AttachStep(s), s.call.i;
      && t.jobs == s.jobs && t.listed == s.listed && t.patience == s.patience
      && (t.call == AttachWant(i + 1) || t.call == SetWant || t.call == DetachWant(0)
          || (t.call == AttachProbe(i) && s.call.AttachWant?)
          || (t.call == AttachCount(i) && s.call.AttachProbe?)
          || (t.call.AttachWrite? && t.call.i == i && (s.call.AttachProbe? || s.call.AttachCount?)))
      && (t.call == AttachWant(i + 1) ==> i < |s.listed| && (s.call.AttachWant? || s.call.AttachWrite?))
      && (t.call == SetWant ==> s.call.AttachWant? && i == |s.listed|)
      && i <= |s.listed| && (!s.call.AttachWant? ==> i < |s.listed|)
  {
  }

  lemma SleepGoesOn(s: State)
    requires Sleeping(s.call)
    ensures var t := SleepStep(s); WaitLeft(t) < WaitLeft(s) && t.jobs == s.jobs && (OnItsWay(s) ==> OnItsWay(t))
  {
  }

  lemma DetachGoesOn(s: State)
    requires CallFits(s) && Detaching(s.call)
    ensures var t := DetachStep(s); WaitLeft(t) < WaitLeft(s) && t.jobs == s.jobs && (OnItsWay(s) ==> OnItsWay(t))
  {
    NextInDetach(s);
    hide DetachStep, IsQueue;
  }

  /** The next place in the detach loops. */
  lemma NextInDetach(s: State)
    requires CallFits(s) && Detaching(s.call)
    ensures var t, i := DetachStep(s), s.call.i;
      && t.jobs == s.jobs && t.listed == s.listed && t.patience == s.patience
      && t.call == (
        if i == |s.listed| then Returned
        else if s.call.DetachProbe? && IsQueue(s, s.listed[i].e) then DetachCount(i)
        else if s.call.DetachProbe? || s.call.DetachCount? then DetachLeave(i, s.entities[s.listed[i].e].count)
        else if s.call.DetachWant? && InList(s, i) then DetachProbe(i)
        else DetachWant(i + 1))
  {
  }

  lemma WorkLetsItGoOn(s: State, p: nat)
    requires Inv(s) && CanStep(s, Worker(p)) && s.jobs[p].e < |s.entities|
    ensures WaitLeft(WorkStep(s, p)) <= WaitLeft(s) && (OnItsWay(s) ==> OnItsWay(WorkStep(s, p)))
  {
    hide LocksMatch, AttachedAsListed, Heard, SleepExplained, Recorded, Shaped, WorkStep, CanStep;
    WorkHasEffect(s, p);
    assert JobSound(s, s.jobs[p]);
  }

  /** Steps of the wait, and of callbacks and takes that have begun. */
  ghost predicate OnlyGoingOn(actions: seq<Action>) {
    forall i :: 0 <= i < |actions| ==> actions[i].Work? || actions[i].Wait?
  }

  lemma {:induction false} CallIsBounded(s: State, actions: seq<Action>)
    requires Inv(s) && OnlyGoingOn(actions) && Run(s, actions).Some?
    ensures Inv(Run(s, actions).value)
    ensures OnItsWay(s) ==> OnItsWay(Run(s, actions).value)
    ensures |actions| + CallLeft(Run(s, actions).value) <= CallLeft(s)
  {
    hide Inv, OnItsWay, Step, CallLeft, Enabled;
    if actions != [] {
      var n := |actions| - 1;
      CallIsBounded(s, actions[..n]);
      GoesOn(Run(s, actions[..n]).value, actions[n]);
    }
  }

  lemma GoesOn(s: State, a: Action)
    requires Inv(s) && Enabled(s, a) && (a.Work? || a.Wait?)
    ensures Inv(Step(s, a)) && CallLeft(Step(s, a)) < CallLeft(s)
    ensures OnItsWay(s) ==> OnItsWay(Step(s, a))
  {
    hide Inv, OnItsWay, CanStep, WorkLeft, WaitLeft, WorkStep, WaitStep;
    StepKeepsInv(s, a);
    if a.Wait? {
      WaitGoesOn(s);
    } else {
      WorkShortens(s, a.p);
      WorkLetsItGoOn(s, a.p);
    }
  }

  /** No thread can go on. */
  ghost predicate Halted(s: State) { forall t: Thread :: !CanStep(s, t) }

  lemma HaltedThreadsAreNotBusy(s: State, t: Thread)
    requires Inv(s) && Halted(s)
    ensures !Busy(s, t)
  {
    hide CanStep, WaitsFor;
    if Busy(s, t) {
      BlockedThreadHasRunnableOwner(s, t);
      assert false;
    }
  }

  /** Every maximal run of a call and of the callbacks and takes that have begun
      is bounded and ends with the wait back or asleep: back, if it polls or was
      woken from a timed sleep or by a signal; and an untimed sleep leaves no
      listed queue with anything in it. */
  lemma CallEnds(s: State, actions: seq<Action>)
    requires Inv(s) && !s.call.Outside?
    requires OnlyGoingOn(actions) && Run(s, actions).Some? && Halted(Run(s, actions).value)
    ensures |actions| <= WorkLeft(s.jobs) + 8 * |s.listed| + 9
    ensures var t := Run(s, actions).value;
      && AllIdle(t) && (t.call.Returned? || t.call.Asleep?)
      && (OnItsWay(s) ==> t.call.Returned?)
      && (t.call.Asleep? && t.patience.Forever? ==> ListedQueuesEmpty(t))
  {
    hide Inv, Run, Halted, WorkLeft, OnlyGoingOn, WaitLeft;
    var t := Run(s, actions).value;
    CallIsBounded(s, actions);
    WaitLeftIsNatural(s);
    WaitLeftIsNatural(t);
    NeverOutside(s, actions);
    HaltedThreadsAreNotBusy(t, Waiter);
    forall p | 0 <= p < |t.jobs| ensures t.jobs[p].Idle? {
      HaltedThreadsAreNotBusy(t, Worker(p));
    }
    if t.call.Asleep? && t.patience.Forever? {
      QuietMeansEmpty(t);
    }
  }

  lemma {:induction false} NeverOutside(s: State, actions: seq<Action>)
    requires Inv(s) && !s.call.Outside? && OnlyGoingOn(actions) && Run(s, actions).Some?
    ensures !Run(s, actions).value.call.Outside?
  {
    hide Inv, Step, Enabled;
    if actions != [] {
      var n := |actions| - 1;
      NeverOutside(s, actions[..n]);
      CallIsBounded(s, actions[..n]);
      StaysInside(Run(s, actions[..n]).value, actions[n]);
    }
  }

  lemma StaysInside(s: State, a: Action)
    requires Inv(s) && !s.call.Outside? && Enabled(s, a) && (a.Work? || a.Wait?)
    ensures !Step(s, a).call.Outside?
  {
    hide LocksMatch, AttachedAsListed, Heard, SleepExplained, Recorded, JobsSound, JobFits, WorkStep, WorkEffect;
    if a.Work? {
      WorkIsFramed(s, a.p);
    }
  }

  /** A wait that sleeps with a timeout comes back once that has passed. */
  lemma TimeoutEndsCall(s: State, actions: seq<Action>)
    requires Inv(s) && s.call.Asleep? && s.patience.Timed? && OnlyGoingOn(actions)
    requires Run(Step(s, Wake), actions).Some? && Halted(Run(Step(s, Wake), actions).value)
    ensures Run(Step(s, Wake), actions).value.call.Returned?
  {
    hide Inv, Run, Halted, OnlyGoingOn;
    StepKeepsInv(s, Wake);
    CallEnds(Step(s, Wake), actions);
  }

  /** A wait with a zero timeout comes back. */
  lemma PollReturns(s: State, listed: seq<Slot>, actions: seq<Action>)
    requires Inv(s) && Enabled(s, Begin(listed, Poll)) && OnlyGoingOn(actions)
    requires Run(Step(s, Begin(listed, Poll)), actions).Some?
    requires Halted(Run(Step(s, Begin(listed, Poll)), actions).value)
    ensures Run(Step(s, Begin(listed, Poll)), actions).value.call.Returned?
  {
    hide Inv, Run, Halted, OnlyGoingOn, Enabled;
    StepKeepsInv(s, Begin(listed, Poll));
    CallEnds(Step(s, Begin(listed, Poll)), actions);
  }

  /** From an untimed sleep on: the wait comes back, or sleeps on while every
      listed queue is empty. */
  lemma ReturnsOrDrains(s: State, actions: seq<Action>)
    requires Inv(s) && s.call.Asleep? && s.patience.Forever?
    requires OnlyGoingOn(actions) && Run(s, actions).Some? && Halted(Run(s, actions).value)
    ensures var t := Run(s, actions).value;
      AllIdle(t) && (t.call.Returned? || (t.call.Asleep? && ListedQueuesEmpty(t)))
  {
    hide Inv, Run, Halted;
    CallEnds(s, actions);
    SamePatience(s, actions);
  }

  lemma {:induction false} SamePatience(s: State, actions: seq<Action>)
    requires Inv(s) && OnlyGoingOn(actions) && Run(s, actions).Some?
    ensures Run(s, actions).value.patience == s.patience
  {
    hide Inv, Step, Enabled;
    if actions != [] {
      var n := |actions| - 1;
      SamePatience(s, actions[..n]);
      CallIsBounded(s, actions[..n]);
      StepKeepsPatience(Run(s, actions[..n]).value, actions[n]);
    }
  }

  lemma StepKeepsPatience(s: State, a: Action)
    requires Inv(s) && Enabled(s, a) && (a.Work? || a.Wait?)
    ensures Step(s, a).patience == s.patience
  {
    hide LocksMatch, AttachedAsListed, Heard, SleepExplained, Recorded, JobsSound, Shaped, WorkStep, WaitStep;
    if a.Work? {
      WorkIsFramed(s, a.p);
    } else {
      WaitIsFramed(s);
    }
  }

  lemma NoActions(s: State)
    ensures Run(s, []) == Some(s)
  {
  }

  /* No deadlock */

  /** In every reachable state a thread inside a call can go on, or waits for one
      that can, or for one that waits for one that can. */
  lemma NeverDeadlocked(kinds: seq<Kind>, workers: nat, actions: seq<Action>, t: Thread)
    requires Run(Initial(kinds, workers), actions).Some? && Busy(Run(Initial(kinds, workers), actions).value, t)
    ensures var s := Run(Initial(kinds, workers), actions).value;
      CanStep(s, t) || exists u: Thread :: WaitsFor(s, t, u) && Unblocked(s, u)
  {
    hide CanStep, WaitsFor, Unblocked, Run, Initial;
    InvAlways(kinds, workers, actions);
    var s := Run(Initial(kinds, workers), actions).value;
    if !CanStep(s, t) {
      BlockedThreadHasRunnableOwner(s, t);
    }
  }

  lemma NoCycleOfLockWaits(kinds: seq<Kind>, workers: nat, actions: seq<Action>, chain: seq<Thread>)
    requires Run(Initial(kinds, workers), actions).Some? && |chain| >= 2
    requires forall i :: 0 <= i < |chain| - 1 ==>
      WaitsFor(Run(Initial(kinds, workers), actions).value, chain[i], chain[i + 1])
    ensures chain[0] != chain[|chain| - 1]
  {
    hide WaitsFor, Run, Initial;
    InvAlways(kinds, workers, actions);
    LockWaitsAreAcyclic(Run(Initial(kinds, workers), actions).value, chain);
  }

  /* The result of rmw_wait */

  /** On return the code is OK exactly when some slot is left, a slot is left
      exactly when its detach step read a count above zero, and nothing points
      at the wait set any more, even when attaching stopped early. */
  lemma WaitResult(kinds: seq<Kind>, workers: nat, actions: seq<Action>)
    requires Run(Initial(kinds, workers), actions).Some?
    ensures var s := Run(Initial(kinds, workers), actions).value;
      s.call.Returned? ==>
        && |s.slots| == |s.seen| == |s.listed|
        && (forall i :: 0 <= i < |s.slots| ==> s.slots[i] == if s.seen[i] > 0 then s.listed[i] else NoEntity)
        && (Result(s) == RMW_RET_OK <==> exists i :: 0 <= i < |s.slots| && s.slots[i].Listed?)
        && (forall e :: 0 <= e < |s.entities| ==> !s.entities[e].attached)
  {
    InvAlways(kinds, workers, actions);
    hide Run, LocksMatch, Shaped, Heard, JobsSound, SleepExplained;
    var s := Run(Initial(kinds, workers), actions).value;
    if s.call.Returned? {
      forall i | 0 <= i < |s.slots| ensures s.slots[i] == if s.seen[i] > 0 then s.listed[i] else NoEntity {
      }
      if s.found {
        var i :| 0 <= i < |s.seen| && s.seen[i] > 0;
        assert s.slots[i].Listed?;
      }
      forall e | 0 <= e < |s.entities| ensures !s.entities[e].attached {
        assert !InWindow(s, e);
      }
    }
  }

  /** Action `k` of the run is the detach step of slot `i` of the call that is
      still the latest, and the entity's count at that moment is `n`. */
  ghost predicate ReadAt(start: State, actions: seq<Action>, k: nat, i: nat, e: nat, n: nat) {
    && k < |actions| && actions[k].Wait? && (forall h :: k <= h < |actions| ==> !actions[h].Begin?)
    && var reached := Run(start, actions[..k]);
      && reached.Some?
      && (reached.value.call == DetachCount(i) || (reached.value.call == DetachProbe(i) && !IsQueue(reached.value, e)))
      && e < |reached.value.entities| && reached.value.entities[e].count == n
  }

  ghost predicate WasRead(start: State, actions: seq<Action>, i: nat, e: nat, n: nat) {
    exists k :: ReadAt(start, actions, k, i, e, n)
  }

  ghost predicate SeenWereRead(start: State, actions: seq<Action>, s: State) {
    && (forall i :: 0 <= i < |s.seen| && InList(s, i) ==> WasRead(start, actions, i, s.listed[i].e, s.seen[i]))
    && (s.call.DetachLeave? && InList(s, s.call.i) ==>
        WasRead(start, actions, s.call.i, s.listed[s.call.i].e, s.call.count))
  }

  lemma StillRead(start: State, actions: seq<Action>, i: nat, e: nat, n: nat)
    requires actions != [] && WasRead(start, actions[..|actions| - 1], i, e, n) && !actions[|actions| - 1].Begin?
    ensures WasRead(start, actions, i, e, n)
  {
    var shorter := actions[..|actions| - 1];
    var k: nat :| ReadAt(start, shorter, k, i, e, n);
    hide Run;
    assert shorter[..k] == actions[..k] && shorter[k] == actions[k];
    forall h | k <= h < |actions| ensures !actions[h].Begin? {
      assert h < |actions| - 1 ==> actions[h] == shorter[h];
    }
    assert ReadAt(start, actions, k, i, e, n);
  }

  /** How a step that does not begin a call can change what has been read. */
  ghost predicate ReadsKept(s: State, a: Action, t: State) {
    && t.listed == s.listed && |t.entities| == |s.entities|
    && (t.seen == s.seen
        || (s.call.DetachLeave? && t.seen == s.seen + [s.call.count] && s.call.i == |s.seen|)
        || (t.seen == s.seen + [0] && !InList(s, |s.seen|)))
    && (t.call.DetachLeave? ==>
        || t.call == s.call
        || (a.Wait? && InList(s, t.call.i)
            && (s.call == DetachCount(t.call.i)
                || (s.call == DetachProbe(t.call.i) && !IsQueue(s, s.listed[t.call.i].e)))
            && s.entities[s.listed[t.call.i].e].count == t.call.count))
  }

  lemma WaitStepKeepsReads(s: State)
    requires Inv(s) && CanStep(s, Waiter)
    ensures ReadsKept(s, Wait, WaitStep(s))
  {
    hide Inv, ReadsKept, AttachStep, SleepStep, DetachStep;
    if Attaching(s.call) {
      AttachKeepsReads(s);
    } else if Sleeping(s.call) {
      SleepKeepsReads(s);
    } else {
      DetachKeepsReads(s);
    }
  }

  lemma AttachKeepsReads(s: State)
    requires Attaching(s.call)
    ensures ReadsKept(s, Wait, AttachStep(s))
  {
  }

  lemma SleepKeepsReads(s: State)
    requires Sleeping(s.call)
    ensures ReadsKept(s, Wait, SleepStep(s))
  {
    SleepEffect(s);
  }

  lemma DetachKeepsReads(s: State)
    requires Inv(s) && Detaching(s.call)
    ensures ReadsKept(s, Wait, DetachStep(s))
  {
    hide LocksMatch, Heard, JobsSound, SleepExplained, AttachedAsListed, Kept;
  }

  lemma StepKeepsReads(s: State, a: Action)
    requires Inv(s) && Enabled(s, a) && !a.Begin?
    ensures ReadsKept(s, a, Step(s, a))
  {
    hide LocksMatch, Heard, JobsSound, SleepExplained, AttachedAsListed, WaitStep, WorkStep, CanStep;
    if a.Wait? {
      WaitStepKeepsReads(s);
    } else if a.Work? {
      WorkHasEffect(s, a.p);
    }
  }

  lemma SeenStayRead(start: State, actions: seq<Action>, s: State, t: State)
    requires actions != [] && !actions[|actions| - 1].Begin?
    requires Run(start, actions[..|actions| - 1]) == Some(s) && SeenWereRead(start, actions[..|actions| - 1], s)
    requires ReadsKept(s, actions[|actions| - 1], t)
    ensures SeenWereRead(start, actions, t)
  {
    hide Run, WasRead;
    forall i | 0 <= i < |t.seen| && InList(t, i) ensures WasRead(start, actions, i, t.listed[i].e, t.seen[i]) {
      if i < |s.seen| {
        StillRead(start, actions, i, s.listed[i].e, s.seen[i]);
      } else {
        StillRead(start, actions, i, s.listed[i].e, s.call.count);
      }
    }
    if t.call.DetachLeave? && InList(t, t.call.i) {
      if t.call == s.call {
        StillRead(start, actions, t.call.i, s.listed[t.call.i].e, t.call.count);
      } else {
        ReadNow(start, actions, s, t.call.i, s.listed[t.call.i].e, t.call.count);
      }
    }
  }

  lemma ReadNow(start: State, actions: seq<Action>, s: State, i: nat, e: nat, n: nat)
    requires actions != [] && actions[|actions| - 1].Wait? && Run(start, actions[..|actions| - 1]) == Some(s)
    requires s.call == DetachCount(i) || (s.call == DetachProbe(i) && !IsQueue(s, e))
    requires e < |s.entities| && s.entities[e].count == n
    ensures WasRead(start, actions, i, e, n)
  {
    assert ReadAt(start, actions, |actions| - 1, i, e, n);
  }

  /** Every count `rmw_wait` decides a slot by was the length of that slot's
      queue (or the flag of its guard) at the slot's own detach step. */
  lemma {:induction false} CountsAreReadAtDetach(kinds: seq<Kind>, workers: nat, actions: seq<Action>)
    requires Run(Initial(kinds, workers), actions).Some?
    ensures SeenWereRead(Initial(kinds, workers), actions, Run(Initial(kinds, workers), actions).value)
  {
    hide Inv, Step, Enabled, WasRead;
    var start := Initial(kinds, workers);
    if actions != [] {
      var n := |actions| - 1;
      var s := Run(start, actions[..n]).value;
      CountsAreReadAtDetach(kinds, workers, actions[..n]);
      InvAlways(kinds, workers, actions[..n]);
      if actions[n].Begin? {
        NothingSeenAtBegin(s, actions[n]);
      } else {
        StepKeepsReads(s, actions[n]);
        SeenStayRead(start, actions, s, Step(s, actions[n]));
      }
    }
  }

  lemma NothingSeenAtBegin(s: State, a: Action)
    requires a.Begin? && Enabled(s, a)
    ensures Step(s, a).seen == [] && Step(s, a).call == AttachWant(0)
  {
  }

  /* Where the guarantee stops */

  /** Everything is at rest, `triggered` is set, and the untimed wait on these
      slots sleeps on. */
  ghost predicate SleepsThrough(kinds: seq<Kind>, workers: nat, listed: seq<Slot>, actions: seq<Action>) {
    var end := Run(Initial(kinds, workers), actions);
    && end.Some? && end.value.call.Asleep? && end.value.patience.Forever? && end.value.listed == listed
    && AllIdle(end.value) && end.value.triggered
  }

  predicate ValidSlots(kinds: seq<Kind>, listed: seq<Slot>) {
    forall i :: 0 <= i < |listed| && listed[i].Listed? ==> listed[i].e < |kinds|
  }

  predicate ListsGuard(kinds: seq<Kind>, listed: seq<Slot>) {
    exists i :: 0 <= i < |listed| && listed[i].Listed? && listed[i].e < |kinds| && kinds[listed[i].e] == Guard
  }

  lemma Then(start: State, actions: seq<Action>, s: State, a: Action) returns (longer: seq<Action>, t: State)
    requires Run(start, actions) == Some(s) && Enabled(s, a)
    ensures t == Step(s, a) && Run(start, longer) == Some(t)
  {
    hide Step, Enabled;
    longer, t := actions + [a], Step(s, a);
    assert longer[..|actions|] == actions;
  }

  /** The untimed wait is at `call`, every queue is empty, no guard is set, and
      nobody else moves. */
  ghost predicate Alone(s: State, kinds: seq<Kind>, listed: seq<Slot>, call: Call, held: map<Lock, Thread>) {
    && s.call == call && s.patience.Forever? && s.listed == listed && s.held == held
    && !s.triggered && AllIdle(s) && ValidSlots(kinds, listed)
    && |s.entities| == |kinds|
    && forall e :: 0 <= e < |kinds| ==> s.entities[e].kind == kinds[e] && s.entities[e].count == 0
  }

  lemma BeginAlone(kinds: seq<Kind>, workers: nat, listed: seq<Slot>) returns (actions: seq<Action>, s: State)
    requires ValidSlots(kinds, listed)
    ensures Run(Initial(kinds, workers), actions) == Some(s) && |s.jobs| == workers
    ensures Alone(s, kinds, listed, AttachWant(0), map[])
  {
    hide Run;
    var start := Initial(kinds, workers);
    NoActions(start);
    actions, s := Then(start, [], start, Begin(listed, Forever));
  }

  lemma WaitAlone(start: State, before: seq<Action>, from: State, kinds: seq<Kind>, listed: seq<Slot>, call: Call,
                  held: map<Lock, Thread>)
    returns (actions: seq<Action>, s: State)
    requires Run(start, before) == Some(from) && Alone(from, kinds, listed, call, held)
    requires Attaching(call) && (CallWants(from).Some? ==> CallWants(from).value !in held)
    ensures Run(start, actions) == Some(s) && s.jobs == from.jobs && s == AttachStep(from)
    ensures Alone(s, kinds, listed, s.call, s.held)
  {
    hide Run;
    actions, s := Then(start, before, from, Wait);
  }

  /** The wait deals with one slot. */
  lemma AttachSlot(start: State, before: seq<Action>, from: State, kinds: seq<Kind>, listed: seq<Slot>, i: nat)
    returns (actions: seq<Action>, s: State)
    requires i < |listed| && Run(start, before) == Some(from) && Alone(from, kinds, listed, AttachWant(i), map[])
    ensures Run(start, actions) == Some(s) && s.jobs == from.jobs
    ensures Alone(s, kinds, listed, AttachWant(i + 1), map[])
  {
    hide Run;
    actions, s := WaitAlone(start, before, from, kinds, listed, AttachWant(i), map[]);
    if listed[i].Listed? {
      var cond := CondLock(listed[i].e);
      assert s.call == AttachProbe(i) && s.held == map[cond := Waiter];
      actions, s := AttachProbed(start, actions, s, kinds, listed, i);
      actions, s := WaitAlone(start, actions, s, kinds, listed, AttachWrite(i, true), map[cond := Waiter]);
      assert s.call == AttachWant(i + 1) && s.held == map[];
    }
  }

  lemma AttachProbed(start: State, before: seq<Action>, from: State, kinds: seq<Kind>, listed: seq<Slot>, i: nat)
    returns (actions: seq<Action>, s: State)
    requires i < |listed| && listed[i].Listed? && Run(start, before) == Some(from)
    requires Alone(from, kinds, listed, AttachProbe(i), map[CondLock(listed[i].e) := Waiter])
    ensures Run(start, actions) == Some(s) && s.jobs == from.jobs
    ensures Alone(s, kinds, listed, AttachWrite(i, true), map[CondLock(listed[i].e) := Waiter])
  {
    hide Run;
    var cond, queue := CondLock(listed[i].e), QueueLock(listed[i].e);
    actions, s := WaitAlone(start, before, from, kinds, listed, AttachProbe(i), map[cond := Waiter]);
    if IsQueue(from, listed[i].e) {
      assert s.call == AttachCount(i) && s.held == map[cond := Waiter, queue := Waiter];
      actions, s := WaitAlone(start, actions, s, kinds, listed, AttachCount(i), s.held);
      assert s.held == map[cond := Waiter];
    }
  }

  lemma {:induction false} AttachRest(start: State, before: seq<Action>, from: State, kinds: seq<Kind>,
                                      listed: seq<Slot>, i: nat)
    returns (actions: seq<Action>, s: State)
    requires i <= |listed| && Run(start, before) == Some(from) && Alone(from, kinds, listed, AttachWant(i), map[])
    ensures Run(start, actions) == Some(s) && s.jobs == from.jobs
    ensures Alone(s, kinds, listed, AttachWant(|listed|), map[])
    decreases |listed| - i
  {
    hide Run, Alone;
    actions, s := before, from;
    if i < |listed| {
      actions, s := AttachSlot(start, actions, s, kinds, listed, i);
      actions, s := AttachRest(start, actions, s, kinds, listed, i + 1);
    }
  }

  /** The wait goes to sleep. */
  lemma SleepAlone(start: State, before: seq<Action>, from: State, kinds: seq<Kind>, listed: seq<Slot>)
    returns (actions: seq<Action>, s: State)
    requires Run(start, before) == Some(from) && Alone(from, kinds, listed, AttachWant(|listed|), map[])
    ensures Run(start, actions) == Some(s) && s.jobs == from.jobs
    ensures Alone(s, kinds, listed, Asleep, map[])
  {
    hide Run;
    actions, s := Then(start, before, from, Wait);
    assert Alone(s, kinds, listed, SetWant, map[]);
    actions, s := Then(start, actions, s, Wait);
    assert Alone(s, kinds, listed, Testing, map[SetLock := Waiter]);
    actions, s := Then(start, actions, s, Wait);
  }

  /** A state in which one worker is at `j` on the attached guard `g`, the
      others are idle, and the wait sleeps on. */
  ghost predicate Tripped(s: State, g: nat, j: Job, held: map<Lock, Thread>) {
    && s.call.Asleep? && s.patience.Forever? && s.held == held
    && |s.jobs| > 0 && s.jobs[0] == j && (forall p :: 1 <= p < |s.jobs| ==> s.jobs[p].Idle?)
    && g < |s.entities| && s.entities[g].kind == Guard && s.entities[g].attached
  }

  function HeldAfter(j: Job, held: map<Lock, Thread>): map<Lock, Thread> {
    if JobWants(j).Some? then held[JobWants(j).value := Worker(0)]
    else if j.Signalled? then held - {SetLock}
    else if j.Leaving? then held - {CondLock(j.e)}
    else held
  }

  lemma TripOn(start: State, actions: seq<Action>, s: State, g: nat, j: Job, held: map<Lock, Thread>)
    returns (longer: seq<Action>, t: State)
    requires Run(start, actions) == Some(s) && Tripped(s, g, j, held)
    requires !j.Idle? && !j.InQueue? && !j.Taking? && j.e == g && (JobWants(j).Some? ==> JobWants(j).value !in held)
    ensures Run(start, longer) == Some(t)
    ensures Tripped(t, g, NextJob(j, true), HeldAfter(j, held))
    ensures t.triggered == (s.triggered || j.HasSet?) && t.listed == s.listed
  {
    hide Run;
    longer, t := Then(start, actions, s, Work(0));
  }

  /** A guard condition is tripped and the wait set marked. */
  lemma MarkByGuard(start: State, before: seq<Action>, asleep: State, g: nat) returns (actions: seq<Action>, s: State)
    requires Run(start, before) == Some(asleep) && Tripped(asleep, g, WantTrip(g), map[])
    ensures Run(start, actions) == Some(s) && s.triggered && s.listed == asleep.listed
    ensures Tripped(s, g, Raised(g), map[CondLock(g) := Worker(0), SetLock := Worker(0)])
  {
    hide Run, WorkStep, Tripped;
    var held: map<Lock, Thread> := map[CondLock(g) := Worker(0)];
    actions, s := TripOn(start, before, asleep, g, WantTrip(g), map[]);
    actions, s := TripOn(start, actions, s, g, Tripping(g), held);
    actions, s := TripOn(start, actions, s, g, HasCond(g), held);
    actions, s := TripOn(start, actions, s, g, WantSet(g), held);
    actions, s := TripOn(start, actions, s, g, HasSet(g), held[SetLock := Worker(0)]);
  }

  /** The trigger ends without a signal. */
  lemma TripGuard(start: State, before: seq<Action>, asleep: State, g: nat) returns (actions: seq<Action>, s: State)
    requires Run(start, before) == Some(asleep) && Tripped(asleep, g, WantTrip(g), map[])
    ensures Run(start, actions) == Some(s) && s.triggered && s.listed == asleep.listed
    ensures exists held :: Tripped(s, g, Idle, held)
  {
    hide Run, WorkStep, Tripped;
    var held: map<Lock, Thread> := map[CondLock(g) := Worker(0), SetLock := Worker(0)];
    actions, s := MarkByGuard(start, before, asleep, g);
    actions, s := TripOn(start, actions, s, g, Raised(g), held);
    actions, s := TripOn(start, actions, s, g, Signalled(g), held);
    actions, s := TripOn(start, actions, s, g, Leaving(g), held - {SetLock});
  }

  lemma BeginTrip(start: State, before: seq<Action>, asleep: State, kinds: seq<Kind>, listed: seq<Slot>, g: nat)
    returns (actions: seq<Action>, s: State)
    requires Run(start, before) == Some(asleep) && Alone(asleep, kinds, listed, Asleep, map[]) && |asleep.jobs| > 0
    requires g < |kinds| && kinds[g] == Guard && asleep.entities[g].attached
    ensures Run(start, actions) == Some(s) && s.listed == listed && Tripped(s, g, WantTrip(g), map[])
  {
    hide Run;
    actions, s := Then(start, before, asleep, Start(0, WantTrip(g)));
  }

  lemma GuardCanBeSleptThrough(kinds: seq<Kind>, workers: nat, listed: seq<Slot>)
    requires workers > 0 && ValidSlots(kinds, listed) && ListsGuard(kinds, listed)
    ensures exists actions :: SleepsThrough(kinds, workers, listed, actions)
  {
    hide Run, Initial, Tripped, Alone;
    var start := Initial(kinds, workers);
    var i: nat :| i < |listed| && listed[i].Listed? && listed[i].e < |kinds| && kinds[listed[i].e] == Guard;
    var g := listed[i].e;
    var actions, s := BeginAlone(kinds, workers, listed);
    actions, s := AttachRest(start, actions, s, kinds, listed, 0);
    actions, s := SleepAlone(start, actions, s, kinds, listed);
    ListedIsAttached(kinds, workers, actions, s, listed, i);
    actions, s := BeginTrip(start, actions, s, kinds, listed, g);
    actions, s := TripGuard(start, actions, s, g);
    var held :| Tripped(s, g, Idle, held);
    TrippedIsQuiet(s, g, held);
    assert SleepsThrough(kinds, workers, listed, actions);
  }

  lemma ListedIsAttached(kinds: seq<Kind>, workers: nat, actions: seq<Action>, s: State, listed: seq<Slot>, i: nat)
    requires Run(Initial(kinds, workers), actions) == Some(s) && Alone(s, kinds, listed, Asleep, map[])
    requires i < |listed| && listed[i].Listed?
    ensures s.entities[listed[i].e].attached
  {
    hide Run, LocksMatch, Shaped, Heard, JobsSound, Recorded, SleepExplained;
    InvAlways(kinds, workers, actions);
    assert i < High(s) && InList(s, i);
  }

  lemma TrippedIsQuiet(s: State, g: nat, held: map<Lock, Thread>)
    requires Tripped(s, g, Idle, held)
    ensures s.call.Asleep? && s.patience.Forever? && AllIdle(s)
  {
  }

  /** An untimed wait can be left asleep with `triggered` set exactly when it
      lists a guard condition, since only that one's trigger does not signal. */
  lemma SleepsThroughExactly(kinds: seq<Kind>, workers: nat, listed: seq<Slot>)
    requires workers > 0 && ValidSlots(kinds, listed)
    ensures (exists actions :: SleepsThrough(kinds, workers, listed, actions)) <==> ListsGuard(kinds, listed)
  {
    hide SleepsThrough, ListsGuard;
    if ListsGuard(kinds, listed) {
      GuardCanBeSleptThrough(kinds, workers, listed);
    }
    forall actions | SleepsThrough(kinds, workers, listed, actions) ensures ListsGuard(kinds, listed) {
      SleepingThroughNeedsGuard(kinds, workers, listed, actions);
    }
  }

  lemma SleepingThroughNeedsGuard(kinds: seq<Kind>, workers: nat, listed: seq<Slot>, actions: seq<Action>)
    requires SleepsThrough(kinds, workers, listed, actions)
    ensures ListsGuard(kinds, listed)
  {
    hide Run, LocksMatch, Shaped, Heard, JobsSound, Recorded, SleepExplained;
    InvAlways(kinds, workers, actions);
    KindsNeverChange(kinds, workers, actions);
    var s := Run(Initial(kinds, workers), actions).value;
    QuietMeansEmpty(s);
    var e :| 0 <= e < |s.entities| && TrippedGuard(s.entities[e]);
    assert InWindow(s, e);
    var i :| Low(s) <= i < High(s) && i < |s.listed| && s.listed[i] == Listed(e);
    assert listed[i].Listed? && kinds[listed[i].e] == Guard;
  }

  lemma {:induction false} KindsNeverChange(kinds: seq<Kind>, workers: nat, actions: seq<Action>)
    requires Run(Initial(kinds, workers), actions).Some?
    ensures SameKinds(Initial(kinds, workers), Run(Initial(kinds, workers), actions).value)
  {
    if actions != [] {
      var n := |actions| - 1;
      KindsNeverChange(kinds, workers, actions[..n]);
      InvAlways(kinds, workers, actions[..n]);
      StepKeepsKinds(Run(Initial(kinds, workers), actions[..n]).value, actions[n]);
    }
  }

  lemma StepKeepsKinds(s: State, a: Action)
    requires Inv(s) && Enabled(s, a)
    ensures SameKinds(s, Step(s, a))
  {
    hide WaitStep, WorkStep, LocksMatch, Heard, JobsSound, SleepExplained, AttachedAsListed;
    if a.Wait? {
      WaitIsFramed(s);
    } else if a.Work? {
      WorkIsFramed(s, a.p);
    }
  }
}
