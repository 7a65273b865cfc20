/** Mutexes of the wait protocol: who holds which, and why nobody waits in a
    circle. */
module WaitLocks {
  import opened WaitProtocol

  /* Shape */

  predicate JobFits(s: State, j: Job) {
    match j
    case Idle => true
    case WantQueue(e) => IsQueue(s, e)
    case InQueue(e) => IsQueue(s, e)
    case Appended(e) => IsQueue(s, e)
    case WantTake(e) => IsQueue(s, e)
    case Taking(e) => IsQueue(s, e)
    case WantTrip(e) => e < |s.entities| && !IsQueue(s, e)
    case Tripping(e) => e < |s.entities| && !IsQueue(s, e)
    case _ => j.e < |s.entities|
  }

  predicate CallFits(s: State) {
    match s.call
    case AttachWant(i) => i <= |s.listed|
    case DetachWant(i) => i <= |s.listed|
    case AttachProbe(i) => InList(s, i)
    case AttachWrite(i, _) => InList(s, i)
    case DetachProbe(i) => InList(s, i)
    case DetachLeave(i, _) => InList(s, i)
    case AttachCount(i) => InList(s, i) && IsQueue(s, s.listed[i].e)
    case DetachCount(i) => InList(s, i) && IsQueue(s, s.listed[i].e)
    case _ => true
  }

  ghost predicate Shaped(s: State) {
    && (forall p :: 0 <= p < |s.jobs| ==> JobFits(s, s.jobs[p]))
    && (forall i :: 0 <= i < |s.listed| && s.listed[i].Listed? ==> s.listed[i].e < |s.entities|)
    && |s.slots| == |s.listed|
    && CallFits(s)
  }

  predicate SameKinds(s: State, t: State) {
    |t.entities| == |s.entities| && forall e :: 0 <= e < |s.entities| ==> t.entities[e].kind == s.entities[e].kind
  }

  /** What a worker's step leaves alone. */
  ghost predicate WorkFrame(s: State, t: State, p: nat)
    requires p < |s.jobs|
  {
    && SameKinds(s, t)
    && |t.jobs| == |s.jobs| && (forall q :: 0 <= q < |s.jobs| && q != p ==> t.jobs[q] == s.jobs[q])
    && (t.call == s.call || (s.call.Asleep? && t.call.Woken?))
    && t.patience == s.patience && t.listed == s.listed && t.slots == s.slots
    && t.seen == s.seen && t.found == s.found
  }

  lemma WorkIsFramed(s: State, p: nat)
    requires Shaped(s) && CanStep(s, Worker(p))
    ensures s.jobs[p].e < |s.entities|
    ensures WorkFrame(s, WorkStep(s, p), p)
  {
    hide *;
    WorkerInRange(s, p);
    var j := s.jobs[p];
    if j.InQueue? || j.Tripping? || j.Taking? {
      CountStepFramed(s, p);
    } else if JobWants(j).Some? {
      LockStepFramed(s, p);
    } else {
      OtherStepFramed(s, p);
    }
  }

  lemma WorkerInRange(s: State, p: nat)
    requires Shaped(s) && CanStep(s, Worker(p))
    ensures p < |s.jobs| && !s.jobs[p].Idle? && s.jobs[p].e < |s.entities|
  {
    assert JobFits(s, s.jobs[p]);
  }

  lemma CountStepFramed(s: State, p: nat)
    requires p < |s.jobs| && !s.jobs[p].Idle? && s.jobs[p].e < |s.entities|
    requires s.jobs[p].InQueue? || s.jobs[p].Tripping? || s.jobs[p].Taking?
    ensures WorkFrame(s, WorkStep(s, p), p)
  {
  }

  lemma LockStepFramed(s: State, p: nat)
    requires p < |s.jobs| && !s.jobs[p].Idle? && s.jobs[p].e < |s.entities|
    requires JobWants(s.jobs[p]).Some?
    ensures WorkFrame(s, WorkStep(s, p), p)
  {
    LockStepIs(s, p);
    hide WorkStep, JobWants, NextJob;
  }

  /** Taking a mutex changes nothing else but the thread's place. */
  lemma LockStepIs(s: State, p: nat)
    requires p < |s.jobs| && !s.jobs[p].Idle? && s.jobs[p].e < |s.entities|
    requires JobWants(s.jobs[p]).Some?
    ensures WorkStep(s, p)
         == s.(held := s.held[JobWants(s.jobs[p]).value := Worker(p)], jobs := s.jobs[p := NextJob(s.jobs[p], true)])
  {
  }

  lemma OtherStepFramed(s: State, p: nat)
    requires p < |s.jobs| && !s.jobs[p].Idle? && s.jobs[p].e < |s.entities|
    requires JobWants(s.jobs[p]).None? && !s.jobs[p].InQueue? && !s.jobs[p].Tripping? && !s.jobs[p].Taking?
    ensures WorkFrame(s, WorkStep(s, p), p)
  {
  }

  lemma JobStillFits(s: State, t: State, j: Job)
    requires SameKinds(s, t) && JobFits(s, j)
    ensures JobFits(t, j)
  {
  }

  lemma NextJobFits(s: State, p: nat)
    requires p < |s.jobs| && !s.jobs[p].Idle? && s.jobs[p].e < |s.entities| && JobFits(s, s.jobs[p])
    ensures p < |WorkStep(s, p).jobs| && JobFits(s, WorkStep(s, p).jobs[p])
  {
    NextJobIs(s, p);
    hide WorkStep;
  }

  function NextJob(j: Job, attached: bool): Job
    requires !j.Idle?
  {
    match j
    case WantQueue(e) => InQueue(e)
    case InQueue(e) => Appended(e)
    case Appended(e) => HasCond(e)
    case WantTrip(e) => Tripping(e)
    case Tripping(e) => HasCond(e)
    case HasCond(e) => if attached then WantSet(e) else Leaving(e)
    case WantSet(e) => HasSet(e)
    case HasSet(e) => Raised(e)
    case Raised(e) => Signalled(e)
    case Signalled(e) => Leaving(e)
    case Leaving(_) => Idle
    case WantTake(e) => Taking(e)
    case Taking(_) => Idle
  }

  lemma NextJobIs(s: State, p: nat)
    requires p < |s.jobs| && !s.jobs[p].Idle? && s.jobs[p].e < |s.entities|
    ensures WorkStep(s, p).jobs == s.jobs[p := NextJob(s.jobs[p], s.entities[s.jobs[p].e].attached)]
  {
  }

  lemma WorkKeepsShape(s: State, p: nat)
    requires Shaped(s) && CanStep(s, Worker(p))
    ensures s.jobs[p].e < |s.entities|
    ensures Shaped(WorkStep(s, p))
  {
    hide WorkStep, JobFits, Wants;
    WorkIsFramed(s, p);
    assert JobFits(s, s.jobs[p]);
    NextJobFits(s, p);
    var t := WorkStep(s, p);
    forall q | 0 <= q < |t.jobs| ensures JobFits(t, t.jobs[q]) {
      JobStillFits(s, t, t.jobs[q]);
    }
  }

  /** What a step of the waiter leaves alone. */
  ghost predicate WaitFrame(s: State, t: State) {
    SameKinds(s, t) && t.jobs == s.jobs && t.listed == s.listed && |t.slots| == |s.slots| && t.patience == s.patience
  }

  lemma WaitIsFramed(s: State)
    requires Busy(s, Waiter)
    ensures WaitFrame(s, WaitStep(s))
  {
    hide AttachStep, SleepStep, DetachStep, WaitFrame;
    if Attaching(s.call) {
      AttachIsFramed(s);
    } else if Sleeping(s.call) {
      SleepIsFramed(s);
    } else {
      DetachIsFramed(s);
    }
  }

  lemma AttachIsFramed(s: State)
    requires Attaching(s.call)
    ensures WaitFrame(s, AttachStep(s))
  {
  }

  lemma SleepIsFramed(s: State)
    requires Sleeping(s.call)
    ensures WaitFrame(s, SleepStep(s))
  {
  }

  lemma DetachIsFramed(s: State)
    requires Detaching(s.call)
    ensures WaitFrame(s, DetachStep(s))
  {
  }

  lemma NextCallFits(s: State)
    requires Shaped(s) && Busy(s, Waiter)
    ensures CallFits(WaitStep(s))
  {
    hide AttachStep, SleepStep, DetachStep;
    if Attaching(s.call) {
      AttachFits(s);
    } else if Sleeping(s.call) {
      SleepFits(s);
    } else {
      DetachFits(s);
    }
  }

  lemma AttachFits(s: State)
    requires Shaped(s) && Attaching(s.call)
    ensures CallFits(AttachStep(s))
  {
    hide JobFits;
    AttachIsFramed(s);
  }

  lemma SleepFits(s: State)
    requires Shaped(s) && Sleeping(s.call)
    ensures CallFits(SleepStep(s))
  {
    hide JobFits;
  }

  lemma DetachFits(s: State)
    requires Shaped(s) && Detaching(s.call)
    ensures CallFits(DetachStep(s))
  {
    hide JobFits;
    DetachIsFramed(s);
  }

  lemma WaitKeepsShape(s: State)
    requires Shaped(s) && Busy(s, Waiter)
    ensures Shaped(WaitStep(s))
  {
    hide WaitStep, JobFits, CallFits;
    WaitIsFramed(s);
    NextCallFits(s);
    var t := WaitStep(s);
    forall q | 0 <= q < |t.jobs| ensures JobFits(t, t.jobs[q]) {
      JobStillFits(s, t, t.jobs[q]);
    }
  }

  /* Who holds what */

  /** The mutex table says that a thread owns a mutex exactly when the thread's
      place in the code is between its lock and its unlock. */
  ghost predicate LocksMatch(s: State) {
    forall t: Thread, l: Lock :: l in Holds(s, t) <==> l in s.held && s.held[l] == t
  }

  lemma TakesLock(s: State, s2: State, t: Thread, l: Lock)
    requires LocksMatch(s) && l !in s.held && s2.held == s.held[l := t]
    requires Holds(s2, t) == Holds(s, t) + {l}
    requires forall u: Thread :: u != t ==> Holds(s2, u) == Holds(s, u)
    ensures LocksMatch(s2)
  {
    hide Holds;
    forall u: Thread, k: Lock ensures k in Holds(s2, u) <==> k in s2.held && s2.held[k] == u {
      assert k in Holds(s, u) <==> k in s.held && s.held[k] == u;
    }
  }

  lemma DropsLock(s: State, s2: State, t: Thread, l: Lock)
    requires LocksMatch(s) && l in Holds(s, t) && s2.held == s.held - {l}
    requires Holds(s2, t) == Holds(s, t) - {l}
    requires forall u: Thread :: u != t ==> Holds(s2, u) == Holds(s, u)
    ensures LocksMatch(s2)
  {
    hide Holds;
    forall u: Thread, k: Lock ensures k in Holds(s2, u) <==> k in s2.held && s2.held[k] == u {
      assert k in Holds(s, u) <==> k in s.held && s.held[k] == u;
      assert l in s.held && s.held[l] == t;
    }
  }

  lemma KeepsLocks(s: State, s2: State)
    requires LocksMatch(s) && s2.held == s.held
    requires forall u: Thread :: Holds(s2, u) == Holds(s, u)
    ensures LocksMatch(s2)
  {
    hide Holds;
    forall u: Thread, k: Lock ensures k in Holds(s2, u) <==> k in s2.held && s2.held[k] == u {
      assert k in Holds(s, u) <==> k in s.held && s.held[k] == u;
    }
  }

  lemma WorkLeavesOthers(s: State, p: nat, u: Thread)
    requires Shaped(s) && CanStep(s, Worker(p)) && u != Worker(p)
    ensures s.jobs[p].e < |s.entities|
    ensures Holds(WorkStep(s, p), u) == Holds(s, u)
  {
    hide WorkStep, Wants;
    WorkIsFramed(s, p);
  }

  lemma WorkKeepsLocks(s: State, p: nat)
    requires Shaped(s) && LocksMatch(s) && CanStep(s, Worker(p))
    ensures s.jobs[p].e < |s.entities|
    ensures LocksMatch(WorkStep(s, p))
  {
    hide LocksMatch, Shaped, CallHolds, CallWants, JobFits, WorkStep, WorkFrame, JobHolds;
    WorkerInRange(s, p);
    var s2 := WorkStep(s, p);
    var t := Worker(p);
    var j := s.jobs[p];
    forall u: Thread | u != t ensures Holds(s2, u) == Holds(s, u) {
      WorkLeavesOthers(s, p, u);
    }
    NextJobIs(s, p);
    HeldNext(s, p);
    HoldsNext(j, s.entities[j.e].attached);
    if JobWants(j).Some? {
      TakesLock(s, s2, t, JobWants(j).value);
    } else if Drops(j).Some? {
      DropsLock(s, s2, t, Drops(j).value);
    } else {
      KeepsLocks(s, s2);
    }
  }

  /** The mutex that the step from here unlocks. */
  function Drops(j: Job): Option<Lock> {
    match j
    case InQueue(e) => Some(QueueLock(e))
    case Taking(e) => Some(QueueLock(e))
    case Signalled(_) => Some(SetLock)
    case Leaving(e) => Some(CondLock(e))
    case _ => None
  }

  lemma HeldNext(s: State, p: nat)
    requires p < |s.jobs| && !s.jobs[p].Idle? && s.jobs[p].e < |s.entities|
    ensures var j := s.jobs[p];
      WorkStep(s, p).held ==
        if JobWants(j).Some? then s.held[JobWants(j).value := Worker(p)]
        else if Drops(j).Some? then s.held - {Drops(j).value}
        else s.held
  {
  }

  lemma HoldsNext(j: Job, attached: bool)
    requires !j.Idle?
    ensures JobHolds(NextJob(j, attached)) ==
      if JobWants(j).Some? then JobHolds(j) + {JobWants(j).value}
      else if Drops(j).Some? then JobHolds(j) - {Drops(j).value}
      else JobHolds(j)
    ensures Drops(j).Some? ==> Drops(j).value in JobHolds(j)
  {
  }

  lemma WaitLeavesOthers(s: State, u: Thread)
    requires Busy(s, Waiter) && u != Waiter
    ensures Holds(WaitStep(s), u) == Holds(s, u)
  {
    hide WaitStep;
    WaitIsFramed(s);
  }

  lemma AttachKeepsLocks(s: State)
    requires Shaped(s) && LocksMatch(s) && CanStep(s, Waiter) && Attaching(s.call)
    ensures LocksMatch(WaitStep(s))
  {
    hide LocksMatch, JobHolds, JobWants, JobFits;
    var s2 := WaitStep(s);
    var c := s.call;
    forall u: Thread | u != Waiter ensures Holds(s2, u) == Holds(s, u) {
      WaitLeavesOthers(s, u);
    }
    if CallWants(s).Some? {
      TakesLock(s, s2, Waiter, CallWants(s).value);
    } else if c.AttachCount? {
      DropsLock(s, s2, Waiter, QueueLock(s.listed[c.i].e));
    } else if c.AttachWrite? {
      DropsLock(s, s2, Waiter, CondLock(s.listed[c.i].e));
    } else {
      KeepsLocks(s, s2);
    }
  }

  lemma SleepKeepsLocks(s: State)
    requires Shaped(s) && LocksMatch(s) && CanStep(s, Waiter) && Sleeping(s.call)
    ensures LocksMatch(WaitStep(s))
  {
    hide LocksMatch, JobHolds, JobWants, JobFits;
    var s2 := WaitStep(s);
    var c := s.call;
    forall u: Thread | u != Waiter ensures Holds(s2, u) == Holds(s, u) {
      WaitLeavesOthers(s, u);
    }
    if CallWants(s).Some? && !(c.SetWant? && s.patience.Timed?) {
      TakesLock(s, s2, Waiter, SetLock);
    } else if c.Clearing? || (c.Testing? && !s.triggered) {
      DropsLock(s, s2, Waiter, SetLock);
    } else {
      KeepsLocks(s, s2);
    }
  }

  lemma DetachKeepsLocks(s: State)
    requires Shaped(s) && LocksMatch(s) && CanStep(s, Waiter) && Detaching(s.call)
    ensures LocksMatch(WaitStep(s))
  {
    hide LocksMatch, JobHolds, JobWants, JobFits;
    var s2 := WaitStep(s);
    var c := s.call;
    forall u: Thread | u != Waiter ensures Holds(s2, u) == Holds(s, u) {
      WaitLeavesOthers(s, u);
    }
    if CallWants(s).Some? {
      TakesLock(s, s2, Waiter, CallWants(s).value);
    } else if c.DetachCount? {
      DropsLock(s, s2, Waiter, QueueLock(s.listed[c.i].e));
    } else if c.DetachLeave? {
      DropsLock(s, s2, Waiter, CondLock(s.listed[c.i].e));
    } else {
      KeepsLocks(s, s2);
    }
  }

  lemma StartKeepsLocks(s: State, p: nat, job: Job)
    requires Shaped(s) && LocksMatch(s) && Enabled(s, Start(p, job))
    ensures Shaped(WithJob(s, p, job)) && LocksMatch(WithJob(s, p, job))
  {
    var t := WithJob(s, p, job);
    forall q | 0 <= q < |t.jobs| ensures JobFits(t, t.jobs[q]) {
      assert JobFits(s, s.jobs[q]);
    }
    KeepsLocks(s, t);
  }

  lemma StepKeepsLocks(s: State, a: Action)
    requires Shaped(s) && LocksMatch(s) && Enabled(s, a)
    ensures Shaped(Step(s, a)) && LocksMatch(Step(s, a))
  {
    match a
    case Begin(_, _) => KeepsLocks(s, Step(s, a));
    case Wait =>
      WaitKeepsShape(s);
      if Attaching(s.call) {
        AttachKeepsLocks(s);
      } else if Sleeping(s.call) {
        SleepKeepsLocks(s);
      } else {
        DetachKeepsLocks(s);
      }
    case Wake => KeepsLocks(s, Step(s, a));
    case Start(p, job) => StartKeepsLocks(s, p, job);
    case Work(p) =>
      WorkKeepsShape(s, p);
      WorkKeepsLocks(s, p);
  }

  /** A mutex has one owner at a time, so two threads are never both between
      its lock and its unlock. */
  lemma MutualExclusion(s: State, t: Thread, u: Thread, l: Lock)
    requires LocksMatch(s) && l in Holds(s, t) && l in Holds(s, u)
    ensures t == u
  {
    hide Holds;
    assert l in s.held && s.held[l] == t;
  }

  /* Order of acquisition */

  /** A condition mutex comes before the wait set's and the queues'. */
  function Rank(l: Lock): nat { if l.CondLock? then 0 else 1 }

  lemma AcquiredInOrder(s: State, t: Thread, l: Lock)
    requires Wants(s, t).Some? && l in Holds(s, t)
    ensures Rank(l) < Rank(Wants(s, t).value)
  {
  }

  predicate WaitsFor(s: State, t: Thread, u: Thread) {
    Wants(s, t).Some? && Wants(s, t).value in s.held && s.held[Wants(s, t).value] == u
  }

  lemma WaitsClimb(s: State, t: Thread, u: Thread, v: Thread)
    requires LocksMatch(s) && WaitsFor(s, t, u) && WaitsFor(s, u, v)
    ensures Rank(Wants(s, t).value) == 0 && Rank(Wants(s, u).value) == 1
    ensures t != u && u != v && t != v
  {
    hide Wants, Holds;
    assert Wants(s, t).value in Holds(s, u) && Wants(s, u).value in Holds(s, v);
    AcquiredInOrder(s, u, Wants(s, t).value);
    NeverWaitsForItself(s, t);
    NeverWaitsForItself(s, u);
    if t == v {
      AcquiredInOrder(s, t, Wants(s, u).value);
    }
  }

  /** Chains of lock waits are short and visit no thread twice, so no lock wait
      is part of a cycle. */
  lemma LockWaitsAreAcyclic(s: State, chain: seq<Thread>)
    requires LocksMatch(s)
    requires forall i :: 0 <= i < |chain| - 1 ==> WaitsFor(s, chain[i], chain[i + 1])
    ensures |chain| <= 3
    ensures forall i, j :: 0 <= i < j < |chain| ==> chain[i] != chain[j]
  {
    hide Wants, Holds, WaitsFor, LocksMatch;
    if |chain| > 3 {
      WaitsClimb(s, chain[0], chain[1], chain[2]);
      WaitsClimb(s, chain[1], chain[2], chain[3]);
      assert false;
    }
    if |chain| == 3 {
      WaitsClimb(s, chain[0], chain[1], chain[2]);
    }
    if |chain| == 2 {
      NeverWaitsForItself(s, chain[0]);
    }
  }

  lemma NeverWaitsForItself(s: State, t: Thread)
    requires LocksMatch(s)
    ensures !WaitsFor(s, t, t)
  {
    if WaitsFor(s, t, t) {
      AcquiredInOrder(s, t, Wants(s, t).value);
    }
  }

  lemma OwnersAreBusy(s: State, l: Lock)
    requires LocksMatch(s) && l in s.held
    ensures Busy(s, s.held[l])
  {
    assert l in Holds(s, s.held[l]);
  }

  /** Deadlock freedom: a thread that cannot go on waits for one that can, or
      that itself waits for one that can. */
  lemma BlockedThreadHasRunnableOwner(s: State, t: Thread)
    requires LocksMatch(s) && Busy(s, t) && !CanStep(s, t)
    ensures exists u: Thread :: WaitsFor(s, t, u) && Unblocked(s, u)
  {
    hide Holds, Wants, Busy;
    var u := s.held[Wants(s, t).value];
    OwnersAreBusy(s, Wants(s, t).value);
    assert WaitsFor(s, t, u);
    if !CanStep(s, u) {
      var v := s.held[Wants(s, u).value];
      OwnersAreBusy(s, Wants(s, u).value);
      assert WaitsFor(s, u, v);
      if !CanStep(s, v) {
        var w := s.held[Wants(s, v).value];
        assert WaitsFor(s, v, w);
        LockWaitsAreAcyclic(s, [t, u, v, w]);
        assert false;
      }
    }
  }

  ghost predicate Unblocked(s: State, u: Thread) {
    CanStep(s, u) || exists v: Thread :: WaitsFor(s, u, v) && CanStep(s, v)
  }
}
