/** No wake-up is lost, and what `rmw_wait` reports. */
module WaitSafety {
  import opened WaitProtocol
  import opened WaitLocks

  /* Who is attached */

  /** The slots whose entities may point at the wait set. */
  function Low(s: State): nat {
    match s.call
    case DetachWant(i) => i
    case DetachProbe(i) => i + 1
    case DetachCount(i) => i + 1
    case DetachLeave(i, _) => i + 1
    case _ => 0
  }

  function High(s: State): nat {
    if Attaching(s.call) then s.call.i
    else if s.call.Outside? || s.call.Returned? then 0
    else |s.listed|
  }

  ghost predicate InWindow(s: State, e: nat) {
    exists i :: Low(s) <= i < High(s) && i < |s.listed| && s.listed[i] == Listed(e)
  }

  predicate Waiting(c: Call) { Attaching(c) || Sleeping(c) || c.Asleep? }

  ghost predicate AttachedAsListed(s: State) {
    && (forall e :: 0 <= e < |s.entities| && s.entities[e].attached ==> InWindow(s, e))
    && (Waiting(s.call) ==> forall i :: 0 <= i < High(s) && InList(s, i) ==> s.entities[s.listed[i].e].attached)
  }

  /* Who is about to trigger */

  /** Between the append and the signal. */
  predicate PendingJob(j: Job, e: nat) {
    (j.Appended? || j.HasCond? || j.WantSet? || j.HasSet? || j.Raised?) && j.e == e
  }

  ghost predicate Pending(s: State, e: nat) {
    exists p :: 0 <= p < |s.jobs| && PendingJob(s.jobs[p], e)
  }

  predicate Nonempty(s: State, e: nat) { IsQueue(s, e) && s.entities[e].count > 0 }

  /** What a worker past a point in the trigger can rely on. */
  predicate JobSound(s: State, j: Job) {
    && (j.WantSet? || j.HasSet? || j.Raised? || j.Signalled? ==> j.e < |s.entities| && s.entities[j.e].attached)
    && (j.Raised? || j.Signalled? ==> s.triggered)
    && (j.HasCond? || j.WantSet? || j.HasSet? || j.Raised? || j.Signalled? ==>
        j.e < |s.entities| && (s.entities[j.e].kind == Guard ==> s.entities[j.e].count > 0))
  }

  ghost predicate JobsSound(s: State) { forall p :: 0 <= p < |s.jobs| ==> JobSound(s, s.jobs[p]) }

  /** Every attached queue with something in it has made, or is about to make,
      itself heard. */
  ghost predicate Heard(s: State) {
    && (forall e: nat :: Nonempty(s, e) && s.entities[e].attached ==> HeardFrom(s, e))
    && (s.call.AttachWrite? && s.call.empty && InList(s, s.call.i) && Nonempty(s, s.listed[s.call.i].e)
        ==> Pending(s, s.listed[s.call.i].e))
  }

  ghost predicate HeardFrom(s: State, e: nat) {
    || !Waiting(s.call) || s.call.Clearing?
    || Pending(s, e)
    || (s.triggered && !(s.call.Asleep? && s.patience.Forever?))
  }

  /** Why `triggered` may be set while the untimed wait is still asleep. */
  ghost predicate SleepExplained(s: State) {
    s.call.Asleep? && s.patience.Forever? && s.triggered ==> Signalling(s) || GuardTripped(s)
  }

  ghost predicate Signalling(s: State) {
    exists p :: 0 <= p < |s.jobs| && s.jobs[p].Raised? && IsQueue(s, s.jobs[p].e)
  }

  ghost predicate GuardTripped(s: State) {
    exists e :: 0 <= e < |s.entities| && TrippedGuard(s.entities[e])
  }

  predicate TrippedGuard(e: Entity) { e.kind == Guard && e.attached && e.count > 0 }

  /* What has been reported */

  /** Each slot the detach loops have passed is kept exactly if the count read
      there was not zero. */
  ghost predicate Kept(listed: seq<Slot>, slots: seq<Slot>, seen: seq<nat>, found: bool) {
    && |seen| <= |listed| == |slots|
    && (forall i :: 0 <= i < |slots| ==> slots[i] == if i < |seen| && seen[i] == 0 then NoEntity else listed[i])
    && (forall i :: 0 <= i < |seen| && seen[i] > 0 ==> listed[i].Listed?)
    && (found <==> exists i :: 0 <= i < |seen| && seen[i] > 0)
  }

  ghost predicate Recorded(s: State) {
    && Kept(s.listed, s.slots, s.seen, s.found)
    && (Waiting(s.call) ==> s.seen == [])
    && (Detaching(s.call) ==> |s.seen| == s.call.i)
    && (s.call.Returned? ==> |s.seen| == |s.listed|)
  }

  ghost predicate Inv(s: State) {
    && Shaped(s) && LocksMatch(s)
    && AttachedAsListed(s) && JobsSound(s) && Heard(s) && SleepExplained(s)
    && Recorded(s)
  }

  /* Steps of a worker */

  ghost predicate WorkEffect(s: State, t: State, p: nat)
    requires p < |s.jobs| && !s.jobs[p].Idle? && s.jobs[p].e < |s.entities|
  {
    var j := s.jobs[p];
    && WorkFrame(s, t, p)
    && t.jobs[p] == NextJob(j, s.entities[j.e].attached)
    && t.triggered == (s.triggered || j.HasSet?)
    && t.call == (if j.Raised? && IsQueue(s, j.e) && s.call.Asleep? then Woken else s.call)
    && (forall e :: 0 <= e < |s.entities| ==> t.entities[e].attached == s.entities[e].attached)
    && (forall e :: 0 <= e < |s.entities| && (e != j.e || !(j.InQueue? || j.Tripping? || j.Taking?)) ==>
        t.entities[e].count == s.entities[e].count)
    && (j.InQueue? ==> t.entities[j.e].count == s.entities[j.e].count + 1)
    && (j.Tripping? ==> t.entities[j.e].count == 1)
    && (j.Taking? ==> t.entities[j.e].count == if s.entities[j.e].count == 0 then 0 else s.entities[j.e].count - 1)
  }

  lemma WorkHasEffect(s: State, p: nat)
    requires Shaped(s) && CanStep(s, Worker(p))
    ensures p < |s.jobs| && !s.jobs[p].Idle? && s.jobs[p].e < |s.entities|
    ensures WorkEffect(s, WorkStep(s, p), p)
  {
    hide WorkFrame, Shaped, CanStep;
    WorkerInRange(s, p);
    WorkIsFramed(s, p);
    var j := s.jobs[p];
    if j.InQueue? || j.Tripping? || j.Taking? {
      CountStepEffect(s, p);
    } else if JobWants(j).Some? {
      LockStepEffect(s, p);
    } else {
      OtherStepEffect(s, p);
    }
  }

  lemma CountStepEffect(s: State, p: nat)
    requires p < |s.jobs| && !s.jobs[p].Idle? && s.jobs[p].e < |s.entities|
    requires s.jobs[p].InQueue? || s.jobs[p].Tripping? || s.jobs[p].Taking?
    requires WorkFrame(s, WorkStep(s, p), p)
    ensures WorkEffect(s, WorkStep(s, p), p)
  {
    hide WorkFrame;
  }

  lemma LockStepEffect(s: State, p: nat)
    requires p < |s.jobs| && !s.jobs[p].Idle? && s.jobs[p].e < |s.entities|
    requires JobWants(s.jobs[p]).Some?
    requires WorkFrame(s, WorkStep(s, p), p)
    ensures WorkEffect(s, WorkStep(s, p), p)
  {
    hide WorkFrame;
  }

  lemma OtherStepEffect(s: State, p: nat)
    requires p < |s.jobs| && !s.jobs[p].Idle? && s.jobs[p].e < |s.entities|
    requires JobWants(s.jobs[p]).None? && !s.jobs[p].InQueue? && !s.jobs[p].Tripping? && !s.jobs[p].Taking?
    requires WorkFrame(s, WorkStep(s, p), p)
    ensures WorkEffect(s, WorkStep(s, p), p)
  {
    hide WorkFrame;
  }

  lemma WorkKeepsAttached(s: State, t: State, p: nat)
    requires p < |s.jobs| && !s.jobs[p].Idle? && s.jobs[p].e < |s.entities|
    requires WorkEffect(s, t, p) && Inv(s)
    ensures AttachedAsListed(t)
  {
    hide WorkEffect, LocksMatch, Heard, Recorded, SleepExplained, JobsSound, Shaped;
    assert WorkFrame(s, t, p)
        && forall e :: 0 <= e < |s.entities| ==> t.entities[e].attached == s.entities[e].attached by {
      WorkEffectParts(s, t, p);
    }
    forall e | 0 <= e < |t.entities| && t.entities[e].attached ensures InWindow(t, e) {
      assert InWindow(s, e);
      var i :| Low(s) <= i < High(s) && i < |s.listed| && s.listed[i] == Listed(e);
    }
  }

  lemma WorkEffectParts(s: State, t: State, p: nat)
    requires p < |s.jobs| && !s.jobs[p].Idle? && s.jobs[p].e < |s.entities|
    requires WorkEffect(s, t, p)
    ensures WorkFrame(s, t, p)
    ensures forall e :: 0 <= e < |s.entities| ==> t.entities[e].attached == s.entities[e].attached
  {
  }

  lemma WorkKeepsJobsSound(s: State, t: State, p: nat)
    requires p < |s.jobs| && !s.jobs[p].Idle? && s.jobs[p].e < |s.entities|
    requires WorkEffect(s, t, p) && Inv(s)
    ensures JobsSound(t)
  {
    hide LocksMatch, Heard, Recorded, SleepExplained, AttachedAsListed;
    assert JobFits(s, s.jobs[p]) && JobSound(s, s.jobs[p]);
    forall q | 0 <= q < |t.jobs| ensures JobSound(t, t.jobs[q]) {
      assert JobSound(s, s.jobs[q]);
    }
  }

  /** A worker stops being pending only by finding nobody attached, or by
      signalling. */
  lemma PendingGoesOn(s: State, t: State, p: nat, e: nat)
    requires p < |s.jobs| && !s.jobs[p].Idle? && s.jobs[p].e < |s.entities|
    requires WorkEffect(s, t, p)
    ensures Pending(s, e) ==>
      || Pending(t, e)
      || (s.jobs[p] == HasCond(e) && e < |s.entities| && !s.entities[e].attached)
      || s.jobs[p] == Raised(e)
    ensures s.jobs[p] == InQueue(e) ==> Pending(t, e)
  {
    if s.jobs[p] == InQueue(e) {
      assert PendingJob(t.jobs[p], e);
    }
    if Pending(s, e) {
      var q :| 0 <= q < |s.jobs| && PendingJob(s.jobs[q], e);
      assert q != p ==> PendingJob(t.jobs[q], e);
      assert q == p && !s.jobs[p].Raised? && !s.jobs[p].HasCond? ==> PendingJob(t.jobs[p], e);
      assert q == p && s.jobs[p].HasCond? && s.entities[e].attached ==> PendingJob(t.jobs[p], e);
    }
  }

  lemma AttacherExcludesTrigger(s: State, p: nat)
    requires Inv(s) && p < |s.jobs| && s.call.AttachWrite? && InList(s, s.call.i)
    ensures CondLock(s.listed[s.call.i].e) !in JobHolds(s.jobs[p])
  {
    var l := CondLock(s.listed[s.call.i].e);
    assert l in Holds(s, Waiter);
    if l in JobHolds(s.jobs[p]) {
      MutualExclusion(s, Waiter, Worker(p), l);
    }
  }

  lemma WorkKeepsHeard(s: State, t: State, p: nat)
    requires p < |s.jobs| && !s.jobs[p].Idle? && s.jobs[p].e < |s.entities|
    requires WorkEffect(s, t, p) && Inv(s)
    ensures Heard(t)
  {
    hide LocksMatch, Recorded, SleepExplained, AttachedAsListed, Pending;
    assert JobFits(s, s.jobs[p]) && JobSound(s, s.jobs[p]);
    forall e: nat | Nonempty(t, e) && t.entities[e].attached ensures HeardFrom(t, e) {
      PendingGoesOn(s, t, p, e);
      assert Nonempty(s, e) || s.jobs[p] == InQueue(e);
    }
    if t.call.AttachWrite? && t.call.empty && InList(t, t.call.i) && Nonempty(t, t.listed[t.call.i].e) {
      var e := s.listed[s.call.i].e;
      PendingGoesOn(s, t, p, e);
      AttacherExcludesTrigger(s, p);
      assert Nonempty(s, e) || s.jobs[p] == InQueue(e);
    }
  }

  lemma WorkKeepsSleepExplained(s: State, t: State, p: nat)
    requires p < |s.jobs| && !s.jobs[p].Idle? && s.jobs[p].e < |s.entities|
    requires WorkEffect(s, t, p) && Inv(s)
    ensures SleepExplained(t)
  {
    hide LocksMatch, Recorded, Heard, AttachedAsListed;
    var j := s.jobs[p];
    assert JobFits(s, j) && JobSound(s, j);
    if t.call.Asleep? && t.patience.Forever? && t.triggered {
      if j.HasSet? {
        if IsQueue(s, j.e) {
          assert t.jobs[p].Raised? && IsQueue(t, t.jobs[p].e);
        } else {
          assert GuardTripped(t);
        }
      } else if GuardTripped(s) {
        var e :| 0 <= e < |s.entities| && TrippedGuard(s.entities[e]);
        assert TrippedGuard(t.entities[e]);
      } else {
        var q :| 0 <= q < |s.jobs| && s.jobs[q].Raised? && IsQueue(s, s.jobs[q].e);
        assert q != p && t.jobs[q].Raised? && IsQueue(t, t.jobs[q].e);
      }
    }
  }

  lemma WorkKeepsInv(s: State, p: nat)
    requires Inv(s) && Enabled(s, Work(p))
    ensures Inv(Step(s, Work(p)))
  {
    hide WorkStep, WorkEffect, AttachedAsListed, JobsSound, Heard, SleepExplained, LocksMatch, Shaped, CanStep;
    WorkHasEffect(s, p);
    var t := WorkStep(s, p);
    StepKeepsLocks(s, Work(p));
    WorkKeepsAttached(s, t, p);
    WorkKeepsJobsSound(s, t, p);
    WorkKeepsHeard(s, t, p);
    WorkKeepsSleepExplained(s, t, p);
    WorkEffectParts(s, t, p);
  }

  /* Steps that start something */

  lemma StartKeepsInv(s: State, p: nat, job: Job)
    requires Inv(s) && Enabled(s, Start(p, job))
    ensures Inv(Step(s, Start(p, job)))
  {
    hide LocksMatch, Shaped, Recorded, Heard, JobsSound, SleepExplained, AttachedAsListed;
    StepKeepsLocks(s, Start(p, job));
    StartKeepsAttached(s, p, job);
    StartKeepsJobsSound(s, p, job);
    StartKeepsHeard(s, p, job);
  }

  lemma StartKeepsAttached(s: State, p: nat, job: Job)
    requires Inv(s) && Enabled(s, Start(p, job))
    ensures AttachedAsListed(WithJob(s, p, job)) && Recorded(WithJob(s, p, job))
  {
    hide LocksMatch, Shaped, Heard, JobsSound, SleepExplained, Kept;
    var t := WithJob(s, p, job);
    forall e | 0 <= e < |t.entities| && t.entities[e].attached ensures InWindow(t, e) {
      assert InWindow(s, e);
    }
  }

  lemma StartKeepsJobsSound(s: State, p: nat, job: Job)
    requires Inv(s) && Enabled(s, Start(p, job))
    ensures JobsSound(WithJob(s, p, job))
  {
    hide LocksMatch, Shaped, Heard, Recorded, SleepExplained, AttachedAsListed;
    var t := WithJob(s, p, job);
    forall q | 0 <= q < |t.jobs| ensures JobSound(t, t.jobs[q]) {
      assert JobSound(s, s.jobs[q]);
    }
  }

  lemma StartKeepsHeard(s: State, p: nat, job: Job)
    requires Inv(s) && Enabled(s, Start(p, job))
    ensures Heard(WithJob(s, p, job)) && SleepExplained(WithJob(s, p, job))
  {
    hide LocksMatch, Shaped, Recorded, JobsSound, AttachedAsListed;
    var t := WithJob(s, p, job);
    forall e: nat ensures Pending(s, e) ==> Pending(t, e) {
      if Pending(s, e) {
        var q :| 0 <= q < |s.jobs| && PendingJob(s.jobs[q], e);
        assert PendingJob(t.jobs[q], e);
      }
    }
    if Signalling(s) {
      var q :| 0 <= q < |s.jobs| && s.jobs[q].Raised? && IsQueue(s, s.jobs[q].e);
      assert t.jobs[q].Raised? && IsQueue(t, t.jobs[q].e);
    }
  }

  lemma BeginKeepsInv(s: State, listed: seq<Slot>, patience: Patience)
    requires Inv(s) && Enabled(s, Begin(listed, patience))
    ensures Inv(Step(s, Begin(listed, patience)))
  {
    hide LocksMatch, Shaped;
    StepKeepsLocks(s, Begin(listed, patience));
    var t := Step(s, Begin(listed, patience));
    forall q | 0 <= q < |t.jobs| ensures JobSound(t, t.jobs[q]) {
      assert JobSound(s, s.jobs[q]);
    }
    forall e | 0 <= e < |t.entities| ensures !t.entities[e].attached {
      assert !InWindow(s, e);
    }
  }

  lemma WakeKeepsInv(s: State)
    requires Inv(s) && s.call.Asleep?
    ensures Inv(Step(s, Wake))
  {
    hide LocksMatch, Shaped;
    StepKeepsLocks(s, Wake);
    var t := Step(s, Wake);
    forall q | 0 <= q < |t.jobs| ensures JobSound(t, t.jobs[q]) {
      assert JobSound(s, s.jobs[q]);
    }
    forall e | 0 <= e < |t.entities| && t.entities[e].attached ensures InWindow(t, e) {
      assert InWindow(s, e);
    }
    forall e: nat | Nonempty(t, e) && t.entities[e].attached ensures HeardFrom(t, e) {
      assert Nonempty(s, e) && HeardFrom(s, e);
      assert Pending(s, e) ==> Pending(t, e);
    }
  }

  /* Steps of the waiter */

  lemma SamePending(s: State, t: State, e: nat)
    requires s.jobs == t.jobs
    ensures Pending(s, e) <==> Pending(t, e)
  {
  }

  lemma AttachKeepsRecorded(s: State)
    requires Inv(s) && CanStep(s, Waiter) && Attaching(s.call)
    ensures Recorded(WaitStep(s))
  {
    hide LocksMatch, JobsSound, Heard, SleepExplained, AttachedAsListed, Kept;
  }

  /** What an attach step does to the pointers, and to the window. */
  ghost predicate AttachMoves(s: State, t: State) {
    && t.listed == s.listed && |t.entities| == |s.entities| && Low(s) == 0
    && (forall e :: 0 <= e < |s.entities| ==>
        t.entities[e].attached == (s.entities[e].attached
          || (s.call.AttachWrite? && s.call.empty && s.call.i < |s.listed| && s.listed[s.call.i] == Listed(e))))
    && Low(t) == 0 && High(s) <= High(t) <= |t.listed|
    && (s.call.AttachWrite? && s.call.empty ==> High(t) == High(s) + 1)
    && (Waiting(t.call) ==>
        High(t) == High(s) || (High(t) == High(s) + 1 && (InList(s, High(s)) ==> s.call.AttachWrite? && s.call.empty)))
  }

  lemma AttachEffect(s: State)
    requires Shaped(s) && Attaching(s.call)
    ensures AttachMoves(s, AttachStep(s))
  {
    hide AttachMoves, AttachStep;
    if !InList(s, s.call.i) {
      AttachSkips(s);
    } else if s.call.AttachWrite? {
      AttachWrites(s);
    } else {
      AttachLooks(s);
    }
  }

  lemma AttachSkips(s: State)
    requires Shaped(s) && Attaching(s.call) && !InList(s, s.call.i)
    ensures AttachMoves(s, AttachStep(s))
  {
    hide JobFits;
  }

  lemma AttachWrites(s: State)
    requires Shaped(s) && s.call.AttachWrite? && InList(s, s.call.i)
    ensures AttachMoves(s, AttachStep(s))
  {
    hide JobFits;
  }

  lemma AttachLooks(s: State)
    requires Shaped(s) && Attaching(s.call) && !s.call.AttachWrite? && InList(s, s.call.i)
    ensures AttachMoves(s, AttachStep(s))
  {
    hide JobFits;
    assert AttachStep(s).entities == s.entities;
  }

  lemma AttachKeepsAttached(s: State)
    requires Inv(s) && CanStep(s, Waiter) && Attaching(s.call)
    ensures AttachedAsListed(WaitStep(s))
  {
    hide Recorded, LocksMatch, JobsSound, Heard, SleepExplained, AttachStep, CanStep;
    AttachEffect(s);
    var t := WaitStep(s);
    forall e | 0 <= e < |t.entities| && t.entities[e].attached ensures InWindow(t, e) {
      if s.entities[e].attached {
        assert InWindow(s, e);
        var i :| Low(s) <= i < High(s) && i < |s.listed| && s.listed[i] == Listed(e);
        assert i < High(t) && t.listed[i] == Listed(e);
      } else {
        assert t.listed[s.call.i] == Listed(e);
      }
    }
  }

  lemma AttachKeepsHeard(s: State)
    requires Inv(s) && CanStep(s, Waiter) && Attaching(s.call)
    ensures Heard(WaitStep(s)) && SleepExplained(WaitStep(s))
  {
    hide LocksMatch, Recorded, JobsSound, AttachedAsListed, Pending;
    var t := WaitStep(s);
    forall e: nat ensures Pending(s, e) <==> Pending(t, e) {
      SamePending(s, t, e);
    }
  }

  lemma AttachKeepsJobsSound(s: State)
    requires Inv(s) && CanStep(s, Waiter) && Attaching(s.call)
    ensures JobsSound(WaitStep(s))
  {
    hide LocksMatch, Recorded, Heard, SleepExplained, AttachedAsListed;
    var t := WaitStep(s);
    forall q | 0 <= q < |t.jobs| ensures JobSound(t, t.jobs[q]) {
      assert JobSound(s, s.jobs[q]);
    }
  }

  /** Sleeping and waking leave the pointers and the record alone. */
  lemma SleepEffect(s: State)
    requires Sleeping(s.call)
    ensures var t := SleepStep(s);
      && t.entities == s.entities && t.listed == s.listed && t.jobs == s.jobs
      && t.slots == s.slots && t.seen == s.seen && t.found == s.found && t.patience == s.patience
      && ((Waiting(t.call) && !Attaching(t.call)) || t.call == DetachWant(0))
  {
  }

  lemma SleepKeepsAttached(s: State)
    requires Inv(s) && CanStep(s, Waiter) && Sleeping(s.call)
    ensures AttachedAsListed(WaitStep(s)) && Recorded(WaitStep(s))
  {
    hide LocksMatch, JobsSound, Heard, SleepExplained, Kept, SleepStep, CanStep;
    SleepEffect(s);
    var t := WaitStep(s);
    forall e | 0 <= e < |t.entities| && t.entities[e].attached ensures InWindow(t, e) {
      assert InWindow(s, e);
    }
  }

  lemma SleepKeepsHeard(s: State)
    requires Inv(s) && CanStep(s, Waiter) && Sleeping(s.call)
    ensures Heard(WaitStep(s)) && SleepExplained(WaitStep(s))
  {
    hide LocksMatch, JobsSound, Recorded, AttachedAsListed;
    var t := WaitStep(s);
    forall e: nat | Nonempty(t, e) && t.entities[e].attached ensures HeardFrom(t, e) {
      SamePending(s, t, e);
    }
  }

  lemma SleepKeepsJobsSound(s: State)
    requires Inv(s) && CanStep(s, Waiter) && Sleeping(s.call)
    ensures JobsSound(WaitStep(s))
  {
    hide LocksMatch, Recorded, Heard, SleepExplained, AttachedAsListed;
    var t := WaitStep(s);
    forall q | 0 <= q < |t.jobs| ensures JobSound(t, t.jobs[q]) {
      assert JobSound(s, s.jobs[q]);
      if s.call.Clearing? && SetLock in JobHolds(s.jobs[q]) {
        MutualExclusion(s, Waiter, Worker(q), SetLock);
      }
    }
  }

  /** A detach step clears the pointer of the slot it leaves behind. */
  ghost predicate DetachMoves(s: State, t: State) {
    && t.listed == s.listed && |t.entities| == |s.entities| && !Waiting(t.call)
    && (forall e :: 0 <= e < |s.entities| && t.entities[e].attached ==> s.entities[e].attached)
    && Low(s) <= |s.listed| == High(s)
    && (Low(s) == |s.listed| || High(t) == High(s))
    && (Low(t) == Low(s)
        || (Low(t) == Low(s) + 1 && (InList(s, Low(s)) ==> !t.entities[s.listed[Low(s)].e].attached))
        || Low(s) == |s.listed|)
  }

  lemma DetachEffect(s: State)
    requires Shaped(s) && Detaching(s.call)
    ensures DetachMoves(s, DetachStep(s))
  {
    hide DetachMoves, DetachStep;
    if !InList(s, s.call.i) {
      DetachSkips(s);
    } else if s.call.DetachWant? {
      DetachClears(s);
    } else {
      DetachLooks(s);
    }
  }

  lemma DetachSkips(s: State)
    requires Shaped(s) && Detaching(s.call) && !InList(s, s.call.i)
    ensures DetachMoves(s, DetachStep(s))
  {
    hide JobFits;
  }

  lemma DetachClears(s: State)
    requires Shaped(s) && s.call.DetachWant? && InList(s, s.call.i)
    ensures DetachMoves(s, DetachStep(s))
  {
    hide JobFits;
  }

  lemma DetachLooks(s: State)
    requires Shaped(s) && Detaching(s.call) && !s.call.DetachWant? && InList(s, s.call.i)
    ensures DetachMoves(s, DetachStep(s))
  {
    hide JobFits;
    assert DetachStep(s).entities == s.entities;
  }

  lemma DetachKeepsAttached(s: State)
    requires Inv(s) && CanStep(s, Waiter) && Detaching(s.call)
    ensures AttachedAsListed(WaitStep(s))
  {
    hide LocksMatch, JobsSound, Recorded, Heard, SleepExplained, DetachStep, CanStep;
    DetachEffect(s);
    var t := WaitStep(s);
    forall e | 0 <= e < |t.entities| && t.entities[e].attached ensures InWindow(t, e) {
      assert InWindow(s, e);
      var i :| Low(s) <= i < High(s) && i < |s.listed| && s.listed[i] == Listed(e);
      assert Low(t) <= i < High(t);
    }
  }

  /** Nothing is claimed once the wait is over. */
  lemma DetachKeepsHeard(s: State)
    requires Inv(s) && CanStep(s, Waiter) && Detaching(s.call)
    ensures Heard(WaitStep(s)) && SleepExplained(WaitStep(s))
  {
    hide LocksMatch, JobsSound, Recorded, AttachedAsListed, Pending;
  }

  lemma KeptOneMore(listed: seq<Slot>, slots: seq<Slot>, seen: seq<nat>, found: bool, n: nat)
    requires Kept(listed, slots, seen, found) && |seen| < |listed| && (n > 0 ==> listed[|seen|].Listed?)
    ensures Kept(listed, if n == 0 then slots[|seen| := NoEntity] else slots, seen + [n], found || n > 0)
  {
    var longer := seen + [n];
    assert longer[|seen|] == n;
    assert found ==> exists i :: 0 <= i < |seen| && longer[i] > 0 by {
      if found {
        var i :| 0 <= i < |seen| && seen[i] > 0;
        assert longer[i] > 0;
      }
    }
  }

  lemma DetachKeepsRecorded(s: State)
    requires Inv(s) && CanStep(s, Waiter) && Detaching(s.call)
    ensures Recorded(WaitStep(s))
  {
    hide LocksMatch, JobsSound, AttachedAsListed, Heard, SleepExplained, Kept;
    var i := s.call.i;
    if i < |s.listed| {
      assert |s.seen| == i && |s.slots| == |s.listed|;
      if !InList(s, i) {
        KeptOneMore(s.listed, s.slots, s.seen, s.found, 0);
        SlotWasEmpty(s, i);
      } else if s.call.DetachLeave? {
        KeptOneMore(s.listed, s.slots, s.seen, s.found, s.call.count);
      }
    }
  }

  lemma SlotWasEmpty(s: State, i: nat)
    requires Shaped(s) && i == |s.seen| < |s.listed| == |s.slots| && !InList(s, i)
    requires Kept(s.listed, s.slots, s.seen, s.found)
    ensures s.slots[i := NoEntity] == s.slots
  {
    assert s.slots[i] == s.listed[i] == NoEntity;
  }

  lemma DetachKeepsJobsSound(s: State)
    requires Inv(s) && CanStep(s, Waiter) && Detaching(s.call)
    ensures JobsSound(WaitStep(s))
  {
    hide Recorded, Heard, SleepExplained, AttachedAsListed;
    var t := WaitStep(s);
    forall q | 0 <= q < |t.jobs| ensures JobSound(t, t.jobs[q]) {
      var j := s.jobs[q];
      assert JobSound(s, j);
      if j.WantSet? || j.HasSet? || j.Raised? || j.Signalled? {
        assert CondLock(j.e) in Holds(s, Worker(q));
        assert CondLock(j.e) in s.held;
      }
    }
  }

  lemma WaitKeepsInv(s: State)
    requires Inv(s) && CanStep(s, Waiter)
    ensures Inv(Step(s, Wait))
  {
    hide WaitStep, AttachedAsListed, JobsSound, Heard, SleepExplained, LocksMatch, Shaped, Recorded;
    StepKeepsLocks(s, Wait);
    if Attaching(s.call) {
      AttachKeepsRecorded(s);
      AttachKeepsAttached(s);
      AttachKeepsHeard(s);
      AttachKeepsJobsSound(s);
    } else if Sleeping(s.call) {
      SleepKeepsAttached(s);
      SleepKeepsHeard(s);
      SleepKeepsJobsSound(s);
    } else {
      DetachKeepsAttached(s);
      DetachKeepsHeard(s);
      DetachKeepsRecorded(s);
      DetachKeepsJobsSound(s);
    }
  }

  lemma StepKeepsInv(s: State, a: Action)
    requires Inv(s) && Enabled(s, a)
    ensures Inv(Step(s, a))
  {
    hide Inv, Step;
    match a
    case Begin(listed, patience) => BeginKeepsInv(s, listed, patience);
    case Wait => WaitKeepsInv(s);
    case Wake => WakeKeepsInv(s);
    case Start(p, job) => StartKeepsInv(s, p, job);
    case Work(p) => WorkKeepsInv(s, p);
  }

  lemma InitialInv(kinds: seq<Kind>, workers: nat)
    ensures Inv(Initial(kinds, workers))
  {
    var s := Initial(kinds, workers);
    forall t: Thread ensures Holds(s, t) == {} {
    }
  }

  /** Whatever the threads do, in whatever order. */
  lemma {:induction false} InvAlways(kinds: seq<Kind>, workers: nat, actions: seq<Action>)
    requires Run(Initial(kinds, workers), actions).Some?
    ensures Inv(Run(Initial(kinds, workers), actions).value)
  {
    hide Inv, Step, Enabled, Initial;
    var s := Initial(kinds, workers);
    if actions == [] {
      InitialInv(kinds, workers);
    } else {
      var n := |actions| - 1;
      InvAlways(kinds, workers, actions[..n]);
      StepKeepsInv(Run(s, actions[..n]).value, actions[n]);
    }
  }
}
