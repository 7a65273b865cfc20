/** What `rmw_wait` reports: how many messages a queue holds in any run, and
    that one which is there is reported. */
module WaitReport {
  import opened WaitProtocol
  import opened WaitLocks
  import opened WaitSafety
  import opened WaitTheorems

  /* What the counts count */

  predicate Appends(s: State, a: Action, e: nat) { a.Work? && a.p < |s.jobs| && s.jobs[a.p] == InQueue(e) }

  predicate Trips(s: State, a: Action, e: nat) { a.Work? && a.p < |s.jobs| && s.jobs[a.p] == Tripping(e) }

  predicate Removes(s: State, a: Action, e: nat) {
    a.Work? && a.p < |s.jobs| && s.jobs[a.p] == Taking(e) && e < |s.entities| && s.entities[e].count > 0
  }

  /** How many actions of a run are of a kind. */
  function Times(start: State, actions: seq<Action>, e: nat, kind: (State, Action, nat) -> bool): nat {
    if actions == [] then 0
    else
      var n := |actions| - 1;
      var before := Run(start, actions[..n]);
      Times(start, actions[..n], e, kind)
      + if before.Some? && kind(before.value, actions[n], e) then 1 else 0
  }

  /** In every run the count of a queue is the number of appends to it less the
      number of messages taken, and the flag of a guard is set exactly when it
      has been tripped. */
  lemma {:induction false} CountLaw(kinds: seq<Kind>, workers: nat, actions: seq<Action>, e: nat)
    requires Run(Initial(kinds, workers), actions).Some? && e < |kinds|
    ensures var start := Initial(kinds, workers);
      var s := Run(start, actions).value;
      && e < |s.entities| && s.entities[e].kind == kinds[e]
      && (kinds[e] == Queue ==>
            s.entities[e].count == Times(start, actions, e, Appends) - Times(start, actions, e, Removes))
      && (kinds[e] == Guard ==> (s.entities[e].count > 0 <==> Times(start, actions, e, Trips) > 0))
  {
    hide Inv, Step, Enabled, Appends, Removes, Trips;
    if actions != [] {
      var n := |actions| - 1;
      CountLaw(kinds, workers, actions[..n], e);
      InvAlways(kinds, workers, actions[..n]);
      CountStep(Run(Initial(kinds, workers), actions[..n]).value, actions[n], e);
    }
  }

  lemma CountStep(s: State, a: Action, e: nat)
    requires Inv(s) && Enabled(s, a) && e < |s.entities|
    ensures var t := Step(s, a);
      && e < |t.entities| && t.entities[e].kind == s.entities[e].kind
      && (s.entities[e].kind == Queue ==>
            t.entities[e].count
            == s.entities[e].count + (if Appends(s, a, e) then 1 else 0) - (if Removes(s, a, e) then 1 else 0))
      && (s.entities[e].kind == Guard ==>
            (t.entities[e].count > 0 <==> s.entities[e].count > 0 || Trips(s, a, e)))
  {
    hide LocksMatch, AttachedAsListed, Heard, SleepExplained, Recorded, JobsSound, WorkStep, WaitStep;
    if a.Work? {
      hide CanStep;
      WorkHasEffect(s, a.p);
      assert JobFits(s, s.jobs[a.p]);
    } else if a.Wait? {
      WaitKeepsCounts(s);
    }
  }

  predicate SameCounts(s: State, t: State) {
    && |t.entities| == |s.entities|
    && forall e :: 0 <= e < |s.entities| ==>
         t.entities[e].kind == s.entities[e].kind && t.entities[e].count == s.entities[e].count
  }

  lemma WaitKeepsCounts(s: State)
    requires Busy(s, Waiter)
    ensures SameCounts(s, WaitStep(s))
  {
    hide SameCounts, AttachStep, SleepStep, DetachStep;
    if Attaching(s.call) {
      AttachKeepsCounts(s);
    } else if Sleeping(s.call) {
      SleepKeepsCounts(s);
    } else {
      DetachKeepsCounts(s);
    }
  }

  lemma AttachKeepsCounts(s: State)
    requires Attaching(s.call)
    ensures SameCounts(s, AttachStep(s))
  {
  }

  lemma SleepKeepsCounts(s: State)
    requires Sleeping(s.call)
    ensures SameCounts(s, SleepStep(s))
  {
    SleepEffect(s);
  }

  lemma DetachKeepsCounts(s: State)
    requires Detaching(s.call)
    ensures SameCounts(s, DetachStep(s))
  {
  }

  /* What is there is reported */

  /** Slot i lists an entity that is ready, and the call cannot miss it: it has
      not yet looked at the slot, or is on its way out and has not passed it
      without seeing it. */
  predicate Ready(s: State, i: nat, e: nat) {
    && i < |s.listed| && s.listed[i] == Listed(e) && e < |s.entities| && s.entities[e].count > 0
    && (Attaching(s.call) || PastSleep(s))
    && (Attaching(s.call) ==> s.call.i <= i && (s.call.AttachWrite? && s.call.i == i ==> !s.call.empty))
    && (|s.seen| > i ==> s.seen[i] > 0)
    && (s.call.DetachLeave? && s.call.i == i ==> s.call.count > 0)
  }

  /** Nobody takes from the entity. */
  predicate Untaken(s: State, e: nat) {
    forall p :: 0 <= p < |s.jobs| ==> s.jobs[p] != WantTake(e) && s.jobs[p] != Taking(e)
  }

  predicate Undisturbing(a: Action, e: nat) { !a.Begin? && !(a.Start? && a.job == WantTake(e)) }

  lemma WaitKeepsReady(s: State, i: nat, e: nat)
    requires Inv(s) && CanStep(s, Waiter) && Ready(s, i, e)
    ensures Ready(WaitStep(s), i, e)
  {
    hide Inv, AttachStep, SleepStep, DetachStep, Ready;
    if Attaching(s.call) {
      AttachKeepsReady(s, i, e);
    } else if Sleeping(s.call) {
      SleepKeepsReady(s, i, e);
    } else {
      DetachKeepsReady(s, i, e);
    }
  }

  lemma AttachKeepsReady(s: State, i: nat, e: nat)
    requires Inv(s) && Ready(s, i, e) && Attaching(s.call)
    ensures Ready(AttachStep(s), i, e)
  {
    hide LocksMatch, AttachedAsListed, Heard, SleepExplained, JobsSound, Kept;
  }

  lemma SleepKeepsReady(s: State, i: nat, e: nat)
    requires Ready(s, i, e) && Sleeping(s.call)
    ensures Ready(SleepStep(s), i, e)
  {
  }

  lemma DetachKeepsReady(s: State, i: nat, e: nat)
    requires Inv(s) && Ready(s, i, e) && Detaching(s.call)
    ensures Ready(DetachStep(s), i, e)
  {
    hide LocksMatch, AttachedAsListed, Heard, SleepExplained, JobsSound, Kept;
  }

  lemma StepKeepsReady(s: State, a: Action, i: nat, e: nat)
    requires Inv(s) && Enabled(s, a) && Ready(s, i, e) && Untaken(s, e) && Undisturbing(a, e)
    ensures Ready(Step(s, a), i, e) && Untaken(Step(s, a), e)
  {
    hide LocksMatch, AttachedAsListed, Heard, SleepExplained, Recorded, JobsSound, WorkStep, WaitStep;
    if a.Work? {
      hide CanStep;
      WorkHasEffect(s, a.p);
      assert JobFits(s, s.jobs[a.p]);
    } else if a.Wait? {
      WaitKeepsReady(s, i, e);
      WaitIsFramed(s);
    }
  }

  lemma {:induction false} StaysReady(s: State, actions: seq<Action>, i: nat, e: nat)
    requires Inv(s) && Ready(s, i, e) && Untaken(s, e) && Run(s, actions).Some?
    requires forall k :: 0 <= k < |actions| ==> Undisturbing(actions[k], e)
    ensures var t := Run(s, actions).value; Inv(t) && Ready(t, i, e) && Untaken(t, e)
  {
    hide Inv, Ready, Untaken, Step, Enabled;
    if actions != [] {
      var n := |actions| - 1;
      StaysReady(s, actions[..n], i, e);
      StepKeepsReady(Run(s, actions[..n]).value, actions[n], i, e);
      StepKeepsInv(Run(s, actions[..n]).value, actions[n]);
    }
  }

  /** A call that begins while a listed entity is ready does not sleep, and
      reports the entity unless somebody takes from it in the meantime. */
  lemma ReadyIsReported(s: State, listed: seq<Slot>, patience: Patience, actions: seq<Action>, i: nat, e: nat)
    requires Inv(s) && Enabled(s, Begin(listed, patience)) && Untaken(s, e)
    requires i < |listed| && listed[i] == Listed(e) && s.entities[e].count > 0
    requires Run(Step(s, Begin(listed, patience)), actions).Some?
    requires forall k :: 0 <= k < |actions| ==> Undisturbing(actions[k], e)
    ensures var t := Run(Step(s, Begin(listed, patience)), actions).value;
      && !t.call.SetWant? && !t.call.Asleep?
      && (t.call.Returned? ==> |t.slots| > i && t.slots[i] == Listed(e) && Result(t) == RMW_RET_OK)
  {
    hide Inv, Run;
    var b := Step(s, Begin(listed, patience));
    StepKeepsInv(s, Begin(listed, patience));
    StaysReady(b, actions, i, e);
    SeenIsReported(Run(b, actions).value, i, e);
  }

  lemma SeenIsReported(t: State, i: nat, e: nat)
    requires Inv(t) && Ready(t, i, e)
    ensures t.call.Returned? ==> |t.slots| > i && t.slots[i] == Listed(e) && Result(t) == RMW_RET_OK
  {
    hide LocksMatch, AttachedAsListed, Heard, SleepExplained, JobsSound, Shaped;
  }
}
