/** Receive and wait: transport callbacks append to queues and trigger, one
    thread runs `rmw_wait`, others take. Each step below is a mutex operation or
    an access to what the mutexes held protect. */
module WaitProtocol {

  datatype Option<T> = None | Some(value: T)

  /** Subscriptions, services and clients have a receive queue; a guard
      condition has a flag instead. */
  datatype Kind = Queue | Guard

  /** `count` is the length of the queue, or 1 once the guard's flag is set.
      `attached` says that `wait_set_data` points at the wait set. */
  datatype Entity = Entity(kind: Kind, count: nat, attached: bool)

  datatype Lock = CondLock(e: nat) | QueueLock(e: nat) | SetLock

  datatype Thread = Waiter | Worker(p: nat)

  /** Where a transport callback, a guard trigger or a taking thread is. */
  datatype Job =
    | Idle
    | WantQueue(e: nat)
    | InQueue(e: nat)
    | Appended(e: nat)
    | WantTrip(e: nat)
    | Tripping(e: nat)
    | HasCond(e: nat)
    | WantSet(e: nat)
    | HasSet(e: nat)
    | Raised(e: nat)
    | Signalled(e: nat)
    | Leaving(e: nat)
    | WantTake(e: nat)
    | Taking(e: nat)

  /** Where the thread in `rmw_wait` is; `i` is the slot being worked on. */
  datatype Call =
    | Outside
    | AttachWant(i: nat)
    | AttachProbe(i: nat)
    | AttachCount(i: nat)
    | AttachWrite(i: nat, empty: bool)
    | SetWant
    | Testing
    | Asleep
    | Woken
    | Clearing
    | DetachWant(i: nat)
    | DetachProbe(i: nat)
    | DetachCount(i: nat)
    | DetachLeave(i: nat, count: nat)
    | Returned

  /** No timeout, a timeout, or a zero timeout. */
  datatype Patience = Forever | Timed | Poll

  datatype Slot = NoEntity | Listed(e: nat)

  /** `seen` logs the count each detach step read, 0 for an empty slot. */
  datatype State = State(
    entities: seq<Entity>,
    held: map<Lock, Thread>,
    triggered: bool,
    call: Call,
    patience: Patience,
    listed: seq<Slot>,
    slots: seq<Slot>,
    seen: seq<nat>,
    found: bool,
    jobs: seq<Job>)

  datatype Action =
    | Begin(listed: seq<Slot>, patience: Patience)
    | Wait
    | Wake
    | Start(p: nat, job: Job)
    | Work(p: nat)

  function Initial(kinds: seq<Kind>, workers: nat): State {
    State(seq(|kinds|, e requires 0 <= e < |kinds| => Entity(kinds[e], 0, false)), map[], false,
          Outside, Poll, [], [], [], false, seq(workers, p => Idle))
  }

  /* What each thread holds and wants */

  function JobWants(j: Job): Option<Lock> {
    match j
    case WantQueue(e) => Some(QueueLock(e))
    case WantTake(e) => Some(QueueLock(e))
    case Appended(e) => Some(CondLock(e))
    case WantTrip(e) => Some(CondLock(e))
    case WantSet(_) => Some(SetLock)
    case _ => None
  }

  function JobHolds(j: Job): set<Lock> {
    match j
    case InQueue(e) => {QueueLock(e)}
    case Taking(e) => {QueueLock(e)}
    case Tripping(e) => {CondLock(e)}
    case HasCond(e) => {CondLock(e)}
    case WantSet(e) => {CondLock(e)}
    case Leaving(e) => {CondLock(e)}
    case HasSet(e) => {CondLock(e), SetLock}
    case Raised(e) => {CondLock(e), SetLock}
    case Signalled(e) => {CondLock(e), SetLock}
    case _ => {}
  }

  predicate InList(s: State, i: nat) { i < |s.listed| && s.listed[i].Listed? && s.listed[i].e < |s.entities| }

  predicate IsQueue(s: State, e: nat) { e < |s.entities| && s.entities[e].kind == Queue }

  function CallWants(s: State): Option<Lock> {
    match s.call
    case AttachWant(i) => if InList(s, i) then Some(CondLock(s.listed[i].e)) else None
    case DetachWant(i) => if InList(s, i) then Some(CondLock(s.listed[i].e)) else None
    case AttachProbe(i) => if InList(s, i) && IsQueue(s, s.listed[i].e) then Some(QueueLock(s.listed[i].e)) else None
    case DetachProbe(i) => if InList(s, i) && IsQueue(s, s.listed[i].e) then Some(QueueLock(s.listed[i].e)) else None
    case SetWant => Some(SetLock)
    case Woken => Some(SetLock)
    case _ => None
  }

  function CallHolds(s: State): set<Lock> {
    match s.call
    case AttachProbe(i) => if InList(s, i) then {CondLock(s.listed[i].e)} else {}
    case AttachWrite(i, _) => if InList(s, i) then {CondLock(s.listed[i].e)} else {}
    case DetachProbe(i) => if InList(s, i) then {CondLock(s.listed[i].e)} else {}
    case DetachLeave(i, _) => if InList(s, i) then {CondLock(s.listed[i].e)} else {}
    case AttachCount(i) => if InList(s, i) then {CondLock(s.listed[i].e), QueueLock(s.listed[i].e)} else {}
    case DetachCount(i) => if InList(s, i) then {CondLock(s.listed[i].e), QueueLock(s.listed[i].e)} else {}
    case Testing => {SetLock}
    case Clearing => {SetLock}
    case _ => {}
  }

  function Wants(s: State, t: Thread): Option<Lock> {
    match t
    case Waiter => CallWants(s)
    case Worker(p) => if p < |s.jobs| then JobWants(s.jobs[p]) else None
  }

  function Holds(s: State, t: Thread): set<Lock> {
    match t
    case Waiter => CallHolds(s)
    case Worker(p) => if p < |s.jobs| then JobHolds(s.jobs[p]) else {}
  }

  /** The thread is in the middle of a call that it must carry on by itself. */
  predicate Busy(s: State, t: Thread) {
    match t
    case Waiter => !s.call.Outside? && !s.call.Asleep? && !s.call.Returned?
    case Worker(p) => p < |s.jobs| && !s.jobs[p].Idle?
  }

  predicate CanStep(s: State, t: Thread) {
    Busy(s, t) && (Wants(s, t).Some? ==> Wants(s, t).value !in s.held)
  }

  /* The steps */

  predicate StartOf(s: State, job: Job) {
    match job
    case WantQueue(e) => IsQueue(s, e)
    case WantTake(e) => IsQueue(s, e)
    case WantTrip(e) => e < |s.entities| && s.entities[e].kind == Guard
    case _ => false
  }

  predicate Enabled(s: State, a: Action) {
    match a
    case Begin(listed, _) =>
      && (s.call.Outside? || s.call.Returned?)
      && forall i :: 0 <= i < |listed| && listed[i].Listed? ==> listed[i].e < |s.entities|
    case Wait => CanStep(s, Waiter)
    case Wake => s.call.Asleep?
    case Start(p, job) => p < |s.jobs| && s.jobs[p].Idle? && StartOf(s, job)
    case Work(p) => CanStep(s, Worker(p)) && s.jobs[p].e < |s.entities|
  }

  function WithJob(s: State, p: nat, j: Job): State
    requires p < |s.jobs|
  {
    s.(jobs := s.jobs[p := j])
  }

  function Locked(s: State, l: Lock, t: Thread): State { s.(held := s.held[l := t]) }

  function Unlocked(s: State, l: Lock): State { s.(held := s.held - {l}) }

  function WithCount(s: State, e: nat, n: nat): State
    requires e < |s.entities|
  {
    s.(entities := s.entities[e := s.entities[e].(count := n)])
  }

  function WithAttached(s: State, e: nat, b: bool): State
    requires e < |s.entities|
  {
    s.(entities := s.entities[e := s.entities[e].(attached := b)])
  }

  /** `recv_msg_list_append` then `zenoh_pico_condition_trigger`; for a guard,
      `guard_condition_trigger`, which does not signal; or `recv_msg_list_pop`. */
  function WorkStep(s: State, p: nat): State
    requires p < |s.jobs| && !s.jobs[p].Idle? && s.jobs[p].e < |s.entities|
  {
    var t := Worker(p);
    match s.jobs[p]
    case WantQueue(e) => WithJob(Locked(s, QueueLock(e), t), p, InQueue(e))
    case InQueue(e) => WithJob(WithCount(Unlocked(s, QueueLock(e)), e, s.entities[e].count + 1), p, Appended(e))
    case Appended(e) => WithJob(Locked(s, CondLock(e), t), p, HasCond(e))
    case WantTrip(e) => WithJob(Locked(s, CondLock(e), t), p, Tripping(e))
    case Tripping(e) => WithJob(WithCount(s, e, 1), p, HasCond(e))
    case HasCond(e) => WithJob(s, p, if s.entities[e].attached then WantSet(e) else Leaving(e))
    case WantSet(e) => WithJob(Locked(s, SetLock, t), p, HasSet(e))
    case HasSet(e) => WithJob(s.(triggered := true), p, Raised(e))
    case Raised(e) =>
      var woken := s.entities[e].kind == Queue && s.call.Asleep?;
      WithJob(s.(call := if woken then Woken else s.call), p, Signalled(e))
    case Signalled(e) => WithJob(Unlocked(s, SetLock), p, Leaving(e))
    case Leaving(e) => WithJob(Unlocked(s, CondLock(e)), p, Idle)
    case WantTake(e) => WithJob(Locked(s, QueueLock(e), t), p, Taking(e))
    case Taking(e) =>
      var n := s.entities[e].count;
      WithJob(WithCount(Unlocked(s, QueueLock(e)), e, if n == 0 then 0 else n - 1), p, Idle)
  }

  predicate Attaching(c: Call) { c.AttachWant? || c.AttachProbe? || c.AttachCount? || c.AttachWrite? }

  predicate Sleeping(c: Call) { c.SetWant? || c.Testing? || c.Woken? || c.Clearing? }

  predicate Detaching(c: Call) { c.DetachWant? || c.DetachProbe? || c.DetachCount? || c.DetachLeave? }

  /** `_check_and_attach_condition` up to its last slot or the first entity that
      is ready. */
  function AttachStep(s: State): State
    requires Attaching(s.call)
  {
    var i := s.call.i;
    if !InList(s, i) then
      s.(call := if i < |s.listed| then AttachWant(i + 1) else SetWant)
    else
      var e := s.listed[i].e;
      match s.call
      case AttachWant(_) => Locked(s, CondLock(e), Waiter).(call := AttachProbe(i))
      case AttachProbe(_) =>
        if IsQueue(s, e) then Locked(s, QueueLock(e), Waiter).(call := AttachCount(i))
        else s.(call := AttachWrite(i, s.entities[e].count == 0))
      case AttachCount(_) => Unlocked(s, QueueLock(e)).(call := AttachWrite(i, s.entities[e].count == 0))
      case AttachWrite(_, empty) =>
        if empty then Unlocked(WithAttached(s, e, true), CondLock(e)).(call := AttachWant(i + 1))
        else Unlocked(s, CondLock(e)).(call := DetachWant(0))
  }

  /** The wait proper: only the untimed wait tests `triggered` before it sleeps. */
  function SleepStep(s: State): State
    requires Sleeping(s.call)
  {
    match s.call
    case SetWant =>
      if s.patience.Timed? then s.(call := Asleep)
      else Locked(s, SetLock, Waiter).(call := if s.patience.Forever? then Testing else Clearing)
    case Testing =>
      if s.triggered then s.(call := Clearing) else Unlocked(s, SetLock).(call := Asleep)
    case Woken => Locked(s, SetLock, Waiter).(call := if s.patience.Forever? then Testing else Clearing)
    case Clearing => Unlocked(s.(triggered := false), SetLock).(call := DetachWant(0))
  }

  /** The detach loops: a slot whose entity is not ready is set to NULL. */
  function DetachStep(s: State): State
    requires Detaching(s.call)
  {
    var i := s.call.i;
    if !InList(s, i) then
      if i < |s.listed| then s.(call := DetachWant(i + 1), seen := s.seen + [0]) else s.(call := Returned)
    else
      var e := s.listed[i].e;
      match s.call
      case DetachWant(_) => Locked(WithAttached(s, e, false), CondLock(e), Waiter).(call := DetachProbe(i))
      case DetachProbe(_) =>
        if IsQueue(s, e) then Locked(s, QueueLock(e), Waiter).(call := DetachCount(i))
        else s.(call := DetachLeave(i, s.entities[e].count))
      case DetachCount(_) => Unlocked(s, QueueLock(e)).(call := DetachLeave(i, s.entities[e].count))
      case DetachLeave(_, n) =>
        Unlocked(s, CondLock(e)).(
          call := DetachWant(i + 1),
          seen := s.seen + [n],
          slots := if n == 0 && i < |s.slots| then s.slots[i := NoEntity] else s.slots,
          found := s.found || n > 0)
  }

  function WaitStep(s: State): State
    requires Busy(s, Waiter)
  {
    if Attaching(s.call) then AttachStep(s) else if Sleeping(s.call) then SleepStep(s) else DetachStep(s)
  }

  function Step(s: State, a: Action): State
    requires Enabled(s, a)
  {
    match a
    case Begin(listed, patience) =>
      s.(call := AttachWant(0), patience := patience, listed := listed, slots := listed, seen := [], found := false)
    case Wait => WaitStep(s)
    case Wake => s.(call := Woken)
    case Start(p, job) => WithJob(s, p, job)
    case Work(p) => WorkStep(s, p)
  }

  function Run(s: State, actions: seq<Action>): Option<State> {
    if actions == [] then Some(s)
    else
      var n := |actions| - 1;
      var before := Run(s, actions[..n]);
      if before.Some? && Enabled(before.value, actions[n])
      then Some(Step(before.value, actions[n])) else None
  }

  /** What `rmw_wait` hands back. */
  datatype RmwRet = RMW_RET_OK | RMW_RET_TIMEOUT

  function Result(s: State): RmwRet { if s.found then RMW_RET_OK else RMW_RET_TIMEOUT }
}
