/** Recursive and nonrecursive mutexes (threads/cma_mutex.c).  Their lock bit is
    set for ever and unlocking clears a dummy bit, so every call goes through
    `int_lock`, an inner fast mutex, and the fields it protects: the owner, the
    nesting count and the `waiters` bit.  One step is one access to one field or
    bit, one acquisition or release of `int_lock`, or one semaphore operation. */
module OwnedMutex {
  import opened Semaphore
  import opened Places

  datatype Kind = Recursive | Nonrecursive

  datatype Owner = Nobody | By(t: Tid)

  /** What a call returns: normal, unlocking something unowned, owned by somebody
      else (or relocking a nonrecursive mutex), or a try-lock that failed. */
  datatype Status = Normal | UseError | InUse | Failed

  datatype Pc =
    | Idle
    | LockWant      // lock: wants int_lock
    | LockTest      // has int_lock; about to look at the owner
    | Mark          // about to clear `waiters`
    | Retest        // about to look at the owner again
    | Drop          // still owned; about to release int_lock
    | Sleep         // about to wait on the semaphore
    | Asleep
    | Again         // woken; wants int_lock
    | Take          // nobody owns it; about to take it
    | TryWant | TryTest
    | TestEvent     // unlock: about to test-and-set `event`
    | ClearEvent    // about to clear `event` again
    | UnlockWant    // wants int_lock
    | UnlockTest    // has int_lock; about to look at the owner
    | TestWaiters   // gave up the mutex; about to test-and-set `waiters`
    | Wake          // `waiters` was clear; about to wake one
    | Leave(status: Status, gain: int)  // about to release int_lock and return

  datatype Op = Lock | TryLock | Unlock

  /** The mutex structure. */
  datatype Mutex = Mutex(kind: Kind, owner: Owner, nest: int, event: bool, waiters: bool, inner: bool, sem: Sem)

  /** `depth[t]` is what thread t believes: its locks minus its unlocks that
      returned normally. */
  datatype State = State(m: Mutex, pc: seq<Pc>, depth: seq<int>)

  datatype Act = Act(t: Tid, op: Op, k: nat)

  /** What one step of a thread does: its next place, the mutex after it, the
      locks its caller is told to have gained, and the thread it wakes, if any. */
  datatype Effect = Effect(next: Pc, m: Mutex, gain: int, woken: seq<Tid>)

  function Init(kind: Kind, n: nat): State {
    State(Mutex(kind, Nobody, 0, false, true, false, EMPTY), seq(n, _ => Idle), seq(n, _ => 0))
  }

  function Go(p: Pc, m: Mutex): Effect {
    Effect(p, m, 0, [])
  }

  function Owned(m: Mutex, t: Tid): Mutex {
    m.(owner := By(t), nest := if m.kind == Recursive then m.nest + 1 else m.nest)
  }

  predicate MayTake(m: Mutex, t: Tid) {
    m.owner == Nobody || (m.kind == Recursive && m.owner == By(t))
  }

  /** The owner check of unlock, once int_lock is held. */
  function GiveUp(m: Mutex, t: Tid): Effect {
    if m.owner == Nobody then Go(Leave(UseError, 0), m)
    else if m.owner != By(t) then Go(Leave(InUse, 0), m)
    else if m.kind == Recursive && m.nest != 1 then Go(Leave(Normal, -1), m.(nest := m.nest - 1))
    else Go(TestWaiters, m.(owner := Nobody, nest := if m.kind == Recursive then 0 else m.nest))
  }

  /** Thread t, standing at p, runs one step. */
  function Exec(p: Pc, m: Mutex, t: Tid, op: Op, k: nat): Effect {
    match p
    case Idle => Go(match op case Lock => LockWant case TryLock => TryWant case Unlock => TestEvent, m)
    case LockWant => if m.inner then Go(p, m) else Go(LockTest, m.(inner := true))
    case LockTest =>
      if MayTake(m, t) then Go(Leave(Normal, 1), Owned(m, t))
      else if m.owner == By(t) then Go(Leave(InUse, 0), m)
      else Go(Mark, m)
    case Mark => Go(Retest, m.(waiters := false))
    case Retest => Go(if m.owner == Nobody then Take else Drop, m)
    case Drop => Go(Sleep, m.(inner := false))
    case Sleep =>
      if !m.sem.nopending then Go(Again, m.(sem := m.sem.(nopending := true)))
      else Go(Asleep, m.(sem := m.sem.(queue := InsertAt(m.sem.queue, k, t))))
    case Asleep => Go(p, m)
    case Again => if m.inner then Go(p, m) else Go(Mark, m.(inner := true))
    case Take => Go(Leave(Normal, 1), Owned(m, t))
    case TryWant => if m.inner then Go(p, m) else Go(TryTest, m.(inner := true))
    case TryTest => if MayTake(m, t) then Go(Leave(Normal, 1), Owned(m, t)) else Go(Leave(Failed, 0), m)
    case TestEvent => if m.event then Effect(Idle, m, -1, []) else Go(ClearEvent, m.(event := true))
    case ClearEvent => Go(UnlockWant, m.(event := false))
    case UnlockWant => if m.inner then Go(p, m) else Go(UnlockTest, m.(inner := true))
    case UnlockTest => GiveUp(m, t)
    case TestWaiters => if m.waiters then Go(Leave(Normal, -1), m) else Go(Wake, m.(waiters := true))
    case Wake =>
      if m.sem.queue == [] then Go(Leave(Normal, -1), m.(sem := m.sem.(nopending := false)))
      else Effect(Leave(Normal, -1), m.(sem := m.sem.(queue := m.sem.queue[1..])), 0, [m.sem.queue[0]])
    case Leave(_, gain) => Effect(Idle, m.(inner := false), gain, [])
  }

  function Place(pc: seq<Pc>, t: Tid, e: Effect): (r: seq<Pc>)
    requires t < |pc|
    ensures |r| == |pc|
  {
    var moved := pc[t := e.next];
    if e.woken != [] && e.woken[0] < |pc| then moved[e.woken[0] := Again] else moved
  }

  function Step(s: State, a: Act): (r: State)
    ensures |r.pc| == |s.pc| && |r.depth| == |s.depth|
  {
    if a.t >= |s.pc| || |s.depth| != |s.pc| then s else
    var e := Exec(s.pc[a.t], s.m, a.t, a.op, a.k);
    State(e.m, Place(s.pc, a.t, e), s.depth[a.t := s.depth[a.t] + e.gain])
  }

  function Run(s: State, acts: seq<Act>): State
    decreases |acts|
  {
    if acts == [] then s else Run(Step(s, acts[0]), acts[1..])
  }

  // --- Invariant -----------------------------------------------------------------

  predicate HasInner(p: Pc) {
    p in {LockTest, Mark, Retest, Drop, Take, TryTest, UnlockTest, TestWaiters, Wake} || p.Leave?
  }

  /** int_lock is held exactly while some thread is in its section, and by one thread. */
  ghost predicate InnerExclusive(s: State) {
    && (s.m.inner <==> exists u: Tid :: u < |s.pc| && HasInner(s.pc[u]))
    && (forall u: Tid, v: Tid :: u < |s.pc| && v < |s.pc| && HasInner(s.pc[u]) && HasInner(s.pc[v]) ==> u == v)
  }

  ghost predicate Queued(s: State) {
    Holds(s.m.sem, s.pc, {Asleep})
  }

  /** The event bit is set only between some unlocker's test-and-set and its clear. */
  ghost predicate EventExclusive(s: State) {
    && (s.m.event <==> Among(s.pc, {ClearEvent}))
    && (forall u: Tid, v: Tid :: u < |s.pc| && v < |s.pc| && s.pc[u] == ClearEvent && s.pc[v] == ClearEvent ==> u == v)
  }

  ghost predicate OwnerSeen(s: State) {
    && (Among(s.pc, {Drop}) ==> s.m.owner != Nobody)
    && (Among(s.pc, {Take, TestWaiters, Wake}) ==> s.m.owner == Nobody)
  }

  ghost predicate WaitersCovered(s: State) {
    Among(s.pc, {Retest, Drop, Sleep, Asleep}) ==> !s.m.waiters || !s.m.sem.nopending || Among(s.pc, {Wake, Again, Mark})
  }

  /** While nobody owns the mutex, a thread asleep or bound for sleep has somebody
      in flight that will look at the owner, or at the queue, again. */
  ghost predicate NoLostWakeup(s: State) {
    s.m.owner == Nobody && Among(s.pc, {Sleep, Asleep}) ==>
      !s.m.sem.nopending || Among(s.pc, {TestWaiters, Wake, Again, Mark, Retest, Take})
  }

  /** How far the mutex is ahead of what thread t has been told so far. */
  function Untold(p: Pc): int {
    match p
    case Leave(_, gain) => gain
    case TestWaiters => -1
    case Wake => -1
    case _ => 0
  }

  /** The locks the mutex itself attributes to thread t. */
  function Share(m: Mutex, t: Tid): int {
    if m.owner != By(t) then 0 else if m.kind == Recursive then m.nest else 1
  }

  /** The nesting count is positive exactly while there is an owner, and nobody
      believes to own more than the mutex says. */
  ghost predicate Accounted(s: State) {
    && |s.depth| == |s.pc|
    && s.m.nest >= 0
    && (s.m.kind == Recursive ==> (s.m.nest == 0 <==> s.m.owner == Nobody))
    && (forall t: Tid :: t < |s.pc| ==> s.depth[t] + Untold(s.pc[t]) <= Share(s.m, t))
  }

  ghost predicate Inv(s: State) {
    && InnerExclusive(s) && Queued(s) && EventExclusive(s) && OwnerSeen(s)
    && WaitersCovered(s) && NoLostWakeup(s) && Accounted(s)
  }

  lemma InitInv(kind: Kind, n: nat)
    ensures Inv(Init(kind, n))
  {
  }

  /** Only waiting and waking touch the semaphore queue. */
  lemma ExecQueue(p: Pc, m: Mutex, t: Tid, op: Op, k: nat)
    requires p != Sleep && p != Wake
    ensures var e := Exec(p, m, t, op, k); e.m.sem == m.sem && e.woken == [] && (e.next == Asleep <==> p == Asleep)
  {
    hide InsertAt;
  }

  lemma ExecSleep(m: Mutex, t: Tid, op: Op, k: nat)
    ensures var e := Exec(Sleep, m, t, op, k);
      && e.woken == []
      && (if m.sem.nopending then e.next == Asleep && e.m.sem == m.sem.(queue := InsertAt(m.sem.queue, k, t))
          else e.next == Again && e.m.sem == m.sem.(nopending := true))
  {
  }

  lemma ExecWake(m: Mutex, t: Tid, op: Op, k: nat)
    ensures var e := Exec(Wake, m, t, op, k);
      && e.next == Leave(Normal, -1)
      && (if m.sem.queue == [] then e.woken == [] && e.m.sem == m.sem.(nopending := false)
          else e.woken == [m.sem.queue[0]] && e.m.sem == m.sem.(queue := m.sem.queue[1..]))
  {
  }

  lemma StepQueued(s: State, a: Act)
    requires Queued(s)
    ensures Queued(Step(s, a))
  {
    hide Exec;
    if a.t < |s.pc| && |s.depth| == |s.pc| {
      if s.pc[a.t] == Wake {
        ExecWake(s.m, a.t, a.op, a.k);
        if s.m.sem.queue != [] {
          assert Holds(s.m.sem, s.pc[a.t := Leave(Normal, -1)], {Asleep});
          Leaves(s.m.sem, s.pc[a.t := Leave(Normal, -1)], {Asleep}, Again);
        }
      } else if s.pc[a.t] == Sleep {
        ExecSleep(s.m, a.t, a.op, a.k);
        if s.m.sem.nopending { Joins(s.m.sem, s.pc, {Asleep}, a.t, a.k, Asleep); }
      } else {
        ExecQueue(s.pc[a.t], s.m, a.t, a.op, a.k);
      }
    }
  }

  /** How a step moves threads: the running one, then the one it wakes, which was asleep. */
  ghost predicate Moves(s: State, t: Tid, e: Effect, r: State) {
    && t < |s.pc| && |s.depth| == |s.pc|
    && r.m == e.m && r.depth == s.depth[t := s.depth[t] + e.gain]
    && (e.woken == [] ==> r.pc == s.pc[t := e.next])
    && (e.woken != [] ==>
          && s.pc[t] == Wake && |e.woken| == 1 && e.woken[0] < |s.pc| && s.pc[e.woken[0]] == Asleep
          && r.pc == s.pc[t := e.next][e.woken[0] := Again])
  }

  lemma StepMoves(s: State, a: Act)
    requires Queued(s) && a.t < |s.pc| && |s.depth| == |s.pc|
    ensures Moves(s, a.t, Exec(s.pc[a.t], s.m, a.t, a.op, a.k), Step(s, a))
  {
    if s.pc[a.t] == Wake {
      assert s.m.sem.queue != [] ==> s.m.sem.queue[0] in s.m.sem.queue;
    }
  }

  /** A thread enters the section of int_lock only when it finds it free, and frees
      it when it leaves; owner and nesting count change only in there. */
  ghost predicate Guarded(p: Pc, m: Mutex, e: Effect) {
    && (e.m.inner != m.inner <==> HasInner(e.next) != HasInner(p))
    && (HasInner(e.next) ==> e.m.inner)
    && (!HasInner(p) ==> e.m.owner == m.owner && e.m.nest == m.nest)
  }

  ghost predicate EventFacts(p: Pc, m: Mutex, e: Effect) {
    && (e.next == ClearEvent <==> p == TestEvent && !m.event)
    && e.m.event == if p == ClearEvent then false else m.event || e.next == ClearEvent
  }

  ghost predicate OwnerFacts(p: Pc, m: Mutex, e: Effect) {
    && (e.next == Drop ==> e.m.owner != Nobody)
    && (e.next in {Take, TestWaiters} ==> e.m.owner == Nobody)
    && (e.next == Wake ==> p == TestWaiters && e.m.owner == m.owner)
    && (e.m.owner == Nobody && m.owner != Nobody ==> e.next == TestWaiters)
    && (p in {Drop, Sleep} ==> e.m.owner == m.owner)
    && (p == Retest ==> e.m.owner == m.owner && (e.next == Take || m.owner != Nobody))
    && (p == Take ==> e.m.owner != Nobody)
  }

  ghost predicate NestFacts(m: Mutex, e: Effect) {
    && e.m.kind == m.kind && e.m.nest >= 0
    && (m.kind == Recursive ==> (e.m.nest == 0 <==> e.m.owner == Nobody))
  }

  /** What a step adds to the caller's account it adds to the mutex as well. */
  ghost predicate AccountFacts(p: Pc, m: Mutex, t: Tid, e: Effect) {
    && e.m.kind == m.kind
    && e.gain + Untold(e.next) - Untold(p) == Share(e.m, t) - Share(m, t) - (if p == TestEvent && m.event then 1 else 0)
    && (e.m != m && m.owner != e.m.owner ==> m.owner in {Nobody, By(t)} && e.m.owner in {Nobody, By(t)})
    && (m.owner == e.m.owner && m.owner != By(t) ==> e.m.nest == m.nest)
  }

  ghost predicate WaiterFacts(p: Pc, m: Mutex, e: Effect) {
    && (p == Again && e.next != p ==> e.next == Mark)
    && (p == Mark ==> e.next == Retest && !e.m.waiters)
    && (p == Wake ==> e.woken != [] || !e.m.sem.nopending)
    && (p == TestWaiters ==> e.next == Wake || e.m.waiters)
    && (e.m.waiters && !m.waiters ==> e.next == Wake)
    && (e.m.sem.nopending && !m.sem.nopending ==> e.next == Again)
    && (e.next in {Retest, Drop, Sleep, Asleep} ==> p in {Mark, Retest, Drop, Sleep, Asleep})
    && (e.next in {Sleep, Asleep} ==> p in {Drop, Sleep, Asleep})
  }

  lemma ExecGuarded(p: Pc, m: Mutex, t: Tid, op: Op, k: nat)
    requires HasInner(p) ==> m.inner
    ensures Guarded(p, m, Exec(p, m, t, op, k))
  {
    hide InsertAt;
  }

  lemma ExecEvent(p: Pc, m: Mutex, t: Tid, op: Op, k: nat)
    ensures EventFacts(p, m, Exec(p, m, t, op, k))
  {
    hide InsertAt;
  }

  lemma ExecOwner(p: Pc, m: Mutex, t: Tid, op: Op, k: nat)
    ensures OwnerFacts(p, m, Exec(p, m, t, op, k))
  {
    hide InsertAt;
  }

  predicate TouchesOwner(p: Pc) {
    p in {LockTest, TryTest, Take, UnlockTest}
  }

  lemma ExecElsewhere(p: Pc, m: Mutex, t: Tid, op: Op, k: nat)
    requires !TouchesOwner(p)
    ensures var e := Exec(p, m, t, op, k);
      && e.m.kind == m.kind && e.m.owner == m.owner && e.m.nest == m.nest
      && e.gain + Untold(e.next) - Untold(p) == -(if p == TestEvent && m.event then 1 else 0)
  {
    hide InsertAt;
  }

  lemma ExecAccount(p: Pc, m: Mutex, t: Tid, op: Op, k: nat)
    requires m.nest >= 0 && (m.kind == Recursive ==> (m.nest == 0 <==> m.owner == Nobody))
    requires p == Take ==> m.owner == Nobody
    ensures AccountFacts(p, m, t, Exec(p, m, t, op, k))
  {
    if TouchesOwner(p) { ExecTaking(p, m, t, op, k); } else { ExecElsewhere(p, m, t, op, k); }
  }

  lemma ExecTaking(p: Pc, m: Mutex, t: Tid, op: Op, k: nat)
    requires m.nest >= 0 && (m.kind == Recursive ==> (m.nest == 0 <==> m.owner == Nobody))
    requires TouchesOwner(p) && (p == Take ==> m.owner == Nobody)
    ensures AccountFacts(p, m, t, Exec(p, m, t, op, k))
  {
    hide InsertAt;
  }

  lemma ExecNest(p: Pc, m: Mutex, t: Tid, op: Op, k: nat)
    requires m.nest >= 0 && (m.kind == Recursive ==> (m.nest == 0 <==> m.owner == Nobody))
    ensures NestFacts(m, Exec(p, m, t, op, k))
  {
    hide InsertAt;
  }

  lemma ExecWaiter(p: Pc, m: Mutex, t: Tid, op: Op, k: nat)
    ensures WaiterFacts(p, m, Exec(p, m, t, op, k))
  {
    hide InsertAt;
  }

  lemma KeepInner(s: State, t: Tid, e: Effect, r: State)
    requires InnerExclusive(s) && Moves(s, t, e, r) && Guarded(s.pc[t], s.m, e)
    ensures InnerExclusive(r)
  {
    if r.m.inner && !HasInner(e.next) {
      assert !HasInner(s.pc[t]);
      var u: Tid :| u < |s.pc| && HasInner(s.pc[u]);
      assert HasInner(r.pc[u]);
    } else if HasInner(e.next) {
      assert HasInner(r.pc[t]);
    }
  }

  lemma KeepEvent(s: State, t: Tid, e: Effect, r: State)
    requires EventExclusive(s) && Moves(s, t, e, r) && EventFacts(s.pc[t], s.m, e)
    ensures EventExclusive(r)
  {
    Moved(s.pc, t, e.next);
    if e.woken != [] { Moved(s.pc[t := e.next], e.woken[0], Again); }
    assert s.pc[t] == ClearEvent && Among(s.pc[t := e.next], {ClearEvent}) ==> false;
  }

  lemma KeepOwnerSeen(s: State, t: Tid, e: Effect, r: State)
    requires InnerExclusive(s) && OwnerSeen(s) && Moves(s, t, e, r)
    requires Guarded(s.pc[t], s.m, e) && OwnerFacts(s.pc[t], s.m, e)
    ensures OwnerSeen(r)
  {
    forall u: Tid | u < |r.pc| && r.pc[u] in {Drop, Take, TestWaiters, Wake}
      ensures (r.pc[u] == Drop) == (r.m.owner != Nobody)
    {
      if u != t {
        assert s.pc[u] == r.pc[u];
        assert !HasInner(s.pc[t]);
      }
    }
  }

  lemma KeepAccounted(s: State, t: Tid, e: Effect, r: State)
    requires Accounted(s) && Moves(s, t, e, r) && NestFacts(s.m, e) && AccountFacts(s.pc[t], s.m, t, e)
    ensures Accounted(r)
  {
    forall u: Tid | u < |r.pc|
      ensures r.depth[u] + Untold(r.pc[u]) <= Share(r.m, u)
    {
      assert u != t ==> Share(r.m, u) == Share(s.m, u) && r.depth[u] == s.depth[u];
      assert s.depth[u] + Untold(s.pc[u]) <= Share(s.m, u);
    }
  }

  lemma KeepWaitersCovered(s: State, t: Tid, e: Effect, r: State)
    requires WaitersCovered(s) && Moves(s, t, e, r) && WaiterFacts(s.pc[t], s.m, e)
    ensures WaitersCovered(r)
  {
    Moved(s.pc, t, e.next);
    if e.woken != [] { Moved(s.pc[t := e.next], e.woken[0], Again); }
  }

  lemma KeepNoLostWakeup(s: State, t: Tid, e: Effect, r: State)
    requires OwnerSeen(s) && NoLostWakeup(s) && Moves(s, t, e, r)
    requires OwnerFacts(s.pc[t], s.m, e) && WaiterFacts(s.pc[t], s.m, e)
    requires WaitersCovered(r)
    ensures NoLostWakeup(r)
  {
    Moved(s.pc, t, e.next);
    if e.woken != [] { Moved(s.pc[t := e.next], e.woken[0], Again); }
    assert s.pc[t] == Drop ==> Among(s.pc, {Drop});
    Widen(r.pc, {Sleep, Asleep}, {Retest, Drop, Sleep, Asleep});
    Widen(r.pc, {Wake, Again, Mark}, {TestWaiters, Wake, Again, Mark, Retest, Take});
  }

  /** Every step of every thread, disciplined or not, keeps the invariant. */
  lemma StepInv(s: State, a: Act)
    requires Inv(s)
    ensures Inv(Step(s, a))
  {
    if a.t < |s.pc| {
      var p := s.pc[a.t];
      var e := Exec(p, s.m, a.t, a.op, a.k);
      StepQueued(s, a);
      StepMoves(s, a);
      ExecGuarded(p, s.m, a.t, a.op, a.k);
      ExecEvent(p, s.m, a.t, a.op, a.k);
      ExecOwner(p, s.m, a.t, a.op, a.k);
      ExecAccount(p, s.m, a.t, a.op, a.k);
      ExecNest(p, s.m, a.t, a.op, a.k);
      ExecWaiter(p, s.m, a.t, a.op, a.k);
      KeepInner(s, a.t, e, Step(s, a));
      KeepEvent(s, a.t, e, Step(s, a));
      KeepOwnerSeen(s, a.t, e, Step(s, a));
      KeepAccounted(s, a.t, e, Step(s, a));
      KeepWaitersCovered(s, a.t, e, Step(s, a));
      KeepNoLostWakeup(s, a.t, e, Step(s, a));
    }
  }

  // --- Safety over every run -------------------------------------------------------

  lemma {:induction false} RunInv(s: State, acts: seq<Act>)
    requires Inv(s)
    ensures Inv(Run(s, acts)) && |Run(s, acts).pc| == |s.pc|
    decreases |acts|
  {
    if acts != [] {
      StepInv(s, acts[0]);
      RunInv(Step(s, acts[0]), acts[1..]);
    }
  }

  predicate WantsInner(p: Pc) {
    p in {LockWant, Again, TryWant, UnlockWant}
  }

  /** The thread can run one more step inside the code: it is neither outside, nor
      asleep, nor kept out of int_lock. */
  predicate Enabled(s: State, t: Tid) {
    t < |s.pc| && s.pc[t] !in {Idle, Asleep} && !(WantsInner(s.pc[t]) && s.m.inner)
  }

  ghost predicate Settled(s: State) {
    forall t: Tid :: t < |s.pc| ==> !Enabled(s, t)
  }

  /** The holder of int_lock never waits, so a state with nothing enabled has
      nobody in the code but sleepers. */
  lemma SettledMeansOut(s: State)
    requires Inv(s) && Settled(s)
    ensures forall t: Tid :: t < |s.pc| ==> s.pc[t] in {Idle, Asleep}
  {
    assert forall u: Tid :: u < |s.pc| && HasInner(s.pc[u]) ==> Enabled(s, u);
    assert !s.m.inner;
    forall t: Tid | t < |s.pc|
      ensures s.pc[t] in {Idle, Asleep}
    {
      assert !Enabled(s, t);
    }
  }

  lemma SettledUnownedMeansIdle(s: State)
    requires Inv(s) && Settled(s) && s.m.owner == Nobody
    ensures forall t: Tid :: t < |s.pc| ==> s.pc[t] == Idle
  {
    SettledMeansOut(s);
    assert Among(s.pc, {Sleep, Asleep}) ==> s.m.sem.nopending by {
      if Among(s.pc, {Sleep, Asleep}) {
        var t: Tid :| t < |s.pc| && s.pc[t] in {Sleep, Asleep};
        assert t in s.m.sem.queue;
      }
    }
    assert !Among(s.pc, {TestWaiters, Wake, Again, Mark, Retest, Take});
  }

  /** In every state reached by any interleaving, whatever the clients do: no two
      threads both believe to own the mutex; a sleeper on an unowned mutex is
      covered; and when nothing is left in flight nobody sleeps on an unowned one. */
  lemma EveryRunIsSafe(kind: Kind, n: nat, acts: seq<Act>)
    ensures var r := Run(Init(kind, n), acts);
      && |r.pc| == n && |r.depth| == n
      && (forall u, v | 0 <= u < n && 0 <= v < n && r.pc[u] == r.pc[v] == Idle && r.depth[u] > 0 && r.depth[v] > 0 ::
            u == v && r.m.owner == By(u))
      && (kind == Recursive ==> (r.m.nest == 0 <==> r.m.owner == Nobody))
      && (r.m.owner == Nobody && Among(r.pc, {Sleep, Asleep}) ==>
            !r.m.sem.nopending || Among(r.pc, {TestWaiters, Wake, Again, Mark, Retest, Take}))
      && (Settled(r) && r.m.owner == Nobody ==> forall t: Tid :: t < n ==> r.pc[t] == Idle)
  {
    InitInv(kind, n);
    RunInv(Init(kind, n), acts);
    RunKind(Init(kind, n), acts);
    var r := Run(Init(kind, n), acts);
    assert forall u: Tid :: u < n ==> r.depth[u] + Untold(r.pc[u]) <= Share(r.m, u);
    if Settled(r) && r.m.owner == Nobody { SettledUnownedMeansIdle(r); }
  }

  lemma {:induction false} RunKind(s: State, acts: seq<Act>)
    requires Inv(s)
    ensures Run(s, acts).m.kind == s.m.kind
    decreases |acts|
  {
    if acts != [] {
      var a := acts[0];
      StepInv(s, a);
      if a.t < |s.pc| { ExecNest(s.pc[a.t], s.m, a.t, a.op, a.k); }
      RunKind(Step(s, a), acts[1..]);
    }
  }

  // --- Where an unlock gets lost -----------------------------------------------------

  /** An unlock that finds `event` set returns without having looked at the owner. */
  function Skips(s: State, a: Act, t: Tid): nat {
    if a.t == t && t < |s.pc| && s.pc[t] == TestEvent && s.m.event then 1 else 0
  }

  function Skipped(s: State, acts: seq<Act>, t: Tid): nat
    decreases |acts|
  {
    if acts == [] then 0 else Skips(s, acts[0], t) + Skipped(Step(s, acts[0]), acts[1..], t)
  }

  lemma StepAccount(s: State, a: Act, t: Tid)
    requires Inv(s) && t < |s.pc|
    ensures var r := Step(s, a);
      && r.depth[t] + Untold(r.pc[t]) + Skips(s, a, t) - Share(r.m, t)
         == s.depth[t] + Untold(s.pc[t]) - Share(s.m, t)
  {
    if a.t < |s.pc| {
      StepMoves(s, a);
      assert Among(s.pc, {Take}) ==> s.m.owner == Nobody;
      ExecAccount(s.pc[a.t], s.m, a.t, a.op, a.k);
      AccountOf(s, a.t, Exec(s.pc[a.t], s.m, a.t, a.op, a.k), Step(s, a), t);
    }
  }

  lemma AccountOf(s: State, t: Tid, e: Effect, r: State, u: Tid)
    requires Moves(s, t, e, r) && AccountFacts(s.pc[t], s.m, t, e) && u < |s.pc|
    ensures r.depth[u] + Untold(r.pc[u]) + (if u == t && s.pc[t] == TestEvent && s.m.event then 1 else 0) - Share(r.m, u)
            == s.depth[u] + Untold(s.pc[u]) - Share(s.m, u)
  {
  }

  lemma {:induction false} RunAccount(s: State, acts: seq<Act>, t: Tid)
    requires Inv(s) && t < |s.pc|
    ensures var r := Run(s, acts);
      && t < |r.pc| && t < |r.depth|
      && r.depth[t] + Untold(r.pc[t]) + Skipped(s, acts, t) - Share(r.m, t)
         == s.depth[t] + Untold(s.pc[t]) - Share(s.m, t)
    decreases |acts|
  {
    if acts != [] {
      var a := acts[0];
      var r := Step(s, a);
      StepInv(s, a);
      StepAccount(s, a, t);
      RunAccount(r, acts[1..], t);
    }
  }

  /** Conservation, for every client and every interleaving: the locks the mutex
      attributes to a thread are its locks less its unlocks, plus the unlocks of
      its own that were skipped. */
  lemma LocksLessUnlocks(kind: Kind, n: nat, acts: seq<Act>, t: Tid)
    requires t < n
    ensures var r := Run(Init(kind, n), acts);
      && |r.pc| == n && |r.depth| == n
      && Share(r.m, t) == r.depth[t] + Untold(r.pc[t]) + Skipped(Init(kind, n), acts, t)
  {
    InitInv(kind, n);
    RunInv(Init(kind, n), acts);
    RunAccount(Init(kind, n), acts, t);
  }

  /** An unlock is skipped exactly while another unlocker stands between its own
      test-and-set of `event` and its clear; otherwise it goes on to int_lock. */
  lemma SkippedExactlyWhen(s: State, a: Act)
    requires Inv(s) && a.t < |s.pc| && s.pc[a.t] == TestEvent
    ensures Step(s, a).pc[a.t] == Idle <==> exists u: Tid :: u < |s.pc| && u != a.t && s.pc[u] == ClearEvent
    ensures Step(s, a).pc[a.t] == ClearEvent <==> !s.m.event
    ensures Step(s, a).m == s.m.(event := true)
  {
    if s.m.event {
      var u: Tid :| u < |s.pc| && s.pc[u] in {ClearEvent};
      assert u != a.t && s.pc[u] == ClearEvent;
    } else if u: Tid :| u < |s.pc| && s.pc[u] == ClearEvent {
      assert Among(s.pc, {ClearEvent});
    }
  }

  // --- Clients that unlock only what they own -------------------------------------------

  /** No thread calls unlock unless its locks so far exceed its unlocks. */
  ghost predicate Disciplined(s: State, acts: seq<Act>)
    decreases |acts|
  {
    acts == [] || (Allowed(s, acts[0]) && Disciplined(Step(s, acts[0]), acts[1..]))
  }

  ghost predicate Allowed(s: State, a: Act) {
    a.t < |s.pc| && a.t < |s.depth| && s.pc[a.t] == Idle && a.op == Unlock ==> s.depth[a.t] > 0
  }

  predicate Unlocking(p: Pc) {
    p in {TestEvent, ClearEvent, UnlockWant, UnlockTest}
  }

  /** Every thread on its way to give the mutex up owns it, and the accounts are exact. */
  ghost predicate Tidy(s: State) {
    && |s.depth| == |s.pc|
    && (forall t: Tid :: t < |s.pc| ==> s.depth[t] + Untold(s.pc[t]) == Share(s.m, t))
    && (forall t: Tid :: t < |s.pc| && Unlocking(s.pc[t]) ==> s.m.owner == By(t))
    && (forall t: Tid :: t < |s.pc| && s.pc[t].Leave? && s.pc[t].gain == -1 ==> s.pc[t].status == Normal)
  }

  ghost predicate UnlockFacts(p: Pc, m: Mutex, t: Tid, op: Op, e: Effect) {
    && (Unlocking(e.next) ==> (Unlocking(p) || (p == Idle && op == Unlock)) && e.m.owner == m.owner)
    && (e.next.Leave? && e.next.gain == -1 ==> e.next.status == Normal)
  }

  lemma ExecUnlock(p: Pc, m: Mutex, t: Tid, op: Op, k: nat)
    ensures UnlockFacts(p, m, t, op, Exec(p, m, t, op, k))
  {
    hide InsertAt;
  }

  /** Nobody else can be between test-and-set and clear of `event`: they too would own the mutex. */
  lemma TidyEventClear(s: State, t: Tid)
    requires Inv(s) && Tidy(s) && t < |s.pc| && s.pc[t] == TestEvent
    ensures !s.m.event
  {
    assert forall u: Tid :: u < |s.pc| && s.pc[u] == ClearEvent ==> s.m.owner == By(u);
    assert s.m.owner == By(t);
  }

  lemma KeepTidy(s: State, t: Tid, op: Op, e: Effect, r: State)
    requires Tidy(s) && Moves(s, t, e, r) && AccountFacts(s.pc[t], s.m, t, e) && UnlockFacts(s.pc[t], s.m, t, op, e)
    requires s.pc[t] == TestEvent ==> !s.m.event
    requires s.pc[t] == Idle && op == Unlock ==> s.depth[t] > 0
    ensures Tidy(r)
  {
    forall u: Tid | u < |r.pc|
      ensures r.depth[u] + Untold(r.pc[u]) == Share(r.m, u)
      ensures Unlocking(r.pc[u]) ==> r.m.owner == By(u)
      ensures r.pc[u].Leave? && r.pc[u].gain == -1 ==> r.pc[u].status == Normal
    {
      AccountOf(s, t, e, r, u);
      assert s.depth[u] + Untold(s.pc[u]) == Share(s.m, u);
      assert u != t ==> r.pc[u] in {s.pc[u], Again};
    }
  }

  lemma StepTidy(s: State, a: Act)
    requires Inv(s) && Tidy(s) && Allowed(s, a)
    ensures Tidy(Step(s, a))
    ensures forall t :: Skips(s, a, t) == 0
  {
    if a.t < |s.pc| {
      var p := s.pc[a.t];
      if p == TestEvent { TidyEventClear(s, a.t); }
      StepMoves(s, a);
      assert Among(s.pc, {Take}) ==> s.m.owner == Nobody;
      ExecAccount(p, s.m, a.t, a.op, a.k);
      ExecUnlock(p, s.m, a.t, a.op, a.k);
      KeepTidy(s, a.t, a.op, Exec(p, s.m, a.t, a.op, a.k), Step(s, a));
    }
  }

  lemma {:induction false} RunTidy(s: State, acts: seq<Act>, t: Tid)
    requires Inv(s) && Tidy(s) && Disciplined(s, acts)
    ensures Tidy(Run(s, acts)) && Skipped(s, acts, t) == 0
    decreases |acts|
  {
    if acts != [] {
      StepTidy(s, acts[0]);
      StepInv(s, acts[0]);
      RunTidy(Step(s, acts[0]), acts[1..], t);
    }
  }

  /** For clients that unlock only what they own, in every reachable state: no
      unlock is ever skipped or refused, the nesting count is the owner's locks
      less its unlocks, everybody else's come out even, and the mutex is unowned
      exactly when all of them do. */
  lemma DisciplinedRunsAccount(kind: Kind, n: nat, acts: seq<Act>)
    requires Disciplined(Init(kind, n), acts)
    ensures var r := Run(Init(kind, n), acts);
      && |r.pc| == n && |r.depth| == n
      && (forall t: Tid :: t < n ==> Skipped(Init(kind, n), acts, t) == 0)
      && (forall t: Tid :: t < n && r.m.owner == By(t) ==>
            r.depth[t] + Untold(r.pc[t]) == if kind == Recursive then r.m.nest else 1)
      && (forall t: Tid :: t < n && r.m.owner != By(t) ==> r.depth[t] + Untold(r.pc[t]) == 0)
      && (forall t: Tid :: t < n && r.pc[t] == UnlockTest ==>
            GiveUp(r.m, t).next in {TestWaiters, Leave(Normal, -1)})
  {
    hide Run, Step, Exec, Skipped, GiveUp, Disciplined;
    var s := Init(kind, n);
    InitInv(kind, n);
    RunInv(s, acts);
    RunKind(s, acts);
    forall t: Tid ensures Skipped(s, acts, t) == 0 { RunTidy(s, acts, t); }
    RunTidy(s, acts, 0);
    TidyUnlocksSucceed(Run(s, acts));
  }

  lemma TidyUnlocksSucceed(s: State)
    requires Tidy(s)
    ensures forall t: Tid :: t < |s.pc| && s.pc[t] == UnlockTest ==> GiveUp(s.m, t).next in {TestWaiters, Leave(Normal, -1)}
  {
    assert forall t: Tid :: t < |s.pc| && s.pc[t] == UnlockTest ==> s.m.owner == By(t);
  }

  // --- Progress ------------------------------------------------------------------------

  /** How many more steps a thread at this place can cause. */
  function Weight(p: Pc): nat {
    match p
    case Idle => 0
    case Asleep => 0
    case Leave(_, _) => 1
    case Sleep => 1
    case Take => 2
    case Drop => 2
    case TryTest => 2
    case Retest => 3
    case TryWant => 3
    case Mark => 4
    case Again => 5
    case LockTest => 5
    case LockWant => 6
    case Wake => 7
    case TestWaiters => 8
    case UnlockTest => 9
    case UnlockWant => 10
    case ClearEvent => 11
    case TestEvent => 12
  }

  function Pending(m: Mutex): nat {
    if m.sem.nopending then 0 else 5
  }

  ghost function Measure(s: State): nat {
    Total(Weight, s.pc) + Pending(s.m)
  }

  lemma ExecShrinks(p: Pc, m: Mutex, t: Tid, op: Op, k: nat)
    requires p !in {Idle, Asleep} && !(WantsInner(p) && m.inner)
    ensures var e := Exec(p, m, t, op, k);
      Weight(e.next) + Pending(e.m) + (if e.woken != [] then 5 else 0) < Weight(p) + Pending(m)
  {
  }

  /** Work in flight always shrinks, whoever is scheduled: without new calls no
      thread goes round the retry loop for ever. */
  lemma EnabledShrinks(s: State, a: Act)
    requires Inv(s) && Enabled(s, a.t)
    ensures Measure(Step(s, a)) < Measure(s)
  {
    var t := a.t;
    var e := Exec(s.pc[t], s.m, t, a.op, a.k);
    StepMoves(s, a);
    ExecShrinks(s.pc[t], s.m, t, a.op, a.k);
    TotalUpdate(Weight, s.pc, t, e.next);
    if e.woken != [] {
      TotalUpdate(Weight, s.pc[t := e.next], e.woken[0], Again);
    }
  }

  /** A run in which only threads already inside the code are scheduled. */
  ghost predicate OnlyEnabled(s: State, acts: seq<Act>)
    decreases |acts|
  {
    acts == [] || (Enabled(s, acts[0].t) && OnlyEnabled(Step(s, acts[0]), acts[1..]))
  }

  lemma {:induction false} EnabledRunsAreBounded(s: State, acts: seq<Act>)
    requires Inv(s) && OnlyEnabled(s, acts)
    ensures |acts| <= Measure(s) - Measure(Run(s, acts))
    decreases |acts|
  {
    if acts != [] {
      StepInv(s, acts[0]);
      EnabledShrinks(s, acts[0]);
      EnabledRunsAreBounded(Step(s, acts[0]), acts[1..]);
    }
  }

  predicate Locking(p: Pc) {
    p in {LockWant, LockTest, Mark, Retest, Drop, Sleep, Asleep, Again, Take}
  }

  /** Somebody is on the way to the mutex, or owns it and is not giving it up. */
  ghost predicate Wanted(s: State) {
    exists t: Tid :: t < |s.pc| && (Locking(s.pc[t]) || (s.m.owner == By(t) && (s.pc[t] == Idle || s.pc[t].Leave?)))
  }

  lemma ExecWants(p: Pc, m: Mutex, t: Tid, op: Op, k: nat)
    requires p != Idle
    ensures var e := Exec(p, m, t, op, k);
      && (Locking(p) ==> Locking(e.next) || (e.m.owner == By(t) && e.next.Leave?))
      && (p.Leave? ==> e.next == Idle && e.m.owner == m.owner)
  {
    hide InsertAt;
  }

  lemma StepWanted(s: State, a: Act)
    requires Inv(s) && Wanted(s) && Enabled(s, a.t)
    ensures Wanted(Step(s, a))
  {
    hide Exec, Step;
    var t, p, r := a.t, s.pc[a.t], Step(s, a);
    StepMoves(s, a);
    assert Among(s.pc, {Take}) ==> s.m.owner == Nobody;
    ExecAccount(p, s.m, t, a.op, a.k);
    ExecWants(p, s.m, t, a.op, a.k);
    var u: Tid :| u < |s.pc| && (Locking(s.pc[u]) || (s.m.owner == By(u) && (s.pc[u] == Idle || s.pc[u].Leave?)));
    if Locking(s.pc[u]) {
      assert Locking(r.pc[u]) || (u == t && r.m.owner == By(u) && r.pc[u].Leave?);
    } else {
      assert r.m.owner == By(u) && (r.pc[u] == Idle || r.pc[u].Leave?);
    }
  }

  lemma {:induction false} RunWanted(s: State, acts: seq<Act>)
    requires Inv(s) && Wanted(s) && OnlyEnabled(s, acts)
    ensures Wanted(Run(s, acts))
    decreases |acts|
  {
    if acts != [] {
      StepWanted(s, acts[0]);
      StepInv(s, acts[0]);
      RunWanted(Step(s, acts[0]), acts[1..]);
    }
  }

  /** Liveness: while somebody wants the mutex, running the threads in flight
      until none can move leaves it owned, in whatever order they run.  By
      EnabledRunsAreBounded every such run comes to its end. */
  lemma SomeWaiterAcquires(s: State, acts: seq<Act>)
    requires Inv(s) && Wanted(s) && OnlyEnabled(s, acts) && Settled(Run(s, acts))
    ensures Run(s, acts).m.owner != Nobody
  {
    RunInv(s, acts);
    RunWanted(s, acts);
    var r := Run(s, acts);
    if r.m.owner == Nobody { SettledUnownedMeansIdle(r); }
  }

  // --- A stray unlock ----------------------------------------------------------------------

  lemma {:induction false} RunSnoc(s: State, acts: seq<Act>, a: Act)
    ensures Run(s, acts + [a]) == Step(Run(s, acts), a)
    decreases |acts|
  {
    hide Step;
    if acts == [] {
      assert acts + [a] == [a];
    } else {
      assert (acts + [a])[1..] == acts[1..] + [a];
      RunSnoc(Step(s, acts[0]), acts[1..], a);
    }
  }

  ghost predicate Reaches(s: State, r: State) {
    exists acts :: Run(s, acts) == r
  }

  lemma Stay(s: State)
    ensures Reaches(s, s)
  {
    assert Run(s, []) == s;
  }

  /** Runs thread t one step further, to p, where it wakes nobody. */
  lemma Next(s: State, r: State, t: Tid, op: Op, p: Pc, m: Mutex, gain: int) returns (r': State)
    requires Reaches(s, r) && t < |r.pc| && |r.depth| == |r.pc| && Exec(r.pc[t], r.m, t, op, 0) == Effect(p, m, gain, [])
    ensures r' == State(m, r.pc[t := p], r.depth[t := r.depth[t] + gain]) && Reaches(s, r')
  {
    hide Exec;
    var a := Act(t, op, 0);
    r' := Step(r, a);
    var acts :| Run(s, acts) == r;
    RunSnoc(s, acts, a);
  }

  /** So one thread that unlocks what it does not own can make the owner's unlock
      vanish: everybody is out, nobody believes to own the mutex, and it stays owned. */
  lemma StrayUnlockStrandsTheOwner(kind: Kind)
    ensures var taken := Mutex(kind, By(0), if kind == Recursive then 1 else 0, false, true, false, EMPTY);
      && Reaches(Init(kind, 2), State(taken, [Idle, Idle], [1, 0]))
      && Reaches(State(taken, [Idle, Idle], [1, 0]), State(taken, [Idle, Idle], [0, 0]))
  {
    hide Step, Run, Reaches;
    var s := Init(kind, 2);
    var taken := Mutex(kind, By(0), if kind == Recursive then 1 else 0, false, true, false, EMPTY);
    Stay(s);
    var r := Next(s, s, 0, Lock, LockWant, s.m, 0);
    r := Next(s, r, 0, Lock, LockTest, s.m.(inner := true), 0);
    r := Next(s, r, 0, Lock, Leave(Normal, 1), taken.(inner := true), 0);
    r := Next(s, r, 0, Lock, Idle, taken, 1);
    assert r == State(taken, [Idle, Idle], [1, 0]);
    StraySkips(r);
  }

  lemma StraySkips(s: State)
    requires s.pc == [Idle, Idle] && s.depth == [1, 0]
    requires !s.m.inner && !s.m.event && s.m.owner == By(0)
    ensures Reaches(s, s.(depth := [0, 0]))
  {
    hide Step, Run, Reaches;
    Stay(s);
    var r := Next(s, s, 1, Unlock, TestEvent, s.m, 0);
    r := Next(s, r, 1, Unlock, ClearEvent, s.m.(event := true), 0);
    r := Next(s, r, 0, Unlock, TestEvent, r.m, 0);
    r := Next(s, r, 0, Unlock, Idle, r.m, -1);
    assert r == State(s.m.(event := true), [Idle, ClearEvent], [0, 0]);
    StrayLeaves(s, r);
  }

  lemma StrayLeaves(s: State, skipped: State)
    requires s.pc == [Idle, Idle] && !s.m.inner && !s.m.event && s.m.owner == By(0)
    requires Reaches(s, skipped) && skipped == State(s.m.(event := true), [Idle, ClearEvent], [0, 0])
    ensures Reaches(s, s.(depth := [0, 0]))
  {
    hide Step, Run, Reaches;
    var r := Next(s, skipped, 1, Unlock, UnlockWant, s.m, 0);
    r := Next(s, r, 1, Unlock, UnlockTest, s.m.(inner := true), 0);
    r := Next(s, r, 1, Unlock, Leave(InUse, 0), r.m, 0);
    r := Next(s, r, 1, Unlock, Idle, s.m, 0);
    assert r.pc == [Idle, Idle] && r.depth == [0, 0];
  }

  // --- The code ------------------------------------------------------------------------------

  /** Where n steps of one thread, with nobody else scheduled, have brought it. */
  datatype Spot = Spot(p: Pc, m: Mutex, told: int, woken: seq<Tid>)

  function Alone(p: Pc, m: Mutex, t: Tid, op: Op, k: nat, n: nat): Spot {
    if n == 0 then Spot(p, m, 0, [])
    else
      var q := Alone(p, m, t, op, k, n - 1);
      var e := Exec(q.p, q.m, t, op, k);
      Spot(e.next, e.m, q.told + e.gain, q.woken + e.woken)
  }

  lemma AloneOnce(p: Pc, m: Mutex, t: Tid, op: Op, k: nat, n: nat)
    ensures var q, e := Alone(p, m, t, op, k, n), Exec(Alone(p, m, t, op, k, n).p, Alone(p, m, t, op, k, n).m, t, op, k);
      Alone(p, m, t, op, k, n + 1) == Spot(e.next, e.m, q.told + e.gain, q.woken + e.woken)
  {
  }

  /** From s, thread t has come to q and the whole state to r: the threads it woke
      went back to wait for int_lock and nobody else moved. */
  ghost predicate Mirrors(s: State, t: Tid, q: Spot, r: State) {
    && t < |s.pc| && |s.depth| == |s.pc| && |r.pc| == |s.pc| && |r.depth| == |s.pc|
    && r.m == q.m && t !in q.woken && r.pc[t] == q.p && r.depth[t] == s.depth[t] + q.told
    && (forall u: Tid :: u < |s.pc| && u != t ==>
          r.depth[u] == s.depth[u] && r.pc[u] == if u in q.woken then Again else s.pc[u])
  }

  lemma MirrorsStep(s: State, t: Tid, q: Spot, r: State, e: Effect, r': State)
    requires Mirrors(s, t, q, r) && Moves(r, t, e, r')
    ensures Mirrors(s, t, Spot(e.next, e.m, q.told + e.gain, q.woken + e.woken), r')
  {
    hide Exec;
    if e.woken != [] {
      assert e.woken == [e.woken[0]];
    }
  }

  /** What a thread does alone is a run. */
  lemma {:induction false} AloneIsARun(s: State, a: Act, n: nat)
    requires Queued(s) && a.t < |s.pc| && |s.depth| == |s.pc|
    ensures Queued(Run(s, seq(n, _ => a)))
    ensures Mirrors(s, a.t, Alone(s.pc[a.t], s.m, a.t, a.op, a.k, n), Run(s, seq(n, _ => a)))
  {
    if n > 0 {
      AloneIsARun(s, a, n - 1);
      var r := Run(s, seq(n - 1, _ => a));
      assert seq(n, _ => a) == seq(n - 1, _ => a) + [a];
      RunSnoc(s, seq(n - 1, _ => a), a);
      hide Exec, Run, Step, Queued, Moves;
      StepQueued(r, a);
      StepMoves(r, a);
      MirrorsStep(s, a.t, Alone(s.pc[a.t], s.m, a.t, a.op, a.k, n - 1), r,
        Exec(r.pc[a.t], r.m, a.t, a.op, a.k), Step(r, a));
    }
  }

  // --- One thread's calls ----------------------------------------------------------------------

  /** How deep a thread alone is after a call: a recursive mutex counts, another is taken or not. */
  function Deeper(kind: Kind, d: nat, op: Op): nat {
    match op
    case Unlock => if d > 0 then d - 1 else 0
    case _ => if d == 0 || kind == Recursive then d + 1 else d
  }

  function Depth(kind: Kind, d: nat, ops: seq<Op>): nat
    decreases |ops|
  {
    if ops == [] then d else Depth(kind, Deeper(kind, d, ops[0]), ops[1..])
  }

  /** A mutex that t has d deep, and nobody waits for. */
  function Deep(kind: Kind, t: Tid, d: nat): Mutex {
    Mutex(kind, if d > 0 then By(t) else Nobody, if kind == Recursive then d else 0, false, true, false, EMPTY)
  }

  /** The steps of a whole call. */
  function Steps(d: nat, op: Op): nat {
    if op != Op.Unlock then 4 else if d == 1 then 7 else 6
  }

  function Doing(kind: Kind, t: Tid, d: nat, ops: seq<Op>): seq<Act>
    decreases |ops|
  {
    if ops == [] then []
    else seq(Steps(d, ops[0]), _ => Act(t, ops[0], 0)) + Doing(kind, t, Deeper(kind, d, ops[0]), ops[1..])
  }

  lemma Onward(m: Mutex, t: Tid, op: Op, n: nat, q: Spot, p: Pc, r: Mutex, gain: int)
    requires Alone(Idle, m, t, op, 0, n) == q && q.woken == [] && Exec(q.p, q.m, t, op, 0) == Effect(p, r, gain, [])
    ensures Alone(Idle, m, t, op, 0, n + 1) == Spot(p, r, q.told + gain, [])
  {
    hide Exec;
    AloneOnce(Idle, m, t, op, 0, n);
  }

  lemma NotBegun(m: Mutex, t: Tid, op: Op)
    ensures Alone(Idle, m, t, op, 0, 0) == Spot(Idle, m, 0, [])
  {
    hide Exec;
  }

  lemma LockAlone(kind: Kind, t: Tid, d: nat, op: Op)
    requires op != Op.Unlock && (kind == Nonrecursive ==> d <= 1)
    ensures var r := Deeper(kind, d, op); Alone(Idle, Deep(kind, t, d), t, op, 0, 4) == Spot(Idle, Deep(kind, t, r), r - d, [])
  {
    hide Alone;
    var m, r := Deep(kind, t, d), Deeper(kind, d, op);
    var status := if r > d then Normal else if op == Op.Lock then InUse else Failed;
    var p1, p2 := if op == Op.Lock then LockWant else TryWant, if op == Op.Lock then LockTest else TryTest;
    NotBegun(m, t, op);
    Onward(m, t, op, 0, Spot(Idle, m, 0, []), p1, m, 0);
    Onward(m, t, op, 1, Spot(p1, m, 0, []), p2, m.(inner := true), 0);
    Onward(m, t, op, 2, Spot(p2, m.(inner := true), 0, []), Leave(status, r - d), Deep(kind, t, r).(inner := true), 0);
    Onward(m, t, op, 3, Spot(Leave(status, r - d), Deep(kind, t, r).(inner := true), 0, []), Idle, Deep(kind, t, r), r - d);
  }

  lemma UnlockEnters(m: Mutex, t: Tid)
    requires !m.event && !m.inner
    ensures Alone(Idle, m, t, Op.Unlock, 0, 4) == Spot(UnlockTest, m.(inner := true), 0, [])
  {
    hide Alone;
    var op := Op.Unlock;
    NotBegun(m, t, op);
    Onward(m, t, op, 0, Spot(Idle, m, 0, []), TestEvent, m, 0);
    Onward(m, t, op, 1, Spot(TestEvent, m, 0, []), ClearEvent, m.(event := true), 0);
    Onward(m, t, op, 2, Spot(ClearEvent, m.(event := true), 0, []), UnlockWant, m, 0);
    Onward(m, t, op, 3, Spot(UnlockWant, m, 0, []), UnlockTest, m.(inner := true), 0);
  }

  lemma UnlockAlone(kind: Kind, t: Tid, d: nat)
    requires kind == Nonrecursive ==> d <= 1
    ensures var r := Deeper(kind, d, Op.Unlock);
      Alone(Idle, Deep(kind, t, d), t, Op.Unlock, 0, Steps(d, Op.Unlock)) == Spot(Idle, Deep(kind, t, r), r - d, [])
  {
    hide Alone;
    var m, r, op := Deep(kind, t, d), Deeper(kind, d, Op.Unlock), Op.Unlock;
    var left := Deep(kind, t, r).(inner := true);
    UnlockEnters(m, t);
    if d == 1 {
      Onward(m, t, op, 4, Spot(UnlockTest, m.(inner := true), 0, []), TestWaiters, left, 0);
      Onward(m, t, op, 5, Spot(TestWaiters, left, 0, []), Leave(Normal, -1), left, 0);
      Onward(m, t, op, 6, Spot(Leave(Normal, -1), left, 0, []), Idle, Deep(kind, t, r), -1);
    } else {
      var status := if d == 0 then UseError else Normal;
      Onward(m, t, op, 4, Spot(UnlockTest, m.(inner := true), 0, []), Leave(status, r - d), left, 0);
      Onward(m, t, op, 5, Spot(Leave(status, r - d), left, 0, []), Idle, Deep(kind, t, r), r - d);
    }
  }

  lemma CallAlone(kind: Kind, t: Tid, d: nat, op: Op)
    requires kind == Nonrecursive ==> d <= 1
    ensures var r := Deeper(kind, d, op);
      Alone(Idle, Deep(kind, t, d), t, op, 0, Steps(d, op)) == Spot(Idle, Deep(kind, t, r), r - d, [])
  {
    hide Alone, Deep;
    if op == Op.Unlock { UnlockAlone(kind, t, d); } else { LockAlone(kind, t, d, op); }
  }

  lemma {:induction false} RunAppend(s: State, a: seq<Act>, b: seq<Act>)
    ensures Run(s, a + b) == Run(Run(s, a), b)
    decreases |a|
  {
    hide Step;
    if a == [] {
      assert a + b == b;
    } else {
      assert (a + b)[1..] == a[1..] + b;
      RunAppend(Step(s, a[0]), a[1..], b);
    }
  }

  /** Whatever calls a thread makes while nobody else does: a recursive mutex lets it in again
      and again, counting, and is free when it has unlocked as often; another refuses it the
      second time. */
  lemma {:induction false} CallsCount(s: State, kind: Kind, t: Tid, d: nat, ops: seq<Op>)
    requires Queued(s) && t < |s.pc| && |s.depth| == |s.pc| && s.pc[t] == Idle && s.m == Deep(kind, t, d)
    requires kind == Nonrecursive ==> d <= 1
    ensures var r, e := Run(s, Doing(kind, t, d, ops)), Depth(kind, d, ops);
      Queued(r) && |r.pc| == |s.pc| && |r.depth| == |s.pc| && r.m == Deep(kind, t, e) && r.pc[t] == Idle && r.depth[t] == s.depth[t] + e - d
    decreases |ops|
  {
    if ops != [] {
      CallAlone(kind, t, d, ops[0]);
      var a, n := Act(t, ops[0], 0), Steps(d, ops[0]);
      AloneIsARun(s, a, n);
      var first := seq(n, _ => a);
      hide Deep, Step, Alone, Queued, Run, Steps;
      CallsCount(Run(s, first), kind, t, Deeper(kind, d, ops[0]), ops[1..]);
      RunAppend(s, first, Doing(kind, t, Deeper(kind, d, ops[0]), ops[1..]));
    }
  }

  function Repeat(op: Op, n: nat): seq<Op> {
    seq(n, _ => op)
  }

  lemma {:induction false} DepthRepeats(kind: Kind, d: nat, n: nat)
    ensures Depth(Recursive, d, Repeat(Op.Lock, n)) == d + n
    ensures Depth(kind, n, Repeat(Op.Unlock, n)) == 0
    decreases n
  {
    if n > 0 {
      assert Repeat(Op.Lock, n)[1..] == Repeat(Op.Lock, n - 1) && Repeat(Op.Unlock, n)[1..] == Repeat(Op.Unlock, n - 1);
      DepthRepeats(kind, d + 1, n - 1);
    }
  }

  /** n locks take a recursive mutex n deep, and n unlocks free it. */
  lemma LocksNest(n: nat)
    ensures var s := Init(Recursive, 1);
      var r := Run(s, Doing(Recursive, 0, 0, Repeat(Op.Lock, n)));
      var f := Run(r, Doing(Recursive, 0, n, Repeat(Op.Unlock, n)));
      && r.m.nest == n && (n > 0 ==> r.m.owner == By(0)) && |r.depth| == 1 && r.depth[0] == n
      && f.m == s.m && |f.depth| == 1 && f.depth[0] == 0
  {
    var s := Init(Recursive, 1);
    DepthRepeats(Recursive, 0, n);
    assert Queued(s);
    hide Run, Depth, Doing, Queued;
    CallsCount(s, Recursive, 0, 0, Repeat(Op.Lock, n));
    CallsCount(Run(s, Doing(Recursive, 0, 0, Repeat(Op.Lock, n))), Recursive, 0, n, Repeat(Op.Unlock, n));
  }

  datatype Outcome = Done(status: Status) | Blocked

  /** The semaphore after an unlocker has looked at `waiters`, and whom it woke. */
  function Woken(m: Mutex): (Sem, seq<Tid>) {
    if m.waiters then (m.sem, [])
    else if m.sem.queue == [] then (m.sem.(nopending := false), [])
    else (m.sem.(queue := m.sem.queue[1..]), [m.sem.queue[0]])
  }

  /** The mutex structure.  Each method is the source text run by one thread with
      nobody else scheduled; `n` counts its steps. */
  class MutexObject {
    const kind: Kind
    var owner: Owner
    var nest: int
    var event: bool
    var waiters: bool
    var inner: bool
    var sem: Sem

    function M(): Mutex
      reads this
    {
      Mutex(kind, owner, nest, event, waiters, inner, sem)
    }

    constructor (kind: Kind)
      ensures M() == Init(kind, 0).m
    {
      this.kind := kind;
      owner, nest, event, waiters, inner, sem := Nobody, 0, false, true, false, EMPTY;
    }

    /** Records that the accesses just made, which left the mutex as it is, are the
        next step of the thread after the n that brought it to q. */
    ghost method Stepped(t: Tid, op: Op, k: nat, m: Mutex, n: nat, q: Spot, p: Pc, gain: int, woken: seq<Tid>)
      returns (n': nat, q': Spot)
      requires Alone(Idle, m, t, op, k, n) == q
      requires Exec(q.p, q.m, t, op, k) == Effect(p, M(), gain, woken)
      ensures n' == n + 1 && q' == Spot(p, M(), q.told + gain, q.woken + woken)
      ensures Alone(Idle, m, t, op, k, n') == q'
    {
      hide Exec;
      AloneOnce(Idle, m, t, op, k, n);
      n', q' := n + 1, Spot(p, M(), q.told + gain, q.woken + woken);
    }

    /** Enters lock or try-lock and acquires int_lock. */
    method Enter(t: Tid, op: Op, k: nat) returns (ghost n: nat)
      requires !inner && op != Op.Unlock
      modifies this`inner
      ensures inner
      ensures Alone(Idle, old(M()), t, op, k, n) == Spot(if op == Op.Lock then LockTest else TryTest, M(), 0, [])
    {
      ghost var m, q := M(), Spot(Idle, M(), 0, []);
      n, q := Stepped(t, op, k, m, 0, q, if op == Op.Lock then LockWant else TryWant, 0, []);
      inner := true;
      hide Alone;
      n, q := Stepped(t, op, k, m, n, q, if op == Op.Lock then LockTest else TryTest, 0, []);
    }

    /** Releases int_lock and returns. */
    method Exit(t: Tid, op: Op, k: nat, ghost m: Mutex, ghost before: nat, status: Status, gain: int, woken: seq<Tid>)
      returns (ghost n: nat)
      requires Alone(Idle, m, t, op, k, before) == Spot(Leave(status, gain), M(), 0, woken)
      modifies this`inner
      ensures !inner && Alone(Idle, m, t, op, k, n) == Spot(Idle, M(), gain, woken)
    {
      ghost var q := Spot(Leave(status, gain), M(), 0, woken);
      inner := false;
      hide Alone;
      n, q := Stepped(t, op, k, m, before, q, Idle, gain, []);
    }

    /** Takes the mutex, is refused, or ends up queued on the semaphore. */
    method Lock(t: Tid, k: nat) returns (r: Outcome, ghost n: nat)
      requires !inner
      modifies this
      ensures Alone(Idle, old(M()), t, Op.Lock, k, n) ==
        Spot(if r == Blocked then Asleep else Idle, M(), if r == Done(Normal) then 1 else 0, [])
      ensures old(owner) == Nobody || (kind == Recursive && old(owner) == By(t)) ==>
        r == Done(Normal) && M() == old(M()).(owner := By(t), nest := if kind == Recursive then old(nest) + 1 else old(nest))
      ensures kind == Nonrecursive && old(owner) == By(t) ==> r == Done(InUse) && M() == old(M())
      ensures old(owner) != Nobody && old(owner) != By(t) ==>
        r == Blocked && M() == old(M()).(waiters := false, sem := Sem(InsertAt(old(sem).queue, k, t), true))
    {
      hide Alone;
      ghost var m, q := M(), Spot(LockTest, M().(inner := true), 0, []);
      n := Enter(t, Op.Lock, k);
      if owner == Nobody || (kind == Recursive && owner == By(t)) {
        if kind == Recursive { nest := nest + 1; }
        owner := By(t);
        n, q := Stepped(t, Op.Lock, k, m, n, q, Leave(Normal, 1), 0, []);
        n := Exit(t, Op.Lock, k, m, n, Normal, 1, []);
        r := Done(Normal);
      } else if owner == By(t) {
        n, q := Stepped(t, Op.Lock, k, m, n, q, Leave(InUse, 0), 0, []);
        n := Exit(t, Op.Lock, k, m, n, InUse, 0, []);
        r := Done(InUse);
      } else {
        n, q := Stepped(t, Op.Lock, k, m, n, q, Mark, 0, []);
        n := WaitForOwner(t, k, m, n);
        r := Blocked;
      }
    }

    /** The waiting loop: mark, look at the owner again, release int_lock, wait. */
    method WaitForOwner(t: Tid, k: nat, ghost m: Mutex, ghost before: nat) returns (ghost n: nat)
      requires inner && owner != Nobody
      requires Alone(Idle, m, t, Op.Lock, k, before) == Spot(Mark, M(), 0, [])
      modifies this
      ensures Alone(Idle, m, t, Op.Lock, k, n) == Spot(Asleep, M(), 0, [])
      ensures M() == old(M()).(inner := false, waiters := false, sem := Sem(InsertAt(old(sem).queue, k, t), true))
    {
      hide Alone, Exec;
      n := before;
      var waiting := true;
      while waiting
        invariant Alone(Idle, m, t, Op.Lock, k, n) == Spot(if waiting then Mark else Asleep, M(), 0, [])
        invariant waiting ==> M() == old(M()).(waiters := waiters, sem := sem) && sem.queue == old(sem).queue
        invariant !waiting ==>
          M() == old(M()).(inner := false, waiters := false, sem := Sem(InsertAt(old(sem).queue, k, t), true))
        decreases waiting, !sem.nopending
      {
        n := AboutToWait(t, k, m, n);
        waiting, n := SemWait(t, k, m, n);
      }
    }

    method AboutToWait(t: Tid, k: nat, ghost m: Mutex, ghost before: nat) returns (ghost n: nat)
      requires inner && owner != Nobody && Alone(Idle, m, t, Op.Lock, k, before) == Spot(Mark, M(), 0, [])
      modifies this`waiters, this`inner
      ensures Alone(Idle, m, t, Op.Lock, k, n) == Spot(Sleep, M(), 0, [])
      ensures !waiters && !inner
    {
      hide Alone;
      waiters := false;
      ghost var q;
      n, q := Stepped(t, Op.Lock, k, m, before, Spot(Mark, old(M()), 0, []), Retest, 0, []);
      n, q := Stepped(t, Op.Lock, k, m, n, q, Drop, 0, []);
      inner := false;
      n, q := Stepped(t, Op.Lock, k, m, n, q, Sleep, 0, []);
    }

    /** Waits on the semaphore; a pending wakeup sends the thread round again at once. */
    method SemWait(t: Tid, k: nat, ghost m: Mutex, ghost before: nat) returns (again: bool, ghost n: nat)
      requires !inner && Alone(Idle, m, t, Op.Lock, k, before) == Spot(Sleep, M(), 0, [])
      modifies this`sem, this`inner
      ensures again == !old(sem).nopending && inner == again
      ensures Alone(Idle, m, t, Op.Lock, k, n) == Spot(if again then Mark else Asleep, M(), 0, [])
      ensures sem == Sem(if again then old(sem).queue else InsertAt(old(sem).queue, k, t), true)
    {
      hide Alone;
      ghost var q := Spot(Sleep, M(), 0, []);
      again := !sem.nopending;
      if again {
        sem := sem.(nopending := true);
        n, q := Stepped(t, Op.Lock, k, m, before, q, Again, 0, []);
        inner := true;
        n, q := Stepped(t, Op.Lock, k, m, n, q, Mark, 0, []);
      } else {
        sem := sem.(queue := InsertAt(sem.queue, k, t));
        n, q := Stepped(t, Op.Lock, k, m, before, q, Asleep, 0, []);
      }
    }

    method TryLock(t: Tid) returns (ok: bool, ghost n: nat)
      requires !inner
      modifies this
      ensures Alone(Idle, old(M()), t, Op.TryLock, 0, n) == Spot(Idle, M(), if ok then 1 else 0, [])
      ensures ok <==> old(owner) == Nobody || (kind == Recursive && old(owner) == By(t))
      ensures ok ==> M() == old(M()).(owner := By(t), nest := if kind == Recursive then old(nest) + 1 else old(nest))
      ensures !ok ==> M() == old(M())
    {
      hide Alone;
      ghost var m, q := M(), Spot(TryTest, M().(inner := true), 0, []);
      n := Enter(t, Op.TryLock, 0);
      ok := owner == Nobody || (kind == Recursive && owner == By(t));
      if ok {
        if kind == Recursive { nest := nest + 1; }
        owner := By(t);
        n, q := Stepped(t, Op.TryLock, 0, m, n, q, Leave(Normal, 1), 0, []);
        n := Exit(t, Op.TryLock, 0, m, n, Normal, 1, []);
      } else {
        n, q := Stepped(t, Op.TryLock, 0, m, n, q, Leave(Failed, 0), 0, []);
        n := Exit(t, Op.TryLock, 0, m, n, Failed, 0, []);
      }
    }

    /** The unlock macro: with `event` set it returns at once. */
    method Unlock(t: Tid) returns (status: Status, woken: seq<Tid>, ghost n: nat)
      requires !inner
      modifies this
      ensures Alone(Idle, old(M()), t, Op.Unlock, 0, n) == Spot(Idle, M(), if status == Normal then -1 else 0, woken)
      ensures old(event) ==> status == Normal && woken == [] && M() == old(M())
      ensures !old(event) ==> Unlocked(old(M()), t, status, woken, M())
    {
      ghost var m, q := M(), Spot(Idle, M(), 0, []);
      n, q := Stepped(t, Op.Unlock, 0, m, 0, q, TestEvent, 0, []);
      hide Alone;
      if event {
        n, q := Stepped(t, Op.Unlock, 0, m, n, q, Idle, -1, []);
        status, woken := Normal, [];
      } else {
        event := true;
        n, q := Stepped(t, Op.Unlock, 0, m, n, q, ClearEvent, 0, []);
        status, woken, n := Unblock(t, m, n);
      }
    }

    method Unblock(t: Tid, ghost m: Mutex, ghost before: nat) returns (status: Status, woken: seq<Tid>, ghost n: nat)
      requires !inner && event && Alone(Idle, m, t, Op.Unlock, 0, before) == Spot(ClearEvent, M(), 0, [])
      modifies this
      ensures Alone(Idle, m, t, Op.Unlock, 0, n) == Spot(Idle, M(), if status == Normal then -1 else 0, woken)
      ensures Unlocked(old(M()).(event := false), t, status, woken, M())
    {
      hide Alone;
      ghost var q := Spot(ClearEvent, M(), 0, []);
      event := false;
      n, q := Stepped(t, Op.Unlock, 0, m, before, q, UnlockWant, 0, []);
      inner := true;
      n, q := Stepped(t, Op.Unlock, 0, m, n, q, UnlockTest, 0, []);
      status, woken, n := Release(t, m, n);
      n := Exit(t, Op.Unlock, 0, m, n, status, if status == Normal then -1 else 0, woken);
    }

    /** With int_lock held: checks the owner and gives one level of the mutex up. */
    method Release(t: Tid, ghost m: Mutex, ghost before: nat) returns (status: Status, woken: seq<Tid>, ghost n: nat)
      requires Alone(Idle, m, t, Op.Unlock, 0, before) == Spot(UnlockTest, M(), 0, [])
      modifies this
      ensures Alone(Idle, m, t, Op.Unlock, 0, n) == Spot(Leave(status, if status == Normal then -1 else 0), M(), 0, woken)
      ensures Unlocked(old(M()), t, status, woken, M())
    {
      hide Alone;
      ghost var q := Spot(UnlockTest, M(), 0, []);
      woken := [];
      if owner == Nobody {
        status := UseError;
        n, q := Stepped(t, Op.Unlock, 0, m, before, q, Leave(UseError, 0), 0, []);
      } else if owner != By(t) {
        status := InUse;
        n, q := Stepped(t, Op.Unlock, 0, m, before, q, Leave(InUse, 0), 0, []);
      } else {
        status := Normal;
        if kind == Recursive { nest := nest - 1; }
        if kind == Recursive && nest != 0 {
          n, q := Stepped(t, Op.Unlock, 0, m, before, q, Leave(Normal, -1), 0, []);
        } else {
          owner := Nobody;
          n, q := Stepped(t, Op.Unlock, 0, m, before, q, TestWaiters, 0, []);
          woken, n := WakeWaiter(t, m, n);
        }
      }
    }

    /** Wakes one waiter, or leaves a wakeup pending, if there might be waiters. */
    method WakeWaiter(t: Tid, ghost m: Mutex, ghost before: nat) returns (woken: seq<Tid>, ghost n: nat)
      requires Alone(Idle, m, t, Op.Unlock, 0, before) == Spot(TestWaiters, M(), 0, [])
      modifies this`waiters, this`sem
      ensures Alone(Idle, m, t, Op.Unlock, 0, n) == Spot(Leave(Normal, -1), M(), 0, woken)
      ensures waiters && (sem, woken) == Woken(old(M()))
    {
      hide Alone;
      ghost var q := Spot(TestWaiters, M(), 0, []);
      woken := [];
      if waiters {
        n, q := Stepped(t, Op.Unlock, 0, m, before, q, Leave(Normal, -1), 0, []);
      } else {
        waiters := true;
        n, q := Stepped(t, Op.Unlock, 0, m, before, q, Wake, 0, []);
        if sem.queue == [] {
          sem := sem.(nopending := false);
        } else {
          woken := [sem.queue[0]];
          sem := sem.(queue := sem.queue[1..]);
        }
        n, q := Stepped(t, Op.Unlock, 0, m, n, q, Leave(Normal, -1), 0, woken);
      }
    }
  }

  /** What an unlock that was not skipped leaves behind, error returns included. */
  ghost predicate Unlocked(m: Mutex, t: Tid, status: Status, woken: seq<Tid>, r: Mutex) {
    && status == (if m.owner == Nobody then UseError else if m.owner != By(t) then InUse else Normal)
    && (if status != Normal then r == m && woken == []
        else if m.kind == Recursive && m.nest != 1 then r == m.(nest := m.nest - 1) && woken == []
        else
          && (r.sem, woken) == Woken(m)
          && r == m.(owner := Nobody, nest := if m.kind == Recursive then 0 else m.nest, waiters := true, sem := r.sem))
  }
}
