/** The fast mutex: the lock bit and the "might be waiters" event bit of
    threads/cma_mutex.h, with the retry loop of threads/cma_mutex.c.  Any number
    of threads run it; one step is one interlocked bit operation or one
    semaphore operation, and steps of different threads interleave freely. */
module FastMutex {
  import opened Semaphore
  import opened Places

  /** Where a thread stands in the lock or unlock code. */
  datatype Pc =
    | Idle      // outside, not owning
    | Holding   // owns the mutex
    | Clear     // about to clear `event`: "there might be waiters"
    | Retry     // about to test-and-set `lock` again
    | Commit    // the retry failed; about to wait on the semaphore
    | Asleep    // queued on the semaphore
    | Test      // `lock` released; about to test-and-set `event`
    | Wake      // `event` was clear; about to wake one waiter

  /** What a client asks for when it is outside the mutex code. */
  datatype Op = Lock | TryLock | Unlock

  /** The mutex structure. */
  datatype Bits = Bits(lock: bool, event: bool, sem: Sem)

  datatype State = State(m: Bits, pc: seq<Pc>)

  /** One scheduled step: thread `t` runs; `op` matters only outside the mutex
      code, `k` only where the thread joins the semaphore queue. */
  datatype Act = Act(t: Tid, op: Op, k: nat)

  /** What one step of a thread does: its next place, the bits after it, and whom it wakes. */
  datatype Effect = Effect(next: Pc, m: Bits, woken: seq<Tid>)

  function Init(n: nat): State {
    State(Bits(false, true, EMPTY), seq(n, _ => Idle))
  }

  function Go(p: Pc, m: Bits): Effect {
    Effect(p, m, [])
  }

  /** Thread t, standing at p, runs one step. */
  function Exec(p: Pc, m: Bits, t: Tid, op: Op, k: nat): Effect {
    match p
    case Idle =>
      if op == Unlock then Go(Idle, m)
      else if !m.lock then Go(Holding, m.(lock := true))
      else Go(if op == Lock then Clear else Idle, m)
    case Holding => if op == Unlock then Go(Test, m.(lock := false)) else Go(Holding, m)
    case Clear => Go(Retry, m.(event := false))
    case Retry => if m.lock then Go(Commit, m) else Go(Holding, m.(lock := true))
    case Commit =>
      if !m.sem.nopending then Go(Clear, m.(sem := m.sem.(nopending := true)))
      else Go(Asleep, m.(sem := m.sem.(queue := InsertAt(m.sem.queue, k, t))))
    case Asleep => Go(Asleep, m)
    case Test => if m.event then Go(Idle, m) else Go(Wake, m.(event := true))
    case Wake => Effect(Idle, m.(sem := WakeOne(m.sem).0), WakeOne(m.sem).1)
  }

  /** A woken thread goes back to the top of the retry loop. */
  function Step(s: State, a: Act): (r: State)
    ensures |r.pc| == |s.pc|
  {
    if a.t >= |s.pc| then s else
    var e := Exec(s.pc[a.t], s.m, a.t, a.op, a.k);
    State(e.m, Scatter(s.pc, a.t, e.next, e.woken, Clear))
  }

  function Run(s: State, acts: seq<Act>): State
    decreases |acts|
  {
    if acts == [] then s else Run(Step(s, acts[0]), acts[1..])
  }

  // --- Invariant ---------------------------------------------------------------

  const COMMITTED: set<Pc> := {Retry, Commit, Asleep}

  const BOUND: set<Pc> := {Commit, Asleep}

  const WAKING: set<Pc> := {Wake, Clear}

  const LOOKING: set<Pc> := {Test, Wake, Clear, Retry}

  /** The lock bit is set exactly while some thread owns the mutex, and only one does. */
  ghost predicate Exclusive(s: State) {
    && (s.m.lock <==> Among(s.pc, {Holding}))
    && (forall u: Tid, v: Tid :: u < |s.pc| && v < |s.pc| && s.pc[u] == Holding && s.pc[v] == Holding ==> u == v)
  }

  ghost predicate Queued(s: State) {
    Holds(s.m.sem, s.pc, {Asleep})
  }

  /** A thread past its clear of `event` is covered: the bit is still clear, or
      a wakeup is on its way, or another waiter is about to clear it again. */
  ghost predicate EventCovered(s: State) {
    Among(s.pc, COMMITTED) ==> !s.m.event || !s.m.sem.nopending || Among(s.pc, WAKING)
  }

  /** While the mutex is free, a thread asleep or bound for sleep has somebody in
      flight that will look at the mutex, or at the queue, again. */
  ghost predicate NoLostWakeup(s: State) {
    !s.m.lock && Among(s.pc, BOUND) ==> !s.m.sem.nopending || Among(s.pc, LOOKING)
  }

  ghost predicate Inv(s: State) {
    Exclusive(s) && Queued(s) && EventCovered(s) && NoLostWakeup(s)
  }

  lemma InitInv(n: nat)
    ensures Inv(Init(n))
  {
  }

  /** What one step does to the semaphore. */
  ghost predicate SemFacts(p: Pc, m: Bits, t: Tid, k: nat, e: Effect) {
    || (e.m.sem == m.sem && e.woken == [] && (e.next == Asleep <==> p == Asleep))
    || (e.m.sem == m.sem.(nopending := true) && p == Commit && e.woken == [] && e.next == Clear)
    || (p == Commit && m.sem.nopending && e.next == Asleep && e.woken == []
        && e.m.sem == m.sem.(queue := InsertAt(m.sem.queue, k, t)))
    || (p == Wake && e.next == Idle && (e.m.sem, e.woken) == WakeOne(m.sem))
  }

  ghost predicate LockFacts(p: Pc, m: Bits, e: Effect) {
    && (e.m.lock != m.lock <==> (e.next == Holding) != (p == Holding))
    && (e.next == Holding ==> e.m.lock)
    && (p == Holding && e.next != Holding ==> e.next == Test)
    && (e.next == Commit ==> e.m.lock)
  }

  ghost predicate EventFacts(p: Pc, m: Bits, e: Effect) {
    && (e.next in COMMITTED ==> p in COMMITTED || !e.m.event)
    && (e.m.event && !m.event ==> e.next == Wake)
    && (p == Clear ==> !e.m.event && e.next == Retry)
    && (p == Wake ==> e.woken != [] || !e.m.sem.nopending)
    && (e.m.sem.nopending && !m.sem.nopending ==> e.next == Clear)
    && (p == Test && e.next != Wake ==> m.event && e.m.event)
    && (e.next == Asleep ==> p in BOUND)
    && (p == Retry && e.next != Commit ==> e.m.lock)
  }

  lemma ExecSem(p: Pc, m: Bits, t: Tid, op: Op, k: nat)
    ensures SemFacts(p, m, t, k, Exec(p, m, t, op, k))
  {
    hide InsertAt;
  }

  lemma ExecLock(p: Pc, m: Bits, t: Tid, op: Op, k: nat)
    requires p == Holding ==> m.lock
    ensures LockFacts(p, m, Exec(p, m, t, op, k))
  {
    hide InsertAt;
  }

  lemma ExecEvent(p: Pc, m: Bits, t: Tid, op: Op, k: nat)
    ensures EventFacts(p, m, Exec(p, m, t, op, k))
  {
    hide InsertAt;
  }

  /** Thread t makes the step e; everybody it wakes was asleep. */
  ghost predicate Moves(s: State, t: Tid, e: Effect, r: State) {
    && t < |s.pc| && r == State(e.m, Scatter(s.pc, t, e.next, e.woken, Clear))
    && (forall u :: u in e.woken ==> u < |s.pc| && u != t && s.pc[u] == Asleep)
  }

  lemma KeepQueued(s: State, t: Tid, k: nat, e: Effect, r: State)
    requires Queued(s) && t < |s.pc| && SemFacts(s.pc[t], s.m, t, k, e)
    requires r == State(e.m, Scatter(s.pc, t, e.next, e.woken, Clear))
    ensures Queued(r) && Moves(s, t, e, r)
  {
    hide InsertAt;
    if s.pc[t] == Wake && e.next == Idle && (e.m.sem, e.woken) == WakeOne(s.m.sem) {
      var m := s.pc[t := e.next];
      assert Holds(s.m.sem, m, {Asleep});
      Wakes(s.m.sem, (e.m.sem, e.woken), m, r.pc, {Asleep}, Clear);
    } else {
      assert r.pc == s.pc[t := e.next];
      if s.pc[t] == Commit && s.m.sem.nopending && e.next == Asleep {
        Joins(s.m.sem, s.pc, {Asleep}, t, k, e.next);
      }
    }
  }

  lemma KeepExclusive(s: State, t: Tid, e: Effect, r: State)
    requires Exclusive(s) && Moves(s, t, e, r) && LockFacts(s.pc[t], s.m, e)
    ensures Exclusive(r)
  {
    Scattered(s.pc, t, e.next, e.woken, Clear, {Holding});
    assert s.pc[t] == Holding ==> Among(s.pc, {Holding});
  }

  lemma KeepEventCovered(s: State, t: Tid, e: Effect, r: State)
    requires EventCovered(s) && Moves(s, t, e, r) && EventFacts(s.pc[t], s.m, e)
    ensures EventCovered(r)
  {
    Scattered(s.pc, t, e.next, e.woken, Clear, COMMITTED);
    Scattered(s.pc, t, e.next, e.woken, Clear, WAKING);
    assert s.pc[t] in COMMITTED ==> Among(s.pc, COMMITTED);
  }

  lemma KeepNoLostWakeup(s: State, t: Tid, e: Effect, r: State)
    requires Exclusive(s) && NoLostWakeup(s) && Moves(s, t, e, r)
    requires LockFacts(s.pc[t], s.m, e) && EventFacts(s.pc[t], s.m, e)
    requires EventCovered(s) && EventCovered(r)
    ensures NoLostWakeup(r)
  {
    Scattered(s.pc, t, e.next, e.woken, Clear, BOUND);
    Scattered(s.pc, t, e.next, e.woken, Clear, LOOKING);
    assert s.pc[t] in BOUND ==> Among(s.pc, BOUND);
    Widen(r.pc, BOUND, COMMITTED);
    Widen(r.pc, WAKING, LOOKING);
  }

  /** Every step of every thread keeps the invariant. */
  lemma StepInv(s: State, a: Act)
    requires Inv(s)
    ensures Inv(Step(s, a))
  {
    if a.t < |s.pc| {
      var p := s.pc[a.t];
      var e := Exec(p, s.m, a.t, a.op, a.k);
      assert p == Holding ==> Among(s.pc, {Holding});
      ExecSem(p, s.m, a.t, a.op, a.k);
      ExecLock(p, s.m, a.t, a.op, a.k);
      ExecEvent(p, s.m, a.t, a.op, a.k);
      hide Exec, SemFacts, LockFacts, EventFacts, Moves;
      KeepQueued(s, a.t, a.k, e, Step(s, a));
      KeepExclusive(s, a.t, e, Step(s, a));
      KeepEventCovered(s, a.t, e, Step(s, a));
      KeepNoLostWakeup(s, a.t, e, Step(s, a));
    }
  }

  // --- Safety over every run ----------------------------------------------------

  lemma {:induction false} RunInv(s: State, acts: seq<Act>)
    requires Inv(s)
    ensures Inv(Run(s, acts)) && |Run(s, acts).pc| == |s.pc|
    decreases |acts|
  {
    hide Inv, Step;
    if acts != [] {
      StepInv(s, acts[0]);
      RunInv(Step(s, acts[0]), acts[1..]);
    }
  }

  /** A thread inside the lock or unlock code that is not asleep. */
  predicate InFlight(p: Pc) {
    p in {Clear, Retry, Commit, Test, Wake}
  }

  ghost predicate Settled(s: State) {
    forall t: Tid :: t < |s.pc| ==> !InFlight(s.pc[t])
  }

  lemma SettledSleeperMeansLocked(s: State)
    requires Inv(s) && Settled(s) && Among(s.pc, {Asleep})
    ensures s.m.lock
  {
    var u: Tid :| u < |s.pc| && s.pc[u] in {Asleep};
    assert u in s.m.sem.queue;
    Widen(s.pc, {Asleep}, BOUND);
    assert !Among(s.pc, LOOKING);
  }

  /** In every state reached by any interleaving: at most one owner; a sleeper on
      a free mutex is covered; and once nothing is in flight, a sleeper means
      that some thread owns the mutex. */
  lemma EveryRunIsSafe(n: nat, acts: seq<Act>)
    ensures var r := Run(Init(n), acts);
      && |r.pc| == n
      && (forall i, j :: 0 <= i < n && 0 <= j < n && r.pc[i] == Holding && r.pc[j] == Holding ==> i == j)
      && (r.m.lock <==> exists i: Tid :: i < n && r.pc[i] == Holding)
      && (!r.m.lock && Among(r.pc, BOUND) ==> !r.m.sem.nopending || Among(r.pc, LOOKING))
      && (Settled(r) && Among(r.pc, {Asleep}) ==> exists i: Tid :: i < n && r.pc[i] == Holding)
  {
    InitInv(n);
    RunInv(Init(n), acts);
    var r := Run(Init(n), acts);
    hide Run;
    if Settled(r) && Among(r.pc, {Asleep}) { SettledSleeperMeansLocked(r); }
  }

  // --- Progress -------------------------------------------------------------------

  /** How many more steps a thread at this place can cause. */
  function Weight(p: Pc): nat {
    match p
    case Idle => 0
    case Holding => 0
    case Asleep => 0
    case Commit => 1
    case Retry => 2
    case Clear => 3
    case Wake => 4
    case Test => 5
  }

  function Pending(m: Bits): nat {
    if m.sem.nopending then 0 else 3
  }

  ghost function Measure(s: State): nat {
    Total(Weight, s.pc) + Pending(s.m)
  }

  lemma ExecShrinks(p: Pc, m: Bits, t: Tid, op: Op, k: nat)
    requires InFlight(p)
    ensures var e := Exec(p, m, t, op, k);
      && |e.woken| <= 1
      && Weight(e.next) + Pending(e.m) + 3 * |e.woken| < Weight(p) + Pending(m)
  {
    hide InsertAt;
  }

  /** The weight of all threads once t has moved and has woken one thread at most. */
  lemma WeightMoved(s: State, t: Tid, e: Effect, r: State)
    requires Moves(s, t, e, r) && |e.woken| <= 1
    ensures Total(Weight, r.pc) == Total(Weight, s.pc) - Weight(s.pc[t]) + Weight(e.next) + 3 * |e.woken|
  {
    TotalUpdate(Weight, s.pc, t, e.next);
    if e.woken == [] {
      assert r.pc == s.pc[t := e.next];
    } else {
      assert e.woken == [e.woken[0]] && e.woken[0] in e.woken;
      TotalUpdate(Weight, s.pc[t := e.next], e.woken[0], Clear);
      assert r.pc == s.pc[t := e.next][e.woken[0] := Clear];
    }
  }

  /** Work in flight always shrinks: without a new client call no thread can run
      the retry loop for ever, whoever is scheduled. */
  lemma InFlightShrinks(s: State, a: Act)
    requires Inv(s) && a.t < |s.pc| && InFlight(s.pc[a.t])
    ensures Measure(Step(s, a)) < Measure(s)
  {
    var e := Exec(s.pc[a.t], s.m, a.t, a.op, a.k);
    ExecSem(s.pc[a.t], s.m, a.t, a.op, a.k);
    ExecShrinks(s.pc[a.t], s.m, a.t, a.op, a.k);
    hide Exec, SemFacts, Moves;
    KeepQueued(s, a.t, a.k, e, Step(s, a));
    WeightMoved(s, a.t, e, Step(s, a));
  }

  /** A run in which only threads already in flight are scheduled. */
  ghost predicate OnlyInFlight(s: State, acts: seq<Act>)
    decreases |acts|
  {
    acts == [] ||
    (acts[0].t < |s.pc| && InFlight(s.pc[acts[0].t]) && OnlyInFlight(Step(s, acts[0]), acts[1..]))
  }

  lemma {:induction false} InFlightRunsAreBounded(s: State, acts: seq<Act>)
    requires Inv(s) && OnlyInFlight(s, acts)
    ensures |acts| <= Measure(s) - Measure(Run(s, acts))
    decreases |acts|
  {
    hide Inv, Step, Measure;
    if acts != [] {
      StepInv(s, acts[0]);
      InFlightShrinks(s, acts[0]);
      InFlightRunsAreBounded(Step(s, acts[0]), acts[1..]);
    }
  }

  /** On the way to the mutex, or owning it. */
  const WANTING: set<Pc> := {Clear, Retry, Commit, Asleep, Holding}

  lemma ExecWants(p: Pc, m: Bits, t: Tid, op: Op, k: nat)
    requires p in WANTING && InFlight(p)
    ensures Exec(p, m, t, op, k).next in WANTING
  {
  }

  lemma {:induction false} WantersStay(s: State, acts: seq<Act>)
    requires Inv(s) && OnlyInFlight(s, acts) && Among(s.pc, WANTING)
    ensures Among(Run(s, acts).pc, WANTING)
    decreases |acts|
  {
    if acts != [] {
      var a, t := acts[0], acts[0].t;
      var e := Exec(s.pc[t], s.m, t, a.op, a.k);
      StepInv(s, a);
      ExecSem(s.pc[t], s.m, t, a.op, a.k);
      if s.pc[t] in WANTING { ExecWants(s.pc[t], s.m, t, a.op, a.k); }
      hide Exec, SemFacts;
      KeepQueued(s, t, a.k, e, Step(s, a));
      Scattered(s.pc, t, e.next, e.woken, Clear, WANTING);
      WantersStay(Step(s, a), acts[1..]);
    }
  }

  /** Liveness: if somebody wants the mutex (or has it) and the threads in flight
      are run until none is left, in any order, the mutex ends up owned.  By
      InFlightRunsAreBounded every such run does come to its end. */
  lemma SomeWaiterAcquires(s: State, acts: seq<Act>)
    requires Inv(s) && OnlyInFlight(s, acts) && Among(s.pc, WANTING) && Settled(Run(s, acts))
    ensures var r := Run(s, acts); r.m.lock && exists i: Tid :: i < |r.pc| && r.pc[i] == Holding
  {
    RunInv(s, acts);
    WantersStay(s, acts);
    var r := Run(s, acts);
    hide Run, OnlyInFlight;
    var u: Tid :| u < |r.pc| && r.pc[u] in WANTING;
    if r.pc[u] == Asleep {
      assert Among(r.pc, {Asleep});
      SettledSleeperMeansLocked(r);
    } else {
      assert r.pc[u] == Holding;
      assert Among(r.pc, {Holding});
    }
  }

  // --- The code --------------------------------------------------------------------

  /** Where n steps of one thread, with nobody else scheduled, have brought it. */
  datatype Spot = Spot(p: Pc, m: Bits, woken: seq<Tid>)

  function Alone(p: Pc, m: Bits, t: Tid, op: Op, k: nat, n: nat): Spot {
    if n == 0 then Spot(p, m, [])
    else
      var q := Alone(p, m, t, op, k, n - 1);
      var e := Exec(q.p, q.m, t, op, k);
      Spot(e.next, e.m, q.woken + e.woken)
  }

  lemma {:induction false} RunSnoc(s: State, acts: seq<Act>, a: Act)
    ensures Run(s, acts + [a]) == Step(Run(s, acts), a)
    decreases |acts|
  {
    hide Step;
    if acts == [] {
      assert acts + [a] == [a];
    } else {
      assert (acts + [a])[1..] == acts[1..] + [a];
      RunSnoc(Step(s, acts[0]), acts[1..], a);
    }
  }

  /** From s, thread t has come to q and the whole state to r: the threads it woke
      went back to the retry loop and nobody else moved. */
  ghost predicate Mirrors(s: State, t: Tid, q: Spot, r: State) {
    && t < |s.pc| && |r.pc| == |s.pc|
    && r.m == q.m && t !in q.woken && r.pc[t] == q.p
    && (forall u: Tid :: u < |s.pc| && u != t ==> r.pc[u] == if u in q.woken then Clear else s.pc[u])
  }

  lemma MirrorsStep(s: State, t: Tid, q: Spot, r: State, e: Effect, r': State)
    requires Mirrors(s, t, q, r) && Moves(r, t, e, r')
    ensures Mirrors(s, t, Spot(e.next, e.m, q.woken + e.woken), r')
  {
  }

  /** What a thread does alone is a run. */
  lemma {:induction false} AloneIsARun(s: State, a: Act, n: nat)
    requires Queued(s) && a.t < |s.pc|
    ensures Queued(Run(s, seq(n, _ => a)))
    ensures Mirrors(s, a.t, Alone(s.pc[a.t], s.m, a.t, a.op, a.k, n), Run(s, seq(n, _ => a)))
  {
    if n > 0 {
      AloneIsARun(s, a, n - 1);
      var r := Run(s, seq(n - 1, _ => a));
      assert seq(n, _ => a) == seq(n - 1, _ => a) + [a];
      RunSnoc(s, seq(n - 1, _ => a), a);
      hide Exec, Run, Queued, Moves, SemFacts;
      ExecSem(r.pc[a.t], r.m, a.t, a.op, a.k);
      var e := Exec(r.pc[a.t], r.m, a.t, a.op, a.k);
      KeepQueued(r, a.t, a.k, e, Step(r, a));
      MirrorsStep(s, a.t, Alone(s.pc[a.t], s.m, a.t, a.op, a.k, n - 1), r, e, Step(r, a));
    }
  }

  /** The mutex structure.  Each method is the source text run by one thread with
      nobody else scheduled; `n` counts its steps. */
  class Mutex {
    var lock: bool
    var event: bool
    var sem: Sem

    function M(): Bits
      reads this
    {
      Bits(lock, event, sem)
    }

    constructor ()
      ensures M() == Init(0).m
    {
      lock, event, sem := false, true, EMPTY;
    }

    /** Records that the accesses just made are the next step of the thread after
        the n that brought it to q. */
    ghost method Stepped(p0: Pc, t: Tid, op: Op, k: nat, m: Bits, n: nat, q: Spot, p: Pc, woken: seq<Tid>)
      returns (n': nat, q': Spot)
      requires Alone(p0, m, t, op, k, n) == q
      requires Exec(q.p, q.m, t, op, k) == Effect(p, M(), woken)
      ensures n' == n + 1 && q' == Spot(p, M(), q.woken + woken)
      ensures Alone(p0, m, t, op, k, n') == q'
    {
      hide Exec;
      n', q' := n + 1, Spot(p, M(), q.woken + woken);
    }

    /** Locks at once when the mutex is free; otherwise goes round the retry loop
        until it is queued on the semaphore. */
    method Lock(t: Tid, k: nat) returns (blocked: bool, ghost n: nat)
      modifies this
      ensures Alone(Idle, old(M()), t, Op.Lock, k, n) == Spot(if blocked then Asleep else Holding, M(), [])
      ensures lock && blocked == old(lock)
      ensures blocked ==> !event && sem == Sem(InsertAt(old(sem).queue, k, t), true)
      ensures !blocked ==> event == old(event) && sem == old(sem)
    {
      ghost var m, q := M(), Spot(Idle, M(), []);
      blocked := lock;
      lock := true;
      n, q := Stepped(Idle, t, Op.Lock, k, m, 0, q, if blocked then Clear else Holding, []);
      hide Alone;
      var again := blocked;
      while again
        invariant Alone(Idle, m, t, Op.Lock, k, n) == Spot(if again then Clear else if blocked then Asleep else Holding, M(), [])
        invariant lock && (again ==> blocked && sem.queue == old(sem).queue)
        invariant !again && blocked ==> !event && sem == Sem(InsertAt(old(sem).queue, k, t), true)
        invariant !blocked ==> event == old(event) && sem == old(sem)
        decreases again, !sem.nopending
      {
        q := Spot(Clear, M(), []);
        event := false;
        n, q := Stepped(Idle, t, Op.Lock, k, m, n, q, Retry, []);
        n, q := Stepped(Idle, t, Op.Lock, k, m, n, q, Commit, []);
        again := !sem.nopending;
        if again {
          sem := sem.(nopending := true);
        } else {
          sem := sem.(queue := InsertAt(sem.queue, k, t));
        }
        n, q := Stepped(Idle, t, Op.Lock, k, m, n, q, if again then Clear else Asleep, []);
      }
    }

    method TryLock(t: Tid) returns (ok: bool)
      modifies this
      ensures Exec(Idle, old(M()), t, Op.TryLock, 0) == Effect(if ok then Holding else Idle, M(), [])
      ensures ok == !old(lock) && M() == old(M()).(lock := true)
    {
      ok := !lock;
      lock := true;
    }

    /** Releases; a waiter is woken, or a wakeup left pending, when there might be one. */
    method Unlock(t: Tid) returns (woken: seq<Tid>, ghost n: nat)
      modifies this
      ensures Alone(Holding, old(M()), t, Op.Unlock, 0, n) == Spot(Idle, M(), woken)
      ensures !lock && event
      ensures (sem, woken) == if old(event) then (old(sem), []) else WakeOne(old(sem))
    {
      ghost var m, q := M(), Spot(Holding, M(), []);
      woken := [];
      lock := false;
      n, q := Stepped(Holding, t, Op.Unlock, 0, m, 0, q, Test, []);
      hide Alone;
      if event {
        n, q := Stepped(Holding, t, Op.Unlock, 0, m, n, q, Idle, []);
      } else {
        event := true;
        n, q := Stepped(Holding, t, Op.Unlock, 0, m, n, q, Wake, []);
        if sem.queue != [] {
          woken := sem.queue[..1];
          sem := sem.(queue := sem.queue[1..]);
        } else {
          sem := sem.(nopending := false);
        }
        n, q := Stepped(Holding, t, Op.Unlock, 0, m, n, q, Idle, woken);
      }
    }
  }
}
