/** Condition variables (threads/cma_condition.h, threads/cma_condition.c): the
    "no waiters" event bit in front of a semaphore, and the mutex its clients
    hold around it.  Any number of threads wait, wait with a timeout, signal and
    broadcast; interrupt routines signal too.  One step is one interlocked bit
    operation, one mutex operation or one semaphore operation. */
module Condition {
  import opened Semaphore
  import opened Places

  datatype Pc =
    | Idle                  // outside, not holding the mutex
    | Inside                // holds the mutex
    | PreClear              // wait: about to clear `event`
    | Release               // wait: about to release the mutex
    | TRelease              // timed wait: about to release the mutex
    | TPreClear             // timed wait: about to clear `event`
    | Wait(timed: bool)     // about to wait on the semaphore
    | Asleep(timed: bool)
    | ReClear               // back from the semaphore; about to clear `event` again
    | Relock                // about to take the mutex again
    | SigTest(inside: bool) | SigUnset(inside: bool) | SigWake(inside: bool)
    | BcTest(inside: bool) | BcWake(inside: bool)

  /** What a client asks for; `Alert` and `Expire` say, where a thread is about to
      wait or waits, that an alert is pending or that its time is over. */
  datatype Op = Lock | Unlock | WaitOn | TimedWaitOn | Signal | Broadcast | Alert | Expire

  datatype Cv = Cv(event: bool, mutex: bool, sem: Sem)

  datatype State = State(c: Cv, pc: seq<Pc>)

  /** Thread t takes a step, or an interrupt routine signals the condition variable. */
  datatype Act = Act(t: Tid, op: Op, k: nat) | Interrupt

  datatype Effect = Effect(next: Pc, c: Cv, woken: seq<Tid>)

  function Init(n: nat): State {
    State(Cv(true, false, EMPTY), seq(n, _ => Idle))
  }

  function Go(p: Pc, c: Cv): Effect {
    Effect(p, c, [])
  }

  function Back(inside: bool): Pc {
    if inside then Inside else Idle
  }

  function Waking(p: Pc, c: Cv, w: (Sem, seq<Tid>)): Effect {
    Effect(p, c.(sem := w.0), w.1)
  }

  /** Thread t outside the wait and wake code. */
  function Client(inside: bool, c: Cv, op: Op): Effect {
    match op
    case Signal => Go(SigTest(inside), c)
    case Broadcast => Go(BcTest(inside), c)
    case Lock => if inside || c.mutex then Go(Back(inside), c) else Go(Inside, c.(mutex := true))
    case Unlock => if inside then Go(Idle, c.(mutex := false)) else Go(Idle, c)
    case WaitOn => Go(if inside then PreClear else Idle, c)
    case TimedWaitOn => Go(if inside then TRelease else Idle, c)
    case _ => Go(Back(inside), c)
  }

  /** The semaphore wait.  A pending alert skips it; a pending wakeup is used up; a
      time already over ends it. */
  function SemWait(timed: bool, c: Cv, t: Tid, op: Op, k: nat): Effect {
    if op == Alert then Go(ReClear, c)
    else if !c.sem.nopending then Go(ReClear, c.(sem := c.sem.(nopending := true)))
    else if timed && op == Expire then Go(ReClear, c)
    else Go(Asleep(timed), c.(sem := c.sem.(queue := InsertAt(c.sem.queue, k, t))))
  }

  /** Thread t, standing at p, runs one step. */
  function Exec(p: Pc, c: Cv, t: Tid, op: Op, k: nat): Effect {
    match p
    case Idle => Client(false, c, op)
    case Inside => Client(true, c, op)
    case PreClear => Go(Release, c.(event := false))
    case Release => Go(Wait(false), c.(mutex := false))
    case TRelease => Go(TPreClear, c.(mutex := false))
    case TPreClear => Go(Wait(true), c.(event := false))
    case Wait(timed) => SemWait(timed, c, t, op, k)
    case Asleep(timed) =>
      if timed && op == Expire then Go(ReClear, c.(sem := c.sem.(queue := Without(c.sem.queue, t)))) else Go(p, c)
    case ReClear => Go(Relock, c.(event := false))
    case Relock => if c.mutex then Go(p, c) else Go(Inside, c.(mutex := true))
    case SigTest(inside) => if c.event then Go(Back(inside), c) else Go(SigUnset(inside), c.(event := true))
    case SigUnset(inside) => Go(SigWake(inside), c.(event := false))
    case SigWake(inside) => Waking(Back(inside), c, WakeOne(c.sem))
    case BcTest(inside) => if c.event then Go(Back(inside), c) else Go(BcWake(inside), c.(event := true))
    case BcWake(inside) => Waking(Back(inside), c, WakeAll(c.sem))
  }

  function Step(s: State, a: Act): (r: State)
    ensures |r.pc| == |s.pc|
  {
    if a.Interrupt? then
      var w := WakeOne(s.c.sem);
      State(s.c.(sem := w.0), Scatter(s.pc, |s.pc|, Idle, w.1, ReClear))
    else if a.t >= |s.pc| then s
    else
      var e := Exec(s.pc[a.t], s.c, a.t, a.op, a.k);
      State(e.c, Scatter(s.pc, a.t, e.next, e.woken, ReClear))
  }

  function Run(s: State, acts: seq<Act>): State
    decreases |acts|
  {
    if acts == [] then s else Run(Step(s, acts[0]), acts[1..])
  }

  // --- Invariant -----------------------------------------------------------------

  const SLEEPERS: set<Pc> := {Asleep(false), Asleep(true)}

  /** Past the clear of `event` that precedes the wait, and not back from it. */
  const COMMITTED: set<Pc> := {Release, Wait(false), Wait(true), Asleep(false), Asleep(true)}

  /** About to clear `event`, or to wake somebody. */
  const COVER: set<Pc> := {SigUnset(false), SigUnset(true), BcWake(false), BcWake(true), ReClear}

  predicate HasMutex(p: Pc) {
    p in {Inside, PreClear, Release, TRelease} || (p.SigTest? && p.inside) || (p.SigUnset? && p.inside)
    || (p.SigWake? && p.inside) || (p.BcTest? && p.inside) || (p.BcWake? && p.inside)
  }

  ghost predicate MutexExclusive(s: State) {
    && (s.c.mutex <==> exists u: Tid :: u < |s.pc| && HasMutex(s.pc[u]))
    && (forall u: Tid, v: Tid :: u < |s.pc| && v < |s.pc| && HasMutex(s.pc[u]) && HasMutex(s.pc[v]) ==> u == v)
  }

  ghost predicate Queued(s: State) {
    Holds(s.c.sem, s.pc, SLEEPERS)
  }

  /** No forgotten waiter. */
  ghost predicate EventCovered(s: State) {
    Among(s.pc, COMMITTED) ==> !s.c.event || !s.c.sem.nopending || Among(s.pc, COVER)
  }

  ghost predicate Inv(s: State) {
    MutexExclusive(s) && Queued(s) && EventCovered(s)
  }

  lemma InitInv(n: nat)
    ensures Inv(Init(n))
  {
  }

  /** What one step does to the semaphore. */
  ghost predicate SemFacts(p: Pc, c: Cv, t: Tid, k: nat, e: Effect) {
    || (e.c.sem == c.sem && e.woken == [] && p !in SLEEPERS && e.next !in SLEEPERS)
    || (e.c.sem == c.sem.(nopending := true) && p.Wait? && e.woken == [] && e.next == ReClear)
    || (p in SLEEPERS && e == Go(p, c))
    || (p in SLEEPERS && e.next == ReClear && e.woken == [] && e.c.sem == c.sem.(queue := Without(c.sem.queue, t)))
    || (p.Wait? && c.sem.nopending && e.next in SLEEPERS && e.woken == []
        && e.c.sem == c.sem.(queue := InsertAt(c.sem.queue, k, t)))
    || (p !in SLEEPERS && e.next !in SLEEPERS && (e.c.sem, e.woken) in {WakeOne(c.sem), WakeAll(c.sem)})
  }

  ghost predicate MutexFacts(p: Pc, c: Cv, e: Effect) {
    && (e.c.mutex != c.mutex <==> HasMutex(e.next) != HasMutex(p))
    && (HasMutex(e.next) ==> e.c.mutex)
  }

  ghost predicate EventFacts(p: Pc, c: Cv, e: Effect) {
    && (e.next in COMMITTED ==> p in COMMITTED || !e.c.event)
    && (e.c.event && !c.event ==> e.next in COVER)
    && (p in COVER ==> !e.c.event || e.woken != [] || !e.c.sem.nopending)
    && (e.c.sem.nopending && !c.sem.nopending ==> e.next in COVER)
  }

  lemma ExecSem(p: Pc, c: Cv, t: Tid, op: Op, k: nat)
    ensures SemFacts(p, c, t, k, Exec(p, c, t, op, k))
  {
    hide InsertAt, Without;
  }

  lemma ExecMutex(p: Pc, c: Cv, t: Tid, op: Op, k: nat)
    requires HasMutex(p) ==> c.mutex
    ensures MutexFacts(p, c, Exec(p, c, t, op, k))
  {
    hide InsertAt, Without;
  }

  lemma ExecEvent(p: Pc, c: Cv, t: Tid, op: Op, k: nat)
    ensures EventFacts(p, c, Exec(p, c, t, op, k))
  {
    hide InsertAt, Without;
  }

  lemma KeepQueued(s: State, t: Tid, k: nat, e: Effect, r: State)
    requires Queued(s) && t < |s.pc| && SemFacts(s.pc[t], s.c, t, k, e)
    requires r == State(e.c, Scatter(s.pc, t, e.next, e.woken, ReClear))
    ensures Queued(r)
    ensures forall u :: u in e.woken ==> u < |s.pc| && u != t && s.pc[u] in SLEEPERS
  {
    hide InsertAt, Without;
    if e.woken != [] || e.c.sem == s.c.sem.(nopending := false) {
      var m := s.pc[t := e.next];
      assert Holds(s.c.sem, m, SLEEPERS);
      Wakes(s.c.sem, (e.c.sem, e.woken), m, r.pc, SLEEPERS, ReClear);
    } else {
      assert r.pc == s.pc[t := e.next];
      if s.pc[t].Wait? && s.c.sem.nopending && e.next in SLEEPERS {
        Joins(s.c.sem, s.pc, SLEEPERS, t, k, e.next);
      } else if s.pc[t] in SLEEPERS && e.next == ReClear {
        Expires(s.c.sem, s.pc, SLEEPERS, t, e.next);
      }
    }
  }

  lemma KeepMutex(s: State, t: Tid, e: Effect, r: State)
    requires MutexExclusive(s) && t < |s.pc| && MutexFacts(s.pc[t], s.c, e)
    requires r == State(e.c, Scatter(s.pc, t, e.next, e.woken, ReClear))
    requires forall u :: u in e.woken ==> u < |s.pc| && u != t && s.pc[u] in SLEEPERS
    ensures MutexExclusive(r)
  {
    if r.c.mutex && !HasMutex(e.next) {
      assert !HasMutex(s.pc[t]);
      var u: Tid :| u < |s.pc| && HasMutex(s.pc[u]);
      assert HasMutex(r.pc[u]);
    } else if HasMutex(e.next) {
      assert HasMutex(r.pc[t]);
    }
  }

  lemma KeepEvent(s: State, t: Tid, e: Effect, r: State)
    requires EventCovered(s) && t < |s.pc| && EventFacts(s.pc[t], s.c, e)
    requires r == State(e.c, Scatter(s.pc, t, e.next, e.woken, ReClear))
    requires forall u :: u in e.woken ==> u < |s.pc| && u != t && s.pc[u] in SLEEPERS
    ensures EventCovered(r)
  {
    Scattered(s.pc, t, e.next, e.woken, ReClear, COMMITTED);
    Scattered(s.pc, t, e.next, e.woken, ReClear, COVER);
    assert s.pc[t] in COMMITTED ==> Among(s.pc, COMMITTED);
  }

  lemma InterruptInv(s: State)
    requires Inv(s)
    ensures Inv(Step(s, Interrupt))
  {
    var w, r := WakeOne(s.c.sem), Step(s, Interrupt);
    Wakes(s.c.sem, w, s.pc, r.pc, SLEEPERS, ReClear);
    assert forall u: Tid :: u < |s.pc| ==> HasMutex(r.pc[u]) == HasMutex(s.pc[u]);
    if w.1 != [] {
      assert w.1[0] in w.1 && r.pc[w.1[0]] == ReClear;
      assert Among(r.pc, COVER);
    } else {
      assert r.pc == s.pc;
    }
  }

  /** Every step of every thread and every interrupt keeps the invariant. */
  lemma StepInv(s: State, a: Act)
    requires Inv(s)
    ensures Inv(Step(s, a))
  {
    if a.Interrupt? {
      InterruptInv(s);
    } else if a.t < |s.pc| {
      var p := s.pc[a.t];
      var e := Exec(p, s.c, a.t, a.op, a.k);
      ExecSem(p, s.c, a.t, a.op, a.k);
      ExecMutex(p, s.c, a.t, a.op, a.k);
      ExecEvent(p, s.c, a.t, a.op, a.k);
      hide Exec, SemFacts, MutexFacts, EventFacts;
      KeepQueued(s, a.t, a.k, e, Step(s, a));
      KeepMutex(s, a.t, e, Step(s, a));
      KeepEvent(s, a.t, e, Step(s, a));
    }
  }

  lemma {:induction false} RunInv(s: State, acts: seq<Act>)
    requires Inv(s)
    ensures Inv(Run(s, acts)) && |Run(s, acts).pc| == |s.pc|
    decreases |acts|
  {
    if acts != [] {
      StepInv(s, acts[0]);
      RunInv(Step(s, acts[0]), acts[1..]);
    }
  }

  /** Nobody is inside the wait or wake code except asleep. */
  ghost predicate Quiet(s: State) {
    forall t: Tid :: t < |s.pc| ==> s.pc[t] in {Idle, Inside} + SLEEPERS
  }

  /** In every state reached by any interleaving of waits, timed waits, signals,
      broadcasts, alerts, timeouts and interrupts: one thread at most holds the
      mutex; a committed waiter is covered; and once nothing is in flight a
      sleeper means that `event` is clear, so nobody has been forgotten. */
  lemma EveryRunIsSafe(n: nat, acts: seq<Act>)
    ensures var r := Run(Init(n), acts);
      && |r.pc| == n && Holds(r.c.sem, r.pc, SLEEPERS)
      && (forall u: Tid, v: Tid :: u < n && v < n && HasMutex(r.pc[u]) && HasMutex(r.pc[v]) ==> u == v)
      && (Among(r.pc, COMMITTED) ==> !r.c.event || !r.c.sem.nopending || Among(r.pc, COVER))
      && (Quiet(r) && Among(r.pc, SLEEPERS) ==> !r.c.event && r.c.sem.nopending)
  {
    InitInv(n);
    RunInv(Init(n), acts);
    var r := Run(Init(n), acts);
    hide Run, Step;
    if Quiet(r) && Among(r.pc, SLEEPERS) { QuietSleeper(r); }
  }

  lemma QuietSleeper(s: State)
    requires Inv(s) && Quiet(s) && Among(s.pc, SLEEPERS)
    ensures s.c.sem.queue != [] && s.c.sem.nopending && !s.c.event
  {
    Widen(s.pc, SLEEPERS, COMMITTED);
    var u: Tid :| u < |s.pc| && s.pc[u] in SLEEPERS;
    assert u in s.c.sem.queue;
    assert !Among(s.pc, COVER);
  }

  // --- What the next signal or broadcast does --------------------------------------

  lemma {:induction false} Run4(s: State, a: Act)
    ensures Run(s, [a, a, a, a]) == Step(Step(Step(Step(s, a), a), a), a)
    ensures Run(s, [a, a, a]) == Step(Step(Step(s, a), a), a)
  {
    var s1 := Step(s, a);
    var s2 := Step(s1, a);
    assert [a, a, a, a][1..] == [a, a, a] && [a, a, a][1..] == [a, a] && [a, a][1..] == [a] && [a][1..] == [];
    assert Run(s2, [a, a]) == Step(Step(s2, a), a) by {
      assert Run(Step(s2, a), [a]) == Run(Step(Step(s2, a), a), []);
    }
    hide Step;
    assert Run(s1, [a, a, a]) == Run(s2, [a, a]);
    assert Run(s, [a, a, a]) == Run(s1, [a, a]) == Run(s2, [a]);
    assert Run(s2, [a]) == Run(Step(s2, a), []);
  }

  /** A step that wakes nobody moves its own thread only. */
  lemma StepAlone(c: Cv, pc: seq<Pc>, t: Tid, p: Pc, op: Op, k: nat, q: Pc, c': Cv)
    requires t < |pc| && Exec(p, c, t, op, k) == Go(q, c')
    ensures Step(State(c, pc[t := p]), Act(t, op, k)) == State(c', pc[t := q])
  {
    hide Exec;
    assert Scatter(pc[t := p], t, q, [], ReClear) == pc[t := q];
  }

  lemma InvQueued(s: State)
    requires Inv(s)
    ensures Queued(s)
  {
  }

  /** In a quiet state with sleepers the next signal reaches the semaphore and wakes
      the first of them; the others stay, and `event` stays clear for the next one. */
  lemma NextSignalWakesTheFirst(s: State, t: Tid)
    requires Inv(s) && Quiet(s) && Among(s.pc, SLEEPERS) && t < |s.pc| && s.pc[t] in {Idle, Inside}
    ensures s.c.sem.queue != [] && s.c.sem.queue[0] < |s.pc|
    ensures Run(s, [Act(t, Signal, 0), Act(t, Signal, 0), Act(t, Signal, 0), Act(t, Signal, 0)])
      == State(s.c.(sem := s.c.sem.(queue := s.c.sem.queue[1..])), s.pc[s.c.sem.queue[0] := ReClear])
  {
    hide Step, Run, Inv, Quiet;
    QuietSleeper(s);
    assert Queued(s) by { InvQueued(s); }
    var a, in_ := Act(t, Signal, 0), s.pc[t] == Inside;
    assert s.pc[t := Back(in_)] == s.pc;
    StepAlone(s.c, s.pc, t, Back(in_), Signal, 0, SigTest(in_), s.c);
    StepAlone(s.c, s.pc, t, SigTest(in_), Signal, 0, SigUnset(in_), s.c.(event := true));
    StepAlone(s.c.(event := true), s.pc, t, SigUnset(in_), Signal, 0, SigWake(in_), s.c);
    SignalWakes(s, t, in_);
    Run4(s, a);
  }

  lemma SignalWakes(s: State, t: Tid, in_: bool)
    requires Queued(s) && s.c.sem.queue != [] && t < |s.pc| && s.pc[t] == Back(in_)
    ensures s.c.sem.queue[0] < |s.pc|
    ensures Step(State(s.c, s.pc[t := SigWake(in_)]), Act(t, Signal, 0))
      == State(s.c.(sem := s.c.sem.(queue := s.c.sem.queue[1..])), s.pc[s.c.sem.queue[0] := ReClear])
  {
    assert s.c.sem.queue[0] in s.c.sem.queue;
    assert forall u :: u in s.c.sem.queue[..1] <==> u == s.c.sem.queue[0];
  }

  /** ... and the next broadcast wakes every one of them. */
  lemma NextBroadcastWakesAll(s: State, t: Tid)
    requires Inv(s) && Quiet(s) && Among(s.pc, SLEEPERS) && t < |s.pc| && s.pc[t] in {Idle, Inside}
    ensures var r := Run(s, [Act(t, Broadcast, 0), Act(t, Broadcast, 0), Act(t, Broadcast, 0)]);
      && r.c == s.c.(event := true, sem := EMPTY) && |r.pc| == |s.pc|
      && forall u: Tid :: u < |s.pc| ==> r.pc[u] == if s.pc[u] in SLEEPERS then ReClear else s.pc[u]
  {
    hide Step, Run, Inv, Quiet;
    QuietSleeper(s);
    assert Queued(s) by { InvQueued(s); }
    var a, in_ := Act(t, Broadcast, 0), s.pc[t] == Inside;
    assert s.pc[t := Back(in_)] == s.pc;
    StepAlone(s.c, s.pc, t, Back(in_), Broadcast, 0, BcTest(in_), s.c);
    StepAlone(s.c, s.pc, t, BcTest(in_), Broadcast, 0, BcWake(in_), s.c.(event := true));
    BroadcastWakes(s.c.(event := true), s.pc, t, in_);
    Run4(s, a);
  }

  lemma BroadcastWakes(c: Cv, pc: seq<Pc>, t: Tid, in_: bool)
    requires t < |pc| && c.sem.queue != []
    ensures Step(State(c, pc[t := BcWake(in_)]), Act(t, Broadcast, 0))
      == State(c.(sem := c.sem.(queue := [])), Scatter(pc, t, Back(in_), c.sem.queue, ReClear))
  {
    assert Exec(BcWake(in_), c, t, Broadcast, 0) == Effect(Back(in_), c.(sem := c.sem.(queue := [])), c.sem.queue);
  }

  // --- Signals and broadcasts that are absorbed -----------------------------------------

  /** A signal or broadcast that finds `event` set returns without touching the
      semaphore, and only then; with a committed waiter about, a wakeup is then
      pending or somebody else is about to wake or to clear `event` again. */
  lemma AbsorbedExactlyWhen(s: State, t: Tid, op: Op, k: nat)
    requires Inv(s) && t < |s.pc| && (s.pc[t].SigTest? || s.pc[t].BcTest?)
    ensures var r := Step(s, Act(t, op, k));
      && (r.pc[t] in {Idle, Inside} <==> s.c.event)
      && (s.c.event ==> r.c == s.c)
      && (s.c.event && Among(s.pc, COMMITTED) ==> !r.c.sem.nopending || Among(r.pc, COVER))
  {
    StepInv(s, Act(t, op, k));
    var e := Exec(s.pc[t], s.c, t, op, k);
    Scattered(s.pc, t, e.next, [], ReClear, COMMITTED);
    assert e == if s.c.event then Go(Back(s.pc[t].inside), s.c)
                else Go(if s.pc[t].SigTest? then SigUnset(s.pc[t].inside) else BcWake(s.pc[t].inside), s.c.(event := true));
    hide Exec, Queued, MutexExclusive;
  }

  /** No broadcast has been started and none is. */
  ghost predicate NoBroadcast(acts: seq<Act>) {
    forall i :: 0 <= i < |acts| ==> acts[i].Act? ==> acts[i].op != Broadcast
  }

  const SIGNALLING: set<Pc> := {SigUnset(false), SigUnset(true)}

  ghost predicate SignalsCover(s: State) {
    && (forall u: Tid :: u < |s.pc| ==> !s.pc[u].BcTest? && !s.pc[u].BcWake?)
    && (Among(s.pc, COMMITTED) ==> !s.c.event || Among(s.pc, SIGNALLING))
  }

  ghost predicate SignalFacts(p: Pc, c: Cv, op: Op, e: Effect) {
    && (op != Broadcast && !p.BcTest? && !p.BcWake? ==> !e.next.BcTest? && !e.next.BcWake?)
    && (e.next in COMMITTED ==> p in COMMITTED || !e.c.event)
    && (e.c.event && !c.event ==> p.BcTest? || e.next in SIGNALLING)
    && (p in SIGNALLING ==> !e.c.event)
  }

  lemma ExecSignal(p: Pc, c: Cv, t: Tid, op: Op, k: nat)
    ensures SignalFacts(p, c, op, Exec(p, c, t, op, k))
  {
    hide InsertAt, Without;
  }

  lemma KeepSignalsCover(s: State, t: Tid, op: Op, e: Effect, r: State)
    requires SignalsCover(s) && t < |s.pc| && op != Broadcast && SignalFacts(s.pc[t], s.c, op, e)
    requires r == State(e.c, Scatter(s.pc, t, e.next, e.woken, ReClear))
    requires forall u :: u in e.woken ==> u < |s.pc| && u != t && s.pc[u] in SLEEPERS
    ensures SignalsCover(r)
  {
    Scattered(s.pc, t, e.next, e.woken, ReClear, COMMITTED);
    Scattered(s.pc, t, e.next, e.woken, ReClear, SIGNALLING);
    assert s.pc[t] in COMMITTED ==> Among(s.pc, COMMITTED);
    assert !s.pc[t].BcTest?;
  }

  lemma InterruptSignalsCover(s: State)
    requires Inv(s) && SignalsCover(s)
    ensures SignalsCover(Step(s, Interrupt))
  {
    var w, r := WakeOne(s.c.sem), Step(s, Interrupt);
    Wakes(s.c.sem, w, s.pc, r.pc, SLEEPERS, ReClear);
    assert r == State(s.c.(sem := w.0), Scatter(s.pc, |s.pc|, Idle, w.1, ReClear));
    hide Step, Inv, WakeOne;
    Scattered(s.pc, |s.pc|, Idle, w.1, ReClear, COMMITTED);
    Scattered(s.pc, |s.pc|, Idle, w.1, ReClear, SIGNALLING);
  }

  lemma StepSignalsCover(s: State, a: Act)
    requires Inv(s) && SignalsCover(s) && (a.Act? ==> a.op != Broadcast)
    ensures SignalsCover(Step(s, a))
  {
    if a.Interrupt? {
      InterruptSignalsCover(s);
    } else if a.t < |s.pc| {
      var p := s.pc[a.t];
      var e := Exec(p, s.c, a.t, a.op, a.k);
      ExecSem(p, s.c, a.t, a.op, a.k);
      ExecSignal(p, s.c, a.t, a.op, a.k);
      hide Exec, SemFacts, SignalFacts, SignalsCover;
      KeepQueued(s, a.t, a.k, e, Step(s, a));
      KeepSignalsCover(s, a.t, a.op, e, Step(s, a));
    }
  }

  lemma {:induction false} RunSignalsCover(s: State, acts: seq<Act>)
    requires Inv(s) && SignalsCover(s) && NoBroadcast(acts)
    ensures SignalsCover(Run(s, acts))
    decreases |acts|
  {
    if acts != [] {
      assert acts[0] == acts[0];
      StepSignalsCover(s, acts[0]);
      StepInv(s, acts[0]);
      RunSignalsCover(Step(s, acts[0]), acts[1..]);
    }
  }

  /** Without broadcasts, in every run: a signal issued once a waiter is committed is
      absorbed only by another signaller that has yet to do its own wake. */
  lemma SignalsAbsorbOnlySignals(n: nat, acts: seq<Act>, t: Tid)
    requires NoBroadcast(acts) && t < n
    ensures var r := Run(Init(n), acts);
      && |r.pc| == n
      && (r.pc[t].SigTest? && r.c.event && Among(r.pc, COMMITTED) ==>
            exists u: Tid :: u < n && u != t && r.pc[u].SigUnset?)
  {
    InitInv(n);
    RunInv(Init(n), acts);
    RunSignalsCover(Init(n), acts);
    var r := Run(Init(n), acts);
    if r.pc[t].SigTest? && r.c.event && Among(r.pc, COMMITTED) {
      var u: Tid :| u < |r.pc| && r.pc[u] in SIGNALLING;
      assert u != t && r.pc[u].SigUnset?;
    }
  }

  // --- How a waiter gets out ------------------------------------------------------------------

  /** Act a ends the sleep of thread t: t's own time is over, or a signaller, an interrupt or
      a broadcaster wakes while t is first, or anywhere, in the queue. */
  predicate EndsSleep(s: State, a: Act, t: Tid) {
    if a.Interrupt? then s.c.sem.queue != [] && s.c.sem.queue[0] == t
    else
      a.t < |s.pc| && t < |s.pc| &&
      match s.pc[a.t]
      case Asleep(timed) => a.t == t && timed && a.op == Expire
      case SigWake(_) => s.c.sem.queue != [] && s.c.sem.queue[0] == t
      case BcWake(_) => true
      case _ => false
  }

  lemma OthersStay(s: State, a: Act, t: Tid)
    requires a.Act? && t < |s.pc| && t != a.t && a.t < |s.pc| && !s.pc[a.t].SigWake? && !s.pc[a.t].BcWake?
    ensures Step(s, a).pc[t] == s.pc[t]
  {
    hide InsertAt, Without;
  }

  lemma SleeperStays(s: State, a: Act)
    requires a.Act? && a.t < |s.pc| && s.pc[a.t] in SLEEPERS
    ensures s.pc[a.t].timed && a.op == Expire ==> Step(s, a).pc[a.t] == ReClear
    ensures !(s.pc[a.t].timed && a.op == Expire) ==> Step(s, a) == s
  {
    hide Without;
  }

  lemma WakerWakes(s: State, a: Act, t: Tid)
    requires Inv(s) && t < |s.pc| && s.pc[t] in SLEEPERS && (a.Act? ==> a.t < |s.pc| && (s.pc[a.t].SigWake? || s.pc[a.t].BcWake?))
    ensures Step(s, a).pc[t] == if EndsSleep(s, a, t) then ReClear else s.pc[t]
  {
    assert t in s.c.sem.queue;
    if s.c.sem.queue != [] { assert s.c.sem.queue[..1] == [s.c.sem.queue[0]]; }
    hide InsertAt, Without, MutexExclusive, EventCovered;
  }

  /** In every reachable state a sleeper gets out exactly by its own timeout or by being woken
      in turn, and then is on its way back to the mutex. */
  lemma SleepEndsExactlyWhen(s: State, a: Act, t: Tid)
    requires Inv(s) && t < |s.pc| && s.pc[t] in SLEEPERS
    ensures Step(s, a).pc[t] == if EndsSleep(s, a, t) then ReClear else s.pc[t]
  {
    hide Inv, Step;
    if a.Interrupt? || (a.t < |s.pc| && (s.pc[a.t].SigWake? || s.pc[a.t].BcWake?)) {
      WakerWakes(s, a, t);
    } else if a.t < |s.pc| {
      if a.t == t { SleeperStays(s, a); } else { OthersStay(s, a, t); }
    } else {
      assert Step(s, a) == s by { OutsideStays(s, a); }
    }
  }

  lemma OutsideStays(s: State, a: Act)
    requires a.Act? && a.t >= |s.pc|
    ensures Step(s, a) == s
  {
  }

  lemma {:induction false} WithoutIs(q: seq<Tid>, t: Tid) returns (i: nat)
    requires t in q
    ensures i < |q| && q[i] == t && Without(q, t) == q[..i] + q[i + 1..]
  {
    if q[0] == t {
      i := 0;
    } else {
      var j := WithoutIs(q[1..], t);
      i := j + 1;
      assert q[..i] == [q[0]] + q[1..][..j];
    }
  }

  /** A timeout takes the waiter out of the queue, wherever it is, and touches nothing else. */
  lemma TimeoutLeavesTheQueue(s: State, t: Tid, k: nat) returns (i: nat)
    requires Inv(s) && t < |s.pc| && s.pc[t] == Asleep(true)
    ensures var q := s.c.sem.queue;
      && i < |q| && q[i] == t && t !in q[..i] + q[i + 1..]
      && Step(s, Act(t, Expire, k)) == State(s.c.(sem := s.c.sem.(queue := q[..i] + q[i + 1..])), s.pc[t := ReClear])
  {
    var q := s.c.sem.queue;
    assert t in q && NoDup(q);
    i := WithoutIs(q, t);
    hide Inv, Without;
    assert Step(s, Act(t, Expire, k)).pc == s.pc[t := ReClear];
  }

  /** Back from the semaphore, woken, timed out or alerted, a waiter needs two more steps to
      return with the mutex held, once that is free; it leaves `event` clear. */
  lemma WaiterReturns(s: State, t: Tid, op: Op, k: nat)
    requires t < |s.pc| && s.pc[t] == ReClear && !s.c.mutex
    ensures Run(s, [Act(t, op, k), Act(t, op, k)]) == State(s.c.(event := false, mutex := true), s.pc[t := Inside])
  {
    var a := Act(t, op, k);
    var m := Step(s, a);
    assert m == State(s.c.(event := false), s.pc[t := Relock]);
    assert Step(m, a) == State(s.c.(event := false, mutex := true), s.pc[t := Inside]);
    assert [a, a][1..] == [a] && [a][1..] == [];
    hide Step;
    assert Run(m, [a]) == Run(Step(m, a), []);
  }

  /** With an alert pending a waiter passes the semaphore by, and leaves it as it is. */
  lemma AlertPassesBy(s: State, t: Tid, k: nat)
    requires t < |s.pc| && s.pc[t].Wait?
    ensures Step(s, Act(t, Alert, k)) == State(s.c, s.pc[t := ReClear])
  {
    hide InsertAt;
  }

  // --- Where a wakeup is lost ---------------------------------------------------------------

  /** Committed waiters that stand between the mutex and the queue. */
  function Between(s: State): set<Tid> {
    set u: Tid | u < |s.pc| && s.pc[u] in COMMITTED - SLEEPERS
  }

  /** Waiters committed in s that have not been woken on the way to r. */
  function Unwoken(s: State, r: State): set<Tid> {
    set u: Tid | u < |s.pc| && u < |r.pc| && s.pc[u] in COMMITTED && r.pc[u] != ReClear
  }

  function Wakeups(m: Sem): nat {
    if m.nopending then 0 else 1
  }

  /** What a broadcast leaves: the queued are woken, those between the mutex and the queue
      are not, and a wakeup is pending exactly when nobody was queued. */
  lemma BroadcastLeaves(s: State, t: Tid, k: nat)
    requires Inv(s) && t < |s.pc| && s.pc[t].BcWake?
    ensures var r := Step(s, Act(t, Broadcast, k));
      && (forall u: Tid :: u < |s.pc| && s.pc[u] in SLEEPERS ==> r.pc[u] == ReClear)
      && Unwoken(s, r) == Between(s) && Wakeups(r.c.sem) == if s.c.sem.queue == [] then 1 else 0
  {
    var e := Exec(s.pc[t], s.c, t, Broadcast, k);
    assert e == Waking(Back(s.pc[t].inside), s.c, WakeAll(s.c.sem));
    assert Queued(s) && (s.c.sem.queue != [] ==> s.c.sem.nopending);
    hide Exec, Inv;
    var r := Step(s, Act(t, Broadcast, k));
    assert forall u: Tid :: u < |s.pc| ==> (s.pc[u] in SLEEPERS <==> u in s.c.sem.queue);
    forall u: Tid | u < |s.pc| && s.pc[u] in COMMITTED
      ensures r.pc[u] == if s.pc[u] in SLEEPERS then ReClear else s.pc[u]
    {
      assert u != t;
    }
  }

  /** The wakeups of a broadcast, those of the queued and the pending one, are as many as the
      committed waiters exactly when nobody stands between the mutex and the queue, or nobody
      is queued and one waiter at most stands there.  Who takes the pending one is another
      question: see ServedExactlyWhen. */
  lemma WakeupsSufficeExactlyWhen(s: State, t: Tid, k: nat)
    requires Inv(s) && t < |s.pc| && s.pc[t].BcWake?
    ensures var r := Step(s, Act(t, Broadcast, k));
      |Unwoken(s, r)| <= Wakeups(r.c.sem) <==> Between(s) == {} || (s.c.sem.queue == [] && |Between(s)| == 1)
  {
    hide Inv, Step, Between, Unwoken, Wakeups;
    BroadcastLeaves(s, t, k);
    assert Between(s) == {} <==> |Between(s)| == 0;
  }

  /** A thread comes to the semaphore to wait, without an alert that makes it pass by. */
  predicate Comes(s: State, a: Act) {
    a.Act? && a.t < |s.pc| && s.pc[a.t].Wait? && a.op != Alert
  }

  /** One that wakes: a signaller or broadcaster at its wake, or an interrupt. */
  predicate Rouses(s: State, a: Act) {
    a.Interrupt? || (a.t < |s.pc| && (s.pc[a.t].SigWake? || s.pc[a.t].BcWake?))
  }

  /** A pending wakeup is used up by the next thread that comes, whoever it is, and by
      nothing else. */
  lemma TakenExactlyWhen(s: State, a: Act)
    requires !s.c.sem.nopending
    ensures Step(s, a).c.sem.nopending <==> Comes(s, a)
    ensures Comes(s, a) ==> Step(s, a).pc[a.t] == ReClear && Step(s, a).c.sem.queue == s.c.sem.queue
  {
    hide InsertAt, Without;
  }

  /** And without one, none comes to be pending but by a wake. */
  lemma PendingByRousing(s: State, a: Act)
    requires s.c.sem.nopending && !Rouses(s, a)
    ensures Step(s, a).c.sem.nopending
  {
    hide InsertAt, Without;
  }

  /** The place in a run of the first act with which a thread comes. */
  function FirstToCome(s: State, acts: seq<Act>): (i: nat)
    ensures i <= |acts|
    decreases |acts|
  {
    if acts == [] || Comes(s, acts[0]) then 0 else 1 + FirstToCome(Step(s, acts[0]), acts[1..])
  }

  lemma RunOn(s: State, acts: seq<Act>, j: nat)
    requires acts != [] && 0 < j <= |acts|
    ensures Run(s, acts[..j]) == Run(Step(s, acts[0]), acts[1..][..j - 1])
  {
    assert acts[..j][1..] == acts[1..][..j - 1];
  }

  /** In every run, whatever else happens in it: a pending wakeup stays until the first
      thread comes, and is that thread's. */
  lemma {:induction false} TheFirstToComeTakesTheWakeup(s: State, acts: seq<Act>)
    requires !s.c.sem.nopending
    ensures var i := FirstToCome(s, acts);
      && (forall j: nat :: j <= i ==> !Run(s, acts[..j]).c.sem.nopending)
      && (forall j: nat :: j < i ==> !Comes(Run(s, acts[..j]), acts[j]))
      && (i < |acts| ==>
            var m := Run(s, acts[..i]);
            Comes(m, acts[i]) && Step(m, acts[i]).c.sem.nopending && Step(m, acts[i]).pc[acts[i].t] == ReClear)
    decreases |acts|
  {
    if acts != [] {
      TakenExactlyWhen(s, acts[0]);
      if !Comes(s, acts[0]) {
        var r := Step(s, acts[0]);
        TheFirstToComeTakesTheWakeup(r, acts[1..]);
        hide Step, Comes;
        var i := FirstToCome(s, acts);
        forall j: nat | j <= i
          ensures !Run(s, acts[..j]).c.sem.nopending
          ensures j < i ==> !Comes(Run(s, acts[..j]), acts[j])
        {
          if j > 0 { RunOn(s, acts, j); } else { assert acts[..j] == []; }
        }
        if i < |acts| { RunOn(s, acts, i); }
      } else {
        assert acts[..0] == [];
      }
    }
  }

  predicate NobodyComes(s: State, acts: seq<Act>)
    decreases |acts|
  {
    acts == [] || (!Comes(s, acts[0]) && NobodyComes(Step(s, acts[0]), acts[1..]))
  }

  predicate NobodyRouses(s: State, acts: seq<Act>)
    decreases |acts|
  {
    acts == [] || (!Rouses(s, acts[0]) && NobodyRouses(Step(s, acts[0]), acts[1..]))
  }

  /** Over a run in which nobody wakes, a wakeup is pending at the end exactly when it was at
      the start and nobody has come. */
  lemma {:induction false} PendingExactlyWhen(s: State, acts: seq<Act>)
    requires NobodyRouses(s, acts)
    ensures !Run(s, acts).c.sem.nopending <==> !s.c.sem.nopending && NobodyComes(s, acts)
    decreases |acts|
  {
    if acts != [] {
      if s.c.sem.nopending { PendingByRousing(s, acts[0]); } else { TakenExactlyWhen(s, acts[0]); }
      hide Step, Comes, Rouses;
      PendingExactlyWhen(Step(s, acts[0]), acts[1..]);
    }
  }

  /** What a broadcast does for a waiter u.  If queued, u is woken.  If u comes to the
      semaphore only afterwards, before anybody else wakes, u goes through exactly when
      nobody was queued at the broadcast and u is the first to come since; else u sleeps,
      or its time is over. */
  lemma ServedExactlyWhen(s: State, t: Tid, k: nat, acts: seq<Act>, u: Tid, op: Op, l: nat)
    requires Inv(s) && t < |s.pc| && s.pc[t].BcWake?
    ensures var r := Step(s, Act(t, Broadcast, k)); var m, a := Run(r, acts), Act(u, op, l);
      && (u < |s.pc| && s.pc[u] in SLEEPERS ==> r.pc[u] == ReClear)
      && (NobodyRouses(r, acts) && Comes(m, a) ==>
            && (!m.c.sem.nopending <==> s.c.sem.queue == [] && NobodyComes(r, acts))
            && Step(m, a).pc[u] == if !m.c.sem.nopending || (m.pc[u].timed && op == Expire) then ReClear else Asleep(m.pc[u].timed))
  {
    BroadcastLeaves(s, t, k);
    var r := Step(s, Act(t, Broadcast, k));
    hide Inv, NobodyComes, NobodyRouses, Run, InsertAt;
    if NobodyRouses(r, acts) { PendingExactlyWhen(r, acts); }
  }

  lemma RunCat(s: State, acts: seq<Act>, more: seq<Act>)
    ensures Run(s, acts + more) == Run(Run(s, acts), more)
    decreases |acts|
  {
    if acts == [] {
      assert acts + more == more;
    } else {
      assert (acts + more)[1..] == acts[1..] + more;
      RunCat(Step(s, acts[0]), acts[1..], more);
    }
  }

  ghost predicate Reaches(s: State, r: State) {
    exists acts :: Run(s, acts) == r
  }

  /** Runs thread t one step further, to q, where it wakes nobody. */
  lemma Next(s: State, m: State, t: Tid, op: Op, q: Pc, c: Cv) returns (r: State)
    requires Reaches(s, m) && t < |m.pc| && Exec(m.pc[t], m.c, t, op, 0) == Go(q, c)
    ensures r == State(c, m.pc[t := q]) && Reaches(s, r)
  {
    hide Exec;
    var a := Act(t, op, 0);
    r := Step(m, a);
    assert Scatter(m.pc, t, q, [], ReClear) == m.pc[t := q];
    var acts :| Run(s, acts) == m;
    RunCat(s, acts, [a]);
    assert Run(m, [a]) == Run(r, []);
    assert Run(s, acts + [a]) == r;
  }

  lemma Stay(s: State)
    ensures Reaches(s, s)
  {
    assert Run(s, []) == s;
  }

  /** The timed wait releases the mutex before it clears `event`, so a signal sent in
      between, by a thread that holds the mutex, is absorbed; the waiter then sleeps. */
  lemma TimedWaitLosesASignal()
    ensures var m := State(Cv(true, true, EMPTY), [TPreClear, SigTest(true)]);
      && Reaches(Init(2), m)
      && Reaches(m, State(Cv(false, false, Sem([0], true)), [Asleep(true), Idle]))
  {
    hide Step, Reaches;
    var s := Init(2);
    Stay(s);
    var m := Next(s, s, 0, Lock, Inside, s.c.(mutex := true));
    m := Next(s, m, 0, TimedWaitOn, TRelease, m.c);
    m := Next(s, m, 0, Lock, TPreClear, s.c);
    m := Next(s, m, 1, Lock, Inside, s.c.(mutex := true));
    m := Next(s, m, 1, Signal, SigTest(true), m.c);
    assert m.pc == [TPreClear, SigTest(true)];
    Stay(m);
    var r := Next(m, m, 1, Signal, Inside, m.c);
    r := Next(m, r, 1, Unlock, Idle, s.c);
    r := Next(m, r, 0, Lock, Wait(true), s.c.(event := false));
    r := Next(m, r, 0, Lock, Asleep(true), Cv(false, false, Sem([0], true)));
    assert r.pc == [Asleep(true), Idle];
  }

  lemma TwoWaitersAndABroadcaster()
    ensures Reaches(Init(3), State(Cv(false, true, Sem([0], true)), [Asleep(false), Wait(false), BcTest(true)]))
  {
    hide Step, Reaches;
    var s := Init(3);
    var clear := s.c.(event := false);
    Stay(s);
    var m := Next(s, s, 0, Lock, Inside, s.c.(mutex := true));
    m := Next(s, m, 0, WaitOn, PreClear, m.c);
    m := Next(s, m, 0, WaitOn, Release, m.c.(event := false));
    m := Next(s, m, 0, WaitOn, Wait(false), clear);
    m := Next(s, m, 0, WaitOn, Asleep(false), clear.(sem := Sem([0], true)));
    var quiet := m.c;
    m := Next(s, m, 1, Lock, Inside, quiet.(mutex := true));
    m := Next(s, m, 1, WaitOn, PreClear, m.c);
    m := Next(s, m, 1, WaitOn, Release, m.c);
    m := Next(s, m, 1, WaitOn, Wait(false), quiet);
    m := Next(s, m, 2, Lock, Inside, quiet.(mutex := true));
    m := Next(s, m, 2, Broadcast, BcTest(true), m.c);
    assert m.pc == [Asleep(false), Wait(false), BcTest(true)];
  }

  lemma BroadcasterWakesTheQueued()
    ensures Reaches(State(Cv(false, true, Sem([0], true)), [Asleep(false), Wait(false), BcTest(true)]),
      State(Cv(true, true, EMPTY), [ReClear, Wait(false), SigTest(true)]))
  {
    hide Reaches, Run;
    var s := State(Cv(false, true, Sem([0], true)), [Asleep(false), Wait(false), BcTest(true)]);
    Stay(s);
    var m := Next(s, s, 2, Broadcast, BcWake(true), s.c.(event := true));
    var a := Act(2, Broadcast, 0);
    assert m.pc == [Asleep(false), Wait(false), Inside][2 := BcWake(true)];
    BroadcastWakes(m.c, [Asleep(false), Wait(false), Inside], 2, true);
    NextAct(s, m, a);
    m := Step(m, a);
    assert m.pc == [ReClear, Wait(false), Inside];
    m := Next(s, m, 2, Signal, SigTest(true), m.c);
    assert m.pc == [ReClear, Wait(false), SigTest(true)];
  }

  lemma NextAct(s: State, m: State, a: Act)
    requires Reaches(s, m)
    ensures Reaches(s, Step(m, a))
  {
    hide Step;
    var acts :| Run(s, acts) == m;
    RunCat(s, acts, [a]);
    assert Run(m, [a]) == Run(Step(m, a), []);
    assert Run(s, acts + [a]) == Step(m, a);
  }

  lemma SignallerIsAbsorbed()
    ensures Reaches(State(Cv(true, true, EMPTY), [ReClear, Wait(false), SigTest(true)]),
      State(Cv(false, true, Sem([1], true)), [Inside, Asleep(false), Idle]))
  {
    hide Step, Reaches;
    var s := State(Cv(true, true, EMPTY), [ReClear, Wait(false), SigTest(true)]);
    Stay(s);
    var m := Next(s, s, 2, Signal, Inside, s.c);
    m := Next(s, m, 2, Unlock, Idle, s.c.(mutex := false));
    m := Next(s, m, 0, Lock, Relock, m.c.(event := false));
    m := Next(s, m, 0, Lock, Inside, m.c.(mutex := true));
    m := Next(s, m, 1, Lock, Asleep(false), m.c.(sem := Sem([1], true)));
    assert m.pc == [Inside, Asleep(false), Idle];
  }

  /** Even a plain wait can miss a broadcast and a signal, both sent after it had
      released the mutex and by a thread that held it: the broadcast wakes only
      the queued, and the signal is absorbed until one of them clears `event`. */
  lemma BroadcastAndSignalPassAWaiterOver()
    ensures var m := State(Cv(false, true, Sem([0], true)), [Asleep(false), Wait(false), BcTest(true)]);
      var q := State(Cv(true, true, EMPTY), [ReClear, Wait(false), SigTest(true)]);
      && Reaches(Init(3), m) && Reaches(m, q)
      && Reaches(q, State(Cv(false, true, Sem([1], true)), [Inside, Asleep(false), Idle]))
  {
    TwoWaitersAndABroadcaster();
    BroadcasterWakesTheQueued();
    SignallerIsAbsorbed();
  }

  /** Two waiters have released the mutex and are not queued yet; another thread, holding the
      mutex, has begun to broadcast. */
  lemma TwoBetweenAndABroadcaster()
    ensures Reaches(Init(3), State(Cv(true, true, EMPTY), [Wait(false), Wait(false), BcWake(true)]))
  {
    hide Step, Reaches;
    var s := Init(3);
    var clear := s.c.(event := false);
    Stay(s);
    var m := Next(s, s, 0, Lock, Inside, s.c.(mutex := true));
    m := Next(s, m, 0, WaitOn, PreClear, m.c);
    m := Next(s, m, 0, WaitOn, Release, m.c.(event := false));
    m := Next(s, m, 0, WaitOn, Wait(false), clear);
    m := Next(s, m, 1, Lock, Inside, clear.(mutex := true));
    m := Next(s, m, 1, WaitOn, PreClear, m.c);
    m := Next(s, m, 1, WaitOn, Release, m.c);
    m := Next(s, m, 1, WaitOn, Wait(false), clear);
    m := Next(s, m, 2, Lock, Inside, clear.(mutex := true));
    m := Next(s, m, 2, Broadcast, BcTest(true), m.c);
    m := Next(s, m, 2, Broadcast, BcWake(true), m.c.(event := true));
    assert m.pc == [Wait(false), Wait(false), BcWake(true)];
  }

  /** The one wakeup that a broadcast leaves serves one of two waiters; the other sleeps. */
  lemma TwoWaitersShareOneWakeup()
    ensures var m := State(Cv(true, true, EMPTY), [Wait(false), Wait(false), BcWake(true)]);
      && Reaches(Init(3), m)
      && Reaches(m, State(Cv(false, true, Sem([1], true)), [Inside, Asleep(false), Idle]))
  {
    hide Step, Reaches;
    TwoBetweenAndABroadcaster();
    var s := State(Cv(true, true, EMPTY), [Wait(false), Wait(false), BcWake(true)]);
    Stay(s);
    var m := Next(s, s, 2, Broadcast, Inside, s.c.(sem := Sem([], false)));
    m := Next(s, m, 2, Unlock, Idle, m.c.(mutex := false));
    m := Next(s, m, 0, Lock, ReClear, m.c.(sem := EMPTY));
    m := Next(s, m, 0, Lock, Relock, m.c.(event := false));
    m := Next(s, m, 0, Lock, Inside, m.c.(mutex := true));
    m := Next(s, m, 1, Lock, Asleep(false), m.c.(sem := Sem([1], true)));
    assert m.pc == [Inside, Asleep(false), Idle];
  }

  lemma OneBetween()
    ensures Reaches(Init(2), State(Cv(false, false, EMPTY), [Wait(false), Idle]))
  {
    hide Step, Reaches;
    var s := Init(2);
    Stay(s);
    var m := Next(s, s, 0, Lock, Inside, s.c.(mutex := true));
    m := Next(s, m, 0, WaitOn, PreClear, m.c);
    m := Next(s, m, 0, WaitOn, Release, m.c.(event := false));
    m := Next(s, m, 0, WaitOn, Wait(false), m.c.(mutex := false));
    assert m.pc == [Wait(false), Idle];
  }

  lemma OneBetweenAndAWakeup()
    ensures Reaches(Init(2), State(Cv(false, false, Sem([], false)), [Wait(false), Idle]))
  {
    hide Step, Reaches;
    OneBetween();
    var s, c := Init(2), Cv(false, false, EMPTY);
    var m := State(c, [Wait(false), Idle]);
    m := Next(s, m, 1, Signal, SigTest(false), c);
    m := Next(s, m, 1, Signal, SigUnset(false), c.(event := true));
    m := Next(s, m, 1, Signal, SigWake(false), c);
    m := Next(s, m, 1, Signal, Idle, c.(sem := Sem([], false)));
    assert m.pc == [Wait(false), Idle];
  }

  /** Nor is a signal's wakeup kept for a waiter that was there: one who comes later can take it. */
  lemma ALatecomerTakesTheWakeup()
    ensures var m := State(Cv(false, false, Sem([], false)), [Wait(false), Idle]);
      && Reaches(Init(2), m)
      && Reaches(m, State(Cv(false, true, Sem([0], true)), [Asleep(false), Inside]))
  {
    hide Step, Reaches;
    OneBetweenAndAWakeup();
    var m := State(Cv(false, false, Sem([], false)), [Wait(false), Idle]);
    Stay(m);
    var r := Next(m, m, 1, Lock, Inside, m.c.(mutex := true));
    r := Next(m, r, 1, WaitOn, PreClear, r.c);
    r := Next(m, r, 1, WaitOn, Release, r.c);
    r := Next(m, r, 1, WaitOn, Wait(false), r.c.(mutex := false));
    r := Next(m, r, 1, WaitOn, ReClear, r.c.(sem := EMPTY));
    r := Next(m, r, 1, Lock, Relock, r.c);
    r := Next(m, r, 1, Lock, Inside, r.c.(mutex := true));
    r := Next(m, r, 0, WaitOn, Asleep(false), r.c.(sem := Sem([0], true)));
    assert r.pc == [Asleep(false), Inside];
  }

  lemma OneBetweenAndABroadcaster()
    ensures Reaches(Init(3), State(Cv(true, true, EMPTY), [Wait(false), BcWake(true), Idle]))
  {
    hide Step, Reaches;
    var s := Init(3);
    Stay(s);
    var m := Next(s, s, 0, Lock, Inside, s.c.(mutex := true));
    m := Next(s, m, 0, WaitOn, PreClear, m.c);
    m := Next(s, m, 0, WaitOn, Release, m.c.(event := false));
    m := Next(s, m, 0, WaitOn, Wait(false), m.c.(mutex := false));
    m := Next(s, m, 1, Lock, Inside, m.c.(mutex := true));
    m := Next(s, m, 1, Broadcast, BcTest(true), m.c);
    m := Next(s, m, 1, Broadcast, BcWake(true), m.c.(event := true));
    assert m.pc == [Wait(false), BcWake(true), Idle];
  }

  lemma LatecomerFirst()
    ensures Reaches(State(Cv(true, true, Sem([], false)), [Wait(false), Idle, Inside]),
      State(Cv(false, true, Sem([0], true)), [Asleep(false), Idle, Inside]))
  {
    hide Step, Reaches;
    var s := State(Cv(true, true, Sem([], false)), [Wait(false), Idle, Inside]);
    var clear := Cv(false, false, Sem([], false));
    Stay(s);
    var m := Next(s, s, 2, WaitOn, PreClear, s.c);
    m := Next(s, m, 2, WaitOn, Release, clear.(mutex := true));
    m := Next(s, m, 2, WaitOn, Wait(false), clear);
    m := Next(s, m, 2, WaitOn, ReClear, clear.(sem := EMPTY));
    m := Next(s, m, 2, Lock, Relock, m.c);
    m := Next(s, m, 2, Lock, Inside, m.c.(mutex := true));
    m := Next(s, m, 0, WaitOn, Asleep(false), m.c.(sem := Sem([0], true)));
    assert m.pc == [Asleep(false), Idle, Inside];
  }

  /** So a broadcast, sent with the mutex held, can pass over the only waiter there was. */
  lemma ALatecomerTakesTheBroadcast()
    ensures var m := State(Cv(true, true, EMPTY), [Wait(false), BcWake(true), Idle]);
      && Reaches(Init(3), m)
      && Reaches(m, State(Cv(false, true, Sem([0], true)), [Asleep(false), Idle, Inside]))
  {
    hide Step, Reaches;
    OneBetweenAndABroadcaster();
    var s := State(Cv(true, true, EMPTY), [Wait(false), BcWake(true), Idle]);
    Stay(s);
    var m := Next(s, s, 1, Broadcast, Inside, s.c.(sem := Sem([], false)));
    m := Next(s, m, 1, Unlock, Idle, m.c.(mutex := false));
    m := Next(s, m, 2, Lock, Inside, m.c.(mutex := true));
    assert m.pc == [Wait(false), Idle, Inside];
    LatecomerFirst();
    ReachesOn(s, m, State(Cv(false, true, Sem([0], true)), [Asleep(false), Idle, Inside]));
  }

  lemma ReachesOn(s: State, m: State, r: State)
    requires Reaches(s, m) && Reaches(m, r)
    ensures Reaches(s, r)
  {
    var a :| Run(s, a) == m;
    var b :| Run(m, b) == r;
    RunCat(s, a, b);
  }

  // --- The code ----------------------------------------------------------------------------

  /** Where a thread alone, standing at p, is after three more steps. */
  function Three(p: Pc, c: Cv, t: Tid, op: Op, k: nat): Effect {
    var e := Exec(p, c, t, op, k);
    var f := Exec(e.next, e.c, t, op, k);
    var g := Exec(f.next, f.c, t, op, k);
    Effect(g.next, g.c, e.woken + f.woken + g.woken)
  }

  /** The condition variable structure and the mutex beside it.  Each method is the
      source text run by one thread with nobody else scheduled. */
  class CvObject {
    var event: bool
    var mutex: bool
    var sem: Sem

    function C(): Cv
      reads this
    {
      Cv(event, mutex, sem)
    }

    constructor ()
      ensures C() == Init(0).c
    {
      event, mutex, sem := true, false, EMPTY;
    }

    /** Wakes the first waiter when there might be one; `event` is as before. */
    method Signal(t: Tid, inside: bool) returns (woken: seq<Tid>)
      modifies this`event, this`sem
      ensures event == old(event)
      ensures old(event) ==> Exec(SigTest(inside), old(C()), t, Op.Signal, 0) == Effect(Back(inside), C(), woken)
      ensures !old(event) ==> Three(SigTest(inside), old(C()), t, Op.Signal, 0) == Effect(Back(inside), C(), woken)
      ensures (sem, woken) == if old(event) then (old(sem), []) else WakeOne(old(sem))
    {
      woken := [];
      if !event {
        event := true;
        event := false;
        if sem.queue != [] {
          woken := sem.queue[..1];
          sem := sem.(queue := sem.queue[1..]);
        } else {
          sem := sem.(nopending := false);
        }
      }
    }

    /** Wakes all waiters, in queue order, when there might be any. */
    method Broadcast(t: Tid, inside: bool) returns (woken: seq<Tid>)
      modifies this`event, this`sem
      ensures event
      ensures old(event) ==> Exec(BcTest(inside), old(C()), t, Op.Broadcast, 0) == Effect(Back(inside), C(), woken)
      ensures !old(event) ==> Exec(BcWake(inside), old(C()).(event := true), t, Op.Broadcast, 0) == Effect(Back(inside), C(), woken)
      ensures (sem, woken) == if old(event) then (old(sem), []) else WakeAll(old(sem))
    {
      woken := [];
      if !event {
        event := true;
        if sem.queue != [] {
          var q := sem.queue;
          sem := sem.(queue := []);
          while q != []
            invariant woken + q == old(sem).queue
            decreases |q|
          {
            assert woken + q == woken + q[..1] + q[1..];
            woken, q := woken + q[..1], q[1..];
          }
        } else {
          sem := sem.(nopending := false);
        }
      }
    }

    /** Waits: clears `event`, releases the mutex and joins the queue, unless an
        alert is pending or a wakeup is. */
    method Wait(t: Tid, alert: bool, k: nat) returns (blocked: bool)
      requires mutex
      modifies this
      ensures Three(PreClear, old(C()), t, if alert then Op.Alert else Op.WaitOn, k)
        == Effect(if blocked then Asleep(false) else ReClear, C(), [])
      ensures !event && !mutex && blocked == (!alert && old(sem).nopending)
      ensures sem == if blocked then old(sem).(queue := InsertAt(old(sem).queue, k, t))
                     else old(sem).(nopending := old(sem).nopending || !alert)
    {
      event := false;
      mutex := false;
      blocked := false;
      if !alert {
        if sem.nopending {
          sem := sem.(queue := InsertAt(sem.queue, k, t));
          blocked := true;
        } else {
          sem := sem.(nopending := true);
        }
      }
    }

    /** Waits for a time, releasing the mutex first. */
    method TimedWait(t: Tid, op: Op, k: nat) returns (blocked: bool)
      requires mutex && op in {Alert, Expire, TimedWaitOn}
      modifies this
      ensures Three(TRelease, old(C()), t, op, k) == Effect(if blocked then Asleep(true) else ReClear, C(), [])
      ensures !event && !mutex && blocked == (op == TimedWaitOn && old(sem).nopending)
      ensures sem == if blocked then old(sem).(queue := InsertAt(old(sem).queue, k, t))
                     else old(sem).(nopending := old(sem).nopending || op != Alert)
    {
      mutex := false;
      event := false;
      blocked := false;
      if op != Alert {
        if !sem.nopending {
          sem := sem.(nopending := true);
        } else if op == TimedWaitOn {
          sem := sem.(queue := InsertAt(sem.queue, k, t));
          blocked := true;
        }
      }
    }
  }
}
