/** Runs of three threads, the null thread, the initial thread and one more, that reach the
    states in which the scheduler does what it should not. */
module SchedulingCases {
  import opened Semaphore
  import opened SchedOrder
  import opened Lists
  import opened Dispatcher
  import opened Processor
  import opened Scheduling

  /** The list of the threads at one place, when there is one at most. */
  function At(place: seq<Place>, i: nat): seq<Tid>
    requires |place| == 3
  {
    if place[0] == In(i) then [0] else if place[1] == In(i) then [1] else if place[2] == In(i) then [2] else []
  }

  /** Where the three threads are, no two in one list; and nothing else is going on. */
  ghost predicate Scene(cfg: seq<Info>, k: Kern, place: seq<Place>, next: nat, cur: Tid) {
    && Shape(cfg, k) && |cfg| == 3 && |place| == 3
    && k.l.place == place && k.next == next && k.cur == cur
    && |k.l.q| == LAST + 2 && (forall i: nat {:trigger k.l.q[i]} :: i < |k.l.q| ==> k.l.q[i] == At(place, i))
    && k.qnum == [1, 1, 1] && k.onHold == [false, false, false] && k.nopending == [true, true] && k.deferred == []
  }

  lemma {:induction false} TopIs(q: seq<seq<Tid>>, n: nat, m: nat)
    requires m <= n < |q| && q[m] != [] && forall i: nat :: m < i <= n ==> q[i] == []
    ensures Top(q, n) == m
    decreases n
  {
    if n > m { TopIs(q, n - 1, m); }
  }

  lemma AloneIn(t: Tid)
    ensures InsertAt([], 0, t) == [t] && [t][1..] == []
  {
  }

  /** A thread readied onto an empty list. */
  lemma ReadyScene(cfg: seq<Info>, k: Kern, place: seq<Place>, next: nat, cur: Tid, t: Tid)
    requires Scene(cfg, k, place, next, cur) && t < 3 && !place[t].In?
    requires At(place, Home(cfg, k, t)) == []
    ensures var n := Home(cfg, k, t);
      Scene(cfg, Ready(cfg, k, t, false), place[t := In(n)], if n > next then n else next, cur)
  {
    var n, r := Home(cfg, k, t), Ready(cfg, k, t, false);
    AloneIn(t);
    assert k.l.q[n] == [];
    assert r.l.q == k.l.q[n := [t]];
  }

  /** The dispatcher takes the only thread of the highest list. */
  lemma DispatchScene(cfg: seq<Info>, k: Kern, place: seq<Place>, next: nat, cur: Tid, n: nat, t: Tid)
    requires Scene(cfg, k, place, next, cur) && t < 3 && place[t] == In(n) && n <= next
    requires At(place, n) == [t] && forall u: nat :: u < 3 && u != t ==> place[u] != In(n)
    requires forall i: nat :: n < i <= next ==> At(place, i) == []
    ensures Scene(cfg, Dispatch(cfg, k), place[t := Running], n, t)
  {
    assert k.l.q[n] == [t];
    forall i: nat | n < i <= next ensures k.l.q[i] == [] { assert k.l.q[i] == At(place, i); }
    TopIs(k.l.q, next, n);
    AloneIn(t);
    var r := Dispatch(cfg, k);
    assert r.l.q == k.l.q[n := []];
  }

  /** The running thread blocks on a semaphore that nobody waits for. */
  lemma BlockedScene(cfg: seq<Info>, k: Kern, place: seq<Place>, next: nat, cur: Tid, j: nat)
    requires Scene(cfg, k, place, next, cur) && j < 2 && At(place, LAST + j) == [] && cur < 3 && !place[cur].In?
    ensures Scene(cfg, Blocked(cfg, k, j), place[cur := In(LAST + j)], next, cur)
  {
    var r := Blocked(cfg, k, j);
    AloneIn(cur);
    assert k.l.q[LAST + j] == [];
    assert r.l.q == k.l.q[LAST + j := [cur]];
  }

  lemma SceneFacts(cfg: seq<Info>, k: Kern, place: seq<Place>, next: nat, cur: Tid)
    requires Scene(cfg, k, place, next, cur)
    ensures Shape(cfg, k) && k.cur == cur && cur < 3 && k.l.place == place && |cfg| == 3 && Drain(cfg, k) == k && k.nopending == [true, true]
    ensures k.onHold == [false, false, false] && |k.l.q| == LAST + 2
    ensures forall t: Tid :: t < 3 ==> Home(cfg, k, t) == match cfg[t].cls case Rt => RT_LIST case Idle => 0 case _ => 1
  {
  }

  // --- A real-time thread that waits while the initial thread runs -------------------------------------

  const RT3: seq<Info> := [Info(Idle, 0, false), Info(Fore, 0, false), Info(Rt, 0, true)]

  lemma InitScene(cfg: seq<Info>)
    requires |cfg| == 3
    ensures var s := Init(cfg, 1);
      && Fits(cfg, s) && Scene(cfg, s.k, [In(0), Running, Unborn], 0, INITIAL)
      && s.life == Life([false, false, false], [0, 0, 0], 2, false, false)
  {
    var s := Init(cfg, 1);
    assert s.k.l.place == [In(0), Running, Unborn];
  }

  lemma CreateScene(cfg: seq<Info>, s: State)
    requires Fits(cfg, s) && Scene(cfg, s.k, [In(0), Running, Unborn], 0, INITIAL)
    requires s.life == Life([false, false, false], [0, 0, 0], 2, false, false)
    ensures var r := Step(cfg, s, Create(2));
      && Scene(cfg, r.k, [In(0), Running, Fresh], 0, INITIAL)
      && r.life == Life([false, false, false], [0, 0, 0], 3, false, false)
  {
    assert [In(0), Running, Unborn][2 := Fresh] == [In(0), Running, Fresh];
  }

  lemma RtReadied(k: Kern)
    requires Scene(RT3, k, [In(0), Running, Fresh], 0, INITIAL)
    ensures Shape(RT3, k)
    ensures Scene(RT3, Ready(RT3, k, 2, false), [In(0), Running, In(RT_LIST)], RT_LIST, INITIAL)
  {
    SceneFacts(RT3, k, [In(0), Running, Fresh], 0, INITIAL);
    hide Scene, Ready, Home;
    ReadyScene(RT3, k, [In(0), Running, Fresh], 0, INITIAL, 2);
    assert [In(0), Running, Fresh][2 := In(RT_LIST)] == [In(0), Running, In(RT_LIST)];
  }

  lemma RtYields(k: Kern)
    requires Scene(RT3, k, [In(0), Running, In(RT_LIST)], RT_LIST, INITIAL)
    ensures Shape(RT3, k)
    ensures Scene(RT3, Dispatch(RT3, Ready(RT3, k, INITIAL, false)), [In(0), In(1), Running], RT_LIST, 2)
  {
    SceneFacts(RT3, k, [In(0), Running, In(RT_LIST)], RT_LIST, INITIAL);
    hide Scene, Ready, Home, Dispatch;
    ReadyScene(RT3, k, [In(0), Running, In(RT_LIST)], RT_LIST, INITIAL, INITIAL);
    assert [In(0), Running, In(RT_LIST)][1 := In(1)] == [In(0), In(1), In(RT_LIST)];
    DispatchScene(RT3, Ready(RT3, k, INITIAL, false), [In(0), In(1), In(RT_LIST)], RT_LIST, INITIAL, RT_LIST, 2);
    assert [In(0), In(1), In(RT_LIST)][2 := Running] == [In(0), In(1), Running];
  }

  lemma RtTakes(k: Kern)
    requires Scene(RT3, k, [In(0), Running, In(RT_LIST)], RT_LIST, INITIAL)
    ensures Shape(RT3, k) && Scene(RT3, TryRun(RT3, k, 2), [In(0), In(1), Running], RT_LIST, 2)
  {
    SceneFacts(RT3, k, [In(0), Running, In(RT_LIST)], RT_LIST, INITIAL);
    RtYields(k);
    hide Scene, Ready, Dispatch, Drain;
    assert WouldRun(RT3, k, 2);
  }

  lemma StartIs(cfg: seq<Info>, s: State)
    requires Fits(cfg, s) && |cfg| == 3 && s.k.l.place[2] == Fresh && s.k.cur == INITIAL && !s.life.leaving && !s.life.exited
    ensures var r := Step(cfg, s, Start(2)); r.k == TryRun(cfg, Ready(cfg, s.k, 2, false), 2) && r.life == s.life
  {
    hide Ready, TryRun;
  }

  /** The real-time thread starts and takes the processor. */
  lemma RtStarts(s: State)
    requires Fits(RT3, s) && Scene(RT3, s.k, [In(0), Running, Fresh], 0, INITIAL)
    requires s.life == Life([false, false, false], [0, 0, 0], 3, false, false)
    ensures var r := Step(RT3, s, Start(2));
      && Scene(RT3, r.k, [In(0), In(1), Running], RT_LIST, 2) && r.life == s.life
  {
    SceneFacts(RT3, s.k, [In(0), Running, Fresh], 0, INITIAL);
    hide Scene, Ready, TryRun, Step;
    StartIs(RT3, s);
    RtReadied(s.k);
    RtTakes(Ready(RT3, s.k, 2, false));
  }

  lemma RtBlocks(k: Kern)
    requires Scene(RT3, k, [In(0), In(1), Running], RT_LIST, 2)
    ensures Shape(RT3, k) && k.nopending == [true, true] && k.cur == 2
    ensures Scene(RT3, Block(RT3, k, 1), [In(0), Running, In(LAST + 1)], 1, INITIAL)
  {
    var place := [In(0), In(1), Running];
    SceneFacts(RT3, k, place, RT_LIST, 2);
    hide Scene, Blocked, Dispatch;
    BlockedScene(RT3, k, place, RT_LIST, 2, 1);
    assert place[2 := In(LAST + 1)] == [In(0), In(1), In(LAST + 1)];
    DispatchScene(RT3, Blocked(RT3, k, 1), [In(0), In(1), In(LAST + 1)], RT_LIST, 2, 1, INITIAL);
    assert [In(0), In(1), In(LAST + 1)][1 := Running] == [In(0), Running, In(LAST + 1)];
  }

  /** ... and waits, and the initial thread runs again. */
  lemma RtWaits(s: State)
    requires Fits(RT3, s) && Scene(RT3, s.k, [In(0), In(1), Running], RT_LIST, 2)
    requires s.life == Life([false, false, false], [0, 0, 0], 3, false, false)
    ensures var r := Step(RT3, s, Processor.Wait(1));
      && Scene(RT3, r.k, [In(0), Running, In(LAST + 1)], 1, INITIAL) && r.life == s.life
  {
    RtBlocks(s.k);
    hide Scene, Block;
  }

  lemma Run3(cfg: seq<Info>, s: State, a: Act, b: Act, c: Act)
    requires Fits(cfg, s)
    ensures Run(cfg, s, [a, b, c]) == Step(cfg, Step(cfg, Step(cfg, s, a), b), c)
  {
    assert [a, b, c][1..] == [b, c] && [b, c][1..] == [c] && [c][1..] == [];
    hide Step;
    var s1 := Step(cfg, s, a);
    var s2 := Step(cfg, s1, b);
    assert Run(cfg, Step(cfg, s2, c), []) == Step(cfg, s2, c);
    assert Run(cfg, s2, [c]) == Run(cfg, Step(cfg, s2, c), []);
    assert Run(cfg, s1, [b, c]) == Run(cfg, s2, [c]);
  }

  const RT_RUN: seq<Act> := [Create(2), Start(2), Processor.Wait(1)]

  lemma RtScene()
    ensures |RT3| > 1 && Fits(RT3, Init(RT3, 1))
    ensures var r := Run(RT3, Init(RT3, 1), RT_RUN);
      !r.life.exited && Scene(RT3, r.k, [In(0), Running, In(LAST + 1)], 1, INITIAL)
  {
    var s := Init(RT3, 1);
    InitScene(RT3);
    hide Scene, Step, Init;
    CreateScene(RT3, s);
    RtStarts(Step(RT3, s, Create(2)));
    RtWaits(Step(RT3, Step(RT3, s, Create(2)), Start(2)));
    Run3(RT3, s, Create(2), Start(2), Processor.Wait(1));
  }

  lemma RtInv()
    ensures |RT3| > 1 && Fits(RT3, Init(RT3, 1))
    ensures var r := Run(RT3, Init(RT3, 1), RT_RUN); !r.life.exited ==> Live(RT3, r) && NobodyPassed(RT3, r.k)
  {
    InitInv(RT3, 1);
    var s := Init(RT3, 1);
    assert NobodyPassed(RT3, s.k) by { assert forall t: Tid :: t < 3 ==> s.k.l.place[t] != In(RT_LIST); }
    assert RtStrict(RT3);
    assert forall i :: 0 <= i < |RT_RUN| ==> !RT_RUN[i].Expire?;
    hide Live, NobodyPassed, Init, Run;
    RunInv(RT3, s, RT_RUN);
    RunPassesNobody(RT3, s, RT_RUN);
  }

  /** When the timer of a waiting real-time thread expires, that is ready and passed over. */
  lemma AnExpiryPassesSomebodyOver()
    ensures |RT3| > 1 && Fits(RT3, Init(RT3, 1))
    ensures !NobodyPassed(RT3, Step(RT3, Run(RT3, Init(RT3, 1), RT_RUN), Expire(2)).k)
  {
    RtScene();
    RtInv();
    var s := Run(RT3, Init(RT3, 1), RT_RUN);
    SceneFacts(RT3, s.k, [In(0), Running, In(LAST + 1)], 1, INITIAL);
    hide Run, Live, NobodyPassed, Scene, Step, Init;
    ExpiryPassesExactlyWhen(RT3, s, 2);
  }

  // --- A thread queued twice by a wakeup inside the dispatcher -------------------------------------------

  /** The initial thread has been put back to yield, and the waiting thread, which it does
      not outrank, is woken before the next is chosen. */
  lemma WokenScene()
    ensures |RT3| > 1 && Fits(RT3, Init(RT3, 1))
    ensures var s := Run(RT3, Init(RT3, 1), RT_RUN);
      var k := Dispatcher.WakeOne(RT3, Ready(RT3, s.k, s.k.cur, false), 1);
      KInv(RT3, k) && k.l.place[k.cur] == In(1) && WouldRun(RT3, k, 2)
  {
    RtScene();
    RtInv();
    var s := Run(RT3, Init(RT3, 1), RT_RUN);
    SceneFacts(RT3, s.k, [In(0), Running, In(LAST + 1)], 1, INITIAL);
    LiveParts(RT3, s);
    hide Run, Live, Init, Books, NobodyPassed;
    ReadyKeeps(RT3, s.k, INITIAL, false);
    var k := Ready(RT3, s.k, INITIAL, false);
    assert k.cur == INITIAL && k.l.q[LAST + 1] == [2] && k.l.place == [In(0), In(1), In(LAST + 1)];
    hide KInv, Ready, Scene;
    WakeOneKeeps(RT3, k, 1);
  }

  /** In a build that tries to run it at once, the initial thread is then on two lists. */
  lemma AWakeupInsideQueuesTwice()
    ensures |RT3| > 1 && Fits(RT3, Init(RT3, 1))
    ensures var s := Run(RT3, Init(RT3, 1), RT_RUN);
      !Placed(Unguarded(RT3, Dispatcher.WakeOne(RT3, Ready(RT3, s.k, s.k.cur, false), 1), 2).l)
  {
    WokenScene();
    var s := Run(RT3, Init(RT3, 1), RT_RUN);
    hide Run, KInv, Placed, Ready, Dispatcher.WakeOne, Unguarded, Init;
    UnguardedBreaksExactlyWhen(RT3, Dispatcher.WakeOne(RT3, Ready(RT3, s.k, s.k.cur, false), 1), 2);
  }

  // --- The last thread ---------------------------------------------------------------------------------

  const LAST3: seq<Info> := [Info(Idle, 0, false), Info(Rt, 0, true), Info(Fore, 0, false)]

  /** The third thread is readied, and does not take the processor. */
  lemma LastStarts(s: State)
    requires Fits(LAST3, s) && Scene(LAST3, s.k, [In(0), Running, Fresh], 0, INITIAL)
    requires s.life == Life([false, false, false], [0, 0, 0], 3, false, false)
    ensures var r := Step(LAST3, s, Start(2));
      && Scene(LAST3, r.k, [In(0), Running, In(1)], 1, INITIAL) && r.life == s.life
  {
    SceneFacts(LAST3, s.k, [In(0), Running, Fresh], 0, INITIAL);
    hide Scene, Ready, Dispatcher.Yield, Step;
    StartIs(LAST3, s);
    ReadyScene(LAST3, s.k, [In(0), Running, Fresh], 0, INITIAL, 2);
    assert [In(0), Running, Fresh][2 := In(1)] == [In(0), Running, In(1)];
    assert TryRun(LAST3, Ready(LAST3, s.k, 2, false), 2) == Ready(LAST3, s.k, 2, false);
  }

  lemma LastBlocks(k: Kern)
    requires Scene(LAST3, k, [In(0), Running, In(1)], 1, INITIAL)
    ensures Shape(LAST3, k) && k.nopending == [true, true] && k.cur == INITIAL
    ensures Scene(LAST3, Block(LAST3, k, 0), [In(0), In(LAST), Running], 1, 2)
  {
    var place := [In(0), Running, In(1)];
    SceneFacts(LAST3, k, place, 1, INITIAL);
    hide Scene, Blocked, Dispatch;
    BlockedScene(LAST3, k, place, 1, INITIAL, 0);
    assert place[1 := In(LAST)] == [In(0), In(LAST), In(1)];
    DispatchScene(LAST3, Blocked(LAST3, k, 0), [In(0), In(LAST), In(1)], 1, INITIAL, 1, 2);
    assert [In(0), In(LAST), In(1)][2 := Running] == [In(0), In(LAST), Running];
  }

  /** The initial thread terminates, and waits for the other. */
  lemma InitialLeaves(s: State, detached: bool)
    requires Fits(LAST3, s) && Scene(LAST3, s.k, [In(0), Running, In(1)], 1, INITIAL)
    requires s.life == Life([false, false, detached], [0, 0, 0], 3, false, false)
    ensures var r := Step(LAST3, s, Exit);
      && Scene(LAST3, r.k, [In(0), In(LAST), Running], 1, 2) && r.life == Life([false, false, detached], [0, 0, 0], 2, true, false)
  {
    SceneFacts(LAST3, s.k, [In(0), Running, In(1)], 1, INITIAL);
    LastBlocks(s.k);
    hide Scene, Block;
  }

  /** With the other detached before, or not. */
  function LastRun(detached: bool): seq<Act> {
    [Create(2), Start(2), if detached then Detach(2) else Undefer] + [Exit]
  }

  lemma {:induction false} RunThen(cfg: seq<Info>, s: State, acts: seq<Act>, a: Act)
    requires Fits(cfg, s)
    ensures Run(cfg, s, acts + [a]) == Step(cfg, Run(cfg, s, acts), a)
    decreases |acts|
  {
    hide Step;
    if acts == [] {
      assert acts + [a] == [a];
      assert Run(cfg, Step(cfg, s, a), []) == Step(cfg, s, a);
    } else {
      assert (acts + [a])[1..] == acts[1..] + [a];
      RunThen(cfg, Step(cfg, s, acts[0]), acts[1..], a);
    }
  }

  lemma LastDetached(s: State, detached: bool)
    requires Fits(LAST3, s) && Scene(LAST3, s.k, [In(0), Running, In(1)], 1, INITIAL)
    requires s.life == Life([false, false, false], [0, 0, 0], 3, false, false)
    ensures var r := Step(LAST3, s, if detached then Detach(2) else Undefer);
      Scene(LAST3, r.k, [In(0), Running, In(1)], 1, INITIAL) && r.life == Life([false, false, detached], [0, 0, 0], 3, false, false)
  {
    SceneFacts(LAST3, s.k, [In(0), Running, In(1)], 1, INITIAL);
    assert s.k.deferred == [];
    hide Scene;
    assert [false, false, false][2 := true] == [false, false, true];
  }

  lemma LastScene(detached: bool)
    ensures |LAST3| > 1 && Fits(LAST3, Init(LAST3, 1))
    ensures var r := Run(LAST3, Init(LAST3, 1), LastRun(detached));
      Scene(LAST3, r.k, [In(0), In(LAST), Running], 1, 2) && r.life == Life([false, false, detached], [0, 0, 0], 2, true, false)
  {
    var s := Init(LAST3, 1);
    InitScene(LAST3);
    hide Scene, Step, Init;
    CreateScene(LAST3, s);
    var s1 := Step(LAST3, s, Create(2));
    LastStarts(s1);
    var s2 := Step(LAST3, s1, Start(2));
    LastDetached(s2, detached);
    var a := if detached then Detach(2) else Undefer;
    InitialLeaves(Step(LAST3, s2, a), detached);
    Run3(LAST3, s, Create(2), Start(2), a);
    RunThen(LAST3, s, [Create(2), Start(2), a], Exit);
  }

  lemma LastLive(detached: bool)
    ensures |LAST3| > 1 && Fits(LAST3, Init(LAST3, 1))
    ensures var s := Run(LAST3, Init(LAST3, 1), LastRun(detached)); var k := Bury(LAST3, s);
      && Live(LAST3, s) && s.k.cur == 2 && k.cur == 2 && s.life.detached == [false, false, detached]
      && k.l.q[LAST] == [INITIAL] && InitialPreempts(LAST3, k)
  {
    InitInv(LAST3, 1);
    LastScene(detached);
    var s := Run(LAST3, Init(LAST3, 1), LastRun(detached));
    assert s.k.l.q[LAST] == [INITIAL] && s.k.cur == 2;
    hide Run, Init, Live, Scene;
    RunInv(LAST3, Init(LAST3, 1), LastRun(detached));
  }

  /** The last thread terminates while a real-time initial thread waits for it: it is on two
      lists when it was detached, and ready after its end when it was not. */
  lemma TheLastThreadIsQueuedTwice(detached: bool)
    ensures |LAST3| > 1 && Fits(LAST3, Init(LAST3, 1))
    ensures var s := Run(LAST3, Init(LAST3, 1), LastRun(detached)); var k := Bury(LAST3, s); var u := Unguarded(LAST3, k, INITIAL);
      if detached then !Placed(u.l) else k.l.place[2] == Done && u.l.place[2] != Done
  {
    LastLive(detached);
    var s := Run(LAST3, Init(LAST3, 1), LastRun(detached));
    assert s.life.detached[s.k.cur] == detached;
    hide Run, Init, Live, Bury, Unguarded, InitialPreempts, LastRun, Placed;
    LastThreadIsQueuedTwiceExactlyWhen(LAST3, s);
  }
}
