/** What the dispatcher promises over whole runs: placement and progress, per-thread
    errno, zombies, process exit and strict-priority preemption; and where a build
    without the "in dispatch" guard, or a last thread of low priority, breaks them. */
module Scheduling {
  import opened Semaphore
  import opened SchedOrder
  import opened Lists
  import opened Dispatcher
  import opened Places
  import opened Processor

  // --- Placement and exit ---------------------------------------------------------------------

  lemma Reachable(cfg: seq<Info>, sems: nat, acts: seq<Act>)
    requires |cfg| > 1 && cfg[NULL].cls == Idle
    ensures Inv(cfg, Run(cfg, Init(cfg, sems), acts))
  {
    hide Inv;
    InitInv(cfg, sems);
    RunInv(cfg, Init(cfg, sems), acts);
  }

  /** In every reachable state before the process exits each thread is in exactly one
      place: a thread is in a list, once, exactly when it stands there, and only the
      current one runs.  The lists above the hint are empty, the null thread runs or
      is ready, and every ready list and block queue is in its one possible order.  The
      step in which the initial thread, woken by the last one, takes the processor is taken
      for the exit (see Terminate): LastThreadIsQueuedTwiceExactlyWhen says what it does. */
  lemma EveryRunKeepsPlaces(cfg: seq<Info>, sems: nat, acts: seq<Act>)
    requires |cfg| > 1 && cfg[NULL].cls == Idle
    requires !Run(cfg, Init(cfg, sems), acts).life.exited
    ensures var k := Run(cfg, Init(cfg, sems), acts).k;
      && |k.l.place| == |cfg|
      && (forall n: nat, t: Tid {:trigger t in k.l.q[n]} :: n < |k.l.q| && t in k.l.q[n] ==> t < |cfg| && k.l.place[t] == In(n))
      && (forall t: Tid :: t < |cfg| && k.l.place[t].In? ==> k.l.place[t].list < |k.l.q| && t in k.l.q[k.l.place[t].list])
      && (forall n: nat :: n < |k.l.q| ==> NoDup(k.l.q[n]))
      && (forall t: Tid :: t < |cfg| ==> (k.l.place[t] == Running <==> t == k.cur))
      && (forall n: nat :: k.next < n < N_READY && n < |k.l.q| ==> k.l.q[n] == [])
      && (k.cur == NULL || k.l.place[NULL] == In(0))
      && (forall n: nat :: n < |k.l.q| && n != HOLD && n != ZOMBIES ==> Ordered(cfg, k.l.stamp, k.l.q[n]))
  {
    Reachable(cfg, sems, acts);
    hide Run, Ordered, Books;
  }

  lemma LiveParts(cfg: seq<Info>, s: State)
    requires Live(cfg, s)
    ensures Fits(cfg, s) && KInv(cfg, s.k) && Books(s) && s.k.l.place[s.k.cur] == Running
    ensures Alive(s.k.l.place[NULL]) == 1
  {
    hide Books;
  }

  /** The process exits only when nobody is left but the null thread and the initial
      one; and as long as it has not, the initial thread sleeps only while somebody is. */
  lemma ExitWaitsForTheOthers(cfg: seq<Info>, sems: nat, acts: seq<Act>)
    requires |cfg| > 1 && cfg[NULL].cls == Idle
    ensures var r := Run(cfg, Init(cfg, sems), acts);
      && (r.life.exited ==> OthersGone(r.k.l))
      && (!r.life.exited && r.k.l.place[INITIAL] == In(LAST) ==>
            exists t: Tid :: t < |cfg| && t != NULL && t != INITIAL && Alive(r.k.l.place[t]) > 0)
  {
    Reachable(cfg, sems, acts);
    var r := Run(cfg, Init(cfg, sems), acts);
    hide Run, Live;
    if !r.life.exited && r.k.l.place[INITIAL] == In(LAST) {
      LiveParts(cfg, r);
      hide KInv;
      BooksTotal(r);
      assert Total(Alive, r.k.l.place) > 2;
      hide Books;
      TwoAlive(r.k.l.place);
    }
  }

  /** Every detached thread that has terminated and is not freed is on the zombie queue or
      with one thread that lays zombies to rest; the others wait to be detached. */
  lemma ZombiesAreKept(cfg: seq<Info>, sems: nat, acts: seq<Act>, t: Tid)
    requires |cfg| > 1 && cfg[NULL].cls == Idle && t < |cfg|
    requires !Run(cfg, Init(cfg, sems), acts).life.exited
    ensures var r := Run(cfg, Init(cfg, sems), acts);
      var p := r.k.l.place[t];
      && (p == Done ==> !r.life.detached[t])
      && (p == In(ZOMBIES) || p.Taken? || p.Doomed? || p.Kept? ==> r.life.detached[t])
      && (r.life.detached[t] && Alive(p) == 0 && p != Unborn ==>
            p == Freed || p.Taken? || p.Doomed? || p.Kept? || (p == In(ZOMBIES) && t in r.k.l.q[ZOMBIES]))
  {
    Reachable(cfg, sems, acts);
    var r := Run(cfg, Init(cfg, sems), acts);
    hide Run, Sorted;
    assert Placed(r.k.l);
    assert StandingListed(r.k.l);
  }

  /** How one step of a client moves thread t, standing at p: between the lists and the
      processor while scheduled; otherwise only by creation and start, by termination,
      by being detached, or by a dispeller. */
  ghost predicate Moves(s: State, a: Act, t: Tid, p': Place)
    requires t < |s.k.l.place| && t < |s.life.detached| && t < |s.life.joiners|
  {
    var p := s.k.l.place[t];
    || p' == p
    || (Scheduled(p) && Scheduled(p'))
    || (Scheduled(p) && a == Exit && t == s.k.cur && t != INITIAL && t < |s.life.detached| && p' == if s.life.detached[t] then In(ZOMBIES) else Done)
    || (p == Unborn && p' == Fresh && a == Create(t))
    || (p == Fresh && Scheduled(p') && a == Start(t))
    || (p == Done && p' == Freed && a == Detach(t) && !s.life.detached[t])
    || (p == In(ZOMBIES) && p' == Taken(s.k.cur) && a == TakeZombie)
    || (p == Taken(s.k.cur) && a == TestZombie(t) && p' == if s.life.joiners[t] == 0 then Doomed(s.k.cur) else Kept(s.k.cur))
    || (p == Doomed(s.k.cur) && p' == Freed && a == FreeZombie(t))
    || (p == Kept(s.k.cur) && p' == In(ZOMBIES) && a == ReturnZombie(t))
  }

  lemma SameMoves(l: Queues, r: Queues, s: State, a: Act, t: Tid)
    requires Same(l, r) && t < |l.place| == |s.k.l.place| && t < |s.life.detached| && t < |s.life.joiners|
    requires l.place[t] == s.k.l.place[t]
             || (Scheduled(s.k.l.place[t]) && a == Exit && t == s.k.cur && t != INITIAL
                 && l.place[t] == if s.life.detached[t] then In(ZOMBIES) else Done)
             || (Scheduled(l.place[t]) && (Scheduled(s.k.l.place[t]) || (s.k.l.place[t] == Fresh && a == Start(t))))
    ensures Moves(s, a, t, r.place[t])
  {
  }

  lemma SameAt(l: Queues, r: Queues, t: Tid)
    requires Same(l, r) && t < |l.place|
    ensures t < |r.place| && (r.place[t] == l.place[t] || Scheduled(l.place[t]))
  {
  }

  lemma StaysMoves(s: State, a: Act, t: Tid)
    requires t < |s.k.l.place| && t < |s.life.detached| && t < |s.life.joiners|
    ensures Moves(s, a, t, s.k.l.place[t])
  {
  }

  /** The running thread blocks: it moves, and others may. */
  lemma BlockMoves(cfg: seq<Info>, s: State, j: nat, a: Act, t: Tid)
    requires Fits(cfg, s) && KInv(cfg, s.k) && s.k.l.place[s.k.cur] == Running && t < |cfg|
    requires s.k.cur != NULL && j < |s.k.nopending| && s.k.nopending[j]
    ensures Moves(s, a, t, Block(cfg, s.k, j).l.place[t])
    ensures Block(cfg, s.k, j).l.place[t] == s.k.l.place[t] || Scheduled(s.k.l.place[t])
  {
    BlockKeeps(cfg, s.k, j);
    hide KInv, Block, Same, Moves;
    var m := s.k.l.(place := s.k.l.place[s.k.cur := In(LAST + j)]);
    SameMoves(m, Block(cfg, s.k, j).l, s, a, t);
    SameAt(m, Block(cfg, s.k, j).l, t);
  }

  lemma LastMoves(cfg: seq<Info>, s: State, a: Act, t: Tid)
    requires Fits(cfg, s) && KInv(cfg, s.k) && s.k.l.place[s.k.cur] == Running && t < |cfg|
    requires s.k.cur != NULL
    ensures Moves(s, a, t, LastLoop(cfg, s).k.l.place[t])
    ensures LastLoop(cfg, s).k.l.place[t] == s.k.l.place[t] || Scheduled(s.k.l.place[t])
  {
    hide KInv, Block, Moves;
    StaysMoves(s, a, t);
    if s.life.cnt > 1 && s.k.nopending[0] { BlockMoves(cfg, s, 0, a, t); }
  }

  lemma DispatchMoves(cfg: seq<Info>, s: State, l: Queues, k: Kern, a: Act, t: Tid)
    requires Fits(cfg, s) && Shape(cfg, k) && KInv(cfg, k) && NobodyRuns(k.l) && t < |cfg|
    requires Same(l, k.l) && s.k.cur < |s.k.l.place| == |l.place| && s.k.l.place[s.k.cur] == Running
    requires a == Exit && s.k.cur != INITIAL && s.k.cur < |s.life.detached|
    requires l.place == s.k.l.place[s.k.cur := if s.life.detached[s.k.cur] then In(ZOMBIES) else Done]
    ensures Moves(s, a, t, Dispatch(cfg, k).l.place[t])
  {
    hide KInv, NobodyRuns, Same, Switched, Dispatch, Moves;
    DispatchKeeps(cfg, k);
    var r := Dispatch(cfg, k);
    SwitchedSame(k.l, r.l, r.cur);
    SameTwice(l, k.l, r.l);
    SameMoves(l, r.l, s, a, t);
  }

  lemma WakingDispatchMoves(cfg: seq<Info>, s: State, a: Act, t: Tid)
    requires Fits(cfg, s) && Live(cfg, s) && s.k.cur != NULL && s.k.cur != INITIAL && t < |cfg| && s.life.cnt - 1 <= 1 && a == Exit
    ensures Moves(s, a, t, Dispatch(cfg, Dispatcher.WakeOne(cfg, Bury(cfg, s), 0)).l.place[t])
  {
    var k := Bury(cfg, s);
    BuryKeeps(cfg, s);
    LiveParts(cfg, s);
    hide Live, KInv, Books, Bury, NobodyRuns, Woke, Dispatch, Dispatcher.WakeOne, Moves;
    assert Same(k.l, k.l);
    hide Same;
    BuryLast(s, k.l);
    LastIsWoken(cfg, k);
    var w := Dispatcher.WakeOne(cfg, k, 0);
    WokeNobodyRuns(k.l, w.l);
    WokeSame(k.l, w.l);
    DispatchMoves(cfg, s, k.l, w, a, t);
  }

  lemma WakingMoves(cfg: seq<Info>, s: State, a: Act, t: Tid)
    requires Fits(cfg, s) && Live(cfg, s) && s.k.cur != NULL && s.k.cur != INITIAL && t < |cfg| && a == Exit
    requires s.life.cnt - 1 <= 1 && !InitialPreempts(cfg, Bury(cfg, s))
    ensures Moves(s, a, t, Terminate(cfg, s).k.l.place[t])
  {
    WakingDispatchMoves(cfg, s, a, t);
    hide Live, Bury, Dispatch, Dispatcher.WakeOne, Moves, InitialPreempts;
  }

  lemma TerminateMoves(cfg: seq<Info>, s: State, a: Act, t: Tid)
    requires Fits(cfg, s) && Live(cfg, s) && s.k.cur != NULL && s.k.cur != INITIAL && t < |cfg| && a == Exit
    ensures Moves(s, a, t, Terminate(cfg, s).k.l.place[t])
  {
    var k := Bury(cfg, s);
    BuryKeeps(cfg, s);
    LiveParts(cfg, s);
    hide Live, KInv, Books, Bury, NobodyRuns, Woke, Dispatch, Dispatcher.WakeOne;
    assert Same(k.l, k.l);
    hide Same;
    if s.life.cnt - 1 > 1 {
      hide Moves;
      DispatchMoves(cfg, s, k.l, k, a, t);
    } else if !InitialPreempts(cfg, k) {
      hide Moves, Terminate;
      WakingMoves(cfg, s, a, t);
    }
  }

  lemma StartMoves(cfg: seq<Info>, s: State, u: Tid, t: Tid)
    requires Fits(cfg, s) && KInv(cfg, s.k) && s.k.l.place[s.k.cur] == Running && t < |cfg|
    requires u < |cfg| && s.k.l.place[u] == Fresh
    ensures Moves(s, Start(u), t, TryRun(cfg, Ready(cfg, s.k, u, false), u).l.place[t])
  {
    hide Moves, TryRun, Same;
    var k := Ready(cfg, s.k, u, false);
    ReadyKeeps(cfg, s.k, u, false);
    hide KInv, Ready;
    TryRunKeeps(cfg, k, u);
    SameMoves(k.l, TryRun(cfg, k, u).l, s, Start(u), t);
  }

  lemma SignalMoves(cfg: seq<Info>, s: State, d: Defer, t: Tid)
    requires Fits(cfg, s) && KInv(cfg, s.k) && s.k.l.place[s.k.cur] == Running && t < |cfg|
    ensures Moves(s, Signal(d), t, WakeAndRun(cfg, s.k, d).l.place[t])
  {
    hide KInv, WakeAndRun, Same, Moves;
    WakeAndRunKeeps(cfg, s.k, d);
    SameMoves(s.k.l, WakeAndRun(cfg, s.k, d).l, s, Signal(d), t);
  }

  lemma BooksMoves(cfg: seq<Info>, s: State, a: Act, t: Tid)
    requires Fits(cfg, s) && KInv(cfg, s.k) && t < |cfg|
    requires a.Create? || a.Detach? || a.Join? || a.Unjoin? || a.TakeZombie? || a.TestZombie? || a.FreeZombie?
      || a.ReturnZombie?
    ensures Moves(s, a, t, Client(cfg, s, a).k.l.place[t])
  {
    if a.TakeZombie? && s.k.l.q[ZOMBIES] != [] { TakeKeeps(cfg, s.k, ZOMBIES, Taken(s.k.cur)); }
    hide KInv;
  }

  lemma InitialMoves(cfg: seq<Info>, s: State, t: Tid)
    requires Fits(cfg, s) && KInv(cfg, s.k) && s.k.l.place[s.k.cur] == Running && t < |cfg| && s.k.cur == INITIAL
    ensures Moves(s, Exit, t, Terminate(cfg, s).k.l.place[t])
  {
    hide KInv, Moves, LastLoop;
    var m := s.(life := s.life.(cnt := s.life.cnt - 1, leaving := true));
    LastMoves(cfg, m, Exit, t);
    MovesAlike(s, m, Exit, t, LastLoop(cfg, m).k.l.place[t]);
  }

  lemma ExitMoves(cfg: seq<Info>, s: State, t: Tid)
    requires Fits(cfg, s) && Live(cfg, s) && t < |cfg| && s.k.cur != NULL
    ensures Moves(s, Exit, t, Terminate(cfg, s).k.l.place[t])
  {
    LiveParts(cfg, s);
    hide Live, KInv, Books, Moves, Terminate;
    if s.k.cur == INITIAL {
      InitialMoves(cfg, s, t);
    } else {
      TerminateMoves(cfg, s, Exit, t);
    }
  }

  lemma MovesAlike(s: State, r: State, a: Act, t: Tid, p': Place)
    requires t < |s.k.l.place| && t < |s.life.detached| && t < |s.life.joiners|
    requires r == s.(life := s.life.(cnt := r.life.cnt, leaving := r.life.leaving)) && Moves(r, a, t, p')
    ensures Moves(s, a, t, p')
  {
  }

  lemma ClientMoves(cfg: seq<Info>, s: State, a: Act, t: Tid)
    requires Fits(cfg, s) && Live(cfg, s) && !s.life.exited && t < |cfg| && Ordinary(s)
    ensures Moves(s, a, t, Client(cfg, s, a).k.l.place[t])
  {
    LiveParts(cfg, s);
    StaysMoves(s, a, t);
    hide Live, KInv, Books, Moves, Terminate, WakeAndRun, TryRun, Ready, Block;
    if a.Start? {
      if a.t < |cfg| && s.k.l.place[a.t] == Fresh { StartMoves(cfg, s, a.t, t); }
    } else if a.Signal? {
      SignalMoves(cfg, s, a.d, t);
    } else if a.Wait? {
      if 0 < a.sem < |s.k.nopending| && s.k.nopending[a.sem] { BlockMoves(cfg, s, a.sem, a, t); }
    } else if a.Exit? {
      ExitMoves(cfg, s, t);
    } else if a.Create? || a.Detach? || a.Join? || a.Unjoin? || a.TakeZombie? || a.TestZombie? || a.FreeZombie?
      || a.ReturnZombie? {
      hide Client;
      BooksMoves(cfg, s, a, t);
    }
  }

  lemma StepMoves(cfg: seq<Info>, s: State, a: Act, t: Tid)
    requires Fits(cfg, s) && Live(cfg, s) && !s.life.exited && t < |cfg|
    ensures Moves(s, a, t, Step(cfg, s, a).k.l.place[t])
    ensures !Ordinary(s) ==> Step(cfg, s, a).k.l.place[t] == s.k.l.place[t] || Scheduled(s.k.l.place[t])
  {
    LiveParts(cfg, s);
    StaysMoves(s, a, t);
    hide Live, KInv, Books, Client, Common, LastLoop, Moves, Same;
    if a.Late? || a.Adjust? || a.Hold? || a.Yield? || a.Quantum? || a.Undefer? || a.Expire? || a.SetErrno? {
      CommonMoves(cfg, s, a);
      SameMoves(s.k.l, Common(cfg, s, a).k.l, s, a, t);
      SameAt(s.k.l, Common(cfg, s, a).k.l, t);
    } else if a.LastWait? {
      if s.k.cur == INITIAL && s.life.leaving { LastMoves(cfg, s, a, t); }
    } else if Ordinary(s) {
      ClientMoves(cfg, s, a, t);
    }
  }

  /** A dispeller that has seen no joiner of t frees it, or t is detached after its end. */
  predicate Frees(s: State, a: Act, t: Tid)
    requires t < |s.k.l.place| && t < |s.life.detached| && t < |s.life.joiners|
  {
    || (a == FreeZombie(t) && s.k.l.place[t] == Doomed(s.k.cur))
    || (a == Detach(t) && s.k.l.place[t] == Done && !s.life.detached[t] && t != NULL && t != INITIAL)
  }

  lemma FreesFreed(cfg: seq<Info>, s: State, a: Act, t: Tid)
    requires Fits(cfg, s) && !s.life.exited && t < |cfg| && Ordinary(s) && Frees(s, a, t)
    ensures Step(cfg, s, a).k.l.place[t] == Freed
  {
  }

  lemma FreedFrees(s: State, a: Act, t: Tid)
    requires t < |s.k.l.place| && t < |s.life.detached| && t < |s.life.joiners|
    requires Moves(s, a, t, Freed) && s.k.l.place[t] != Freed && t != NULL && t != INITIAL
    ensures Frees(s, a, t)
  {
  }

  /** A thread is freed by a dispeller that has seen no joiner, or by being detached after
      its end, and by nothing else. */
  lemma FreedExactlyWhen(cfg: seq<Info>, s: State, a: Act, t: Tid)
    requires Fits(cfg, s) && Live(cfg, s) && !s.life.exited && t < |cfg| && s.k.l.place[t] != Freed
    ensures Step(cfg, s, a).k.l.place[t] == Freed <==> Ordinary(s) && Frees(s, a, t)
  {
    StepMoves(cfg, s, a, t);
    LiveParts(cfg, s);
    hide Live, KInv, Step, Moves, Frees;
    if Step(cfg, s, a).k.l.place[t] == Freed {
      SpecialStay(cfg, s, a);
      FreedFrees(s, a, t);
    } else if Ordinary(s) && Frees(s, a, t) {
      FreesFreed(cfg, s, a, t);
    }
  }

  lemma ScheduledNotFreed(s: State, a: Act, t: Tid, p': Place)
    requires t < |s.k.l.place| && t < |s.life.detached| && t < |s.life.joiners|
    requires Scheduled(s.k.l.place[t]) && Moves(s, a, t, p')
    ensures p' != Freed
  {
  }

  lemma SpecialScheduled(cfg: seq<Info>, s: State)
    requires Fits(cfg, s) && Live(cfg, s)
    ensures Scheduled(s.k.l.place[NULL]) && Scheduled(s.k.l.place[INITIAL])
  {
    hide Placed, Sorted;
  }

  lemma SpecialStay(cfg: seq<Info>, s: State, a: Act)
    requires Fits(cfg, s) && Live(cfg, s) && !s.life.exited
    ensures Step(cfg, s, a).k.l.place[NULL] != Freed && Step(cfg, s, a).k.l.place[INITIAL] != Freed
  {
    hide Live, Step, Moves;
    SpecialScheduled(cfg, s);
    StepMoves(cfg, s, a, NULL);
    StepMoves(cfg, s, a, INITIAL);
    ScheduledNotFreed(s, a, NULL, Step(cfg, s, a).k.l.place[NULL]);
    ScheduledNotFreed(s, a, INITIAL, Step(cfg, s, a).k.l.place[INITIAL]);
  }

  /** Once freed a thread stays freed, so none is freed twice. */
  lemma {:induction false} FreedStays(cfg: seq<Info>, s: State, acts: seq<Act>, t: Tid)
    requires Fits(cfg, s) && Inv(cfg, s) && t < |cfg| && s.k.l.place[t] == Freed
    ensures Run(cfg, s, acts).k.l.place[t] == Freed
    decreases |acts|
  {
    if acts != [] {
      var r := Step(cfg, s, acts[0]);
      if !s.life.exited { StepMoves(cfg, s, acts[0], t); }
      assert r.k.l.place[t] == Freed;
      StepInv(cfg, s, acts[0]);
      hide Inv, Live, Step;
      FreedStays(cfg, r, acts[1..], t);
    }
  }

  // --- Joiners --------------------------------------------------------------------------------------

  /** Whoever is about to be freed by a dispeller has no joiners. */
  ghost predicate NobodyJoinsDoomed(s: State) {
    && |s.life.joiners| == |s.k.l.place|
    && forall t: Tid :: t < |s.k.l.place| && s.k.l.place[t].Doomed? ==> s.life.joiners[t] == 0
  }

  /** Joiners come only to a thread that has not terminated. */
  lemma JoinersGrow(cfg: seq<Info>, s: State, a: Act, t: Tid)
    requires Fits(cfg, s) && t < |cfg|
    ensures var n := Step(cfg, s, a).life.joiners[t];
      n <= s.life.joiners[t] || Alive(s.k.l.place[t]) > 0
  {
    hide Ready, WakeAndRun, TryRun, Block, Dispatch, Bury, InitialPreempts, Dispatcher.WakeOne, Dispatcher.Yield, Lists.Join, Take, Unlink;
  }

  lemma DoomedUnjoined(cfg: seq<Info>, s: State, a: Act, t: Tid)
    requires Fits(cfg, s) && Live(cfg, s) && !s.life.exited && t < |cfg| && NobodyJoinsDoomed(s)
    requires Step(cfg, s, a).k.l.place[t].Doomed?
    ensures Step(cfg, s, a).life.joiners[t] == 0
  {
    hide Step;
    JoinersGrow(cfg, s, a, t);
    StepMoves(cfg, s, a, t);
    hide Live;
  }

  lemma {:induction false} DoomedAreUnjoined(cfg: seq<Info>, s: State, acts: seq<Act>)
    requires Fits(cfg, s) && Inv(cfg, s) && NobodyJoinsDoomed(s)
    ensures NobodyJoinsDoomed(Run(cfg, s, acts))
    decreases |acts|
  {
    if acts != [] {
      var r := Step(cfg, s, acts[0]);
      StepInv(cfg, s, acts[0]);
      if !s.life.exited {
        hide Step;
        forall t: Tid | t < |cfg| && r.k.l.place[t].Doomed? ensures r.life.joiners[t] == 0 {
          DoomedUnjoined(cfg, s, acts[0], t);
        }
      }
      hide Inv, Live, Step;
      DoomedAreUnjoined(cfg, r, acts[1..]);
    }
  }

  /** The count of joiners is there to keep a thread from being freed under them.  It does
      with the dispellers, in spite of the time between their look at it and the freeing;
      being detached after its end frees a thread whatever the count. */
  lemma FreedUnderAJoinerExactlyWhen(cfg: seq<Info>, sems: nat, acts: seq<Act>, a: Act, t: Tid)
    requires |cfg| > 1 && cfg[NULL].cls == Idle && t < |cfg|
    requires var s := Run(cfg, Init(cfg, sems), acts); !s.life.exited && s.life.joiners[t] > 0 && s.k.l.place[t] != Freed
    ensures var s := Run(cfg, Init(cfg, sems), acts);
      Step(cfg, s, a).k.l.place[t] == Freed <==> Ordinary(s) && a == Detach(t) && s.k.l.place[t] == Done
  {
    var s := Run(cfg, Init(cfg, sems), acts);
    Reachable(cfg, sems, acts);
    InitInv(cfg, sems);
    DoomedAreUnjoined(cfg, Init(cfg, sems), acts);
    hide Run, Step, KInv;
    FreedExactlyWhen(cfg, s, a, t);
    SpecialScheduled(cfg, s);
  }

  // --- Errno ------------------------------------------------------------------------------------

  /** The errno that thread t sees: the global cell while it runs, its own otherwise. */
  function ErrnoOf(s: State, t: Tid): int
    requires t < |s.saved|
  {
    if t == s.k.cur then s.errno else s.saved[t]
  }

  lemma ResumeErrno(cfg: seq<Info>, s: State, k: Kern, t: Tid)
    requires Fits(cfg, s) && Shape(cfg, k) && t < |cfg|
    ensures ErrnoOf(Resume(cfg, s, k), t) == ErrnoOf(s, t)
  {
  }

  /** A step that stores nothing in errno leaves the cells alone or swaps them on a switch. */
  ghost predicate Swaps(cfg: seq<Info>, s: State, r: State) {
    && Fits(cfg, s) && Fits(cfg, r)
    && r.errno == Resume(cfg, s, r.k).errno && r.saved == Resume(cfg, s, r.k).saved
  }

  lemma LastSwaps(cfg: seq<Info>, s: State)
    requires Fits(cfg, s)
    ensures Swaps(cfg, s, LastLoop(cfg, s))
  {
    hide Block;
  }

  lemma TerminateSwaps(cfg: seq<Info>, s: State)
    requires Fits(cfg, s)
    ensures Swaps(cfg, s, Terminate(cfg, s))
  {
    hide Dispatch, Dispatcher.WakeOne, LastLoop, JoinBlocked, Lists.Join;
    LastSwaps(cfg, s.(life := s.life.(cnt := s.life.cnt - 1, leaving := true)));
  }

  lemma ClientSwaps(cfg: seq<Info>, s: State, a: Act)
    requires Fits(cfg, s)
    ensures Swaps(cfg, s, Client(cfg, s, a))
  {
    hide Dispatch, WakeAndRun, Block, TryRun, Ready, Terminate, Lists.Join, Take;
    TerminateSwaps(cfg, s);
  }

  lemma CommonSwaps(cfg: seq<Info>, s: State, a: Act)
    requires Fits(cfg, s) && !a.SetErrno?
    ensures Swaps(cfg, s, Common(cfg, s, a))
  {
    hide Dispatch, WakeAndRun, Ready, Unlink, Dispatcher.Yield;
  }

  lemma StepErrno(cfg: seq<Info>, s: State, a: Act, t: Tid)
    requires Fits(cfg, s) && t < |cfg|
    ensures ErrnoOf(Step(cfg, s, a), t)
      == if a.SetErrno? && t == s.k.cur && !s.life.exited then a.v else ErrnoOf(s, t)
  {
    hide Client, LastLoop, Swaps;
    if !a.SetErrno? && !s.life.exited {
      hide Common;
      CommonSwaps(cfg, s, a);
      ClientSwaps(cfg, s, a);
      LastSwaps(cfg, s);
      assert Step(cfg, s, a) == s || Swaps(cfg, s, Step(cfg, s, a));
      if Swaps(cfg, s, Step(cfg, s, a)) { SwapsErrno(cfg, s, Step(cfg, s, a), t); }
    }
  }

  lemma SwapsErrno(cfg: seq<Info>, s: State, r: State, t: Tid)
    requires Swaps(cfg, s, r) && t < |cfg|
    ensures ErrnoOf(r, t) == ErrnoOf(s, t)
  {
    ResumeErrno(cfg, s, r.k, t);
  }

  /** What thread t last stored in errno during a run, or v when it stored nothing. */
  ghost function LastStored(cfg: seq<Info>, s: State, acts: seq<Act>, t: Tid, v: int): int
    requires Fits(cfg, s)
    decreases |acts|
  {
    if acts == [] then v
    else
      var stores := acts[0].SetErrno? && s.k.cur == t && !s.life.exited;
      LastStored(cfg, Step(cfg, s, acts[0]), acts[1..], t, if stores then acts[0].v else v)
  }

  /** One cell for all threads behaves as one cell for each: after any run a thread
      reads back what it last stored itself. */
  lemma {:induction false} ErrnoIsPerThread(cfg: seq<Info>, s: State, acts: seq<Act>, t: Tid)
    requires Fits(cfg, s) && t < |cfg|
    ensures ErrnoOf(Run(cfg, s, acts), t) == LastStored(cfg, s, acts, t, ErrnoOf(s, t))
    decreases |acts|
  {
    if acts != [] {
      StepErrno(cfg, s, acts[0], t);
      hide Step;
      ErrnoIsPerThread(cfg, Step(cfg, s, acts[0]), acts[1..], t);
    }
  }

  // --- Strict-priority preemption -------------------------------------------------------------------

  /** A real-time thread is ready that outranks the running one. */
  ghost predicate Passed(cfg: seq<Info>, k: Kern, t: Tid) {
    && t < |cfg| && t < |k.l.place| && k.cur < |cfg|
    && cfg[t].cls == Rt && k.l.place[t] == In(RT_LIST) && Outranks(cfg[t], cfg[k.cur])
  }

  ghost predicate NobodyPassed(cfg: seq<Info>, k: Kern) {
    forall t: Tid :: !Passed(cfg, k, t)
  }

  /** Whenever the dispatcher chooses, it passes no ready real-time thread over. */
  lemma PickPassesNobody(cfg: seq<Info>, k: Kern)
    requires Shape(cfg, k) && KInv(cfg, k) && NobodyRuns(k.l)
    ensures NobodyPassed(cfg, Pick(cfg, k))
  {
    DispatchFinds(cfg, k);
    PickKeeps(cfg, k);
    var r := Pick(cfg, k);
    hide KInv, Pick, Top;
    forall t: Tid
      ensures !Passed(cfg, r, t)
    {
      if t < |cfg| && t != r.cur && k.l.place[t] == In(RT_LIST) {
        assert r.next < RT_LIST || Before(cfg, k.l.stamp, r.cur, t);
      }
    }
  }

  lemma DispatchPassesNobody(cfg: seq<Info>, k: Kern)
    requires Shape(cfg, k) && KInv(cfg, k) && NobodyRuns(k.l)
    ensures NobodyPassed(cfg, Dispatch(cfg, k))
  {
    hide KInv, Drain, Pick, NobodyRuns, Woke, NobodyPassed;
    DrainKeeps(cfg, k);
    WokeNobodyRuns(k.l, Drain(cfg, k).l);
    PickPassesNobody(cfg, Drain(cfg, k));
  }

  lemma RequeuePassesNobody(cfg: seq<Info>, k: Kern, preempt: bool)
    requires Shape(cfg, k) && KInv(cfg, k) && k.l.place[k.cur] == Running
    ensures NobodyPassed(cfg, Dispatch(cfg, Ready(cfg, k, k.cur, preempt)))
  {
    ReadyKeeps(cfg, k, k.cur, preempt);
    assert NobodyRuns(Ready(cfg, k, k.cur, preempt).l);
    hide KInv, Ready, NobodyRuns, Dispatch, NobodyPassed;
    DispatchPassesNobody(cfg, Ready(cfg, k, k.cur, preempt));
  }

  lemma BlockPassesNobody(cfg: seq<Info>, k: Kern, j: nat)
    requires Shape(cfg, k) && KInv(cfg, k) && k.l.place[k.cur] == Running
    requires k.cur != NULL && j < |k.nopending| && k.nopending[j]
    ensures NobodyPassed(cfg, Block(cfg, k, j))
  {
    hide KInv, NobodyRuns, Blocked, Dispatch, NobodyPassed;
    BlockedKeeps(cfg, k, j);
    DispatchPassesNobody(cfg, Blocked(cfg, k, j));
  }

  /** A wakeup moves nobody but those it says it wakes. */
  ghost predicate MovesOnly(l: Queues, r: Queues, w: seq<Tid>) {
    |r.place| == |l.place| && forall t: Tid {:trigger r.place[t]} :: t < |l.place| && t !in w ==> r.place[t] == l.place[t]
  }

  lemma WakeOneMoves(cfg: seq<Info>, k: Kern, j: nat)
    requires Shape(cfg, k) && KInv(cfg, k) && j < |k.nopending| && k.l.q[LAST + j] != []
    ensures MovesOnly(k.l, Dispatcher.WakeOne(cfg, k, j).l, k.l.q[LAST + j][..1])
  {
    WakeFirstKeeps(cfg, k, j);
    hide KInv, Dispatcher.WakeOne;
    assert k.l.q[LAST + j][0] in k.l.q[LAST + j][..1];
  }

  lemma {:induction false} WakeRestMoves(cfg: seq<Info>, k: Kern, j: nat)
    requires Shape(cfg, k) && KInv(cfg, k) && j < |k.nopending|
    ensures MovesOnly(k.l, WakeRest(cfg, k, j).l, k.l.q[LAST + j])
    decreases |k.l.q[LAST + j]|
  {
    if k.l.q[LAST + j] != [] {
      var q, m := k.l.q[LAST + j], Dispatcher.WakeOne(cfg, k, j);
      WakeOneMoves(cfg, k, j);
      WakeOneKeeps(cfg, k, j);
      hide KInv, Dispatcher.WakeOne;
      WakeRestMoves(cfg, m, j);
      forall t: Tid | t < |k.l.place| && t !in q
        ensures WakeRest(cfg, m, j).l.place[t] == k.l.place[t]
      {
        assert t !in q[..1] && t !in q[1..];
        assert m.l.place[t] == k.l.place[t];
      }
    }
  }

  lemma WakeMovesOnly(cfg: seq<Info>, k: Kern, d: Defer)
    requires Shape(cfg, k) && KInv(cfg, k)
    ensures MovesOnly(k.l, Wake(cfg, k, d).l, Woken(k, d))
  {
    hide KInv, MovesOnly, Dispatcher.WakeOne, WakeRest;
    if d.sem < |k.nopending| && k.l.q[LAST + d.sem] != [] {
      if d.One? { WakeOneMoves(cfg, k, d.sem); } else { WakeRestMoves(cfg, k, d.sem); }
    } else {
      WakePendingKeeps(cfg, k, d.sem);
      assert MovesOnly(k.l, k.l, Woken(k, d)) by { NobodyMoves(k.l, Woken(k, d)); }
    }
  }

  lemma NobodyMoves(l: Queues, w: seq<Tid>)
    ensures MovesOnly(l, l, w)
  {
  }

  /** Real-time threads ask for strict-priority preemption. */
  ghost predicate RtStrict(cfg: seq<Info>) {
    forall t: Tid :: t < |cfg| && cfg[t].cls == Rt ==> cfg[t].spp
  }

  lemma OnlyTheWokenPass(cfg: seq<Info>, k: Kern, r: Kern, w: seq<Tid>)
    requires Shape(cfg, k) && Shape(cfg, r) && RtStrict(cfg) && NobodyPassed(cfg, k)
    requires MovesOnly(k.l, r.l, w) && r.cur == k.cur && forall t :: t in w ==> !WouldRun(cfg, r, t)
    ensures NobodyPassed(cfg, r)
  {
    forall t: Tid ensures !Passed(cfg, r, t) {
      if t < |cfg| && t !in w { assert !Passed(cfg, k, t) && r.l.place[t] == k.l.place[t]; }
    }
  }

  lemma TryRunPassesNobody(cfg: seq<Info>, k: Kern, m: Kern, t: Tid)
    requires Shape(cfg, k) && Shape(cfg, m) && KInv(cfg, m) && m.l.place[m.cur] == Running
    requires RtStrict(cfg) && NobodyPassed(cfg, k) && MovesOnly(k.l, m.l, [t]) && m.cur == k.cur
    ensures NobodyPassed(cfg, TryRun(cfg, m, t))
  {
    if WouldRun(cfg, m, t) {
      DrainKeeps(cfg, m);
      var n := Drain(cfg, m);
      assert n.l.place[n.cur] == Running;
      hide KInv, Drain, Dispatch, Ready, NobodyPassed;
      RequeuePassesNobody(cfg, n, false);
    } else {
      hide KInv, NobodyPassed;
      OnlyTheWokenPass(cfg, k, m, [t]);
    }
  }

  lemma WakeAndRunPassesNobody(cfg: seq<Info>, k: Kern, d: Defer)
    requires Shape(cfg, k) && KInv(cfg, k) && k.l.place[k.cur] == Running && RtStrict(cfg) && NobodyPassed(cfg, k)
    ensures NobodyPassed(cfg, WakeAndRun(cfg, k, d))
  {
    var w, m := Woken(k, d), Wake(cfg, k, d);
    WakeKeeps(cfg, k, d);
    assert m.l.place[m.cur] == Running;
    hide KInv, Wake, Woke, TryRun, NobodyPassed, Dispatch, Ready;
    WakeMovesOnly(cfg, k, d);
    if w == [] {
      OnlyTheWokenPass(cfg, k, m, w);
    } else if d.One? {
      assert w == [w[0]];
      TryRunPassesNobody(cfg, k, m, w[0]);
    } else if exists t :: t in w && WouldRun(cfg, m, t) {
      RequeuePassesNobody(cfg, m, false);
    } else {
      OnlyTheWokenPass(cfg, k, m, w);
    }
  }

  /** Threads that are not ready, and the running one, stay where they are. */
  lemma OthersPassNobody(cfg: seq<Info>, k: Kern, r: Kern)
    requires Shape(cfg, k) && Shape(cfg, r) && NobodyPassed(cfg, k) && r.cur == k.cur
    requires forall t: Tid {:trigger r.l.place[t]} :: t < |cfg| && r.l.place[t] == In(RT_LIST) ==> k.l.place[t] == In(RT_LIST)
    ensures NobodyPassed(cfg, r)
  {
    forall t: Tid ensures !Passed(cfg, r, t) {
      if t < |cfg| { assert !Passed(cfg, k, t) && r.l.place[t] == r.l.place[t]; }
    }
  }

  lemma StartPassesNobody(cfg: seq<Info>, k: Kern, t: Tid)
    requires Shape(cfg, k) && KInv(cfg, k) && k.l.place[k.cur] == Running && RtStrict(cfg) && NobodyPassed(cfg, k)
    requires t < |cfg| && k.l.place[t] == Fresh
    ensures NobodyPassed(cfg, TryRun(cfg, Ready(cfg, k, t, false), t))
  {
    hide NobodyPassed, TryRun, KInv, Ready, RtStrict;
    var m := Ready(cfg, k, t, false);
    ReadyKeeps(cfg, k, t, false);
    assert MovesOnly(k.l, m.l, [t]);
    TryRunPassesNobody(cfg, k, m, t);
  }

  lemma WaitPassesNobody(cfg: seq<Info>, s: State, j: nat)
    requires Fits(cfg, s) && KInv(cfg, s.k) && s.k.l.place[s.k.cur] == Running && s.k.cur != NULL && NobodyPassed(cfg, s.k)
    ensures NobodyPassed(cfg, Client(cfg, s, Wait(j)).k)
  {
    hide Block, KInv, NobodyPassed;
    if 0 < j < |s.k.nopending| && s.k.nopending[j] {
      BlockPassesNobody(cfg, s.k, j);
    } else {
      OthersPassNobody(cfg, s.k, Client(cfg, s, Wait(j)).k);
    }
  }

  lemma ClientPassesNobody(cfg: seq<Info>, s: State, a: Act)
    requires Fits(cfg, s) && Live(cfg, s) && !s.life.exited && Ordinary(s)
    requires RtStrict(cfg) && NobodyPassed(cfg, s.k)
    ensures Client(cfg, s, a).life.exited || NobodyPassed(cfg, Client(cfg, s, a).k)
  {
    LiveParts(cfg, s);
    hide Live, Books, KInv, NobodyPassed, WakeAndRun, Terminate, Block, TryRun, Ready;
    if a.Start? {
      if a.t < |cfg| && s.k.l.place[a.t] == Fresh { StartPassesNobody(cfg, s.k, a.t); }
    } else if a.Signal? {
      WakeAndRunPassesNobody(cfg, s.k, a.d);
    } else if a.Wait? {
      WaitPassesNobody(cfg, s, a.sem);
    } else if a.Exit? {
      ExitPassesNobody(cfg, s);
    } else {
      BooksPassNobody(cfg, s, a);
    }
  }

  lemma BooksPassNobody(cfg: seq<Info>, s: State, a: Act)
    requires Fits(cfg, s) && KInv(cfg, s.k) && !s.life.exited && NobodyPassed(cfg, s.k)
    requires !a.Start? && !a.Signal? && !a.Wait? && !a.Exit?
    ensures NobodyPassed(cfg, Client(cfg, s, a).k)
  {
    hide KInv, NobodyPassed;
    OthersPassNobody(cfg, s.k, Client(cfg, s, a).k);
  }

  lemma ExitPassesNobody(cfg: seq<Info>, s: State)
    requires Fits(cfg, s) && Live(cfg, s) && !s.life.exited && Ordinary(s) && NobodyPassed(cfg, s.k)
    ensures Terminate(cfg, s).life.exited || NobodyPassed(cfg, Terminate(cfg, s).k)
  {
    LiveParts(cfg, s);
    if s.k.cur == INITIAL {
      var m := s.(life := s.life.(cnt := s.life.cnt - 1, leaving := true));
      hide Live, KInv, Books, NobodyPassed;
      LastPassesNobody(cfg, m);
    } else {
      var k := Bury(cfg, s);
      BuryKeeps(cfg, s);
      BuryLast(s, k.l);
      hide Live, KInv, Books, NobodyPassed, Bury, Dispatch, NobodyRuns, Dispatcher.WakeOne, Woke;
      if s.life.cnt - 1 > 1 {
        DispatchPassesNobody(cfg, k);
      } else if !InitialPreempts(cfg, k) {
        LastIsWoken(cfg, k);
        WokeNobodyRuns(k.l, Dispatcher.WakeOne(cfg, k, 0).l);
        DispatchPassesNobody(cfg, Dispatcher.WakeOne(cfg, k, 0));
      }
    }
  }

  lemma LastPassesNobody(cfg: seq<Info>, s: State)
    requires Fits(cfg, s) && KInv(cfg, s.k) && s.k.l.place[s.k.cur] == Running && s.k.cur != NULL && NobodyPassed(cfg, s.k)
    ensures LastLoop(cfg, s).life.exited || NobodyPassed(cfg, LastLoop(cfg, s).k)
  {
    hide KInv, Block, NobodyPassed;
    if s.life.cnt > 1 {
      if s.k.nopending[0] { BlockPassesNobody(cfg, s.k, 0); } else { OthersPassNobody(cfg, s.k, LastLoop(cfg, s).k); }
    }
  }

  lemma CommonPassesNobody(cfg: seq<Info>, s: State, a: Act)
    requires Fits(cfg, s) && Live(cfg, s) && !s.life.exited && RtStrict(cfg) && NobodyPassed(cfg, s.k) && !a.Expire?
    ensures NobodyPassed(cfg, Common(cfg, s, a).k)
  {
    LiveParts(cfg, s);
    hide Live, Books, NobodyPassed, Ready, Dispatch, WakeAndRun;
    if a.Yield? || a.Quantum? {
      hide KInv;
      RequeuePassesNobody(cfg, s.k, a.Quantum?);
    } else if a.Undefer? {
      if s.k.deferred != [] {
        var m := s.k.(deferred := s.k.deferred[1..]);
        assert KInv(cfg, m) by { hide Placed, Sorted; }
        hide KInv;
        OthersPassNobody(cfg, s.k, m);
        WakeAndRunPassesNobody(cfg, m, s.k.deferred[0]);
      }
    } else {
      hide KInv;
      OthersPassNobody(cfg, s.k, Common(cfg, s, a).k);
    }
  }

  /** No step but the expiry of a timer leaves a ready real-time thread waiting while a
      thread that it outranks runs, when real-time threads have strict-priority preemption,
      as both real-time policies give it (threads/cma_sched.h:298-311). */
  lemma StepPassesNobody(cfg: seq<Info>, s: State, a: Act)
    requires Fits(cfg, s) && Live(cfg, s) && !s.life.exited && RtStrict(cfg) && NobodyPassed(cfg, s.k) && !a.Expire?
    ensures Step(cfg, s, a).life.exited || NobodyPassed(cfg, Step(cfg, s, a).k)
  {
    LiveParts(cfg, s);
    hide Live, KInv, Books, NobodyPassed, Client, Common, LastLoop;
    if a.Late? || a.Adjust? || a.Hold? || a.Yield? || a.Quantum? || a.Undefer? || a.SetErrno? {
      CommonPassesNobody(cfg, s, a);
    } else if a.LastWait? {
      if s.k.cur == INITIAL && s.life.leaving { LastPassesNobody(cfg, s); }
    } else if Ordinary(s) {
      ClientPassesNobody(cfg, s, a);
    }
  }

  /** A timer readies its thread without looking at the running one: somebody is passed
      over exactly when that thread is real-time, not on hold, and outranks it. */
  lemma ExpiryPassesExactlyWhen(cfg: seq<Info>, s: State, t: Tid)
    requires Fits(cfg, s) && Live(cfg, s) && !s.life.exited && NobodyPassed(cfg, s.k)
    requires t < |cfg| && s.k.l.place[t].In? && LAST < s.k.l.place[t].list
    ensures NobodyPassed(cfg, Step(cfg, s, Expire(t)).k)
      <==> cfg[t].cls != Rt || s.k.onHold[t] || !Outranks(cfg[t], cfg[s.k.cur])
  {
    LiveParts(cfg, s);
    hide Live, Books;
    assert StandingListed(s.k.l);
    ExpirePlace(cfg, s.k, t);
    var r := Step(cfg, s, Expire(t));
    assert r.k.l.place == s.k.l.place[t := if s.k.onHold[t] then In(HOLD) else In(Home(cfg, s.k, t))] && r.k.cur == s.k.cur;
    hide Step, KInv;
    assert !Passed(cfg, s.k, t);
    forall u: Tid | u != t ensures !Passed(cfg, r.k, u) { assert !Passed(cfg, s.k, u); }
    assert Passed(cfg, r.k, t) <==> cfg[t].cls == Rt && !s.k.onHold[t] && Outranks(cfg[t], cfg[s.k.cur]);
  }

  lemma ExpirePlace(cfg: seq<Info>, k: Kern, t: Tid)
    requires Shape(cfg, k) && t < |cfg|
    ensures Ready(cfg, k.(l := Unlink(k.l, t, Loose)), t, false).l.place
      == k.l.place[t := if k.onHold[t] then In(HOLD) else In(Home(cfg, k, t))]
  {
  }

  /** In every run without timers, and on the same terms, no ready real-time thread is ever
      left waiting while a thread that it outranks runs; with timers, no longer than to the
      next dispatch (RequeuePassesNobody, BlockPassesNobody). */
  lemma {:induction false} RunPassesNobody(cfg: seq<Info>, s: State, acts: seq<Act>)
    requires Fits(cfg, s) && Inv(cfg, s) && RtStrict(cfg) && (s.life.exited || NobodyPassed(cfg, s.k))
    requires forall i :: 0 <= i < |acts| ==> !acts[i].Expire?
    ensures var r := Run(cfg, s, acts); r.life.exited || NobodyPassed(cfg, r.k)
    decreases |acts|
  {
    if acts != [] {
      if !s.life.exited { StepPassesNobody(cfg, s, acts[0]); }
      StepInv(cfg, s, acts[0]);
      hide Inv, Live, Step, NobodyPassed;
      RunPassesNobody(cfg, Step(cfg, s, acts[0]), acts[1..]);
    }
  }

  // --- Threads queued twice ---------------------------------------------------------------------------

  /** What a wakeup inside the dispatcher does in a build that tries to run the woken
      thread even there: the old thread, already queued, is readied again. */
  function Unguarded(cfg: seq<Info>, k: Kern, t: Tid): Kern
    requires Shape(cfg, k)
  {
    if WouldRun(cfg, k, t) then Ready(cfg, k, k.cur, false) else k
  }

  /** That breaks the lists exactly when the woken thread would take the processor. */
  lemma UnguardedBreaksExactlyWhen(cfg: seq<Info>, k: Kern, t: Tid)
    requires Shape(cfg, k) && KInv(cfg, k) && k.l.place[k.cur].In?
    ensures Placed(Unguarded(cfg, k, t).l) <==> !WouldRun(cfg, k, t)
  {
    if WouldRun(cfg, k, t) {
      var n := k.l.place[k.cur].list;
      var r := Ready(cfg, k, k.cur, false);
      assert k.cur in k.l.q[n];
      var m := r.l.place[k.cur].list;
      assert r.l.place[k.cur] == In(m) && r.l.q == k.l.q[m := r.l.q[m]];
      if m == n {
        InsertTwice(k.l.q[n], if k.onHold[k.cur] then |k.l.q[HOLD]| else ReadyAt(cfg, k.l.q[n], k.cur, false), k.cur);
        assert !Once(r.l);
      } else {
        assert k.cur in r.l.q[n];
        assert !ListedStand(r.l);
      }
    }
  }

  lemma InsertTwice(q: seq<Tid>, p: nat, t: Tid)
    requires t in q && p <= |q|
    ensures !NoDup(InsertAt(q, p, t))
  {
    var r := InsertAt(q, p, t);
    var i :| 0 <= i < |q| && q[i] == t;
    assert r[p] == t;
    if i < p { assert r[i] == t; } else { assert r[i + 1] == t; }
  }

  /** The last ordinary thread wakes the initial one and tries to run it after having gone
      to its grave: a detached thread, by then on the zombie queue, is queued twice, and
      another, by then terminated, is made ready again, exactly when the initial thread would
      take the processor (and the process is about to exit). */
  lemma LastThreadIsQueuedTwiceExactlyWhen(cfg: seq<Info>, s: State)
    requires Fits(cfg, s) && Live(cfg, s) && s.k.cur != NULL && s.k.cur != INITIAL
    requires Bury(cfg, s).l.q[LAST] != []
    ensures var k := Bury(cfg, s); var u := Unguarded(cfg, k, k.l.q[LAST][0]);
      && (s.life.detached[s.k.cur] ==> (Placed(u.l) <==> !InitialPreempts(cfg, k)))
      && (!s.life.detached[s.k.cur] ==> k.l.place[k.cur] == Done && (u.l.place[k.cur] == Done <==> !InitialPreempts(cfg, k)))
  {
    BuryKeeps(cfg, s);
    var k := Bury(cfg, s);
    if s.life.detached[s.k.cur] {
      hide Live, KInv, Unguarded;
      UnguardedBreaksExactlyWhen(cfg, k, k.l.q[LAST][0]);
    } else {
      hide Live, KInv;
    }
  }
}
