/** Whole runs of the dispatcher (threads/cma_dispatch.c, threads/cma_thread.c): threads
    are created, started, blocked, woken, preempted, put on hold, terminated and laid to
    rest, while interrupts put off wakeups at any time.  One step is one operation done
    with the kernel locked. */
module Processor {
  import opened Semaphore
  import opened SchedOrder
  import opened Lists
  import opened Dispatcher
  import opened Places

  /** `cnt` counts the threads that have not terminated; `leaving` says that the initial
      thread has, and `exited` that the process is over. */
  datatype Life = Life(detached: seq<bool>, joiners: seq<nat>, cnt: int, leaving: bool, exited: bool)

  /** `errno` is the one global cell, `saved` the cells of the thread control blocks. */
  datatype State = State(k: Kern, errno: int, saved: seq<int>, life: Life)

  datatype Act =
    // anybody, and interrupts
    | Late(d: Defer) | Adjust(t: Tid, n: nat) | Hold(t: Tid, on: bool)
    | Yield | Quantum | Undefer | Expire(t: Tid) | SetErrno(v: int)
    // ordinary threads
    | Create(t: Tid) | Start(t: Tid) | Signal(d: Defer) | Wait(sem: nat)
    | Detach(t: Tid) | Join(t: Tid) | Unjoin(t: Tid)
    | TakeZombie | TestZombie(t: Tid) | FreeZombie(t: Tid) | ReturnZombie(t: Tid) | Exit
    // the initial thread once it has terminated
    | LastWait

  predicate Fits(cfg: seq<Info>, s: State) {
    Shape(cfg, s.k) && |s.saved| == |s.life.detached| == |s.life.joiners| == |cfg|
  }

  /** The null thread runs, the initial thread has just started, nobody else exists. */
  function Init(cfg: seq<Info>, sems: nat): State
    requires |cfg| > 1
  {
    var n := |cfg|;
    State(
      Kern(
        Queues(seq(LAST + sems + 1, i => if i == 0 then [NULL] else []),
          seq(n, (t: nat) => if t == NULL then In(0) else if t == INITIAL then Running else Unborn),
          seq(n, _ => 0), -1, 1),
        0, INITIAL, seq(n, _ => 1), seq(n, _ => false), seq(sems + 1, _ => true), []),
      0, seq(n, _ => 0), Life(seq(n, _ => false), seq(n, _ => 0), 2, false, false))
  }

  /** What changes with the running thread: the old one's errno is saved, the new one's restored. */
  function Resume(cfg: seq<Info>, s: State, k: Kern): (r: State)
    requires Fits(cfg, s) && Shape(cfg, k)
    ensures Fits(cfg, r)
  {
    if k.cur == s.k.cur then s.(k := k)
    else s.(k := k, saved := s.saved[s.k.cur := s.errno], errno := s.saved[k.cur])
  }

  predicate Ordinary(s: State) {
    s.k.cur != NULL && !(s.k.cur == INITIAL && s.life.leaving)
  }

  function Move(s: State, t: Tid, p: Place): State
    requires t < |s.k.l.place|
  {
    s.(k := s.k.(l := s.k.l.(place := s.k.l.place[t := p])))
  }

  /** The initial thread waits for the others to be gone, then leaves the process. */
  function LastLoop(cfg: seq<Info>, s: State): (r: State)
    requires Fits(cfg, s)
    ensures Fits(cfg, r)
  {
    if s.life.cnt <= 1 then s.(life := s.life.(exited := true))
    else if !s.k.nopending[0] then s.(k := s.k.(nopending := s.k.nopending[0 := true]))
    else Resume(cfg, s, Block(cfg, s.k, 0))
  }

  /** The dispatcher's data once the running thread is a zombie, or only terminated. */
  function Bury(cfg: seq<Info>, s: State): (k: Kern)
    requires Fits(cfg, s)
    ensures Shape(cfg, k)
  {
    s.k.(l := if s.life.detached[s.k.cur] then Lists.Join(s.k.l, s.k.cur, ZOMBIES, |s.k.l.q[ZOMBIES]|, false)
              else s.k.l.(place := s.k.l.place[s.k.cur := Done]))
  }

  /** The last thread's wakeup of the initial thread takes the processor at once. */
  predicate InitialPreempts(cfg: seq<Info>, k: Kern)
    requires Shape(cfg, k)
  {
    k.l.q[LAST] != [] && WouldRun(cfg, k, k.l.q[LAST][0])
  }

  /** The running thread terminates.  Runs end with a last thread whose wakeup of the initial
      thread gives that the processor from inside the dispatcher: what is then on two lists
      is shown beside the runs, in Scheduling. */
  function Terminate(cfg: seq<Info>, s: State): (r: State)
    requires Fits(cfg, s)
    ensures Fits(cfg, r)
  {
    var life := s.life.(cnt := s.life.cnt - 1);
    if s.k.cur == INITIAL then LastLoop(cfg, s.(life := life.(leaving := true)))
    else
      var k := Bury(cfg, s);
      if life.cnt > 1 then Resume(cfg, s, Dispatch(cfg, k)).(life := life)
      else if InitialPreempts(cfg, k) then s.(k := k, life := life.(exited := true))
      else Resume(cfg, s, Dispatch(cfg, Dispatcher.WakeOne(cfg, k, 0))).(life := life)
  }

  /** Counted by `cnt` until it terminates. */
  function Alive(p: Place): nat {
    if p == Fresh || Scheduled(p) then 1 else 0
  }

  predicate Existing(s: State, t: Tid) {
    t < |s.k.l.place| && !s.k.l.place[t].Unborn? && !s.k.l.place[t].Freed?
  }

  /** What the running thread, or an interrupt, does.  A joiner counts while it waits for the
      thread to terminate; when that has terminated it looks at the result and is gone, all
      of it with the mutex of the thread locked. */
  ghost function Step(cfg: seq<Info>, s: State, a: Act): (r: State)
    requires Fits(cfg, s)
    ensures Fits(cfg, r)
  {
    if s.life.exited then s
    else if a.Late? || a.Adjust? || a.Hold? || a.Yield? || a.Quantum? || a.Undefer? || a.Expire? || a.SetErrno? then
      Common(cfg, s, a)
    else if a.LastWait? then
      if s.k.cur == INITIAL && s.life.leaving then LastLoop(cfg, s) else s
    else if Ordinary(s) then Client(cfg, s, a)
    else s
  }

  function Common(cfg: seq<Info>, s: State, a: Act): (r: State)
    requires Fits(cfg, s)
    ensures Fits(cfg, r)
  {
    match a
    case Late(d) => if d.sem == 0 then s else s.(k := s.k.(deferred := s.k.deferred + [d]))
    case Adjust(t, n) => if t < |cfg| then s.(k := s.k.(qnum := s.k.qnum[t := n])) else s
    case Hold(t, on) => if t < |cfg| && t != NULL then s.(k := s.k.(onHold := s.k.onHold[t := on])) else s
    case Yield => Resume(cfg, s, Dispatcher.Yield(cfg, s.k))
    case Quantum => Resume(cfg, s, Dispatch(cfg, Ready(cfg, s.k, s.k.cur, true)))
    case Undefer =>
      if s.k.deferred == [] then s
      else Resume(cfg, s, WakeAndRun(cfg, s.k.(deferred := s.k.deferred[1..]), s.k.deferred[0]))
    case Expire(t) =>
      if t < |cfg| && s.k.l.place[t].In? && LAST < s.k.l.place[t].list < |s.k.l.q|
      then s.(k := Ready(cfg, s.k.(l := Unlink(s.k.l, t, Loose)), t, false))
      else s
    case SetErrno(v) => s.(errno := v)
    case _ => s
  }

  ghost function Client(cfg: seq<Info>, s: State, a: Act): (r: State)
    requires Fits(cfg, s)
    ensures Fits(cfg, r)
  {
    match a
    case Create(t) =>
      if t < |cfg| && s.k.l.place[t] == Unborn then Move(s, t, Fresh).(life := s.life.(cnt := s.life.cnt + 1)) else s
    case Start(t) =>
      if t < |cfg| && s.k.l.place[t] == Fresh then Resume(cfg, s, TryRun(cfg, Ready(cfg, s.k, t, false), t)) else s
    case Signal(d) => if d.sem == 0 then s else Resume(cfg, s, WakeAndRun(cfg, s.k, d))
    case Wait(j) =>
      if j == 0 || j >= |s.k.nopending| then s
      else if !s.k.nopending[j] then s.(k := s.k.(nopending := s.k.nopending[j := true]))
      else Resume(cfg, s, Block(cfg, s.k, j))
    case Detach(t) =>
      if !Existing(s, t) || s.life.detached[t] || t == INITIAL || t == NULL then s
      else
        var r := s.(life := s.life.(detached := s.life.detached[t := true]));
        if s.k.l.place[t] == Done then Move(r, t, Freed) else r
    case Join(t) => if t < |cfg| && t != s.k.cur && Alive(s.k.l.place[t]) > 0 then s.(life := s.life.(joiners := s.life.joiners[t := s.life.joiners[t] + 1])) else s
    case Unjoin(t) =>
      if t < |cfg| && s.life.joiners[t] > 0 then s.(life := s.life.(joiners := s.life.joiners[t := s.life.joiners[t] - 1])) else s
    case TakeZombie =>
      if s.k.l.q[ZOMBIES] == [] then s else s.(k := s.k.(l := Take(s.k.l, ZOMBIES, Taken(s.k.cur))))
    case TestZombie(t) =>
      if t < |cfg| && s.k.l.place[t] == Taken(s.k.cur)
      then Move(s, t, if s.life.joiners[t] == 0 then Doomed(s.k.cur) else Kept(s.k.cur)) else s
    case FreeZombie(t) =>
      if t < |cfg| && s.k.l.place[t] == Doomed(s.k.cur) then Move(s, t, Freed) else s
    case ReturnZombie(t) =>
      if t < |cfg| && s.k.l.place[t] == Kept(s.k.cur)
      then s.(k := s.k.(l := Lists.Join(s.k.l, t, ZOMBIES, |s.k.l.q[ZOMBIES]|, false))) else s
    case Exit =>
      if forall u: Tid :: u < |cfg| ==> s.k.l.place[u] !in {Taken(s.k.cur), Doomed(s.k.cur), Kept(s.k.cur)}
      then Terminate(cfg, s) else s
    case _ => s
  }

  ghost function Run(cfg: seq<Info>, s: State, acts: seq<Act>): (r: State)
    requires Fits(cfg, s)
    ensures Fits(cfg, r)
    decreases |acts|
  {
    if acts == [] then s else Run(cfg, Step(cfg, s, acts[0]), acts[1..])
  }

  // --- Invariant ------------------------------------------------------------------------------

  ghost predicate Counted(s: State) {
    && s.life.cnt == Total(Alive, s.k.l.place) - (if s.life.leaving then 1 else 0)
    && INITIAL < |s.k.l.place| && Scheduled(s.k.l.place[INITIAL])
  }

  /** Only the initial thread waits for the last one, and only while others remain. */
  ghost predicate LastWaits(s: State) {
    forall t: Tid :: t < |s.k.l.place| && s.k.l.place[t] == In(LAST) ==> t == INITIAL && s.life.leaving && s.life.cnt > 1
  }

  predicate Grave(p: Place) {
    p == In(ZOMBIES) || p.Taken? || p.Doomed? || p.Kept?
  }

  ghost predicate Buried(s: State) {
    && |s.life.detached| == |s.k.l.place|
    && (forall t: Tid :: t < |s.k.l.place| ==>
          (Grave(s.k.l.place[t]) ==> s.life.detached[t]) && (s.k.l.place[t] == Done ==> !s.life.detached[t]))
    && (INITIAL < |s.life.detached| ==> !s.life.detached[INITIAL])
  }

  /** Nobody is left but the null thread and the initial thread. */
  ghost predicate OthersGone(l: Queues) {
    forall t: Tid :: t < |l.place| && Alive(l.place[t]) > 0 ==> t == NULL || t == INITIAL
  }

  ghost predicate Books(s: State) {
    Counted(s) && LastWaits(s) && Buried(s)
  }

  ghost predicate Live(cfg: seq<Info>, s: State) {
    Fits(cfg, s) && KInv(cfg, s.k) && s.k.l.place[s.k.cur] == Running && Books(s)
  }

  ghost predicate Inv(cfg: seq<Info>, s: State) {
    Fits(cfg, s) && if s.life.exited then OthersGone(s.k.l) else Live(cfg, s)
  }

  lemma InitInv(cfg: seq<Info>, sems: nat)
    requires |cfg| > 1 && cfg[NULL].cls == Idle
    ensures Inv(cfg, Init(cfg, sems))
  {
    var s := Init(cfg, sems);
    var p := s.k.l.place;
    assert Placed(s.k.l) by {
      assert forall i: nat :: i < |s.k.l.q| ==> s.k.l.q[i] == if i == 0 then [NULL] else [];
    }
    TwoAlive(p);
  }

  lemma TwoAlive(p: seq<Place>)
    requires |p| > 1 && Alive(p[NULL]) == 1 && Alive(p[INITIAL]) == 1
    ensures Total(Alive, p) >= 2
    ensures Total(Alive, p) == 2 <==> forall t: Tid :: t < |p| && Alive(p[t]) > 0 ==> t == NULL || t == INITIAL
  {
    var a := p[NULL := Unborn];
    var b := a[INITIAL := Unborn];
    TotalUpdate(Alive, p, NULL, Unborn);
    TotalUpdate(Alive, a, INITIAL, Unborn);
    if Total(Alive, b) > 0 {
      var i := TotalWitness(Alive, b);
      assert Alive(p[i]) > 0;
    } else {
      forall t: Tid | t < |p| && Alive(p[t]) > 0
        ensures t == NULL || t == INITIAL
      {
        if t != NULL && t != INITIAL { TotalUpdate(Alive, b, t, Unborn); }
      }
    }
  }

  // --- Every step keeps the invariant --------------------------------------------------------------

  /** Moves between the lists and the processor touch no count and no grave. */
  lemma SameLife(s: State, r: State)
    requires Books(s)
    requires r.life == s.life && Same(s.k.l, r.k.l)
    ensures Books(r)
  {
    assert forall t: Tid :: t < |s.k.l.place| ==> Alive(r.k.l.place[t]) == Alive(s.k.l.place[t]);
    TotalSame(Alive, s.k.l.place, r.k.l.place);
    assert r.k.l.place[INITIAL] == r.k.l.place[INITIAL];
    forall t: Tid | t < |s.k.l.place|
      ensures (Grave(r.k.l.place[t]) ==> s.life.detached[t]) && (r.k.l.place[t] == Done ==> !s.life.detached[t])
    {
      assert r.k.l.place[t] == r.k.l.place[t];
    }
  }

  lemma ExpireKeeps(cfg: seq<Info>, k: Kern, t: Tid)
    requires Shape(cfg, k) && KInv(cfg, k) && k.l.place[k.cur] == Running
    requires t < |cfg| && k.l.place[t].In? && LAST < k.l.place[t].list < |k.l.q|
    ensures var r := Ready(cfg, k.(l := Unlink(k.l, t, Loose)), t, false);
      KInv(cfg, r) && r.cur == k.cur && r.l.place[k.cur] == Running && Same(k.l, r.l)
  {
    UnlinkKeeps(cfg, k, t);
    hide KInv, Ready;
    ReadyKeeps(cfg, k.(l := Unlink(k.l, t, Loose)), t, false);
    hide Without;
  }

  lemma AsideKeeps(cfg: seq<Info>, s: State, a: Act)
    requires Fits(cfg, s) && Live(cfg, s) && (a.Late? || a.Adjust? || a.Hold? || a.SetErrno?)
    ensures var r := Common(cfg, s, a);
      KInv(cfg, r.k) && r.k.l == s.k.l && r.k.cur == s.k.cur && r.life == s.life
  {
    hide Books, Placed, Sorted;
  }

  lemma UndeferKeeps(cfg: seq<Info>, k: Kern)
    requires Shape(cfg, k) && KInv(cfg, k) && k.l.place[k.cur] == Running && k.deferred != []
    ensures var r := WakeAndRun(cfg, k.(deferred := k.deferred[1..]), k.deferred[0]);
      KInv(cfg, r) && r.l.place[r.cur] == Running && Same(k.l, r.l)
  {
    var m := k.(deferred := k.deferred[1..]);
    assert KInv(cfg, m) by { hide Placed, Sorted; }
    hide KInv, Same, WakeAndRun;
    WakeAndRunKeeps(cfg, m, k.deferred[0]);
  }

  lemma CommonMoves(cfg: seq<Info>, s: State, a: Act)
    requires Fits(cfg, s) && Live(cfg, s)
    ensures var r := Common(cfg, s, a);
      KInv(cfg, r.k) && r.k.l.place[r.k.cur] == Running && Same(s.k.l, r.k.l) && r.life == s.life
  {
    hide KInv, Books, Ready, Dispatch, WakeAndRun;
    match a {
      case Yield => RequeueKeeps(cfg, s.k, false);
      case Quantum => RequeueKeeps(cfg, s.k, true);
      case Undefer => if s.k.deferred != [] { UndeferKeeps(cfg, s.k); }
      case Expire(t) =>
        if t < |cfg| && s.k.l.place[t].In? && LAST < s.k.l.place[t].list < |s.k.l.q| { ExpireKeeps(cfg, s.k, t); }
      case Late(_) => AsideKeeps(cfg, s, a);
      case Adjust(_, _) => AsideKeeps(cfg, s, a);
      case Hold(_, _) => AsideKeeps(cfg, s, a);
      case SetErrno(_) => AsideKeeps(cfg, s, a);
      case _ =>
    }
  }

  lemma CommonKeeps(cfg: seq<Info>, s: State, a: Act)
    requires Fits(cfg, s) && Live(cfg, s)
    ensures Live(cfg, Common(cfg, s, a)) && Common(cfg, s, a).life == s.life
  {
    hide KInv, Books, Common, Same;
    CommonMoves(cfg, s, a);
    SameLife(s, Common(cfg, s, a));
  }

  /** One thread changes its place, inside the books or outside them. */
  lemma MoveLife(s: State, r: State, t: Tid, p: Place)
    requires Books(s)
    requires t < |s.k.l.place| && t != INITIAL && r.k.l.place == s.k.l.place[t := p]
    requires r.life == s.life.(cnt := s.life.cnt + Alive(p) - Alive(s.k.l.place[t])) && p != In(LAST)
    requires s.life.cnt > 1 && r.life.cnt <= 1 ==> forall u: Tid :: u < |s.k.l.place| ==> s.k.l.place[u] != In(LAST)
    requires (Grave(p) ==> s.life.detached[t]) && (p == Done ==> !s.life.detached[t])
    ensures Books(r)
  {
    TotalUpdate(Alive, s.k.l.place, t, p);
  }

  lemma MoveKeeps(cfg: seq<Info>, k: Kern, t: Tid, p: Place)
    requires KInv(cfg, k) && t < |cfg| && t != NULL && t != k.cur
    requires !k.l.place[t].In? && !p.In? && p != Running
    ensures KInv(cfg, k.(l := k.l.(place := k.l.place[t := p])))
  {
    MovePlaced(k.l, t, p);
    hide Placed;
  }

  lemma EntombKeeps(cfg: seq<Info>, k: Kern, t: Tid)
    requires KInv(cfg, k) && t < |cfg| && t != NULL && !k.l.place[t].In?
    ensures KInv(cfg, k.(l := Lists.Join(k.l, t, ZOMBIES, |k.l.q[ZOMBIES]|, false)))
  {
    JoinPlaced(k.l, t, ZOMBIES, |k.l.q[ZOMBIES]|, false);
    JoinSorted(cfg, k.l, t, ZOMBIES, |k.l.q[ZOMBIES]|, false);
    hide Placed, Sorted, InsertAt;
  }

  lemma StartKeeps(cfg: seq<Info>, s: State, t: Tid)
    requires Fits(cfg, s) && Live(cfg, s) && t < |cfg| && s.k.l.place[t] == Fresh
    ensures Live(cfg, Resume(cfg, s, TryRun(cfg, Ready(cfg, s.k, t, false), t)))
  {
    hide Books;
    var k := Ready(cfg, s.k, t, false);
    var m := s.(k := k);
    assert t != INITIAL by { BooksInitial(s); }
    ReadyKeeps(cfg, s.k, t, false);
    hide KInv, Ready, TryRun, Same;
    MoveLife(s, m, t, k.l.place[t]);
    TryRunKeeps(cfg, k, t);
    SameLife(m, Resume(cfg, s, TryRun(cfg, k, t)));
  }

  lemma BooksInitial(s: State)
    requires Books(s)
    ensures INITIAL < |s.k.l.place| && Scheduled(s.k.l.place[INITIAL])
  {
  }

  lemma SignalKeeps(cfg: seq<Info>, s: State, d: Defer)
    requires Fits(cfg, s) && Live(cfg, s)
    ensures Live(cfg, Resume(cfg, s, WakeAndRun(cfg, s.k, d)))
  {
    hide KInv, Books, WakeAndRun, Same;
    WakeAndRunKeeps(cfg, s.k, d);
    SameLife(s, Resume(cfg, s, WakeAndRun(cfg, s.k, d)));
  }

  lemma BlockLives(cfg: seq<Info>, s: State, j: nat)
    requires Fits(cfg, s) && Live(cfg, s) && s.k.cur != NULL && 0 < j < |s.k.nopending| && s.k.nopending[j]
    ensures Live(cfg, Resume(cfg, s, Block(cfg, s.k, j)))
  {
    var m := s.(k := s.k.(l := s.k.l.(place := s.k.l.place[s.k.cur := In(LAST + j)])));
    hide KInv, Books, Block;
    assert Same(s.k.l, m.k.l);
    hide Same;
    BlockKeeps(cfg, s.k, j);
    SameLife(s, m);
    SameLife(m, Resume(cfg, s, Block(cfg, s.k, j)));
  }

  lemma PendingUsed(cfg: seq<Info>, s: State, j: nat)
    requires Fits(cfg, s) && Live(cfg, s) && 0 < j < |s.k.nopending|
    ensures Live(cfg, s.(k := s.k.(nopending := s.k.nopending[j := true])))
  {
    var k := s.k.(nopending := s.k.nopending[j := true]);
    hide KInv, Books;
    BooksAside(s, k);
    PendingAside(cfg, s.k, j);
  }

  lemma BooksAside(s: State, k: Kern)
    requires Books(s) && k.l == s.k.l
    ensures Books(s.(k := k))
  {
  }

  lemma PendingAside(cfg: seq<Info>, k: Kern, j: nat)
    requires KInv(cfg, k) && j < |k.nopending|
    ensures KInv(cfg, k.(nopending := k.nopending[j := true]))
  {
    hide Placed, Sorted;
  }

  lemma WaitKeeps(cfg: seq<Info>, s: State, j: nat)
    requires Fits(cfg, s) && Live(cfg, s) && s.k.cur != NULL && 0 < j < |s.k.nopending|
    ensures Live(cfg, Client(cfg, s, Wait(j)))
  {
    hide Live, Block;
    if s.k.nopending[j] { BlockLives(cfg, s, j); } else { PendingUsed(cfg, s, j); }
  }

  lemma CreateKeeps(cfg: seq<Info>, s: State, t: Tid)
    requires Fits(cfg, s) && Live(cfg, s) && t < |cfg| && s.k.l.place[t] == Unborn
    ensures Live(cfg, Client(cfg, s, Create(t)))
  {
    hide Books;
    assert t != INITIAL by { BooksInitial(s); }
    MoveKeeps(cfg, s.k, t, Fresh);
    hide KInv;
    MoveLife(s, Client(cfg, s, Create(t)), t, Fresh);
  }

  lemma DetachBooks(s: State, r: State, t: Tid)
    requires Books(s) && t < |s.k.l.place| && t != INITIAL && !s.life.detached[t]
    requires r.life == s.life.(detached := s.life.detached[t := true])
    requires r.k.l.place == if s.k.l.place[t] == Done then s.k.l.place[t := Freed] else s.k.l.place
    ensures Books(r)
  {
    if s.k.l.place[t] == Done { TotalUpdate(Alive, s.k.l.place, t, Freed); }
  }

  lemma DetachKeeps(cfg: seq<Info>, s: State, t: Tid)
    requires Fits(cfg, s) && Live(cfg, s)
    ensures Live(cfg, Client(cfg, s, Detach(t)))
  {
    hide Books;
    if Existing(s, t) && !s.life.detached[t] && t != INITIAL && t != NULL {
      if s.k.l.place[t] == Done { MoveKeeps(cfg, s.k, t, Freed); }
      hide KInv;
      assert |s.life.detached| == |s.k.l.place|;
      DetachBooks(s, Client(cfg, s, Detach(t)), t);
    }
  }

  lemma BooksGrave(s: State, t: Tid)
    requires Books(s) && t < |s.k.l.place| && Grave(s.k.l.place[t])
    ensures t < |s.life.detached| && s.life.detached[t] && t != INITIAL
  {
  }

  lemma ZombieTaken(cfg: seq<Info>, s: State)
    requires Fits(cfg, s) && Live(cfg, s)
    ensures Live(cfg, Client(cfg, s, TakeZombie))
  {
    hide Books;
    if s.k.l.q[ZOMBIES] != [] {
      TakeKeeps(cfg, s.k, ZOMBIES, Taken(s.k.cur));
      hide KInv;
      BooksGrave(s, s.k.l.q[ZOMBIES][0]);
      MoveLife(s, Client(cfg, s, TakeZombie), s.k.l.q[ZOMBIES][0], Taken(s.k.cur));
    }
  }

  lemma ZombieTested(cfg: seq<Info>, s: State, t: Tid)
    requires Fits(cfg, s) && Live(cfg, s)
    ensures Live(cfg, Client(cfg, s, TestZombie(t)))
  {
    hide Books;
    if t < |cfg| && s.k.l.place[t] == Taken(s.k.cur) {
      var p := if s.life.joiners[t] == 0 then Doomed(s.k.cur) else Kept(s.k.cur);
      MoveKeeps(cfg, s.k, t, p);
      hide KInv;
      BooksGrave(s, t);
      MoveLife(s, Client(cfg, s, TestZombie(t)), t, p);
    }
  }

  lemma ZombieFreed(cfg: seq<Info>, s: State, t: Tid)
    requires Fits(cfg, s) && Live(cfg, s)
    ensures Live(cfg, Client(cfg, s, FreeZombie(t)))
  {
    hide Books;
    if t < |cfg| && s.k.l.place[t] == Doomed(s.k.cur) {
      MoveKeeps(cfg, s.k, t, Freed);
      hide KInv;
      BooksGrave(s, t);
      MoveLife(s, Client(cfg, s, FreeZombie(t)), t, Freed);
    }
  }

  lemma ZombieReturned(cfg: seq<Info>, s: State, t: Tid)
    requires Fits(cfg, s) && Live(cfg, s)
    ensures Live(cfg, Client(cfg, s, ReturnZombie(t)))
  {
    hide Books;
    if t < |cfg| && s.k.l.place[t] == Kept(s.k.cur) {
      EntombKeeps(cfg, s.k, t);
      hide KInv;
      BooksGrave(s, t);
      MoveLife(s, Client(cfg, s, ReturnZombie(t)), t, In(ZOMBIES));
    }
  }

  // --- Termination ------------------------------------------------------------------------------------

  lemma CountedMeansGone(l: Queues)
    requires |l.place| > 1 && Alive(l.place[NULL]) == 1 && Alive(l.place[INITIAL]) == 1 && Total(Alive, l.place) <= 2
    ensures OthersGone(l)
  {
    TwoAlive(l.place);
  }

  lemma LastLoopKeeps(cfg: seq<Info>, s: State)
    requires Fits(cfg, s) && Live(cfg, s) && s.k.cur == INITIAL && s.life.leaving && !s.life.exited
    ensures Inv(cfg, LastLoop(cfg, s))
  {
    if s.life.cnt <= 1 {
      CountedMeansGone(s.k.l);
    } else if s.k.nopending[0] {
      var m := s.(k := s.k.(l := s.k.l.(place := s.k.l.place[INITIAL := In(LAST)])));
      TotalUpdate(Alive, s.k.l.place, INITIAL, In(LAST));
      assert Books(m);
      hide KInv, Books, Block, Same;
      BlockKeeps(cfg, s.k, 0);
      SameLife(m, Resume(cfg, s, Block(cfg, s.k, 0)));
    } else {
      hide Placed, Sorted;
    }
  }

  lemma BuryKeeps(cfg: seq<Info>, s: State)
    requires Fits(cfg, s) && Live(cfg, s) && s.k.cur != NULL && s.k.cur != INITIAL
    ensures var k := Bury(cfg, s);
      && KInv(cfg, k) && NobodyRuns(k.l)
      && k.l.place == s.k.l.place[s.k.cur := if s.life.detached[s.k.cur] then In(ZOMBIES) else Done]
  {
    hide Books;
    if s.life.detached[s.k.cur] {
      EntombKeeps(cfg, s.k, s.k.cur);
    } else {
      MovePlaced(s.k.l, s.k.cur, Done);
    }
    hide Placed, InsertAt;
  }

  /** The books after a thread has gone to its grave, and others have moved about. */
  lemma BuriedBooks(s: State, t: Tid, l: Queues, r: State)
    requires Books(s) && t < |s.k.l.place| && t != INITIAL && s.k.l.place[t] == Running
    requires l.place == s.k.l.place[t := if s.life.detached[t] then In(ZOMBIES) else Done]
    requires Same(l, r.k.l) && r.life == s.life.(cnt := s.life.cnt - 1)
    requires r.life.cnt <= 1 ==> forall u: Tid :: u < |r.k.l.place| ==> r.k.l.place[u] != In(LAST)
    ensures Books(r)
  {
    var p := l.place[t];
    TotalUpdate(Alive, s.k.l.place, t, p);
    assert forall u: Tid :: u < |l.place| ==> Alive(r.k.l.place[u]) == Alive(l.place[u]);
    TotalSame(Alive, l.place, r.k.l.place);
    assert r.k.l.place[INITIAL] == r.k.l.place[INITIAL];
    forall u: Tid | u < |l.place|
      ensures (Grave(r.k.l.place[u]) ==> s.life.detached[u]) && (r.k.l.place[u] == Done ==> !s.life.detached[u])
      ensures r.k.l.place[u] == In(LAST) ==> u == INITIAL && r.life.leaving && r.life.cnt > 1
    {
      assert r.k.l.place[u] == r.k.l.place[u];
    }
  }

  lemma AtMostInitial(k: Kern)
    requires Placed(k.l) && LAST < |k.l.q|
    requires forall t: Tid :: t < |k.l.place| && k.l.place[t] == In(LAST) ==> t == INITIAL
    ensures |k.l.q[LAST]| <= 1
  {
    var q := k.l.q[LAST];
    if q != [] {
      var i := |q| - 1;
      assert q[0] in k.l.q[LAST] && q[i] in k.l.q[LAST];
      assert q[0] == q[i] && NoDup(q);
    }
  }

  lemma InListed(l: Queues, n: nat)
    requires Placed(l) && n < |l.q|
    ensures forall t: Tid :: t < |l.place| && l.place[t] == In(n) ==> t in l.q[n]
  {
    forall t: Tid | t < |l.place| && l.place[t] == In(n) ensures t in l.q[n] {
      assert l.place[t].In?;
    }
  }

  lemma KInvPlaced(cfg: seq<Info>, k: Kern)
    requires KInv(cfg, k)
    ensures Placed(k.l) && Shape(cfg, k)
  {
  }

  /** The only thread that waits for the last one is woken by it. */
  lemma LastIsWoken(cfg: seq<Info>, k: Kern)
    requires Shape(cfg, k) && KInv(cfg, k)
    requires forall t: Tid :: t < |k.l.place| && k.l.place[t] == In(LAST) ==> t == INITIAL
    ensures var r := Dispatcher.WakeOne(cfg, k, 0);
      KInv(cfg, r) && Woke(k.l, r.l) && forall t: Tid :: t < |r.l.place| ==> r.l.place[t] != In(LAST)
  {
    var r := Dispatcher.WakeOne(cfg, k, 0);
    WakeOneKeeps(cfg, k, 0);
    KInvPlaced(cfg, k);
    KInvPlaced(cfg, r);
    assert k.l.q[LAST] == [] ==> r.l == k.l;
    hide KInv, Placed, Dispatcher.WakeOne;
    AtMostInitial(k);
    InListed(r.l, LAST);
    assert r.l.q[LAST] == [];
  }

  /** The last one gone, the initial thread is readied before the next is chosen. */
  lemma LastLeaves(cfg: seq<Info>, s: State, k: Kern)
    requires Fits(cfg, s) && Live(cfg, s) && s.k.cur != NULL && s.k.cur != INITIAL && s.life.cnt - 1 <= 1
    requires k == Bury(cfg, s)
    ensures Live(cfg, Resume(cfg, s, Dispatch(cfg, Dispatcher.WakeOne(cfg, k, 0))).(life := s.life.(cnt := s.life.cnt - 1)))
  {
    hide KInv, Books, Bury, Dispatch, Same, NobodyRuns, Switched, Woke, Dispatcher.WakeOne;
    BuryKeeps(cfg, s);
    BooksInitial(s);
    BuryLast(s, k.l);
    LastIsWoken(cfg, k);
    var w := Dispatcher.WakeOne(cfg, k, 0);
    WokeNobodyRuns(k.l, w.l);
    WokeSame(k.l, w.l);
    DispatchKeeps(cfg, w);
    var r := Dispatch(cfg, w);
    SwitchedSame(w.l, r.l, r.cur);
    SameTwice(k.l, w.l, r.l);
    SameLast(w.l, r.l);
    SwitchedRuns(w.l, r.l, r.cur);
    BuriedBooks(s, s.k.cur, k.l, Resume(cfg, s, r).(life := s.life.(cnt := s.life.cnt - 1)));
  }

  lemma SwitchedRuns(l: Queues, r: Queues, c: Tid)
    requires Switched(l, r, c)
    ensures c < |r.place| && r.place[c] == Running
  {
  }

  lemma BuryLast(s: State, l: Queues)
    requires Books(s) && s.k.cur < |s.k.l.place|
    requires l.place == s.k.l.place[s.k.cur := In(ZOMBIES)] || l.place == s.k.l.place[s.k.cur := Done]
    ensures forall t: Tid :: t < |l.place| && l.place[t] == In(LAST) ==> t == INITIAL
  {
  }

  lemma OneLeaves(cfg: seq<Info>, s: State, k: Kern)
    requires Fits(cfg, s) && Live(cfg, s) && s.k.cur != NULL && s.k.cur != INITIAL && s.life.cnt - 1 > 1
    requires k == Bury(cfg, s)
    ensures Live(cfg, Resume(cfg, s, Dispatch(cfg, k)).(life := s.life.(cnt := s.life.cnt - 1)))
  {
    hide KInv, Books, Bury, Dispatch, Same, NobodyRuns, Switched;
    BuryKeeps(cfg, s);
    BooksInitial(s);
    DispatchKeeps(cfg, k);
    var r := Dispatch(cfg, k);
    SwitchedSame(k.l, r.l, r.cur);
    SwitchedRuns(k.l, r.l, r.cur);
    BuriedBooks(s, s.k.cur, k.l, Resume(cfg, s, r).(life := s.life.(cnt := s.life.cnt - 1)));
  }

  lemma TerminateKeeps(cfg: seq<Info>, s: State)
    requires Fits(cfg, s) && Live(cfg, s) && s.k.cur != NULL && s.k.cur != INITIAL && !s.life.exited
    ensures Inv(cfg, Terminate(cfg, s))
  {
    var k := Bury(cfg, s);
    if s.life.cnt - 1 > 1 {
      OneLeaves(cfg, s, k);
    } else if InitialPreempts(cfg, k) {
      BuryKeeps(cfg, s);
      BooksInitial(s);
      BooksTotal(s);
      TotalUpdate(Alive, s.k.l.place, s.k.cur, k.l.place[s.k.cur]);
      CountedMeansGone(k.l);
    } else {
      LastLeaves(cfg, s, k);
    }
    hide Live, Bury, Dispatch, Dispatcher.WakeOne;
  }

  lemma BooksTotal(s: State)
    requires Books(s)
    ensures s.life.cnt == Total(Alive, s.k.l.place) - (if s.life.leaving then 1 else 0)
  {
  }

  lemma SameLast(l: Queues, r: Queues)
    requires Same(l, r) && forall t: Tid :: t < |l.place| ==> l.place[t] != In(LAST)
    ensures forall t: Tid :: t < |r.place| ==> r.place[t] != In(LAST)
  {
  }

  lemma InitialLeaves(cfg: seq<Info>, s: State)
    requires Fits(cfg, s) && Live(cfg, s) && s.k.cur == INITIAL && !s.life.leaving && !s.life.exited
    ensures Inv(cfg, Terminate(cfg, s))
  {
    var m := s.(life := s.life.(cnt := s.life.cnt - 1, leaving := true));
    assert Books(m);
    hide KInv, Books;
    LastLoopKeeps(cfg, m);
  }

  lemma ClientKeeps(cfg: seq<Info>, s: State, a: Act)
    requires Fits(cfg, s) && Live(cfg, s) && Ordinary(s) && !s.life.exited
    ensures Inv(cfg, Client(cfg, s, a))
  {
    hide Live;
    match a {
      case Create(t) => if t < |cfg| && s.k.l.place[t] == Unborn { CreateKeeps(cfg, s, t); }
      case Start(t) => if t < |cfg| && s.k.l.place[t] == Fresh { StartKeeps(cfg, s, t); }
      case Signal(d) => SignalKeeps(cfg, s, d);
      case Wait(j) => if 0 < j < |s.k.nopending| { WaitKeeps(cfg, s, j); }
      case Detach(t) => DetachKeeps(cfg, s, t);
      case TakeZombie => ZombieTaken(cfg, s);
      case TestZombie(t) => ZombieTested(cfg, s, t);
      case FreeZombie(t) => ZombieFreed(cfg, s, t);
      case ReturnZombie(t) => ZombieReturned(cfg, s, t);
      case Exit => if s.k.cur == INITIAL { InitialLeaves(cfg, s); } else { TerminateKeeps(cfg, s); }
      case _ => JoinKeeps(cfg, s, a);
    }
  }

  lemma JoinKeeps(cfg: seq<Info>, s: State, a: Act)
    requires Fits(cfg, s) && Live(cfg, s) && !s.life.exited
    requires !a.Create? && !a.Start? && !a.Signal? && !a.Wait? && !a.Detach? && !a.TakeZombie? && !a.TestZombie?
      && !a.FreeZombie? && !a.ReturnZombie? && !a.Exit?
    ensures Live(cfg, Client(cfg, s, a)) && !Client(cfg, s, a).life.exited
  {
    hide KInv;
  }

  /** Every step keeps the invariant. */
  lemma StepInv(cfg: seq<Info>, s: State, a: Act)
    requires Fits(cfg, s) && Inv(cfg, s)
    ensures Inv(cfg, Step(cfg, s, a))
  {
    hide Live, Client, Common, LastLoop;
    if !s.life.exited {
      if a.Late? || a.Adjust? || a.Hold? || a.Yield? || a.Quantum? || a.Undefer? || a.Expire? || a.SetErrno? {
        CommonKeeps(cfg, s, a);
      } else if a.LastWait? {
        if s.k.cur == INITIAL && s.life.leaving { LastLoopKeeps(cfg, s); }
      } else if Ordinary(s) {
        ClientKeeps(cfg, s, a);
      }
    }
  }

  lemma {:induction false} RunInv(cfg: seq<Info>, s: State, acts: seq<Act>)
    requires Fits(cfg, s) && Inv(cfg, s)
    ensures Inv(cfg, Run(cfg, s, acts))
    decreases |acts|
  {
    hide Inv, Step;
    if acts != [] {
      StepInv(cfg, s, acts[0]);
      RunInv(cfg, Step(cfg, s, acts[0]), acts[1..]);
    }
  }
}
