/** Whose turn it is, and what becomes of a thread: round robin among equals, threads on hold,
    the life of a thread from its creation to its end, joiners, and the exit of the process. */
module Turns {
  import opened Semaphore
  import opened SchedOrder
  import opened Lists
  import opened Dispatcher
  import opened Places
  import opened Processor
  import opened Scheduling
  import Wakeups

  // --- Turns among equals -----------------------------------------------------------------------------

  /** The ring of equals: the running thread and those ready on its list, which is the highest;
      nothing is deferred, and nobody is on hold. */
  ghost predicate Round(cfg: seq<Info>, k: Kern, n: nat, ring: seq<Tid>) {
    && Shape(cfg, k) && KInv(cfg, k) && k.l.place[k.cur] == Running && k.deferred == [] && n < N_READY
    && ring == [k.cur] + k.l.q[n]
    && (forall i: nat :: n < i < N_READY ==> k.l.q[i] == [])
    && (forall t: Tid :: t in ring ==> t < |cfg| && Wakeups.Due(cfg, k, t) == n && (cfg[t].cls == Rt ==> cfg[t].prio == cfg[k.cur].prio))
  }

  lemma BehindEquals(cfg: seq<Info>, q: seq<Tid>, t: Tid)
    requires t < |cfg| && forall u :: u in q ==> u < |cfg| && (cfg[u].cls == Rt <==> cfg[t].cls == Rt)
    requires cfg[t].cls == Rt ==> forall u :: u in q ==> cfg[u].prio == cfg[t].prio
    ensures ReadyAt(cfg, q, t, false) == |q| && ReadyAt(cfg, q, t, true) == 0
    decreases |q|
  {
    if q != [] {
      assert forall u :: u in q[1..] ==> u in q;
      BehindEquals(cfg, q[1..], t);
    }
  }

  lemma AtTheEnds(q: seq<Tid>, t: Tid)
    ensures InsertAt(q, |q|, t) == q + [t] && InsertAt(q, 0, t) == [t] + q
  {
  }

  /** The running thread goes to one end of the ring or the other. */
  lemma Requeued(cfg: seq<Info>, k: Kern, n: nat, ring: seq<Tid>, preempt: bool)
    requires Round(cfg, k, n, ring)
    ensures var r := Ready(cfg, k, k.cur, preempt);
      && ring != [] && r.l.q == k.l.q[n := Turn(ring, preempt)] && r.deferred == [] && r.next == (if n > k.next then n else k.next)
      && r.onHold == k.onHold && r.qnum == k.qnum
  {
    var c := k.cur;
    assert c in ring && forall u :: u in k.l.q[n] ==> u in ring;
    forall u | u in k.l.q[n] ensures cfg[u].cls == Rt <==> cfg[c].cls == Rt {
      assert Wakeups.Due(cfg, k, u) == n && Wakeups.Due(cfg, k, c) == n;
    }
    hide KInv;
    BehindEquals(cfg, k.l.q[n], c);
    AtTheEnds(k.l.q[n], c);
    assert ring[1..] == k.l.q[n] && ring[..1] == [c];
    hide InsertAt, ReadyAt;
  }

  /** The first of the highest list runs. */
  lemma FirstRuns(cfg: seq<Info>, k: Kern, n: nat, q: seq<Tid>)
    requires Shape(cfg, k) && n <= k.next && k.l.q[n] == q && q != [] && q[0] < |cfg| && k.deferred == []
    requires forall i: nat :: n < i < N_READY ==> k.l.q[i] == []
    ensures var r := Dispatch(cfg, k);
      && r.cur == q[0] && r.l.q == k.l.q[n := q[1..]] && r.deferred == [] && r.next == n && r.onHold == k.onHold && r.qnum == k.qnum
  {
    TopIsHighest(k.l.q, k.next);
    var m := Top(k.l.q, k.next);
    assert k.l.q[n] != [];
    assert m == n;
    hide Top;
  }

  /** The ring with the running thread put behind the others, or before them. */
  function Turn(ring: seq<Tid>, preempt: bool): (r: seq<Tid>)
    ensures |r| == |ring|
  {
    if preempt || ring == [] then ring else ring[1..] + ring[..1]
  }

  /** k with the ring, as turned, on list n, after its first thread has been taken to run. */
  ghost predicate Took(cfg: seq<Info>, k: Kern, n: nat, turned: seq<Tid>, r: Kern) {
    && Shape(cfg, r) && turned != [] && r.cur == turned[0] && n < |k.l.q| && r.l.q == k.l.q[n := turned[1..]]
    && r.deferred == [] && r.onHold == k.onHold && r.qnum == k.qnum
  }

  lemma TookFirst(cfg: seq<Info>, k: Kern, n: nat, turned: seq<Tid>, m: Kern)
    requires Shape(cfg, m) && n < |k.l.q| && m.l.q == k.l.q[n := turned] && m.deferred == [] && m.onHold == k.onHold && m.qnum == k.qnum
    requires n <= m.next && turned != [] && turned[0] < |cfg| && n < N_READY
    requires forall i: nat :: n < i < N_READY ==> i < |k.l.q| && k.l.q[i] == []
    ensures Took(cfg, k, n, turned, Dispatch(cfg, m))
  {
    hide Dispatch;
    FirstRuns(cfg, m, n, turned);
    assert k.l.q[n := turned][n := turned[1..]] == k.l.q[n := turned[1..]];
  }

  lemma RequeuedRuns(cfg: seq<Info>, k: Kern, n: nat, ring: seq<Tid>, preempt: bool)
    requires Shape(cfg, k) && Round(cfg, k, n, ring)
    ensures var r := Dispatch(cfg, Ready(cfg, k, k.cur, preempt));
      KInv(cfg, r) && r.l.place[r.cur] == Running && Took(cfg, k, n, Turn(ring, preempt), r)
  {
    RoundFacts(cfg, k, n, ring);
    hide Round, KInv, Ready, Dispatch, Same, Took;
    RequeueKeeps(cfg, k, preempt);
    Requeued(cfg, k, n, ring, preempt);
    TurnedFirst(cfg, k, n, ring, Turn(ring, preempt));
    TookFirst(cfg, k, n, Turn(ring, preempt), Ready(cfg, k, k.cur, preempt));
  }

  lemma RoundFacts(cfg: seq<Info>, k: Kern, n: nat, ring: seq<Tid>)
    requires Round(cfg, k, n, ring)
    ensures Shape(cfg, k) && KInv(cfg, k) && k.l.place[k.cur] == Running && n < N_READY && n < |k.l.q|
  {
    hide KInv;
  }

  lemma TurnedFirst(cfg: seq<Info>, k: Kern, n: nat, ring: seq<Tid>, turned: seq<Tid>)
    requires Round(cfg, k, n, ring) && (turned == ring || (ring != [] && turned == ring[1..] + ring[..1]))
    ensures turned != [] && turned[0] < |cfg| && ring[..1] == [k.cur] && n < |k.l.q|
    ensures forall i: nat :: n < i < N_READY ==> i < |k.l.q| && k.l.q[i] == []
  {
    hide KInv;
    assert turned[0] in ring;
  }

  lemma TurnSame(ring: seq<Tid>, preempt: bool)
    ensures forall t :: t in Turn(ring, preempt) <==> t in ring
  {
    assert ring == ring[..if ring == [] then 0 else 1] + ring[if ring == [] then 0 else 1..];
  }

  lemma StillRound(cfg: seq<Info>, k: Kern, n: nat, ring: seq<Tid>, r: Kern, turned: seq<Tid>)
    requires Round(cfg, k, n, ring) && Shape(cfg, r) && KInv(cfg, r) && r.l.place[r.cur] == Running && Took(cfg, k, n, turned, r)
    requires forall t :: t in turned ==> t in ring
    ensures Round(cfg, r, n, turned)
  {
    hide KInv;
    assert [turned[0]] + turned[1..] == turned;
    assert r.cur in turned && k.cur in ring;
    forall t: Tid | t in turned
      ensures t < |cfg| && Wakeups.Due(cfg, r, t) == n && (cfg[t].cls == Rt ==> cfg[t].prio == cfg[r.cur].prio)
    {
      assert t in ring && r.cur in ring;
      assert Wakeups.Due(cfg, k, t) == n && Wakeups.Due(cfg, k, r.cur) == n;
      Wakeups.DueSame(cfg, k, r, t);
    }
  }

  lemma TurnsRound(cfg: seq<Info>, k: Kern, n: nat, ring: seq<Tid>, preempt: bool)
    requires Shape(cfg, k) && Round(cfg, k, n, ring)
    ensures Round(cfg, Dispatch(cfg, Ready(cfg, k, k.cur, preempt)), n, Turn(ring, preempt))
  {
    hide Round, KInv, Ready, Dispatch, Took;
    RequeuedRuns(cfg, k, n, ring, preempt);
    TurnSame(ring, preempt);
    StillRound(cfg, k, n, ring, Dispatch(cfg, Ready(cfg, k, k.cur, preempt)), Turn(ring, preempt));
  }

  /** A yield turns the ring by one: the first of the others runs, and the yielding thread is
      the last in line. */
  lemma YieldTurns(cfg: seq<Info>, k: Kern, n: nat, ring: seq<Tid>)
    requires Shape(cfg, k) && Round(cfg, k, n, ring)
    ensures ring != [] && Round(cfg, Dispatcher.Yield(cfg, k), n, ring[1..] + ring[..1])
  {
    RingNotEmpty(cfg, k, n, ring);
    hide Round, Ready, Dispatch;
    TurnsRound(cfg, k, n, ring, false);
  }

  function Yields(n: nat): seq<Act> {
    seq(n, _ => Act.Yield)
  }

  lemma YieldSteps(cfg: seq<Info>, s: State)
    requires Fits(cfg, s) && !s.life.exited
    ensures var r := Step(cfg, s, Act.Yield); r.k == Dispatcher.Yield(cfg, s.k) && !r.life.exited
  {
    hide Dispatcher.Yield;
  }

  /** Round robin: after i yields the i-th thread of the ring runs, and the others follow in
      turn, so each runs once before any runs twice. */
  lemma {:induction false} EachRunsInTurn(cfg: seq<Info>, s: State, n: nat, ring: seq<Tid>, i: nat)
    requires Fits(cfg, s) && !s.life.exited && Round(cfg, s.k, n, ring) && i <= |ring|
    ensures Round(cfg, Run(cfg, s, Yields(i)).k, n, ring[i..] + ring[..i])
    decreases i
  {
    hide Round, Step, Dispatcher.Yield;
    if i == 0 {
      assert ring[0..] + ring[..0] == ring;
    } else {
      var r := Step(cfg, s, Act.Yield);
      YieldSteps(cfg, s);
      YieldTurns(cfg, s.k, n, ring);
      RingNotEmpty(cfg, s.k, n, ring);
      EachRunsInTurn(cfg, r, n, ring[1..] + ring[..1], i - 1);
      Turned(ring, i);
      assert Yields(i)[1..] == Yields(i - 1);
    }
  }

  lemma Turned(ring: seq<Tid>, i: nat)
    requires 0 < i <= |ring|
    ensures var t := ring[1..] + ring[..1]; |t| == |ring| && t[i - 1..] + t[..i - 1] == ring[i..] + ring[..i]
  {
  }

  lemma RingNotEmpty(cfg: seq<Info>, k: Kern, n: nat, ring: seq<Tid>)
    requires Round(cfg, k, n, ring)
    ensures ring != [] && k.cur == ring[0]
  {
  }

  /** A thread that is preempted, and not outranked, goes on: it is put before its equals. */
  lemma PreemptedGoesOn(cfg: seq<Info>, s: State, n: nat, ring: seq<Tid>)
    requires Fits(cfg, s) && !s.life.exited && Round(cfg, s.k, n, ring)
    ensures var r := Step(cfg, s, Quantum); Round(cfg, r.k, n, ring) && r.k.cur == s.k.cur
  {
    RingNotEmpty(cfg, s.k, n, ring);
    hide Round, Ready, Dispatch;
    TurnsRound(cfg, s.k, n, ring, true);
    RingNotEmpty(cfg, Step(cfg, s, Quantum).k, n, ring);
  }

  // --- Threads on hold -----------------------------------------------------------------------------------

  /** On hold, and neither running nor ready. */
  ghost predicate Out(k: Kern, t: Tid) {
    t < |k.onHold| == |k.l.place| && k.onHold[t] && k.l.place[t] != Running && !(k.l.place[t].In? && k.l.place[t].list < N_READY)
  }

  lemma ReadyOut(cfg: seq<Info>, k: Kern, u: Tid, preempt: bool, t: Tid)
    requires Shape(cfg, k) && u < |cfg| && Out(k, t)
    ensures Out(Ready(cfg, k, u, preempt), t)
  {
    Wakeups.DueIsReady(cfg, k, u, preempt);
    hide Ready;
  }

  lemma RisesOut(cfg: seq<Info>, k: Kern, r: Kern, t: Tid)
    requires Wakeups.Rises(cfg, k, r) && Out(k, t)
    ensures Out(r, t)
  {
    assert r.l.place[t] == r.l.place[t];
  }

  lemma DispatchOut(cfg: seq<Info>, k: Kern, t: Tid)
    requires Shape(cfg, k) && KInv(cfg, k) && NobodyRuns(k.l) && Out(k, t)
    ensures Out(Dispatch(cfg, k), t)
  {
    var m := Drain(cfg, k);
    DrainKeeps(cfg, k);
    Wakeups.DrainRises(cfg, k);
    WokeNobodyRuns(k.l, m.l);
    hide KInv, Drain, NobodyRuns, Woke, Wakeups.Rises, Out;
    RisesOut(cfg, k, m, t);
    PickOut(cfg, m, t);
  }

  lemma PickOut(cfg: seq<Info>, k: Kern, t: Tid)
    requires Shape(cfg, k) && KInv(cfg, k) && NobodyRuns(k.l) && Out(k, t)
    ensures Out(Pick(cfg, k), t)
  {
    Wakeups.NotPicked(cfg, k, t);
    hide KInv, Top, Take;
  }

  lemma RequeueOut(cfg: seq<Info>, k: Kern, preempt: bool, t: Tid)
    requires Shape(cfg, k) && KInv(cfg, k) && k.l.place[k.cur] == Running && Out(k, t)
    ensures Out(Dispatch(cfg, Ready(cfg, k, k.cur, preempt)), t)
  {
    var m := Ready(cfg, k, k.cur, preempt);
    ReadyKeeps(cfg, k, k.cur, preempt);
    assert NobodyRuns(m.l);
    hide KInv, Ready, Dispatch, NobodyRuns, Out;
    ReadyOut(cfg, k, k.cur, preempt, t);
    DispatchOut(cfg, m, t);
  }

  lemma TryRunOut(cfg: seq<Info>, k: Kern, u: Tid, t: Tid)
    requires Shape(cfg, k) && KInv(cfg, k) && k.l.place[k.cur] == Running && Out(k, t)
    ensures Out(TryRun(cfg, k, u), t)
  {
    hide KInv, Out;
    if WouldRun(cfg, k, u) {
      var m := Drain(cfg, k);
      DrainKeeps(cfg, k);
      assert m.l.place[k.cur] == Running;
      Wakeups.DrainRises(cfg, k);
      hide Ready, Dispatch, Drain;
      RisesOut(cfg, k, m, t);
      RequeueOut(cfg, m, false, t);
    }
  }

  lemma WakeAndRunOut(cfg: seq<Info>, k: Kern, d: Defer, t: Tid)
    requires Shape(cfg, k) && KInv(cfg, k) && k.l.place[k.cur] == Running && Out(k, t)
    ensures Out(WakeAndRun(cfg, k, d), t)
  {
    var m := Wake(cfg, k, d);
    WakeKeeps(cfg, k, d);
    assert m.l.place[k.cur] == Running;
    Wakeups.WakeRises(cfg, k, d);
    hide KInv, Wake, Ready, Dispatch, TryRun, Out;
    RisesOut(cfg, k, m, t);
    var w := Woken(k, d);
    if w != [] {
      TryRunOut(cfg, m, w[0], t);
      RequeueOut(cfg, m, false, t);
    }
  }

  lemma BlockOut(cfg: seq<Info>, k: Kern, j: nat, t: Tid)
    requires Shape(cfg, k) && KInv(cfg, k) && k.l.place[k.cur] == Running && k.cur != NULL && j < |k.nopending| && k.nopending[j]
    requires Out(k, t)
    ensures Out(Block(cfg, k, j), t)
  {
    BlockedKeeps(cfg, k, j);
    var m := Blocked(cfg, k, j);
    assert Out(m, t) by { hide JoinBlocked, KInv; assert m.onHold == k.onHold; }
    hide KInv, Blocked, Dispatch, NobodyRuns, Out;
    DispatchOut(cfg, m, t);
  }

  lemma CommonOut(cfg: seq<Info>, s: State, a: Act, t: Tid)
    requires Fits(cfg, s) && KInv(cfg, s.k) && s.k.l.place[s.k.cur] == Running && Out(s.k, t) && a != Hold(t, false)
    ensures Out(Common(cfg, s, a).k, t)
  {
    hide KInv, Dispatch, Ready, WakeAndRun;
    match a {
      case Yield => RequeueOut(cfg, s.k, false, t);
      case Quantum => RequeueOut(cfg, s.k, true, t);
      case Undefer =>
        if s.k.deferred != [] {
          assert KInv(cfg, s.k.(deferred := s.k.deferred[1..])) by { DeferredAside(cfg, s.k, s.k.deferred[1..]); }
          WakeAndRunOut(cfg, s.k.(deferred := s.k.deferred[1..]), s.k.deferred[0], t);
        }
      case Expire(u) =>
        if u < |cfg| && s.k.l.place[u].In? && LAST < s.k.l.place[u].list < |s.k.l.q| {
          ReadyOut(cfg, s.k.(l := Unlink(s.k.l, u, Loose)), u, false, t);
        }
      case _ =>
    }
  }

  lemma DeferredAside(cfg: seq<Info>, k: Kern, ds: seq<Defer>)
    requires KInv(cfg, k)
    ensures KInv(cfg, k.(deferred := ds))
  {
    hide Placed, Sorted;
  }

  lemma StartOut(cfg: seq<Info>, s: State, u: Tid, t: Tid)
    requires Fits(cfg, s) && KInv(cfg, s.k) && s.k.l.place[s.k.cur] == Running && Out(s.k, t) && u < |cfg| && s.k.l.place[u] == Fresh
    ensures Out(TryRun(cfg, Ready(cfg, s.k, u, false), u), t)
  {
    var k := Ready(cfg, s.k, u, false);
    ReadyKeeps(cfg, s.k, u, false);
    hide KInv, Ready, TryRun, Out;
    ReadyOut(cfg, s.k, u, false, t);
    TryRunOut(cfg, k, u, t);
  }

  lemma TerminateOut(cfg: seq<Info>, s: State, t: Tid)
    requires Fits(cfg, s) && Live(cfg, s) && s.k.cur != NULL && s.k.cur != INITIAL && Out(s.k, t)
    ensures Out(Terminate(cfg, s).k, t)
  {
    var k := Bury(cfg, s);
    BuryKeeps(cfg, s);
    LiveParts(cfg, s);
    assert k.onHold == s.k.onHold;
    assert Out(k, t);
    hide Live, KInv, Books, Bury, NobodyRuns, Dispatch, Dispatcher.WakeOne, Out;
    if s.life.cnt - 1 > 1 {
      DispatchOut(cfg, k, t);
    } else if !InitialPreempts(cfg, k) {
      Wakeups.WakeOneRises(cfg, k, 0);
      WakeOneKeeps(cfg, k, 0);
      var w := Dispatcher.WakeOne(cfg, k, 0);
      WokeNobodyRuns(k.l, w.l);
      RisesOut(cfg, k, w, t);
      DispatchOut(cfg, w, t);
    }
  }

  lemma LastOut(cfg: seq<Info>, s: State, t: Tid)
    requires Fits(cfg, s) && KInv(cfg, s.k) && s.k.l.place[s.k.cur] == Running && s.k.cur != NULL && Out(s.k, t)
    ensures Out(LastLoop(cfg, s).k, t)
  {
    hide KInv, Block;
    if s.life.cnt > 1 && s.k.nopending[0] { BlockOut(cfg, s.k, 0, t); }
  }

  lemma BooksOut(cfg: seq<Info>, s: State, a: Act, t: Tid)
    requires Fits(cfg, s) && KInv(cfg, s.k) && Out(s.k, t)
    requires a.Create? || a.Detach? || a.Join? || a.Unjoin? || a.TakeZombie? || a.TestZombie? || a.FreeZombie? || a.ReturnZombie? || a.LastWait?
    ensures Out(Client(cfg, s, a).k, t)
  {
    if a.TakeZombie? && s.k.l.q[ZOMBIES] != [] { TakeKeeps(cfg, s.k, ZOMBIES, Taken(s.k.cur)); }
    hide KInv;
  }

  lemma ClientOut(cfg: seq<Info>, s: State, a: Act, t: Tid)
    requires Fits(cfg, s) && Live(cfg, s) && !s.life.exited && Ordinary(s) && Out(s.k, t)
    requires !a.Late? && !a.Adjust? && !a.Hold? && !a.Yield? && !a.Quantum? && !a.Undefer? && !a.Expire? && !a.SetErrno?
    ensures Out(Client(cfg, s, a).k, t)
  {
    LiveParts(cfg, s);
    hide Live, KInv, Books, Terminate, WakeAndRun, TryRun, Ready, Block, Out;
    match a {
      case Start(u) => if u < |cfg| && s.k.l.place[u] == Fresh { StartOut(cfg, s, u, t); }
      case Signal(d) => WakeAndRunOut(cfg, s.k, d, t);
      case Wait(j) => if 0 < j < |s.k.nopending| { WaitOut(cfg, s, j, t); }
      case Exit =>
        if s.k.cur == INITIAL { InitialOut(cfg, s, t); } else { TerminateOut(cfg, s, t); }
      case _ =>
        hide Client;
        BooksOut(cfg, s, a, t);
    }
  }

  lemma WaitOut(cfg: seq<Info>, s: State, j: nat, t: Tid)
    requires Fits(cfg, s) && KInv(cfg, s.k) && s.k.l.place[s.k.cur] == Running && s.k.cur != NULL && 0 < j < |s.k.nopending| && Out(s.k, t)
    ensures Out(Client(cfg, s, Wait(j)).k, t)
  {
    hide KInv, Block;
    if s.k.nopending[j] { BlockOut(cfg, s.k, j, t); }
  }

  lemma InitialOut(cfg: seq<Info>, s: State, t: Tid)
    requires Fits(cfg, s) && KInv(cfg, s.k) && s.k.l.place[s.k.cur] == Running && s.k.cur == INITIAL && Out(s.k, t)
    ensures Out(Terminate(cfg, s).k, t)
  {
    hide KInv, LastLoop, Out;
    LastOut(cfg, s.(life := s.life.(cnt := s.life.cnt - 1, leaving := true)), t);
  }

  lemma StepOut(cfg: seq<Info>, s: State, a: Act, t: Tid)
    requires Fits(cfg, s) && Inv(cfg, s) && Out(s.k, t) && a != Hold(t, false)
    ensures Out(Step(cfg, s, a).k, t)
  {
    hide Live, KInv, Books, Common, Client, LastLoop, Out;
    if !s.life.exited {
      LiveParts(cfg, s);
      if a.Late? || a.Adjust? || a.Hold? || a.Yield? || a.Quantum? || a.Undefer? || a.Expire? || a.SetErrno? {
        CommonOut(cfg, s, a, t);
      } else if a.LastWait? {
        if s.k.cur == INITIAL && s.life.leaving { LastOut(cfg, s, t); }
      } else if Ordinary(s) {
        ClientOut(cfg, s, a, t);
      }
    }
  }

  /** In every run a thread put on hold while it waits stays off the processor and the ready
      lists, whatever wakes it, until the hold is lifted. */
  lemma {:induction false} HeldThreadsStayOut(cfg: seq<Info>, s: State, acts: seq<Act>, t: Tid)
    requires Fits(cfg, s) && Inv(cfg, s) && Out(s.k, t) && Hold(t, false) !in acts
    ensures Out(Run(cfg, s, acts).k, t)
    decreases |acts|
  {
    if acts != [] {
      assert acts[0] in acts && forall a :: a in acts[1..] ==> a in acts;
      StepOut(cfg, s, acts[0], t);
      StepInv(cfg, s, acts[0]);
      hide Inv, Step, Out;
      HeldThreadsStayOut(cfg, Step(cfg, s, acts[0]), acts[1..], t);
    }
  }

  // --- The life of a thread ------------------------------------------------------------------------------

  /** Where thread t is after act a, as far as its life goes: `Running` stands for every place
      of a thread that runs, is ready, on hold, or waits. */
  ghost function Lives(s: State, a: Act, t: Tid): Place
    requires t < |s.k.l.place| && t < |s.life.detached| && t < |s.life.joiners| && ZOMBIES < |s.k.l.q|
  {
    var p := s.k.l.place[t];
    if !Ordinary(s) then Rough(p)
    else match p
      case Unborn => if a == Create(t) then Fresh else p
      case Fresh => if a == Start(t) then Running else p
      case Done => if a == Detach(t) then Freed else p
      case Taken(h) => if a == TestZombie(t) && h == s.k.cur then (if s.life.joiners[t] == 0 then Doomed(h) else Kept(h)) else p
      case Doomed(h) => if a == FreeZombie(t) && h == s.k.cur then Freed else p
      case Kept(h) => if a == ReturnZombie(t) && h == s.k.cur then In(ZOMBIES) else p
      case Freed => p
      case In(n) => if n == ZOMBIES && a == TakeZombie && s.k.l.q[n] != [] && s.k.l.q[n][0] == t then Taken(s.k.cur) else Rough(p)
      case _ => if a == Exit && t == s.k.cur && t != INITIAL && Wakeups.Clear(s) then (if s.life.detached[t] then In(ZOMBIES) else Done) else Running
  }

  function Rough(p: Place): Place {
    if Scheduled(p) then Running else p
  }

  lemma CreatesAndFrees(cfg: seq<Info>, s: State, a: Act, t: Tid)
    requires Fits(cfg, s) && Live(cfg, s) && !s.life.exited && Ordinary(s) && t < |cfg|
    requires a == Create(t) || a == Detach(t) || a == TestZombie(t) || a == FreeZombie(t) || a == ReturnZombie(t)
    requires t != NULL && t != INITIAL
    ensures var p, p' := s.k.l.place[t], Step(cfg, s, a).k.l.place[t];
      && (p == Unborn && a == Create(t) ==> p' == Fresh)
      && (p == Done && a == Detach(t) ==> p' == Freed)
      && (p == Taken(s.k.cur) && a == TestZombie(t) ==> p' == if s.life.joiners[t] == 0 then Doomed(s.k.cur) else Kept(s.k.cur))
      && (p == Doomed(s.k.cur) && a == FreeZombie(t) ==> p' == Freed)
      && (p == Kept(s.k.cur) && a == ReturnZombie(t) ==> p' == In(ZOMBIES))
  {
    LiveParts(cfg, s);
    hide KInv, InsertAt;
    assert s.k.l.place[t] == Done ==> !s.life.detached[t];
  }

  lemma TakeIs(cfg: seq<Info>, s: State)
    requires Fits(cfg, s) && !s.life.exited && Ordinary(s) && ZOMBIES < |s.k.l.q| && s.k.l.q[ZOMBIES] != []
    ensures Step(cfg, s, TakeZombie).k.l == Take(s.k.l, ZOMBIES, Taken(s.k.cur))
  {
    hide Take;
  }

  lemma TakesFirst(cfg: seq<Info>, s: State, t: Tid)
    requires Fits(cfg, s) && Live(cfg, s) && !s.life.exited && Ordinary(s) && t < |cfg| && s.k.l.place[t] == In(ZOMBIES)
    ensures ZOMBIES < |s.k.l.q| && s.k.l.q[ZOMBIES] != []
    ensures Step(cfg, s, TakeZombie).k.l.place[t] == if s.k.l.q[ZOMBIES][0] == t then Taken(s.k.cur) else In(ZOMBIES)
  {
    LiveParts(cfg, s);
    assert t in s.k.l.q[ZOMBIES] by { assert Placed(s.k.l); }
    hide Live, Books, Step, KInv, Take;
    TakeIs(cfg, s);
    TakeKeeps(cfg, s.k, ZOMBIES, Taken(s.k.cur));
  }

  lemma StartSchedules(cfg: seq<Info>, s: State, t: Tid)
    requires Fits(cfg, s) && Live(cfg, s) && !s.life.exited && Ordinary(s) && t < |cfg| && s.k.l.place[t] == Fresh
    ensures Scheduled(Step(cfg, s, Start(t)).k.l.place[t])
  {
    LiveParts(cfg, s);
    var k := Ready(cfg, s.k, t, false);
    ReadyKeeps(cfg, s.k, t, false);
    hide Live, KInv, Ready, TryRun;
    TryRunKeeps(cfg, k, t);
    assert Step(cfg, s, Start(t)).k == TryRun(cfg, k, t);
    hide Step;
    assert TryRun(cfg, k, t).l.place[t] == TryRun(cfg, k, t).l.place[t];
  }

  lemma ExitIs(cfg: seq<Info>, s: State)
    requires Fits(cfg, s) && !s.life.exited && Ordinary(s) && Wakeups.Clear(s)
    ensures Step(cfg, s, Exit) == Terminate(cfg, s)
  {
    hide Terminate;
  }

  lemma ExitLeaves(cfg: seq<Info>, s: State)
    requires Fits(cfg, s) && Live(cfg, s) && !s.life.exited && Ordinary(s) && s.k.cur != INITIAL && Wakeups.Clear(s)
    ensures Step(cfg, s, Exit).k.l.place[s.k.cur] == if s.life.detached[s.k.cur] then In(ZOMBIES) else Done
  {
    hide Step, Live, Terminate, Wakeups.Clear;
    ExitIs(cfg, s);
    TerminateLeaves(cfg, s);
  }

  lemma SameStays(l: Queues, r: Queues, t: Tid)
    requires Same(l, r) && t < |l.place| && !Scheduled(l.place[t])
    ensures r.place[t] == l.place[t]
  {
    assert r.place[t] == r.place[t];
  }

  lemma TerminateLeaves(cfg: seq<Info>, s: State)
    requires Fits(cfg, s) && Live(cfg, s) && s.k.cur != NULL && s.k.cur != INITIAL
    ensures Terminate(cfg, s).k.l.place[s.k.cur] == if s.life.detached[s.k.cur] then In(ZOMBIES) else Done
  {
    var k := Bury(cfg, s);
    BuryKeeps(cfg, s);
    LiveParts(cfg, s);
    hide Live, KInv, Books, Bury, NobodyRuns, Dispatch, Dispatcher.WakeOne, Same, Woke, Switched;
    if s.life.cnt - 1 > 1 {
      DispatchKeeps(cfg, k);
      SwitchedSame(k.l, Dispatch(cfg, k).l, Dispatch(cfg, k).cur);
      SameStays(k.l, Dispatch(cfg, k).l, s.k.cur);
    } else if !InitialPreempts(cfg, k) {
      var w := Dispatcher.WakeOne(cfg, k, 0);
      WakeOneKeeps(cfg, k, 0);
      WokeNobodyRuns(k.l, w.l);
      WokeSame(k.l, w.l);
      SameStays(k.l, w.l, s.k.cur);
      DispatchKeeps(cfg, w);
      SwitchedSame(w.l, Dispatch(cfg, w).l, Dispatch(cfg, w).cur);
      SameStays(w.l, Dispatch(cfg, w).l, s.k.cur);
    }
  }

  lemma ExitBlocked(cfg: seq<Info>, s: State)
    requires Fits(cfg, s) && !s.life.exited && Ordinary(s) && !Wakeups.Clear(s)
    ensures Step(cfg, s, Exit) == s
  {
    hide Terminate;
  }

  lemma StaysScheduled(s: State, a: Act, t: Tid, p': Place)
    requires t < |s.k.l.place| && t < |s.life.detached| && t < |s.life.joiners| && Moves(s, a, t, p')
    requires Scheduled(s.k.l.place[t]) && !(a == Exit && t == s.k.cur && t != INITIAL)
    ensures Scheduled(p')
  {
  }

  lemma ScheduledLives(cfg: seq<Info>, s: State, a: Act, t: Tid)
    requires Fits(cfg, s) && Live(cfg, s) && !s.life.exited && t < |cfg| && Ordinary(s) && Scheduled(s.k.l.place[t])
    requires ZOMBIES < |s.k.l.q|
    ensures Rough(Step(cfg, s, a).k.l.place[t]) == Lives(s, a, t)
  {
    StepMoves(cfg, s, a, t);
    hide Live, Step, Wakeups.Clear;
    if a == Exit && t == s.k.cur && t != INITIAL {
      if Wakeups.Clear(s) { ExitLeaves(cfg, s); } else { ExitBlocked(cfg, s); }
    } else {
      StaysScheduled(s, a, t, Step(cfg, s, a).k.l.place[t]);
    }
  }

  lemma ZombieLives(cfg: seq<Info>, s: State, a: Act, t: Tid)
    requires Fits(cfg, s) && Live(cfg, s) && !s.life.exited && t < |cfg| && Ordinary(s) && s.k.l.place[t] == In(ZOMBIES) && ZOMBIES < |s.k.l.q|
    ensures Rough(Step(cfg, s, a).k.l.place[t]) == Lives(s, a, t)
  {
    StepMoves(cfg, s, a, t);
    TakesFirst(cfg, s, t);
    hide Live, Step, Wakeups.Clear;
  }

  lemma FreshLives(cfg: seq<Info>, s: State, a: Act, t: Tid)
    requires Fits(cfg, s) && Live(cfg, s) && !s.life.exited && t < |cfg| && Ordinary(s) && s.k.l.place[t] == Fresh && ZOMBIES < |s.k.l.q|
    ensures Rough(Step(cfg, s, a).k.l.place[t]) == Lives(s, a, t)
  {
    StepMoves(cfg, s, a, t);
    hide Live, Step, Wakeups.Clear;
    if a == Start(t) { StartSchedules(cfg, s, t); }
  }

  lemma GraveLives(cfg: seq<Info>, s: State, a: Act, t: Tid)
    requires Fits(cfg, s) && Live(cfg, s) && !s.life.exited && t < |cfg| && Ordinary(s) && !s.k.l.place[t].In? && ZOMBIES < |s.k.l.q|
    requires !Scheduled(s.k.l.place[t]) && s.k.l.place[t] != Fresh && t != NULL && t != INITIAL
    ensures Rough(Step(cfg, s, a).k.l.place[t]) == Lives(s, a, t)
  {
    StepMoves(cfg, s, a, t);
    hide Live, Step, Wakeups.Clear, Ordinary, Fits;
    if a == Create(t) || a == Detach(t) || a == TestZombie(t) || a == FreeZombie(t) || a == ReturnZombie(t) {
      CreatesAndFrees(cfg, s, a, t);
    }
  }

  lemma OutsideLives(cfg: seq<Info>, s: State, a: Act, t: Tid)
    requires Fits(cfg, s) && Live(cfg, s) && !s.life.exited && t < |cfg| && !Ordinary(s) && ZOMBIES < |s.k.l.q|
    ensures Rough(Step(cfg, s, a).k.l.place[t]) == Lives(s, a, t)
  {
    StepMoves(cfg, s, a, t);
    hide Live, Step, Wakeups.Clear;
    if a == Exit { IdleExit(cfg, s); }
  }

  lemma IdleExit(cfg: seq<Info>, s: State)
    requires Fits(cfg, s) && !Ordinary(s)
    ensures Step(cfg, s, Exit) == s
  {
  }

  /** What every act does to the life of every thread: it is created, started, terminates, is
      detached, found, judged, freed and returned by exactly the acts that say so, and by nothing
      else. */
  lemma LivesExactly(cfg: seq<Info>, s: State, a: Act, t: Tid)
    requires Fits(cfg, s) && Live(cfg, s) && !s.life.exited && t < |cfg|
    ensures Rough(Step(cfg, s, a).k.l.place[t]) == Lives(s, a, t)
  {
    LiveParts(cfg, s);
    SpecialScheduled(cfg, s);
    hide Live, KInv, Books, Step, Lives, Wakeups.Clear;
    if !Ordinary(s) {
      OutsideLives(cfg, s, a, t);
    } else if Scheduled(s.k.l.place[t]) {
      ScheduledLives(cfg, s, a, t);
    } else if s.k.l.place[t].In? {
      ZombieLives(cfg, s, a, t);
    } else if s.k.l.place[t] == Fresh {
      FreshLives(cfg, s, a, t);
    } else {
      GraveLives(cfg, s, a, t);
    }
  }

  // --- Joiners and handles ----------------------------------------------------------------------------------

  /** The wait for t begins, or ends. */
  function Joins(s: State, a: Act, t: Tid): int
    requires t < |s.k.l.place| && t < |s.life.joiners|
  {
    if s.life.exited || !Ordinary(s) then 0
    else if a == Act.Join(t) && t != s.k.cur && (s.k.l.place[t] == Fresh || Scheduled(s.k.l.place[t])) then 1
    else if a == Unjoin(t) && s.life.joiners[t] > 0 then -1
    else 0
  }

  predicate Detaches(s: State, a: Act, t: Tid)
    requires t < |s.k.l.place|
  {
    !s.life.exited && Ordinary(s) && a == Detach(t) && t != NULL && t != INITIAL && s.k.l.place[t] != Unborn && s.k.l.place[t] != Freed
  }

  lemma CommonLife(cfg: seq<Info>, s: State, a: Act)
    requires Fits(cfg, s)
    ensures Common(cfg, s, a).life == s.life
  {
    hide Ready, WakeAndRun, Dispatch, Dispatcher.Yield, Unlink;
  }

  lemma LastLife(cfg: seq<Info>, s: State)
    requires Fits(cfg, s)
    ensures LastLoop(cfg, s).life.joiners == s.life.joiners && LastLoop(cfg, s).life.detached == s.life.detached
  {
    hide Block;
  }

  lemma TerminateLife(cfg: seq<Info>, s: State)
    requires Fits(cfg, s)
    ensures Terminate(cfg, s).life.joiners == s.life.joiners && Terminate(cfg, s).life.detached == s.life.detached
  {
    hide Dispatch, Bury, InitialPreempts, Dispatcher.WakeOne, LastLoop;
    LastLife(cfg, s.(life := s.life.(cnt := s.life.cnt - 1, leaving := true)));
  }

  lemma OtherLife(cfg: seq<Info>, s: State, a: Act)
    requires Fits(cfg, s) && !a.Detach? && !a.Join? && !a.Unjoin?
    ensures Client(cfg, s, a).life.joiners == s.life.joiners && Client(cfg, s, a).life.detached == s.life.detached
  {
    TerminateLife(cfg, s);
    hide Ready, WakeAndRun, TryRun, Block, Terminate, Lists.Join, Take;
  }

  lemma JoinLife(cfg: seq<Info>, s: State, a: Act, t: Tid)
    requires Fits(cfg, s) && t < |cfg| && Ordinary(s) && !s.life.exited && (a.Detach? || a.Join? || a.Unjoin?)
    ensures var r := Client(cfg, s, a);
      && r.life.joiners[t] == s.life.joiners[t] + Joins(s, a, t)
      && (r.life.detached[t] <==> s.life.detached[t] || Detaches(s, a, t))
  {
  }

  lemma ClientLife(cfg: seq<Info>, s: State, a: Act, t: Tid)
    requires Fits(cfg, s) && t < |cfg| && Ordinary(s) && !s.life.exited
    ensures var r := Client(cfg, s, a);
      && r.life.joiners[t] == s.life.joiners[t] + Joins(s, a, t)
      && (r.life.detached[t] <==> s.life.detached[t] || Detaches(s, a, t))
  {
    hide Client;
    if a.Detach? || a.Join? || a.Unjoin? { JoinLife(cfg, s, a, t); } else { OtherLife(cfg, s, a); }
  }

  lemma StepJoins(cfg: seq<Info>, s: State, a: Act, t: Tid)
    requires Fits(cfg, s) && t < |cfg|
    ensures var r := Step(cfg, s, a);
      && r.life.joiners[t] == s.life.joiners[t] + Joins(s, a, t)
      && (r.life.detached[t] <==> s.life.detached[t] || Detaches(s, a, t))
  {
    CommonLife(cfg, s, a);
    LastLife(cfg, s);
    hide Common, LastLoop, Client;
    if Ordinary(s) && !s.life.exited && !a.Late? && !a.Adjust? && !a.Hold? && !a.Yield? && !a.Quantum? && !a.Undefer? && !a.Expire? && !a.SetErrno? && !a.LastWait? {
      ClientLife(cfg, s, a, t);
    }
  }

  ghost function JoinsIn(cfg: seq<Info>, s: State, acts: seq<Act>, t: Tid): int
    requires Fits(cfg, s) && t < |cfg|
    decreases |acts|
  {
    if acts == [] then 0 else Joins(s, acts[0], t) + JoinsIn(cfg, Step(cfg, s, acts[0]), acts[1..], t)
  }

  ghost predicate DetachedIn(cfg: seq<Info>, s: State, acts: seq<Act>, t: Tid)
    requires Fits(cfg, s) && t < |cfg|
    decreases |acts|
  {
    acts != [] && (Detaches(s, acts[0], t) || DetachedIn(cfg, Step(cfg, s, acts[0]), acts[1..], t))
  }

  /** Over every run the count of joiners is the waits begun less the waits ended, and a thread
      is detached exactly when somebody has detached it. */
  lemma {:induction false} JoinersAreCounted(cfg: seq<Info>, s: State, acts: seq<Act>, t: Tid)
    requires Fits(cfg, s) && t < |cfg|
    ensures var r := Run(cfg, s, acts);
      && r.life.joiners[t] == s.life.joiners[t] + JoinsIn(cfg, s, acts, t)
      && (r.life.detached[t] <==> s.life.detached[t] || DetachedIn(cfg, s, acts, t))
    decreases |acts|
  {
    if acts != [] {
      StepJoins(cfg, s, acts[0], t);
      hide Step, Joins, Detaches;
      JoinersAreCounted(cfg, Step(cfg, s, acts[0]), acts[1..], t);
    }
  }

  // --- Who takes the processor --------------------------------------------------------------------------------

  /** A thread readied that may not preempt, or does not outrank the running one, waits for its
      turn: nothing is switched, and nothing deferred carried out. */
  lemma StartedWaits(cfg: seq<Info>, s: State, t: Tid)
    requires Fits(cfg, s) && !s.life.exited && Ordinary(s) && t < |cfg| && s.k.l.place[t] == Fresh
    requires !cfg[t].spp || !Outranks(cfg[t], cfg[s.k.cur])
    ensures var r := Step(cfg, s, Start(t));
      r.k.cur == s.k.cur && r.k.deferred == s.k.deferred && r.k.l.place == s.k.l.place[t := In(Wakeups.Due(cfg, s.k, t))]
  {
    Wakeups.DueIsReady(cfg, s.k, t, false);
    hide Ready, Dispatcher.Yield, Drain;
  }

  /** Nobody outranked the running thread, and t does: then t outranks everybody ready. */
  lemma OnlyItOutranks(cfg: seq<Info>, k: Kern, r: Kern, t: Tid)
    requires Shape(cfg, k) && Shape(cfg, r) && t < |cfg| && cfg[t].cls == Rt && Outranks(cfg[t], cfg[k.cur])
    requires NobodyPassed(cfg, k) && NobodyPassed(cfg, r) && r.l.place[t] == (if r.cur == t then Running else In(RT_LIST))
    requires r.cur == k.cur || r.cur == t || (k.l.place[r.cur].In? && k.l.place[r.cur].list < N_READY)
    requires cfg[r.cur].cls == Rt && k.l.place[r.cur].In? && k.l.place[r.cur].list < N_READY ==> k.l.place[r.cur].list == RT_LIST
    ensures r.cur == t
  {
    assert !Passed(cfg, r, t) && !Passed(cfg, k, r.cur);
  }

  lemma ReadiedFacts(cfg: seq<Info>, k: Kern, t: Tid)
    requires Shape(cfg, k) && KInv(cfg, k) && k.l.place[k.cur] == Running && k.deferred == [] && t < |cfg| && !k.l.place[t].In? && t != k.cur
    ensures var m := Ready(cfg, k, t, false);
      KInv(cfg, m) && m.l.place[m.cur] == Running && m.deferred == [] && m.cur == k.cur && m.l.place == k.l.place[t := In(Wakeups.Due(cfg, k, t))]
  {
    ReadyKeeps(cfg, k, t, false);
    Wakeups.DueIsReady(cfg, k, t, false);
    hide KInv, Ready;
  }

  /** After a yield with nothing deferred one of the ready runs, or the yielding thread again. */
  lemma YieldMoves(cfg: seq<Info>, m: Kern)
    requires Shape(cfg, m) && KInv(cfg, m) && m.l.place[m.cur] == Running && m.deferred == []
    ensures var r := Dispatcher.Yield(cfg, m);
      && Shape(cfg, r) && (r.cur == m.cur || (m.l.place[r.cur].In? && m.l.place[r.cur].list < N_READY))
      && forall u: Tid :: u < |cfg| && u != m.cur && u != r.cur ==> r.l.place[u] == m.l.place[u]
    ensures var r := Dispatcher.Yield(cfg, m); r.l.place[r.cur] == Running
  {
    var n := Ready(cfg, m, m.cur, false);
    ReadyKeeps(cfg, m, m.cur, false);
    assert NobodyRuns(n.l) && n.deferred == [];
    assert forall u: Tid :: u < |cfg| && u != m.cur ==> n.l.place[u] == m.l.place[u];
    hide KInv, Ready, NobodyRuns, Pick;
    PickKeeps(cfg, n);
    assert Dispatcher.Yield(cfg, m) == Pick(cfg, n);
  }

  lemma RtAtHome(cfg: seq<Info>, k: Kern, t: Tid)
    requires KInv(cfg, k) && t < |cfg| && cfg[t].cls == Rt && k.l.place[t].In? && k.l.place[t].list < N_READY
    ensures k.l.place[t].list == RT_LIST
  {
  }

  lemma TriedRuns(cfg: seq<Info>, k: Kern, m: Kern, t: Tid)
    requires Shape(cfg, k) && KInv(cfg, k) && NobodyPassed(cfg, k) && t < |cfg| && cfg[t].cls == Rt && Outranks(cfg[t], cfg[k.cur])
    requires Shape(cfg, m) && KInv(cfg, m) && m.l.place[m.cur] == Running && m.deferred == [] && m.cur == k.cur
    requires m.l.place == k.l.place[t := In(RT_LIST)] && t != k.cur && k.cur < |k.l.place|
    ensures Dispatcher.Yield(cfg, m).cur == t
  {
    YieldMoves(cfg, m);
    RequeuePassesNobody(cfg, m, false);
    var r := Dispatcher.Yield(cfg, m);
    if r.cur != t && cfg[r.cur].cls == Rt && k.l.place[r.cur].In? && k.l.place[r.cur].list < N_READY { RtAtHome(cfg, k, r.cur); }
    hide KInv, NobodyPassed, Dispatcher.Yield;
    if r.cur != t {
      OnlyItOutranks(cfg, k, r, t);
    }
  }

  /** A real-time thread that is started takes the processor exactly when it may preempt and
      outranks the running thread, where nobody waited that did already. */
  lemma StartedRunsExactlyWhen(cfg: seq<Info>, s: State, t: Tid)
    requires Fits(cfg, s) && Live(cfg, s) && !s.life.exited && Ordinary(s) && t < |cfg| && s.k.l.place[t] == Fresh
    requires cfg[t].cls == Rt && NobodyPassed(cfg, s.k) && s.k.deferred == [] && !s.k.onHold[t]
    ensures Step(cfg, s, Start(t)).k.cur == t <==> cfg[t].spp && Outranks(cfg[t], cfg[s.k.cur])
  {
    LiveParts(cfg, s);
    hide Live, KInv, Books, NobodyPassed, Step, Ready, TryRun, Dispatcher.Yield;
    if cfg[t].spp && Outranks(cfg[t], cfg[s.k.cur]) {
      ReadiedFacts(cfg, s.k, t);
      var m := Ready(cfg, s.k, t, false);
      TriedRuns(cfg, s.k, m, t);
      StartTries(cfg, s, t);
      TriesIs(cfg, m, t);
    } else {
      StartedWaits(cfg, s, t);
    }
  }

  lemma StartTries(cfg: seq<Info>, s: State, t: Tid)
    requires Fits(cfg, s) && !s.life.exited && Ordinary(s) && t < |cfg| && s.k.l.place[t] == Fresh
    ensures Step(cfg, s, Start(t)).k == TryRun(cfg, Ready(cfg, s.k, t, false), t)
  {
    hide Ready, TryRun;
  }

  lemma TriesIs(cfg: seq<Info>, m: Kern, t: Tid)
    requires Shape(cfg, m) && t < |cfg| && m.deferred == []
    ensures TryRun(cfg, m, t) == if cfg[t].spp && Outranks(cfg[t], cfg[m.cur]) then Dispatcher.Yield(cfg, m) else m
  {
    hide Dispatcher.Yield;
  }

  lemma SignalTries(cfg: seq<Info>, s: State, j: nat)
    requires Fits(cfg, s) && !s.life.exited && Ordinary(s) && 0 < j < |s.k.nopending| && s.k.l.q[LAST + j] != []
    ensures Step(cfg, s, Signal(One(j))).k == TryRun(cfg, Dispatcher.WakeOne(cfg, s.k, j), s.k.l.q[LAST + j][0])
  {
    WakeAndRunOne(cfg, s.k, j);
    hide WakeAndRun, TryRun, Dispatcher.WakeOne;
  }

  /** So does a waiter that is woken. */
  lemma WokenRunsExactlyWhen(cfg: seq<Info>, s: State, j: nat)
    requires Fits(cfg, s) && Live(cfg, s) && !s.life.exited && Ordinary(s) && 0 < j < |s.k.nopending| && s.k.l.q[LAST + j] != []
    requires s.k.l.q[LAST + j][0] < |cfg| && NobodyPassed(cfg, s.k) && s.k.deferred == [] && !s.k.onHold[s.k.l.q[LAST + j][0]]
    requires cfg[s.k.l.q[LAST + j][0]].cls == Rt
    ensures var t := s.k.l.q[LAST + j][0];
      Step(cfg, s, Signal(One(j))).k.cur == t <==> cfg[t].spp && Outranks(cfg[t], cfg[s.k.cur])
  {
    LiveParts(cfg, s);
    var t := s.k.l.q[LAST + j][0];
    var m := Dispatcher.WakeOne(cfg, s.k, j);
    hide Live, KInv, Books, NobodyPassed, Step, TryRun, Dispatcher.Yield, Dispatcher.WakeOne;
    WokenFacts(cfg, s.k, j);
    SignalTries(cfg, s, j);
    TriesIs(cfg, m, t);
    if cfg[t].spp && Outranks(cfg[t], cfg[s.k.cur]) { TriedRuns(cfg, s.k, m, t); }
  }

  lemma WokenFacts(cfg: seq<Info>, k: Kern, j: nat)
    requires Shape(cfg, k) && KInv(cfg, k) && k.l.place[k.cur] == Running && k.deferred == [] && j < |k.nopending| && k.l.q[LAST + j] != []
    requires k.l.q[LAST + j][0] < |cfg| && !k.onHold[k.l.q[LAST + j][0]] && cfg[k.l.q[LAST + j][0]].cls == Rt
    ensures var m, t := Dispatcher.WakeOne(cfg, k, j), k.l.q[LAST + j][0];
      && KInv(cfg, m) && m.cur == k.cur && t != k.cur && m.l.place[m.cur] == Running && m.deferred == []
      && m.l.place == k.l.place[t := In(RT_LIST)]
  {
    WakeFirstKeeps(cfg, k, j);
    Wakeups.WakeOneRises(cfg, k, j);
    hide KInv, Dispatcher.WakeOne;
    var m, t := Dispatcher.WakeOne(cfg, k, j), k.l.q[LAST + j][0];
    assert m.l.place[t] != k.l.place[t];
  }

  // --- Settings, and the line of zombies -------------------------------------------------------------------

  /** What waking and dispatching leave alone. */
  ghost predicate Aside(k: Kern, r: Kern) {
    && ZOMBIES < |k.l.q| && ZOMBIES < |r.l.q| && r.l.q[ZOMBIES] == k.l.q[ZOMBIES] && r.onHold == k.onHold && r.qnum == k.qnum
  }

  lemma AsideTwice(a: Kern, b: Kern, c: Kern)
    requires Aside(a, b) && Aside(b, c)
    ensures Aside(a, c)
  {
  }

  lemma ReadyAside(cfg: seq<Info>, k: Kern, t: Tid, preempt: bool)
    requires Shape(cfg, k) && t < |cfg|
    ensures Aside(k, Ready(cfg, k, t, preempt))
  {
    hide InsertAt, ReadyAt;
  }

  lemma WakeOneAside(cfg: seq<Info>, k: Kern, j: nat)
    requires Shape(cfg, k)
    ensures Aside(k, Dispatcher.WakeOne(cfg, k, j))
  {
    hide Ready;
    if j < |k.nopending| && k.l.q[LAST + j] != [] {
      var t := k.l.q[LAST + j][0];
      var m := k.(l := Take(k.l, LAST + j, Loose));
      assert Aside(k, m);
      if t < |cfg| { ReadyAside(cfg, m, t, false); }
    }
  }

  lemma {:induction false} WakeRestAside(cfg: seq<Info>, k: Kern, j: nat)
    requires Shape(cfg, k) && j < |k.nopending|
    ensures Aside(k, WakeRest(cfg, k, j))
    decreases |k.l.q[LAST + j]|
  {
    if k.l.q[LAST + j] != [] {
      var m := Dispatcher.WakeOne(cfg, k, j);
      WakeOneAside(cfg, k, j);
      hide Dispatcher.WakeOne, Aside;
      WakeRestAside(cfg, m, j);
      AsideTwice(k, m, WakeRest(cfg, m, j));
    }
  }

  lemma WakeAside(cfg: seq<Info>, k: Kern, d: Defer)
    requires Shape(cfg, k)
    ensures Aside(k, Wake(cfg, k, d))
  {
    WakeOneAside(cfg, k, d.sem);
    if d.sem < |k.nopending| { WakeRestAside(cfg, k, d.sem); }
    hide Dispatcher.WakeOne, WakeRest, Aside;
  }

  lemma {:induction false} DrainAside(cfg: seq<Info>, k: Kern)
    requires Shape(cfg, k)
    ensures Aside(k, Drain(cfg, k))
    decreases |k.deferred|
  {
    if k.deferred != [] {
      var n := k.(deferred := k.deferred[1..]);
      var m := Wake(cfg, n, k.deferred[0]);
      WakeAside(cfg, n, k.deferred[0]);
      assert Aside(k, m);
      hide Wake, Aside;
      DrainAside(cfg, m);
      AsideTwice(k, m, Drain(cfg, m));
    }
  }

  lemma DispatchAside(cfg: seq<Info>, k: Kern)
    requires Shape(cfg, k)
    ensures Aside(k, Dispatch(cfg, k))
  {
    var m := Drain(cfg, k);
    DrainAside(cfg, k);
    assert Aside(m, Pick(cfg, m)) by { hide Drain, Top; }
    hide Drain, Pick, Aside;
    AsideTwice(k, m, Pick(cfg, m));
  }

  lemma RequeueAside(cfg: seq<Info>, k: Kern, preempt: bool)
    requires Shape(cfg, k)
    ensures Aside(k, Dispatch(cfg, Ready(cfg, k, k.cur, preempt)))
  {
    hide Ready, Dispatch, Aside;
    var m := Ready(cfg, k, k.cur, preempt);
    ReadyAside(cfg, k, k.cur, preempt);
    DispatchAside(cfg, m);
    AsideTwice(k, m, Dispatch(cfg, m));
  }

  lemma TryRunAside(cfg: seq<Info>, k: Kern, t: Tid)
    requires Shape(cfg, k)
    ensures Aside(k, TryRun(cfg, k, t))
  {
    var m := Drain(cfg, k);
    DrainAside(cfg, k);
    RequeueAside(cfg, m, false);
    assert Aside(k, k);
    hide Ready, Dispatch, Drain, Aside;
    AsideTwice(k, m, Dispatcher.Yield(cfg, m));
  }

  lemma WakeAndRunAside(cfg: seq<Info>, k: Kern, d: Defer)
    requires Shape(cfg, k)
    ensures Aside(k, WakeAndRun(cfg, k, d))
  {
    var w, m := Woken(k, d), Wake(cfg, k, d);
    WakeAside(cfg, k, d);
    RequeueAside(cfg, m, false);
    hide Wake, TryRun, Ready, Dispatch, WouldRun, Aside;
    AsideTwice(k, m, Dispatcher.Yield(cfg, m));
    if w != [] {
      TryRunAside(cfg, m, w[0]);
      AsideTwice(k, m, TryRun(cfg, m, w[0]));
    }
  }

  lemma BlockAside(cfg: seq<Info>, k: Kern, j: nat)
    requires Shape(cfg, k) && j < |k.nopending|
    ensures Aside(k, Block(cfg, k, j))
  {
    var m := Blocked(cfg, k, j);
    assert Aside(k, m) by { hide InsertAt, BlockAt; }
    hide Blocked, Dispatch, Aside;
    DispatchAside(cfg, m);
    AsideTwice(k, m, Dispatch(cfg, m));
  }

  lemma LastAside(cfg: seq<Info>, s: State)
    requires Fits(cfg, s)
    ensures Aside(s.k, LastLoop(cfg, s).k)
  {
    hide Block;
    BlockAside(cfg, s.k, 0);
  }

  /** What becomes of the settings and of the line of zombies in a step. */
  ghost predicate Settles(s: State, a: Act, r: Kern) {
    && |r.onHold| == |s.k.onHold| && |r.qnum| == |s.k.qnum| && ZOMBIES < |s.k.l.q| && ZOMBIES < |r.l.q| && |s.life.detached| == |s.k.l.place|
    && s.k.cur < |s.k.l.place|
    && (forall t: Tid :: t < |s.k.onHold| ==> r.onHold[t] == if a.Hold? && a.t == t && t != NULL then a.on else s.k.onHold[t])
    && (forall t: Tid :: t < |s.k.qnum| ==> r.qnum[t] == if a.Adjust? && a.t == t then a.n else s.k.qnum[t])
    && r.l.q[ZOMBIES] == Line(s, a)
  }

  function Line(s: State, a: Act): seq<Tid>
    requires ZOMBIES < |s.k.l.q| && |s.life.detached| == |s.k.l.place| && s.k.cur < |s.k.l.place|
  {
    var q := s.k.l.q[ZOMBIES];
    if !Ordinary(s) then q
    else match a
      case TakeZombie => if q == [] then q else q[1..]
      case ReturnZombie(t) => if t < |s.k.l.place| && s.k.l.place[t] == Kept(s.k.cur) then q + [t] else q
      case Exit => if s.k.cur != INITIAL && Wakeups.Clear(s) && s.life.detached[s.k.cur] then q + [s.k.cur] else q
      case _ => q
  }

  lemma AsideSettles(cfg: seq<Info>, s: State, a: Act, r: Kern)
    requires Fits(cfg, s) && Aside(s.k, r) && !a.Hold? && !a.Adjust? && Line(s, a) == s.k.l.q[ZOMBIES]
    ensures Settles(s, a, r)
  {
  }

  lemma KeptSettles(cfg: seq<Info>, s: State, a: Act, r: Kern)
    requires Fits(cfg, s) && Aside(s.k, r) && (a.Yield? || a.Quantum? || a.Undefer? || a.Expire?)
    ensures Settles(s, a, r)
  {
    hide Wakeups.Clear;
    AsideSettles(cfg, s, a, r);
  }

  lemma ExpireSettles(cfg: seq<Info>, s: State, t: Tid)
    requires Fits(cfg, s)
    ensures Settles(s, Expire(t), Common(cfg, s, Expire(t)).k)
  {
    assert Aside(s.k, s.k);
    hide Ready, Unlink, Settles, Aside;
    if t < |cfg| && s.k.l.place[t].In? && LAST < s.k.l.place[t].list < |s.k.l.q| {
      var m := s.k.(l := Unlink(s.k.l, t, Loose));
      UnlinkAside(cfg, s.k, t);
      ReadyAside(cfg, m, t, false);
      AsideTwice(s.k, m, Ready(cfg, m, t, false));
    }
    KeptSettles(cfg, s, Expire(t), Common(cfg, s, Expire(t)).k);
  }

  lemma SetSettles(cfg: seq<Info>, s: State, a: Act)
    requires Fits(cfg, s) && (a.Late? || a.Adjust? || a.Hold? || a.SetErrno?)
    ensures Settles(s, a, Common(cfg, s, a).k)
  {
    hide Wakeups.Clear;
  }

  lemma CommonSettles(cfg: seq<Info>, s: State, a: Act)
    requires Fits(cfg, s) && (a.Late? || a.Adjust? || a.Hold? || a.Yield? || a.Quantum? || a.Undefer? || a.Expire? || a.SetErrno?)
    ensures Settles(s, a, Common(cfg, s, a).k)
  {
    assert Aside(s.k, s.k);
    hide Ready, Dispatch, WakeAndRun, Aside, Settles;
    if a.Yield? {
      RequeueAside(cfg, s.k, false);
      KeptSettles(cfg, s, a, Common(cfg, s, a).k);
    } else if a.Quantum? {
      RequeueAside(cfg, s.k, true);
      KeptSettles(cfg, s, a, Common(cfg, s, a).k);
    } else if a.Undefer? {
      UndeferAside(cfg, s);
      KeptSettles(cfg, s, a, Common(cfg, s, a).k);
    } else if a.Expire? {
      hide Common;
      ExpireSettles(cfg, s, a.t);
    } else {
      hide Common;
      SetSettles(cfg, s, a);
    }
  }

  lemma UndeferAside(cfg: seq<Info>, s: State)
    requires Fits(cfg, s)
    ensures Aside(s.k, Common(cfg, s, Undefer).k)
  {
    hide WakeAndRun;
    if s.k.deferred != [] { WakeAndRunAside(cfg, s.k.(deferred := s.k.deferred[1..]), s.k.deferred[0]); }
  }

  lemma UnlinkAside(cfg: seq<Info>, k: Kern, t: Tid)
    requires Shape(cfg, k) && t < |cfg| && k.l.place[t].In? && LAST < k.l.place[t].list < |k.l.q|
    ensures Shape(cfg, k.(l := Unlink(k.l, t, Loose))) && Aside(k, k.(l := Unlink(k.l, t, Loose)))
  {
    hide Without;
  }

  lemma AppendLast(q: seq<Tid>, t: Tid)
    ensures InsertAt(q, |q|, t) == q + [t]
  {
  }

  lemma BurySettles(cfg: seq<Info>, s: State)
    requires Fits(cfg, s) && Ordinary(s) && Wakeups.Clear(s) && s.k.cur != INITIAL
    ensures Settles(s, Exit, Bury(cfg, s))
  {
    AppendLast(s.k.l.q[ZOMBIES], s.k.cur);
    hide InsertAt, Wakeups.Clear;
  }

  lemma SettlesOn(s: State, a: Act, k: Kern, r: Kern)
    requires Settles(s, a, k) && Aside(k, r)
    ensures Settles(s, a, r)
  {
    hide Line;
  }

  lemma InitialSettles(cfg: seq<Info>, s: State)
    requires Fits(cfg, s) && s.k.cur == INITIAL
    ensures Settles(s, Exit, Terminate(cfg, s).k)
  {
    var m := s.(life := s.life.(cnt := s.life.cnt - 1, leaving := true));
    hide LastLoop, Wakeups.Clear;
    LastAside(cfg, m);
    assert Aside(s.k, LastLoop(cfg, m).k);
    hide Aside;
    AsideSettles(cfg, s, Exit, LastLoop(cfg, m).k);
  }

  lemma TerminateSettles(cfg: seq<Info>, s: State)
    requires Fits(cfg, s) && Ordinary(s) && Wakeups.Clear(s)
    ensures Settles(s, Exit, Terminate(cfg, s).k)
  {
    hide Wakeups.Clear, Settles, Aside, Bury, Dispatch, Dispatcher.WakeOne, InitialPreempts, LastLoop;
    if s.k.cur == INITIAL {
      hide Terminate;
      InitialSettles(cfg, s);
    } else {
      var k := Bury(cfg, s);
      BurySettles(cfg, s);
      var w := Dispatcher.WakeOne(cfg, k, 0);
      WakeOneAside(cfg, k, 0);
      DispatchAside(cfg, k);
      DispatchAside(cfg, w);
      AsideTwice(k, w, Dispatch(cfg, w));
      SettlesOn(s, Exit, k, Dispatch(cfg, k));
      SettlesOn(s, Exit, k, Dispatch(cfg, w));
    }
  }

  lemma ZombieSettles(cfg: seq<Info>, s: State, a: Act)
    requires Fits(cfg, s) && Ordinary(s) && (a.TakeZombie? || a.ReturnZombie?)
    ensures Settles(s, a, Client(cfg, s, a).k)
  {
    if a.ReturnZombie? { AppendLast(s.k.l.q[ZOMBIES], a.t); }
    hide InsertAt;
  }

  lemma StartAside(cfg: seq<Info>, s: State, t: Tid)
    requires Fits(cfg, s) && t < |cfg|
    ensures Aside(s.k, TryRun(cfg, Ready(cfg, s.k, t, false), t))
  {
    hide Ready, TryRun, Aside;
    var m := Ready(cfg, s.k, t, false);
    ReadyAside(cfg, s.k, t, false);
    TryRunAside(cfg, m, t);
    AsideTwice(s.k, m, TryRun(cfg, m, t));
  }

  lemma PlainSettles(cfg: seq<Info>, s: State, a: Act)
    requires Fits(cfg, s) && Ordinary(s)
    requires a.Start? || a.Signal? || a.Wait? || a.Create? || a.Detach? || a.Join? || a.Unjoin? || a.TestZombie? || a.FreeZombie? || a.LastWait?
    ensures Settles(s, a, Client(cfg, s, a).k)
  {
    assert Aside(s.k, s.k);
    if a.Start? && a.t < |cfg| { StartAside(cfg, s, a.t); }
    if a.Signal? { WakeAndRunAside(cfg, s.k, a.d); }
    if a.Wait? && a.sem < |s.k.nopending| { BlockAside(cfg, s.k, a.sem); }
    hide Ready, TryRun, WakeAndRun, Block, Settles, Wakeups.Clear;
    AsideSettles(cfg, s, a, Client(cfg, s, a).k);
  }

  lemma ClientSettles(cfg: seq<Info>, s: State, a: Act)
    requires Fits(cfg, s) && Ordinary(s)
    requires !a.Late? && !a.Adjust? && !a.Hold? && !a.Yield? && !a.Quantum? && !a.Undefer? && !a.Expire? && !a.SetErrno?
    ensures Settles(s, a, Client(cfg, s, a).k)
  {
    hide Settles, Terminate;
    if a.Exit? {
      if Wakeups.Clear(s) {
        TerminateSettles(cfg, s);
      } else {
        assert Aside(s.k, s.k);
        AsideSettles(cfg, s, a, s.k);
      }
    } else if a.TakeZombie? || a.ReturnZombie? {
      hide Client;
      ZombieSettles(cfg, s, a);
    } else {
      hide Client;
      PlainSettles(cfg, s, a);
    }
  }

  /** What each step does to the settings and to the line of zombies: a hold and a list are set
      for the thread named, and for nobody else; a detached thread that terminates, or that was
      kept, joins the line at its end, and zombies are taken from its front. */
  lemma StepSettles(cfg: seq<Info>, s: State, a: Act)
    requires Fits(cfg, s) && !s.life.exited
    ensures Settles(s, a, Step(cfg, s, a).k)
  {
    hide Common, Client, LastLoop, Settles;
    if a.Late? || a.Adjust? || a.Hold? || a.Yield? || a.Quantum? || a.Undefer? || a.Expire? || a.SetErrno? {
      CommonSettles(cfg, s, a);
    } else if a.LastWait? {
      LastAside(cfg, s);
      assert Aside(s.k, s.k);
      AsideSettles(cfg, s, a, Step(cfg, s, a).k);
    } else if Ordinary(s) {
      ClientSettles(cfg, s, a);
    } else {
      assert Aside(s.k, s.k);
      AsideSettles(cfg, s, a, s.k);
    }
  }

  /** The hold on t last asked for, and the list last computed for it. */
  ghost function LastHold(cfg: seq<Info>, s: State, acts: seq<Act>, t: Tid, on: bool): bool
    requires Fits(cfg, s)
    decreases |acts|
  {
    if acts == [] then on
    else LastHold(cfg, Step(cfg, s, acts[0]), acts[1..], t, if !s.life.exited && acts[0].Hold? && acts[0].t == t && t != NULL then acts[0].on else on)
  }

  ghost function LastList(cfg: seq<Info>, s: State, acts: seq<Act>, t: Tid, n: nat): nat
    requires Fits(cfg, s)
    decreases |acts|
  {
    if acts == [] then n
    else LastList(cfg, Step(cfg, s, acts[0]), acts[1..], t, if !s.life.exited && acts[0].Adjust? && acts[0].t == t then acts[0].n else n)
  }

  /** Over every run a thread is on hold exactly when the last request for it said so, and its
      list is the one last computed for it, whatever else happened. */
  lemma {:induction false} SettingsStand(cfg: seq<Info>, s: State, acts: seq<Act>, t: Tid)
    requires Fits(cfg, s) && t < |cfg|
    ensures var r := Run(cfg, s, acts);
      && r.k.onHold[t] == LastHold(cfg, s, acts, t, s.k.onHold[t]) && r.k.qnum[t] == LastList(cfg, s, acts, t, s.k.qnum[t])
    decreases |acts|
  {
    if acts != [] {
      if !s.life.exited { StepSettles(cfg, s, acts[0]); }
      hide Line, Wakeups.Clear;
      SettingsStand(cfg, Step(cfg, s, acts[0]), acts[1..], t);
    }
  }

  // --- The exit of the process -------------------------------------------------------------------------------

  /** Nobody is left but the null thread, the initial one and t. */
  ghost predicate Only(l: Queues, t: Tid) {
    forall u: Tid :: u < |l.place| && Alive(l.place[u]) > 0 ==> u == NULL || u == INITIAL || u == t
  }

  lemma OnlyThree(l: Queues, c: Tid)
    requires c < |l.place| && c != NULL && c != INITIAL && |l.place| > 1 && Alive(l.place[c]) == 1
    requires Alive(l.place[NULL]) == 1 && Alive(l.place[INITIAL]) == 1
    ensures Total(Alive, l.place) >= 3
    ensures Total(Alive, l.place) == 3 <==> Only(l, c)
  {
    var m := l.place[c := Unborn];
    TotalUpdate(Alive, l.place, c, Unborn);
    TwoAlive(m);
    if Only(l, c) {
      assert forall u: Tid :: u < |m| && Alive(m[u]) > 0 ==> u == NULL || u == INITIAL;
    }
    if forall u: Tid :: u < |m| && Alive(m[u]) > 0 ==> u == NULL || u == INITIAL {
      forall u: Tid | u < |l.place| && Alive(l.place[u]) > 0 ensures u == NULL || u == INITIAL || u == c {
        if u != c { assert Alive(m[u]) > 0; }
      }
    }
  }

  /** The count tells who is left. */
  lemma CountTells(cfg: seq<Info>, s: State)
    requires Fits(cfg, s) && Live(cfg, s)
    ensures s.k.cur == INITIAL ==> (s.life.cnt + (if s.life.leaving then 1 else 0) <= 2 <==> Only(s.k.l, INITIAL))
    ensures Ordinary(s) && s.k.cur != INITIAL ==> (s.life.cnt <= 2 <==> s.life.leaving && Only(s.k.l, s.k.cur))
  {
    LiveParts(cfg, s);
    SpecialScheduled(cfg, s);
    BooksTotal(s);
    hide Live, KInv, Books, Only;
    if s.k.cur == INITIAL {
      TwoAlive(s.k.l.place);
      OnlyTwo(s.k.l);
    } else if Ordinary(s) {
      OnlyThree(s.k.l, s.k.cur);
    }
  }

  lemma OnlyTwo(l: Queues)
    ensures Only(l, INITIAL) <==> forall u: Tid :: u < |l.place| && Alive(l.place[u]) > 0 ==> u == NULL || u == INITIAL
  {
  }

  lemma InitialExits(cfg: seq<Info>, s: State, a: Act)
    requires Fits(cfg, s) && !s.life.exited && s.k.cur == INITIAL
    ensures Step(cfg, s, a).life.exited <==>
      (if s.life.leaving then a == LastWait && s.life.cnt <= 1 else a == Exit && Wakeups.Clear(s) && s.life.cnt <= 2)
  {
    hide Ready, WakeAndRun, TryRun, Block, Dispatch, Lists.Join, Take, Unlink;
  }

  lemma OthersExit(cfg: seq<Info>, s: State, a: Act)
    requires Fits(cfg, s) && !s.life.exited && s.k.cur != INITIAL
    ensures Step(cfg, s, a).life.exited <==>
      a == Exit && Ordinary(s) && Wakeups.Clear(s) && s.life.cnt <= 2 && InitialPreempts(cfg, Bury(cfg, s))
  {
    hide Ready, WakeAndRun, TryRun, Block, Dispatch, Bury, InitialPreempts, Dispatcher.WakeOne, Lists.Join, Take, Unlink;
  }

  /** The process exits in exactly these steps: the initial thread terminates, or having
      terminated looks again, with nobody else left; or the last other thread does, and its
      wakeup of the initial thread gives that the processor. */
  lemma ExitsExactlyWhen(cfg: seq<Info>, s: State, a: Act)
    requires Fits(cfg, s) && Live(cfg, s) && !s.life.exited
    ensures Step(cfg, s, a).life.exited <==>
      if s.k.cur == INITIAL then (if s.life.leaving then a == LastWait else a == Exit && Wakeups.Clear(s)) && Only(s.k.l, INITIAL)
      else a == Exit && Ordinary(s) && Wakeups.Clear(s) && s.life.leaving && Only(s.k.l, s.k.cur) && InitialPreempts(cfg, Bury(cfg, s))
  {
    hide Live, Step, Only, Wakeups.Clear, Bury, InitialPreempts;
    CountTells(cfg, s);
    if s.k.cur == INITIAL { InitialExits(cfg, s, a); } else { OthersExit(cfg, s, a); }
  }
}
