/** What becomes of wakeups in the dispatcher: each of its semaphores, a block queue and a bit,
    behaves as the low-level semaphore does, whether a wakeup is carried out at once or was
    deferred; nothing deferred is lost, and a wakeup that finds nobody waits for the next. */
module Wakeups {
  import Semaphore
  import opened SchedOrder
  import opened Lists
  import opened Dispatcher
  import opened Processor
  import opened Scheduling

  type Tid = Semaphore.Tid
  type Sem = Semaphore.Sem

  // --- One semaphore of the dispatcher ---------------------------------------------------------------

  function SemOf(k: Kern, i: nat): Sem
    requires i < |k.nopending| && |k.l.q| == LAST + |k.nopending|
  {
    Semaphore.Sem(k.l.q[LAST + i], k.nopending[i])
  }

  /** Semaphore i after a wakeup that may be meant for it. */
  function Served(m: Sem, d: Defer, i: nat): Sem {
    if d.sem != i then m else if d.One? then Semaphore.WakeOne(m).0 else Semaphore.WakeAll(m).0
  }

  function ServedBy(m: Sem, ds: seq<Defer>, i: nat): Sem
    decreases |ds|
  {
    if ds == [] then m else ServedBy(Served(m, ds[0], i), ds[1..], i)
  }

  /** The wakeups of one waiter among some. */
  function Ones(ds: seq<Defer>, i: nat): nat
    decreases |ds|
  {
    if ds == [] then 0 else (if ds[0] == One(i) then 1 else 0) + Ones(ds[1..], i)
  }

  lemma {:induction false} ServedInTurn(m: Sem, ds: seq<Defer>, i: nat)
    requires All(i) !in ds
    ensures var n := Ones(ds, i);
      ServedBy(m, ds, i) == Semaphore.Sem(if n <= |m.queue| then m.queue[n..] else [], m.nopending && n <= |m.queue|)
    decreases |ds|
  {
    if ds != [] {
      assert ds[0] in ds && forall d :: d in ds[1..] ==> d in ds;
      ServedInTurn(Served(m, ds[0], i), ds[1..], i);
    }
  }

  lemma {:induction false} EmptyStaysServed(m: Sem, ds: seq<Defer>, i: nat)
    requires m.queue == []
    ensures ServedBy(m, ds, i) == m.(nopending := m.nopending && forall d :: d in ds ==> d.sem != i)
    decreases |ds|
  {
    if ds != [] {
      EmptyStaysServed(Served(m, ds[0], i), ds[1..], i);
      assert ds == [ds[0]] + ds[1..];
    }
  }

  lemma {:induction false} AllAreServed(m: Sem, ds: seq<Defer>, i: nat)
    requires All(i) in ds
    ensures ServedBy(m, ds, i).queue == []
    decreases |ds|
  {
    var n := Served(m, ds[0], i);
    if ds[0] == All(i) {
      EmptyStaysServed(n, ds[1..], i);
    } else {
      assert ds == [ds[0]] + ds[1..];
      AllAreServed(n, ds[1..], i);
    }
  }

  lemma {:induction false} ServedAppend(m: Sem, a: seq<Defer>, b: seq<Defer>, i: nat)
    ensures ServedBy(m, a + b, i) == ServedBy(ServedBy(m, a, i), b, i)
    decreases |a|
  {
    if a == [] {
      assert a + b == b;
    } else {
      assert (a + b)[1..] == a[1..] + b;
      ServedAppend(Served(m, a[0], i), a[1..], b, i);
    }
  }

  // --- Waking and draining ------------------------------------------------------------------------------

  lemma WakeOneServes(cfg: seq<Info>, k: Kern, j: nat, i: nat)
    requires Shape(cfg, k) && i < |k.nopending|
    ensures SemOf(Dispatcher.WakeOne(cfg, k, j), i) == Served(SemOf(k, i), One(j), i)
  {
    hide Ready;
  }

  lemma {:induction false} WakeRestServes(cfg: seq<Info>, k: Kern, j: nat, i: nat)
    requires Shape(cfg, k) && i < |k.nopending| && j < |k.nopending|
    ensures SemOf(WakeRest(cfg, k, j), i) == if i == j then SemOf(k, i).(queue := []) else SemOf(k, i)
    decreases |k.l.q[LAST + j]|
  {
    if k.l.q[LAST + j] != [] {
      WakeOneServes(cfg, k, j, i);
      hide Dispatcher.WakeOne;
      WakeRestServes(cfg, Dispatcher.WakeOne(cfg, k, j), j, i);
    }
  }

  lemma WakeServes(cfg: seq<Info>, k: Kern, d: Defer, i: nat)
    requires Shape(cfg, k) && i < |k.nopending|
    ensures |Wake(cfg, k, d).nopending| == |k.nopending|
    ensures SemOf(Wake(cfg, k, d), i) == Served(SemOf(k, i), d, i)
  {
    WakeOneServes(cfg, k, d.sem, i);
    hide Dispatcher.WakeOne;
    if d.sem < |k.nopending| { WakeRestServes(cfg, k, d.sem, i); }
  }

  /** Draining serves every semaphore with what was deferred, in order. */
  lemma {:induction false} DrainServes(cfg: seq<Info>, k: Kern, i: nat)
    requires Shape(cfg, k) && i < |k.nopending|
    ensures |Drain(cfg, k).nopending| == |k.nopending|
    ensures SemOf(Drain(cfg, k), i) == ServedBy(SemOf(k, i), k.deferred, i)
    decreases |k.deferred|
  {
    if k.deferred != [] {
      var m := k.(deferred := k.deferred[1..]);
      WakeServes(cfg, m, k.deferred[0], i);
      hide Wake;
      DrainServes(cfg, Wake(cfg, m, k.deferred[0]), i);
    }
  }

  lemma DispatchServes(cfg: seq<Info>, k: Kern, i: nat)
    requires Shape(cfg, k) && i < |k.nopending|
    ensures var r := Dispatch(cfg, k);
      |r.nopending| == |k.nopending| && r.deferred == [] && SemOf(r, i) == ServedBy(SemOf(k, i), k.deferred, i)
  {
    DrainServes(cfg, k, i);
    hide Drain, Top;
  }

  // --- Where the woken go ---------------------------------------------------------------------------------

  /** The list for a thread that becomes ready. */
  function Due(cfg: seq<Info>, k: Kern, t: Tid): nat
    requires t < |cfg| && t < |k.onHold| && t < |k.qnum|
  {
    if k.onHold[t] then HOLD
    else match cfg[t].cls
      case Rt => RT_LIST
      case Idle => 0
      case _ => if 1 <= k.qnum[t] < RT_LIST then k.qnum[t] else 1
  }

  /** Whoever has moved was blocked, and is on the list due to him. */
  ghost predicate Rises(cfg: seq<Info>, k: Kern, r: Kern) {
    && Shape(cfg, k) && Shape(cfg, r) && r.onHold == k.onHold && r.qnum == k.qnum
    && forall t: Tid {:trigger r.l.place[t]} :: t < |cfg| && r.l.place[t] != k.l.place[t] ==>
         k.l.place[t].In? && k.l.place[t].list >= LAST && r.l.place[t] == In(Due(cfg, k, t))
  }

  lemma DueIsReady(cfg: seq<Info>, k: Kern, t: Tid, preempt: bool)
    requires Shape(cfg, k) && t < |cfg|
    ensures var r := Ready(cfg, k, t, preempt);
      r.l.place == k.l.place[t := In(Due(cfg, k, t))] && r.onHold == k.onHold && r.qnum == k.qnum && Due(cfg, k, t) <= HOLD
  {
    hide Semaphore.InsertAt, ReadyAt;
  }

  lemma RisesTwice(cfg: seq<Info>, a: Kern, b: Kern, c: Kern)
    requires Rises(cfg, a, b) && Rises(cfg, b, c)
    ensures Rises(cfg, a, c)
  {
    forall t: Tid | t < |cfg| && c.l.place[t] != a.l.place[t]
      ensures a.l.place[t].In? && a.l.place[t].list >= LAST && c.l.place[t] == In(Due(cfg, a, t))
    {
      assert b.l.place[t] == b.l.place[t];
    }
  }

  lemma WakeOneRises(cfg: seq<Info>, k: Kern, j: nat)
    requires Shape(cfg, k) && KInv(cfg, k)
    ensures Rises(cfg, k, Dispatcher.WakeOne(cfg, k, j))
  {
    hide KInv, Ready, Take, Due;
    if j < |k.nopending| && k.l.q[LAST + j] != [] {
      var t := k.l.q[LAST + j][0];
      var m := k.(l := Take(k.l, LAST + j, Loose));
      TakeKeeps(cfg, k, LAST + j, Loose);
      DueIsReady(cfg, m, t, false);
      DueSame(cfg, k, m, t);
    }
  }

  lemma DueSame(cfg: seq<Info>, k: Kern, m: Kern, t: Tid)
    requires t < |cfg| && t < |k.onHold| && t < |k.qnum| && m.onHold == k.onHold && m.qnum == k.qnum
    ensures Due(cfg, m, t) == Due(cfg, k, t)
  {
  }

  lemma {:induction false} WakeRestRises(cfg: seq<Info>, k: Kern, j: nat)
    requires KInv(cfg, k) && j < |k.nopending|
    ensures Rises(cfg, k, WakeRest(cfg, k, j))
    decreases |k.l.q[LAST + j]|
  {
    if k.l.q[LAST + j] != [] {
      var m := Dispatcher.WakeOne(cfg, k, j);
      WakeOneRises(cfg, k, j);
      WakeOneKeeps(cfg, k, j);
      hide KInv, Dispatcher.WakeOne, Rises;
      WakeRestRises(cfg, m, j);
      RisesTwice(cfg, k, m, WakeRest(cfg, m, j));
    } else {
      hide KInv;
    }
  }

  lemma WakeRises(cfg: seq<Info>, k: Kern, d: Defer)
    requires KInv(cfg, k)
    ensures Rises(cfg, k, Wake(cfg, k, d))
  {
    WakeOneRises(cfg, k, d.sem);
    if d.sem < |k.nopending| { WakeRestRises(cfg, k, d.sem); }
    hide KInv, Dispatcher.WakeOne, WakeRest, Rises;
  }

  lemma {:induction false} DrainRises(cfg: seq<Info>, k: Kern)
    requires KInv(cfg, k)
    ensures Rises(cfg, k, Drain(cfg, k))
    decreases |k.deferred|
  {
    if k.deferred == [] {
      hide KInv;
    } else {
      var n := k.(deferred := k.deferred[1..]);
      var m := Wake(cfg, n, k.deferred[0]);
      assert KInv(cfg, n);
      WakeRises(cfg, n, k.deferred[0]);
      WakeKeeps(cfg, n, k.deferred[0]);
      assert Rises(cfg, k, m);
      hide KInv, Wake, Rises;
      DrainRises(cfg, m);
      RisesTwice(cfg, k, m, Drain(cfg, m));
    }
  }

  lemma StandsInQueue(cfg: seq<Info>, k: Kern, j: nat, t: Tid)
    requires KInv(cfg, k) && j < |k.nopending| && t < |cfg|
    ensures k.l.place[t] == In(LAST + j) <==> t in k.l.q[LAST + j]
  {
    assert Placed(k.l);
  }

  lemma NotPicked(cfg: seq<Info>, k: Kern, t: Tid)
    requires KInv(cfg, k) && NobodyRuns(k.l) && t < |cfg|
    ensures var r := Pick(cfg, k); r.l.place[t] == k.l.place[t] || (t == r.cur && r.l.place[t] == Running && k.l.place[t] == In(r.next))
    ensures Pick(cfg, k).l.place[Pick(cfg, k).cur] == Running && Pick(cfg, k).next < N_READY
  {
    PickKeeps(cfg, k);
    hide KInv;
  }

  /** A dispatch first carries out what was deferred.  Of the waiters of semaphore j, first come
      first, as many leave as wakeups of one were deferred, and all with a wakeup of all; they
      are on hold, ready on the list due to them, or running.  If nobody waited, a wakeup for
      j is left pending. */
  lemma DispatchCarriesOut(cfg: seq<Info>, k: Kern, j: nat, p: nat)
    requires KInv(cfg, k) && NobodyRuns(k.l) && j < |k.nopending| && p < |k.l.q[LAST + j]|
    ensures var r, t, n := Dispatch(cfg, k), k.l.q[LAST + j][p], Ones(k.deferred, j);
      && t < |cfg|
      && (r.l.place[t] != In(LAST + j) <==> All(j) in k.deferred || p < n)
      && (r.l.place[t] != In(LAST + j) ==> r.l.place[t] == In(Due(cfg, k, t)) || (r.cur == t && r.l.place[t] == Running))
  {
    var t, m, n := k.l.q[LAST + j][p], Drain(cfg, k), Ones(k.deferred, j);
    assert t in k.l.q[LAST + j];
    assert Semaphore.NoDup(k.l.q[LAST + j]) by { assert Placed(k.l); }
    StandsIn(cfg, k, j, t);
    DrainKeeps(cfg, k);
    DrainServes(cfg, k, j);
    DrainRises(cfg, k);
    StandsInQueue(cfg, m, j, t);
    WokeNobodyRuns(k.l, m.l);
    NotPicked(cfg, m, t);
    hide KInv, Drain, Pick, NobodyRuns, Woke;
    if All(j) in k.deferred {
      AllAreServed(SemOf(k, j), k.deferred, j);
    } else {
      ServedInTurn(SemOf(k, j), k.deferred, j);
      StillThere(k.l.q[LAST + j], n, p);
    }
  }

  lemma StandsIn(cfg: seq<Info>, k: Kern, j: nat, t: Tid)
    requires KInv(cfg, k) && j < |k.nopending| && t in k.l.q[LAST + j]
    ensures t < |cfg| && k.l.place[t] == In(LAST + j)
  {
    assert Placed(k.l);
  }

  lemma StillThere(q: seq<Tid>, n: nat, p: nat)
    requires Semaphore.NoDup(q) && p < |q|
    ensures q[p] in (if n <= |q| then q[n..] else []) <==> p >= n
  {
    if n <= |q| {
      if p >= n { assert q[n..][p - n] == q[p]; }
      if q[p] in q[n..] {
        var i :| 0 <= i < |q[n..]| && q[n..][i] == q[p];
        assert q[n + i] == q[p];
      }
    }
  }

  /** ... and a deferred wakeup that finds nobody is pending afterwards. */
  lemma DispatchLeavesPending(cfg: seq<Info>, k: Kern, j: nat)
    requires Shape(cfg, k) && j < |k.nopending| && k.l.q[LAST + j] == []
    ensures var r := Dispatch(cfg, k);
      |r.nopending| == |k.nopending| && (!r.nopending[j] <==> !k.nopending[j] || exists d :: d in k.deferred && d.sem == j)
  {
    DispatchServes(cfg, k, j);
    EmptyStaysServed(SemOf(k, j), k.deferred, j);
    hide Dispatch;
  }

  // --- Every step ---------------------------------------------------------------------------------------------

  /** The running thread may terminate: it has not left zombies half way. */
  predicate Clear(s: State) {
    forall u: Tid :: u < |s.k.l.place| ==> s.k.l.place[u] !in {Taken(s.k.cur), Doomed(s.k.cur), Kept(s.k.cur)}
  }

  /** A semaphore after thread t has come to wait on it. */
  function Waited(cfg: seq<Info>, m: Sem, t: Tid): Sem {
    if !m.nopending then m.(nopending := true) else m.(queue := Semaphore.InsertAt(m.queue, BlockAt(cfg, m.queue, t), t))
  }

  /** Semaphore i after a wakeup, a wait or an expiry that act a is, by itself.  Semaphore 0 is
      where the initial thread waits for the others, and the last of them wakes it. */
  function Own(cfg: seq<Info>, s: State, a: Act, i: nat): Sem
    requires Fits(cfg, s) && i < |s.k.nopending|
  {
    var m := SemOf(s.k, i);
    match a
    case Signal(d) => if Ordinary(s) && d.sem != 0 then Served(m, d, i) else m
    case Wait(j) => if Ordinary(s) && j == i && i != 0 then Waited(cfg, m, s.k.cur) else m
    case Expire(t) =>
      if t < |cfg| && i != 0 && s.k.l.place[t] == In(LAST + i) then m.(queue := Semaphore.Without(m.queue, t)) else m
    case LastWait => if i == 0 && s.k.cur == INITIAL && s.life.leaving && s.life.cnt > 1 then Waited(cfg, m, INITIAL) else m
    case Exit =>
      if i != 0 || !Ordinary(s) || !Clear(s) then m
      else if s.k.cur == INITIAL then (if s.life.cnt > 2 then Waited(cfg, m, INITIAL) else m)
      else if s.life.cnt <= 2 && !InitialPreempts(cfg, Bury(cfg, s)) then Served(m, One(0), 0)
      else m
    case _ => m
  }

  /** What act a adds to the deferred wakeups. */
  function Later(s: State, a: Act): seq<Defer> {
    if !s.life.exited && a.Late? && a.d.sem != 0 then [a.d] else []
  }

  /** A step of the dispatcher carries n of the deferred wakeups out, the oldest, after its own effect. */
  ghost predicate Serves(cfg: seq<Info>, s: State, a: Act, r: Kern, i: nat, n: nat) {
    && Fits(cfg, s) && i < |s.k.nopending| == |r.nopending| && |r.l.q| == |s.k.l.q| && n <= |s.k.deferred|
    && r.deferred == s.k.deferred[n..] + Later(s, a)
    && SemOf(r, i) == ServedBy(Own(cfg, s, a, i), s.k.deferred[..n], i)
  }

  lemma ServesNone(cfg: seq<Info>, s: State, a: Act, r: Kern, i: nat)
    requires Fits(cfg, s) && i < |s.k.nopending| == |r.nopending| && |r.l.q| == |s.k.l.q|
    requires r.deferred == s.k.deferred + Later(s, a) && SemOf(r, i) == Own(cfg, s, a, i)
    ensures Serves(cfg, s, a, r, i, 0)
  {
    assert s.k.deferred[0..] == s.k.deferred && s.k.deferred[..0] == [];
  }

  lemma ServesAll(cfg: seq<Info>, s: State, a: Act, k: Kern, i: nat)
    requires Fits(cfg, s) && !a.Late? && i < |s.k.nopending| && Shape(cfg, k) && |k.nopending| == |s.k.nopending|
    requires k.deferred == s.k.deferred && SemOf(k, i) == Own(cfg, s, a, i)
    ensures Serves(cfg, s, a, Dispatch(cfg, k), i, |s.k.deferred|)
  {
    DispatchServes(cfg, k, i);
    assert s.k.deferred[|s.k.deferred|..] == [] && s.k.deferred[..|s.k.deferred|] == s.k.deferred;
    hide Dispatch;
  }

  lemma ReadyServes(cfg: seq<Info>, k: Kern, t: Tid, preempt: bool, i: nat)
    requires Shape(cfg, k) && t < |cfg| && i < |k.nopending|
    ensures SemOf(Ready(cfg, k, t, preempt), i) == SemOf(k, i) && Ready(cfg, k, t, preempt).deferred == k.deferred
  {
    hide Ready;
  }

  /** Trying to run a thread carries out everything or nothing. */
  lemma TryRunServes(cfg: seq<Info>, k: Kern, t: Tid, i: nat)
    requires Shape(cfg, k) && i < |k.nopending|
    ensures var r := TryRun(cfg, k, t);
      && |r.nopending| == |k.nopending| && |r.l.q| == |k.l.q|
      && if WouldRun(cfg, k, t) then r.deferred == [] && SemOf(r, i) == ServedBy(SemOf(k, i), k.deferred, i) else r == k
  {
    if WouldRun(cfg, k, t) {
      var m := Drain(cfg, k);
      DrainServes(cfg, k, i);
      hide Drain, Ready, Dispatch;
      ReadyServes(cfg, m, m.cur, false, i);
      DispatchServes(cfg, Ready(cfg, m, m.cur, false), i);
    }
  }

  lemma WakeAndRunServes(cfg: seq<Info>, k: Kern, d: Defer, i: nat) returns (n: nat)
    requires Shape(cfg, k) && i < |k.nopending|
    ensures var r := WakeAndRun(cfg, k, d);
      && |r.nopending| == |k.nopending| && |r.l.q| == |k.l.q| && n <= |k.deferred| && r.deferred == k.deferred[n..]
      && SemOf(r, i) == ServedBy(Served(SemOf(k, i), d, i), k.deferred[..n], i)
  {
    var w, m := Woken(k, d), Wake(cfg, k, d);
    WakeServes(cfg, k, d, i);
    assert k.deferred[0..] == k.deferred && k.deferred[..0] == [];
    assert k.deferred[|k.deferred|..] == [] && k.deferred[..|k.deferred|] == k.deferred;
    hide Wake, TryRun, Ready, Dispatch, WouldRun;
    n := 0;
    if w != [] {
      if d.One? {
        TryRunServes(cfg, m, w[0], i);
        if WouldRun(cfg, m, w[0]) { n := |k.deferred|; }
      } else if exists t :: t in w && WouldRun(cfg, m, t) {
        n := |k.deferred|;
        ReadyServes(cfg, m, m.cur, false, i);
        DispatchServes(cfg, Ready(cfg, m, m.cur, false), i);
      }
    }
  }

  lemma RequeueServes(cfg: seq<Info>, s: State, a: Act, preempt: bool, i: nat)
    requires Fits(cfg, s) && i < |s.k.nopending| && (a.Yield? || a.Quantum?)
    ensures Serves(cfg, s, a, Dispatch(cfg, Ready(cfg, s.k, s.k.cur, preempt)), i, |s.k.deferred|)
  {
    hide Dispatch, Ready;
    ReadyServes(cfg, s.k, s.k.cur, preempt, i);
    ServesAll(cfg, s, a, Ready(cfg, s.k, s.k.cur, preempt), i);
  }

  lemma AsideServes(cfg: seq<Info>, s: State, a: Act, i: nat)
    requires Fits(cfg, s) && i < |s.k.nopending| && !s.life.exited && (a.Late? || a.Adjust? || a.Hold? || a.SetErrno?)
    ensures Serves(cfg, s, a, Common(cfg, s, a).k, i, 0)
  {
    ServesNone(cfg, s, a, Common(cfg, s, a).k, i);
  }

  lemma CommonServes(cfg: seq<Info>, s: State, a: Act, i: nat) returns (n: nat)
    requires Fits(cfg, s) && KInv(cfg, s.k) && i < |s.k.nopending| && !s.life.exited
    requires a.Late? || a.Adjust? || a.Hold? || a.Yield? || a.Quantum? || a.Undefer? || a.Expire? || a.SetErrno?
    ensures Serves(cfg, s, a, Common(cfg, s, a).k, i, n)
  {
    n := 0;
    hide KInv, Serves;
    match a {
      case Yield =>
        n := |s.k.deferred|;
        hide Dispatch, Ready;
        RequeueServes(cfg, s, a, false, i);
      case Quantum =>
        n := |s.k.deferred|;
        hide Dispatch, Ready;
        RequeueServes(cfg, s, a, true, i);
      case Undefer => n := UndeferServes(cfg, s, i);
      case Expire(t) => ExpireServes(cfg, s, t, i);
      case _ =>
        hide Common;
        AsideServes(cfg, s, a, i);
    }
  }

  lemma Shifted(ds: seq<Defer>, l: nat)
    requires 1 + l <= |ds|
    ensures ds[..1 + l][0] == ds[0] && ds[..1 + l][1..] == ds[1..][..l] && ds[1 + l..] == ds[1..][l..]
  {
  }

  lemma UndeferServes(cfg: seq<Info>, s: State, i: nat) returns (n: nat)
    requires Fits(cfg, s) && i < |s.k.nopending|
    ensures Serves(cfg, s, Undefer, Common(cfg, s, Undefer).k, i, n)
  {
    hide WakeAndRun, Dispatch;
    if s.k.deferred == [] {
      n := 0;
      ServesNone(cfg, s, Undefer, s.k, i);
    } else {
      var m := s.k.(deferred := s.k.deferred[1..]);
      var l := WakeAndRunServes(cfg, m, s.k.deferred[0], i);
      n := 1 + l;
      Shifted(s.k.deferred, l);
      assert Own(cfg, s, Undefer, i) == SemOf(s.k, i);
    }
  }

  lemma ExpireServes(cfg: seq<Info>, s: State, t: Tid, i: nat)
    requires Fits(cfg, s) && KInv(cfg, s.k) && i < |s.k.nopending|
    ensures Serves(cfg, s, Expire(t), Common(cfg, s, Expire(t)).k, i, 0)
  {
    hide KInv;
    if t < |cfg| && s.k.l.place[t].In? && LAST < s.k.l.place[t].list < |s.k.l.q| {
      var k := s.k.(l := Unlink(s.k.l, t, Loose));
      ReadyServes(cfg, k, t, false, i);
      assert SemOf(k, i) == Own(cfg, s, Expire(t), i);
      hide Ready, Unlink, Own;
    }
    ServesNone(cfg, s, Expire(t), Common(cfg, s, Expire(t)).k, i);
  }

  lemma WaitServes(cfg: seq<Info>, s: State, j: nat, i: nat) returns (n: nat)
    requires Fits(cfg, s) && i < |s.k.nopending| && Ordinary(s) && !s.life.exited
    ensures Serves(cfg, s, Wait(j), Client(cfg, s, Wait(j)).k, i, n)
  {
    hide Dispatch;
    n := 0;
    if 0 < j < |s.k.nopending| && s.k.nopending[j] {
      n := |s.k.deferred|;
      var k := Blocked(cfg, s.k, j);
      assert SemOf(k, i) == Own(cfg, s, Wait(j), i) by { hide Semaphore.InsertAt, BlockAt; }
      hide Blocked, Own;
      ServesAll(cfg, s, Wait(j), k, i);
    } else {
      ServesNone(cfg, s, Wait(j), Client(cfg, s, Wait(j)).k, i);
    }
  }

  lemma InitialServes(cfg: seq<Info>, s: State, i: nat) returns (n: nat)
    requires Fits(cfg, s) && i < |s.k.nopending| && s.k.cur == INITIAL && !s.life.leaving && Clear(s)
    ensures Serves(cfg, s, Exit, Terminate(cfg, s).k, i, n)
  {
    var m := s.(life := s.life.(cnt := s.life.cnt - 1, leaving := true));
    hide Clear, LastLoop, Waited, Bury, InitialPreempts, ServedBy, SemOf;
    n := LastServes(cfg, m, i);
    assert SemOf(m.k, i) == SemOf(s.k, i);
    assert Own(cfg, m, LastWait, i) == Own(cfg, s, Exit, i);
    assert Terminate(cfg, s) == LastLoop(cfg, m);
    hide Own;
  }

  lemma BuryServes(cfg: seq<Info>, s: State, i: nat)
    requires Fits(cfg, s) && i < |s.k.nopending|
    ensures var k := Bury(cfg, s); |k.nopending| == |s.k.nopending| && SemOf(k, i) == SemOf(s.k, i) && k.deferred == s.k.deferred
  {
  }

  lemma OtherServes(cfg: seq<Info>, s: State, i: nat) returns (n: nat)
    requires Fits(cfg, s) && i < |s.k.nopending| && s.k.cur != INITIAL && Ordinary(s) && Clear(s)
    ensures Serves(cfg, s, Exit, Terminate(cfg, s).k, i, n)
  {
    hide Clear, Bury, Dispatch, InitialPreempts, Dispatcher.WakeOne, Serves, SemOf;
    BuryServes(cfg, s, i);
    var k := Bury(cfg, s);
    if s.life.cnt - 1 > 1 {
      n := |s.k.deferred|;
      ServesAll(cfg, s, Exit, k, i);
    } else if InitialPreempts(cfg, k) {
      n := 0;
      assert s.k.deferred + [] == s.k.deferred;
      ServesNone(cfg, s, Exit, k, i);
    } else {
      n := |s.k.deferred|;
      WakeOneServes(cfg, k, 0, i);
      ServesAll(cfg, s, Exit, Dispatcher.WakeOne(cfg, k, 0), i);
    }
  }

  lemma TerminateServes(cfg: seq<Info>, s: State, i: nat) returns (n: nat)
    requires Fits(cfg, s) && i < |s.k.nopending| && Ordinary(s) && Clear(s)
    ensures Serves(cfg, s, Exit, Terminate(cfg, s).k, i, n)
  {
    hide Clear, Terminate, Serves;
    if s.k.cur == INITIAL { n := InitialServes(cfg, s, i); } else { n := OtherServes(cfg, s, i); }
  }

  lemma LastServes(cfg: seq<Info>, s: State, i: nat) returns (n: nat)
    requires Fits(cfg, s) && i < |s.k.nopending| && s.k.cur == INITIAL && s.life.leaving
    ensures Serves(cfg, s, LastWait, LastLoop(cfg, s).k, i, n)
  {
    hide Dispatch;
    n := 0;
    if s.life.cnt > 1 && s.k.nopending[0] {
      n := |s.k.deferred|;
      var k := Blocked(cfg, s.k, 0);
      assert SemOf(k, i) == Own(cfg, s, LastWait, i) by { hide Semaphore.InsertAt, BlockAt; }
      hide Blocked, Own;
      ServesAll(cfg, s, LastWait, k, i);
    } else {
      ServesNone(cfg, s, LastWait, LastLoop(cfg, s).k, i);
    }
  }

  lemma ClientServes(cfg: seq<Info>, s: State, a: Act, i: nat) returns (n: nat)
    requires Fits(cfg, s) && KInv(cfg, s.k) && i < |s.k.nopending| && Ordinary(s) && !s.life.exited
    requires !a.Late? && !a.Adjust? && !a.Hold? && !a.Yield? && !a.Quantum? && !a.Undefer? && !a.Expire? && !a.SetErrno? && !a.LastWait?
    ensures Serves(cfg, s, a, Client(cfg, s, a).k, i, n)
  {
    hide KInv, WakeAndRun, TryRun, Terminate, Block;
    n := 0;
    match a {
      case Start(t) =>
        if t < |cfg| && s.k.l.place[t] == Fresh {
          n := StartServes(cfg, s, t, i);
        } else {
          ServesNone(cfg, s, a, s.k, i);
        }
      case Signal(d) =>
        if d.sem == 0 {
          ServesNone(cfg, s, a, s.k, i);
        } else {
          n := WakeAndRunServes(cfg, s.k, d, i);
        }
      case Wait(j) => n := WaitServes(cfg, s, j, i);
      case Exit =>
        if Clear(s) {
          n := TerminateServes(cfg, s, i);
        } else {
          ServesNone(cfg, s, a, s.k, i);
        }
      case _ => BooksServe(cfg, s, a, i);
    }
  }

  lemma BooksServe(cfg: seq<Info>, s: State, a: Act, i: nat)
    requires Fits(cfg, s) && i < |s.k.nopending|
    requires a.Create? || a.Detach? || a.Join? || a.Unjoin? || a.TakeZombie? || a.TestZombie? || a.FreeZombie? || a.ReturnZombie?
    ensures Serves(cfg, s, a, Client(cfg, s, a).k, i, 0)
  {
    ServesNone(cfg, s, a, Client(cfg, s, a).k, i);
  }

  lemma StartServes(cfg: seq<Info>, s: State, t: Tid, i: nat) returns (n: nat)
    requires Fits(cfg, s) && i < |s.k.nopending| && t < |cfg|
    ensures Serves(cfg, s, Start(t), TryRun(cfg, Ready(cfg, s.k, t, false), t), i, n)
  {
    var k := Ready(cfg, s.k, t, false);
    ReadyServes(cfg, s.k, t, false, i);
    TryRunServes(cfg, k, t, i);
    hide Ready, TryRun;
    n := 0;
    if WouldRun(cfg, k, t) {
      n := |s.k.deferred|;
      assert s.k.deferred[n..] == [] && s.k.deferred[..n] == s.k.deferred;
    } else {
      ServesNone(cfg, s, Start(t), k, i);
    }
  }

  /** Each semaphore of the dispatcher is the low-level semaphore: in a step it sees the wakeup,
      wait or expiry that the step is, then those deferred wakeups that the step carries out,
      the oldest; the others stay deferred, in order, and nothing else happens to it. */
  lemma StepServes(cfg: seq<Info>, s: State, a: Act, i: nat) returns (n: nat)
    requires Fits(cfg, s) && Live(cfg, s) && i < |s.k.nopending| && !s.life.exited
    ensures Serves(cfg, s, a, Step(cfg, s, a).k, i, n)
  {
    LiveParts(cfg, s);
    hide Live, KInv, Books, Common, Client, LastLoop, Serves, Own;
    if a.Late? || a.Adjust? || a.Hold? || a.Yield? || a.Quantum? || a.Undefer? || a.Expire? || a.SetErrno? {
      n := CommonServes(cfg, s, a, i);
    } else if a.LastWait? {
      if s.k.cur == INITIAL && s.life.leaving {
        n := LastServes(cfg, s, i);
      } else {
        n := 0;
        NothingServes(cfg, s, a, i);
      }
    } else if Ordinary(s) {
      n := ClientServes(cfg, s, a, i);
    } else {
      n := 0;
      NothingServes(cfg, s, a, i);
    }
  }

  lemma NothingServes(cfg: seq<Info>, s: State, a: Act, i: nat)
    requires Fits(cfg, s) && i < |s.k.nopending| && !a.Late? && !a.Expire? && (if a.LastWait? then !(s.k.cur == INITIAL && s.life.leaving) else !Ordinary(s))
    ensures Serves(cfg, s, a, s.k, i, 0)
  {
    ServesNone(cfg, s, a, s.k, i);
  }

  // --- Runs --------------------------------------------------------------------------------------------------------

  ghost function Lates(cfg: seq<Info>, s: State, acts: seq<Act>): seq<Defer>
    requires Fits(cfg, s)
    decreases |acts|
  {
    if acts == [] then [] else Later(s, acts[0]) + Lates(cfg, Step(cfg, s, acts[0]), acts[1..])
  }

  lemma StepDefers(cfg: seq<Info>, s: State, a: Act) returns (n: nat)
    requires Fits(cfg, s) && Inv(cfg, s) && |s.k.nopending| > 1
    ensures var r := Step(cfg, s, a);
      n <= |s.k.deferred| && r.k.deferred == s.k.deferred[n..] + Later(s, a) && |r.k.nopending| > 1
  {
    hide Live, Step, SemOf, ServedBy, Own;
    if s.life.exited {
      n := 0;
      ExitedStays(cfg, s, a);
      assert s.k.deferred[0..] + [] == s.k.deferred;
    } else {
      n := StepServes(cfg, s, a, 1);
    }
  }

  lemma ExitedStays(cfg: seq<Info>, s: State, a: Act)
    requires Fits(cfg, s) && s.life.exited
    ensures Step(cfg, s, a) == s
  {
  }

  lemma Dropped(a: seq<Defer>, b: seq<Defer>, c: seq<Defer>, m: nat, l: nat)
    requires m <= |a| && l <= |a[m..] + b + c|
    ensures m + l <= |a + (b + c)| && (a + (b + c))[m + l..] == (a[m..] + b + c)[l..]
  {
    assert a + (b + c) == a[..m] + (a[m..] + b + c);
  }

  /** In every run what was deferred has been carried out from the oldest on, or is still
      deferred, in order. */
  lemma {:induction false} NothingDeferredIsLost(cfg: seq<Info>, s: State, acts: seq<Act>) returns (n: nat)
    requires Fits(cfg, s) && Inv(cfg, s) && |s.k.nopending| > 1
    ensures var ds := s.k.deferred + Lates(cfg, s, acts); n <= |ds| && Run(cfg, s, acts).k.deferred == ds[n..]
    decreases |acts|
  {
    if acts == [] {
      n := 0;
      assert (s.k.deferred + [])[0..] == s.k.deferred;
    } else {
      var r := Step(cfg, s, acts[0]);
      hide Inv, Step, Later;
      var m := StepDefers(cfg, s, acts[0]);
      StepInv(cfg, s, acts[0]);
      var l := NothingDeferredIsLost(cfg, r, acts[1..]);
      n := m + l;
      Dropped(s.k.deferred, Later(s, acts[0]), Lates(cfg, r, acts[1..]), m, l);
    }
  }

  /** The running thread comes to semaphore i. */
  predicate Comes(s: State, a: Act, i: nat) {
    !s.life.exited && Ordinary(s) && a == Wait(i)
  }

  lemma QueueEmpty(cfg: seq<Info>, k: Kern, i: nat)
    requires KInv(cfg, k) && i < |k.nopending| && !k.nopending[i]
    ensures k.l.q[LAST + i] == []
  {
  }

  /** A pending wakeup of semaphore i is used up by the next wait on it, and by nothing else;
      that thread does not block, and nobody moves. */
  lemma TakenExactlyWhen(cfg: seq<Info>, s: State, a: Act, i: nat)
    requires Fits(cfg, s) && Inv(cfg, s) && !s.life.exited && 0 < i < |s.k.nopending| && !s.k.nopending[i]
    ensures |Step(cfg, s, a).k.nopending| == |s.k.nopending|
    ensures Step(cfg, s, a).k.nopending[i] <==> Comes(s, a, i)
    ensures Comes(s, a, i) ==> Step(cfg, s, a).k == s.k.(nopending := s.k.nopending[i := true])
  {
    var n := StepServes(cfg, s, a, i);
    LiveParts(cfg, s);
    QueueEmpty(cfg, s.k, i);
    var m := Own(cfg, s, a, i);
    assert m.queue == [] && (m.nopending <==> Comes(s, a, i)) by { OwnPending(cfg, s, a, i); }
    if Comes(s, a, i) {
      hide Live, KInv;
    } else {
      hide Live, KInv, Step, Own;
      EmptyStaysServed(m, s.k.deferred[..n], i);
    }
  }

  lemma OwnPending(cfg: seq<Info>, s: State, a: Act, i: nat)
    requires Fits(cfg, s) && KInv(cfg, s.k) && 0 < i < |s.k.nopending| && !s.k.nopending[i] && s.k.l.q[LAST + i] == [] && !s.life.exited
    ensures var m := Own(cfg, s, a, i); m.queue == [] && (m.nopending <==> Comes(s, a, i))
  {
    hide KInv;
  }

  ghost function FirstToCome(cfg: seq<Info>, s: State, acts: seq<Act>, i: nat): (n: nat)
    requires Fits(cfg, s)
    ensures n <= |acts|
    decreases |acts|
  {
    if acts == [] || Comes(s, acts[0], i) then 0 else 1 + FirstToCome(cfg, Step(cfg, s, acts[0]), acts[1..], i)
  }

  /** In every run, up to the exit, a pending wakeup stays until the first wait on its semaphore,
      which goes through. */
  lemma {:induction false} TheFirstWaitTakesTheWakeup(cfg: seq<Info>, s: State, acts: seq<Act>, i: nat)
    requires Fits(cfg, s) && Inv(cfg, s) && 0 < i < |s.k.nopending| && !s.k.nopending[i]
    ensures var n := FirstToCome(cfg, s, acts, i); var m := Run(cfg, s, acts[..n]);
      && |m.k.nopending| == |s.k.nopending| && !m.k.nopending[i]
      && (n < |acts| ==> Comes(m, acts[n], i) && Step(cfg, m, acts[n]).k == m.k.(nopending := m.k.nopending[i := true]))
    decreases |acts|
  {
    hide Inv, Live, Step, Comes;
    if acts == [] {
    } else if Comes(s, acts[0], i) {
      assert acts[..0] == [];
      assert !s.life.exited by { ComesAlive(s, acts[0], i); }
      TakenExactlyWhen(cfg, s, acts[0], i);
    } else {
      var r := Step(cfg, s, acts[0]);
      if s.life.exited { ExitedStays(cfg, s, acts[0]); } else { TakenExactlyWhen(cfg, s, acts[0], i); }
      StepInv(cfg, s, acts[0]);
      TheFirstWaitTakesTheWakeup(cfg, r, acts[1..], i);
      var n := FirstToCome(cfg, s, acts, i);
      assert acts[..n][1..] == acts[1..][..n - 1];
    }
  }

  lemma ComesAlive(s: State, a: Act, i: nat)
    requires Comes(s, a, i)
    ensures !s.life.exited
  {
  }

  /** A wakeup sent before its waiter comes lets it through: nobody moves. */
  lemma SignalThenWait(cfg: seq<Info>, s: State, d: Defer)
    requires Fits(cfg, s) && Live(cfg, s) && !s.life.exited && Ordinary(s)
    requires 0 < d.sem < |s.k.nopending| && s.k.l.q[LAST + d.sem] == []
    ensures var m := Run(cfg, s, [Signal(d)]); var r := Run(cfg, s, [Signal(d), Wait(d.sem)]);
      && m.k == s.k.(nopending := s.k.nopending[d.sem := false])
      && r.k == s.k.(nopending := s.k.nopending[d.sem := true])
  {
    hide Step, Ordinary;
    SignalIsKept(cfg, s, d);
    var m := Step(cfg, s, Signal(d));
    WaitGoesThrough(cfg, m, d.sem);
    var r := Step(cfg, m, Wait(d.sem));
    assert [Signal(d), Wait(d.sem)][1..] == [Wait(d.sem)] && [Wait(d.sem)][1..] == [] && [Signal(d)][1..] == [];
    assert Run(cfg, m, [Wait(d.sem)]) == Run(cfg, r, []);
    assert Run(cfg, s, [Signal(d)]) == Run(cfg, m, []);
  }

  lemma SignalIsKept(cfg: seq<Info>, s: State, d: Defer)
    requires Fits(cfg, s) && !s.life.exited && Ordinary(s) && 0 < d.sem < |s.k.nopending| && s.k.l.q[LAST + d.sem] == []
    ensures var m := Step(cfg, s, Signal(d));
      m.k == s.k.(nopending := s.k.nopending[d.sem := false]) && m.life == s.life && Ordinary(m)
  {
    hide Ready, TryRun, Dispatch, WakeRest;
    assert Woken(s.k, d) == [];
    assert Wake(cfg, s.k, d) == s.k.(nopending := s.k.nopending[d.sem := false]);
  }

  lemma WaitGoesThrough(cfg: seq<Info>, s: State, j: nat)
    requires Fits(cfg, s) && !s.life.exited && Ordinary(s) && 0 < j < |s.k.nopending| && !s.k.nopending[j]
    ensures Step(cfg, s, Wait(j)).k == s.k.(nopending := s.k.nopending[j := true])
  {
    hide Block;
  }
}
