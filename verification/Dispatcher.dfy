/** The dispatcher of the uniprocessor build (threads/cma_dispatch.c, and the wakeups
    of threads/cma_semaphore.h): readying, blocking, waking and dispatching with the
    kernel locked.  Each function is one such operation on the dispatcher's data. */
module Dispatcher {
  import opened Semaphore
  import opened SchedOrder
  import opened Lists

  /** The null thread and the initial thread. */
  const NULL: Tid := 0
  const INITIAL: Tid := 1

  /** A wakeup put off because the kernel was locked: one waiter of semaphore `sem`, or all. */
  datatype Defer = One(sem: nat) | All(sem: nat)

  /** `qnum` is the ready list last computed for a thread, `next` the hint where the
      search for a ready thread starts. */
  datatype Kern = Kern(
    l: Queues, next: nat, cur: Tid, qnum: seq<nat>, onHold: seq<bool>, nopending: seq<bool>, deferred: seq<Defer>)

  predicate Shape(cfg: seq<Info>, k: Kern) {
    && |cfg| > 1 && |k.l.place| == |k.l.stamp| == |k.qnum| == |k.onHold| == |cfg|
    && |k.nopending| > 0 && |k.l.q| == LAST + |k.nopending| && k.next < N_READY && k.cur < |cfg|
  }

  /** The ready list of a thread: the real-time list, the idle list, or wherever its
      priority has put it in between. */
  function Home(cfg: seq<Info>, k: Kern, t: Tid): (n: nat)
    requires Shape(cfg, k) && t < |cfg|
    ensures n < N_READY && (n == RT_LIST <==> cfg[t].cls == Rt)
  {
    match cfg[t].cls
    case Rt => RT_LIST
    case Idle => 0
    case _ => if 1 <= k.qnum[t] < RT_LIST then k.qnum[t] else 1
  }

  function Ready(cfg: seq<Info>, k: Kern, t: Tid, preempt: bool): (r: Kern)
    requires Shape(cfg, k) && t < |cfg|
    ensures Shape(cfg, r) && r.deferred == k.deferred && r.cur == k.cur
    ensures r.nopending == k.nopending && forall i: nat :: LAST <= i < |k.l.q| ==> r.l.q[i] == k.l.q[i]
  {
    var n := Home(cfg, k, t);
    if k.onHold[t] then k.(l := Join(k.l, t, HOLD, |k.l.q[HOLD]|, false))
    else k.(l := JoinReady(cfg, k.l, t, n, preempt), next := if n > k.next then n else k.next)
  }

  /** Wakes the first waiter of semaphore j, or records a pending wakeup. */
  function WakeOne(cfg: seq<Info>, k: Kern, j: nat): (r: Kern)
    requires Shape(cfg, k)
    ensures Shape(cfg, r) && r.deferred == k.deferred && r.cur == k.cur
    ensures |r.nopending| == |k.nopending|
    ensures j < |k.nopending| && k.l.q[LAST + j] != [] ==> r.l.q[LAST + j] == k.l.q[LAST + j][1..]
  {
    if j >= |k.nopending| then k
    else if k.l.q[LAST + j] == [] then k.(nopending := k.nopending[j := false])
    else
      var t := k.l.q[LAST + j][0];
      var m := k.(l := Take(k.l, LAST + j, Loose));
      if t < |cfg| then Ready(cfg, m, t, false) else m
  }

  function WakeRest(cfg: seq<Info>, k: Kern, j: nat): (r: Kern)
    requires Shape(cfg, k) && j < |k.nopending|
    ensures Shape(cfg, r) && r.deferred == k.deferred && r.cur == k.cur && |r.nopending| == |k.nopending|
    decreases |k.l.q[LAST + j]|
  {
    if k.l.q[LAST + j] == [] then k else WakeRest(cfg, WakeOne(cfg, k, j), j)
  }

  function Wake(cfg: seq<Info>, k: Kern, d: Defer): (r: Kern)
    requires Shape(cfg, k)
    ensures Shape(cfg, r) && r.deferred == k.deferred && r.cur == k.cur
  {
    if d.One? || d.sem >= |k.nopending| || k.l.q[LAST + d.sem] == [] then WakeOne(cfg, k, d.sem)
    else WakeRest(cfg, k, d.sem)
  }

  /** The threads a wakeup readies. */
  function Woken(k: Kern, d: Defer): seq<Tid>
    requires |k.l.q| == LAST + |k.nopending|
  {
    if d.sem >= |k.nopending| then []
    else if d.All? || k.l.q[LAST + d.sem] == [] then k.l.q[LAST + d.sem]
    else k.l.q[LAST + d.sem][..1]
  }

  /** Carries out everything deferred, readying threads without running them. */
  function Drain(cfg: seq<Info>, k: Kern): (r: Kern)
    requires Shape(cfg, k)
    ensures Shape(cfg, r) && r.deferred == [] && r.cur == k.cur
    decreases |k.deferred|
  {
    if k.deferred == [] then k
    else Drain(cfg, Wake(cfg, k.(deferred := k.deferred[1..]), k.deferred[0]))
  }

  /** The highest list that is not empty, looking down from n. */
  function Top(q: seq<seq<Tid>>, n: nat): (r: nat)
    requires n < |q|
    ensures r <= n
  {
    if n == 0 || q[n] != [] then n else Top(q, n - 1)
  }

  /** Takes the next thread to run off the highest list. */
  function Pick(cfg: seq<Info>, k: Kern): (r: Kern)
    requires Shape(cfg, k)
    ensures Shape(cfg, r) && r.deferred == k.deferred
  {
    var n := Top(k.l.q, k.next);
    if k.l.q[n] == [] || k.l.q[n][0] >= |cfg| then k.(next := n)
    else k.(l := Take(k.l, n, Running), next := n, cur := k.l.q[n][0])
  }

  function Dispatch(cfg: seq<Info>, k: Kern): (r: Kern)
    requires Shape(cfg, k)
    ensures Shape(cfg, r)
  {
    Pick(cfg, Drain(cfg, k))
  }

  function Yield(cfg: seq<Info>, k: Kern): (r: Kern)
    requires Shape(cfg, k)
    ensures Shape(cfg, r)
  {
    Dispatch(cfg, Ready(cfg, k, k.cur, false))
  }

  function Block(cfg: seq<Info>, k: Kern, j: nat): (r: Kern)
    requires Shape(cfg, k) && j < |k.nopending|
    ensures Shape(cfg, r)
  {
    Dispatch(cfg, Blocked(cfg, k, j))
  }

  /** The thread just readied takes the processor from the running one. */
  predicate WouldRun(cfg: seq<Info>, k: Kern, t: Tid)
    requires Shape(cfg, k)
  {
    t < |cfg| && cfg[t].spp && Outranks(cfg[t], cfg[k.cur])
  }

  function TryRun(cfg: seq<Info>, k: Kern, t: Tid): (r: Kern)
    requires Shape(cfg, k)
    ensures Shape(cfg, r)
  {
    if WouldRun(cfg, k, t) then Yield(cfg, Drain(cfg, k)) else k
  }

  /** A wakeup done by the running thread, outside the dispatcher. */
  function WakeAndRun(cfg: seq<Info>, k: Kern, d: Defer): (r: Kern)
    requires Shape(cfg, k)
    ensures Shape(cfg, r)
  {
    var w := Woken(k, d);
    var m := Wake(cfg, k, d);
    if w == [] then m
    else if d.One? then TryRun(cfg, m, w[0])
    else if exists t :: t in w && WouldRun(cfg, m, t) then Yield(cfg, m)
    else m
  }

  // --- Invariant ------------------------------------------------------------------------

  ghost predicate AboveEmpty(k: Kern) {
    forall n: nat :: k.next < n < N_READY && n < |k.l.q| ==> k.l.q[n] == []
  }

  /** The null thread runs or is ready, and is never put on hold. */
  ghost predicate NullThere(cfg: seq<Info>, k: Kern) {
    && Shape(cfg, k) && cfg[NULL].cls == Idle && !k.onHold[NULL]
    && k.l.place[NULL] in {Running, In(0)}
  }

  ghost predicate PendingSound(k: Kern) {
    |k.l.q| == LAST + |k.nopending| && forall j: nat :: j < |k.nopending| && k.l.q[LAST + j] != [] ==> k.nopending[j]
  }

  ghost predicate OnlyCurRuns(k: Kern) {
    forall t: Tid :: t < |k.l.place| && k.l.place[t] == Running ==> t == k.cur
  }

  /** What holds throughout every operation. */
  ghost predicate KInv(cfg: seq<Info>, k: Kern) {
    && Shape(cfg, k) && Placed(k.l) && Sorted(cfg, k.l)
    && AboveEmpty(k) && NullThere(cfg, k) && PendingSound(k) && OnlyCurRuns(k)
  }

  /** Running, ready, on hold, or blocked. */
  predicate Scheduled(p: Place) {
    p == Running || p == Loose || (p.In? && p.list != ZOMBIES)
  }

  /** Blocked threads have become ready; nobody else has moved. */
  ghost predicate Woke(l: Queues, r: Queues) {
    && |r.place| == |l.place|
    && forall t: Tid {:trigger r.place[t]} :: t < |l.place| && r.place[t] != l.place[t] ==>
         l.place[t].In? && l.place[t].list >= LAST && r.place[t].In? && r.place[t].list <= HOLD
  }

  /** ... and one of the ready ones now runs. */
  ghost predicate Switched(l: Queues, r: Queues, c: Tid) {
    && |r.place| == |l.place| && c < |l.place|
    && r.place[c] == Running && l.place[c].In? && l.place[c].list != HOLD && l.place[c].list != ZOMBIES
    && Woke(l, r.(place := r.place[c := l.place[c]]))
  }

  lemma ReadyKeeps(cfg: seq<Info>, k: Kern, t: Tid, preempt: bool)
    requires Shape(cfg, k) && KInv(cfg, k) && t < |cfg| && !k.l.place[t].In?
    ensures KInv(cfg, Ready(cfg, k, t, preempt))
    ensures var r := Ready(cfg, k, t, preempt);
      && r.l.place == k.l.place[t := r.l.place[t]] && r.l.place[t].In? && r.l.place[t].list <= HOLD
  {
    if k.onHold[t] {
      JoinPlaced(k.l, t, HOLD, |k.l.q[HOLD]|, false);
      JoinSorted(cfg, k.l, t, HOLD, |k.l.q[HOLD]|, false);
    } else {
      JoinReadyKeeps(cfg, k.l, t, Home(cfg, k, t), preempt);
    }
    hide InsertAt, ReadyAt, Placed, Sorted;
  }

  /** Taking a thread off the hold list, the zombies or a block queue. */
  lemma TakeKeeps(cfg: seq<Info>, k: Kern, n: nat, p: Place)
    requires KInv(cfg, k) && HOLD <= n < |k.l.q| && k.l.q[n] != [] && !p.In? && p != Running
    ensures var r := k.(l := Take(k.l, n, p)); var t := k.l.q[n][0];
      Shape(cfg, r) && KInv(cfg, r) && t < |cfg| && k.l.place[t] == In(n) && r.l.place == k.l.place[t := p]
  {
    TakePlaced(k.l, n, p);
    TakeSorted(cfg, k.l, n, p);
    hide Placed, Sorted;
  }

  lemma UnlinkKeeps(cfg: seq<Info>, k: Kern, t: Tid)
    requires KInv(cfg, k) && t < |cfg| && k.l.place[t].In? && LAST <= k.l.place[t].list < |k.l.q|
    ensures KInv(cfg, k.(l := Unlink(k.l, t, Loose)))
  {
    UnlinkPlaced(k.l, t, Loose);
    UnlinkSorted(cfg, k.l, t, Loose);
    hide Placed, Sorted;
    var n := k.l.place[t].list;
    assert Without(k.l.q[n], t) != [] ==> k.l.q[n] != [];
    hide Without;
  }

  lemma WokeTwice(a: Queues, b: Queues, c: Queues)
    requires Woke(a, b) && Woke(b, c)
    ensures Woke(a, c)
  {
    forall t: Tid | t < |a.place| && c.place[t] != a.place[t]
      ensures a.place[t].In? && a.place[t].list >= LAST && c.place[t].In? && c.place[t].list <= HOLD
    {
      assert b.place[t] == b.place[t];
    }
  }

  lemma WakeFirstKeeps(cfg: seq<Info>, k: Kern, j: nat)
    requires Shape(cfg, k) && KInv(cfg, k) && j < |k.nopending| && k.l.q[LAST + j] != []
    ensures var r, t := WakeOne(cfg, k, j), k.l.q[LAST + j][0];
      && KInv(cfg, r) && t < |cfg| && k.l.place[t] == In(LAST + j)
      && r.l.place == k.l.place[t := r.l.place[t]] && r.l.place[t].In? && r.l.place[t].list <= HOLD
  {
    hide KInv, Ready, Take;
    var t := k.l.q[LAST + j][0];
    TakeKeeps(cfg, k, LAST + j, Loose);
    var m := k.(l := Take(k.l, LAST + j, Loose));
    ReadyKeeps(cfg, m, t, false);
    assert WakeOne(cfg, k, j) == Ready(cfg, m, t, false);
  }

  lemma WakePendingKeeps(cfg: seq<Info>, k: Kern, j: nat)
    requires KInv(cfg, k) && (j >= |k.nopending| || k.l.q[LAST + j] == [])
    ensures KInv(cfg, WakeOne(cfg, k, j)) && WakeOne(cfg, k, j).l == k.l
  {
    hide Placed, Sorted;
  }

  lemma WakeOneKeeps(cfg: seq<Info>, k: Kern, j: nat)
    requires Shape(cfg, k) && KInv(cfg, k)
    ensures KInv(cfg, WakeOne(cfg, k, j)) && Woke(k.l, WakeOne(cfg, k, j).l)
  {
    hide KInv, WakeOne;
    if j < |k.nopending| && k.l.q[LAST + j] != [] {
      WakeFirstKeeps(cfg, k, j);
    } else {
      WakePendingKeeps(cfg, k, j);
    }
  }

  /** A wakeup of one waiter is a wakeup and an attempt to run the waiter. */
  lemma WakeAndRunOne(cfg: seq<Info>, k: Kern, j: nat)
    requires Shape(cfg, k) && j < |k.nopending| && k.l.q[LAST + j] != []
    ensures WakeAndRun(cfg, k, One(j)) == TryRun(cfg, WakeOne(cfg, k, j), k.l.q[LAST + j][0])
  {
    hide TryRun, WakeOne;
  }

  lemma {:induction false} WakeRestKeeps(cfg: seq<Info>, k: Kern, j: nat)
    requires KInv(cfg, k) && j < |k.nopending|
    ensures KInv(cfg, WakeRest(cfg, k, j)) && Woke(k.l, WakeRest(cfg, k, j).l)
    decreases |k.l.q[LAST + j]|
  {
    if k.l.q[LAST + j] != [] {
      var m := WakeOne(cfg, k, j);
      WakeOneKeeps(cfg, k, j);
      hide KInv, Woke, WakeOne;
      WakeRestKeeps(cfg, m, j);
      WokeTwice(k.l, m.l, WakeRest(cfg, m, j).l);
    }
  }

  lemma WakeKeeps(cfg: seq<Info>, k: Kern, d: Defer)
    requires KInv(cfg, k)
    ensures KInv(cfg, Wake(cfg, k, d)) && Woke(k.l, Wake(cfg, k, d).l)
  {
    WakeOneKeeps(cfg, k, d.sem);
    if d.sem < |k.nopending| { WakeRestKeeps(cfg, k, d.sem); }
    hide KInv, Woke, WakeOne, WakeRest;
  }

  lemma {:induction false} DrainKeeps(cfg: seq<Info>, k: Kern)
    requires KInv(cfg, k)
    ensures KInv(cfg, Drain(cfg, k)) && Woke(k.l, Drain(cfg, k).l)
    decreases |k.deferred|
  {
    if k.deferred != [] {
      var k' := k.(deferred := k.deferred[1..]);
      var m := Wake(cfg, k', k.deferred[0]);
      assert KInv(cfg, k');
      hide KInv, Woke, Wake;
      WakeKeeps(cfg, k', k.deferred[0]);
      DrainKeeps(cfg, m);
      WokeTwice(k.l, m.l, Drain(cfg, m).l);
    }
  }

  // --- Dispatching --------------------------------------------------------------------------

  lemma {:induction false} TopIsHighest(q: seq<seq<Tid>>, n: nat)
    requires n < |q|
    ensures var r := Top(q, n);
      && (forall i: nat :: r < i <= n ==> q[i] == [])
      && ((exists i: nat :: i <= n && q[i] != []) ==> q[r] != [])
  {
    if n > 0 && q[n] == [] { TopIsHighest(q, n - 1); }
  }

  /** Once the running thread has been put in a list, the search finds somebody: the
      null thread is ready, so it does not run off the end.  Who is found was ready,
      not terminated, is the first of the highest list, and nobody ready is above. */
  lemma DispatchFinds(cfg: seq<Info>, k: Kern)
    requires KInv(cfg, k) && k.l.place[NULL] == In(0)
    ensures var n := Top(k.l.q, k.next);
      && k.l.q[n] != [] && k.l.q[n][0] < |cfg| && k.l.place[k.l.q[n][0]] == In(n)
      && (forall t: Tid :: t < |cfg| && k.l.place[t].In? && k.l.place[t].list < N_READY ==>
            k.l.place[t].list < n || t == k.l.q[n][0] || (k.l.place[t].list == n && Before(cfg, k.l.stamp, k.l.q[n][0], t)))
  {
    var n := Top(k.l.q, k.next);
    assert NULL in k.l.q[0];
    TopIsHighest(k.l.q, k.next);
    var h := k.l.q[n][0];
    assert h in k.l.q[n];
    forall t: Tid | t < |cfg| && k.l.place[t].In? && n <= k.l.place[t].list < N_READY
      ensures k.l.place[t].list == n && (t == h || Before(cfg, k.l.stamp, h, t))
    {
      var m := k.l.place[t].list;
      assert t in k.l.q[m];
      assert m <= k.next;
      var i :| 0 <= i < |k.l.q[n]| && k.l.q[n][i] == t;
      assert Ordered(cfg, k.l.stamp, k.l.q[n]);
    }
  }

  lemma PickKeeps(cfg: seq<Info>, k: Kern)
    requires KInv(cfg, k) && NobodyRuns(k.l)
    ensures var r := Pick(cfg, k);
      && KInv(cfg, r) && r.cur < |k.l.place|
      && k.l.place[r.cur] == In(r.next) && r.l.place == k.l.place[r.cur := Running]
      && r.cur == k.l.q[r.next][0] && r.next == Top(k.l.q, k.next)
  {
    var n := Top(k.l.q, k.next);
    DispatchFinds(cfg, k);
    TopIsHighest(k.l.q, k.next);
    TakePlaced(k.l, n, Running);
    TakeSorted(cfg, k.l, n, Running);
    hide Placed, Sorted, Top;
    assert forall u: Tid :: u < |cfg| && u != k.l.q[n][0] ==> Take(k.l, n, Running).place[u] == k.l.place[u];
  }

  lemma WokeThenSwitched(l: Queues, m: Queues, r: Queues, c: Tid, n: nat)
    requires Woke(l, m) && c < |m.place| && m.place[c] == In(n) && n < N_READY
    requires r.place == m.place[c := Running]
    ensures Switched(l, r, c)
  {
    assert m.place[c] == m.place[c];
    forall t: Tid | t < |l.place| && t != c && r.place[t] != l.place[t]
      ensures l.place[t].In? && l.place[t].list >= LAST && r.place[t].In? && r.place[t].list <= HOLD
    {
      assert m.place[t] == r.place[t];
    }
  }

  /** Nobody runs: the running thread has been put in a list, so the null thread is ready. */
  ghost predicate NobodyRuns(l: Queues) {
    NULL < |l.place| && l.place[NULL] == In(0) && forall t: Tid :: t < |l.place| ==> l.place[t] != Running
  }

  lemma WokeNobodyRuns(l: Queues, m: Queues)
    requires NobodyRuns(l) && Woke(l, m)
    ensures NobodyRuns(m)
  {
    assert m.place[NULL] == m.place[NULL];
  }

  lemma DispatchKeeps(cfg: seq<Info>, k: Kern)
    requires Shape(cfg, k) && KInv(cfg, k) && NobodyRuns(k.l)
    ensures var r := Dispatch(cfg, k); KInv(cfg, r) && Switched(k.l, r.l, r.cur)
  {
    hide KInv, Woke, Drain, Pick, NobodyRuns, Switched;
    var m := Drain(cfg, k);
    DrainKeeps(cfg, k);
    WokeNobodyRuns(k.l, m.l);
    PickKeeps(cfg, m);
    var r := Pick(cfg, m);
    WokeThenSwitched(k.l, m.l, r.l, r.cur, r.next);
  }

  // --- Whole operations of the running thread ---------------------------------------------------

  /** Threads have moved between the lists and the processor only, and nobody has
      joined those who wait for the last thread. */
  ghost predicate Same(l: Queues, r: Queues) {
    && |r.place| == |l.place|
    && forall t: Tid {:trigger r.place[t]} :: t < |l.place| ==>
         && (Scheduled(r.place[t]) <==> Scheduled(l.place[t]))
         && (!Scheduled(l.place[t]) ==> r.place[t] == l.place[t])
         && (r.place[t] == In(LAST) ==> l.place[t] == In(LAST))
  }

  lemma SameTwice(a: Queues, b: Queues, c: Queues)
    requires Same(a, b) && Same(b, c)
    ensures Same(a, c)
  {
    forall t: Tid | t < |a.place|
      ensures Scheduled(c.place[t]) <==> Scheduled(a.place[t])
      ensures !Scheduled(a.place[t]) ==> c.place[t] == a.place[t]
      ensures c.place[t] == In(LAST) ==> a.place[t] == In(LAST)
    {
      assert b.place[t] == b.place[t];
    }
  }

  lemma SwitchedSame(l: Queues, r: Queues, c: Tid)
    requires Switched(l, r, c)
    ensures Same(l, r)
  {
    var m := r.(place := r.place[c := l.place[c]]);
    forall t: Tid | t < |l.place|
      ensures Scheduled(r.place[t]) <==> Scheduled(l.place[t])
      ensures !Scheduled(l.place[t]) ==> r.place[t] == l.place[t]
      ensures r.place[t] == In(LAST) ==> l.place[t] == In(LAST)
    {
      assert m.place[t] == m.place[t];
    }
  }

  /** The running thread gives up the processor but stays ready, oldest or newest. */
  lemma RequeueKeeps(cfg: seq<Info>, k: Kern, preempt: bool)
    requires Shape(cfg, k) && KInv(cfg, k) && k.l.place[k.cur] == Running
    ensures var r := Dispatch(cfg, Ready(cfg, k, k.cur, preempt));
      KInv(cfg, r) && r.l.place[r.cur] == Running && Same(k.l, r.l)
  {
    var m := Ready(cfg, k, k.cur, preempt);
    ReadyKeeps(cfg, k, k.cur, preempt);
    assert NobodyRuns(m.l) && Same(k.l, m.l);
    hide KInv, Ready, NobodyRuns, Same;
    DispatchKeeps(cfg, m);
    var r := Dispatch(cfg, m);
    SwitchedSame(m.l, r.l, r.cur);
    SameTwice(k.l, m.l, r.l);
  }

  /** The running thread has joined the block queue of semaphore j. */
  function Blocked(cfg: seq<Info>, k: Kern, j: nat): (r: Kern)
    requires Shape(cfg, k) && j < |k.nopending|
    ensures Shape(cfg, r)
  {
    k.(l := JoinBlocked(cfg, k.l, k.cur, LAST + j))
  }

  lemma BlockedKeeps(cfg: seq<Info>, k: Kern, j: nat)
    requires Shape(cfg, k) && KInv(cfg, k) && k.l.place[k.cur] == Running
    requires k.cur != NULL && j < |k.nopending| && k.nopending[j]
    ensures var m := Blocked(cfg, k, j);
      KInv(cfg, m) && NobodyRuns(m.l) && m.l.place == k.l.place[k.cur := In(LAST + j)]
  {
    JoinBlockedKeeps(cfg, k.l, k.cur, LAST + j);
    var m, n := Blocked(cfg, k, j), LAST + j;
    assert forall i: nat :: i < |k.l.q| && i != n ==> m.l.q[i] == k.l.q[i];
    assert m.l.place == k.l.place[k.cur := In(n)];
    assert m.nopending == k.nopending && m.onHold == k.onHold && m.next == k.next && m.cur == k.cur;
    hide Placed, Sorted, Blocked;
  }

  lemma BlockKeeps(cfg: seq<Info>, k: Kern, j: nat)
    requires Shape(cfg, k) && KInv(cfg, k) && k.l.place[k.cur] == Running
    requires k.cur != NULL && j < |k.nopending| && k.nopending[j]
    ensures var r := Block(cfg, k, j);
      && KInv(cfg, r) && r.l.place[r.cur] == Running
      && Same(k.l.(place := k.l.place[k.cur := In(LAST + j)]), r.l)
  {
    hide KInv, NobodyRuns, Blocked, Same, Dispatch;
    BlockedKeeps(cfg, k, j);
    var m := Blocked(cfg, k, j);
    DispatchKeeps(cfg, m);
    var r := Dispatch(cfg, m);
    SwitchedSame(m.l, r.l, r.cur);
    SameFrom(m.l, k.l.(place := k.l.place[k.cur := In(LAST + j)]), r.l);
  }

  lemma SameFrom(a: Queues, b: Queues, r: Queues)
    requires Same(a, r) && a.place == b.place
    ensures Same(b, r)
  {
  }

  lemma WokeSame(l: Queues, r: Queues)
    requires Woke(l, r)
    ensures Same(l, r)
  {
  }

  lemma TryRunKeeps(cfg: seq<Info>, k: Kern, t: Tid)
    requires Shape(cfg, k) && KInv(cfg, k) && k.l.place[k.cur] == Running
    ensures var r := TryRun(cfg, k, t); KInv(cfg, r) && r.l.place[r.cur] == Running && Same(k.l, r.l)
  {
    hide KInv;
    if WouldRun(cfg, k, t) {
      var m := Drain(cfg, k);
      DrainKeeps(cfg, k);
      assert m.l.place[k.cur] == Running;
      hide Ready, Dispatch, Same, Drain;
      WokeSame(k.l, m.l);
      RequeueKeeps(cfg, m, false);
      SameTwice(k.l, m.l, Yield(cfg, m).l);
    }
  }

  lemma WakeAndRunKeeps(cfg: seq<Info>, k: Kern, d: Defer)
    requires Shape(cfg, k) && KInv(cfg, k) && k.l.place[k.cur] == Running
    ensures var r := WakeAndRun(cfg, k, d); KInv(cfg, r) && r.l.place[r.cur] == Running && Same(k.l, r.l)
  {
    var m := Wake(cfg, k, d);
    WakeKeeps(cfg, k, d);
    assert m.l.place[k.cur] == Running;
    WokeSame(k.l, m.l);
    hide KInv, Wake, Woke, Same, Ready, Dispatch, TryRun;
    var w := Woken(k, d);
    if w != [] {
      TryRunKeeps(cfg, m, w[0]);
      RequeueKeeps(cfg, m, false);
      SameTwice(k.l, m.l, TryRun(cfg, m, w[0]).l);
      SameTwice(k.l, m.l, Yield(cfg, m).l);
    }
  }
}
