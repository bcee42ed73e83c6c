/** The dispatcher's code (threads/cma_dispatch.c, threads/cma_semaphore.h) as it runs:
    lists, hint and errno cells changed step by step, search and draining loops. */
module DispatchCode {
  import opened Semaphore
  import opened SchedOrder
  import opened Lists
  import opened Dispatcher
  import Processor

  class Machine {
    const cfg: seq<Info>
    var q: seq<seq<Tid>>
    var next: nat
    var cur: Tid
    var qnum: seq<nat>
    var onHold: seq<bool>
    var nopending: seq<bool>
    var deferred: seq<Defer>
    var errno: int
    var saved: seq<int>
    ghost var place: seq<Place>
    ghost var stamp: seq<int>
    ghost var lo: int
    ghost var hi: int

    ghost function K(): Kern
      reads this
    {
      Kern(Queues(q, place, stamp, lo, hi), next, cur, qnum, onHold, nopending, deferred)
    }

    /** The data have their shapes, and only real threads are listed. */
    ghost predicate Valid()
      reads this
    {
      && Shape(cfg, K()) && |saved| == |cfg|
      && (forall n: nat, t: Tid {:trigger t in q[n]} :: n < |q| && t in q[n] ==> t < |cfg|)
    }

    constructor (cfg: seq<Info>, sems: nat)
      requires |cfg| > 1
      ensures this.cfg == cfg && Valid() && K() == Processor.Init(cfg, sems).k && errno == 0
    {
      this.cfg := cfg;
      q := seq(LAST + sems + 1, i => if i == 0 then [NULL] else []);
      next, cur, qnum, onHold := 0, INITIAL, seq(|cfg|, _ => 1), seq(|cfg|, _ => false);
      nopending, deferred, errno, saved := seq(sems + 1, _ => true), [], 0, seq(|cfg|, _ => 0);
      place := seq(|cfg|, (t: nat) => if t == NULL then In(0) else if t == INITIAL then Running else Unborn);
      stamp, lo, hi := seq(|cfg|, _ => 0), -1, 1;
    }

    /** Links t into list n before position p. */
    method Insert(t: Tid, n: nat, p: nat, front: bool)
      requires Valid() && t < |cfg| && n < |q|
      modifies this`q, this`place, this`stamp, this`lo, this`hi
      ensures Valid() && K() == old(K()).(l := Lists.Join(old(K()).l, t, n, p, front))
    {
      ghost var was := q;
      q := q[n := InsertAt(q[n], p, t)];
      place := place[t := In(n)];
      stamp := stamp[t := if front then lo else hi];
      if front { lo := lo - 1; } else { hi := hi + 1; }
      forall m: nat, u: Tid | m < |q| && u in q[m] ensures u < |cfg| {
        assert m != n ==> u in was[m];
        assert m == n && u != t ==> u in was[n];
      }
      hide InsertAt;
    }

    /** Readies a thread: onto the hold list, or its ready list in priority order,
        raising the hint. */
    method ReadyThread(t: Tid, preempt: bool)
      requires Valid() && t < |cfg|
      modifies this`q, this`place, this`stamp, this`lo, this`hi, this`next
      ensures Valid() && K() == Ready(cfg, old(K()), t, preempt)
    {
      hide Lists.Join, ReadyAt;
      if onHold[t] {
        Insert(t, HOLD, |q[HOLD]|, false);
      } else {
        var n := match cfg[t].cls
          case Rt => RT_LIST
          case Idle => 0
          case _ => if 1 <= qnum[t] < RT_LIST then qnum[t] else 1;
        assert forall i :: 0 <= i < |q[n]| ==> q[n][i] in q[n];
        if n > next { next := n; }
        var p := ReadyPos(cfg, q[n], t, preempt);
        Insert(t, n, p, preempt);
      }
    }

    /** Takes the first thread off list n. */
    method Dequeue(n: nat, ghost p: Place) returns (t: Tid)
      requires Valid() && n < |q| && q[n] != []
      modifies this`q, this`place
      ensures Valid() && t == old(q)[n][0] && t < |cfg|
      ensures K() == old(K()).(l := Take(old(K()).l, n, p))
    {
      ghost var was := q;
      t := q[n][0];
      assert t in q[n];
      q := q[n := q[n][1..]];
      place := place[t := p];
      forall m: nat, u: Tid | m < |q| && u in q[m] ensures u < |cfg| { assert u in was[m]; }
    }

    /** Wakes the first waiter of a semaphore, or leaves a wakeup pending. */
    method WakeFirst(j: nat)
      requires Valid() && j < |nopending|
      modifies this`q, this`place, this`stamp, this`lo, this`hi, this`next, this`nopending
      ensures Valid() && K() == Dispatcher.WakeOne(cfg, old(K()), j)
    {
      if q[LAST + j] != [] {
        var t := Dequeue(LAST + j, Loose);
        ReadyThread(t, false);
      } else {
        nopending := nopending[j := false];
      }
    }

    method WakeEvery(j: nat)
      requires Valid() && j < |nopending|
      modifies this`q, this`place, this`stamp, this`lo, this`hi, this`next, this`nopending
      ensures Valid() && K() == Wake(cfg, old(K()), All(j))
    {
      if q[LAST + j] != [] {
        hide Dispatcher.WakeOne;
        while q[LAST + j] != []
          invariant Valid() && j < |nopending|
          invariant WakeRest(cfg, K(), j) == WakeRest(cfg, old(K()), j)
          decreases |q[LAST + j]|
        {
          WakeFirst(j);
        }
      } else {
        nopending := nopending[j := false];
      }
    }

    /** Carries out what was deferred, in order. */
    method Undefer()
      requires Valid()
      modifies this`q, this`place, this`stamp, this`lo, this`hi, this`next, this`nopending, this`deferred
      ensures Valid() && K() == Drain(cfg, old(K()))
    {
      while deferred != []
        invariant Valid() && Drain(cfg, K()) == Drain(cfg, old(K()))
        decreases |deferred|
      {
        var d := deferred[0];
        deferred := deferred[1..];
        if d.sem < |nopending| {
          if d.One? { WakeFirst(d.sem); } else { WakeEvery(d.sem); }
        }
      }
    }

    /** Looks down from the hint for a list that is not empty. */
    method Search()
      requires Valid()
      modifies this`next
      ensures Valid() && K() == old(K()).(next := Top(old(q), old(next)))
    {
      ghost var k := K();
      while next > 0 && q[next] == []
        invariant Valid() && K() == k.(next := next) && Top(q, next) == Top(q, k.next)
      {
        next := next - 1;
      }
    }

    /** Takes the first thread of the list at the hint, saving the old thread's errno
        and restoring the new one's. */
    method SwitchToFirst()
      requires Valid() && q[next] != []
      modifies this`q, this`place, this`cur, this`errno, this`saved
      ensures Valid() && K() == old(K()).(l := Take(old(K()).l, next, Running), cur := old(q)[next][0])
      ensures cur == old(cur) ==> errno == old(errno) && saved == old(saved)
      ensures cur != old(cur) ==> saved == old(saved)[old(cur) := old(errno)] && errno == old(saved)[cur]
    {
      var t := Dequeue(next, Running);
      if t != cur {
        saved := saved[cur := errno];
        errno := saved[t];
      }
      cur := t;
    }

    /** Catches up on what was deferred, then switches to the best ready thread. */
    method DispatchNext()
      requires Valid()
      modifies this
      ensures Valid() && K() == Dispatch(cfg, old(K()))
      ensures cur == old(cur) ==> errno == old(errno) && saved == old(saved)
      ensures cur != old(cur) ==> saved == old(saved)[old(cur) := old(errno)] && errno == old(saved)[cur]
    {
      Undefer();
      ghost var k := K();
      Search();
      hide Drain, Top, Take;
      if q[next] != [] {
        assert q[next][0] in q[next];
        SwitchToFirst();
      }
    }

    /** The running thread goes behind its equals and the best ready thread runs. */
    method YieldProcessor()
      requires Valid()
      modifies this
      ensures Valid() && K() == Dispatcher.Yield(cfg, old(K()))
      ensures cur == old(cur) ==> errno == old(errno) && saved == old(saved)
      ensures cur != old(cur) ==> saved == old(saved)[old(cur) := old(errno)] && errno == old(saved)[cur]
    {
      ReadyThread(cur, false);
      DispatchNext();
    }

    /** The running thread blocks on a semaphore, in priority order. */
    method BlockCurrent(j: nat)
      requires Valid() && j < |nopending|
      modifies this
      ensures Valid() && K() == Block(cfg, old(K()), j)
      ensures cur == old(cur) ==> errno == old(errno) && saved == old(saved)
      ensures cur != old(cur) ==> saved == old(saved)[old(cur) := old(errno)] && errno == old(saved)[cur]
    {
      var list := q[LAST + j];
      assert forall i :: 0 <= i < |list| ==> list[i] in list;
      var p := BlockPos(cfg, list, cur);
      Insert(cur, LAST + j, p, false);
      DispatchNext();
    }

    /** Gives the processor to a thread just readied if it outranks the running one. */
    method TryToRun(t: Tid)
      requires Valid() && t < |cfg|
      modifies this
      ensures Valid() && K() == TryRun(cfg, old(K()), t)
    {
      if cfg[t].spp && cfg[t].cls != Idle {
        var victim := PreemptVictim(cfg[t], [cfg[cur]]);
        if victim != -1 {
          assert Outranks(cfg[t], [cfg[cur]][victim]);
          Undefer();
          YieldProcessor();
        } else {
          assert !Outranks(cfg[t], [cfg[cur]][0]);
        }
      }
    }

    /** Wakes the first waiter of a semaphore from outside the dispatcher, and runs it
        at once if it outranks the running thread. */
    method SemWakeOne(j: nat)
      requires Valid() && j < |nopending|
      modifies this
      ensures Valid() && K() == WakeAndRun(cfg, old(K()), One(j))
    {
      if q[LAST + j] != [] {
        hide TryRun, WakeAndRun, Dispatcher.WakeOne, Ready, Dispatch, Wake;
        WakeAndRunOne(cfg, K(), j);
        var t := q[LAST + j][0];
        assert t in q[LAST + j];
        WakeFirst(j);
        TryToRun(t);
      } else {
        nopending := nopending[j := false];
      }
    }
  }
}
