/** The order of the dispatcher's queues and the choice of a preemption victim
    (threads/cma_dispatch.c): insertion loops over block queues and ready lists,
    and the search over the running threads. */
module SchedOrder {
  import opened Semaphore

  datatype Class = Rt | Fore | Back | Idle

  /** The scheduling data of a thread: class, priority, strict-priority preemption. */
  datatype Info = Info(cls: Class, prio: int, spp: bool)

  function Of(cfg: seq<Info>, t: Tid): Info {
    if t < |cfg| then cfg[t] else Info(Idle, 0, false)
  }

  // --- Order of a queue ---------------------------------------------------------------

  /** Who comes first: real-time threads by priority, then the others; ties and the
      others in order of arrival, `stamp` saying when each one joined. */
  predicate Before(cfg: seq<Info>, stamp: seq<int>, a: Tid, b: Tid) {
    a < |cfg| && b < |cfg| && |stamp| == |cfg| &&
    if cfg[a].cls == Rt then
      cfg[b].cls != Rt || cfg[a].prio > cfg[b].prio || (cfg[a].prio == cfg[b].prio && stamp[a] < stamp[b])
    else
      cfg[b].cls != Rt && stamp[a] < stamp[b]
  }

  ghost predicate Ordered(cfg: seq<Info>, stamp: seq<int>, q: seq<Tid>) {
    && |stamp| == |cfg|
    && (forall i :: 0 <= i < |q| ==> q[i] < |cfg|)
    && (forall i, j :: 0 <= i < j < |q| ==> Before(cfg, stamp, q[i], q[j]))
  }

  lemma OrderedTail(cfg: seq<Info>, stamp: seq<int>, q: seq<Tid>)
    requires Ordered(cfg, stamp, q) && q != []
    ensures forall t :: t in q[1..] <==> t in q && t != q[0]
  {
    assert q == [q[0]] + q[1..];
    assert forall i :: 0 < i < |q| ==> q[i] != q[0] by {
      assert forall i :: 0 < i < |q| ==> Before(cfg, stamp, q[0], q[i]);
    }
  }

  /** The order leaves no choice: who waits, and since when, determines the queue. */
  lemma {:induction false} OrderedIsUnique(cfg: seq<Info>, stamp: seq<int>, q: seq<Tid>, r: seq<Tid>)
    requires Ordered(cfg, stamp, q) && Ordered(cfg, stamp, r)
    requires forall t :: t in q <==> t in r
    ensures q == r
  {
    if q == [] {
      assert forall i :: 0 <= i < |r| ==> r[i] in q;
    } else {
      assert q[0] in r;
      assert q[0] == r[0] by {
        assert q[0] in r && r[0] in q;
        var i :| 0 <= i < |r| && r[i] == q[0];
        var j :| 0 <= j < |q| && q[j] == r[0];
        assert i > 0 ==> Before(cfg, stamp, r[0], r[i]);
        assert j > 0 ==> Before(cfg, stamp, q[0], q[j]);
      }
      OrderedTail(cfg, stamp, q);
      OrderedTail(cfg, stamp, r);
      OrderedIsUnique(cfg, stamp, q[1..], r[1..]);
    }
  }

  /** A new place in a queue keeps the order when all before it come before. */
  lemma InsertKeepsOrder(cfg: seq<Info>, stamp: seq<int>, q: seq<Tid>, k: nat, t: Tid)
    requires Ordered(cfg, stamp, q) && k <= |q| && t < |cfg|
    requires forall i :: 0 <= i < k ==> Before(cfg, stamp, q[i], t)
    requires forall i :: k <= i < |q| ==> Before(cfg, stamp, t, q[i])
    ensures Ordered(cfg, stamp, InsertAt(q, k, t))
  {
    var r := InsertAt(q, k, t);
    assert forall i :: 0 <= i < k ==> r[i] == q[i];
    assert r[k] == t;
    assert forall i :: k < i < |r| ==> r[i] == q[i - 1];
  }

  /** Stamps of threads that are not in the queue do not matter. */
  lemma StampElsewhere(cfg: seq<Info>, stamp: seq<int>, q: seq<Tid>, t: Tid, n: int)
    requires Ordered(cfg, stamp, q) && t < |stamp| && t !in q
    ensures Ordered(cfg, stamp[t := n], q)
  {
    forall i, j | 0 <= i < j < |q|
      ensures Before(cfg, stamp[t := n], q[i], q[j])
    {
      assert Before(cfg, stamp, q[i], q[j]);
      assert q[i] in q && q[j] in q;
    }
  }

  lemma SuffixOrdered(cfg: seq<Info>, stamp: seq<int>, q: seq<Tid>)
    requires Ordered(cfg, stamp, q) && q != []
    ensures Ordered(cfg, stamp, q[1..])
  {
  }

  lemma {:induction false} WithoutOrdered(cfg: seq<Info>, stamp: seq<int>, q: seq<Tid>, t: Tid)
    requires Ordered(cfg, stamp, q) && NoDup(q)
    ensures Ordered(cfg, stamp, Without(q, t))
  {
    hide Before;
    if q != [] && q[0] != t {
      var w := Without(q[1..], t);
      NoDupTail(q);
      SuffixOrdered(cfg, stamp, q);
      WithoutOrdered(cfg, stamp, q[1..], t);
      WithoutOne(q[1..], t);
      forall j | 0 <= j < |w|
        ensures Before(cfg, stamp, q[0], w[j])
      {
        assert w[j] in w;
        var i :| 1 <= i < |q| && q[i] == w[j];
        assert Before(cfg, stamp, q[0], q[i]);
      }
      assert Without(q, t) == [q[0]] + w;
    }
  }

  // --- Blocking ---------------------------------------------------------------------------

  /** Where the blocking thread is linked in: a real-time thread before the first that is
      not real-time or has lower priority, any other at the end. */
  method BlockPos(cfg: seq<Info>, q: seq<Tid>, t: Tid) returns (k: nat)
    requires t < |cfg| && forall i :: 0 <= i < |q| ==> q[i] < |cfg|
    ensures k <= |q|
    ensures cfg[t].cls != Rt ==> k == |q|
    ensures cfg[t].cls == Rt ==>
      && (forall i :: 0 <= i < k ==> cfg[q[i]].cls == Rt && cfg[q[i]].prio >= cfg[t].prio)
      && (k < |q| ==> cfg[q[k]].cls != Rt || cfg[q[k]].prio < cfg[t].prio)
    ensures k == BlockAt(cfg, q, t)
  {
    if cfg[t].cls == Rt {
      k := 0;
      while k < |q|
        invariant k <= |q|
        invariant forall i :: 0 <= i < k ==> cfg[q[i]].cls == Rt && cfg[q[i]].prio >= cfg[t].prio
        invariant BlockAt(cfg, q, t) == k + BlockAt(cfg, q[k..], t)
      {
        if cfg[q[k]].cls != Rt || cfg[q[k]].prio < cfg[t].prio { break; }
        assert q[k..][1..] == q[k + 1..];
        k := k + 1;
      }
    } else {
      k := |q|;
    }
  }

  function BlockAt(cfg: seq<Info>, q: seq<Tid>, t: Tid): (k: nat)
    ensures k <= |q|
  {
    if Of(cfg, t).cls != Rt then |q|
    else if q == [] || Of(cfg, q[0]).cls != Rt || Of(cfg, q[0]).prio < Of(cfg, t).prio then 0
    else 1 + BlockAt(cfg, q[1..], t)
  }

  /** A thread that blocks, arriving last, keeps the queue in order. */
  lemma BlockKeepsOrder(cfg: seq<Info>, stamp: seq<int>, q: seq<Tid>, t: Tid)
    requires Ordered(cfg, stamp, q) && t < |cfg|
    requires forall i :: 0 <= i < |q| ==> stamp[q[i]] < stamp[t]
    ensures Ordered(cfg, stamp, InsertAt(q, BlockAt(cfg, q, t), t))
  {
    var k := BlockAt(cfg, q, t);
    BlockAtSplits(cfg, q, t);
    forall i | k <= i < |q| ensures Before(cfg, stamp, t, q[i]) {
      assert k < i ==> Before(cfg, stamp, q[k], q[i]);
    }
    InsertKeepsOrder(cfg, stamp, q, k, t);
  }

  lemma {:induction false} BlockAtSplits(cfg: seq<Info>, q: seq<Tid>, t: Tid)
    requires t < |cfg| && forall i :: 0 <= i < |q| ==> q[i] < |cfg|
    ensures var k := BlockAt(cfg, q, t);
      && (cfg[t].cls == Rt ==> forall i :: 0 <= i < k ==> cfg[q[i]].cls == Rt && cfg[q[i]].prio >= cfg[t].prio)
      && (k < |q| ==> cfg[t].cls == Rt && (cfg[q[k]].cls != Rt || cfg[q[k]].prio < cfg[t].prio))
  {
    if cfg[t].cls == Rt && q != [] && cfg[q[0]].cls == Rt && cfg[q[0]].prio >= cfg[t].prio {
      BlockAtSplits(cfg, q[1..], t);
      var k := BlockAt(cfg, q[1..], t);
      assert forall i :: 0 < i < 1 + k ==> q[i] == q[1..][i - 1];
    }
  }

  // --- Ready lists ------------------------------------------------------------------------

  /** Where a readied thread is linked in: on the real-time list behind its equals, or
      before them when it was preempted; elsewhere at the end, or at the front. */
  method ReadyPos(cfg: seq<Info>, q: seq<Tid>, t: Tid, preempt: bool) returns (k: nat)
    requires t < |cfg| && forall i :: 0 <= i < |q| ==> q[i] < |cfg|
    ensures k <= |q|
    ensures cfg[t].cls != Rt ==> k == if preempt then 0 else |q|
    ensures cfg[t].cls == Rt ==>
      && (forall i :: 0 <= i < k ==> if preempt then cfg[q[i]].prio > cfg[t].prio else cfg[q[i]].prio >= cfg[t].prio)
      && (k < |q| ==> if preempt then cfg[q[k]].prio <= cfg[t].prio else cfg[q[k]].prio < cfg[t].prio)
    ensures k == ReadyAt(cfg, q, t, preempt)
  {
    if cfg[t].cls != Rt {
      k := if preempt then 0 else |q|;
    } else {
      k := 0;
      while k < |q| && cfg[t].prio <= cfg[q[k]].prio
        invariant k <= |q|
        invariant forall i :: 0 <= i < k ==> if preempt then cfg[q[i]].prio > cfg[t].prio else cfg[q[i]].prio >= cfg[t].prio
        invariant ReadyAt(cfg, q, t, preempt) == k + ReadyAt(cfg, q[k..], t, preempt)
      {
        if preempt && cfg[t].prio == cfg[q[k]].prio { break; }
        assert q[k..][1..] == q[k + 1..];
        k := k + 1;
      }
    }
  }

  function ReadyAt(cfg: seq<Info>, q: seq<Tid>, t: Tid, preempt: bool): (k: nat)
    ensures k <= |q|
  {
    if Of(cfg, t).cls != Rt then (if preempt then 0 else |q|)
    else if q == [] || Of(cfg, t).prio > Of(cfg, q[0]).prio || (preempt && Of(cfg, t).prio == Of(cfg, q[0]).prio) then 0
    else 1 + ReadyAt(cfg, q[1..], t, preempt)
  }

  lemma {:induction false} ReadyAtSplits(cfg: seq<Info>, q: seq<Tid>, t: Tid, preempt: bool)
    requires t < |cfg| && forall i :: 0 <= i < |q| ==> q[i] < |cfg|
    ensures var k := ReadyAt(cfg, q, t, preempt);
      cfg[t].cls == Rt ==>
        && (forall i :: 0 <= i < k ==> cfg[q[i]].prio >= cfg[t].prio && (preempt ==> cfg[q[i]].prio > cfg[t].prio))
        && (k < |q| ==> cfg[q[k]].prio <= cfg[t].prio && (!preempt ==> cfg[q[k]].prio < cfg[t].prio))
  {
    if cfg[t].cls == Rt && q != [] && ReadyAt(cfg, q, t, preempt) > 0 {
      ReadyAtSplits(cfg, q[1..], t, preempt);
      var k := ReadyAt(cfg, q[1..], t, preempt);
      assert forall i :: 0 < i < 1 + k ==> q[i] == q[1..][i - 1];
    }
  }

  /** A thread readied onto a list of its own kind, newest of all, or, preempted, oldest
      of all, keeps the list in order. */
  lemma ReadyKeepsOrder(cfg: seq<Info>, stamp: seq<int>, q: seq<Tid>, t: Tid, preempt: bool)
    requires Ordered(cfg, stamp, q) && t < |cfg|
    requires forall i :: 0 <= i < |q| ==> (cfg[q[i]].cls == Rt) == (cfg[t].cls == Rt)
    requires forall i :: 0 <= i < |q| ==> if preempt then stamp[t] < stamp[q[i]] else stamp[q[i]] < stamp[t]
    ensures Ordered(cfg, stamp, InsertAt(q, ReadyAt(cfg, q, t, preempt), t))
  {
    var k := ReadyAt(cfg, q, t, preempt);
    ReadyAtSplits(cfg, q, t, preempt);
    forall i | k <= i < |q| ensures Before(cfg, stamp, t, q[i]) {
      assert k < i ==> Before(cfg, stamp, q[k], q[i]);
    }
    InsertKeepsOrder(cfg, stamp, q, k, t);
  }

  // --- Preemption -----------------------------------------------------------------------------

  function Rank(c: Class): nat {
    match c case Rt => 3 case Fore => 2 case Back => 1 case Idle => 0
  }

  /** Strictly above, in class or, within a class other than idle, in priority. */
  predicate Outranks(a: Info, b: Info) {
    Rank(a.cls) > Rank(b.cls) || (a.cls == b.cls && a.cls != Idle && a.prio > b.prio)
  }

  /** The search for a preemption victim: null exactly when the requester outranks
      nobody, else a running thread that it outranks and that outranks nobody; it
      is the first such thread, or the last idle one. */
  method PreemptVictim(req: Info, running: seq<Info>) returns (victim: int)
    requires req.cls != Idle
    ensures victim == -1 <==> forall j :: 0 <= j < |running| ==> !Outranks(req, running[j])
    ensures -1 <= victim < |running|
    ensures victim >= 0 ==>
      && Outranks(req, running[victim])
      && (forall j :: 0 <= j < |running| ==> !Outranks(running[victim], running[j]))
      && (forall j :: victim < j < |running| ==> running[j].cls != Idle)
      && (running[victim].cls != Idle ==> forall j :: 0 <= j < victim ==> Outranks(running[j], running[victim]))
  {
    victim := -1;
    var i := 0;
    while i < |running|
      invariant 0 <= i <= |running| && -1 <= victim < i
      invariant victim == -1 <==> forall j :: 0 <= j < i ==> !Outranks(req, running[j])
      invariant victim >= 0 ==>
        && Outranks(req, running[victim])
        && (forall j :: 0 <= j < i ==> !Outranks(running[victim], running[j]))
        && (forall j :: victim < j < i ==> running[j].cls != Idle)
        && (running[victim].cls != Idle ==> forall j :: 0 <= j < victim ==> Outranks(running[j], running[victim]))
    {
      var t := running[i];
      var below;
      match req.cls {
        case Rt => below := if t.cls == Rt then req.prio > t.prio else true;
        case Fore =>
          match t.cls {
            case Rt => below := false;
            case Fore => below := req.prio > t.prio;
            case _ => below := true;
          }
        case _ =>
          match t.cls {
            case Back => below := req.prio > t.prio;
            case Idle => below := true;
            case _ => below := false;
          }
      }
      if below {
        if victim == -1 {
          victim := i;
        } else {
          var v := running[victim];
          match t.cls {
            case Rt => if v.cls == Rt && t.prio < v.prio { victim := i; }
            case Fore => if v.cls == Rt || (v.cls == Fore && t.prio < v.prio) { victim := i; }
            case Back => if v.cls == Rt || v.cls == Fore || (v.cls == Back && t.prio < v.prio) { victim := i; }
            case Idle => victim := i;
          }
        }
      }
      i := i + 1;
    }
  }

  /** The last idle thread has the lowest priority of the idle ones. */
  ghost predicate LastIdleIsLowest(running: seq<Info>) {
    forall i, j :: 0 <= i < |running| && 0 <= j < |running| && LastIdle(running, i) && running[j].cls == Idle ==>
      running[i].prio <= running[j].prio
  }

  ghost predicate LastIdle(running: seq<Info>, i: nat)
    requires i < |running|
  {
    running[i].cls == Idle && forall m :: i < m < |running| ==> running[m].cls != Idle
  }

  predicate AtMost(a: Info, b: Info) {
    Rank(a.cls) < Rank(b.cls) || (a.cls == b.cls && a.prio <= b.prio)
  }

  /** Among idle threads the search does not look at priorities: its answer is lowest in
      class and priority exactly when the last idle thread is the lowest idle one. */
  lemma VictimIsLowestExactlyWhen(req: Info, running: seq<Info>, v: nat)
    requires req.cls != Idle && v < |running| && Outranks(req, running[v])
    requires forall j :: 0 <= j < |running| ==> !Outranks(running[v], running[j])
    requires forall j :: v < j < |running| ==> running[j].cls != Idle
    ensures (forall j :: 0 <= j < |running| ==> AtMost(running[v], running[j])) <==> LastIdleIsLowest(running)
  {
    if running[v].cls != Idle {
      assert forall j :: 0 <= j < |running| ==> running[j].cls != Idle;
    } else {
      assert LastIdle(running, v);
      assert forall i: nat :: i < |running| && LastIdle(running, i) ==> i == v;
    }
  }

  /** With two idle threads running, the last is found, though the first is lower. */
  lemma TheLastIdleNeedNotBeLowest()
    ensures var running := [Info(Idle, 1, false), Info(Idle, 2, false)];
      && LastIdle(running, 1) && !LastIdleIsLowest(running) && !AtMost(running[1], running[0])
      && Outranks(Info(Fore, 0, false), running[1]) && !Outranks(running[1], running[0])
  {
    var running := [Info(Idle, 1, false), Info(Idle, 2, false)];
    assert LastIdle(running, 1) && running[0].cls == Idle && running[1].prio > running[0].prio;
  }
}
