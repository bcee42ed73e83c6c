/** The queues of the dispatcher (threads/cma_dispatch.c) and the one place where
    each thread stands: a thread has a single queue link, so being in a list is a
    property of the thread as much as of the list. */
module Lists {
  import opened Semaphore
  import opened SchedOrder

  /** The ready lists, lowest first; then the hold list, the zombies, and one block
      queue for each semaphore, the first of which is the last-thread semaphore. */
  const N_READY := 20
  const RT_LIST := 19
  const HOLD := 20
  const ZOMBIES := 21
  const LAST := 22

  datatype Place =
    | Unborn           // no thread control block yet
    | Fresh            // created, not started
    | Running
    | In(list: nat)
    | Loose            // between two lists, inside one kernel operation
    | Done             // terminated, waiting to be detached
    | Taken(holder: Tid)   // off the zombie queue, about to be looked at by thread `holder`
    | Doomed(holder: Tid)  // seen without joiners by thread `holder`, which is about to free it
    | Kept(holder: Tid)    // on the temporary queue of thread `holder`
    | Freed

  /** `stamp` says when each queued thread joined: all stamps lie between `lo` and `hi`. */
  datatype Queues = Queues(q: seq<seq<Tid>>, place: seq<Place>, stamp: seq<int>, lo: int, hi: int)

  ghost predicate Once(l: Queues) {
    forall k: nat :: k < |l.q| ==> NoDup(l.q[k])
  }

  ghost predicate ListedStand(l: Queues) {
    forall k: nat, t: Tid {:trigger t in l.q[k]} :: k < |l.q| && t in l.q[k] ==> t < |l.place| && l.place[t] == In(k)
  }

  ghost predicate StandingListed(l: Queues) {
    forall t: Tid :: t < |l.place| && l.place[t].In? ==> l.place[t].list < |l.q| && t in l.q[l.place[t].list]
  }

  /** Each list holds exactly the threads that stand in it, once. */
  ghost predicate Placed(l: Queues) {
    Once(l) && ListedStand(l) && StandingListed(l)
  }

  /** Ready lists and block queues are in priority order; real-time threads are on the
      list of their own when ready, and nobody else is. */
  ghost predicate Sorted(cfg: seq<Info>, l: Queues) {
    && |l.place| == |l.stamp| == |cfg| && |l.q| > LAST && l.lo < l.hi
    && (forall k: nat :: k < |l.q| && k != HOLD && k != ZOMBIES ==> Ordered(cfg, l.stamp, l.q[k]))
    && (forall t: Tid :: t < |l.place| && l.place[t].In? ==> l.lo < l.stamp[t] < l.hi)
    && (forall t: Tid :: t < |l.place| && l.place[t].In? && l.place[t].list < N_READY ==>
          (l.place[t].list == RT_LIST <==> cfg[t].cls == Rt))
  }

  /** Links thread t in before position p of list k; `front` makes it the oldest. */
  function Join(l: Queues, t: Tid, k: nat, p: nat, front: bool): (r: Queues)
    requires k < |l.q| && t < |l.place| && |l.stamp| == |l.place|
    ensures |r.q| == |l.q| && |r.place| == |r.stamp| == |l.place|
  {
    Queues(l.q[k := InsertAt(l.q[k], p, t)], l.place[t := In(k)],
      l.stamp[t := if front then l.lo else l.hi],
      if front then l.lo - 1 else l.lo, if front then l.hi else l.hi + 1)
  }

  /** Takes the first thread off list k and puts it at p. */
  function Take(l: Queues, k: nat, p: Place): (r: Queues)
    requires k < |l.q| && l.q[k] != []
    ensures |r.q| == |l.q| && |r.place| == |l.place|
  {
    var t := l.q[k][0];
    l.(q := l.q[k := l.q[k][1..]], place := if t < |l.place| then l.place[t := p] else l.place)
  }

  /** Takes thread t off the list it is in, wherever it stands. */
  function Unlink(l: Queues, t: Tid, p: Place): (r: Queues)
    requires t < |l.place|
    ensures |r.q| == |l.q| && |r.place| == |l.place|
  {
    var k := if l.place[t].In? then l.place[t].list else |l.q|;
    l.(q := if k < |l.q| then l.q[k := Without(l.q[k], t)] else l.q, place := l.place[t := p])
  }

  lemma JoinPlaced(l: Queues, t: Tid, k: nat, p: nat, front: bool)
    requires Placed(l) && k < |l.q| && t < |l.place| && |l.stamp| == |l.place| && !l.place[t].In?
    ensures Placed(Join(l, t, k, p, front))
  {
    assert t !in l.q[k];
    InsertKeepsNoDup(l.q[k], p, t);
    hide InsertAt;
  }

  lemma TakePlaced(l: Queues, k: nat, p: Place)
    requires Placed(l) && k < |l.q| && l.q[k] != [] && !p.In?
    ensures l.q[k][0] < |l.place| && l.place[l.q[k][0]] == In(k)
    ensures Placed(Take(l, k, p))
  {
    assert l.q[k][0] in l.q[k];
    NoDupTail(l.q[k]);
  }

  lemma UnlinkPlaced(l: Queues, t: Tid, p: Place)
    requires Placed(l) && t < |l.place| && !p.In?
    ensures Placed(Unlink(l, t, p))
  {
    if l.place[t].In? {
      WithoutOne(l.q[l.place[t].list], t);
    }
    hide Without;
  }

  /** A change of place outside the lists. */
  lemma MovePlaced(l: Queues, t: Tid, p: Place)
    requires Placed(l) && t < |l.place| && !l.place[t].In? && !p.In?
    ensures Placed(l.(place := l.place[t := p]))
  {
  }

  /** Threads of list k stand in list k, so their stamps are in range. */
  lemma StampsInRange(cfg: seq<Info>, l: Queues, k: nat)
    requires Placed(l) && Sorted(cfg, l) && k < |l.q|
    ensures forall i :: 0 <= i < |l.q[k]| ==> l.q[k][i] < |cfg| && l.lo < l.stamp[l.q[k][i]] < l.hi
  {
    assert forall i :: 0 <= i < |l.q[k]| ==> l.q[k][i] in l.q[k];
  }

  /** Joining keeps every list in order if it keeps the list joined in order. */
  lemma JoinSorted(cfg: seq<Info>, l: Queues, t: Tid, k: nat, p: nat, front: bool)
    requires Placed(l) && Sorted(cfg, l) && k < |l.q| && t < |cfg| && !l.place[t].In?
    requires k < N_READY ==> (k == RT_LIST <==> cfg[t].cls == Rt)
    requires k != HOLD && k != ZOMBIES ==>
      Ordered(cfg, l.stamp[t := if front then l.lo else l.hi], InsertAt(l.q[k], p, t))
    ensures Sorted(cfg, Join(l, t, k, p, front))
  {
    var r := Join(l, t, k, p, front);
    hide InsertAt;
    forall i: nat | i < |r.q| && i != HOLD && i != ZOMBIES
      ensures Ordered(cfg, r.stamp, r.q[i])
    {
      if i != k {
        assert t !in l.q[i];
        StampElsewhere(cfg, l.stamp, l.q[i], t, r.stamp[t]);
      }
    }
  }

  lemma TakeSorted(cfg: seq<Info>, l: Queues, k: nat, p: Place)
    requires Placed(l) && Sorted(cfg, l) && k < |l.q| && l.q[k] != [] && !p.In?
    ensures Sorted(cfg, Take(l, k, p))
  {
    if k != HOLD && k != ZOMBIES { SuffixOrdered(cfg, l.stamp, l.q[k]); }
    hide Ordered;
  }

  lemma UnlinkSorted(cfg: seq<Info>, l: Queues, t: Tid, p: Place)
    requires Placed(l) && Sorted(cfg, l) && t < |l.place| && !p.In?
    ensures Sorted(cfg, Unlink(l, t, p))
  {
    if l.place[t].In? && l.place[t].list != HOLD && l.place[t].list != ZOMBIES {
      WithoutOrdered(cfg, l.stamp, l.q[l.place[t].list], t);
    }
    hide Ordered, Without;
  }

  // --- Joining where the source does -------------------------------------------------------

  /** Readies thread t onto ready list k. */
  function JoinReady(cfg: seq<Info>, l: Queues, t: Tid, k: nat, preempt: bool): (r: Queues)
    requires k < |l.q| && t < |l.place| == |l.stamp|
    ensures |r.q| == |l.q| && |r.place| == |r.stamp| == |l.place|
  {
    Join(l, t, k, ReadyAt(cfg, l.q[k], t, preempt), preempt)
  }

  lemma JoinReadyKeeps(cfg: seq<Info>, l: Queues, t: Tid, k: nat, preempt: bool)
    requires Placed(l) && Sorted(cfg, l) && k < N_READY && t < |cfg| && !l.place[t].In?
    requires k == RT_LIST <==> cfg[t].cls == Rt
    ensures Placed(JoinReady(cfg, l, t, k, preempt)) && Sorted(cfg, JoinReady(cfg, l, t, k, preempt))
  {
    StampsInRange(cfg, l, k);
    var stamp := l.stamp[t := if preempt then l.lo else l.hi];
    assert t !in l.q[k];
    StampElsewhere(cfg, l.stamp, l.q[k], t, stamp[t]);
    assert forall i :: 0 <= i < |l.q[k]| ==> l.q[k][i] in l.q[k];
    ReadyKeepsOrder(cfg, stamp, l.q[k], t, preempt);
    JoinPlaced(l, t, k, ReadyAt(cfg, l.q[k], t, preempt), preempt);
    JoinSorted(cfg, l, t, k, ReadyAt(cfg, l.q[k], t, preempt), preempt);
  }

  /** Blocks thread t on queue k. */
  function JoinBlocked(cfg: seq<Info>, l: Queues, t: Tid, k: nat): (r: Queues)
    requires k < |l.q| && t < |l.place| == |l.stamp|
    ensures |r.q| == |l.q| && |r.place| == |r.stamp| == |l.place|
  {
    Join(l, t, k, BlockAt(cfg, l.q[k], t), false)
  }

  lemma JoinBlockedKeeps(cfg: seq<Info>, l: Queues, t: Tid, k: nat)
    requires Placed(l) && Sorted(cfg, l) && LAST <= k < |l.q| && t < |cfg| && !l.place[t].In?
    ensures Placed(JoinBlocked(cfg, l, t, k)) && Sorted(cfg, JoinBlocked(cfg, l, t, k))
  {
    StampsInRange(cfg, l, k);
    var stamp := l.stamp[t := l.hi];
    assert t !in l.q[k];
    StampElsewhere(cfg, l.stamp, l.q[k], t, stamp[t]);
    assert forall i :: 0 <= i < |l.q[k]| ==> l.q[k][i] in l.q[k];
    BlockKeepsOrder(cfg, stamp, l.q[k], t);
    JoinPlaced(l, t, k, BlockAt(cfg, l.q[k], t), false);
    JoinSorted(cfg, l, t, k, BlockAt(cfg, l.q[k], t), false);
  }
}
