/** The low-level semaphore of threads/cma_semaphore.h: a queue of blocked
    threads and one bit that is clear while a wakeup is pending. */
module Semaphore {

  type Tid = nat

  datatype Sem = Sem(queue: seq<Tid>, nopending: bool)

  const EMPTY := Sem([], true)

  ghost predicate NoDup<T>(q: seq<T>) {
    forall i, j :: 0 <= i < j < |q| ==> q[i] != q[j]
  }

  /** A pending wakeup is recorded only while nobody is queued, and nobody is queued twice. */
  ghost predicate Sound(m: Sem) {
    && NoDup(m.queue)
    && (m.queue != [] ==> m.nopending)
  }

  /** Puts `x` before the element now at position `k` (at the end when `k` is too large). */
  function InsertAt<T(!new)>(q: seq<T>, k: nat, x: T): (r: seq<T>)
    ensures |r| == |q| + 1
    ensures x in r
    ensures forall y :: y in r <==> y == x || y in q
  {
    var n := if k <= |q| then k else |q|;
    assert q == q[..n] + q[n..];
    q[..n] + [x] + q[n..]
  }

  lemma InsertKeepsNoDup<T(!new)>(q: seq<T>, k: nat, x: T)
    requires NoDup(q) && x !in q
    ensures NoDup(InsertAt(q, k, x))
  {
    var n := if k <= |q| then k else |q|;
    var r := InsertAt(q, k, x);
    assert forall i :: 0 <= i < n ==> r[i] == q[i];
    assert forall i :: n < i < |r| ==> r[i] == q[i - 1];
  }

  lemma NoDupTail<T>(q: seq<T>)
    requires NoDup(q) && q != []
    ensures NoDup(q[1..])
    ensures forall x :: x in q[1..] <==> x in q && x != q[0]
  {
    assert q == [q[0]] + q[1..];
  }

  /** The queue holds exactly the threads that stand at one of the places `asleep`. */
  ghost predicate Holds<P(!new)>(m: Sem, pc: seq<P>, asleep: set<P>) {
    && Sound(m)
    && (forall t: Tid :: t in m.queue <==> t < |pc| && pc[t] in asleep)
  }

  /** A thread that blocks joins the queue ... */
  lemma Joins<P(!new)>(m: Sem, pc: seq<P>, asleep: set<P>, t: Tid, k: nat, p: P)
    requires Holds(m, pc, asleep) && t < |pc| && pc[t] !in asleep && p in asleep && m.nopending
    ensures Holds(m.(queue := InsertAt(m.queue, k, t)), pc[t := p], asleep)
  {
    InsertKeepsNoDup(m.queue, k, t);
    hide InsertAt;
  }

  /** ... and the head leaves it when a wakeup finds it there. */
  lemma Leaves<P(!new)>(m: Sem, pc: seq<P>, asleep: set<P>, p: P)
    requires Holds(m, pc, asleep) && m.queue != [] && p !in asleep
    ensures m.queue[0] < |pc| && pc[m.queue[0]] in asleep
    ensures Holds(m.(queue := m.queue[1..]), pc[m.queue[0] := p], asleep)
  {
    assert m.queue[0] in m.queue;
    NoDupTail(m.queue);
  }

  /** Waking one: the head of the queue, or else a pending wakeup is recorded. */
  function WakeOne(m: Sem): (Sem, seq<Tid>) {
    if m.queue == [] then (m.(nopending := false), []) else (m.(queue := m.queue[1..]), m.queue[..1])
  }

  /** Waking all: the whole queue, or else one pending wakeup is recorded. */
  function WakeAll(m: Sem): (Sem, seq<Tid>) {
    if m.queue == [] then (m.(nopending := false), []) else (m.(queue := []), m.queue)
  }

  /** Whoever is woken leaves the queue, and nobody else does. */
  lemma Wakes<P(!new)>(m: Sem, w: (Sem, seq<Tid>), pc: seq<P>, r: seq<P>, asleep: set<P>, p: P)
    requires Holds(m, pc, asleep) && w in {WakeOne(m), WakeAll(m)} && p !in asleep
    requires |r| == |pc| && forall u: Tid :: u < |pc| ==> r[u] == if u in w.1 then p else pc[u]
    ensures Holds(w.0, r, asleep)
    ensures forall u: Tid :: u in w.1 ==> u < |pc| && pc[u] in asleep
    ensures w.1 != [] || !w.0.nopending
  {
    assert m.queue == w.1 + w.0.queue;
    if m.queue != [] { NoDupTail(m.queue); }
  }

  /** A timeout takes a thread out of the queue, wherever it stands. */
  function Without(q: seq<Tid>, t: Tid): seq<Tid> {
    if q == [] then [] else if q[0] == t then q[1..] else [q[0]] + Without(q[1..], t)
  }

  lemma {:induction false} WithoutOne(q: seq<Tid>, t: Tid)
    requires NoDup(q)
    ensures NoDup(Without(q, t))
    ensures forall u :: u in Without(q, t) <==> u in q && u != t
  {
    if q != [] {
      NoDupTail(q);
      assert q == [q[0]] + q[1..];
      if q[0] != t {
        WithoutOne(q[1..], t);
        assert q[0] !in Without(q[1..], t);
      }
    }
  }

  lemma Expires<P(!new)>(m: Sem, pc: seq<P>, asleep: set<P>, t: Tid, p: P)
    requires Holds(m, pc, asleep) && t < |pc| && p !in asleep
    ensures Holds(m.(queue := Without(m.queue, t)), pc[t := p], asleep)
  {
    WithoutOne(m.queue, t);
  }
}
