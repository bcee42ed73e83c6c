/** A release that locks twice (threads/cma_attr.c, threads/cma_mutex.c): an attributes
    object is destroyed with its parent locked, and so are the mutexes in its cache, each of
    which gives an inner lock back to the default attributes object. */
module SelfLock {
  import opened Semaphore
  import opened Objects
  import opened Lifetimes
  import opened Attributes

  /** Attributes object d caches a mutex with an inner lock. */
  ghost predicate Holds(h: Heap, d: Id) {
    AnyNested(h, Q(h, Key(d, M)))
  }

  /** The mutexes cached for d, and what they are, are the same. */
  ghost predicate Alone(h: Heap, r: Heap, d: Id) {
    Q(r, Key(d, M)) == Q(h, Key(d, M)) && forall z {:trigger Untouched(h, r, z)} :: z in Q(h, Key(d, M)) ==> Untouched(h, r, z)
  }

  lemma AloneTwice(a: Heap, b: Heap, c: Heap, d: Id)
    requires Alone(a, b, d) && Alone(b, c, d)
    ensures Alone(a, c, d)
  {
    forall z | z in Q(a, Key(d, M)) ensures Untouched(a, c, z) {
      assert Untouched(a, b, z) && Untouched(b, c, z);
    }
  }

  lemma AloneHolds(h: Heap, r: Heap, d: Id)
    requires Alone(h, r, d)
    ensures Holds(r, d) <==> Holds(h, d)
  {
    hide Nested;
    var q := Q(h, Key(d, M));
    if Holds(h, d) {
      var x :| x in q && x in h.obj && Nested(h.obj[x]);
      assert Untouched(h, r, x);
    }
    if Holds(r, d) {
      var x :| x in q && x in r.obj && Nested(r.obj[x]);
      assert Untouched(h, r, x);
    }
  }

  /** Emptying another attributes object's cache leaves d's alone. */
  lemma FlushAlone(h: Heap, r: Heap, k: Key, d: Id, loose: set<Id>)
    requires Inv(h, loose) && Shrinks(h, r, k) && k.t != A && k != INNERS && d != k.a && d != ROOT
    ensures Alone(h, r, d)
  {
    ShrinksSame(h, r, k);
    forall z | z in Q(h, Key(d, M)) ensures Untouched(h, r, z) {
      CachedNotSpent(h, k, d, z, loose);
      InvCached(h, loose, Key(d, M), z);
      hide Inv, Spent;
    }
  }

  lemma CachedNotSpent(h: Heap, k: Key, d: Id, z: Id, loose: set<Id>)
    requires Inv(h, loose) && z in Q(h, Key(d, M)) && k.t != A && d != k.a && d != ROOT
    ensures !Spent(h, k, z)
  {
    InvCached(h, loose, Key(d, M), z);
    if z in Q(h, k) { InvCached(h, loose, k, z); }
    if z in Q(h, INNERS) { InvCached(h, loose, INNERS, z); }
    forall w | w in Q(h, k) && w in h.obj ensures LockOf(h.obj[w]) != z {
      InvCached(h, loose, k, w);
      InvGood(h, w, loose);
      hide Inv;
    }
  }

  lemma StowsAlone(m: Heap, r: Heap, i: Id, d: Id, loose: set<Id>)
    requires Inv(m, loose) && i in loose && i in m.obj && m.obj[i].typ == M && Home(m.obj[i]) == INNERS && Good(m, i) && d != ROOT
    requires Stows(m, r, i)
    ensures Alone(m, r, d)
  {
    hide Inv, Good, SpentBy, Untouched;
    forall z | z in Q(m, Key(d, M)) ensures Untouched(m, r, z) {
      InvCached(m, loose, Key(d, M), z);
      CachedNotSpentBy(m, i, d, z, loose);
    }
  }

  lemma StowAlone(h: Heap, i: Id, d: Id, loose: set<Id>)
    requires Inv(h, loose) && i in h.known && i in h.obj && h.obj[i].typ == M && h.obj[i].parent == ROOT && Unused(h, i, loose) && d != ROOT
    requires ROOT in h.obj && i != ROOT
    ensures Alone(Retire(h, i), FreeNolock(h, i), d)
  {
    var m := Retire(h, i);
    RetiredType(h, i);
    hide Inv, FreeNolock, Unused, Stow, Stows, Retire, Good, Alone;
    FreeNolockInv(h, i, loose);
    RetiredGood(h, i, loose);
    StowsAlone(m, FreeNolock(h, i), i, d, loose + {i});
  }

  lemma RetiredType(h: Heap, i: Id)
    requires i in h.obj && h.obj[i].parent in h.obj && i != h.obj[i].parent
    ensures i in Retire(h, i).obj && Retire(h, i).obj[i].typ == h.obj[i].typ
  {
  }

  /** So does releasing a lock of the default attributes object. */
  lemma FreeAlone(h: Heap, i: Id, d: Id, loose: set<Id>)
    requires Inv(h, loose) && i in h.known && i in h.obj && h.obj[i].typ == M && h.obj[i].parent == ROOT && Unused(h, i, loose) && d != ROOT
    requires ROOT in h.obj && i != ROOT
    ensures h.obj[i].parent != i && Alone(h, FreeNolock(h, i), d)
  {
    var m := Retire(h, i);
    StowAlone(h, i, d, loose);
    RetireAlike(h, i);
    hide Inv, FreeNolock, Unused, Alike;
    assert forall j: Key :: Q(m, j) == Q(h, j);
    forall z | z in Q(h, Key(d, M)) ensures Untouched(h, m, z) {
      InvCached(h, loose, Key(d, M), z);
      RetireUntouched(h, i, z);
    }
    hide Retire;
    AloneTwice(h, m, FreeNolock(h, i), d);
  }

  lemma RetireUntouched(h: Heap, i: Id, z: Id)
    requires i in h.obj && h.obj[i].parent == ROOT && ROOT in h.obj && z in h.obj && z != ROOT && z !in h.known && i in h.known
    ensures Untouched(h, Retire(h, i), z)
  {
  }

  lemma CachedNotSpentBy(m: Heap, i: Id, d: Id, z: Id, loose: set<Id>)
    requires Inv(m, loose) && i in loose && i in m.obj && m.obj[i].typ == M && Home(m.obj[i]) == INNERS && z in Q(m, Key(d, M)) && d != ROOT
    requires Good(m, i)
    ensures !SpentBy(m, i, z)
  {
    InvCached(m, loose, Key(d, M), z);
    CachedNotSpent(m, INNERS, d, z, loose);
    hide Inv, Spent;
  }

  lemma FlushedAlone(h: Heap, x: Id, d: Id, loose: set<Id>)
    requires Inv(h, loose) && x in loose && x in h.obj && h.obj[x].typ == A && d != x && d != ROOT
    ensures Alone(h, Flushed(h, x), d)
  {
    ParentOf(h, loose, x);
    FlushesKeep(h, x, loose);
    hide Inv, Shrinks, Flush, Alone;
    var h1 := Flush(h, Key(x, C), h.obj[x].parent == ROOT, |Q(h, Key(x, C))|);
    FlushAlone(h, h1, Key(x, C), d, loose);
    FlushAlone(h1, Flushed(h, x), Key(x, M), d, loose);
    AloneTwice(h, h1, Flushed(h, x), d);
  }

  lemma EraseAlone(n: Heap, x: Id, d: Id)
    requires Inv(n, {x})
    ensures Alone(n, Erase(n, x), d)
  {
    assert Q(Erase(n, x), Key(d, M)) == Q(n, Key(d, M));
    forall z | z in Q(n, Key(d, M)) ensures Untouched(n, Erase(n, x), z) { InvCached(n, {x}, Key(d, M), z); }
  }

  lemma ReleaseAlone(h2: Heap, x: Id, d: Id)
    requires ReadyToGo(h2, x, {x}) && h2.obj[x].parent == ROOT && d != ROOT
    requires Q(h2, Key(x, C)) == [] && Q(h2, Key(x, M)) == []
    ensures var i := h2.obj[x].mutex;
      i in h2.obj && h2.obj[i].parent in h2.obj && h2.obj[i].parent != i && Alone(h2, Erase(FreeNolock(h2, i), x), d)
  {
    var i := h2.obj[x].mutex;
    ReleasedFacts(h2, x, {x});
    ReadyFacts(h2, x, {x});
    CoreRoot(h2, {x});
    LockReleased(h2, x, {x});
    hide Inv, Frees, FreeNolock, ReadyToGo, Good, Unused, Firm, Alone, Childless, Erase;
    FreeAlone(h2, i, d, {x});
    EraseAlone(FreeNolock(h2, i), x, d);
    AloneTwice(h2, FreeNolock(h2, i), Erase(FreeNolock(h2, i), x), d);
  }

  /** Destroying a child of the default attributes object leaves what the others cache alone. */
  lemma DestroyAlone(h: Heap, x: Id, d: Id)
    requires ReadyToGo(h, x, {x}) && h.obj[x].parent == ROOT && d != x && d != ROOT
    ensures Alone(h, DestroyAttr(h, x), d)
  {
    var h2 := Flushed(h, x);
    ReadyFacts(h, x, {x});
    FlushedAlone(h, x, d, {x});
    FlushedReady(h, x, {x});
    DestroyIs(h, x, {x});
    hide Inv, Flushed, FreeNolock, ReadyToGo, Good, Erase, DestroyAttr, Alone, FirmApart, ListsApart, AnyNested;
    ReleaseAlone(h2, x, d);
    AloneTwice(h, h2, DestroyAttr(h, x), d);
  }

  // --- The theorem -----------------------------------------------------------------------------------------

  /** How many objects of a full cache go. */
  function Surplus(h: Heap, k: Key): (n: nat)
    ensures n <= |Q(h, k)|
  {
    if Cnt(h, k) <= Min(h, k.t) then 0
    else if Min(h, k.t) < 0 || |Q(h, k)| < Min(h, k.t) then |Q(h, k)|
    else |Q(h, k)| - Min(h, k.t)
  }

  /** The attributes objects that the release of a destroys: itself, unless it goes to the
      cache, and with a full cache the oldest in it. */
  function Doomed(h: Heap, a: Id): seq<Id>
    requires a in h.obj && h.obj[a].parent in h.obj
  {
    var k := Home(h.obj[a]);
    if !Cacheable(h, a) then [a]
    else if Cnt(h, k) < Max(h, A) then []
    else [a] + Q(h, k)[..Surplus(h, k)]
  }

  ghost predicate AnyHolds(h: Heap, q: seq<Id>) {
    exists d :: d in q && Holds(h, d)
  }

  lemma AloneAny(h: Heap, r: Heap, q: seq<Id>)
    requires forall d :: d in q ==> Alone(h, r, d)
    ensures AnyHolds(r, q) <==> AnyHolds(h, q)
  {
    hide Alone, Holds;
    forall d | d in q ensures Holds(r, d) <==> Holds(h, d) { AloneHolds(h, r, d); }
  }

  const ATTRS := Key(ROOT, A)

  /** The first object of the default attributes object's cache is destroyed. */
  lemma DropHolds(h: Heap)
    requires Inv(h, {}) && Q(h, ATTRS) != []
    ensures var m, x := Unshelve(h, ATTRS), Q(h, ATTRS)[0];
      && x in m.obj && var n := DestroyAttr(m, x);
      && Inv(n, {}) && n.lim == h.lim && Q(n, ATTRS) == Q(h, ATTRS)[1..]
      && (n.held <==> h.held || Holds(h, x)) && forall d :: d in Q(n, ATTRS) ==> Alone(h, n, d)
  {
    var m, x := Unshelve(h, ATTRS), Q(h, ATTRS)[0];
    DropReady(h, ROOT);
    DropAttr(h, ROOT);
    DestroyKeeps(m, x, {x});
    QuietLim(h, DestroyAttr(m, x), ROOT, {});
    UnshelveSame(h, x);
    InvCounted(h, {}, ATTRS);
    hide Inv, DestroyAttr, ReadyToGo, Destroys, Quiet, AnyNested, Good, Unshelve, Alone;
    forall d | d in Q(h, ATTRS)[1..] ensures Alone(h, DestroyAttr(m, x), d) {
      var j: nat :| 1 <= j < |Q(h, ATTRS)| && Q(h, ATTRS)[j] == d;
      InvCached(h, {}, ATTRS, d);
      DestroyAlone(m, x, d);
      UnshelveAlone(h, d);
      AloneTwice(h, m, DestroyAttr(m, x), d);
    }
  }

  lemma UnshelveSame(h: Heap, x: Id)
    requires Q(h, ATTRS) != []
    ensures AnyNested(Unshelve(h, ATTRS), Q(Unshelve(h, ATTRS), Key(x, M))) <==> Holds(h, x)
  {
    assert Q(Unshelve(h, ATTRS), Key(x, M)) == Q(h, Key(x, M));
  }

  lemma UnshelveAlone(h: Heap, d: Id)
    requires Q(h, ATTRS) != [] && Inv(h, {})
    ensures Alone(h, Unshelve(h, ATTRS), d)
  {
    assert Q(Unshelve(h, ATTRS), Key(d, M)) == Q(h, Key(d, M));
    forall z | z in Q(h, Key(d, M)) ensures z in h.obj { InvCached(h, {}, Key(d, M), z); }
    hide Inv;
  }

  lemma PurgeStep(h: Heap, n: nat)
    requires n > 0 && Cnt(h, ATTRS) > Min(h, A) && Q(h, ATTRS) != [] && Q(h, ATTRS)[0] in Unshelve(h, ATTRS).obj
    ensures PurgeAttrs(h, ROOT, n) == PurgeAttrs(DestroyAttr(Unshelve(h, ATTRS), Q(h, ATTRS)[0]), ROOT, n - 1)
  {
    hide Unshelve, DestroyAttr;
  }

  lemma PurgeEnd(h: Heap, n: nat)
    requires n == |Q(h, ATTRS)| && Cnt(h, ATTRS) == n && (n == 0 || Cnt(h, ATTRS) <= Min(h, A))
    ensures PurgeAttrs(h, ROOT, n) == h && !AnyHolds(h, Q(h, ATTRS)[..Surplus(h, ATTRS)])
  {
  }

  lemma {:induction false} PurgeHolds(h: Heap, n: nat)
    requires Inv(h, {}) && n == |Q(h, ATTRS)|
    ensures PurgeAttrs(h, ROOT, n).held <==> h.held || AnyHolds(h, Q(h, ATTRS)[..Surplus(h, ATTRS)])
    decreases n
  {
    hide Inv, DestroyAttr, Unshelve, Alone, Holds, AnyHolds, Surplus, PurgeAttrs;
    InvCounted(h, {}, ATTRS);
    if n > 0 && Cnt(h, ATTRS) > Min(h, A) {
      DropHolds(h);
      var m := DestroyAttr(Unshelve(h, ATTRS), Q(h, ATTRS)[0]);
      InvCounted(m, {}, ATTRS);
      PurgeHolds(m, n - 1);
      PurgeStep(h, n);
      AnyTail(h, m);
    } else {
      PurgeEnd(h, n);
    }
  }

  lemma SurplusTail(h: Heap, m: Heap)
    requires Q(h, ATTRS) != [] && Q(m, ATTRS) == Q(h, ATTRS)[1..] && m.lim == h.lim && Cnt(h, ATTRS) > Min(h, A)
    requires Cnt(h, ATTRS) == |Q(h, ATTRS)| && Cnt(m, ATTRS) == |Q(m, ATTRS)|
    ensures Q(h, ATTRS)[..Surplus(h, ATTRS)] == [Q(h, ATTRS)[0]] + Q(m, ATTRS)[..Surplus(m, ATTRS)]
  {
  }

  lemma AnyTail(h: Heap, m: Heap)
    requires Q(h, ATTRS) != [] && Q(m, ATTRS) == Q(h, ATTRS)[1..] && m.lim == h.lim && Cnt(h, ATTRS) > Min(h, A)
    requires Cnt(h, ATTRS) == |Q(h, ATTRS)| && Cnt(m, ATTRS) == |Q(m, ATTRS)|
    requires forall d :: d in Q(m, ATTRS) ==> Alone(h, m, d)
    ensures AnyHolds(h, Q(h, ATTRS)[..Surplus(h, ATTRS)]) <==>
      Holds(h, Q(h, ATTRS)[0]) || AnyHolds(m, Q(m, ATTRS)[..Surplus(m, ATTRS)])
  {
    SurplusTail(h, m);
    hide Alone, Holds, AnyHolds, Surplus;
    var t := Q(m, ATTRS)[..Surplus(m, ATTRS)];
    assert forall d :: d in t ==> d in Q(m, ATTRS);
    AloneAny(h, m, t);
    HoldsFirst(h, Q(h, ATTRS)[0], t);
  }

  lemma HoldsFirst(h: Heap, x: Id, t: seq<Id>)
    ensures AnyHolds(h, [x] + t) <==> Holds(h, x) || AnyHolds(h, t)
  {
    hide Holds;
    if Holds(h, x) { assert x in [x] + t; }
    if d :| d in t && Holds(h, d) { assert d in [x] + t; }
  }

  lemma RetiredAlone(h: Heap, a: Id, d: Id)
    requires Inv(h, {}) && a in h.known && a in h.obj && h.obj[a].parent == ROOT && ROOT in h.obj && a != ROOT
    ensures Alone(h, Retire(h, a), d)
  {
    var m := Retire(h, a);
    RetireAlike(h, a);
    hide Alike;
    assert Q(m, Key(d, M)) == Q(h, Key(d, M));
    forall z | z in Q(h, Key(d, M)) ensures Untouched(h, m, z) {
      InvCached(h, {}, Key(d, M), z);
      RetireUntouched(h, a, z);
      hide Retire, Inv;
    }
  }

  lemma RetiredHolds(h: Heap, a: Id)
    requires Inv(h, {}) && a in h.known && a in h.obj && h.obj[a].typ == A && h.obj[a].refcnt == 0 && h.obj[a].parent == ROOT
    ensures var m := Retire(h, a);
      && ReadyToGo(m, a, {a}) && m.obj[a].seqn == 0 && m.held == h.held && m.lim == h.lim && Q(m, ATTRS) == Q(h, ATTRS)
      && Cnt(m, ATTRS) == Cnt(h, ATTRS)
      && m.obj[a].parent == ROOT && ROOT in m.obj && ROOT in h.obj && (Cacheable(m, a) <==> Cacheable(h, a))
      && (forall d :: Alone(h, m, d))
  {
    RetireReady(h, a);
    RetireAlike(h, a);
    RetiredSame(h, a);
    var m := Retire(h, a);
    assert m.queue == h.queue ==> Q(m, ATTRS) == Q(h, ATTRS);
    hide Inv, Alike, ReadyToGo, Cacheable, Retire, Alone;
    forall d ensures Alone(h, m, d) { RetiredAlone(h, a, d); }
    if ROOT !in m.obj { ReadyFacts(m, a, {a}); }
  }

  lemma FullLocksTwiceExactlyWhen(m: Heap, a: Id)
    requires ReadyToGo(m, a, {a}) && m.obj[a].parent == ROOT
    ensures PurgeAttrs(DestroyAttr(m, a), ROOT, |Q(m, ATTRS)|).held <==>
      m.held || AnyHolds(m, [a] + Q(m, ATTRS)[..Surplus(m, ATTRS)])
  {
    var n := DestroyAttr(m, a);
    DestroyQuiet(m, a);
    hide Inv, ReadyToGo, DestroyAttr, Quiet, PurgeAttrs, Surplus, AnyHolds, AnyNested;
    PurgeHolds(n, |Q(n, ATTRS)|);
    PurgedOthers(m, a);
    HoldsFirst(m, a, Q(m, ATTRS)[..Surplus(m, ATTRS)]);
  }

  lemma JustHolds(h: Heap, a: Id)
    ensures AnyHolds(h, [a]) <==> Holds(h, a)
    ensures !AnyHolds(h, [])
  {
    hide Holds;
    if Holds(h, a) { assert a in [a]; }
  }

  lemma DestroyHolds(m: Heap, a: Id)
    requires ReadyToGo(m, a, {a}) && m.obj[a].parent == ROOT
    ensures DestroyAttr(m, a).held <==> m.held || Holds(m, a)
  {
    hide Inv, ReadyToGo, DestroyAttr, Quiet, AnyNested;
    DestroyQuiet(m, a);
  }

  /** With the default attributes object as parent, what is destroyed takes its lock again
      exactly when one of the doomed caches a mutex that is not fast. */
  lemma StowLocksTwiceExactlyWhen(m: Heap, a: Id)
    requires ReadyToGo(m, a, {a}) && m.obj[a].seqn == 0 && m.obj[a].parent == ROOT
    ensures ROOT in m.obj && (StowAttr(m, a).held <==> m.held || AnyHolds(m, Doomed(m, a)))
  {
    ReadyFacts(m, a, {a});
    assert Home(m.obj[a]) == ATTRS;
    hide Inv, ReadyToGo, DestroyAttr, Quiet, Good, Cacheable, PurgeAttrs, Shelve, Surplus, AnyHolds, AnyNested;
    JustHolds(m, a);
    if !Cacheable(m, a) {
      DestroyHolds(m, a);
      assert StowAttr(m, a) == DestroyAttr(m, a) && Doomed(m, a) == [a];
    } else if Cnt(m, ATTRS) < Max(m, A) {
      assert StowAttr(m, a) == Shelve(m, a) && Doomed(m, a) == [];
      ShelveQuiet(m, a);
    } else {
      assert StowAttr(m, a) == PurgeAttrs(DestroyAttr(m, a), ROOT, |Q(m, ATTRS)|);
      FullLocksTwiceExactlyWhen(m, a);
    }
  }

  lemma SameSurplus(m: Heap, n: Heap)
    requires Q(n, ATTRS) == Q(m, ATTRS) && Cnt(n, ATTRS) == |Q(n, ATTRS)| && Cnt(m, ATTRS) == |Q(m, ATTRS)| && n.lim == m.lim
    ensures Surplus(n, ATTRS) == Surplus(m, ATTRS)
  {
  }

  lemma PurgedOthers(m: Heap, a: Id)
    requires ReadyToGo(m, a, {a}) && m.obj[a].parent == ROOT
    ensures var n := DestroyAttr(m, a);
      AnyHolds(n, Q(n, ATTRS)[..Surplus(n, ATTRS)]) <==> AnyHolds(m, Q(m, ATTRS)[..Surplus(m, ATTRS)])
  {
    var n := DestroyAttr(m, a);
    ReadyFacts(m, a, {a});
    DestroyQuiet(m, a);
    hide Inv, ReadyToGo, DestroyAttr, Quiet, Good, Alone, Holds, AnyHolds, Surplus, AnyNested;
    QuietLim(m, n, ROOT, {});
    InvCounted(m, {a}, ATTRS);
    InvCounted(n, {}, ATTRS);
    SameSurplus(m, n);
    var t := Q(m, ATTRS)[..Surplus(m, ATTRS)];
    forall d | d in t ensures Alone(m, n, d) {
      InvCached(m, {a}, ATTRS, d);
      DestroyAlone(m, a, d);
    }
    AloneAny(m, n, t);
  }

  /** Deleting an attributes object made from the default one: what it destroys locks that one
      again exactly when one of them caches a mutex that is not fast. */
  lemma ChildLocksTwiceExactlyWhen(h: Heap, a: Id)
    requires Inv(h, {}) && a in h.known && a in h.obj && h.obj[a].typ == A && h.obj[a].refcnt == 0 && h.obj[a].parent == ROOT
    requires ROOT in h.obj
    ensures FreeAttr(h, a).held <==> h.held || AnyHolds(h, Doomed(h, a))
  {
    var m := Retire(h, a);
    RetiredHolds(h, a);
    RetireReady(h, a);
    hide Inv, ReadyToGo, Retire, StowAttr, AnyHolds, Doomed, Cacheable, Alone, Quiet, Lowered;
    StowLocksTwiceExactlyWhen(m, a);
    SameDoomed(h, m, a);
    AloneAny(h, m, Doomed(h, a));
    StowAttrKeeps(m, a);
    RootStays(StowAttr(m, a));
    ReadyFacts(m, a, {a});
  }

  lemma SameDoomed(h: Heap, m: Heap, a: Id)
    requires a in h.obj && a in m.obj && ROOT in h.obj && ROOT in m.obj && h.obj[a].parent == ROOT && m.obj[a].parent == ROOT
    requires h.obj[a].typ == A && m.obj[a].typ == A && (Cacheable(m, a) <==> Cacheable(h, a)) && m.lim == h.lim
    requires Q(m, ATTRS) == Q(h, ATTRS) && Cnt(m, ATTRS) == Cnt(h, ATTRS)
    ensures Doomed(m, a) == Doomed(h, a)
  {
    hide Cacheable;
  }

  // --- Cascades ----------------------------------------------------------------------------------------

  /** How far up a deletion cascades: a parent goes with a when it has been deleted and only a
      and a's lock refer to it. */
  function Top(h: Heap, a: Id): Id
    requires a in h.obj
    decreases a
  {
    var p := h.obj[a].parent;
    if p != ROOT && p < a && p in h.obj && h.obj[p].pending && h.obj[p].refcnt == 2 then Top(h, p) else a
  }

  lemma PendingErases(m: Heap, x: Id)
    requires x in m.obj && m.obj[x].parent in m.obj && m.obj[x].parent != ROOT && m.obj[m.obj[x].parent].pending
    ensures Stow(m, x) == EraseLeaf(m, x, false)
  {
  }

  lemma ErasedAlone(m: Heap, x: Id, d: Id, loose: set<Id>)
    requires Inv(m, loose) && x in loose && x in m.obj && m.obj[x].typ != A && Good(m, x) && d != ROOT
    ensures Alone(m, EraseLeaf(m, x, false), d)
  {
    var n := EraseLeaf(m, x, false);
    hide Inv, Good, EraseLeaf, Stows, Undone, Keeps, Untouched;
    ErasedStows(m, x, loose);
    UndoneNotCached(m, x, Key(d, M), loose);
    KeepsQueue(m, n, Undone(m, x), Key(d, M));
    forall z | z in Q(m, Key(d, M)) ensures Untouched(m, n, z) {
      InvCached(m, loose, Key(d, M), z);
      if z in Q(m, INNERS) { InvCached(m, loose, INNERS, z); }
      KeepsAt(m, n, Undone(m, x), INNERS, z);
    }
  }

  lemma KeepsQueue(h: Heap, r: Heap, some: set<Id>, j: Key)
    requires Keeps(h, r, some, INNERS) && j != INNERS
    ensures Q(r, j) == Q(h, j)
  {
  }

  lemma RetireAlone(h: Heap, x: Id, d: Id, loose: set<Id>)
    requires Inv(h, loose) && x in h.known && x in h.obj && h.obj[x].parent in h.obj
    ensures Alone(h, Retire(h, x), d)
  {
    var m := Retire(h, x);
    ParentKnown(h, loose, x);
    RetireAlike(h, x);
    hide Alike;
    assert Q(m, Key(d, M)) == Q(h, Key(d, M));
    forall z | z in Q(h, Key(d, M)) ensures Untouched(h, m, z) {
      InvCached(h, loose, Key(d, M), z);
      OtherUntouched(h, x, z);
      hide Retire, Inv;
    }
  }

  lemma OtherUntouched(h: Heap, x: Id, z: Id)
    requires x in h.obj && h.obj[x].parent in h.obj && z in h.obj && z !in h.known && x in h.known && z != h.obj[x].parent
    ensures Untouched(h, Retire(h, x), z)
  {
  }

  /** Releasing an object of a deleted parent leaves the mutexes cached anywhere but for the
      default attributes object alone. */
  lemma FreePendingAlone(h: Heap, x: Id, d: Id, loose: set<Id>)
    requires Inv(h, loose) && x in h.known && x in h.obj && h.obj[x].typ != A && Unused(h, x, loose) && d != ROOT
    requires h.obj[x].parent in h.obj && h.obj[x].parent != ROOT && h.obj[x].parent != x && h.obj[h.obj[x].parent].pending
    ensures Alone(h, FreeNolock(h, x), d)
  {
    var m := Retire(h, x);
    RetiredSame(h, x);
    hide Inv, Unused, Retire, FreeNolock, Stow, Stows, Good, Alone, EraseLeaf, Cacheable;
    FreeNolockInv(h, x, loose);
    RetiredGood(h, x, loose);
    PendingErases(m, x);
    RetireAlone(h, x, d, loose);
    ErasedAlone(m, x, d, loose + {x});
    AloneTwice(h, m, FreeNolock(h, x), d);
  }

  lemma ReleasePendingAlone(h2: Heap, x: Id, d: Id)
    requires ReadyToGo(h2, x, {x}) && h2.obj[x].parent in h2.obj && h2.obj[x].parent != ROOT && h2.obj[h2.obj[x].parent].pending && d != ROOT
    requires Q(h2, Key(x, C)) == [] && Q(h2, Key(x, M)) == []
    ensures var i := h2.obj[x].mutex;
      i in h2.obj && h2.obj[i].parent in h2.obj && h2.obj[i].parent != i && Alone(h2, Erase(FreeNolock(h2, i), x), d)
  {
    var i := h2.obj[x].mutex;
    ReleasedFacts(h2, x, {x});
    ReadyFacts(h2, x, {x});
    LockReleased(h2, x, {x});
    hide Inv, Frees, FreeNolock, ReadyToGo, Good, Unused, Firm, Alone, Childless, Erase;
    FreePendingAlone(h2, i, d, {x});
    EraseAlone(FreeNolock(h2, i), x, d);
    AloneTwice(h2, FreeNolock(h2, i), Erase(FreeNolock(h2, i), x), d);
  }

  lemma FlushedParent(h: Heap, x: Id)
    requires ReadyToGo(h, x, {x}) && FirmApart(h, Flushed(h, x), {x}) && h.obj[x].parent != ROOT
    ensures var p := h.obj[x].parent; p in h.obj && p in Flushed(h, x).obj && Flushed(h, x).obj[p] == h.obj[p]
  {
    ReadyFacts(h, x, {x});
    ParentFirm(h, {x}, x);
    assert Untouched(h, Flushed(h, x), h.obj[x].parent);
  }

  /** Destroying a child of a deleted attributes object leaves what others cache alone. */
  lemma DestroyPendingAlone(h: Heap, x: Id, d: Id)
    requires ReadyToGo(h, x, {x}) && h.obj[x].parent in h.obj && h.obj[x].parent != ROOT && h.obj[h.obj[x].parent].pending
    requires d != x && d != ROOT
    ensures Alone(h, DestroyAttr(h, x), d)
  {
    var h2 := Flushed(h, x);
    ReadyFacts(h, x, {x});
    FlushedAlone(h, x, d, {x});
    FlushedReady(h, x, {x});
    FlushedParent(h, x);
    DestroyIs(h, x, {x});
    hide Inv, Flushed, FreeNolock, ReadyToGo, Good, Erase, DestroyAttr, Alone, FirmApart, ListsApart, AnyNested;
    ReleasePendingAlone(h2, x, d);
    AloneTwice(h, h2, DestroyAttr(h, x), d);
  }

  // One stage of a cascade

  /** What the release of a, a child of p, does when p is not the default attributes object. */
  ghost predicate Stage(h: Heap, n: Heap, a: Id, p: Id) {
    && Lets(h, n, a, p) && n.held == h.held && p in n.obj && p in h.obj
    && (h.obj[p].pending ==> n.obj[p] == h.obj[p].(refcnt := h.obj[p].refcnt - 2))
    && (!h.obj[p].pending ==> !n.obj[p].pending)
    && (h.obj[p].pending ==> forall d :: d != a && d != ROOT ==> Alone(h, n, d))
  }

  lemma PurgedHeld(m: Heap, a: Id)
    requires ReadyToGo(m, a, {a}) && m.obj[a].parent != ROOT
    ensures var p := m.obj[a].parent;
      && PurgeAttrs(DestroyAttr(m, a), p, |Q(m, Key(p, A))|).held == m.held && DestroyAttr(m, a).held == m.held
  {
    ReadyFacts(m, a, {a});
    hide Inv, Good, Quiet, DestroyAttr, PurgeAttrs, ReadyToGo, AnyNested;
    DestroyQuiet(m, a);
    PurgeAttrsKeeps(DestroyAttr(m, a), m.obj[a].parent, |Q(m, Key(m.obj[a].parent, A))|);
  }

  lemma StowHeld(m: Heap, a: Id)
    requires ReadyToGo(m, a, {a}) && m.obj[a].parent != ROOT
    ensures m.obj[a].parent in m.obj && StowAttr(m, a).held == m.held
  {
    ReadyFacts(m, a, {a});
    ShelveQuiet(m, a);
    hide Inv, Good, Quiet, DestroyAttr, PurgeAttrs, Shelve, ReadyToGo, AnyNested, Cacheable, Q, Cnt, Max, Min;
    PurgedHeld(m, a);
  }

  lemma StowPending(m: Heap, a: Id)
    requires ReadyToGo(m, a, {a}) && m.obj[a].parent in m.obj && m.obj[a].parent != ROOT && m.obj[m.obj[a].parent].pending
    ensures var p, n := m.obj[a].parent, StowAttr(m, a);
      && n == DestroyAttr(m, a) && p in n.obj && n.obj[p] == m.obj[p].(refcnt := m.obj[p].refcnt - 1)
      && forall d :: d != a && d != ROOT ==> Alone(m, n, d)
  {
    DestroyKeeps(m, a, {a});
    assert StowAttr(m, a) == DestroyAttr(m, a);
    hide Inv, ReadyToGo, DestroyAttr, StowAttr, Alone, AnyNested, FirmBut, ListsApart;
    forall d | d != a && d != ROOT ensures Alone(m, DestroyAttr(m, a), d) { DestroyPendingAlone(m, a, d); }
  }

  lemma StageIs(h: Heap, a: Id)
    requires Inv(h, {}) && a in h.known && a in h.obj && h.obj[a].typ == A && h.obj[a].refcnt == 0 && h.obj[a].parent != ROOT
    ensures var m, p := Retire(h, a), h.obj[a].parent;
      p in h.obj && p < a && a in m.obj && m.obj[a].parent in m.obj && Stage(h, StowAttr(m, a), a, p)
  {
    var m, p := Retire(h, a), h.obj[a].parent;
    Released(h, a);
    RetireReady(h, a);
    RetireAlike(h, a);
    RetireParent(h, a);
    LetsParent(h, StowAttr(m, a), a, p);
    var n := StowAttr(m, a);
    assert !h.obj[p].pending ==> !n.obj[p].pending by { hide Inv, QuietLists, QuietAttrs, Tame; }
    hide Inv, Retire, StowAttr, ReadyToGo, Alike, Lets, Alone;
    StowHeld(m, a);
    if h.obj[p].pending {
      StowPending(m, a);
      forall d | d != a && d != ROOT ensures Alone(h, n, d) {
        RetireAlone(h, a, d, {});
        AloneTwice(h, m, n, d);
      }
    }
  }

  // The ancestors

  lemma {:induction false} TopSame(h: Heap, n: Heap, y: Id, p: Id, a: Id)
    requires Inv(h, {}) && QuietAttrs(h, n, p, {a}) && y in h.known && y in h.obj && h.obj[y].typ == A && y <= p < a
    requires y in n.obj && n.obj[y].parent == h.obj[y].parent
    ensures Top(n, y) == Top(h, y)
    decreases y
  {
    var q := h.obj[y].parent;
    ParentIsKnown(h, y);
    if q != ROOT {
      assert Untouched(h, n, q);
      hide Inv, QuietAttrs;
      TopSame(h, n, q, p, a);
    }
  }

  lemma {:induction false} TopKnown(h: Heap, y: Id)
    requires Inv(h, {}) && y in h.known && y in h.obj && h.obj[y].typ == A
    ensures var c := Top(h, y);
      c in h.known && c in h.obj && h.obj[c].typ == A && c <= y && h.obj[c].parent in h.obj && h.obj[c].parent < c
    decreases y
  {
    ParentIsKnown(h, y);
    hide Inv;
    var q := h.obj[y].parent;
    if q != ROOT && h.obj[q].pending && h.obj[q].refcnt == 2 { TopKnown(h, q); }
  }

  /** The top of the cascade and what is destroyed there are the same before a stage below it. */
  lemma StageSame(h: Heap, n: Heap, a: Id, p: Id)
    requires Inv(h, {}) && Stage(h, n, a, p) && p in h.known && h.obj[p].typ == A && p < a && a in h.known && h.obj[p].pending
    ensures var c := Top(h, p);
      && c in h.obj && c in n.obj && Top(n, p) == c && h.obj[c].parent in h.obj && n.obj[c].parent == h.obj[c].parent && n.obj[c].parent in n.obj
      && (h.obj[c].parent == ROOT ==> (AnyHolds(n, Doomed(n, c)) <==> AnyHolds(h, Doomed(h, c))))
  {
    var c := Top(h, p);
    TopKnown(h, p);
    RootStays(h);
    RootStays(n);
    assert QuietAttrs(h, n, p, {a});
    TopSame(h, n, p, p, a);
    if c != p { assert Untouched(h, n, c); }
    InvCounted(h, {}, ATTRS);
    InvCounted(n, {}, ATTRS);
    if h.obj[c].parent == ROOT {
      StageDoomed(h, n, a, p, c);
    } else {
      ParentIsKnown(h, c);
      assert Untouched(h, n, h.obj[c].parent);
    }
  }

  lemma SameCacheable(h: Heap, n: Heap, c: Id)
    requires ROOT in h.obj && ROOT in n.obj && !h.obj[ROOT].pending && !n.obj[ROOT].pending && n.revs == h.revs
    requires c in h.obj && h.obj[c].parent == ROOT && c in n.obj && n.obj[c] == h.obj[c].(refcnt := n.obj[c].refcnt)
    ensures Cacheable(n, c) <==> Cacheable(h, c)
  {
  }

  lemma DoomedIn(h: Heap, c: Id, d: Id)
    requires c in h.obj && h.obj[c].parent == ROOT && ROOT in h.obj && h.obj[c].typ == A && d in Doomed(h, c)
    ensures d == c || d in Q(h, ATTRS)
  {
  }

  lemma StageLists(h: Heap, n: Heap, a: Id, p: Id)
    requires Stage(h, n, a, p) && h.obj[p].pending && p != ROOT
    ensures Q(n, ATTRS) == Q(h, ATTRS) && n.revs == h.revs && n.lim == h.lim
    ensures forall d :: d != a && d != ROOT ==> Alone(h, n, d)
  {
    hide Inv, Tame, QuietAttrs, QuietParent, Alone;
  }

  lemma StageDoomed(h: Heap, n: Heap, a: Id, p: Id, c: Id)
    requires Inv(h, {}) && Stage(h, n, a, p) && h.obj[p].pending && c in h.known && c in h.obj && h.obj[c].typ == A && c < a && h.obj[c].parent == ROOT
    requires ROOT in h.obj && ROOT in n.obj && !h.obj[ROOT].pending && !n.obj[ROOT].pending && a in h.known
    requires c in n.obj && n.obj[c] == h.obj[c].(refcnt := n.obj[c].refcnt)
    requires Cnt(h, ATTRS) == |Q(h, ATTRS)| && Cnt(n, ATTRS) == |Q(n, ATTRS)| && p != ROOT
    ensures AnyHolds(n, Doomed(n, c)) <==> AnyHolds(h, Doomed(h, c))
  {
    RootStays(h);
    hide Inv, Stage, Alone, Cacheable, AnyHolds, Doomed, Q, Cnt;
    StageLists(h, n, a, p);
    SameCacheable(h, n, c);
    SameDoomed(h, n, c);
    forall d | d in Doomed(h, c) ensures Alone(h, n, d) {
      DoomedIn(h, c, d);
      if d != c { InvCached(h, {}, ATTRS, d); }
    }
    AloneAny(h, n, Doomed(h, c));
  }

  lemma StageParent(h: Heap, n: Heap, a: Id, p: Id)
    requires Stage(h, n, a, p) && p != ROOT
    ensures Inv(n, {}) && p in h.obj && p in n.obj && n.obj[p].typ == h.obj[p].typ && (p in n.known <==> p in h.known) && n.held == h.held
    ensures h.obj[p].pending ==> n.obj[p] == h.obj[p].(refcnt := h.obj[p].refcnt - 2)
    ensures !h.obj[p].pending ==> !n.obj[p].pending
  {
    hide Inv, QuietLists, QuietAttrs, Tame, Alone;
  }

  /** What a deletion is above its first stage. */
  lemma CascadeIs(h: Heap, a: Id)
    requires Inv(h, {}) && a in h.known && a in h.obj && h.obj[a].typ == A && h.obj[a].refcnt == 0 && h.obj[a].parent != ROOT
    ensures var m, p := Retire(h, a), h.obj[a].parent;
      && p in h.obj && p < a && a in m.obj && m.obj[a].parent in m.obj
      && var n := StowAttr(m, a);
      && Stage(h, n, a, p) && p in n.obj && Inv(n, {}) && (p in n.known <==> p in h.known) && n.obj[p].typ == h.obj[p].typ
      && n.held == h.held
      && FreeAttr(h, a) == if h.obj[p].pending && h.obj[p].refcnt == 2 then FreeAttr(n, p) else n
  {
    StageIs(h, a);
    hide Inv, Stage, Retire, StowAttr;
    StageParent(h, StowAttr(Retire(h, a), a), a, h.obj[a].parent);
  }

  /** Deleting an attributes object locks the default one twice, and so never returns, exactly
      when nothing refers to it, the deletion cascades up to a child of the default one, and
      that one, or another destroyed with it, caches a mutex that is not fast. */
  lemma {:induction false} DeletionLocksTwiceExactlyWhen(h: Heap, a: Id)
    requires Inv(h, {}) && a in h.known && a in h.obj && h.obj[a].typ == A
    ensures var c := Top(h, a);
      && c in h.obj && h.obj[c].parent in h.obj
      && (FreeAttr(h, a).held <==>
            h.held || (h.obj[a].refcnt == 0 && h.obj[c].parent == ROOT && AnyHolds(h, Doomed(h, c))))
    decreases a
  {
    var p := h.obj[a].parent;
    TopKnown(h, a);
    ParentIsKnown(h, a);
    RootStays(h);
    AttrRefs(h, a);
    if h.obj[a].refcnt > 0 {
      hide Inv, AnyHolds, Doomed, Top;
    } else if p == ROOT {
      hide Inv, AnyHolds, Doomed, FreeAttr;
      ChildLocksTwiceExactlyWhen(h, a);
    } else {
      hide Inv, AnyHolds, Doomed, FreeAttr, Retire, StowAttr, Stage;
      CascadeIs(h, a);
      var n := StowAttr(Retire(h, a), a);
      if h.obj[p].pending && h.obj[p].refcnt == 2 {
        StageSame(h, n, a, p);
        DeletionLocksTwiceExactlyWhen(n, p);
        StageZero(h, n, a, p);
      }
    }
  }

  lemma StageZero(h: Heap, n: Heap, a: Id, p: Id)
    requires Stage(h, n, a, p) && h.obj[p].pending && h.obj[p].refcnt == 2
    ensures n.obj[p].refcnt == 0
  {
    hide Lets, Alone;
  }

  // The last object of a deleted attributes object

  /** What releasing x, made from a deleted attributes object p, does before p is looked at. */
  ghost predicate LeafStage(h: Heap, n: Heap, x: Id, p: Id) {
    && x in h.obj && p in h.obj && p in n.obj && p != ROOT
    && Inv(n, {}) && Frees(h, n, x, {}) && n.obj[p] == h.obj[p].(refcnt := h.obj[p].refcnt - 1) && p in n.known && n.held == h.held
    && forall d :: d != ROOT ==> Alone(h, n, d)
  }

  lemma LeafStageIs(h: Heap, x: Id)
    requires Inv(h, {}) && x in h.known && x in h.obj && h.obj[x].typ != A && Unused(h, x, {})
    requires h.obj[x].parent in h.obj && h.obj[x].parent != x && h.obj[x].parent != ROOT && h.obj[h.obj[x].parent].pending
    ensures LeafStage(h, FreeNolock(h, x), x, h.obj[x].parent)
  {
    ParentIsKnown(h, x);
    FreeNolockKeeps(h, x, {});
    hide Inv, Unused, FreeNolock, FreesFirm, Alone;
    forall d | d != ROOT ensures Alone(h, FreeNolock(h, x), d) { FreePendingAlone(h, x, d, {}); }
  }

  /** Known attributes objects but p are untouched. */
  lemma LeafQuiet(h: Heap, n: Heap, x: Id, p: Id)
    requires Inv(h, {}) && LeafStage(h, n, x, p) && h.obj[x].parent == p && h.obj[x].typ != A
    ensures QuietAttrs(h, n, p, {x}) && n.revs == h.revs && n.lim == h.lim && Q(n, ATTRS) == Q(h, ATTRS)
  {
    CoreRoot(h, {});
    hide Inv, FreesParent, Alone;
    forall y | y in h.known && y in h.obj && h.obj[y].typ == A && y != p && y !in {x} ensures Untouched(h, n, y) {
      assert Firm(h, {}, y);
    }
  }

  lemma LeafStageSame(h: Heap, n: Heap, x: Id, p: Id)
    requires Inv(h, {}) && LeafStage(h, n, x, p) && h.obj[x].parent == p && h.obj[x].typ != A && p in h.known && h.obj[p].typ == A && p < x && x in h.known
    ensures var c := Top(h, p);
      && c in h.obj && c in n.obj && Top(n, p) == c && h.obj[c].parent in h.obj && n.obj[c].parent == h.obj[c].parent && n.obj[c].parent in n.obj
      && (h.obj[c].parent == ROOT ==> (AnyHolds(n, Doomed(n, c)) <==> AnyHolds(h, Doomed(h, c))))
  {
    var c := Top(h, p);
    TopKnown(h, p);
    RootStays(h);
    RootStays(n);
    LeafQuiet(h, n, x, p);
    TopSame(h, n, p, p, x);
    if c != p { assert Untouched(h, n, c); }
    InvCounted(h, {}, ATTRS);
    InvCounted(n, {}, ATTRS);
    if h.obj[c].parent == ROOT {
      hide Inv, LeafStage, Cacheable, AnyHolds, Doomed, Q, Cnt;
      SameCacheable(h, n, c);
      SameDoomed(h, n, c);
      forall d | d in Doomed(h, c) ensures Alone(h, n, d) {
        DoomedIn(h, c, d);
        if d != c { InvCached(h, {}, ATTRS, d); }
        LeafAlone(h, n, x, p, d);
      }
      AloneAny(h, n, Doomed(h, c));
    } else {
      ParentIsKnown(h, c);
      assert Untouched(h, n, h.obj[c].parent);
    }
  }

  lemma LeafAlone(h: Heap, n: Heap, x: Id, p: Id, d: Id)
    requires LeafStage(h, n, x, p) && d != ROOT
    ensures Alone(h, n, d)
  {
  }

  /** Deleting a mutex or condition variable locks the default attributes object twice exactly
      when it was the last object of a deleted attributes object, and the cascade that starts
      there does. */
  lemma LastObjectLocksTwiceExactlyWhen(h: Heap, x: Id)
    requires Inv(h, {}) && x in h.known && x in h.obj && h.obj[x].typ != A && Unused(h, x, {})
    ensures var p := h.obj[x].parent;
      && p in h.obj && p != x && Top(h, p) in h.obj && var c := Top(h, p);
      && (p != ROOT ==> h.obj[c].parent in h.obj)
      && (FreeLeaf(h, x).held <==>
            h.held || (p != ROOT && h.obj[p].pending && h.obj[p].refcnt == 1 && h.obj[c].parent == ROOT && AnyHolds(h, Doomed(h, c))))
  {
    var p := h.obj[x].parent;
    ParentIsKnown(h, x);
    RootStays(h);
    FreeNolockKeeps(h, x, {});
    var n := FreeNolock(h, x);
    assert n.held == h.held by { hide Inv, FreesFirm, FreesParent; }
    if p != ROOT { TopKnown(h, p); }
    if p != ROOT && h.obj[p].pending {
      LeafStageIs(h, x);
      hide Inv, Unused, FreeNolock, Frees, Doomed, AnyHolds, Alone, Top;
      if h.obj[p].refcnt == 1 {
        LeafStageSame(h, n, x, p);
        DeletionLocksTwiceExactlyWhen(n, p);
      }
    } else {
      hide Doomed, AnyHolds, Top, FreeNolock;
      NotLastOut(h, x);
    }
  }
}
