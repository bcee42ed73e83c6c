/** Attributes objects through whole runs (threads/cma_attr.c): clients create and delete
    attributes objects, mutexes and condition variables in any order, and an attributes
    object deleted while it is in use goes away with the last object made from it. */
module Attributes {
  import opened Semaphore
  import opened Objects
  import opened Lifetimes

  // --- What releasing never does ------------------------------------------------------------------

  /** Nothing is allocated or changes type, and no cache grows beyond its high-water mark. */
  ghost predicate Tame(h: Heap, r: Heap) {
    && r.lim == h.lim
    && (forall y :: y in r.obj ==> y in h.obj && r.obj[y].typ == h.obj[y].typ && r.obj[y].parent == h.obj[y].parent)
    && (forall k: Key {:trigger Q(r, k)} :: |Q(r, k)| <= |Q(h, k)| || |Q(r, k)| <= Max(h, k.t))
  }

  lemma TameTwice(a: Heap, b: Heap, c: Heap)
    requires Tame(a, b) && Tame(b, c)
    ensures Tame(a, c)
  {
    forall k: Key ensures |Q(c, k)| <= |Q(a, k)| || |Q(c, k)| <= Max(a, k.t) {
      assert |Q(c, k)| <= |Q(b, k)| || |Q(c, k)| <= Max(b, k.t);
      assert |Q(b, k)| <= |Q(a, k)| || |Q(b, k)| <= Max(a, k.t);
    }
  }

  lemma TameSelf(h: Heap, held: bool)
    ensures Tame(h, h) && Tame(h, h.(held := held))
    ensures Counted(h) ==> Counted(h.(held := held))
  {
    assert forall k: Key :: Q(h.(held := held), k) == Q(h, k) && Cnt(h.(held := held), k) == Cnt(h, k);
  }

  lemma RetireTame(h: Heap, x: Id)
    requires Counted(h) && x in h.obj && h.obj[x].parent in h.obj
    ensures Counted(Retire(h, x)) && Tame(h, Retire(h, x))
  {
    CountedSame(h, Retire(h, x));
    assert forall k: Key :: Q(Retire(h, x), k) == Q(h, k);
  }

  lemma EraseTame(h: Heap, x: Id)
    requires Counted(h)
    ensures Counted(Erase(h, x)) && Tame(h, Erase(h, x))
  {
    CountedSame(h, Erase(h, x));
    assert forall k: Key :: Q(Erase(h, x), k) == Q(h, k);
  }

  lemma ShelveTame(h: Heap, x: Id)
    requires Counted(h) && x in h.obj && Cnt(h, Home(h.obj[x])) < Max(h, h.obj[x].typ)
    ensures Counted(Shelve(h, x)) && Tame(h, Shelve(h, x))
  {
    var r, k := Shelve(h, x), Home(h.obj[x]);
    assert forall j: Key :: Q(r, j) == if j == k then Q(h, k) + [x] else Q(h, j);
    assert forall j: Key :: Cnt(r, j) == if j == k then Cnt(h, k) + 1 else Cnt(h, j);
    assert Cnt(h, k) == |Q(h, k)|;
  }

  lemma UnshelveTame(h: Heap, k: Key)
    requires Counted(h) && Q(h, k) != []
    ensures Counted(Unshelve(h, k)) && Tame(h, Unshelve(h, k))
  {
    var r := Unshelve(h, k);
    assert forall j: Key :: Q(r, j) == if j == k then Q(h, k)[1..] else Q(h, j);
    assert forall j: Key :: Cnt(r, j) == if j == k then Cnt(h, k) - 1 else Cnt(h, j);
  }

  lemma {:induction false} PurgeFastTame(h: Heap, k: Key)
    requires Counted(h)
    ensures Counted(PurgeFast(h, k)) && Tame(h, PurgeFast(h, k))
    decreases |Q(h, k)|
  {
    hide Tame, Counted;
    TameSelf(h, h.held);
    if Cnt(h, k) > Min(h, k.t) && Q(h, k) != [] {
      var m, x := Unshelve(h, k), Q(h, k)[0];
      var n := Erase(m, x);
      assert Q(n, k) == Q(h, k)[1..];
      UnshelveTame(h, k);
      EraseTame(m, x);
      PurgeFastTame(n, k);
      TameTwice(h, m, n);
      TameTwice(h, n, PurgeFast(n, k));
    }
  }

  lemma StowFastTame(h: Heap, x: Id)
    requires Counted(h) && x in h.obj && h.obj[x].parent in h.obj
    ensures Counted(StowFast(h, x)) && Tame(h, StowFast(h, x))
  {
    hide Tame, Counted, Erase, Shelve;
    EraseTame(h, x);
    if Cacheable(h, x) && Cnt(h, Home(h.obj[x])) < Max(h, h.obj[x].typ) {
      ShelveTame(h, x);
    }
    PurgeFastTame(Erase(h, x), Home(h.obj[x]));
    TameTwice(h, Erase(h, x), PurgeFast(Erase(h, x), Home(h.obj[x])));
  }

  lemma EraseLeafTame(h: Heap, x: Id, locked: bool)
    requires Counted(h) && x in h.obj
    ensures Counted(EraseLeaf(h, x, locked)) && Tame(h, EraseLeaf(h, x, locked))
  {
    var i := h.obj[x].inner;
    var g := h.(held := h.held || locked);
    TameSelf(h, g.held);
    EraseTame(h, x);
    if h.obj[x].typ == M && h.obj[x].kind != Fast && i in h.obj && h.obj[i].parent in h.obj && i != h.obj[i].parent {
      RetireTame(g, i);
      var m := Retire(g, i);
      assert i in m.obj && m.obj[i].parent in m.obj;
      hide Tame, Counted, Erase, Retire, StowFast;
      StowFastTame(m, i);
      var n := StowFast(m, i);
      EraseTame(n, x);
      TameTwice(h, g, m);
      TameTwice(h, m, n);
      TameTwice(h, n, Erase(n, x));
    }
  }

  lemma DropLeafTame(h: Heap, k: Key, locked: bool)
    requires Counted(h) && Q(h, k) != []
    ensures Counted(DropLeaf(h, k, locked)) && Tame(h, DropLeaf(h, k, locked))
  {
    var m, x := Unshelve(h, k), Q(h, k)[0];
    UnshelveTame(h, k);
    assert m.obj == h.obj;
    hide Tame, Counted, Unshelve, EraseLeaf;
    if x in h.obj {
      EraseLeafTame(m, x, locked);
      TameTwice(h, m, EraseLeaf(m, x, locked));
    }
  }

  lemma {:induction false} PurgeTame(h: Heap, k: Key, n: nat)
    requires Counted(h)
    ensures Counted(Purge(h, k, n)) && Tame(h, Purge(h, k, n))
    decreases n
  {
    hide Tame, Counted, DropLeaf;
    TameSelf(h, h.held);
    if n > 0 && Cnt(h, k) > Min(h, k.t) && Q(h, k) != [] {
      var m := DropLeaf(h, k, false);
      DropLeafTame(h, k, false);
      PurgeTame(m, k, n - 1);
      TameTwice(h, m, Purge(m, k, n - 1));
    }
  }

  lemma {:induction false} FlushTame(h: Heap, k: Key, locked: bool, n: nat)
    requires Counted(h)
    ensures Counted(Flush(h, k, locked, n)) && Tame(h, Flush(h, k, locked, n))
    decreases n
  {
    hide Tame, Counted, DropLeaf;
    TameSelf(h, h.held);
    if n > 0 && Q(h, k) != [] {
      var m := DropLeaf(h, k, locked);
      DropLeafTame(h, k, locked);
      FlushTame(m, k, locked, n - 1);
      TameTwice(h, m, Flush(m, k, locked, n - 1));
    }
  }

  lemma StowTame(h: Heap, x: Id)
    requires Counted(h) && x in h.obj && h.obj[x].parent in h.obj
    ensures Counted(Stow(h, x)) && Tame(h, Stow(h, x))
  {
    var k := Home(h.obj[x]);
    hide Tame, Counted, StowFast, Shelve, EraseLeaf, Purge;
    StowFastTame(h, x);
    EraseLeafTame(h, x, false);
    if Cnt(h, k) < Max(h, k.t) { ShelveTame(h, x); }
    var n := EraseLeaf(h, x, false);
    PurgeTame(n, k, |Q(h, k)|);
    TameTwice(h, n, Purge(n, k, |Q(h, k)|));
  }

  lemma FreeNolockTame(h: Heap, x: Id)
    requires Counted(h) && x in h.obj && h.obj[x].parent in h.obj && h.obj[x].parent != x
    ensures Counted(FreeNolock(h, x)) && Tame(h, FreeNolock(h, x))
  {
    hide Tame, Counted, Retire, Stow;
    var m := Retire(h, x);
    RetireTame(h, x);
    if x in m.obj && m.obj[x].parent in m.obj {
      StowTame(m, x);
      TameTwice(h, m, Stow(m, x));
    }
  }

  lemma MarkTame(h: Heap, a: Id, o: Obj)
    requires Counted(h) && a in h.obj && o.typ == h.obj[a].typ && o.parent == h.obj[a].parent
    ensures var r := h.(obj := h.obj[a := o]); Counted(r) && Tame(h, r)
  {
    var r := h.(obj := h.obj[a := o]);
    CountedSame(h, r);
    assert forall k: Key :: Q(r, k) == Q(h, k);
  }

  lemma DestroyAttrTame(h: Heap, a: Id)
    requires Counted(h) && a in h.obj
    ensures Counted(DestroyAttr(h, a)) && Tame(h, DestroyAttr(h, a))
  {
    hide Tame, Counted, Flush, FreeNolock, Erase;
    var locked := h.obj[a].parent == ROOT;
    var h1 := Flush(h, Key(a, C), locked, |Q(h, Key(a, C))|);
    var h2 := Flush(h1, Key(a, M), locked, |Q(h1, Key(a, M))|);
    FlushTame(h, Key(a, C), locked, |Q(h, Key(a, C))|);
    FlushTame(h1, Key(a, M), locked, |Q(h1, Key(a, M))|);
    TameTwice(h, h1, h2);
    if a in h2.obj {
      if h2.obj[a].refcnt != 0 {
        MarkTame(h2, a, h2.obj[a].(pending := true));
        TameTwice(h, h2, h2.(obj := h2.obj[a := h2.obj[a].(pending := true)]));
      } else {
        var m := h2.obj[a].mutex;
        if m in h2.obj && h2.obj[m].parent in h2.obj && h2.obj[m].parent != m {
          FreeNolockTame(h2, m);
          EraseTame(FreeNolock(h2, m), a);
          TameTwice(h, h2, FreeNolock(h2, m));
          TameTwice(h, FreeNolock(h2, m), Erase(FreeNolock(h2, m), a));
        }
      }
    }
  }

  lemma {:induction false} PurgeAttrsTame(h: Heap, p: Id, n: nat)
    requires Counted(h)
    ensures Counted(PurgeAttrs(h, p, n)) && Tame(h, PurgeAttrs(h, p, n))
    decreases n
  {
    hide Tame, Counted, DestroyAttr, Unshelve;
    TameSelf(h, h.held);
    var k := Key(p, A);
    if n > 0 && Cnt(h, k) > Min(h, A) && Q(h, k) != [] {
      var m, x := Unshelve(h, k), Q(h, k)[0];
      UnshelveTame(h, k);
      var d := if x in m.obj then DestroyAttr(m, x) else m;
      if x in m.obj {
        DestroyAttrTame(m, x);
        TameTwice(h, m, d);
      }
      PurgeAttrsTame(d, p, n - 1);
      TameTwice(h, d, PurgeAttrs(d, p, n - 1));
    }
  }

  // --- Releasing attributes objects ----------------------------------------------------------------

  /** Caches or destroys an attributes object just released; the parent is locked. */
  function StowAttr(h: Heap, a: Id): Heap
    requires a in h.obj && h.obj[a].parent in h.obj
  {
    var p := h.obj[a].parent;
    var k := Key(p, A);
    if !Cacheable(h, a) then DestroyAttr(h, a)
    else if Cnt(h, k) < Max(h, A) then Shelve(h, a)
    else PurgeAttrs(DestroyAttr(h, a), p, |Q(h, k)|)
  }

  /** Deletes an attributes object: one with references left is only marked, another is
      cached or destroyed, and takes its parent with it when that was waiting for this. */
  function FreeAttr(h: Heap, a: Id): Heap
    requires a in h.obj
    decreases a, 0
  {
    var o := h.obj[a];
    if o.refcnt > 0 then h.(obj := h.obj[a := o.(seqn := 0, pending := true)])
    else if o.parent in h.obj && o.parent < a then
      var m := Retire(h, a);
      if a in m.obj && m.obj[a].parent in m.obj then LastOut(StowAttr(m, a), o.parent) else m
    else h
  }

  /** An attributes object marked as deleted goes away with its last reference. */
  function LastOut(h: Heap, p: Id): Heap
    decreases p, 1
  {
    if p in h.obj && h.obj[p].refcnt == 0 && h.obj[p].pending then FreeAttr(h, p) else h
  }

  /** Deletes a mutex or condition variable. */
  function FreeLeaf(h: Heap, x: Id): Heap
    requires x in h.obj && h.obj[x].parent in h.obj && h.obj[x].parent != x
  {
    LastOut(FreeNolock(h, x), h.obj[x].parent)
  }

  lemma DestroyQuiet(m: Heap, a: Id)
    requires ReadyToGo(m, a, {a})
    ensures var n, p := DestroyAttr(m, a), m.obj[a].parent;
      && Inv(n, {}) && Quiet(m, n, p, {}) && Q(n, Key(p, A)) == Q(m, Key(p, A)) && a !in n.known
      && n.held == (m.held || (p == ROOT && AnyNested(m, Q(m, Key(a, M)))))
  {
    var n, p := DestroyAttr(m, a), m.obj[a].parent;
    DestroyKeeps(m, a, {a});
    JustOne(a);
    CoreRoot(m, {a});
    assert m.obj[m.obj[a].mutex].typ == M && LockOf(m.obj[a]) == m.obj[a].mutex && m.obj[a].mutex in m.obj;
    hide Inv, ReadyToGo, DestroyAttr, AnyNested;
    assert QuietLists(m, n, p) by {
      hide FirmBut, OneLess;
      forall j: Key | j.t == A && j.a != p ensures Q(n, j) == Q(m, j) { }
    }
    DropQuietAttrs(m, m, n, p, a);
    hide FirmBut;
    assert Q(n, Key(p, A)) == Q(m, Key(p, A));
  }

  lemma ShelveQuiet(m: Heap, a: Id)
    requires a in m.obj && m.obj[a].typ == A
    ensures Quiet(m, Shelve(m, a), m.obj[a].parent, {}) && Shelve(m, a).held == m.held && Shelve(m, a).known == m.known
  {
    var r, k := Shelve(m, a), Home(m.obj[a]);
    assert forall j: Key :: j != k ==> Q(r, j) == Q(m, j);
  }

  lemma ReadyFacts(m: Heap, a: Id, loose: set<Id>)
    requires ReadyToGo(m, a, loose)
    ensures a in loose && a in m.obj && m.obj[a].typ == A && m.obj[a].refcnt == 0 && Good(m, a) && Inv(m, loose)
    ensures m.obj[a].parent in m.obj && m.obj[a].parent != a
  {
    ParentOf(m, loose, a);
  }

  /** The cache, had it been full, is down to its low-water mark. */
  ghost predicate Lowered(h: Heap, r: Heap, k: Key) {
    Cnt(r, k) <= Min(h, k.t) || Q(r, k) == []
  }

  lemma LoweredLater(h: Heap, n: Heap, r: Heap, k: Key)
    requires Lowered(n, r, k) && n.lim == h.lim
    ensures Lowered(h, r, k)
  {
  }

  lemma PurgedQuiet(m: Heap, a: Id)
    requires ReadyToGo(m, a, {a})
    ensures a in m.obj && m.obj[a].parent in m.obj
    ensures var p := m.obj[a].parent; var r := PurgeAttrs(DestroyAttr(m, a), p, |Q(m, Key(p, A))|);
      && Inv(r, {}) && Quiet(m, r, p, {}) && Lowered(m, r, Key(p, A))
  {
    ReadyFacts(m, a, {a});
    hide Inv, Good, Quiet, DestroyAttr, PurgeAttrs, ReadyToGo, AnyNested, Max, Rev;
    var p := m.obj[a].parent;
    var n := DestroyAttr(m, a);
    DestroyQuiet(m, a);
    PurgeAttrsKeeps(n, p, |Q(m, Key(p, A))|);
    assert Lowered(n, PurgeAttrs(n, p, |Q(m, Key(p, A))|), Key(p, A));
    hide Lowered, Q, Cnt, Min;
    QuietTwice(m, n, PurgeAttrs(n, p, |Q(m, Key(p, A))|), p, {});
    QuietLim(m, n, p, {});
    LoweredLater(m, n, PurgeAttrs(n, p, |Q(m, Key(p, A))|), Key(p, A));
  }

  lemma ShelvedQuiet(m: Heap, a: Id)
    requires ReadyToGo(m, a, {a}) && m.obj[a].seqn == 0
    ensures a in m.obj && Inv(Shelve(m, a), {}) && Quiet(m, Shelve(m, a), m.obj[a].parent, {})
  {
    ReadyFacts(m, a, {a});
    hide Inv, Good, Quiet, Shelve, ReadyToGo;
    ShelveInv(m, a, {a});
    JustOne(a);
    ShelveQuiet(m, a);
  }

  lemma StowAttrKeeps(m: Heap, a: Id)
    requires ReadyToGo(m, a, {a}) && m.obj[a].seqn == 0
    ensures m.obj[a].parent in m.obj
    ensures var r, p := StowAttr(m, a), m.obj[a].parent; var k := Key(p, A);
      && Inv(r, {}) && Quiet(m, r, p, {})
      && (m.obj[p].pending ==> Q(r, k) == Q(m, k))
      && (Cacheable(m, a) && Cnt(m, k) >= Max(m, A) ==> Lowered(m, r, k))
  {
    ReadyFacts(m, a, {a});
    assert m.obj[m.obj[a].parent].pending ==> !Cacheable(m, a);
    hide Inv, Good, Quiet, DestroyAttr, PurgeAttrs, Shelve, ReadyToGo, AnyNested, Lowered, Cacheable, Q, Cnt, Max, Min;
    if !Cacheable(m, a) {
      DestroyQuiet(m, a);
    } else if Cnt(m, Key(m.obj[a].parent, A)) < Max(m, A) {
      ShelvedQuiet(m, a);
    } else {
      PurgedQuiet(m, a);
    }
  }

  // --- Objects rewritten in place --------------------------------------------------------------------

  /** Only object x has changed, in fields the lists do not depend on. */
  ghost predicate Rewritten(h: Heap, r: Heap, x: Id) {
    && x in h.obj && x in r.obj && r == h.(obj := h.obj[x := r.obj[x]], revs := r.revs)
    && r.obj[x].typ == h.obj[x].typ && r.obj[x].parent == h.obj[x].parent && r.obj[x].refcnt == h.obj[x].refcnt
    && (r.obj[x].seqn == h.obj[x].seqn || r.obj[x].seqn == 0)
  }

  lemma RewrittenPlaced(h: Heap, r: Heap, x: Id, loose: set<Id>)
    requires Placed(h, loose) && Counted(h) && Rewritten(h, r, x)
    ensures Placed(r, loose) && Counted(r)
  {
    assert forall k: Key :: Q(r, k) == Q(h, k) && Cnt(r, k) == Cnt(h, k);
    forall k: Key, y: Id | y in Q(r, k)
      ensures y in r.obj && y != ROOT && Home(r.obj[y]) == k && y !in r.known && y !in loose
    {
      assert y in Q(h, k);
    }
    forall y | y in r.obj && y != ROOT && y !in r.known && y !in loose ensures y in Q(r, Home(r.obj[y])) {
      assert y in Q(h, Home(h.obj[y]));
    }
  }

  lemma RewrittenTree(h: Heap, r: Heap, x: Id)
    requires Tree(h) && Numbered(h) && Rewritten(h, r, x)
    ensures Tree(r) && Numbered(r)
  {
    assert r.obj.Keys == h.obj.Keys;
    forall y | y in r.obj ensures y in h.obj && r.obj[y].typ == h.obj[y].typ && r.obj[y].parent == h.obj[y].parent { }
    forall y | y in r.obj && r.obj[y].seqn != 0 ensures y == ROOT || y in r.known { assert h.obj[y].seqn != 0; }
  }

  lemma RewrittenReferred(h: Heap, r: Heap, x: Id)
    requires Referred(h) && Rewritten(h, r, x)
    ensures Referred(r)
  {
    forall a ensures Kids(r, a) == Kids(h, a) { }
  }

  lemma RewriteCore(h: Heap, r: Heap, x: Id, loose: set<Id>)
    requires Core(h, loose) && Rewritten(h, r, x)
    ensures Core(r, loose)
  {
    hide Tree, Placed, Counted, Numbered, Referred, Rewritten;
    RewrittenTree(h, r, x);
    RewrittenPlaced(h, r, x, loose);
    RewrittenReferred(h, r, x);
  }

  /** The lock of x is as before, none, or one that nothing else uses. */
  ghost predicate NewLock(h: Heap, r: Heap, x: Id)
    requires x in h.obj && x in r.obj
  {
    var i := LockOf(r.obj[x]);
    i == ROOT || i == LockOf(h.obj[x]) || forall y :: y in h.obj && y != ROOT && y != x ==> LockOf(h.obj[y]) != i
  }

  lemma RewriteGood(h: Heap, r: Heap, x: Id, y: Id)
    requires Rewritten(h, r, x) && Good(h, y) && y != x && (x in h.known ==> r.obj[x].kind == h.obj[x].kind || h.obj[x].typ == A)
    ensures Good(r, y)
  {
  }

  lemma RewriteLinks(h: Heap, r: Heap, x: Id, loose: set<Id>)
    requires Links(h, loose) && Rewritten(h, r, x) && x != ROOT && NewLock(h, r, x) && (x in loose || Good(r, x))
    requires x in h.known ==> r.obj[x].kind == h.obj[x].kind || h.obj[x].typ == A
    ensures Links(r, loose)
  {
    assert AllGood(r, loose) by {
      hide Good;
      forall y | y in r.obj && y != ROOT && y !in loose ensures Good(r, y) {
        if y != x { RewriteGood(h, r, x, y); }
      }
    }
    assert CachedIdle(r, loose) && RootFixed(r);
    assert Single(r) by { hide LockOf; }
  }

  lemma RewriteInv(h: Heap, r: Heap, x: Id, loose: set<Id>)
    requires Inv(h, loose) && Rewritten(h, r, x) && x != ROOT && NewLock(h, r, x) && (x in loose || Good(r, x))
    requires x in h.known ==> r.obj[x].kind == h.obj[x].kind || h.obj[x].typ == A
    ensures Inv(r, loose)
  {
    hide Core, Links, Good, NewLock;
    RewriteCore(h, r, x, loose);
    RewriteLinks(h, r, x, loose);
  }

  // --- The deletion cascade ----------------------------------------------------------------------------

  /** No attributes object marked as deleted, a apart, is without references. */
  ghost predicate SettledBut(h: Heap, a: Id) {
    forall b :: b in h.known && b in h.obj && h.obj[b].typ == A && h.obj[b].pending && b != a ==> h.obj[b].refcnt > 0
  }

  ghost predicate Settled(h: Heap) {
    forall b :: b in h.known && b in h.obj && h.obj[b].typ == A && h.obj[b].pending ==> h.obj[b].refcnt > 0
  }

  /** A deleted attributes object whose cache holds attributes objects. */
  ghost predicate Stranded(h: Heap, a: Id) {
    a in h.known && a in h.obj && h.obj[a].typ == A && h.obj[a].pending && Q(h, Key(a, A)) != []
  }

  ghost predicate StaysStranded(h: Heap, r: Heap) {
    forall b :: Stranded(h, b) ==> Stranded(r, b)
  }

  ghost predicate Deleted(h: Heap, a: Id) {
    a in h.known && a in h.obj && h.obj[a].typ == A && h.obj[a].pending
  }

  /** What is deleted and still there stays so, and does not begin to cache attributes objects. */
  ghost predicate StaysBarren(h: Heap, r: Heap) {
    forall b :: Deleted(h, b) && b in r.known ==> Deleted(r, b) && (Stranded(r, b) ==> Stranded(h, b))
  }

  lemma StrandedRefers(h: Heap, a: Id)
    requires Inv(h, {}) && Stranded(h, a)
    ensures h.obj[a].refcnt > 0 && a != ROOT
  {
    CachedAttrsRefer(h, a, {});
    CoreRoot(h, {});
  }

  /** Only locks are referred to as locks, so an attributes object is not. */
  lemma AttrUnused(h: Heap, a: Id, loose: set<Id>)
    requires Inv(h, loose) && a in h.obj && a != ROOT && h.obj[a].typ == A
    ensures Unused(h, a, loose)
  {
    forall y | y in h.obj && y != ROOT && y !in loose ensures LockOf(h.obj[y]) != a { assert Good(h, y); }
  }

  /** The parent of a known object is known itself. */
  lemma ParentIsKnown(h: Heap, x: Id)
    requires Inv(h, {}) && x in h.known
    ensures x in h.obj && h.obj[x].parent in h.obj && h.obj[h.obj[x].parent].typ == A && h.obj[x].parent < x
    ensures h.obj[x].parent == ROOT || h.obj[x].parent in h.known
    ensures h.obj[h.obj[x].parent].refcnt > 0
  {
    ParentKnown(h, {}, x);
    var p := h.obj[x].parent;
    assert x in Kids(h, p) && h.obj[p].refcnt == |Kids(h, p)|;
  }

  lemma RetireReady(h: Heap, a: Id)
    requires Inv(h, {}) && a in h.known && a in h.obj && h.obj[a].typ == A && h.obj[a].refcnt == 0
    ensures h.obj[a].parent in h.obj && h.obj[a].parent < a
    ensures var m := Retire(h, a); ReadyToGo(m, a, {a}) && m.obj[a].seqn == 0 && m.obj[a].parent == h.obj[a].parent
  {
    ParentIsKnown(h, a);
    CoreRoot(h, {});
    AttrUnused(h, a, {});
    assert Good(h, a);
    RetireInv(h, a, {});
    JustOne(a);
    RetireAlike(h, a);
    var m := Retire(h, a);
    AlikeAt(h, m, a);
    hide Inv, Retire;
    AlikeGood(h, m, a);
    hide Alike, Good;
  }

  lemma RetireQuiet(h: Heap, a: Id)
    requires a in h.known && a in h.obj && h.obj[a].parent in h.obj && h.obj[a].parent < a
    ensures var m, p := Retire(h, a), h.obj[a].parent;
      Quiet(h, m, p, {a}) && m.known == h.known - {a} && Q(m, Key(p, A)) == Q(h, Key(p, A)) && m.obj[p].pending == h.obj[p].pending
  {
  }

  lemma QuietWiden(h: Heap, r: Heap, p: Id, some: set<Id>)
    requires Quiet(h, r, p, {})
    ensures Quiet(h, r, p, some)
  {
  }

  lemma StowAttrTame(m: Heap, a: Id)
    requires Counted(m) && a in m.obj && m.obj[a].parent in m.obj && m.obj[a].typ == A
    ensures Counted(StowAttr(m, a)) && Tame(m, StowAttr(m, a))
  {
    hide Tame, Counted, DestroyAttr, PurgeAttrs, Shelve;
    var p := m.obj[a].parent;
    var k := Key(p, A);
    if !Cacheable(m, a) {
      DestroyAttrTame(m, a);
    } else if Cnt(m, k) < Max(m, A) {
      ShelveTame(m, a);
    } else {
      DestroyAttrTame(m, a);
      PurgeAttrsTame(DestroyAttr(m, a), p, |Q(m, k)|);
      TameTwice(m, DestroyAttr(m, a), PurgeAttrs(DestroyAttr(m, a), p, |Q(m, k)|));
    }
  }

  lemma InvIsCounted(h: Heap, loose: set<Id>)
    requires Inv(h, loose)
    ensures Counted(h)
  {
  }

  /** What the release of an attributes object without references does before its parent
      is looked at. */
  ghost predicate Lets(h: Heap, n: Heap, a: Id, p: Id) {
    Inv(n, {}) && Quiet(h, n, p, {a}) && Tame(h, n) && a !in n.known && (p in h.obj && h.obj[p].pending ==> Q(n, Key(p, A)) == Q(h, Key(p, A)))
  }

  lemma Released(h: Heap, a: Id)
    requires Inv(h, {}) && a in h.known && a in h.obj && h.obj[a].typ == A && h.obj[a].refcnt == 0
    ensures var m, p := Retire(h, a), h.obj[a].parent;
      && p in h.obj && p < a && a in m.obj && m.obj[a].parent in m.obj && Lets(h, StowAttr(m, a), a, p)
  {
    hide Inv, Quiet, Tame, Counted, Retire, StowAttr, ReadyToGo, Lowered, Cacheable, Good;
    RetireReady(h, a);
    var m, p := Retire(h, a), h.obj[a].parent;
    ReadyFacts(m, a, {a});
    StowAttrKeeps(m, a);
    RetireQuiet(h, a);
    QuietWiden(m, StowAttr(m, a), p, {a});
    QuietTwice(h, m, StowAttr(m, a), p, {a});
    QuietLim(m, StowAttr(m, a), p, {a});
    InvIsCounted(h, {});
    RetireTame(h, a);
    StowAttrTame(m, a);
    TameTwice(h, m, StowAttr(m, a));
  }

  lemma LetsSettled(h: Heap, n: Heap, a: Id, p: Id)
    requires SettledBut(h, a) && Lets(h, n, a, p)
    ensures SettledBut(n, p)
  {
    hide Inv;
    forall b | b in n.known && b in n.obj && n.obj[b].typ == A && n.obj[b].pending && b != p ensures n.obj[b].refcnt > 0 {
      assert b in h.known && b in h.obj && h.obj[b].typ == A && b != a;
      assert Untouched(h, n, b);
    }
  }

  lemma LetsStranded(h: Heap, n: Heap, a: Id, p: Id)
    requires Inv(h, {}) && Lets(h, n, a, p) && a in h.obj && h.obj[a].refcnt == 0
    ensures StaysStranded(h, n) && StaysBarren(h, n)
  {
    forall b | Stranded(h, b) ensures Stranded(n, b) {
      StrandedRefers(h, b);
      hide Inv, Tame;
      assert b != a;
      if b != p { assert Untouched(h, n, b); }
    }
    CoreRoot(h, {});
    hide Inv, Tame;
    forall b | Deleted(h, b) && b in n.known ensures Deleted(n, b) && (Stranded(n, b) ==> Stranded(h, b)) {
      assert b != a;
      if b != p { assert Untouched(h, n, b); }
    }
  }

  /** Marking a known attributes object as deleted. */
  function Marked(h: Heap, a: Id): Heap
    requires a in h.obj
  {
    h.(obj := h.obj[a := h.obj[a].(seqn := 0, pending := true)])
  }

  lemma InvGood(h: Heap, x: Id, loose: set<Id>)
    requires Inv(h, loose) && x in h.obj && x != ROOT && x !in loose
    ensures Good(h, x)
  {
  }

  lemma AttrStaysGood(h: Heap, r: Heap, a: Id)
    requires a in h.obj && h.obj[a].typ == A && Good(h, a) && Rewritten(h, r, a) && r.obj[a].mutex == h.obj[a].mutex
    ensures Good(r, a)
  {
  }

  lemma MarkInv(h: Heap, a: Id)
    requires Inv(h, {}) && a in h.known && a in h.obj && h.obj[a].typ == A
    ensures Inv(Marked(h, a), {})
  {
    var r := Marked(h, a);
    CoreRoot(h, {});
    InvGood(h, a, {});
    hide Inv, Good, NewLock;
    AttrStaysGood(h, r, a);
    SameLock(h, r, a);
    RewriteInv(h, r, a, {});
  }

  lemma SameLock(h: Heap, r: Heap, x: Id)
    requires x in h.obj && x in r.obj && LockOf(r.obj[x]) == LockOf(h.obj[x])
    ensures NewLock(h, r, x)
  {
  }

  lemma MarkStranded(h: Heap, a: Id)
    requires a in h.obj && h.obj[a].typ == A
    ensures StaysStranded(h, Marked(h, a)) && StaysBarren(h, Marked(h, a))
  {
    assert forall j: Key :: Q(Marked(h, a), j) == Q(h, j);
    forall b | Stranded(h, b) ensures Stranded(Marked(h, a), b) {
      assert Q(Marked(h, a), Key(b, A)) == Q(h, Key(b, A));
    }
  }

  lemma MarkKeeps(h: Heap, a: Id)
    requires Inv(h, {}) && a in h.known && a in h.obj && h.obj[a].typ == A && h.obj[a].refcnt > 0 && SettledBut(h, a)
    ensures var r := Marked(h, a); Inv(r, {}) && Settled(r) && Tame(h, r) && StaysStranded(h, r) && StaysBarren(h, r)
  {
    hide Inv, Tame, StaysStranded, StaysBarren, Counted;
    InvIsCounted(h, {});
    MarkInv(h, a);
    MarkTame(h, a, Marked(h, a).obj[a]);
    MarkStranded(h, a);
  }

  /** What every release of an object comes to. */
  ghost predicate Freed(h: Heap, r: Heap) {
    Inv(r, {}) && Settled(r) && Tame(h, r) && StaysStranded(h, r) && StaysBarren(h, r) && r.known <= h.known
  }

  lemma FreedTwice(h: Heap, n: Heap, r: Heap)
    requires Tame(h, n) && StaysStranded(h, n) && StaysBarren(h, n) && n.known <= h.known && Freed(n, r)
    ensures Freed(h, r)
  {
    TameTwice(h, n, r);
    hide Inv, Tame, Stranded, Deleted;
  }

  lemma SettledAll(h: Heap, p: Id)
    requires SettledBut(h, p) && (p in h.known && p in h.obj && h.obj[p].pending ==> h.obj[p].refcnt > 0)
    ensures Settled(h)
  {
  }

  /** Deleting an attributes object leaves none that is marked as deleted and has no
      references, however far up its ancestors that takes. */
  lemma {:induction false} FreeAttrKeeps(h: Heap, a: Id)
    requires Inv(h, {}) && a in h.known && a in h.obj && h.obj[a].typ == A && SettledBut(h, a)
    ensures Freed(h, FreeAttr(h, a))
    decreases a, 0
  {
    hide Inv, Quiet, Tame, Retire, StowAttr, SettledBut, Settled, StaysStranded, StaysBarren;
    if h.obj[a].refcnt > 0 {
      MarkKeeps(h, a);
      assert Marked(h, a).known == h.known;
    } else {
      AttrRefs(h, a);
      ParentIsKnown(h, a);
      Released(h, a);
      var n, p := StowAttr(Retire(h, a), a), h.obj[a].parent;
      LetsSettled(h, n, a, p);
      LetsStranded(h, n, a, p);
      QuietLim(h, n, p, {a});
      LetsParent(h, n, a, p);
      LastOutKeeps(n, p);
      FreedTwice(h, n, LastOut(n, p));
    }
  }

  lemma AttrRefs(h: Heap, a: Id)
    requires Inv(h, {}) && a in h.obj && h.obj[a].typ == A
    ensures h.obj[a].refcnt >= 0
  {
    assert h.obj[a].refcnt == |Kids(h, a)|;
  }

  lemma LetsParent(h: Heap, n: Heap, a: Id, p: Id)
    requires Inv(h, {}) && a in h.known && a in h.obj && h.obj[a].parent == p && Lets(h, n, a, p)
    ensures p == ROOT || (p in n.known && p in n.obj && n.obj[p].typ == A)
  {
    ParentIsKnown(h, a);
    hide Inv, QuietLists, QuietAttrs, Tame;
  }

  lemma {:induction false} LastOutKeeps(n: Heap, p: Id)
    requires Inv(n, {}) && SettledBut(n, p)
    requires p == ROOT || (p in n.known && p in n.obj && n.obj[p].typ == A)
    ensures Freed(n, LastOut(n, p))
    decreases p, 1
  {
    RootStays(n);
    hide Inv, Tame, FreeAttr, SettledBut, Settled, StaysStranded, StaysBarren;
    if p in n.obj && n.obj[p].refcnt == 0 && n.obj[p].pending {
      FreeAttrKeeps(n, p);
    } else {
      if p in n.obj && p != ROOT { AttrRefs(n, p); }
      SettledAll(n, p);
      TameSelf(n, n.held);
      assert StaysStranded(n, n) && StaysBarren(n, n) by { StrandedSelf(n); }
    }
  }

  lemma StrandedSelf(h: Heap)
    ensures StaysStranded(h, h) && StaysBarren(h, h)
  {
  }

  lemma RootStays(h: Heap)
    requires Inv(h, {})
    ensures ROOT in h.obj && h.obj[ROOT].typ == A && h.obj[ROOT].kind == Fast && !h.obj[ROOT].pending && ROOT !in h.known
  {
  }

  lemma LeafSettled(h: Heap, n: Heap, x: Id, p: Id)
    requires Inv(h, {}) && Settled(h) && x in h.obj && h.obj[x].typ != A && h.obj[x].parent == p
    requires Frees(h, n, x, {}) && Tame(h, n)
    ensures SettledBut(n, p)
  {
    CoreRoot(h, {});
    hide Inv, FreesParent;
    forall b | b in n.known && b in n.obj && n.obj[b].typ == A && n.obj[b].pending && b != p ensures n.obj[b].refcnt > 0 {
      assert b in h.known && b in h.obj && h.obj[b].typ == A && b != x;
      assert Untouched(h, n, b);
    }
  }

  lemma LeafStranded(h: Heap, n: Heap, x: Id, p: Id)
    requires Inv(h, {}) && x in h.obj && h.obj[x].typ != A && h.obj[x].parent == p && Frees(h, n, x, {})
    ensures StaysStranded(h, n) && StaysBarren(h, n)
  {
    CoreRoot(h, {});
    hide Inv;
    forall b | Deleted(h, b) ensures b in n.known ==> Deleted(n, b) && Q(n, Key(b, A)) == Q(h, Key(b, A)) {
      assert b != x && Q(n, Key(b, A)) == Q(h, Key(b, A));
      if b != p { assert Untouched(h, n, b); }
    }
    forall b | Stranded(h, b) ensures Stranded(n, b) {
      assert Deleted(h, b);
      if b != p { assert Untouched(h, n, b); }
    }
  }

  lemma LeafParent(h: Heap, n: Heap, x: Id, p: Id)
    requires Inv(h, {}) && x in h.known && x in h.obj && h.obj[x].parent == p && Frees(h, n, x, {})
    ensures p == ROOT || (p in n.known && p in n.obj && n.obj[p].typ == A)
  {
    ParentIsKnown(h, x);
    hide Inv, FreesLists, FreesFirm;
  }

  lemma FreesFewer(h: Heap, n: Heap, x: Id)
    requires x in h.obj && Frees(h, n, x, {})
    ensures n.known <= h.known
  {
  }

  /** Deleting a mutex or condition variable that is not a lock of the library's own. */
  lemma FreeLeafKeeps(h: Heap, x: Id)
    requires Inv(h, {}) && Settled(h) && x in h.known && x in h.obj && h.obj[x].typ != A && Unused(h, x, {})
    ensures h.obj[x].parent in h.obj && h.obj[x].parent != x && Freed(h, FreeLeaf(h, x))
  {
    hide Inv, Frees, Tame, FreeNolock, Settled, SettledBut, StaysStranded, StaysBarren, Unused, Counted, LastOut;
    FreeNolockKeeps(h, x, {});
    var n, p := FreeNolock(h, x), h.obj[x].parent;
    InvIsCounted(h, {});
    FreeNolockTame(h, x);
    LeafSettled(h, n, x, p);
    LeafStranded(h, n, x, p);
    LeafParent(h, n, x, p);
    FreesFewer(h, n, x);
    LastOutKeeps(n, p);
    FreedTwice(h, n, LastOut(n, p));
  }

  // --- Creation -------------------------------------------------------------------------------------

  /** What a kind of mutex starts with; a field the kind does not use is left as it was. */
  function Initial(kind: Kind, was: Bits): Bits {
    if kind == Fast then was.(lock := false, event := true, unlocksLock := true, owned := false)
    else Bits(lock := true, event := false, waiters := true, unlocksLock := false, owned := false, nest := 0)
  }

  /** An object made ready for use: a mutex of that kind with that inner lock, a condition
      variable without waiters, an attributes object with the default settings and that lock. */
  function Renewed(o: Obj, kind: Kind, lock: Id): Obj {
    match o.typ
    case M => o.(kind := kind, inner := lock, bits := Initial(kind, o.bits))
    case C => o.(bits := o.bits.(event := true))
    case A => o.(kind := Fast, mutex := lock, refcnt := 0, pending := false)
  }

  const SCRAP := Bits(false, false, false, false, false, 0)

  /** A block of memory for an object. */
  function Blank(k: Key): Obj {
    Obj(k.t, k.a, 0, 0, Fast, ROOT, ROOT, 0, false, SCRAP)
  }

  /** The object that serves a request: the first of the cache, or a new one. */
  function Pick(h: Heap, k: Key): Id {
    if Q(h, k) != [] then Q(h, k)[0] else h.next
  }

  function Picked(h: Heap, k: Key): Heap {
    if Q(h, k) != [] then Unshelve(h, k) else Alloc(h, Blank(k))
  }

  /** The picked object is made ready and listed. */
  function Listed(m: Heap, x: Id, kind: Kind, lock: Id): Heap
    requires x in m.obj && m.obj[x].parent in m.obj
  {
    var n := m.(obj := m.obj[x := Renewed(m.obj[x], kind, lock)]);
    if n.obj[x].parent in n.obj then Enlist(n, x) else n
  }

  /** Creates an inner lock, a fast mutex of the default attributes object. */
  function GetInner(h: Heap): Heap {
    var m, x := Picked(h, INNERS), Pick(h, INNERS);
    if x in m.obj && m.obj[x].parent in m.obj then Listed(m, x, Fast, ROOT) else m
  }

  /** Creates a mutex or condition variable; an attributes object marked as deleted refuses. */
  function GetLeaf(h: Heap, k: Key): Heap
    requires k.a in h.obj
  {
    var kind := h.obj[k.a].kind;
    var m, x := Picked(h, k), Pick(h, k);
    if h.obj[k.a].pending || x !in m.obj then h
    else if k.t == M && kind != Fast && m.obj[x].inner == ROOT then
      var n, i := GetInner(m), Pick(m, INNERS);
      if x in n.obj && n.obj[x].parent in n.obj then Listed(n, x, kind, i) else n
    else if m.obj[x].parent in m.obj then
      Listed(m, x, kind, if k.t == M && kind != Fast then m.obj[x].inner else ROOT)
    else m
  }

  lemma BlankLock(k: Key)
    ensures LockOf(Blank(k)) == ROOT
  {
  }

  /** What picking an object leaves alone. */
  ghost predicate PicksFrom(h: Heap, m: Heap, k: Key, x: Id) {
    && x in m.obj && Home(m.obj[x]) == k && m.obj[x].seqn == 0 && (k.t == A ==> m.obj[x].refcnt == 0)
    && x != ROOT && x !in h.known && m.known == h.known && m.lim == h.lim && m.revs == h.revs && m.held == h.held
    && (forall y {:trigger m.obj[y]} {:trigger y in m.obj} :: y in h.obj ==> y in m.obj && m.obj[y] == h.obj[y])
    && (forall y {:trigger y in m.obj} :: y in m.obj ==> y in h.obj || y == x)
    && (forall j: Key {:trigger Q(m, j)} :: if j != k then Q(m, j) == Q(h, j) else |Q(m, j)| <= |Q(h, j)|)
    && (x in h.obj ==> Q(h, k) != [] && x == Q(h, k)[0]) && (x !in h.obj ==> m.obj[x] == Blank(k))
  }

  lemma PickedFrom(h: Heap, k: Key, loose: set<Id>)
    requires Inv(h, loose) && k.a in h.obj && h.obj[k.a].typ == A
    ensures PicksFrom(h, Picked(h, k), k, Pick(h, k)) && Pick(h, k) !in loose
    ensures Inv(Picked(h, k), loose + {Pick(h, k)})
    ensures Pick(h, k) in h.obj ==> Good(h, Pick(h, k))
  {
    var m, x := Picked(h, k), Pick(h, k);
    if Q(h, k) != [] {
      PickedOld(h, k, loose);
    } else {
      PickedNew(h, k, loose);
    }
  }

  lemma PickedOld(h: Heap, k: Key, loose: set<Id>)
    requires Inv(h, loose) && Q(h, k) != []
    ensures PicksFrom(h, Unshelve(h, k), k, Q(h, k)[0]) && Q(h, k)[0] !in loose && Good(h, Q(h, k)[0])
    ensures Inv(Unshelve(h, k), loose + {Q(h, k)[0]})
  {
    hide Inv, Good, PicksFrom, Unshelve;
    UnshelveInv(h, k, loose);
    UnshelvedFrom(h, k);
  }

  lemma UnshelvedFrom(h: Heap, k: Key)
    requires Q(h, k) != []
    requires var x := Q(h, k)[0];
      && x in h.obj && Home(h.obj[x]) == k && h.obj[x].seqn == 0 && x != ROOT && x !in h.known && (k.t == A ==> h.obj[x].refcnt == 0)
    ensures PicksFrom(h, Unshelve(h, k), k, Q(h, k)[0])
  {
    assert forall j: Key :: Q(Unshelve(h, k), j) == if j == k then Q(h, k)[1..] else Q(h, j);
  }

  lemma PickedNew(h: Heap, k: Key, loose: set<Id>)
    requires Inv(h, loose) && Q(h, k) == [] && k.a in h.obj && h.obj[k.a].typ == A
    ensures PicksFrom(h, Alloc(h, Blank(k)), k, h.next) && h.next !in loose && h.next !in h.obj
    ensures Inv(Alloc(h, Blank(k)), loose + {h.next})
  {
    hide Inv, PicksFrom, Alloc, LockOf;
    BlankLock(k);
    AllocInv(h, Blank(k), loose);
    KnownOld(h, loose);
    AllocFrom(h, k);
  }

  lemma AllocFrom(h: Heap, k: Key)
    requires h.next !in h.known && h.next != ROOT && h.next !in h.obj && Q(h, k) == []
    ensures PicksFrom(h, Alloc(h, Blank(k)), k, h.next)
  {
    assert forall j: Key :: Q(Alloc(h, Blank(k)), j) == Q(h, j);
  }

  lemma KnownOld(h: Heap, loose: set<Id>)
    requires Inv(h, loose)
    ensures h.next !in h.known && h.next != ROOT
  {
  }

  // --- What creation keeps -----------------------------------------------------------------------------

  /** Objects on their way have locks of their own already, or none. */
  ghost predicate Locked(h: Heap, loose: set<Id>) {
    forall y :: y in loose && y in h.obj ==> LockOf(h.obj[y]) == ROOT || LockOf(h.obj[y]) in h.known
  }

  lemma LocksKnown(h: Heap, loose: set<Id>, y: Id)
    requires Inv(h, loose) && Locked(h, loose) && y in h.obj && y != ROOT
    ensures LockOf(h.obj[y]) == ROOT || LockOf(h.obj[y]) in h.known
  {
    if y !in loose { assert Good(h, y); }
  }

  /** Nothing uses x as its lock. */
  ghost predicate Spare(h: Heap, x: Id) {
    forall y :: y in h.obj && y != ROOT ==> LockOf(h.obj[y]) != x
  }

  lemma NotYetALock(h: Heap, loose: set<Id>, i: Id)
    requires Inv(h, loose) && Locked(h, loose) && i !in h.known && i != ROOT
    ensures Spare(h, i)
  {
    hide Inv, Locked;
    forall y | y in h.obj && y != ROOT ensures LockOf(h.obj[y]) != i { LocksKnown(h, loose, y); }
  }

  /** Listing leaves everything alone but the object and its parent's count. */
  ghost predicate Lists(m: Heap, r: Heap, x: Id) {
    && x in m.obj && x in r.obj && r.obj.Keys == m.obj.Keys && r.known == m.known + {x} && r.next == m.next
    && r.queue == m.queue && r.lim == m.lim && r.revs == m.revs && r.held == m.held
    && (forall y {:trigger r.obj[y]} :: y in m.obj && y != x ==>
          r.obj[y] == m.obj[y].(refcnt := if y == m.obj[x].parent then m.obj[y].refcnt + 1 else m.obj[y].refcnt))
  }

  lemma ListedIs(m: Heap, x: Id, kind: Kind, lock: Id)
    requires x in m.obj && m.obj[x].parent in m.obj && m.obj[x].parent != x && (m.obj[x].typ == A ==> m.obj[x].refcnt == 0)
    ensures var r := Listed(m, x, kind, lock); var n := m.(obj := m.obj[x := Renewed(m.obj[x], kind, lock)]);
      && n.obj[x].parent in n.obj && r == Enlist(n, x) && Rewritten(m, n, x)
      && Lists(m, r, x) && r.obj[x] == Renewed(m.obj[x], kind, lock).(seqn := m.seqs, rev := Rev(m, Home(m.obj[x])))
  {
  }

  /** A renewed object has the lock its type and kind ask for. */
  ghost predicate Suits(m: Heap, x: Id, kind: Kind, lock: Id) {
    x in m.obj && match m.obj[x].typ
    case C => true
    case A => lock in m.known && lock in m.obj && m.obj[lock].typ == M && m.obj[lock].parent == m.obj[x].parent
    case M =>
      && (kind == Fast <==> lock == ROOT) && (m.obj[x].parent == ROOT ==> kind == Fast)
      && (kind != Fast ==> lock in m.known && lock in m.obj && m.obj[lock].typ == M && m.obj[lock].parent == ROOT && m.obj[lock].kind == Fast)
  }

  ghost predicate FreeLock(m: Heap, x: Id, lock: Id) {
    forall y :: y in m.obj && y != ROOT && y != x ==> LockOf(m.obj[y]) == ROOT || LockOf(m.obj[y]) != lock
  }

  lemma RenewedLock(m: Heap, x: Id, kind: Kind, lock: Id)
    requires x in m.obj && FreeLock(m, x, lock)
    ensures var n := m.(obj := m.obj[x := Renewed(m.obj[x], kind, lock)]); NewLock(m, n, x)
  {
  }

  lemma RenewedGood(m: Heap, x: Id, kind: Kind, lock: Id)
    requires Suits(m, x, kind, lock) && x !in m.known
    ensures var n := m.(obj := m.obj[x := Renewed(m.obj[x], kind, lock)]); Good(n, x)
  {
  }

  lemma ListedKeeps(m: Heap, x: Id, kind: Kind, lock: Id, loose: set<Id>)
    requires Inv(m, loose) && x in loose && x in m.obj && (m.obj[x].typ == A ==> m.obj[x].refcnt == 0)
    requires Suits(m, x, kind, lock) && FreeLock(m, x, lock)
    requires m.obj[x].parent == ROOT || m.obj[x].parent in m.known
    ensures m.obj[x].parent in m.obj && m.obj[x].parent != x
    ensures var r := Listed(m, x, kind, lock);
      && Inv(r, loose - {x}) && Lists(m, r, x)
      && r.obj[x] == Renewed(m.obj[x], kind, lock).(seqn := m.seqs, rev := Rev(m, Home(m.obj[x])))
  {
    ParentOf(m, loose, x);
    ListedIs(m, x, kind, lock);
    hide Inv, Good, Suits, FreeLock, NewLock, Enlist, Listed, Lists;
    var n := m.(obj := m.obj[x := Renewed(m.obj[x], kind, lock)]);
    RenewedLock(m, x, kind, lock);
    RenewedGood(m, x, kind, lock);
    RewriteInv(m, n, x, loose);
    assert !Idle(n, n.obj[x].parent, loose);
    EnlistInv(n, x, loose);
  }

  /** Object x has been created: other objects at most gain references. */
  ghost predicate Makes(h: Heap, r: Heap, x: Id) {
    && x in r.obj && x !in h.known && x != ROOT && r.known == h.known + {x} && r.lim == h.lim && r.revs == h.revs && r.held == h.held
    && (forall y {:trigger y in r.obj} {:trigger r.obj[y]} :: y in h.obj && y != x ==>
          y in r.obj && r.obj[y] == h.obj[y].(refcnt := r.obj[y].refcnt) && r.obj[y].refcnt >= h.obj[y].refcnt
          && (y != r.obj[x].parent ==> r.obj[y] == h.obj[y]))
    && (forall y {:trigger y in r.obj} :: y in r.obj ==> y in h.obj || y == x)
    && (x in h.obj ==> exists k: Key :: x in Q(h, k))
  }

  /** Only cache k has changed, by its first object at most. */
  ghost predicate Takes(h: Heap, r: Heap, k: Key) {
    forall j: Key {:trigger Q(r, j)} :: if j != k then Q(r, j) == Q(h, j) else |Q(r, j)| <= |Q(h, j)|
  }

  lemma MadeFrom(h: Heap, m: Heap, r: Heap, k: Key, x: Id)
    requires PicksFrom(h, m, k, x) && Lists(m, r, x) && r.obj[x].parent == m.obj[x].parent
    ensures Makes(h, r, x) && Takes(h, r, k)
  {
    forall y | y in h.obj && y != x
      ensures y in r.obj && r.obj[y] == h.obj[y].(refcnt := r.obj[y].refcnt) && r.obj[y].refcnt >= h.obj[y].refcnt
      ensures y != m.obj[x].parent ==> r.obj[y] == h.obj[y]
    {
      assert y in m.obj && m.obj[y] == h.obj[y];
    }
    if x in h.obj { assert x in Q(h, k); }
    forall y | y in r.obj ensures y in h.obj || y == x { assert y in m.obj; }
    forall j: Key ensures Q(r, j) == Q(m, j) { }
  }

  lemma SuitsInner(m: Heap, x: Id)
    requires x in m.obj && m.obj[x].typ == M
    ensures Suits(m, x, Fast, ROOT) && FreeLock(m, x, ROOT)
  {
  }

  lemma MadeUnlocking(h: Heap, r: Heap, x: Id)
    requires Makes(h, r, x) && LockOf(r.obj[x]) == ROOT
    requires Spare(h, x)
    ensures Spare(r, x)
  {
    forall y | y in r.obj && y != ROOT ensures LockOf(r.obj[y]) != x {
      if y != x { assert y in h.obj && r.obj[y] == h.obj[y].(refcnt := r.obj[y].refcnt); }
    }
  }

  /** A new inner lock is a fast mutex of the default attributes object that nothing uses yet. */
  lemma GetInnerKeeps(h: Heap, loose: set<Id>)
    requires Inv(h, loose) && Locked(h, loose)
    ensures var r, i := GetInner(h), Pick(h, INNERS);
      && Inv(r, loose) && Makes(h, r, i) && Takes(h, r, INNERS) && i !in loose
      && r.obj[i].typ == M && r.obj[i].parent == ROOT && r.obj[i].kind == Fast && LockOf(r.obj[i]) == ROOT
      && Spare(r, i)
  {
    InnerRoot(h, loose);
    PickedFrom(h, INNERS, loose);
    var m, i := Picked(h, INNERS), Pick(h, INNERS);
    ParentOf(m, loose + {i}, i);
    assert i in m.obj && m.obj[i].typ == M && m.obj[i].parent == ROOT && i !in h.known && i != ROOT;
    NotYetALock(h, loose, i);
    SuitsInner(m, i);
    hide Inv, Locked, Good, Picked, Pick, PicksFrom, Suits, FreeLock, Lists, Spare;
    ListedKeeps(m, i, Fast, ROOT, loose + {i});
    MadeFrom(h, m, Listed(m, i, Fast, ROOT), INNERS, i);
    MadeUnlocking(h, Listed(m, i, Fast, ROOT), i);
    Restored(loose, i);
  }

  lemma InnerRoot(h: Heap, loose: set<Id>)
    requires Inv(h, loose)
    ensures ROOT in h.obj && h.obj[ROOT].typ == A && h.obj[ROOT].kind == Fast && !h.obj[ROOT].pending && ROOT !in h.known && ROOT !in loose
  {
  }

  /** What creation leaves alone: the objects of `kept` at most gain references, caches at
      most shrink, and among those of attributes objects only k does. */
  ghost predicate Grows(h: Heap, r: Heap, kept: set<Id>, k: Key) {
    && r.lim == h.lim && r.held == h.held && r.revs == h.revs && h.known <= r.known
    && (forall y {:trigger r.obj[y]} {:trigger y in r.obj} :: y in kept && y in h.obj ==>
          y in r.obj && r.obj[y] == h.obj[y].(refcnt := r.obj[y].refcnt) && r.obj[y].refcnt >= h.obj[y].refcnt
          && (y != k.a && y != ROOT ==> r.obj[y] == h.obj[y]))
    && (forall y {:trigger y in r.known} :: y in r.known && y !in h.known ==> y in r.obj && (r.obj[y].typ == A ==> !r.obj[y].pending))
    && (forall j: Key {:trigger Q(r, j)} :: |Q(r, j)| <= |Q(h, j)| && (j.t == A && j != k ==> Q(r, j) == Q(h, j)))
  }

  lemma GrowsTwice(a: Heap, b: Heap, c: Heap, kept: set<Id>, k: Key)
    requires Grows(a, b, kept, k) && Grows(b, c, kept, k)
    requires forall y :: y in b.known && y !in a.known ==> y in c.obj && (c.obj[y].typ == A ==> !c.obj[y].pending)
    ensures Grows(a, c, kept, k)
  {
    forall j: Key ensures |Q(c, j)| <= |Q(a, j)| && (j.t == A && j != k ==> Q(c, j) == Q(a, j)) {
      assert |Q(c, j)| <= |Q(b, j)|;
      assert |Q(b, j)| <= |Q(a, j)|;
    }
    forall y | y in c.known && y !in a.known ensures y in c.obj && (c.obj[y].typ == A ==> !c.obj[y].pending) {
      if y in b.known { }
    }
    forall y | y in kept && y in a.obj
      ensures y in c.obj && c.obj[y] == a.obj[y].(refcnt := c.obj[y].refcnt) && c.obj[y].refcnt >= a.obj[y].refcnt
      ensures y != k.a && y != ROOT ==> c.obj[y] == a.obj[y]
    {
      assert y in b.obj;
    }
  }

  lemma PickGrows(h: Heap, m: Heap, k: Key, x: Id, kept: set<Id>)
    requires PicksFrom(h, m, k, x)
    ensures Grows(h, m, kept, k)
  {
    forall j: Key ensures |Q(m, j)| <= |Q(h, j)| && (j.t == A && j != k ==> Q(m, j) == Q(h, j)) {
      assert if j != k then Q(m, j) == Q(h, j) else |Q(m, j)| <= |Q(h, j)|;
    }
  }

  lemma MadeGrows(m: Heap, n: Heap, i: Id, kept: set<Id>, k: Key)
    requires Makes(m, n, i) && Takes(m, n, INNERS) && i !in kept && n.obj[i].typ == M && n.obj[i].parent == ROOT
    ensures Grows(m, n, kept, k)
  {
    forall j: Key ensures |Q(n, j)| <= |Q(m, j)| && (j.t == A && j != k ==> Q(n, j) == Q(m, j)) {
      assert if j != INNERS then Q(n, j) == Q(m, j) else |Q(n, j)| <= |Q(m, j)|;
    }
  }

  lemma ListGrows(n: Heap, r: Heap, x: Id, kept: set<Id>, k: Key)
    requires Lists(n, r, x) && x !in kept && (r.obj[x].typ == A ==> !r.obj[x].pending) && n.obj[x].parent == k.a
    ensures Grows(n, r, kept, k)
  {
    assert forall j: Key :: Q(r, j) == Q(n, j);
    forall y | y in kept && y in n.obj
      ensures y in r.obj && r.obj[y] == n.obj[y].(refcnt := r.obj[y].refcnt) && r.obj[y].refcnt >= n.obj[y].refcnt
      ensures y != k.a && y != ROOT ==> r.obj[y] == n.obj[y]
    {
      assert y != x;
    }
  }

  /** What a new mutex or condition variable is like, given the object that was picked. */
  ghost predicate Ready(h: Heap, r: Heap, k: Key, x: Id, was: Obj) {
    && x in r.known && x !in h.known && x in r.obj && k.a in h.obj && Home(r.obj[x]) == k
    && r.obj[x].rev == Rev(h, k) && r.obj[x].seqn != 0
    && match k.t
       case M => r.obj[x].kind == h.obj[k.a].kind && r.obj[x].bits == Initial(h.obj[k.a].kind, was.bits)
                 && (r.obj[x].kind == Fast <==> r.obj[x].inner == ROOT)
                 && (r.obj[x].kind != Fast && was.inner != ROOT ==> r.obj[x].inner == was.inner)
       case C => r.obj[x].bits.event
       case A => true
  }

  lemma ListedReady(h: Heap, m: Heap, r: Heap, k: Key, x: Id, kind: Kind, lock: Id)
    requires PicksFrom(h, m, k, x) && Lists(m, r, x) && k.a in h.obj && kind == h.obj[k.a].kind && k.t != A && m.seqs > 0
    requires r.obj[x] == Renewed(m.obj[x], kind, lock).(seqn := m.seqs, rev := Rev(m, Home(m.obj[x])))
    requires k.t == M ==> (kind == Fast <==> lock == ROOT) && (kind != Fast && m.obj[x].inner != ROOT ==> lock == m.obj[x].inner)
    ensures Ready(h, r, k, x, m.obj[x])
  {
  }

  /** The heap and the object that a request listed, once its lock is there. */
  lemma ListedGrows(h: Heap, m: Heap, r: Heap, k: Key, x: Id, kind: Kind, lock: Id, kept: set<Id>)
    requires PicksFrom(h, m, k, x) && Lists(m, r, x) && x !in kept
    requires x in m.obj && r.obj[x] == Renewed(m.obj[x], kind, lock).(seqn := m.seqs, rev := Rev(m, Home(m.obj[x])))
    ensures Grows(h, r, kept, k) && r.known == h.known + {x}
  {
    PickedFacts(h, m, k, x);
    ListsKnown(m, r, x);
    PickGrows(h, m, k, x, kept);
    RenewedType(m, r, x, kind, lock);
    hide PicksFrom, Lists, Grows, Renewed, Rev;
    ListGrows(m, r, x, kept, k);
    GrowsTwice(h, m, r, kept, k);
  }

  /** The inner lock a request needs no new one for. */
  function OldLock(h: Heap, k: Key, o: Obj): Id
    requires k.a in h.obj
  {
    if k.t == M && h.obj[k.a].kind != Fast then o.inner else ROOT
  }

  ghost predicate NeedsInner(h: Heap, k: Key) {
    Pick(h, k) in Picked(h, k).obj && k.a in h.obj && k.t == M && h.obj[k.a].kind != Fast && Picked(h, k).obj[Pick(h, k)].inner == ROOT
  }

  lemma LeafInv(h: Heap, k: Key, loose: set<Id>)
    requires Inv(h, loose) && k.a in h.obj && h.obj[k.a].typ == A && k.t != A && (k.a == ROOT || k.a in h.known) && !NeedsInner(h, k)
    ensures var m, x, kind := Picked(h, k), Pick(h, k), h.obj[k.a].kind;
      && PicksFrom(h, m, k, x) && x in m.obj && m.obj[x].parent in m.obj && x !in loose && m.seqs > 0
      && var r := Listed(m, x, kind, OldLock(h, k, m.obj[x]));
      && Inv(r, loose) && Lists(m, r, x)
      && r.obj[x] == Renewed(m.obj[x], kind, OldLock(h, k, m.obj[x])).(seqn := m.seqs, rev := Rev(m, Home(m.obj[x])))
      && (k.t == M ==> (kind == Fast <==> OldLock(h, k, m.obj[x]) == ROOT))
  {
    var m, x, kind := Picked(h, k), Pick(h, k), h.obj[k.a].kind;
    PickedFrom(h, k, loose);
    PickedFacts(h, m, k, x);
    PickedSuits(h, m, k, x, loose);
    SeqsPositive(m, loose + {x});
    hide Inv, Good, Picked, Pick, PicksFrom, Suits, FreeLock, Lists, Listed, Renewed;
    ListedKeeps(m, x, kind, OldLock(h, k, m.obj[x]), loose + {x});
    Restored(loose, x);
  }

  /** A listed object is not a lock yet. */
  lemma ListedSpare(h: Heap, m: Heap, r: Heap, k: Key, x: Id, loose: set<Id>)
    requires PicksFrom(h, m, k, x) && Lists(m, r, x) && Spare(h, x) && Inv(r, loose) && x in r.obj && r.obj[x].typ != A
    ensures Spare(r, x)
  {
    assert x in r.known && x in m.obj;
    NotOwnLock(r, x, loose);
    hide Inv;
    forall y | y in r.obj && y != ROOT ensures LockOf(r.obj[y]) != x {
      if y != x { assert y in m.obj && y in h.obj && LockOf(r.obj[y]) == LockOf(m.obj[y]); }
    }
  }

  /** Without a new inner lock. */
  lemma LeafListed(h: Heap, k: Key, loose: set<Id>)
    requires Inv(h, loose) && Locked(h, loose) && k.a in h.obj && h.obj[k.a].typ == A && k.t != A && (k.a == ROOT || k.a in h.known) && !NeedsInner(h, k)
    ensures var m, x := Picked(h, k), Pick(h, k);
      && x in m.obj && m.obj[x].parent in m.obj && x !in loose
      && var r := Listed(m, x, h.obj[k.a].kind, OldLock(h, k, m.obj[x]));
      && Inv(r, loose) && Ready(h, r, k, x, m.obj[x]) && Grows(h, r, h.known + loose + {ROOT}, k) && r.known == h.known + {x}
      && Spare(r, x)
  {
    var m, x, kind := Picked(h, k), Pick(h, k), h.obj[k.a].kind;
    LeafInv(h, k, loose);
    PickedFacts(h, m, k, x);
    hide Inv, Locked, Picked, Pick, PicksFrom, Lists, Listed, Renewed, Ready, Grows, NeedsInner, Spare;
    var r := Listed(m, x, kind, OldLock(h, k, m.obj[x]));
    NotYetALock(h, loose, x);
    ListedSpare(h, m, r, k, x, loose);
    ListedReady(h, m, r, k, x, kind, OldLock(h, k, m.obj[x]));
    ListedGrows(h, m, r, k, x, kind, OldLock(h, k, m.obj[x]), h.known + loose + {ROOT});
  }

  lemma ListsKnown(m: Heap, r: Heap, x: Id)
    requires Lists(m, r, x)
    ensures r.known == m.known + {x}
  {
  }

  lemma RenewedType(m: Heap, r: Heap, x: Id, kind: Kind, lock: Id)
    requires Lists(m, r, x) && r.obj[x] == Renewed(m.obj[x], kind, lock).(seqn := m.seqs, rev := Rev(m, Home(m.obj[x])))
    ensures r.obj[x].typ == m.obj[x].typ && (r.obj[x].typ == A ==> !r.obj[x].pending)
  {
  }

  lemma SeqsPositive(h: Heap, loose: set<Id>)
    requires Inv(h, loose)
    ensures h.seqs > 0
  {
  }

  lemma PickedFacts(h: Heap, m: Heap, k: Key, x: Id)
    requires PicksFrom(h, m, k, x)
    ensures x in m.obj && m.known == h.known && x !in h.known && x != ROOT && m.obj[x].parent == k.a && m.obj[x].typ == k.t
    ensures k.t == A ==> m.obj[x].refcnt == 0
    ensures forall y :: y in h.obj ==> y in m.obj && m.obj[y] == h.obj[y]
  {
  }

  /** The lock a picked mutex comes with suits, when its kind needs one and it has one. */
  lemma PickedSuits(h: Heap, m: Heap, k: Key, x: Id, loose: set<Id>)
    requires Inv(h, loose) && Inv(m, loose + {x}) && PicksFrom(h, m, k, x) && k.a in h.obj && k.t != A
    requires x in h.obj ==> Good(h, x)
    requires !(k.t == M && h.obj[k.a].kind != Fast && m.obj[x].inner == ROOT)
    ensures var lock := if k.t == M && h.obj[k.a].kind != Fast then m.obj[x].inner else ROOT;
      Suits(m, x, h.obj[k.a].kind, lock) && FreeLock(m, x, lock)
  {
    InnerRoot(h, loose);
    InvSingle(m, loose + {x});
    hide Inv;
    if k.t == M && h.obj[k.a].kind != Fast {
      KeptInner(h, m, k, x);
      OwnLock(m, x);
    }
  }

  lemma InvSingle(h: Heap, loose: set<Id>)
    requires Inv(h, loose)
    ensures Single(h)
  {
  }

  lemma OwnLock(m: Heap, x: Id)
    requires Single(m) && x in m.obj && x != ROOT && m.obj[x].typ == M
    ensures FreeLock(m, x, m.obj[x].inner)
  {
  }

  lemma KeptInner(h: Heap, m: Heap, k: Key, x: Id)
    requires PicksFrom(h, m, k, x) && k.a in h.obj && k.t == M && (x in h.obj ==> Good(h, x))
    requires h.obj[k.a].kind != Fast && m.obj[x].inner != ROOT && ROOT in h.obj && h.obj[ROOT].kind == Fast
    ensures Suits(m, x, h.obj[k.a].kind, m.obj[x].inner)
  {
    assert x in h.obj && GoodMutex(h, x);
    var i := h.obj[x].inner;
    assert m.obj[i] == h.obj[i];
  }

  lemma PickedLocked(h: Heap, k: Key, loose: set<Id>)
    requires NeedsInner(h, k) && PicksFrom(h, Picked(h, k), k, Pick(h, k)) && Locked(h, loose) && Inv(h, loose)
    ensures Locked(Picked(h, k), loose + {Pick(h, k)})
  {
    var m := Picked(h, k);
    assert m.known == h.known;
    hide Picked, Pick;
    forall y | y in loose && y in m.obj ensures LockOf(m.obj[y]) == ROOT || LockOf(m.obj[y]) in m.known {
      ParentOf(h, loose, y);
      assert m.obj[y] == h.obj[y];
    }
  }

  lemma InnerSuits(m: Heap, n: Heap, x: Id, i: Id, kind: Kind)
    requires Makes(m, n, i) && x in m.obj && x != i && m.obj[x].typ == M && m.obj[x].parent != ROOT && kind != Fast
    requires n.obj[i].typ == M && n.obj[i].parent == ROOT && n.obj[i].kind == Fast
    requires Spare(n, i)
    ensures Suits(n, x, kind, i) && FreeLock(n, x, i) && x in n.obj && n.obj[x] == m.obj[x].(refcnt := n.obj[x].refcnt)
    ensures n.known == m.known + {i} && i !in m.known && i != ROOT && n.revs == m.revs
  {
  }

  lemma InnerGrows(h: Heap, m: Heap, n: Heap, r: Heap, k: Key, x: Id, i: Id, kept: set<Id>)
    requires PicksFrom(h, m, k, x) && Makes(m, n, i) && Takes(m, n, INNERS) && Lists(n, r, x)
    requires x !in kept && i !in kept && i != x && n.obj[i].typ == M && n.obj[i].parent == ROOT && r.obj[x].typ == M
    ensures Grows(h, r, kept, k) && r.known == h.known + {i, x}
  {
    PickedFacts(h, m, k, x);
    InnerListed(m, n, r, x, i);
    assert x in n.obj && n.obj[x].parent == k.a;
    assert m.known == h.known;
    hide PicksFrom, Makes, Takes, Lists, Grows;
    assert Grows(m, r, kept, k) by {
      MadeGrows(m, n, i, kept, k);
      ListGrows(n, r, x, kept, k);
      GrowsTwice(m, n, r, kept, k);
    }
    PickGrows(h, m, k, x, kept);
    GrowsTwice(h, m, r, kept, k);
  }

  lemma InnerListed(m: Heap, n: Heap, r: Heap, x: Id, i: Id)
    requires Makes(m, n, i) && Lists(n, r, x) && i != x
    ensures i in n.obj && i in r.obj && r.obj[i].typ == n.obj[i].typ && r.known == m.known + {i, x}
    ensures forall y :: y in n.known && y !in m.known ==> y == i
  {
  }

  lemma RenewedInner(o: Obj, kind: Kind, i: Id)
    requires o.typ == M
    ensures Renewed(o, kind, i).inner == i
  {
  }

  lemma InnerReady(h: Heap, m: Heap, n: Heap, r: Heap, k: Key, x: Id, kind: Kind, i: Id)
    requires PicksFrom(h, m, k, x) && k.a in h.obj && kind == h.obj[k.a].kind && kind != Fast && k.t == M && m.obj[x].inner == ROOT
    requires x in n.obj && n.obj[x] == m.obj[x].(refcnt := n.obj[x].refcnt) && n.revs == m.revs && i != ROOT && n.seqs > 0
    requires Lists(n, r, x) && r.obj[x] == Renewed(n.obj[x], kind, i).(seqn := n.seqs, rev := Rev(n, Home(n.obj[x])))
    ensures Ready(h, r, k, x, m.obj[x]) && r.obj[x].typ == M
  {
  }

  lemma NestedSpare(h: Heap, m: Heap, n: Heap, r: Heap, k: Key, x: Id, i: Id, loose: set<Id>)
    requires PicksFrom(h, m, k, x) && Makes(m, n, i) && Lists(n, r, x) && Spare(h, x) && Spare(n, i) && i != x
    requires LockOf(n.obj[i]) == ROOT && Inv(r, loose) && x in r.obj && r.obj[x].typ != A
    ensures Spare(r, x)
  {
    assert x in r.known;
    NotOwnLock(r, x, loose);
    hide Inv;
    forall y | y in r.obj && y != ROOT ensures LockOf(r.obj[y]) != x {
      if y != x {
        assert LockOf(r.obj[y]) == LockOf(n.obj[y]);
        if y != i { assert y in m.obj && y in h.obj && LockOf(n.obj[y]) == LockOf(m.obj[y]); }
      }
    }
  }

  /** With a new inner lock. */
  lemma LeafNested(h: Heap, k: Key, loose: set<Id>)
    requires Inv(h, loose) && Locked(h, loose) && k.a in h.obj && h.obj[k.a].typ == A && (k.a == ROOT || k.a in h.known) && NeedsInner(h, k)
    ensures var m, x := Picked(h, k), Pick(h, k); var n, i := GetInner(m), Pick(m, INNERS);
      && x in n.obj && n.obj[x].parent in n.obj && x !in loose
      && var r := Listed(n, x, h.obj[k.a].kind, i);
      && Inv(r, loose) && Ready(h, r, k, x, m.obj[x]) && Grows(h, r, h.known + loose + {ROOT}, k) && r.known == h.known + {i, x}
      && r.obj[x].inner == i
      && Spare(r, x)
  {
    var m, x, kind := Picked(h, k), Pick(h, k), h.obj[k.a].kind;
    InnerRoot(h, loose);
    PickedFrom(h, k, loose);
    PickedFacts(h, m, k, x);
    PickedLocked(h, k, loose);
    hide Inv, Good, Locked, Picked, PicksFrom, Suits, FreeLock, Lists, Listed, Renewed, Ready, Grows, Makes, Takes, GetInner, LockOf, Spare;
    assert m.obj[x].inner == ROOT;
    hide Pick, NeedsInner;
    GetInnerKeeps(m, loose + {x});
    var n, i := GetInner(m), Pick(m, INNERS);
    InnerSuits(m, n, x, i, kind);
    SeqsPositive(n, loose + {x});
    ListedKeeps(n, x, kind, i, loose + {x});
    Restored(loose, x);
    var r := Listed(n, x, kind, i);
    RenewedInner(n.obj[x], kind, i);
    InnerReady(h, m, n, r, k, x, kind, i);
    InnerGrows(h, m, n, r, k, x, i, h.known + loose + {ROOT});
    NotYetALock(h, loose, x);
    NestedSpare(h, m, n, r, k, x, i, loose);
  }

  lemma GrowsSelf(h: Heap, kept: set<Id>, k: Key)
    ensures Grows(h, h, kept, k)
  {
  }

  lemma GetLeafIs(h: Heap, k: Key)
    requires k.a in h.obj && !h.obj[k.a].pending && Pick(h, k) in Picked(h, k).obj
    ensures var m, x := Picked(h, k), Pick(h, k); var n, i := GetInner(m), Pick(m, INNERS);
      && (NeedsInner(h, k) && x in n.obj && n.obj[x].parent in n.obj ==> GetLeaf(h, k) == Listed(n, x, h.obj[k.a].kind, i))
      && (!NeedsInner(h, k) && m.obj[x].parent in m.obj ==> GetLeaf(h, k) == Listed(m, x, h.obj[k.a].kind, OldLock(h, k, m.obj[x])))
  {
    hide Picked, Pick, Listed, GetInner;
  }

  /** A request for a mutex or condition variable is served with one that is ready for use,
      unless the attributes object is marked as deleted. */
  lemma GetLeafKeeps(h: Heap, k: Key, loose: set<Id>)
    requires Inv(h, loose) && Locked(h, loose) && k.a in h.obj && h.obj[k.a].typ == A && k.t != A && (k.a == ROOT || k.a in h.known)
    ensures Inv(GetLeaf(h, k), loose) && Grows(h, GetLeaf(h, k), h.known + loose + {ROOT}, k)
    ensures !h.obj[k.a].pending ==>
      Pick(h, k) in Picked(h, k).obj && Pick(h, k) !in loose && Ready(h, GetLeaf(h, k), k, Pick(h, k), Picked(h, k).obj[Pick(h, k)])
      && Spare(GetLeaf(h, k), Pick(h, k))
  {
    hide Spare, Inv, Locked, Picked, Pick, PicksFrom, Listed, Ready, GetInner, Good, Grows, NeedsInner;
    if h.obj[k.a].pending {
      GrowsSelf(h, h.known + loose + {ROOT}, k);
    } else {
      PickedFrom(h, k, loose);
      PickedFacts(h, Picked(h, k), k, Pick(h, k));
      GetLeafIs(h, k);
      hide GetLeaf;
      if NeedsInner(h, k) {
        LeafNested(h, k, loose);
      } else {
        LeafListed(h, k, loose);
      }
    }
  }

  // --- Creating attributes objects -------------------------------------------------------------------------

  /** The caches of a recycled attributes object get new revisions. */
  function Bumped(h: Heap, x: Id): Heap {
    h.(revs := h.revs[Key(x, A) := Rev(h, Key(x, A)) + 1][Key(x, M) := Rev(h, Key(x, M)) + 1][Key(x, C) := Rev(h, Key(x, C)) + 1])
  }

  /** The mutexes and condition variables cached for a former life are destroyed. */
  function Emptied(h: Heap, x: Id): Heap {
    var f := Flush(h, Key(x, C), false, |Q(h, Key(x, C))|);
    Flush(f, Key(x, M), false, |Q(f, Key(x, M))|)
  }

  /** Creates an attributes object. */
  function GetAttr(h: Heap, a: Id): Heap
    requires a in h.obj
  {
    var m, x := Picked(h, Key(a, A)), Pick(h, Key(a, A));
    if h.obj[a].pending || x !in m.obj then h
    else if x in h.obj then
      var f := Emptied(Bumped(m, x), x);
      if x in f.obj && f.obj[x].parent in f.obj then Listed(f, x, Fast, f.obj[x].mutex) else f
    else if a in m.obj then
      var n, i := GetLeaf(m, Key(a, M)), Pick(m, Key(a, M));
      if x in n.obj && n.obj[x].parent in n.obj then Listed(n, x, Fast, i) else n
    else m
  }

  /** The caches are within their high-water marks. */
  ghost predicate Bounded(h: Heap) {
    forall k: Key {:trigger Q(h, k)} :: Q(h, k) == [] || |Q(h, k)| <= Max(h, k.t)
  }

  /** What every call keeps. */
  ghost predicate Steady(h: Heap, r: Heap) {
    (Settled(h) ==> Settled(r)) && StaysStranded(h, r) && StaysBarren(h, r) && (Bounded(h) ==> Bounded(r))
  }

  lemma SteadyTwice(a: Heap, b: Heap, c: Heap)
    requires Steady(a, b) && Steady(b, c) && forall x :: x in a.known && x in c.known ==> x in b.known
    ensures Steady(a, c)
  {
    hide Settled, Bounded, Stranded;
  }

  lemma TameBounded(h: Heap, r: Heap)
    requires Tame(h, r) && Bounded(h)
    ensures Bounded(r)
  {
    forall k: Key ensures Q(r, k) == [] || |Q(r, k)| <= Max(r, k.t) {
      assert |Q(r, k)| <= |Q(h, k)| || |Q(r, k)| <= Max(h, k.t);
      assert Q(h, k) == [] || |Q(h, k)| <= Max(h, k.t);
    }
  }

  lemma FreedSteady(h: Heap, r: Heap)
    requires Freed(h, r)
    ensures Steady(h, r)
  {
    hide Inv, Tame, Settled, StaysStranded, StaysBarren, Bounded;
    if Bounded(h) { TameBounded(h, r); }
  }

  lemma GrowsDeleted(h: Heap, r: Heap, kept: set<Id>, k: Key)
    requires Grows(h, r, kept, k) && h.known <= kept && k.a in h.obj && !h.obj[k.a].pending
    ensures StaysStranded(h, r) && StaysBarren(h, r)
  {
    forall b | Deleted(h, b) ensures Deleted(r, b) && Q(r, Key(b, A)) == Q(h, Key(b, A)) {
      assert b != k.a && b in kept;
    }
    hide Grows;
    assert forall b :: Stranded(h, b) ==> Deleted(h, b);
  }

  lemma GrowsSteady(h: Heap, r: Heap, kept: set<Id>, k: Key, loose: set<Id>)
    requires Inv(h, loose) && Grows(h, r, kept, k) && h.known <= kept && k.a in h.obj && !h.obj[k.a].pending
    ensures Steady(h, r)
  {
    KnownObjectsBut(h, loose);
    hide Inv;
    GrowsDeleted(h, r, kept, k);
    hide Stranded, Deleted, StaysStranded, StaysBarren;
    if Settled(h) {
      forall b | b in r.known && b in r.obj && r.obj[b].typ == A && r.obj[b].pending ensures r.obj[b].refcnt > 0 {
        assert b in h.known && b in h.obj;
      }
    }
    if Bounded(h) {
      forall j: Key ensures Q(r, j) == [] || |Q(r, j)| <= Max(r, j.t) {
        assert |Q(r, j)| <= |Q(h, j)|;
        assert Q(h, j) == [] || |Q(h, j)| <= Max(h, j.t);
      }
    }
  }

  // A new attributes object

  lemma LooseLocked(m: Heap, x: Id, k: Key)
    requires x in m.obj && m.obj[x] == Blank(k)
    ensures Locked(m, {x})
  {
    BlankLock(k);
  }

  lemma FreshSuits(m: Heap, n: Heap, a: Id, x: Id, i: Id, was: Obj)
    requires Ready(m, n, Key(a, M), i, was) && Spare(n, i) && x in n.obj && n.obj[x].typ == A && n.obj[x].parent == a
    ensures Suits(n, x, Fast, i) && FreeLock(n, x, i)
  {
  }

  lemma FreshGrows(h: Heap, m: Heap, n: Heap, r: Heap, a: Id, x: Id, lock: Id)
    requires PicksFrom(h, m, Key(a, A), x) && Grows(m, n, m.known + {x} + {ROOT}, Key(a, M)) && Lists(n, r, x) && x != ROOT
    requires x in n.obj && n.obj[x].parent == a && r.obj[x] == Renewed(n.obj[x], Fast, lock).(seqn := n.seqs, rev := Rev(n, Home(n.obj[x])))
    requires forall y :: y in n.known && y !in m.known ==> y in n.obj && (n.obj[y].typ == A ==> !n.obj[y].pending) && y != x
    ensures Grows(h, r, h.known + {ROOT}, Key(a, A))
  {
    var k := Key(a, A);
    PickedFacts(h, m, k, x);
    PickGrows(h, m, k, x, h.known + {ROOT});
    RenewedType(n, r, x, Fast, lock);
    ListGrows(n, r, x, h.known + {ROOT}, k);
    GrowsWiden(m, n, m.known + {x} + {ROOT}, h.known + {ROOT}, Key(a, M), k);
    LaterListed(m, n, r, x);
    hide PicksFrom, Grows, Lists, Renewed, Rev;
    GrowsTwice(m, n, r, h.known + {ROOT}, k);
    GrowsTwice(h, m, r, h.known + {ROOT}, k);
  }

  lemma LaterListed(m: Heap, n: Heap, r: Heap, x: Id)
    requires Lists(n, r, x)
    requires forall y :: y in n.known && y !in m.known ==> y in n.obj && (n.obj[y].typ == A ==> !n.obj[y].pending) && y != x
    ensures forall y :: y in n.known && y !in m.known ==> y in r.obj && (r.obj[y].typ == A ==> !r.obj[y].pending)
  {
  }

  lemma GrowsWiden(m: Heap, n: Heap, kept: set<Id>, fewer: set<Id>, j: Key, k: Key)
    requires Grows(m, n, kept, j) && fewer <= kept && j.t != A && j.a == k.a
    ensures Grows(m, n, fewer, k)
  {
    forall i: Key ensures |Q(n, i)| <= |Q(m, i)| && (i.t == A && i != k ==> Q(n, i) == Q(m, i)) {
      assert |Q(n, i)| <= |Q(m, i)| && (i.t == A && i != j ==> Q(n, i) == Q(m, i));
    }
  }

  lemma GrownLoose(m: Heap, n: Heap, x: Id, j: Key, loose: set<Id>)
    requires Grows(m, n, m.known + {x} + {ROOT}, j) && x in m.obj && Inv(n, loose) && x in loose && x != j.a
    ensures x in n.obj && n.obj[x] == m.obj[x]
    ensures forall y :: y in n.known && y !in m.known ==> y in n.obj && (n.obj[y].typ == A ==> !n.obj[y].pending) && y != x
    ensures m.known <= n.known
  {
    CoreRoot(n, loose);
    hide Inv;
  }

  lemma FreshPicked(h: Heap, a: Id)
    requires Inv(h, {}) && a in h.obj && h.obj[a].typ == A && Pick(h, Key(a, A)) !in h.obj
    ensures var m, x := Picked(h, Key(a, A)), Pick(h, Key(a, A));
      && PicksFrom(h, m, Key(a, A), x) && Inv(m, {x}) && Locked(m, {x}) && x in m.obj && m.obj[x] == Blank(Key(a, A)) && x != a
      && m.obj[x].typ == A && m.obj[x].parent == a && m.obj[x].refcnt == 0 && a in m.obj && m.obj[a] == h.obj[a] && m.known == h.known
  {
    var m, x := Picked(h, Key(a, A)), Pick(h, Key(a, A));
    PickedFrom(h, Key(a, A), {});
    JustOne(x);
    assert m.obj[x] == Blank(Key(a, A));
    LooseLocked(m, x, Key(a, A));
  }

  /** A new attributes object x of a, on its way, with lock i. */
  ghost predicate Equipped(m: Heap, n: Heap, a: Id, x: Id, i: Id) {
    && a in m.obj && x in m.obj && x in n.obj && n.obj[x] == m.obj[x] && Inv(n, {x}) && m.known <= n.known
    && Grows(m, n, m.known + {x} + {ROOT}, Key(a, M)) && Suits(n, x, Fast, i) && FreeLock(n, x, i)
    && n.obj[x].typ == A && n.obj[x].parent == a && n.obj[x].refcnt == 0
  }

  lemma LockEquips(m: Heap, a: Id, x: Id)
    requires Inv(m, {x}) && Locked(m, {x}) && a in m.obj && m.obj[a].typ == A && !m.obj[a].pending && (a == ROOT || a in m.known)
    requires x in m.obj && m.obj[x].typ == A && m.obj[x].parent == a && m.obj[x].refcnt == 0 && x != a
    ensures Equipped(m, GetLeaf(m, Key(a, M)), a, x, Pick(m, Key(a, M)))
  {
    var n, i := GetLeaf(m, Key(a, M)), Pick(m, Key(a, M));
    hide Inv, Locked, Picked, Pick, Ready, GetLeaf, Grows, Suits, FreeLock, Spare;
    GetLeafKeeps(m, Key(a, M), {x});
    GrownLoose(m, n, x, Key(a, M), {x});
    FreshSuits(m, n, a, x, i, Picked(m, Key(a, M)).obj[i]);
  }

  lemma FreshIs(h: Heap, a: Id)
    requires a in h.obj && !h.obj[a].pending && Pick(h, Key(a, A)) !in h.obj && Pick(h, Key(a, A)) in Picked(h, Key(a, A)).obj
    ensures var m, x := Picked(h, Key(a, A)), Pick(h, Key(a, A));
      a in m.obj ==> var n := GetLeaf(m, Key(a, M));
        x in n.obj && n.obj[x].parent in n.obj ==> GetAttr(h, a) == Listed(n, x, Fast, Pick(m, Key(a, M)))
  {
    hide Picked, Pick, GetLeaf, Listed;
  }

  /** A new attributes object with a lock of its own. */
  lemma FreshKeeps(h: Heap, a: Id)
    requires Inv(h, {}) && a in h.obj && h.obj[a].typ == A && !h.obj[a].pending && (a == ROOT || a in h.known)
    requires Pick(h, Key(a, A)) !in h.obj
    ensures Inv(GetAttr(h, a), {}) && Steady(h, GetAttr(h, a)) && NewAttr(h, GetAttr(h, a), a, Pick(h, Key(a, A)))
  {
    var m, x := Picked(h, Key(a, A)), Pick(h, Key(a, A));
    hide Inv, Locked, Blank, Picked, Pick, PicksFrom, GetLeaf, Equipped, Steady, NewAttr, GetAttr, Listed;
    FreshPicked(h, a);
    PickedFacts(h, m, Key(a, A), x);
    FreshIs(h, a);
    LockEquips(m, a, x);
    FreshListed(h, m, GetLeaf(m, Key(a, M)), a, x, Pick(m, Key(a, M)));
  }

  lemma FreshListed(h: Heap, m: Heap, n: Heap, a: Id, x: Id, i: Id)
    requires Inv(h, {}) && a in h.obj && !h.obj[a].pending && PicksFrom(h, m, Key(a, A), x) && x !in h.obj && x != ROOT && x != a
    requires Equipped(m, n, a, x, i) && m.known == h.known && (a == ROOT || a in h.known)
    ensures a in m.obj && x in n.obj && n.obj[x].parent in n.obj
    ensures var r := Listed(n, x, Fast, i); Inv(r, {}) && Steady(h, r) && NewAttr(h, r, a, x)
  {
    hide Inv, PicksFrom, Listed, Grows, Lists, Suits, FreeLock, Renewed, Steady, NewAttr;
    GrownLoose(m, n, x, Key(a, M), {x});
    ListedKeeps(n, x, Fast, i, {x});
    JustOne(x);
    var r := Listed(n, x, Fast, i);
    SeqsPositive(n, {x});
    FreshGrows(h, m, n, r, a, x, i);
    hide Equipped;
    GrowsSteady(h, r, h.known + {ROOT}, Key(a, A), {});
    FreshNew(h, m, n, r, a, x, i);
  }

  /** What a new attributes object is like. */
  ghost predicate NewAttr(h: Heap, r: Heap, a: Id, x: Id) {
    && x in r.known && x !in h.known && x in r.obj && Home(r.obj[x]) == Key(a, A) && r.obj[x].seqn != 0
    && r.obj[x].kind == Fast && !r.obj[x].pending && r.obj[x].refcnt == 0
    && Q(r, Key(x, M)) == [] && Q(r, Key(x, C)) == [] && Q(r, Key(x, A)) == []
  }

  lemma FreshNew(h: Heap, m: Heap, n: Heap, r: Heap, a: Id, x: Id, lock: Id)
    requires Inv(h, {}) && PicksFrom(h, m, Key(a, A), x) && x !in h.obj && Lists(n, r, x) && n.obj[x] == m.obj[x] && Grows(h, r, h.known + {ROOT}, Key(a, A))
    requires x in n.obj && r.obj[x] == Renewed(n.obj[x], Fast, lock).(seqn := n.seqs, rev := Rev(n, Home(n.obj[x]))) && n.seqs > 0
    ensures NewAttr(h, r, a, x)
  {
    forall t: Typ ensures Q(r, Key(x, t)) == [] {
      assert |Q(r, Key(x, t))| <= |Q(h, Key(x, t))|;
      NoCacheYet(h, x, t);
    }
    hide Inv;
  }

  lemma NoCacheYet(h: Heap, x: Id, t: Typ)
    requires Inv(h, {}) && x !in h.obj
    ensures Q(h, Key(x, t)) == []
  {
    if Q(h, Key(x, t)) != [] {
      var y := Q(h, Key(x, t))[0];
      assert y in Q(h, Key(x, t));
      InvCached(h, {}, Key(x, t), y);
    }
  }

  // A recycled attributes object

  lemma BumpedKeeps(m: Heap, x: Id, loose: set<Id>)
    requires Inv(m, loose) && x in loose && x in m.obj && x != ROOT
    ensures Inv(Bumped(m, x), loose)
  {
    var g := Bumped(m, x);
    assert m.obj[x := m.obj[x]] == m.obj;
    assert Rewritten(m, g, x);
    hide Inv, Bumped;
    SameLock(m, g, x);
    RewriteInv(m, g, x, loose);
  }

  lemma BumpedSame(m: Heap, x: Id)
    ensures var g := Bumped(m, x);
      g.obj == m.obj && g.known == m.known && g.queue == m.queue && g.count == m.count && g.lim == m.lim && g.held == m.held && g.seqs == m.seqs
    ensures forall j: Key :: Q(Bumped(m, x), j) == Q(m, j)
    ensures forall t: Typ :: Rev(Bumped(m, x), Key(x, t)) == Rev(m, Key(x, t)) + 1
    ensures forall j: Key :: j.a != x ==> Rev(Bumped(m, x), j) == Rev(m, j)
  {
    forall t: Typ ensures Rev(Bumped(m, x), Key(x, t)) == Rev(m, Key(x, t)) + 1 {
      match t case A => case M => case C =>
    }
  }

  lemma EmptiedParts(g: Heap, x: Id)
    requires Inv(g, {x}) && x in g.obj && g.obj[x].typ == A
    ensures var kc, km := Key(x, C), Key(x, M); var e := Flush(g, kc, false, |Q(g, kc)|);
      && Inv(e, {x}) && Shrinks(g, e, kc) && Shrinks(e, Emptied(g, x), km) && Inv(Emptied(g, x), {x})
      && Emptied(g, x).held == g.held && Q(e, kc) == [] && Q(Emptied(g, x), km) == []
  {
    ParentOf(g, {x}, x);
    var kc, km := Key(x, C), Key(x, M);
    hide Inv, Shrinks, Flush, AnyNested;
    FlushKeeps(g, kc, false, |Q(g, kc)|, {x});
    var e := Flush(g, kc, false, |Q(g, kc)|);
    FlushKeeps(e, km, false, |Q(e, km)|, {x});
  }

  lemma EmptiedFirms(g: Heap, e: Heap, f: Heap, x: Id)
    requires Inv(g, {x}) && Inv(e, {x}) && Shrinks(g, e, Key(x, C)) && Shrinks(e, f, Key(x, M))
    ensures FirmApart(g, f, {x})
  {
    hide Inv, Shrinks, Firm, Untouched;
    forall y | Firm(g, {x}, y) ensures Untouched(g, f, y) && Firm(f, {x}, y) { FlushedFirm(g, e, f, x, {x}, y); }
  }

  lemma EmptiedLists(g: Heap, e: Heap, f: Heap, x: Id)
    requires Shrinks(g, e, Key(x, C)) && Shrinks(e, f, Key(x, M))
    ensures ListsApart(g, f) && (x != ROOT ==> Q(f, Key(x, C)) == Q(e, Key(x, C)))
  {
    hide Shrinks;
    ShrinksSame(g, e, Key(x, C));
    ShrinksSame(e, f, Key(x, M));
  }

  lemma EmptiedKeeps(g: Heap, x: Id)
    requires Inv(g, {x}) && x in g.obj && g.obj[x].typ == A
    ensures var f := Emptied(g, x);
      && Inv(f, {x}) && FirmApart(g, f, {x}) && ListsApart(g, f) && f.held == g.held
      && Q(f, Key(x, C)) == [] && Q(f, Key(x, M)) == []
  {
    ParentOf(g, {x}, x);
    EmptiedParts(g, x);
    hide Inv, Shrinks, Flush, Emptied, FirmApart, ListsApart;
    var e := Flush(g, Key(x, C), false, |Q(g, Key(x, C))|);
    EmptiedFirms(g, e, Emptied(g, x), x);
    EmptiedLists(g, e, Emptied(g, x), x);
  }

  lemma EmptiedTame(g: Heap, x: Id)
    requires Counted(g)
    ensures Counted(Emptied(g, x)) && Tame(g, Emptied(g, x))
  {
    hide Tame, Counted, Flush;
    var e := Flush(g, Key(x, C), false, |Q(g, Key(x, C))|);
    FlushTame(g, Key(x, C), false, |Q(g, Key(x, C))|);
    FlushTame(e, Key(x, M), false, |Q(e, Key(x, M))|);
    TameTwice(g, e, Emptied(g, x));
  }

  lemma EmptiedSteady(g: Heap, f: Heap, x: Id)
    requires Inv(g, {x}) && FirmApart(g, f, {x}) && ListsApart(g, f) && Tame(g, f)
    ensures Steady(g, f)
  {
    CoreRoot(g, {x});
    KnownObjectsBut(g, {x});
    hide Inv;
    if Bounded(g) { TameBounded(g, f); }
    hide Tame, Bounded;
    forall b | Stranded(g, b) ensures Stranded(f, b) {
      assert Firm(g, {x}, b);
      assert Untouched(g, f, b);
    }
    forall b | Deleted(g, b) ensures Deleted(f, b) && (Stranded(f, b) ==> Stranded(g, b)) {
      assert Firm(g, {x}, b);
      assert Untouched(g, f, b);
    }
    if Settled(g) { EmptiedSettled(g, f, x); }
  }

  lemma EmptiedSettled(g: Heap, f: Heap, x: Id)
    requires Settled(g) && FirmApart(g, f, {x}) && ListsApart(g, f) && Tame(g, f) && ROOT !in g.known
    requires forall y :: y in g.known ==> y in g.obj
    ensures Settled(f)
  {
    forall b | b in f.known && b in f.obj && f.obj[b].typ == A && f.obj[b].pending ensures f.obj[b].refcnt > 0 {
      assert b in g.known && g.obj[b].typ == A;
      assert Firm(g, {x}, b);
      assert Untouched(g, f, b);
    }
  }

  lemma KnownObjectsBut(h: Heap, loose: set<Id>)
    requires Inv(h, loose)
    ensures forall y :: y in h.known ==> y in h.obj
  {
  }

  lemma BumpedSteady(m: Heap, x: Id)
    ensures Steady(m, Bumped(m, x))
  {
    BumpedSame(m, x);
    hide Bumped;
  }

  lemma EmptiedReady(g: Heap, f: Heap, x: Id, a: Id)
    requires Inv(g, {x}) && x in g.obj && g.obj[x].typ == A && Good(g, x) && g.obj[x].parent == a && (a == ROOT || a in g.known)
    requires Inv(f, {x}) && FirmApart(g, f, {x})
    ensures x in f.obj && f.obj[x] == g.obj[x] && Suits(f, x, Fast, f.obj[x].mutex) && FreeLock(f, x, f.obj[x].mutex)
    ensures a == ROOT || a in f.known
  {
    ParentOf(g, {x}, x);
    AttrLockFirm(g, x, {x});
    assert Untouched(g, f, x) && Untouched(g, f, g.obj[x].mutex);
    if a != ROOT {
      ParentFirm(g, {x}, x);
      assert Untouched(g, f, a);
    }
    CoreRoot(g, {x});
    assert Single(f) && LockOf(f.obj[x]) == f.obj[x].mutex;
    hide Inv, Firm;
  }

  /** The picked attributes object, with new revisions. */
  lemma RecycledPicked(h: Heap, a: Id)
    requires Inv(h, {}) && a in h.obj && h.obj[a].typ == A && !h.obj[a].pending && (a == ROOT || a in h.known)
    requires Pick(h, Key(a, A)) in h.obj
    ensures var m, x := Picked(h, Key(a, A)), Pick(h, Key(a, A)); var g := Bumped(m, x);
      && PicksFrom(h, m, Key(a, A), x) && x in g.obj && g.obj == h.obj && g.known == h.known && Inv(g, {x}) && Good(g, x)
      && g.obj[x].typ == A && g.obj[x].parent == a && g.obj[x].refcnt == 0 && x != ROOT && x != a && Steady(h, g)
  {
    var k := Key(a, A);
    var m, x := Picked(h, k), Pick(h, k);
    RecycledOld(h, k);
    PickedFrom(h, k, {});
    PickedFacts(h, m, k, x);
    JustOne(x);
    BumpedSame(m, x);
    AgeDiffers(h, x, {});
    hide Inv, Good, Picked, Pick, Bumped, PicksFrom, Steady, Grows;
    BumpedKeeps(m, x, {x});
    GoodUnshelved(h, Bumped(m, x), x);
    PickGrows(h, m, k, x, h.known);
    GrowsSteady(h, m, h.known, k, {});
    BumpedSteady(m, x);
    SteadyTwice(h, m, Bumped(m, x));
  }

  lemma RecycledOld(h: Heap, k: Key)
    requires Inv(h, {}) && Pick(h, k) in h.obj
    ensures Q(h, k) != [] && Picked(h, k).obj == h.obj
  {
  }

  lemma RecycledEmpty(h: Heap, m: Heap, f: Heap, a: Id, x: Id)
    requires Inv(h, {}) && PicksFrom(h, m, Key(a, A), x) && x in h.obj && x != a && h.obj[x].refcnt == 0 && h.obj[x].typ == A
    requires ListsApart(Bumped(m, x), f)
    ensures Q(f, Key(x, A)) == []
  {
    CachedAttrsRefer(h, x, {});
    assert Q(m, Key(x, A)) == Q(h, Key(x, A));
    BumpedSame(m, x);
    hide Inv, Bumped, PicksFrom;
    assert Q(f, Key(x, A)) == Q(Bumped(m, x), Key(x, A));
  }

  lemma RecycledNew(h: Heap, m: Heap, f: Heap, r: Heap, a: Id, x: Id)
    requires PicksFrom(h, m, Key(a, A), x) && x in h.obj && Q(f, Key(x, A)) == []
    requires Q(f, Key(x, C)) == [] && Q(f, Key(x, M)) == [] && Lists(f, r, x) && f.obj[x] == h.obj[x]
    requires r.obj[x] == Renewed(f.obj[x], Fast, f.obj[x].mutex).(seqn := f.seqs, rev := Rev(f, Home(f.obj[x]))) && f.seqs > 0
    ensures NewAttr(h, r, a, x)
  {
    PickedKnown(h, m, a, x);
    assert Home(m.obj[x]) == Key(a, A) && m.obj[x] == h.obj[x];
    hide PicksFrom;
    assert forall j: Key :: Q(r, j) == Q(f, j);
  }

  lemma PickedKnown(h: Heap, m: Heap, a: Id, x: Id)
    requires PicksFrom(h, m, Key(a, A), x)
    ensures x !in h.known
  {
  }

  /** A recycled attributes object has lost what was cached for its former life. */
  lemma RecycledKeeps(h: Heap, a: Id)
    requires Inv(h, {}) && a in h.obj && h.obj[a].typ == A && !h.obj[a].pending && (a == ROOT || a in h.known)
    requires Pick(h, Key(a, A)) in h.obj
    ensures var m, x := Picked(h, Key(a, A)), Pick(h, Key(a, A)); var f := Emptied(Bumped(m, x), x);
      && x in f.obj && f.obj[x].parent in f.obj
      && var r := Listed(f, x, Fast, f.obj[x].mutex); Inv(r, {}) && Steady(h, r) && NewAttr(h, r, a, x)
  {
    var k := Key(a, A);
    var m, x := Picked(h, k), Pick(h, k);
    var g := Bumped(m, x);
    RecycledPicked(h, a);
    hide Inv, Good, Picked, Pick, Bumped, PicksFrom, Steady, Grows, Emptied, FirmApart, ListsApart, Tame, Counted, Suits, FreeLock, Lists, Listed, Renewed, NewAttr;
    EmptiedKeeps(g, x);
    var f := Emptied(g, x);
    InvIsCounted(g, {x});
    EmptiedTame(g, x);
    EmptiedSteady(g, f, x);
    EmptiedReady(g, f, x, a);
    ListedKeeps(f, x, Fast, f.obj[x].mutex, {x});
    JustOne(x);
    var r := Listed(f, x, Fast, f.obj[x].mutex);
    SeqsPositive(f, {x});
    RecycledEmpty(h, m, f, a, x);
    RecycledNew(h, m, f, r, a, x);
    PickedKnown(h, m, a, x);
    RecycledSteady(h, g, f, r, a, x);
  }

  lemma ListedKnown(f: Heap, r: Heap, x: Id)
    requires Lists(f, r, x)
    ensures forall y :: y in r.known && y != x ==> y in f.known
  {
  }

  lemma RecycledSteady(h: Heap, g: Heap, f: Heap, r: Heap, a: Id, x: Id)
    requires Inv(f, {x}) && Steady(h, g) && Steady(g, f) && h.known == g.known && x !in h.known && Lists(f, r, x) && x in f.obj && f.obj[x].parent == a
    requires r.obj[x] == Renewed(f.obj[x], Fast, f.obj[x].mutex).(seqn := f.seqs, rev := Rev(f, Home(f.obj[x])))
    requires a in g.obj && !g.obj[a].pending && g.obj[a].typ == A && FirmApart(g, f, {x})
    ensures Steady(h, r)
  {
    CoreRoot(f, {x});
    InnerRoot(f, {x});
    ParentOf(f, {x}, x);
    RenewedType(f, r, x, Fast, f.obj[x].mutex);
    if a != ROOT { assert Firm(g, {x}, a); assert Untouched(g, f, a); }
    hide Inv, Steady, Lists, Grows, Renewed, FirmApart;
    ListGrows(f, r, x, f.known, Key(a, A));
    GrowsSteady(f, r, f.known, Key(a, A), {x});
    ListedKnown(f, r, x);
    SteadyTwice(h, g, f);
    SteadyTwice(h, f, r);
  }

  /** A request for an attributes object is served with one that has the default settings,
      nothing cached and a lock of its own, unless its parent is marked as deleted. */
  lemma GetAttrKeeps(h: Heap, a: Id)
    requires Inv(h, {}) && a in h.obj && h.obj[a].typ == A && (a == ROOT || a in h.known)
    ensures Inv(GetAttr(h, a), {}) && Steady(h, GetAttr(h, a))
    ensures if h.obj[a].pending then GetAttr(h, a) == h else NewAttr(h, GetAttr(h, a), a, Pick(h, Key(a, A)))
  {
    hide Inv, Picked, Pick, Bumped, Emptied, Listed, GetLeaf, NewAttr, Steady, Good;
    if h.obj[a].pending {
      SteadySelf(h);
    } else {
      GetAttrPicks(h, a);
      if Pick(h, Key(a, A)) in h.obj { RecycledKeeps(h, a); } else { FreshKeeps(h, a); }
    }
  }

  lemma SteadySelf(h: Heap)
    ensures Steady(h, h)
  {
  }

  lemma GetAttrPicks(h: Heap, a: Id)
    requires Inv(h, {}) && a in h.obj && h.obj[a].typ == A
    ensures Pick(h, Key(a, A)) in Picked(h, Key(a, A)).obj && a in Picked(h, Key(a, A)).obj
  {
    hide Inv, Picked, Pick;
    PickedFrom(h, Key(a, A), {});
  }

  // --- Settings and use ---------------------------------------------------------------------------------

  /** Changes the kind of mutex an attributes object gives: mutexes made before will not go
      to its cache any more, but those already there stay. */
  function SetKind(h: Heap, a: Id, kind: Kind): Heap
    requires a in h.obj
  {
    h.(obj := h.obj[a := h.obj[a].(kind := kind)], revs := h.revs[Key(a, M) := Rev(h, Key(a, M)) + 1])
  }

  /** Whatever threads do with a mutex. */
  function Used(h: Heap, x: Id, bits: Bits): Heap
    requires x in h.obj
  {
    h.(obj := h.obj[x := h.obj[x].(bits := bits)])
  }

  lemma SetKindRewrites(h: Heap, a: Id, kind: Kind)
    requires a in h.obj && h.obj[a].typ == A
    ensures var r := SetKind(h, a, kind);
      a in r.obj && Rewritten(h, r, a) && NewLock(h, r, a) && r.obj[a].mutex == h.obj[a].mutex
  {
    SameLock(h, SetKind(h, a, kind), a);
    hide NewLock;
  }

  lemma SetKindInv(h: Heap, a: Id, kind: Kind)
    requires Inv(h, {}) && a in h.known && a in h.obj && h.obj[a].typ == A
    ensures Inv(SetKind(h, a, kind), {})
  {
    CoreRoot(h, {});
    InvGood(h, a, {});
    SetKindRewrites(h, a, kind);
    hide Inv, Good, NewLock, Rewritten, SetKind;
    AttrStaysGood(h, SetKind(h, a, kind), a);
    RewriteInv(h, SetKind(h, a, kind), a, {});
  }

  lemma UsedGood(h: Heap, x: Id, bits: Bits)
    requires x in h.obj && x in h.known && h.obj[x].typ == M && Good(h, x)
    ensures Good(Used(h, x, bits), x) && NewLock(h, Used(h, x, bits), x)
  {
  }

  lemma UsedInv(h: Heap, x: Id, bits: Bits)
    requires Inv(h, {}) && x in h.known && x in h.obj && h.obj[x].typ == M
    ensures Inv(Used(h, x, bits), {})
  {
    var r := Used(h, x, bits);
    CoreRoot(h, {});
    InvGood(h, x, {});
    UsedGood(h, x, bits);
    assert Rewritten(h, r, x);
    hide Inv, Good, NewLock, Rewritten;
    RewriteInv(h, r, x, {});
  }

  lemma ResetSteady(h: Heap, r: Heap)
    requires r.known == h.known && r.queue == h.queue && r.lim == h.lim && r.obj.Keys == h.obj.Keys
    requires forall y :: y in h.obj ==> r.obj[y].typ == h.obj[y].typ && r.obj[y].pending == h.obj[y].pending && r.obj[y].refcnt == h.obj[y].refcnt
    ensures Steady(h, r)
  {
    assert forall j: Key :: Q(r, j) == Q(h, j);
    assert Bounded(h) ==> Bounded(r);
    assert StaysStranded(h, r) && StaysBarren(h, r);
  }

  // --- Runs ------------------------------------------------------------------------------------------------

  /** What a client can ask for: objects to be created and deleted, a new kind, and any
      use of a mutex.  Creation may name an attributes object that has been marked as
      deleted since the client's handle was checked. */
  datatype Act = CreateAttr(a: Id) | CreateLeaf(k: Key) | DeleteAttr(a: Id) | DeleteLeaf(x: Id)
               | ChangeKind(a: Id, kind: Kind) | Use(x: Id, bits: Bits)

  ghost predicate IsAttr(h: Heap, a: Id) {
    a in h.obj && h.obj[a].typ == A && (a == ROOT || a in h.known)
  }

  /** A mutex or condition variable that clients have a handle to: not a lock of the library's own. */
  ghost predicate IsClients(h: Heap, x: Id) {
    x in h.known && x in h.obj && h.obj[x].typ != A && Unused(h, x, {}) && (ROOT in h.obj ==> x != h.obj[ROOT].mutex)
  }

  /** One call; one that names no proper object is refused. */
  ghost function Step(h: Heap, act: Act): Heap {
    match act
    case CreateAttr(a) => if IsAttr(h, a) then GetAttr(h, a) else h
    case CreateLeaf(k) => if IsAttr(h, k.a) && k.t != A then GetLeaf(h, k) else h
    case DeleteAttr(a) => if IsAttr(h, a) && a != ROOT && h.obj[a].seqn != 0 then FreeAttr(h, a) else h
    case DeleteLeaf(x) =>
      if IsClients(h, x) && h.obj[x].parent in h.obj && h.obj[x].parent != x then FreeLeaf(h, x) else h
    case ChangeKind(a, kind) => if IsAttr(h, a) && a != ROOT && h.obj[a].seqn != 0 then SetKind(h, a, kind) else h
    case Use(x, bits) => if x in h.known && x in h.obj && h.obj[x].typ == M then Used(h, x, bits) else h
  }

  ghost function Run(h: Heap, acts: seq<Act>): Heap
    decreases |acts|
  {
    if acts == [] then h else Run(Step(h, acts[0]), acts[1..])
  }

  ghost predicate InOrder(h: Heap) {
    Inv(h, {}) && Settled(h) && Bounded(h)
  }

  lemma CreateKeeps(h: Heap, act: Act)
    requires InOrder(h) && (act.CreateAttr? || act.CreateLeaf?)
    ensures InOrder(Step(h, act)) && StaysStranded(h, Step(h, act)) && StaysBarren(h, Step(h, act))
  {
    hide Inv, Settled, Bounded, GetAttr, GetLeaf, StaysStranded, StaysBarren, Locked, NewAttr, Grows, Ready, Picked, Pick, Spare;
    SteadySelf(h);
    match act
    case CreateAttr(a) => if IsAttr(h, a) { GetAttrKeeps(h, a); }
    case CreateLeaf(k) =>
      if IsAttr(h, k.a) && k.t != A { LeafSteady(h, k); }
  }

  lemma LeafSteady(h: Heap, k: Key)
    requires Inv(h, {}) && IsAttr(h, k.a) && k.t != A
    ensures Inv(GetLeaf(h, k), {}) && Steady(h, GetLeaf(h, k))
  {
    assert Locked(h, {});
    hide Inv, Steady, GetLeaf, Locked, Grows, Ready, Picked, Pick, Spare;
    GetLeafKeeps(h, k, {});
    if h.obj[k.a].pending {
      PendingRefuses(h, k);
      SteadySelf(h);
    } else {
      GrowsSteady(h, GetLeaf(h, k), h.known + {} + {ROOT}, k, {});
    }
  }

  lemma PendingRefuses(h: Heap, k: Key)
    requires k.a in h.obj && h.obj[k.a].pending
    ensures GetLeaf(h, k) == h
  {
  }

  lemma DeleteKeeps(h: Heap, act: Act)
    requires InOrder(h) && (act.DeleteAttr? || act.DeleteLeaf?)
    ensures InOrder(Step(h, act)) && StaysStranded(h, Step(h, act)) && StaysBarren(h, Step(h, act))
  {
    SteadySelf(h);
    hide Inv, Settled, Bounded, FreeAttr, FreeLeaf, StaysStranded, StaysBarren, Unused, Freed;
    match act
    case DeleteAttr(a) =>
      if IsAttr(h, a) && a != ROOT && h.obj[a].seqn != 0 {
        SettledIsBut(h, a);
        FreeAttrKeeps(h, a);
        FreedSteady(h, FreeAttr(h, a));
        FreedInv(h, FreeAttr(h, a));
      }
    case DeleteLeaf(x) =>
      if IsClients(h, x) {
        FreeLeafKeeps(h, x);
        FreedSteady(h, FreeLeaf(h, x));
        FreedInv(h, FreeLeaf(h, x));
      }
  }

  lemma SettledIsBut(h: Heap, a: Id)
    requires Settled(h)
    ensures SettledBut(h, a)
  {
  }

  lemma FreedInv(h: Heap, r: Heap)
    requires Freed(h, r)
    ensures Inv(r, {})
  {
  }

  lemma SettingKeeps(h: Heap, act: Act)
    requires InOrder(h) && (act.ChangeKind? || act.Use?)
    ensures InOrder(Step(h, act)) && StaysStranded(h, Step(h, act)) && StaysBarren(h, Step(h, act))
  {
    SteadySelf(h);
    hide Inv, Settled, Bounded, StaysStranded, StaysBarren;
    match act
    case ChangeKind(a, kind) =>
      if IsAttr(h, a) && a != ROOT && h.obj[a].seqn != 0 {
        SetKindInv(h, a, kind);
        ResetSteady(h, SetKind(h, a, kind));
      }
    case Use(x, bits) =>
      if x in h.known && x in h.obj && h.obj[x].typ == M {
        UsedInv(h, x, bits);
        ResetSteady(h, Used(h, x, bits));
      }
  }

  lemma StepKeeps(h: Heap, act: Act)
    requires InOrder(h)
    ensures InOrder(Step(h, act)) && StaysStranded(h, Step(h, act)) && StaysBarren(h, Step(h, act))
  {
    hide InOrder, StaysStranded, StaysBarren, Step;
    match act
    case CreateAttr(_) => CreateKeeps(h, act);
    case CreateLeaf(_) => CreateKeeps(h, act);
    case DeleteAttr(_) => DeleteKeeps(h, act);
    case DeleteLeaf(_) => DeleteKeeps(h, act);
    case ChangeKind(_, _) => SettingKeeps(h, act);
    case Use(_, _) => SettingKeeps(h, act);
  }

  lemma {:induction false} RunKeeps(h: Heap, acts: seq<Act>)
    requires InOrder(h)
    ensures InOrder(Run(h, acts)) && StaysStranded(h, Run(h, acts))
    decreases |acts|
  {
    hide InOrder, Step;
    if acts == [] {
    } else {
      StepKeeps(h, acts[0]);
      RunKeeps(Step(h, acts[0]), acts[1..]);
    }
  }

  // --- Start --------------------------------------------------------------------------------------------------

  function FirstLock(seqn: nat): Obj {
    Obj(M, ROOT, seqn, 0, Fast, ROOT, ROOT, 0, false, Initial(Fast, SCRAP))
  }

  /** After initialisation: the default attributes object, its lock, and the locks of the
      sequence counter and of the list of known attributes objects. */
  function Start(lim: Limits): Heap {
    Heap(map[ROOT := Obj(A, ROOT, 1, 0, Fast, ROOT, 1, 3, false, SCRAP), 1 := FirstLock(2), 2 := FirstLock(3), 3 := FirstLock(4)],
         map[], map[], map[], {1, 2, 3}, 4, 5, lim, false)
  }

  lemma StartTree(lim: Limits)
    ensures Tree(Start(lim)) && Numbered(Start(lim))
  {
  }

  lemma StartPlaced(lim: Limits)
    ensures var h := Start(lim); Placed(h, {}) && Counted(h) && Bounded(h)
  {
    assert forall k: Key :: Q(Start(lim), k) == [] && Cnt(Start(lim), k) == 0;
  }

  lemma StartReferred(lim: Limits)
    ensures Referred(Start(lim))
  {
    var h := Start(lim);
    forall a | a in h.obj && h.obj[a].typ == A ensures h.obj[a].refcnt == |Kids(h, a)| {
      assert a == ROOT;
      assert Kids(h, ROOT) == {1, 2, 3};
    }
  }

  lemma StartLinks(lim: Limits)
    ensures Links(Start(lim), {}) && Settled(Start(lim))
  {
  }

  lemma StartSound(lim: Limits)
    ensures InOrder(Start(lim))
  {
    hide Start, Links, Tree, Placed, Counted, Numbered, Referred, Settled, Bounded;
    StartTree(lim);
    StartPlaced(lim);
    StartReferred(lim);
    StartLinks(lim);
  }

  // --- Theorems -------------------------------------------------------------------------------------------------

  /** Every attributes object counts exactly the known objects made from it. */
  ghost predicate CountsKids(h: Heap) {
    forall a :: a in h.obj && h.obj[a].typ == A ==> h.obj[a].refcnt == |Kids(h, a)|
  }

  /** What an object in use was made from is in use too: neither cached nor destroyed. */
  ghost predicate ParentsOutlive(h: Heap) {
    forall x :: x in h.known ==>
      x in h.obj && h.obj[x].parent in h.obj && h.obj[h.obj[x].parent].typ == A
      && (h.obj[x].parent == ROOT || h.obj[x].parent in h.known)
  }

  /** Each cache holds as many objects as it counts, within its high-water mark; they are
      of its type and parent, invalid, unlisted, and in no other place. */
  ghost predicate CachesAreInOrder(h: Heap) {
    forall k: Key {:trigger Q(h, k)} ::
      && Cnt(h, k) == |Q(h, k)| && NoDup(Q(h, k)) && (Q(h, k) == [] || Cnt(h, k) <= Max(h, k.t))
      && forall x :: x in Q(h, k) ==> x in h.obj && Home(h.obj[x]) == k && h.obj[x].seqn == 0 && x !in h.known
  }

  lemma SoundCache(h: Heap, k: Key)
    requires InOrder(h)
    ensures Cnt(h, k) == |Q(h, k)| && NoDup(Q(h, k)) && (Q(h, k) == [] || Cnt(h, k) <= Max(h, k.t))
    ensures forall x :: x in Q(h, k) ==> x in h.obj && Home(h.obj[x]) == k && h.obj[x].seqn == 0 && x !in h.known
  {
    hide Inv, Settled, NoDup;
    InvCounted(h, {}, k);
    forall x | x in Q(h, k) ensures x in h.obj && Home(h.obj[x]) == k && h.obj[x].seqn == 0 && x !in h.known {
      InvCached(h, {}, k, x);
      CachedInvalid(h, x);
    }
  }

  lemma SoundCaches(h: Heap)
    requires InOrder(h)
    ensures CachesAreInOrder(h)
  {
    hide InOrder, NoDup;
    forall k: Key
      ensures Cnt(h, k) == |Q(h, k)| && NoDup(Q(h, k)) && (Q(h, k) == [] || Cnt(h, k) <= Max(h, k.t))
      ensures forall x :: x in Q(h, k) ==> x in h.obj && Home(h.obj[x]) == k && h.obj[x].seqn == 0 && x !in h.known
    {
      SoundCache(h, k);
    }
  }

  lemma CachedInvalid(h: Heap, x: Id)
    requires Inv(h, {}) && x in h.obj && x != ROOT && x !in h.known
    ensures h.obj[x].seqn == 0
  {
  }

  lemma InvCounts(h: Heap)
    requires Inv(h, {})
    ensures CountsKids(h)
  {
  }

  /** However clients create, use, change and delete objects: reference counts count, parents
      outlive their objects, caches are in order, and an attributes object that has been
      deleted is still there only while something refers to it. */
  lemma EveryRunKeepsTheBooks(lim: Limits, acts: seq<Act>)
    ensures var h := Run(Start(lim), acts);
      CountsKids(h) && ParentsOutlive(h) && CachesAreInOrder(h) && Settled(h)
  {
    StartSound(lim);
    hide Start, Run, Inv, Settled, Bounded, CountsKids, CachesAreInOrder, Step, StaysStranded, StaysBarren;
    RunKeeps(Start(lim), acts);
    var h := Run(Start(lim), acts);
    InvCounts(h);
    SoundCaches(h);
    forall x | x in h.known
      ensures x in h.obj && h.obj[x].parent in h.obj && h.obj[h.obj[x].parent].typ == A
      ensures h.obj[x].parent == ROOT || h.obj[x].parent in h.known
    {
      ParentIsKnown(h, x);
    }
  }

  // Objects that are never reclaimed

  /** The objects made from a that are in use for their own sake: not as the locks of
      attributes objects that a caches. */
  ghost function LiveKids(h: Heap, a: Id): set<Id> {
    set x | x in Kids(h, a) && !exists c :: c in Q(h, Key(a, A)) && c in h.obj && h.obj[c].mutex == x
  }

  /** Without live kids, only cached attributes objects refer to a, through their locks. */
  lemma RefersExactlyWhen(h: Heap, a: Id)
    requires Inv(h, {}) && a in h.obj && h.obj[a].typ == A && LiveKids(h, a) == {}
    ensures h.obj[a].refcnt > 0 <==> Q(h, Key(a, A)) != []
  {
    CachedAttrsRefer(h, a, {});
    InvCounts(h);
    hide Inv;
    if Q(h, Key(a, A)) == [] {
      forall x ensures x !in Kids(h, a) {
        assert x !in LiveKids(h, a);
      }
      assert Kids(h, a) == {};
    }
  }

  /** Deleting an attributes object from which nothing is in use leaves it behind exactly
      when its cache holds attributes objects: their locks count as references to it, and
      it is only marked. */
  lemma DeletionLeavesBehindExactlyWhen(h: Heap, a: Id)
    requires InOrder(h) && a in h.known && a in h.obj && h.obj[a].typ == A && LiveKids(h, a) == {}
    ensures a in FreeAttr(h, a).known <==> Q(h, Key(a, A)) != []
    ensures Q(h, Key(a, A)) != [] ==> Stranded(FreeAttr(h, a), a)
  {
    hide Inv, Settled, Bounded, LiveKids;
    RefersExactlyWhen(h, a);
    if h.obj[a].refcnt > 0 {
      assert FreeAttr(h, a) == Marked(h, a);
      assert Q(Marked(h, a), Key(a, A)) == Q(h, Key(a, A));
    } else {
      AttrRefs(h, a);
      hide FreeAttr;
      ReleasedGone(h, a);
    }
  }

  lemma ReleasedGone(h: Heap, a: Id)
    requires Inv(h, {}) && Settled(h) && a in h.known && a in h.obj && h.obj[a].typ == A && h.obj[a].refcnt == 0
    ensures a !in FreeAttr(h, a).known
  {
    SettledIsBut(h, a);
    hide Inv, Settled, SettledBut, Retire, StowAttr, LastOut, Quiet, Tame;
    Released(h, a);
    var n, p := StowAttr(Retire(h, a), a), h.obj[a].parent;
    LetsSettled(h, n, a, p);
    LetsParent(h, n, a, p);
    LastOutKeeps(n, p);
  }

  /** And nothing that clients do later will reclaim it. */
  lemma StrandedForEver(h: Heap, acts: seq<Act>, a: Id)
    requires InOrder(h) && Stranded(h, a)
    ensures Stranded(Run(h, acts), a) && a in Run(h, acts).known
  {
    hide InOrder, Stranded, Run;
    RunKeeps(h, acts);
    assert Stranded(Run(h, acts), a) ==> a in Run(h, acts).known by { StrandedKnown(Run(h, acts), a); }
  }

  lemma StrandedKnown(h: Heap, a: Id)
    ensures Stranded(h, a) ==> a in h.known
  {
  }

  /** Marked as deleted, and there after each of the calls. */
  ghost predicate ThereStill(h: Heap, acts: seq<Act>, a: Id)
    decreases |acts|
  {
    Deleted(h, a) && (acts == [] || ThereStill(Step(h, acts[0]), acts[1..], a))
  }

  lemma StrandedIsDeleted(h: Heap, a: Id)
    ensures Stranded(h, a) <==> Deleted(h, a) && Q(h, Key(a, A)) != []
  {
  }

  /** When nothing made from it is in use, a deleted object that is still there has always
      cached attributes objects. */
  lemma {:induction false} ThereStillExactlyWhen(h: Heap, acts: seq<Act>, a: Id)
    requires InOrder(h) && LiveKids(Run(h, acts), a) == {}
    ensures ThereStill(h, acts, a) <==> Stranded(h, a)
    decreases |acts|
  {
    StrandedIsDeleted(h, a);
    if acts == [] {
      hide LiveKids, Bounded;
      if Deleted(h, a) { RefersExactlyWhen(h, a); }
    } else {
      var r := Step(h, acts[0]);
      StepKeeps(h, acts[0]);
      hide InOrder, Step, LiveKids, Stranded;
      ThereStillExactlyWhen(r, acts[1..], a);
      StrandedIsDeleted(r, a);
    }
  }

  lemma DeletionInOrder(h: Heap, a: Id)
    requires InOrder(h) && a in h.known && a in h.obj && h.obj[a].typ == A
    ensures InOrder(FreeAttr(h, a))
  {
    SettledIsBut(h, a);
    hide Inv, Settled, Bounded, Freed, FreeAttr;
    FreeAttrKeeps(h, a);
    FreedSteady(h, FreeAttr(h, a));
    FreedInv(h, FreeAttr(h, a));
  }

  lemma MarkedStranded(h: Heap, a: Id)
    requires a in h.known && a in h.obj && h.obj[a].typ == A
    ensures Stranded(Marked(h, a), a) <==> Q(h, Key(a, A)) != []
  {
    assert Q(Marked(h, a), Key(a, A)) == Q(h, Key(a, A));
  }

  lemma DeletionStrands(h: Heap, a: Id)
    requires InOrder(h) && a in h.known && a in h.obj && h.obj[a].typ == A
    ensures Stranded(FreeAttr(h, a), a) <==> Q(h, Key(a, A)) != []
  {
    if h.obj[a].refcnt > 0 {
      assert FreeAttr(h, a) == Marked(h, a);
      MarkedStranded(h, a);
    } else {
      AttrRefs(h, a);
      CachedAttrsRefer(h, a, {});
      hide Inv, FreeAttr, Settled, Bounded;
      ReleasedGone(h, a);
    }
  }

  /** Whenever an attributes object is deleted, in use or not: once nothing made from it is
      in use, it is still there exactly when it cached attributes objects at its deletion. */
  lemma DeletedStaysExactlyWhen(h: Heap, a: Id, acts: seq<Act>)
    requires InOrder(h) && a in h.known && a in h.obj && h.obj[a].typ == A
    requires LiveKids(Run(FreeAttr(h, a), acts), a) == {}
    ensures ThereStill(FreeAttr(h, a), acts, a) <==> Q(h, Key(a, A)) != []
  {
    var d := FreeAttr(h, a);
    DeletionInOrder(h, a);
    DeletionStrands(h, a);
    hide InOrder, LiveKids, Stranded, Run, FreeAttr;
    ThereStillExactlyWhen(d, acts, a);
  }

  // Mutexes from the cache

  /** A mutex as its kind has it at the start: a fast one unlocked, without an inner lock;
      another unowned, with an inner lock that is a known fast mutex. */
  ghost predicate IsClean(h: Heap, x: Id, kind: Kind) {
    && x in h.obj && h.obj[x].typ == M && h.obj[x].kind == kind
    && var b := h.obj[x].bits;
    && !b.owned && (b.lock <==> kind != Fast) && (b.event <==> kind == Fast) && (b.unlocksLock <==> kind == Fast)
    && (kind == Fast ==> h.obj[x].inner == ROOT)
    && (kind != Fast ==>
          && b.waiters && b.nest == 0 && h.obj[x].inner in h.known && h.obj[x].inner in h.obj
          && h.obj[h.obj[x].inner].typ == M && h.obj[h.obj[x].inner].kind == Fast)
  }

  /** Whatever kinds were set and mutexes used, deleted and recycled before, a new mutex is
      as its attributes object's current kind has it, and nobody else's inner lock. */
  lemma NewMutexIsClean(lim: Limits, acts: seq<Act>, a: Id)
    requires var h := Run(Start(lim), acts); IsAttr(h, a) && !h.obj[a].pending
    ensures var h := Run(Start(lim), acts); var r, x := GetLeaf(h, Key(a, M)), Pick(h, Key(a, M));
      IsClean(r, x, h.obj[a].kind) && x in r.known && x !in h.known && Spare(r, x)
  {
    StartSound(lim);
    hide Start, Run, Inv, Settled, Bounded, StaysStranded, StaysBarren, Step;
    RunKeeps(Start(lim), acts);
    var h := Run(Start(lim), acts);
    var r, x := GetLeaf(h, Key(a, M)), Pick(h, Key(a, M));
    assert Locked(h, {});
    hide GetLeaf, Picked, Pick, Locked, Spare, Grows;
    GetLeafKeeps(h, Key(a, M), {});
    ReadyClean(h, r, a, x, Picked(h, Key(a, M)).obj[x]);
  }

  lemma ReadyClean(h: Heap, r: Heap, a: Id, x: Id, was: Obj)
    requires Inv(r, {}) && Ready(h, r, Key(a, M), x, was) && a in h.obj
    ensures IsClean(r, x, h.obj[a].kind) && x in r.known && x !in h.known
  {
    CoreRoot(r, {});
    assert Good(r, x);
  }

  /** A recycled mutex keeps its inner lock exactly when the new kind needs one: made fast,
      it forgets the lock, which stays on the list of known mutexes with nothing using it. */
  lemma RecyclingLosesTheInnerLockExactlyWhen(h: Heap, a: Id)
    requires Inv(h, {}) && IsAttr(h, a) && !h.obj[a].pending && Q(h, Key(a, M)) != []
    requires Q(h, Key(a, M))[0] in h.obj && Nested(h.obj[Q(h, Key(a, M))[0]])
    ensures var r, i := GetLeaf(h, Key(a, M)), h.obj[Q(h, Key(a, M))[0]].inner;
      i in r.known && (Spare(r, i) <==> h.obj[a].kind == Fast)
  {
    var k := Key(a, M);
    var x := Q(h, k)[0];
    var i := h.obj[x].inner;
    NestedCached(h, k, x);
    assert Locked(h, {});
    assert Pick(h, k) == x && Picked(h, k) == Unshelve(h, k) && Unshelve(h, k).obj == h.obj;
    assert !NeedsInner(h, k);
    hide Inv, Locked;
    LeafInv(h, k, {});
    GetLeafIs(h, k);
    InvSingle(h, {});
    hide GetLeaf, Picked, Pick, NeedsInner, PicksFrom;
    LostLock(h, Unshelve(h, k), GetLeaf(h, k), x, i, h.obj[a].kind);
  }

  lemma NestedCached(h: Heap, k: Key, x: Id)
    requires Inv(h, {}) && x in Q(h, k) && x in h.obj && Nested(h.obj[x])
    ensures h.obj[x].inner in h.known && h.obj[x].inner in h.obj && h.obj[x].inner != ROOT && h.obj[x].inner != x && LockOf(h.obj[x]) == h.obj[x].inner
    ensures x != ROOT
  {
    InvCached(h, {}, k, x);
    CoreRoot(h, {});
    assert Good(h, x);
  }

  lemma LostLock(h: Heap, m: Heap, r: Heap, x: Id, i: Id, kind: Kind)
    requires Single(h) && x in h.obj && x != ROOT && Nested(h.obj[x]) && h.obj[x].inner == i && i != ROOT && i in h.known
    requires m.obj == h.obj && m.known == h.known && Lists(m, r, x)
    requires r.obj[x] == Renewed(m.obj[x], kind, if kind != Fast then i else ROOT).(seqn := m.seqs, rev := Rev(m, Home(m.obj[x])))
    ensures i in r.known && (Spare(r, i) <==> kind == Fast)
  {
    assert LockOf(r.obj[x]) == if kind != Fast then i else ROOT;
    forall y | y in r.obj && y != ROOT && y != x ensures LockOf(r.obj[y]) != i {
      assert y in m.obj && LockOf(r.obj[y]) == LockOf(h.obj[y]) && LockOf(h.obj[x]) == i;
    }
  }

  // Low-water marks

  lemma FastLowers(m: Heap, x: Id, loose: set<Id>)
    requires Inv(m, loose) && x in loose && x in m.obj && m.obj[x].typ == M
    ensures Lowered(m, PurgeFast(Erase(m, x), INNERS), INNERS)
  {
    hide Inv, Erase, PurgeFast, Keeps;
    EraseInv(m, x, loose);
    EraseLim(m, x);
    PurgeFastKeeps(Erase(m, x), INNERS, loose - {x});
  }

  lemma StowLowers(m: Heap, x: Id, loose: set<Id>)
    requires Inv(m, loose) && x in loose && x in m.obj && m.obj[x].typ != A && Good(m, x) && m.obj[x].parent in m.obj
    requires Cacheable(m, x) && Cnt(m, Home(m.obj[x])) >= Max(m, m.obj[x].typ)
    ensures Lowered(m, Stow(m, x), Home(m.obj[x]))
  {
    hide Inv, Good, Cacheable, EraseLeaf, Purge, PurgeFast, Stows, Erase;
    if Home(m.obj[x]) == INNERS { FastLowers(m, x, loose); } else { PurgedStows(m, x, loose); }
  }

  lemma EraseLim(h: Heap, x: Id)
    ensures Erase(h, x).lim == h.lim
  {
  }

  lemma RetiredSame(h: Heap, x: Id)
    requires x in h.obj && h.obj[x].parent in h.obj && h.obj[x].parent != x
    ensures var m := Retire(h, x);
      && x in m.obj && m.obj[x].parent in m.obj && Home(m.obj[x]) == Home(h.obj[x]) && m.obj[x].typ == h.obj[x].typ
      && m.lim == h.lim && Max(m, h.obj[x].typ) == Max(h, h.obj[x].typ)
      && (Cacheable(m, x) <==> Cacheable(h, x)) && Cnt(m, Home(h.obj[x])) == Cnt(h, Home(h.obj[x]))
      && m.obj[m.obj[x].parent].pending == h.obj[h.obj[x].parent].pending
  {
  }

  lemma FullStowLowers(h: Heap, x: Id)
    requires Inv(h, {}) && x in h.known && x in h.obj && h.obj[x].typ != A && Unused(h, x, {}) && h.obj[x].parent in h.obj && h.obj[x].parent != x
    requires Cacheable(h, x) && Cnt(h, Home(h.obj[x])) >= Max(h, h.obj[x].typ)
    ensures Lowered(h, FreeNolock(h, x), Home(h.obj[x]))
  {
    var m := Retire(h, x);
    RetiredSame(h, x);
    hide *;
    FreeNolockInv(h, x, {});
    RetiredGood(h, x, {});
    StowLowers(m, x, {} + {x});
    LoweredLater(h, m, FreeNolock(h, x), Home(h.obj[x]));
  }

  /** The release of an object that finds its cache full leaves the cache at its low-water
      mark, or empty. */
  lemma FullFreeLowersTheCache(h: Heap, x: Id)
    requires InOrder(h) && IsClients(h, x) && h.obj[x].parent in h.obj && h.obj[x].parent != x
    requires Cacheable(h, x) && Cnt(h, Home(h.obj[x])) >= Max(h, h.obj[x].typ)
    ensures Lowered(h, FreeLeaf(h, x), Home(h.obj[x]))
  {
    hide Settled, Bounded, Inv, Unused, FreeNolock, Lowered;
    FullStowLowers(h, x);
    NotLastOut(h, x);
  }

  lemma NotLastOut(h: Heap, x: Id)
    requires Inv(h, {}) && x in h.known && x in h.obj && h.obj[x].typ != A && Unused(h, x, {})
    requires h.obj[x].parent in h.obj && h.obj[x].parent != x && !h.obj[h.obj[x].parent].pending
    ensures FreeLeaf(h, x) == FreeNolock(h, x)
  {
    var p := h.obj[x].parent;
    hide Inv, FreeNolock, Unused, FreesLists, FreesFirm;
    FreeNolockKeeps(h, x, {});
    if p == ROOT { RootStays(FreeNolock(h, x)); }
  }
}
