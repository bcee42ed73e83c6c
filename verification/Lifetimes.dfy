/** Creation, release, caching and destruction of mutexes, condition variables and
    attributes objects (threads/cma_attr.c, threads/cma_mutex.c, threads/cma_condition.c),
    one call at a time. */
module Lifetimes {
  import opened Semaphore
  import opened Objects

  // --- Invariant ---------------------------------------------------------------------------------

  /** The lock of an attributes object is a known mutex created from the same parent. */
  ghost predicate GoodAttr(h: Heap, a: Id) {
    a in h.obj && var m := h.obj[a].mutex;
    m in h.known && m in h.obj && h.obj[m].typ == M && h.obj[m].parent == h.obj[a].parent
  }

  /** A mutex that is not fast has an inner lock of its own: a known fast mutex created
      from the default attributes object. */
  ghost predicate GoodMutex(h: Heap, x: Id) {
    x in h.obj && var o := h.obj[x];
    && (o.kind == Fast <==> o.inner == ROOT)
    && (o.parent == ROOT ==> o.kind == Fast)
    && (o.kind != Fast ==>
          o.inner in h.known && o.inner in h.obj && h.obj[o.inner].typ == M && h.obj[o.inner].parent == ROOT
          && h.obj[o.inner].kind == Fast)
  }

  ghost predicate Good(h: Heap, x: Id) {
    x in h.obj && match h.obj[x].typ case A => GoodAttr(h, x) case M => GoodMutex(h, x) case C => true
  }

  /** The mutex that serves as the lock of an attributes object, or as the inner lock of a mutex. */
  function LockOf(o: Obj): Id {
    match o.typ case A => o.mutex case M => o.inner case C => ROOT
  }

  /** No mutex serves twice. */
  ghost predicate Single(h: Heap) {
    forall x, y :: x in h.obj && y in h.obj && x != ROOT && y != ROOT && LockOf(h.obj[x]) != ROOT ==>
      (LockOf(h.obj[x]) == LockOf(h.obj[y]) ==> x == y)
  }

  ghost predicate RootFixed(h: Heap) {
    ROOT in h.obj && h.obj[ROOT].kind == Fast && !h.obj[ROOT].pending
  }

  /** Cached attributes objects have no references. */
  ghost predicate CachedIdle(h: Heap, loose: set<Id>) {
    forall a :: a in h.obj && a != ROOT && h.obj[a].typ == A && a !in h.known && a !in loose ==> h.obj[a].refcnt == 0
  }

  ghost predicate AllGood(h: Heap, loose: set<Id>) {
    forall x :: x in h.obj && x != ROOT && x !in loose ==> Good(h, x)
  }

  ghost predicate Links(h: Heap, loose: set<Id>) {
    AllGood(h, loose) && Single(h) && RootFixed(h) && CachedIdle(h, loose)
  }

  ghost predicate Inv(h: Heap, loose: set<Id>) {
    Core(h, loose) && Links(h, loose)
  }

  /** Nothing in place uses x as its lock. */
  ghost predicate Unused(h: Heap, x: Id, loose: set<Id>) {
    forall y :: y in h.obj && y != ROOT && y !in loose ==> LockOf(h.obj[y]) != x
  }

  // --- The elementary steps keep the links -----------------------------------------------------------

  lemma AlikeAt(h: Heap, r: Heap, x: Id)
    requires Alike(h, r) && x in h.obj
    ensures x in r.obj && r.obj[x] == h.obj[x].(seqn := r.obj[x].seqn, rev := r.obj[x].rev, refcnt := r.obj[x].refcnt)
  {
  }

  lemma AlikeSingle(h: Heap, r: Heap)
    requires Alike(h, r) && Single(h)
    ensures Single(r)
  {
    forall x | x in h.obj ensures x in r.obj && LockOf(r.obj[x]) == LockOf(h.obj[x]) { AlikeAt(h, r, x); }
  }

  /** What is good stays good while its lock stays known. */
  lemma AlikeGood(h: Heap, r: Heap, x: Id)
    requires Alike(h, r) && Good(h, x) && (LockOf(h.obj[x]) in h.known ==> LockOf(h.obj[x]) in r.known)
    requires ROOT !in h.known
    ensures Good(r, x)
  {
    AlikeAt(h, r, x);
    if LockOf(h.obj[x]) in h.obj { AlikeAt(h, r, LockOf(h.obj[x])); }
  }

  lemma AlikeAllGood(h: Heap, r: Heap, loose: set<Id>, loose': set<Id>)
    requires Alike(h, r) && AllGood(h, loose) && ROOT !in h.known
    requires forall x :: x in h.obj && x != ROOT && x !in loose' ==>
      (x !in loose || Good(h, x)) && (LockOf(h.obj[x]) in h.known ==> LockOf(h.obj[x]) in r.known)
    ensures AllGood(r, loose')
  {
    hide Good, LockOf;
    forall x | x in r.obj && x != ROOT && x !in loose' ensures Good(r, x) {
      assert x in h.obj;
      AlikeGood(h, r, x);
    }
  }

  lemma AlikeRoot(h: Heap, r: Heap)
    requires Alike(h, r) && RootFixed(h)
    ensures RootFixed(r)
  {
    AlikeAt(h, r, ROOT);
  }

  lemma RetireIdle(h: Heap, x: Id, loose: set<Id>)
    requires Core(h, loose) && CachedIdle(h, loose) && x in h.known
    ensures x in h.obj && h.obj[x].parent in h.obj && CachedIdle(Retire(h, x), loose + {x})
  {
    ParentKnown(h, loose, x);
    RetireAlike(h, x);
    var r, p := Retire(h, x), h.obj[x].parent;
    assert x in Kids(h, p) && h.obj[p].refcnt == |Kids(h, p)|;
    hide Retire, Tree, Placed, Counted, Numbered, Referred;
    forall a | a in r.obj && a != ROOT && r.obj[a].typ == A && a !in r.known && a !in loose + {x}
      ensures r.obj[a].refcnt == 0
    {
      assert r.obj[a].typ == h.obj[a].typ;
      assert a != p;
    }
  }

  lemma CoreRoot(h: Heap, loose: set<Id>)
    requires Core(h, loose)
    ensures ROOT !in h.known && ROOT !in loose && h.known !! loose
  {
  }

  lemma RetireInv(h: Heap, x: Id, loose: set<Id>)
    requires Inv(h, loose) && x in h.known && Unused(h, x, loose)
    ensures x in h.obj && h.obj[x].parent in h.obj && Inv(Retire(h, x), loose + {x}) && Alike(h, Retire(h, x))
  {
    hide Core, Retire, Alike, AllGood, Single, RootFixed, CachedIdle;
    CoreRoot(h, loose);
    RetireCore(h, x, loose);
    RetireIdle(h, x, loose);
    RetireAlike(h, x);
    AlikeSingle(h, Retire(h, x));
    AlikeRoot(h, Retire(h, x));
    AlikeAllGood(h, Retire(h, x), loose, loose + {x});
  }

  /** A loose object whose links are good is listed again. */
  lemma EnlistInv(h: Heap, x: Id, loose: set<Id>)
    requires Inv(h, loose) && x in loose && Good(h, x) && x in h.obj && !Idle(h, h.obj[x].parent, loose)
    ensures h.obj[x].parent in h.obj && Inv(Enlist(h, x), loose - {x}) && Alike(h, Enlist(h, x))
  {
    hide Core, Enlist, Alike, AllGood, Single, RootFixed, CachedIdle, Good;
    CoreRoot(h, loose);
    EnlistCore(h, x, loose);
    EnlistIdle(h, x, loose);
    EnlistAlike(h, x);
    AlikeSingle(h, Enlist(h, x));
    AlikeRoot(h, Enlist(h, x));
    AlikeAllGood(h, Enlist(h, x), loose, loose - {x});
  }

  /** An attributes object in a cache. */
  ghost predicate Idle(h: Heap, a: Id, loose: set<Id>) {
    a in h.obj && a != ROOT && h.obj[a].typ == A && a !in h.known && a !in loose
  }

  lemma EnlistIdle(h: Heap, x: Id, loose: set<Id>)
    requires Core(h, loose) && CachedIdle(h, loose) && x in loose && x in h.obj && !Idle(h, h.obj[x].parent, loose)
    ensures h.obj[x].parent in h.obj && CachedIdle(Enlist(h, x), loose - {x})
  {
    ParentKnown(h, loose, x);
    EnlistAlike(h, x);
    var r := Enlist(h, x);
    hide Enlist, Tree, Placed, Counted, Numbered, Referred;
    forall a | a in r.obj && a != ROOT && r.obj[a].typ == A && a !in r.known && a !in loose - {x}
      ensures r.obj[a].refcnt == 0
    {
      assert r.obj[a].typ == h.obj[a].typ;
      assert Idle(h, a, loose);
    }
  }

  /** Only the lists of loose and cached objects differ. */
  lemma SameLinks(h: Heap, r: Heap, loose: set<Id>, loose': set<Id>)
    requires Links(h, loose) && r.obj == h.obj && r.known == h.known
    requires forall x :: x in h.obj && x in loose && x !in loose' ==> Good(h, x) && (h.obj[x].typ == A ==> h.obj[x].refcnt == 0)
    ensures Links(r, loose')
  {
    forall x | x in r.obj && x != ROOT && x !in loose' ensures Good(r, x) { assert Good(h, x); }
    hide Good;
    assert CachedIdle(r, loose');
    assert Single(r) && RootFixed(r);
  }

  lemma ShelveInv(h: Heap, x: Id, loose: set<Id>)
    requires Inv(h, loose) && x in loose && x in h.obj && Good(h, x) && h.obj[x].seqn == 0
    requires h.obj[x].typ == A ==> h.obj[x].refcnt == 0
    ensures Inv(Shelve(h, x), loose - {x})
  {
    hide Core, Links, Good;
    ShelveCore(h, x, loose);
    SameLinks(h, Shelve(h, x), loose, loose - {x});
  }

  lemma UnshelveFacts(h: Heap, k: Key, loose: set<Id>)
    requires Inv(h, loose) && Q(h, k) != []
    ensures var x := Q(h, k)[0];
      && x in h.obj && Home(h.obj[x]) == k && h.obj[x].seqn == 0 && x != ROOT && x !in h.known && x !in loose
      && Good(h, x) && (k.t == A ==> h.obj[x].refcnt == 0)
  {
    assert Q(h, k)[0] in Q(h, k);
    hide Good, Single;
  }

  lemma UnshelveInv(h: Heap, k: Key, loose: set<Id>)
    requires Inv(h, loose) && Q(h, k) != []
    ensures var x := Q(h, k)[0];
      && x in h.obj && Home(h.obj[x]) == k && h.obj[x].seqn == 0 && x != ROOT && x !in h.known && x !in loose
      && Good(h, x) && (k.t == A ==> h.obj[x].refcnt == 0)
      && Inv(Unshelve(h, k), loose + {x})
  {
    hide Core, Links, Good;
    UnshelveFacts(h, k, loose);
    UnshelveCore(h, k, loose);
    SameLinks(h, Unshelve(h, k), loose, loose + {Q(h, k)[0]});
  }

  lemma EraseGood(h: Heap, x: Id, y: Id)
    requires Good(h, y) && y != x && x !in h.known
    ensures Good(Erase(h, x), y)
  {
  }

  lemma EraseLinks(h: Heap, x: Id, loose: set<Id>)
    requires Links(h, loose) && x in loose && x != ROOT && x !in h.known
    ensures Links(Erase(h, x), loose - {x})
  {
    var r := Erase(h, x);
    hide Good;
    forall y | y in r.obj && y != ROOT && y !in loose - {x} ensures Good(r, y) {
      assert Good(h, y);
      EraseGood(h, x, y);
    }
    assert Single(r) && RootFixed(r) && CachedIdle(r, loose - {x});
  }

  lemma EraseInv(h: Heap, x: Id, loose: set<Id>)
    requires Inv(h, loose) && x in loose && x in h.obj && (h.obj[x].typ == A ==> Childless(h, x))
    ensures Inv(Erase(h, x), loose - {x})
  {
    CoreRoot(h, loose);
    hide Core, Links;
    EraseCore(h, x, loose);
    EraseLinks(h, x, loose);
  }

  lemma AllocGood(h: Heap, o: Obj, y: Id)
    requires Good(h, y) && y != h.next && h.next !in h.obj
    ensures Good(Alloc(h, o), y)
  {
  }

  lemma AllocLinks(h: Heap, o: Obj, loose: set<Id>)
    requires Links(h, loose) && h.next !in h.obj && LockOf(o) == ROOT
    ensures Links(Alloc(h, o), loose + {h.next})
  {
    var r := Alloc(h, o);
    assert h.next != ROOT;
    hide Good;
    forall y | y in r.obj && y != ROOT && y !in loose + {h.next} ensures Good(r, y) {
      assert Good(h, y);
      AllocGood(h, o, y);
    }
    assert CachedIdle(r, loose + {h.next});
    assert RootFixed(r);
    hide LockOf;
    assert Single(r);
  }

  lemma AllocInv(h: Heap, o: Obj, loose: set<Id>)
    requires Inv(h, loose) && o.parent in h.obj && h.obj[o.parent].typ == A && o.seqn == 0 && o.refcnt == 0 && LockOf(o) == ROOT
    ensures h.next !in h.obj && h.next !in loose && h.next != ROOT && Inv(Alloc(h, o), loose + {h.next})
  {
    CoreRoot(h, loose);
    assert ROOT in h.obj;
    hide Core, Links, LockOf;
    AllocCore(h, o, loose);
    AllocLinks(h, o, loose);
  }

  // --- Releasing mutexes and condition variables ---------------------------------------------------------

  /** The cache of the default attributes object for mutexes, where inner locks go. */
  const INNERS := Key(ROOT, M)

  /** May the object go to its parent's cache: same revision, parent not being deleted. */
  predicate Cacheable(h: Heap, x: Id)
    requires x in h.obj && h.obj[x].parent in h.obj
  {
    h.obj[x].rev == Rev(h, Home(h.obj[x])) && !h.obj[h.obj[x].parent].pending
  }

  /** Empties a cache of objects that hold no inner locks down to the low-water mark. */
  function PurgeFast(h: Heap, k: Key): Heap
    decreases |Q(h, k)|
  {
    if Cnt(h, k) > Min(h, k.t) && Q(h, k) != [] then PurgeFast(Erase(Unshelve(h, k), Q(h, k)[0]), k) else h
  }

  /** Caches or destroys a fast mutex just released. */
  function StowFast(h: Heap, x: Id): Heap
    requires x in h.obj && h.obj[x].parent in h.obj
  {
    var k := Home(h.obj[x]);
    if !Cacheable(h, x) then Erase(h, x)
    else if Cnt(h, k) < Max(h, k.t) then Shelve(h, x)
    else PurgeFast(Erase(h, x), k)
  }

  /** Destroys a loose mutex or condition variable; a mutex that is not fast first gives
      its inner lock back, which takes the lock of the default attributes object:
      `locked` says that the caller holds that lock already. */
  function EraseLeaf(h: Heap, x: Id, locked: bool): Heap
    requires x in h.obj
  {
    var i := h.obj[x].inner;
    if h.obj[x].typ == M && h.obj[x].kind != Fast && i in h.obj && h.obj[i].parent in h.obj && i != h.obj[i].parent then
      Erase(StowFast(Retire(h.(held := h.held || locked), i), i), x)
    else Erase(h, x)
  }

  /** What a call leaves alone. */
  ghost predicate Untouched(h: Heap, r: Heap, y: Id) {
    y in h.obj && y in r.obj && r.obj[y] == h.obj[y] && (y in r.known <==> y in h.known)
  }

  /** Nothing is touched but the objects of `some` and cache k, to which nothing else is added. */
  ghost predicate Keeps(h: Heap, r: Heap, some: set<Id>, k: Key) {
    && r.revs == h.revs && r.lim == h.lim && r.next == h.next && r.held == h.held
    && (forall j: Key {:trigger Q(r, j)} :: j != k ==> Q(r, j) == Q(h, j))
    && (forall y {:trigger y in Q(r, k)} :: y in Q(r, k) ==> y in Q(h, k) || y in some)
    && (forall y {:trigger Untouched(h, r, y)} :: y in h.obj && y !in some && y !in Q(h, k) ==> Untouched(h, r, y))
  }

  lemma KeepsTwice(a: Heap, b: Heap, c: Heap, k: Key, some: set<Id>, more: set<Id>)
    requires Keeps(a, b, some, k) && Keeps(b, c, more, k) && some <= more
    ensures Keeps(a, c, more, k)
  {
    forall y | y in a.obj && y !in more && y !in Q(a, k) ensures Untouched(a, c, y) {
      assert y !in some;
      assert Untouched(a, b, y);
      assert y !in Q(b, k);
      assert Untouched(b, c, y);
    }
    forall j: Key | j != k ensures Q(c, j) == Q(a, j) { assert Q(b, j) == Q(a, j); }
    forall y | y in Q(c, k) ensures y in Q(a, k) || y in more { if y !in more { assert y in Q(b, k); } }
  }

  lemma RetireKeeps(h: Heap, x: Id, k: Key)
    requires x in h.obj && h.obj[x].parent in h.obj
    ensures Keeps(h, Retire(h, x), {x, h.obj[x].parent}, k)
  {
  }

  lemma EraseKeeps(h: Heap, x: Id, k: Key)
    ensures Keeps(h, Erase(h, x), {x}, k)
  {
  }

  lemma ShelveKeeps(h: Heap, x: Id)
    requires x in h.obj
    ensures Keeps(h, Shelve(h, x), {x}, Home(h.obj[x]))
  {
  }

  lemma DropKeeps(h: Heap, k: Key)
    requires Q(h, k) != []
    ensures var n := Erase(Unshelve(h, k), Q(h, k)[0]);
      Q(n, k) == Q(h, k)[1..] && Cnt(n, k) == Cnt(h, k) - 1 && Keeps(h, n, {}, k) && n.known == h.known
  {
    assert Q(h, k)[0] in Q(h, k);
  }

  lemma DropInv(h: Heap, k: Key, loose: set<Id>)
    requires Inv(h, loose) && k.t != A && Q(h, k) != []
    ensures Inv(Erase(Unshelve(h, k), Q(h, k)[0]), loose)
  {
    hide Inv, Erase;
    var x := Q(h, k)[0];
    UnshelveInv(h, k, loose);
    EraseInv(Unshelve(h, k), x, loose + {x});
    assert loose + {x} - {x} == loose;
  }

  lemma {:induction false} PurgeFastKeeps(h: Heap, k: Key, loose: set<Id>)
    requires Inv(h, loose) && k.t != A
    ensures var r := PurgeFast(h, k);
      && Inv(r, loose) && Keeps(h, r, {}, k) && r.known == h.known && (Cnt(r, k) <= Min(h, k.t) || Q(r, k) == [])
    decreases |Q(h, k)|
  {
    hide Inv;
    if Cnt(h, k) > Min(h, k.t) && Q(h, k) != [] {
      var n := Erase(Unshelve(h, k), Q(h, k)[0]);
      DropInv(h, k, loose);
      DropKeeps(h, k);
      assert Min(n, k.t) == Min(h, k.t);
      hide Keeps, Unshelve, Erase;
      PurgeFastKeeps(n, k, loose);
      KeepsTwice(h, n, PurgeFast(n, k), k, {}, {});
    }
  }

  lemma ParentOf(h: Heap, loose: set<Id>, x: Id)
    requires Inv(h, loose) && (x in loose || x in h.known)
    ensures x in h.obj && x != ROOT && h.obj[x].parent in h.obj && h.obj[x].parent != x
    ensures x in loose <==> x !in h.known
  {
    ParentKnown(h, loose, x);
    CoreRoot(h, loose);
  }

  lemma StowFastKeeps(h: Heap, x: Id, loose: set<Id>)
    requires Inv(h, loose) && x in loose && x in h.obj && h.obj[x].typ != A && Good(h, x) && h.obj[x].seqn == 0
    ensures h.obj[x].parent in h.obj && Inv(StowFast(h, x), loose - {x})
    ensures Keeps(h, StowFast(h, x), {x}, Home(h.obj[x])) && StowFast(h, x).known == h.known
  {
    var k := Home(h.obj[x]);
    ParentOf(h, loose, x);
    hide Inv, Good, Keeps;
    if !Cacheable(h, x) {
      EraseInv(h, x, loose);
      EraseKeeps(h, x, k);
    } else if Cnt(h, k) < Max(h, k.t) {
      ShelveInv(h, x, loose);
      ShelveKeeps(h, x);
    } else {
      var n := Erase(h, x);
      EraseInv(h, x, loose);
      EraseKeeps(h, x, k);
      hide Erase, PurgeFast;
      PurgeFastKeeps(n, k, loose - {x});
      KeepsWiden(n, PurgeFast(n, k), {}, {x}, k);
      KeepsTwice(h, n, PurgeFast(n, k), k, {x}, {x});
    }
  }

  lemma KeepsWiden(h: Heap, r: Heap, some: set<Id>, more: set<Id>, k: Key)
    requires Keeps(h, r, some, k) && some <= more
    ensures Keeps(h, r, more, k)
  {
  }

  lemma InnerRetires(h: Heap, i: Id, loose: set<Id>)
    requires Inv(h, loose) && i in h.known && i in h.obj && h.obj[i].typ == M && h.obj[i].parent == ROOT
    requires GoodMutex(h, i) && Unused(h, i, loose)
    ensures ROOT in h.obj && i != ROOT && i !in loose
    ensures var m := Retire(h, i);
      && Inv(m, loose + {i}) && Keeps(h, m, {i, ROOT}, INNERS) && m.known == h.known - {i}
      && i in m.obj && m.obj[i].typ != A && Good(m, i) && m.obj[i].seqn == 0 && Home(m.obj[i]) == INNERS
      && m.obj[i].parent in m.obj
  {
    hide Inv, Keeps, Unused, Retire, Good, GoodMutex, Alike;
    ParentOf(h, loose, i);
    RetireInv(h, i, loose);
    RetireKeeps(h, i, INNERS);
    RetireAlike(h, i);
    InnerRetired(h, i);
    ParentOf(Retire(h, i), loose + {i}, i);
  }

  lemma JustOne(x: Id)
    ensures {} + {x} == {x} && {x} - {x} == {}
  {
  }

  lemma Restored(loose: set<Id>, i: Id)
    requires i !in loose
    ensures loose + {i} - {i} == loose
  {
  }

  /** An inner lock that nothing in place uses is given back. */
  lemma InnerKeeps(h: Heap, i: Id, loose: set<Id>)
    requires Inv(h, loose) && i in h.known && i in h.obj && h.obj[i].typ == M && h.obj[i].parent == ROOT
    requires GoodMutex(h, i) && Unused(h, i, loose)
    ensures ROOT in h.obj && i != ROOT && i in Retire(h, i).obj && Retire(h, i).obj[i].parent in Retire(h, i).obj
    ensures var r := StowFast(Retire(h, i), i);
      Inv(r, loose) && Keeps(h, r, {i, ROOT}, INNERS) && r.known == h.known - {i}
  {
    ParentOf(h, loose, i);
    hide Inv, Keeps, Unused, Retire, Good, GoodMutex, StowFast;
    InnerRetires(h, i, loose);
    var m := Retire(h, i);
    StowFastKeeps(m, i, loose + {i});
    Restored(loose, i);
    KeepsWiden(m, StowFast(m, i), {i}, {i, ROOT}, INNERS);
    KeepsTwice(h, m, StowFast(m, i), INNERS, {i, ROOT}, {i, ROOT});
  }

  lemma InnerRetired(h: Heap, i: Id)
    requires i in h.obj && i != ROOT && ROOT in h.obj && h.obj[i].typ == M && h.obj[i].parent == ROOT && GoodMutex(h, i)
    ensures var m := Retire(h, i);
      i in m.obj && Good(m, i) && m.obj[i].typ == M && Home(m.obj[i]) == INNERS && m.obj[i].seqn == 0
  {
  }

  /** A mutex with an inner lock of its own. */
  predicate Nested(o: Obj) {
    o.typ == M && o.kind != Fast
  }

  lemma NestedInner(h: Heap, x: Id, loose: set<Id>)
    requires Inv(h, loose) && x in loose && x in h.obj && Nested(h.obj[x]) && Good(h, x)
    ensures var i := h.obj[x].inner;
      && i in h.known && i in h.obj && i != ROOT && i != x && i !in loose && h.obj[i].typ == M && h.obj[i].parent == ROOT
      && GoodMutex(h, i) && Unused(h, i, loose)
  {
    var i := h.obj[x].inner;
    ParentOf(h, loose, x);
    ParentOf(h, loose, i);
    assert Good(h, i);
    assert LockOf(h.obj[x]) == i;
  }

  lemma HeldCore(h: Heap, loose: set<Id>, held: bool)
    requires Core(h, loose)
    ensures Core(h.(held := held), loose)
  {
    var r := h.(held := held);
    assert forall k :: Q(r, k) == Q(h, k) && Cnt(r, k) == Cnt(h, k);
    assert Placed(r, loose) && Counted(r);
    assert forall a :: Kids(r, a) == Kids(h, a);
    hide Placed, Counted;
    assert Tree(r) && Numbered(r) && Referred(r);
  }

  lemma HeldInv(h: Heap, loose: set<Id>, held: bool)
    requires Inv(h, loose)
    ensures Inv(h.(held := held), loose)
  {
    hide Core, Links, Good;
    HeldCore(h, loose, held);
    SameLinks(h, h.(held := held), loose, loose);
  }

  lemma HeldNested(h: Heap, x: Id, i: Id, loose: set<Id>, held: bool)
    requires x in h.obj && i in h.obj && GoodMutex(h, i) && Unused(h, i, loose)
    ensures var r := h.(held := held); GoodMutex(r, i) && Unused(r, i, loose)
  {
  }

  /** Destroying a loose mutex or condition variable gives an inner lock back, once. */
  lemma EraseLeafKeeps(h: Heap, x: Id, locked: bool, loose: set<Id>)
    requires Inv(h, loose) && x in loose && x in h.obj && h.obj[x].typ != A && Good(h, x)
    ensures var r, nested := EraseLeaf(h, x, locked), Nested(h.obj[x]);
      && Inv(r, loose - {x})
      && r.known == (if nested then h.known - {h.obj[x].inner} else h.known)
      && r.held == (h.held || (locked && nested))
      && Keeps(h.(held := r.held), r, if nested then {x, h.obj[x].inner, ROOT} else {x}, INNERS)
  {
    var r := EraseLeaf(h, x, locked);
    if Nested(h.obj[x]) {
      var i := h.obj[x].inner;
      var g := h.(held := h.held || locked);
      NestedInner(h, x, loose);
      ParentOf(h, loose, i);
      HeldInv(h, loose, g.held);
      HeldNested(h, x, i, loose, g.held);
      hide Inv, Good, GoodMutex, Unused, Keeps, Retire, StowFast;
      InnerKeeps(g, i, loose);
      var m := StowFast(Retire(g, i), i);
      NestedErased(g, m, x, i, loose);
      EraseInv(m, x, loose);
      EraseKeeps(m, x, INNERS);
      KeepsWiden(m, Erase(m, x), {x}, {x, i, ROOT}, INNERS);
      KeepsTwice(g, m, Erase(m, x), INNERS, {i, ROOT}, {x, i, ROOT});
      assert r == Erase(m, x);
      assert m.held == g.held by { KeepsHeld(g, m, {i, ROOT}, INNERS); }
    } else {
      hide Inv, Good, Keeps;
      assert h.(held := h.held) == h;
      EraseInv(h, x, loose);
      EraseKeeps(h, x, INNERS);
    }
  }

  lemma KeepsHeld(h: Heap, r: Heap, some: set<Id>, k: Key)
    requires Keeps(h, r, some, k)
    ensures r.held == h.held && r.revs == h.revs && r.lim == h.lim && r.next == h.next
  {
  }

  lemma NestedErased(g: Heap, m: Heap, x: Id, i: Id, loose: set<Id>)
    requires Inv(g, loose) && x in loose && x in g.obj && x != i && g.obj[x].typ != A && Keeps(g, m, {i, ROOT}, INNERS)
    ensures x in m.obj && m.obj[x].typ != A
  {
    ParentOf(g, loose, x);
    CachedNotLoose(g, x, INNERS, loose);
    assert x !in {i, ROOT};
    assert Untouched(g, m, x);
  }

  lemma CachedNotLoose(h: Heap, x: Id, k: Key, loose: set<Id>)
    requires Inv(h, loose) && (x in loose || x in h.known)
    ensures x !in Q(h, k)
  {
  }

  // --- Emptying caches ------------------------------------------------------------------------------------

  /** Destroys the first object of a cache. */
  function DropLeaf(h: Heap, k: Key, locked: bool): Heap
    requires Q(h, k) != []
  {
    var x := Q(h, k)[0];
    if x in h.obj then EraseLeaf(Unshelve(h, k), x, locked) else Unshelve(h, k)
  }

  /** What emptying cache k may touch: its objects, their inner locks, and the cache those go to. */
  ghost predicate Spent(h: Heap, k: Key, y: Id) {
    y == ROOT || y in Q(h, k) || y in Q(h, INNERS) || exists z :: z in Q(h, k) && z in h.obj && LockOf(h.obj[z]) == y
  }

  ghost predicate Shrinks(h: Heap, r: Heap, k: Key) {
    && r.revs == h.revs && r.lim == h.lim && r.next == h.next
    && (forall j: Key {:trigger Q(r, j)} :: j != k && j != INNERS ==> Q(r, j) == Q(h, j))
    && (forall y :: y in Q(r, k) ==> y in Q(h, k))
    && (forall y :: y in r.known ==> y in h.known)
    && (forall y {:trigger Untouched(h, r, y)} {:trigger Spent(r, k, y)} :: y in h.obj && !Spent(h, k, y) ==>
          Untouched(h, r, y) && !Spent(r, k, y))
  }

  lemma ShrinksTwice(a: Heap, b: Heap, c: Heap, k: Key)
    requires Shrinks(a, b, k) && Shrinks(b, c, k)
    ensures Shrinks(a, c, k)
  {
    forall y | y in a.obj && !Spent(a, k, y) ensures Untouched(a, c, y) && !Spent(c, k, y) {
      assert Untouched(a, b, y) && !Spent(b, k, y);
      assert Untouched(b, c, y);
    }
    forall j: Key | j != k && j != INNERS ensures Q(c, j) == Q(a, j) { assert Q(b, j) == Q(a, j); }
  }

  lemma DropLeafInv(h: Heap, k: Key, locked: bool, loose: set<Id>)
    requires Inv(h, loose) && k.t != A && k != INNERS && Q(h, k) != []
    ensures var n, x := DropLeaf(h, k, locked), Q(h, k)[0];
      && Inv(n, loose) && x in h.obj && h.obj[x].typ == k.t && x != ROOT
      && n.held == (h.held || (locked && Nested(h.obj[x])))
      && Keeps(Unshelve(h, k).(held := n.held), n, if Nested(h.obj[x]) then {x, h.obj[x].inner, ROOT} else {x}, INNERS)
      && n.known <= h.known
  {
    hide Inv, Good, Keeps, EraseLeaf;
    var x, m := Q(h, k)[0], Unshelve(h, k);
    UnshelveInv(h, k, loose);
    assert m.obj == h.obj && m.known == h.known && m.held == h.held;
    hide Unshelve;
    GoodUnshelved(h, m, x);
    EraseLeafKeeps(m, x, locked, loose + {x});
    Restored(loose, x);
  }

  lemma GoodUnshelved(h: Heap, m: Heap, x: Id)
    requires Good(h, x) && m.obj == h.obj && m.known == h.known
    ensures Good(m, x)
  {
  }

  /** Only the first object of cache k has left it. */
  ghost predicate Beheaded(h: Heap, m: Heap, k: Key) {
    && Q(h, k) != [] && Q(m, k) == Q(h, k)[1..] && m.obj == h.obj && m.known == h.known
    && m.revs == h.revs && m.lim == h.lim && m.next == h.next
    && (forall j: Key {:trigger Q(m, j)} :: j != k ==> Q(m, j) == Q(h, j))
  }

  lemma UnshelveBeheads(h: Heap, k: Key, held: bool)
    requires Q(h, k) != []
    ensures Beheaded(h, Unshelve(h, k).(held := held), k)
  {
  }

  /** The objects behind the first are untouched when it is destroyed. */
  lemma TailUntouched(h: Heap, m: Heap, n: Heap, k: Key, some: set<Id>, loose: set<Id>)
    requires Inv(h, loose) && k.t != A && k != INNERS && Beheaded(h, m, k) && Keeps(m, n, some, INNERS)
    requires Q(h, k)[0] in h.obj
    requires some == if Nested(h.obj[Q(h, k)[0]]) then {Q(h, k)[0], h.obj[Q(h, k)[0]].inner, ROOT} else {Q(h, k)[0]}
    ensures Q(n, k) == Q(h, k)[1..] && forall y :: y in Q(n, k) ==> y in Q(h, k) && Untouched(h, n, y)
  {
    CachedElsewhere(h, k, loose);
    hide Inv;
    assert Q(n, k) == Q(m, k);
    var q := Q(h, k);
    forall y | y in Q(n, k) ensures y in q && Untouched(h, n, y) {
      var i :| 1 <= i < |q| && q[i] == y;
      assert q[0] != q[i] && q[0] in q;
      assert y !in some && y !in Q(m, INNERS);
      assert Untouched(m, n, y);
    }
  }

  lemma DropShrinks(h: Heap, m: Heap, n: Heap, k: Key, some: set<Id>)
    requires k != INNERS && Beheaded(h, m, k) && Q(h, k)[0] in h.obj && n.known <= h.known
    requires some == if Nested(h.obj[Q(h, k)[0]]) then {Q(h, k)[0], h.obj[Q(h, k)[0]].inner, ROOT} else {Q(h, k)[0]}
    requires n.revs == m.revs && n.lim == m.lim && n.next == m.next
    requires forall j: Key :: j != INNERS ==> Q(n, j) == Q(m, j)
    requires forall y :: y in Q(n, INNERS) ==> y in Q(h, INNERS) || y in some
    requires forall y :: y in h.obj && y !in some && y !in Q(h, INNERS) ==> Untouched(h, n, y)
    requires forall y :: y in Q(n, k) ==> y in Q(h, k) && y in h.obj && Untouched(h, n, y)
    ensures Shrinks(h, n, k)
  {
    var x := Q(h, k)[0];
    assert x in Q(h, k);
    forall y | y in h.obj && !Spent(h, k, y) ensures Untouched(h, n, y) && !Spent(n, k, y) {
      assert y != x && (Nested(h.obj[x]) ==> y != h.obj[x].inner) by { assert Nested(h.obj[x]) ==> LockOf(h.obj[x]) == h.obj[x].inner; }
      assert y !in some;
    }
  }

  lemma KeepsSame(m: Heap, n: Heap, h: Heap, some: set<Id>)
    requires Keeps(m, n, some, INNERS) && m.obj == h.obj && m.known == h.known && Q(m, INNERS) == Q(h, INNERS)
    ensures n.revs == m.revs && n.lim == m.lim && n.next == m.next
    ensures forall j: Key :: j != INNERS ==> Q(n, j) == Q(m, j)
    ensures forall y :: y in Q(n, INNERS) ==> y in Q(h, INNERS) || y in some
    ensures forall y :: y in h.obj && y !in some && y !in Q(h, INNERS) ==> Untouched(h, n, y)
  {
    forall y | y in h.obj && y !in some && y !in Q(h, INNERS) ensures Untouched(h, n, y) { assert Untouched(m, n, y); }
  }

  lemma DropLeafShrinks(h: Heap, k: Key, locked: bool, loose: set<Id>)
    requires Inv(h, loose) && k.t != A && k != INNERS && Q(h, k) != []
    ensures var n := DropLeaf(h, k, locked);
      Q(n, k) == Q(h, k)[1..] && Cnt(n, k) == |Q(n, k)| && Shrinks(h, n, k)
  {
    hide Inv, DropLeaf, Unshelve, Shrinks, Keeps, Untouched;
    var n, x := DropLeaf(h, k, locked), Q(h, k)[0];
    DropLeafInv(h, k, locked, loose);
    InvCounted(n, loose, k);
    var m := Unshelve(h, k).(held := n.held);
    UnshelveBeheads(h, k, n.held);
    var some := if Nested(h.obj[x]) then {x, h.obj[x].inner, ROOT} else {x};
    TailUntouched(h, m, n, k, some, loose);
    KeepsSame(m, n, h, some);
    forall y | y in Q(n, k) ensures y in h.obj { InvCached(h, loose, k, y); }
    DropShrinks(h, m, n, k, some);
  }

  lemma InvCached(h: Heap, loose: set<Id>, k: Key, y: Id)
    requires Inv(h, loose) && y in Q(h, k)
    ensures y in h.obj && y != ROOT && Home(h.obj[y]) == k && y !in h.known && y !in loose
  {
  }

  lemma InvCounted(h: Heap, loose: set<Id>, k: Key)
    requires Inv(h, loose)
    ensures Cnt(h, k) == |Q(h, k)| && NoDup(Q(h, k))
  {
  }

  /** An object in one cache is in no other, and its lock is in none. */
  lemma CachedElsewhere(h: Heap, k: Key, loose: set<Id>)
    requires Inv(h, loose) && k != INNERS && k.t != A
    ensures NoDup(Q(h, k))
    ensures forall y :: y in Q(h, k) ==> y in h.obj && y != ROOT && y !in Q(h, INNERS)
    ensures forall y :: y in Q(h, k) && Nested(h.obj[y]) ==> h.obj[y].inner !in Q(h, k) && h.obj[y].inner in h.known
  {
    forall y | y in Q(h, k) ensures y in h.obj && y != ROOT && y !in Q(h, INNERS) && Good(h, y) {
      assert y in h.obj && Home(h.obj[y]) == k;
    }
    hide Single, Tree, Counted, Numbered, Referred;
  }

  /** Destroys from the front of a cache down to the low-water mark. */
  function Purge(h: Heap, k: Key, n: nat): Heap
    decreases n
  {
    if n > 0 && Cnt(h, k) > Min(h, k.t) && Q(h, k) != [] then Purge(DropLeaf(h, k, false), k, n - 1) else h
  }

  /** Destroys everything in a cache. */
  function Flush(h: Heap, k: Key, locked: bool, n: nat): Heap
    decreases n
  {
    if n > 0 && Q(h, k) != [] then Flush(DropLeaf(h, k, locked), k, locked, n - 1) else h
  }

  lemma StaysShrinks(h: Heap, k: Key)
    ensures Shrinks(h, h, k)
  {
  }

  lemma {:induction false} PurgeKeeps(h: Heap, k: Key, n: nat, loose: set<Id>)
    requires Inv(h, loose) && k.t != A && k != INNERS && n == |Q(h, k)|
    ensures var r := Purge(h, k, n);
      Inv(r, loose) && Shrinks(h, r, k) && r.held == h.held && (Cnt(r, k) <= Min(h, k.t) || Q(r, k) == [])
    decreases n
  {
    hide Inv, Shrinks, DropLeaf;
    if n > 0 && Cnt(h, k) > Min(h, k.t) {
      var m := DropLeaf(h, k, false);
      DropLeafInv(h, k, false, loose);
      DropLeafShrinks(h, k, false, loose);
      assert m.lim == h.lim by { ShrinksSame(h, m, k); }
      PurgeKeeps(m, k, n - 1, loose);
      ShrinksTwice(h, m, Purge(m, k, n - 1), k);
    } else {
      StaysShrinks(h, k);
    }
  }

  lemma ShrinksSame(h: Heap, r: Heap, k: Key)
    requires Shrinks(h, r, k)
    ensures r.revs == h.revs && r.lim == h.lim && r.next == h.next && r.known <= h.known
    ensures forall j: Key :: j != k && j != INNERS ==> Q(r, j) == Q(h, j)
  {
  }

  ghost predicate AnyNested(h: Heap, q: seq<Id>) {
    exists x :: x in q && x in h.obj && Nested(h.obj[x])
  }

  /** Emptying a cache leaves nothing in it, and takes the lock of the default attributes
      object exactly when it held a mutex that is not fast. */
  lemma {:induction false} FlushKeeps(h: Heap, k: Key, locked: bool, n: nat, loose: set<Id>)
    requires Inv(h, loose) && k.t != A && k != INNERS && n == |Q(h, k)|
    ensures var r := Flush(h, k, locked, n);
      Inv(r, loose) && Shrinks(h, r, k) && Q(r, k) == [] && r.held == (h.held || (locked && AnyNested(h, Q(h, k))))
    decreases n
  {
    hide Inv, Shrinks, DropLeaf;
    if n > 0 {
      var m, x := DropLeaf(h, k, locked), Q(h, k)[0];
      DropLeafInv(h, k, locked, loose);
      DropLeafShrinks(h, k, locked, loose);
      FlushKeeps(m, k, locked, n - 1, loose);
      ShrinksTwice(h, m, Flush(m, k, locked, n - 1), k);
      NestedTail(h, m, k, locked, loose);
    } else {
      StaysShrinks(h, k);
    }
  }

  lemma NestedTail(h: Heap, m: Heap, k: Key, locked: bool, loose: set<Id>)
    requires Inv(h, loose) && k.t != A && k != INNERS && Q(h, k) != [] && m == DropLeaf(h, k, locked)
    ensures Q(h, k)[0] in h.obj
    ensures AnyNested(h, Q(h, k)) <==> Nested(h.obj[Q(h, k)[0]]) || AnyNested(m, Q(m, k))
  {
    hide Inv, DropLeaf, Nested;
    var q := Q(h, k);
    DropTail(h, m, k, locked, loose);
    assert q == [q[0]] + q[1..];
    if AnyNested(h, q) {
      var x :| x in q && x in h.obj && Nested(h.obj[x]);
      assert x == q[0] || (x in Q(m, k) && Untouched(h, m, x));
    }
    if AnyNested(m, Q(m, k)) {
      var x :| x in Q(m, k) && x in m.obj && Nested(m.obj[x]);
      assert Untouched(h, m, x);
      assert x in q;
    }
  }

  lemma DropTail(h: Heap, m: Heap, k: Key, locked: bool, loose: set<Id>)
    requires Inv(h, loose) && k.t != A && k != INNERS && Q(h, k) != [] && m == DropLeaf(h, k, locked)
    ensures Q(h, k)[0] in h.obj && Q(m, k) == Q(h, k)[1..]
    ensures forall y :: y in Q(m, k) ==> y in Q(h, k) && Untouched(h, m, y)
  {
    hide Inv, DropLeaf, Unshelve, Keeps, Untouched;
    var x := Q(h, k)[0];
    DropLeafInv(h, k, locked, loose);
    UnshelveBeheads(h, k, m.held);
    TailUntouched(h, Unshelve(h, k).(held := m.held), m, k, if Nested(h.obj[x]) then {x, h.obj[x].inner, ROOT} else {x}, loose);
  }

  /** Caches or destroys a mutex or condition variable just released. */
  function Stow(h: Heap, x: Id): Heap
    requires x in h.obj && h.obj[x].parent in h.obj
  {
    var k := Home(h.obj[x]);
    if k == INNERS then StowFast(h, x)
    else if !Cacheable(h, x) then EraseLeaf(h, x, false)
    else if Cnt(h, k) < Max(h, k.t) then Shelve(h, x)
    else Purge(EraseLeaf(h, x, false), k, |Q(h, k)|)
  }

  /** What stowing x may touch besides. */
  ghost predicate SpentBy(h: Heap, x: Id, y: Id)
    requires x in h.obj
  {
    y == x || Spent(h, Home(h.obj[x]), y) || y == LockOf(h.obj[x])
  }

  ghost predicate Stows(h: Heap, r: Heap, x: Id)
    requires x in h.obj
  {
    && r.revs == h.revs && r.lim == h.lim && r.next == h.next && r.held == h.held && r.known <= h.known
    && (forall j: Key {:trigger Q(r, j)} :: j != Home(h.obj[x]) && j != INNERS ==> Q(r, j) == Q(h, j))
    && (forall y {:trigger Untouched(h, r, y)} :: y in h.obj && !SpentBy(h, x, y) ==> Untouched(h, r, y))
  }

  lemma KeepsStows(h: Heap, r: Heap, x: Id, some: set<Id>, k: Key)
    requires x in h.obj && Keeps(h, r, some, k) && r.known <= h.known && (k == INNERS || k == Home(h.obj[x]))
    requires forall y :: y in some ==> SpentBy(h, x, y)
    ensures Stows(h, r, x)
  {
    forall y | y in h.obj && !SpentBy(h, x, y) ensures Untouched(h, r, y) {
      assert y !in some && y !in Q(h, k);
    }
  }

  /** The ids that destroying x touches. */
  function Undone(h: Heap, x: Id): set<Id>
    requires x in h.obj
  {
    if Nested(h.obj[x]) then {x, h.obj[x].inner, ROOT} else {x}
  }

  lemma UndoneSpent(h: Heap, x: Id)
    requires x in h.obj
    ensures forall y :: y in Undone(h, x) ==> SpentBy(h, x, y)
    ensures forall y :: y in {x} ==> SpentBy(h, x, y)
  {
  }

  /** No cached object is undone by the destruction of a loose one. */
  lemma UndoneNotCached(h: Heap, x: Id, k: Key, loose: set<Id>)
    requires Inv(h, loose) && x in loose && x in h.obj && h.obj[x].typ != A && Good(h, x)
    ensures forall z :: z in Q(h, k) ==> z in h.obj && z !in Undone(h, x)
  {
    forall z | z in Q(h, k) ensures z in h.obj && z !in Undone(h, x) {
      InvCached(h, loose, k, z);
      if Nested(h.obj[x]) { NestedInner(h, x, loose); }
    }
  }

  lemma StaySpent(h: Heap, n: Heap, x: Id, loose: set<Id>)
    requires Inv(h, loose) && x in loose && x in h.obj && Keeps(h, n, Undone(h, x), INNERS) && Home(h.obj[x]) != INNERS
    requires h.obj[x].typ != A && Good(h, x)
    ensures var k := Home(h.obj[x]);
      Q(n, k) == Q(h, k) && forall y :: y in h.obj && !SpentBy(h, x, y) ==> Untouched(h, n, y) && !Spent(n, k, y)
  {
    var k := Home(h.obj[x]);
    CachedElsewhere(h, k, loose);
    UndoneNotCached(h, x, k, loose);
    UndoneSpent(h, x);
    hide Inv, Good, Undone, Nested;
    assert Q(n, k) == Q(h, k);
    forall z | z in Q(n, k) ensures z in h.obj && Untouched(h, n, z) {
      assert z !in Q(h, INNERS);
    }
    forall y | y in h.obj && !SpentBy(h, x, y) ensures Untouched(h, n, y) && !Spent(n, k, y) {
      assert !Spent(h, k, y) && y !in Undone(h, x);
      assert y !in Q(n, INNERS);
    }
  }

  lemma ErasedStows(h: Heap, x: Id, loose: set<Id>)
    requires Inv(h, loose) && x in loose && x in h.obj && h.obj[x].typ != A && Good(h, x)
    ensures var n := EraseLeaf(h, x, false);
      && Inv(n, loose - {x}) && Keeps(h, n, Undone(h, x), INNERS) && n.known <= h.known && Stows(h, n, x)
  {
    hide Inv, Good, Keeps, EraseLeaf, SpentBy, Stows;
    var n := EraseLeaf(h, x, false);
    EraseLeafKeeps(h, x, false, loose);
    assert h.(held := h.held) == h;
    UndoneSpent(h, x);
    assert n.known <= h.known;
    KeepsStows(h, n, x, Undone(h, x), INNERS);
  }

  lemma ShelvedStows(h: Heap, x: Id, loose: set<Id>)
    requires Inv(h, loose) && x in loose && x in h.obj && h.obj[x].typ != A && Good(h, x) && h.obj[x].seqn == 0
    ensures Inv(Shelve(h, x), loose - {x}) && Stows(h, Shelve(h, x), x)
  {
    hide Inv, Good, Keeps, Shelve, SpentBy, Stows;
    ShelveInv(h, x, loose);
    ShelveKeeps(h, x);
    UndoneSpent(h, x);
    ShelveKnown(h, x);
    KeepsStows(h, Shelve(h, x), x, {x}, Home(h.obj[x]));
  }

  lemma PurgedStows(h: Heap, x: Id, loose: set<Id>)
    requires Inv(h, loose) && x in loose && x in h.obj && h.obj[x].typ != A && Good(h, x) && Home(h.obj[x]) != INNERS
    ensures var k := Home(h.obj[x]); var r := Purge(EraseLeaf(h, x, false), k, |Q(h, k)|);
      Inv(r, loose - {x}) && Stows(h, r, x) && (Cnt(r, k) <= Min(h, k.t) || Q(r, k) == [])
  {
    hide Inv, Good, Keeps, EraseLeaf, Purge, SpentBy, Stows, Shrinks, Undone;
    var k, n := Home(h.obj[x]), EraseLeaf(h, x, false);
    ErasedStows(h, x, loose);
    StaySpent(h, n, x, loose);
    KeepsHeld(h, n, Undone(h, x), INNERS);
    PurgeKeeps(n, k, |Q(n, k)|, loose - {x});
    PurgeStows(h, n, Purge(n, k, |Q(n, k)|), x, Undone(h, x));
  }

  lemma StowKeeps(h: Heap, x: Id, loose: set<Id>)
    requires Inv(h, loose) && x in loose && x in h.obj && h.obj[x].typ != A && Good(h, x) && h.obj[x].seqn == 0
    ensures h.obj[x].parent in h.obj && Inv(Stow(h, x), loose - {x}) && Stows(h, Stow(h, x), x)
  {
    var k := Home(h.obj[x]);
    ParentOf(h, loose, x);
    hide Inv, Good, Keeps, StowFast, EraseLeaf, Shelve, Purge, SpentBy, Stows;
    if k == INNERS {
      StowFastKeeps(h, x, loose);
      UndoneSpent(h, x);
      KeepsStows(h, StowFast(h, x), x, {x}, k);
    } else if !Cacheable(h, x) {
      ErasedStows(h, x, loose);
    } else if Cnt(h, k) < Max(h, k.t) {
      ShelvedStows(h, x, loose);
    } else {
      PurgedStows(h, x, loose);
    }
  }

  lemma ShelveKnown(h: Heap, x: Id)
    requires x in h.obj
    ensures Shelve(h, x).known == h.known
  {
  }

  lemma PurgeStows(h: Heap, n: Heap, r: Heap, x: Id, some: set<Id>)
    requires x in h.obj && Keeps(h, n, some, INNERS) && Shrinks(n, r, Home(h.obj[x])) && n.known <= h.known && r.held == n.held
    requires forall y :: y in h.obj && !SpentBy(h, x, y) ==> Untouched(h, n, y) && !Spent(n, Home(h.obj[x]), y)
    ensures Stows(h, r, x)
  {
    hide SpentBy, Spent;
    forall y | y in h.obj && !SpentBy(h, x, y) ensures Untouched(h, r, y) {
      assert Untouched(h, n, y) && Untouched(n, r, y);
    }
    forall j: Key | j != Home(h.obj[x]) && j != INNERS ensures Q(r, j) == Q(h, j) { assert Q(n, j) == Q(h, j); }
  }

  // --- Releasing ------------------------------------------------------------------------------------------

  /** Releases a known mutex or condition variable of an attributes object that is locked. */
  function FreeNolock(h: Heap, x: Id): Heap
    requires x in h.obj && h.obj[x].parent in h.obj && h.obj[x].parent != x
  {
    var m := Retire(h, x);
    if x in m.obj && m.obj[x].parent in m.obj then Stow(m, x) else m
  }

  /** Attributes objects, loose objects and locks in use are not spent by emptying a cache
      of mutexes or condition variables. */
  ghost predicate Firm(h: Heap, loose: set<Id>, y: Id) {
    y in h.obj && y != ROOT &&
    (h.obj[y].typ == A || y in loose || (y in h.known && exists b :: b in h.obj && b != ROOT && h.obj[b].typ == A && LockOf(h.obj[b]) == y))
  }

  lemma FirmNotCached(h: Heap, loose: set<Id>, y: Id, k: Key)
    requires Inv(h, loose) && Firm(h, loose, y) && k.t != A
    ensures y !in Q(h, k)
  {
    if y in Q(h, k) { InvCached(h, loose, k, y); }
  }

  lemma FirmNotInner(h: Heap, loose: set<Id>, y: Id, z: Id)
    requires Inv(h, loose) && Firm(h, loose, y) && z in h.obj && z != ROOT && h.obj[z].typ != A && z !in loose
    ensures LockOf(h.obj[z]) != y
  {
    assert Good(h, z);
    if LockOf(h.obj[z]) == y { KnownNotLoose(h, y, loose); }
  }

  lemma KnownNotLoose(h: Heap, i: Id, loose: set<Id>)
    requires Inv(h, loose) && i in h.known
    ensures i !in loose
  {
    CoreRoot(h, loose);
  }

  lemma FirmNotSpent(h: Heap, loose: set<Id>, k: Key, y: Id)
    requires Inv(h, loose) && Firm(h, loose, y) && k.t != A
    ensures !Spent(h, k, y)
  {
    FirmNotCached(h, loose, y, k);
    FirmNotCached(h, loose, y, INNERS);
    forall z | z in Q(h, k) && z in h.obj ensures LockOf(h.obj[z]) != y {
      InvCached(h, loose, k, z);
      FirmNotInner(h, loose, y, z);
    }
  }

  lemma AlikeFirm(h: Heap, m: Heap, loose: set<Id>, loose': set<Id>, y: Id)
    requires Alike(h, m) && Firm(h, loose, y) && (y in h.known ==> y in m.known) && (y in loose ==> y in loose')
    ensures Firm(m, loose', y)
  {
    AlikeAt(h, m, y);
    if b :| b in h.obj && b != ROOT && h.obj[b].typ == A && LockOf(h.obj[b]) == y {
      AlikeAt(h, m, b);
      AlikeLock(h, m, b);
    }
    hide Alike, LockOf;
  }

  lemma FirmRetired(h: Heap, x: Id, loose: set<Id>, y: Id)
    requires x in h.known && x in h.obj && h.obj[x].parent in h.obj && Firm(h, loose, y) && y != x
    ensures Firm(Retire(h, x), loose + {x}, y)
  {
    hide Retire, Alike, Firm;
    RetireAlike(h, x);
    AlikeFirm(h, Retire(h, x), loose, loose + {x}, y);
  }

  lemma AlikeLock(h: Heap, r: Heap, x: Id)
    requires Alike(h, r) && x in h.obj
    ensures x in r.obj && LockOf(r.obj[x]) == LockOf(h.obj[x])
  {
    AlikeAt(h, r, x);
  }

  ghost predicate FreesLists(h: Heap, r: Heap, x: Id)
    requires x in h.obj
  {
    && r.revs == h.revs && r.lim == h.lim && r.next == h.next && r.held == h.held
    && r.known <= h.known && x !in r.known
    && (forall j: Key {:trigger Q(r, j)} :: j != Home(h.obj[x]) && j != INNERS ==> Q(r, j) == Q(h, j))
  }

  ghost predicate FreesFirm(h: Heap, r: Heap, x: Id, loose: set<Id>)
    requires x in h.obj
  {
    forall y {:trigger Untouched(h, r, y)} :: Firm(h, loose, y) && y != x && y != h.obj[x].parent ==> Untouched(h, r, y)
  }

  ghost predicate FreesParent(h: Heap, r: Heap, x: Id)
    requires x in h.obj
  {
    var p := h.obj[x].parent;
    p in h.obj && p != ROOT ==>
      p in r.obj && r.obj[p] == h.obj[p].(refcnt := h.obj[p].refcnt - 1) && (p in r.known <==> p in h.known)
  }

  /** A mutex or condition variable that nothing uses as its lock is released: its parent
      has one reference less, and locks in use, attributes objects and loose ones stay. */
  ghost predicate Frees(h: Heap, r: Heap, x: Id, loose: set<Id>)
    requires x in h.obj
  {
    FreesLists(h, r, x) && FreesFirm(h, r, x, loose) && FreesParent(h, r, x)
  }

  lemma FirmStowed(h: Heap, m: Heap, r: Heap, x: Id, loose: set<Id>, y: Id)
    requires Inv(h, loose) && x in h.known && x in h.obj && h.obj[x].parent in h.obj && m == Retire(h, x)
    requires Inv(m, loose + {x}) && x in m.obj && m.obj[x].typ != A && h.obj[x].typ != A && Stows(m, r, x)
    requires Firm(h, loose, y) && y != x
    ensures Untouched(m, r, y)
  {
    FirmRetired(h, x, loose, y);
    FirmNotSpent(m, loose + {x}, Home(m.obj[x]), y);
    ParentOf(h, loose, x);
    FirmNotInner(h, loose, y, x);
    RetireAlike(h, x);
    AlikeAt(h, m, x);
    hide Inv, Retire, Spent, Firm;
  }

  lemma FreeNolockInv(h: Heap, x: Id, loose: set<Id>)
    requires Inv(h, loose) && x in h.known && x in h.obj && h.obj[x].typ != A && Unused(h, x, loose)
    ensures h.obj[x].parent in h.obj && h.obj[x].parent != x && x !in loose
    ensures var m, r := Retire(h, x), FreeNolock(h, x);
      && Inv(m, loose + {x}) && x in m.obj && m.obj[x].typ != A && m.obj[x].parent in m.obj && Home(m.obj[x]) == Home(h.obj[x])
      && r == Stow(m, x) && Inv(r, loose) && Stows(m, r, x)
  {
    hide Inv, Good, Unused, Retire, Stow, Stows;
    ParentOf(h, loose, x);
    RetireInv(h, x, loose);
    RetireAlike(h, x);
    var m := Retire(h, x);
    AlikeAt(h, m, x);
    ParentOf(m, loose + {x}, x);
    RetiredGood(h, x, loose);
    StowKeeps(m, x, loose + {x});
    Restored(loose, x);
  }

  /** Only fast mutexes are inner locks, and those have none. */
  lemma NotOwnLock(h: Heap, x: Id, loose: set<Id>)
    requires Inv(h, loose) && x in h.known && x in h.obj && h.obj[x].typ != A
    ensures LockOf(h.obj[x]) != x
  {
    ParentOf(h, loose, x);
    assert Good(h, x);
  }

  lemma RetiredGood(h: Heap, x: Id, loose: set<Id>)
    requires Inv(h, loose) && x in h.known && x in h.obj && h.obj[x].typ != A
    ensures h.obj[x].parent in h.obj && Good(Retire(h, x), x)
  {
    ParentOf(h, loose, x);
    assert Good(h, x);
    NotOwnLock(h, x, loose);
    RetireAlike(h, x);
    hide Inv, Retire;
    AlikeAt(h, Retire(h, x), x);
    if LockOf(h.obj[x]) in h.obj { AlikeAt(h, Retire(h, x), LockOf(h.obj[x])); }
  }

  lemma FirmFreed(h: Heap, x: Id, loose: set<Id>, y: Id)
    requires Inv(h, loose) && x in h.known && x in h.obj && h.obj[x].typ != A && Unused(h, x, loose)
    requires Firm(h, loose, y) && y != x && h.obj[x].parent in h.obj && y != h.obj[x].parent
    ensures h.obj[x].parent != x && Untouched(h, FreeNolock(h, x), y)
  {
    hide Inv, Retire, FreeNolock, Stow, Unused, Stows, Firm, Keeps;
    FreeNolockInv(h, x, loose);
    RetireKeeps(h, x, INNERS);
    FirmStowed(h, Retire(h, x), FreeNolock(h, x), x, loose, y);
    FirmNotCached(h, loose, y, INNERS);
    FirmIn(h, loose, y);
    KeepsAt(h, Retire(h, x), {x, h.obj[x].parent}, INNERS, y);
  }

  lemma FirmIn(h: Heap, loose: set<Id>, y: Id)
    requires Firm(h, loose, y)
    ensures y in h.obj && y != ROOT
  {
  }

  lemma KeepsAt(h: Heap, r: Heap, some: set<Id>, k: Key, y: Id)
    requires Keeps(h, r, some, k) && y in h.obj && y !in some && y !in Q(h, k)
    ensures Untouched(h, r, y)
  {
  }

  lemma ParentFreed(h: Heap, x: Id, loose: set<Id>)
    requires Inv(h, loose) && x in h.known && x in h.obj && h.obj[x].typ != A && Unused(h, x, loose)
    requires h.obj[x].parent in h.obj && h.obj[x].parent != ROOT
    ensures h.obj[x].parent != x
    ensures var r, p := FreeNolock(h, x), h.obj[x].parent;
      p in r.obj && r.obj[p] == h.obj[p].(refcnt := h.obj[p].refcnt - 1) && (p in r.known <==> p in h.known)
  {
    hide Inv, Retire, FreeNolock, Stow, Unused, Stows, Firm;
    FreeNolockInv(h, x, loose);
    ParentFirm(h, loose, x);
    RetireParent(h, x);
    FirmStowed(h, Retire(h, x), FreeNolock(h, x), x, loose, h.obj[x].parent);
  }

  lemma RetireParent(h: Heap, x: Id)
    requires x in h.obj && h.obj[x].parent in h.obj && h.obj[x].parent != x
    ensures var m, p := Retire(h, x), h.obj[x].parent;
      p in m.obj && m.obj[p] == h.obj[p].(refcnt := h.obj[p].refcnt - 1) && (p in m.known <==> p in h.known)
  {
  }

  lemma ListsFreed(h: Heap, x: Id, loose: set<Id>)
    requires Inv(h, loose) && x in h.known && x in h.obj && h.obj[x].typ != A && Unused(h, x, loose)
    ensures h.obj[x].parent in h.obj && h.obj[x].parent != x && FreesLists(h, FreeNolock(h, x), x)
  {
    hide Inv, Retire, FreeNolock, Stow, Unused, Stows, Alike;
    FreeNolockInv(h, x, loose);
    RetireAlike(h, x);
    StowsRest(h, Retire(h, x), FreeNolock(h, x), x);
  }

  lemma FreeNolockKeeps(h: Heap, x: Id, loose: set<Id>)
    requires Inv(h, loose) && x in h.known && x in h.obj && h.obj[x].typ != A && Unused(h, x, loose)
    ensures h.obj[x].parent in h.obj && h.obj[x].parent != x
    ensures Inv(FreeNolock(h, x), loose) && Frees(h, FreeNolock(h, x), x, loose)
  {
    hide Inv, FreeNolock, Unused, Firm, FreesLists, Untouched, Stows;
    FreeNolockInv(h, x, loose);
    ListsFreed(h, x, loose);
    if h.obj[x].parent != ROOT { ParentFreed(h, x, loose); }
    forall y | Firm(h, loose, y) && y != x && y != h.obj[x].parent ensures Untouched(h, FreeNolock(h, x), y) {
      FirmFreed(h, x, loose, y);
    }
  }

  lemma StowsRest(h: Heap, m: Heap, r: Heap, x: Id)
    requires x in m.obj && x in h.obj && Stows(m, r, x) && Home(m.obj[x]) == Home(h.obj[x])
    requires m.queue == h.queue && m.revs == h.revs && m.lim == h.lim && m.next == h.next && m.held == h.held
    requires m.known == h.known - {x}
    ensures r.revs == h.revs && r.lim == h.lim && r.next == h.next && r.held == h.held && r.known <= h.known && x !in r.known
    ensures forall j: Key :: j != Home(h.obj[x]) && j != INNERS ==> Q(r, j) == Q(h, j)
  {
    assert forall j: Key :: Q(m, j) == Q(h, j);
  }

  lemma ParentFirm(h: Heap, loose: set<Id>, x: Id)
    requires Inv(h, loose) && (x in h.known || x in loose) && x in h.obj && h.obj[x].parent != ROOT
    ensures Firm(h, loose, h.obj[x].parent)
  {
    ParentKnown(h, loose, x);
  }

  // --- Destroying attributes objects ------------------------------------------------------------------------

  /** Destroys an attributes object that is off its lists: its caches are emptied, its lock
      released to its parent, and its memory freed; if it still has references it is
      only marked.  The caller holds the parent's lock. */
  function DestroyAttr(h: Heap, a: Id): Heap
    requires a in h.obj
  {
    var locked := h.obj[a].parent == ROOT;
    var h1 := Flush(h, Key(a, C), locked, |Q(h, Key(a, C))|);
    var h2 := Flush(h1, Key(a, M), locked, |Q(h1, Key(a, M))|);
    if a !in h2.obj then h2
    else if h2.obj[a].refcnt != 0 then h2.(obj := h2.obj[a := h2.obj[a].(pending := true)])
    else
      var m := h2.obj[a].mutex;
      if m in h2.obj && h2.obj[m].parent in h2.obj && h2.obj[m].parent != m then Erase(FreeNolock(h2, m), a) else h2
  }

  lemma ShrinksFirm(h: Heap, r: Heap, k: Key, loose: set<Id>, y: Id)
    requires Inv(h, loose) && Shrinks(h, r, k) && k.t != A && Firm(h, loose, y)
    ensures Untouched(h, r, y) && Firm(r, loose, y)
  {
    FirmNotSpent(h, loose, k, y);
    if b :| b in h.obj && b != ROOT && h.obj[b].typ == A && LockOf(h.obj[b]) == y {
      FirmNotSpent(h, loose, k, b);
      assert Untouched(h, r, b);
    }
    hide Inv, Spent;
    assert Untouched(h, r, y);
  }

  /** A cached attributes object has a lock that is known, so its parent has a reference. */
  lemma CachedAttrsRefer(h: Heap, a: Id, loose: set<Id>)
    requires Inv(h, loose) && a in h.obj && h.obj[a].typ == A
    ensures Q(h, Key(a, A)) != [] ==> h.obj[a].refcnt > 0
  {
    if Q(h, Key(a, A)) != [] {
      var c := Q(h, Key(a, A))[0];
      assert c in Q(h, Key(a, A));
      InvCached(h, loose, Key(a, A), c);
      assert Good(h, c);
      assert h.obj[c].mutex in Kids(h, a);
      assert h.obj[a].refcnt == |Kids(h, a)|;
    }
  }

  ghost predicate NoLooseKids(h: Heap, a: Id, loose: set<Id>) {
    forall z :: z in loose && z in h.obj ==> h.obj[z].parent != a
  }

  lemma IsChildless(h: Heap, a: Id, loose: set<Id>)
    requires Inv(h, loose) && a in h.obj && h.obj[a].typ == A && h.obj[a].refcnt == 0 && NoLooseKids(h, a, loose)
    requires Q(h, Key(a, M)) == [] && Q(h, Key(a, C)) == []
    ensures Childless(h, a)
  {
    CachedAttrsRefer(h, a, loose);
    assert h.obj[a].refcnt == |Kids(h, a)|;
    forall y | y in h.obj && y != ROOT ensures h.obj[y].parent != a {
      assert y in h.known ==> (h.obj[y].parent == a ==> y in Kids(h, a));
      assert y in h.known || y in loose || y in Q(h, Home(h.obj[y]));
      assert Home(h.obj[y]) in {Key(h.obj[y].parent, A), Key(h.obj[y].parent, M), Key(h.obj[y].parent, C)};
    }
  }

  /** Emptying the two caches of a loose attributes object. */
  lemma FlushesKeep(h: Heap, a: Id, loose: set<Id>)
    requires Inv(h, loose) && a in loose && a in h.obj && h.obj[a].typ == A
    ensures var locked := h.obj[a].parent == ROOT; var kc, km := Key(a, C), Key(a, M);
      var h1 := Flush(h, kc, locked, |Q(h, kc)|); var h2 := Flush(h1, km, locked, |Q(h1, km)|);
      && Inv(h1, loose) && Inv(h2, loose) && Shrinks(h, h1, kc) && Shrinks(h1, h2, km)
      && Q(h2, kc) == [] && Q(h2, km) == []
      && h2.held == (h.held || (locked && AnyNested(h, Q(h, km))))
  {
    ParentOf(h, loose, a);
    var locked := h.obj[a].parent == ROOT;
    var kc, km := Key(a, C), Key(a, M);
    var h1 := Flush(h, kc, locked, |Q(h, kc)|);
    hide Inv, Shrinks, Flush;
    FlushKeeps(h, kc, locked, |Q(h, kc)|, loose);
    FlushKeeps(h1, km, locked, |Q(h1, km)|, loose);
    var h2 := Flush(h1, km, locked, |Q(h1, km)|);
    ShrinksSame(h, h1, kc);
    ShrinksSame(h1, h2, km);
    NoNestedCvs(h, kc, loose);
    MutexesStay(h, h1, kc, km, loose);
  }

  lemma NoNestedCvs(h: Heap, kc: Key, loose: set<Id>)
    requires Inv(h, loose) && kc.t == C
    ensures !AnyNested(h, Q(h, kc))
  {
    forall x | x in Q(h, kc) && x in h.obj ensures !Nested(h.obj[x]) { InvCached(h, loose, kc, x); }
  }

  /** Emptying a cache of condition variables leaves the cached mutexes alone. */
  lemma MutexesStay(h: Heap, r: Heap, kc: Key, km: Key, loose: set<Id>)
    requires Inv(h, loose) && Shrinks(h, r, kc) && kc.t == C && km.t == M && km != INNERS
    ensures Q(r, km) == Q(h, km) && (AnyNested(r, Q(r, km)) <==> AnyNested(h, Q(h, km)))
  {
    ShrinksSame(h, r, kc);
    forall x | x in Q(h, km) ensures Untouched(h, r, x) {
      InvCached(h, loose, km, x);
      CachedElsewhere(h, km, loose);
      assert x !in Q(h, kc) by { if x in Q(h, kc) { InvCached(h, loose, kc, x); } }
      forall z | z in Q(h, kc) && z in h.obj ensures LockOf(h.obj[z]) != x { InvCached(h, loose, kc, z); }
      assert !Spent(h, kc, x);
    }
    hide Inv, Shrinks, Spent, Nested;
    if AnyNested(h, Q(h, km)) {
      var x :| x in Q(h, km) && x in h.obj && Nested(h.obj[x]);
      assert Untouched(h, r, x);
    }
    if AnyNested(r, Q(r, km)) {
      var x :| x in Q(r, km) && x in r.obj && Nested(r.obj[x]);
      assert Untouched(h, r, x);
    }
  }

  /** What the two flushes leave of the attributes object, its parent and its lock. */
  lemma FlushedFirm(h: Heap, h1: Heap, h2: Heap, a: Id, loose: set<Id>, y: Id)
    requires Inv(h, loose) && Inv(h1, loose) && Shrinks(h, h1, Key(a, C)) && Shrinks(h1, h2, Key(a, M)) && Firm(h, loose, y)
    ensures Untouched(h, h2, y) && Firm(h2, loose, y)
  {
    hide Inv, Shrinks, Firm;
    ShrinksFirm(h, h1, Key(a, C), loose, y);
    ShrinksFirm(h1, h2, Key(a, M), loose, y);
  }

  lemma AttrLockFirm(h: Heap, a: Id, loose: set<Id>)
    requires Inv(h, loose) && a in h.obj && a != ROOT && h.obj[a].typ == A && Good(h, a)
    ensures Firm(h, loose, a) && Firm(h, loose, h.obj[a].mutex) && h.obj[a].mutex in h.known && h.obj[a].mutex != a
    ensures LockOf(h.obj[a]) == h.obj[a].mutex
  {
    CoreRoot(h, loose);
  }

  lemma AttrLockUnused(h: Heap, a: Id, loose: set<Id>)
    requires Inv(h, loose) && a in loose && a in h.obj && a != ROOT && h.obj[a].typ == A && Good(h, a)
    ensures Unused(h, h.obj[a].mutex, loose)
  {
    AttrLockFirm(h, a, loose);
    CoreRoot(h, loose);
    hide Core, AllGood, Good;
  }

  /** The attributes object with its two caches emptied. */
  function Flushed(h: Heap, a: Id): Heap
    requires a in h.obj
  {
    var locked := h.obj[a].parent == ROOT;
    var h1 := Flush(h, Key(a, C), locked, |Q(h, Key(a, C))|);
    Flush(h1, Key(a, M), locked, |Q(h1, Key(a, M))|)
  }

  ghost predicate ReadyToGo(h: Heap, a: Id, loose: set<Id>) {
    && Inv(h, loose) && a in loose && a in h.obj && a != ROOT && h.obj[a].typ == A && Good(h, a) && h.obj[a].refcnt == 0
    && NoLooseKids(h, a, loose)
  }

  lemma LooseFirm(h: Heap, loose: set<Id>, z: Id)
    requires Inv(h, loose) && z in loose
    ensures Firm(h, loose, z)
  {
    ParentOf(h, loose, z);
  }

  /** Firm objects are left alone, and stay firm. */
  ghost predicate FirmApart(h: Heap, r: Heap, loose: set<Id>) {
    forall y :: Firm(h, loose, y) ==> Untouched(h, r, y) && Firm(r, loose, y)
  }

  ghost predicate ListsApart(h: Heap, r: Heap) {
    && r.revs == h.revs && r.lim == h.lim && r.next == h.next && r.known <= h.known
    && (forall j: Key :: j.t == A ==> Q(r, j) == Q(h, j))
  }

  /** What the two flushes leave alone. */
  ghost predicate FlushedApart(h: Heap, h2: Heap, a: Id, loose: set<Id>) {
    FirmApart(h, h2, loose) && ListsApart(h, h2) && Q(h2, Key(a, C)) == [] && Q(h2, Key(a, M)) == []
  }

  lemma FlushedLists(h: Heap, a: Id, loose: set<Id>)
    requires Inv(h, loose) && a in loose && a in h.obj && h.obj[a].typ == A
    ensures ListsApart(h, Flushed(h, a))
  {
    hide Inv, Shrinks, Flush;
    var h1 := Flush(h, Key(a, C), h.obj[a].parent == ROOT, |Q(h, Key(a, C))|);
    FlushesKeep(h, a, loose);
    ShrinksSame(h, h1, Key(a, C));
    ShrinksSame(h1, Flushed(h, a), Key(a, M));
  }

  lemma FlushedFirms(h: Heap, a: Id, loose: set<Id>)
    requires Inv(h, loose) && a in loose && a in h.obj && h.obj[a].typ == A
    ensures FirmApart(h, Flushed(h, a), loose)
  {
    hide Inv, Shrinks, Firm, Flush, Untouched;
    var h1 := Flush(h, Key(a, C), h.obj[a].parent == ROOT, |Q(h, Key(a, C))|);
    FlushesKeep(h, a, loose);
    forall y | Firm(h, loose, y) ensures Untouched(h, Flushed(h, a), y) && Firm(Flushed(h, a), loose, y) {
      FlushedFirm(h, h1, Flushed(h, a), a, loose, y);
    }
  }

  lemma FlushedParts(h: Heap, a: Id, loose: set<Id>)
    requires Inv(h, loose) && a in loose && a in h.obj && h.obj[a].typ == A
    ensures var h2 := Flushed(h, a);
      && Inv(h2, loose) && FlushedApart(h, h2, a, loose)
      && h2.held == (h.held || (h.obj[a].parent == ROOT && AnyNested(h, Q(h, Key(a, M)))))
  {
    hide Inv, Shrinks, Flush, FirmApart, ListsApart;
    FlushedFirms(h, a, loose);
    FlushedLists(h, a, loose);
    FlushesKeep(h, a, loose);
  }

  lemma FlushedKids(h: Heap, h2: Heap, a: Id, loose: set<Id>)
    requires Inv(h, loose) && NoLooseKids(h, a, loose) && FlushedApart(h, h2, a, loose)
    ensures NoLooseKids(h2, a, loose)
  {
    hide Inv, Firm;
    forall z | z in loose && z in h2.obj ensures h2.obj[z].parent != a {
      LooseFirm(h, loose, z);
      FirmIn(h, loose, z);
      assert Untouched(h, h2, z);
    }
  }

  lemma FlushedReady(h: Heap, a: Id, loose: set<Id>)
    requires ReadyToGo(h, a, loose)
    ensures var h2 := Flushed(h, a);
      && ReadyToGo(h2, a, loose) && FlushedApart(h, h2, a, loose) && h2.obj[a] == h.obj[a]
      && h2.held == (h.held || (h.obj[a].parent == ROOT && AnyNested(h, Q(h, Key(a, M)))))
  {
    var h2 := Flushed(h, a);
    hide Inv, Firm, Flushed, Good, NoLooseKids;
    FlushedParts(h, a, loose);
    FlushedKids(h, h2, a, loose);
    AttrLockFirm(h, a, loose);
    assert Untouched(h, h2, a) && Untouched(h, h2, h.obj[a].mutex);
    GoodStays(h, h2, a);
  }

  lemma GoodStays(h: Heap, r: Heap, a: Id)
    requires a in h.obj && h.obj[a].typ == A && Good(h, a) && Untouched(h, r, a) && Untouched(h, r, h.obj[a].mutex)
    ensures Good(r, a)
  {
  }

  lemma ReleasedKids(h: Heap, r: Heap, a: Id, m: Id, loose: set<Id>)
    requires Inv(h, loose) && NoLooseKids(h, a, loose) && m in h.known && m in h.obj && Frees(h, r, m, loose)
    ensures NoLooseKids(r, a, loose)
  {
    hide Inv, Firm, Frees;
    forall z | z in loose && z in r.obj ensures r.obj[z].parent != a {
      LooseFirm(h, loose, z);
      FirmIn(h, loose, z);
      ParentSame(h, r, m, z, loose);
    }
  }

  lemma ReleasedFacts(h: Heap, a: Id, loose: set<Id>)
    requires ReadyToGo(h, a, loose)
    ensures var m := h.obj[a].mutex;
      && m in h.known && m in h.obj && h.obj[m].parent in h.obj && h.obj[m].parent != m && h.obj[m].typ == M
      && h.obj[m].parent == h.obj[a].parent && m != a && LockOf(h.obj[a]) == m && Unused(h, m, loose)
      && Firm(h, loose, a) && h.obj[a].parent != a
  {
    assert GoodAttr(h, a);
    ParentOf(h, loose, a);
    ParentOf(h, loose, h.obj[a].mutex);
    AttrLockFirm(h, a, loose);
    AttrLockUnused(h, a, loose);
    AgeDiffers(h, a, loose);
  }

  /** Releasing the lock of an attributes object whose caches are empty leaves it ready to be freed. */
  lemma LockReleased(h: Heap, a: Id, loose: set<Id>)
    requires ReadyToGo(h, a, loose) && Q(h, Key(a, C)) == [] && Q(h, Key(a, M)) == []
    ensures var m := h.obj[a].mutex;
      && m in h.obj && h.obj[m].parent in h.obj && h.obj[m].parent != m
      && var r := FreeNolock(h, m);
      && Inv(r, loose) && Frees(h, r, m, loose) && a in r.obj && r.obj[a] == h.obj[a] && Childless(r, a)
  {
    var m := h.obj[a].mutex;
    ReleasedFacts(h, a, loose);
    assert a != ROOT && Inv(h, loose) && NoLooseKids(h, a, loose) && h.obj[a].typ == A && h.obj[a].refcnt == 0;
    hide Inv, Good, Firm, Unused, FreeNolock, NoLooseKids, Frees, ReadyToGo, Childless;
    FreeNolockKeeps(h, m, loose);
    var r := FreeNolock(h, m);
    ReleasedSelf(h, r, a, m, loose);
    ReleasedKids(h, r, a, m, loose);
    IsChildless(r, a, loose);
  }

  lemma ReleasedSelf(h: Heap, r: Heap, a: Id, m: Id, loose: set<Id>)
    requires m in h.obj && Frees(h, r, m, loose) && Firm(h, loose, a) && a != m && a != ROOT && a != h.obj[m].parent
    requires Home(h.obj[m]).t == M && Q(h, Key(a, C)) == [] && Q(h, Key(a, M)) == []
    ensures a in h.obj && a in r.obj && r.obj[a] == h.obj[a] && Q(r, Key(a, C)) == [] && Q(r, Key(a, M)) == []
  {
    hide Firm, FreesParent;
    assert Untouched(h, r, a);
  }

  lemma AgeDiffers(h: Heap, a: Id, loose: set<Id>)
    requires Inv(h, loose) && a in h.obj && a != ROOT
    ensures h.obj[a].parent != a
  {
  }

  lemma ParentSame(h: Heap, r: Heap, m: Id, z: Id, loose: set<Id>)
    requires Inv(h, loose) && m in h.known && m in h.obj && Frees(h, r, m, loose) && z in loose && z in h.obj && z in r.obj && Firm(h, loose, z)
    ensures r.obj[z].parent == h.obj[z].parent
  {
    KnownNotLoose(h, m, loose);
    FirmIn(h, loose, z);
    hide Inv, Firm;
    if z != h.obj[m].parent { assert Untouched(h, r, z); }
  }

  /** The parent of x has one reference less. */
  ghost predicate OneLess(h: Heap, r: Heap, p: Id) {
    p in h.obj && p != ROOT ==>
      p in r.obj && r.obj[p] == h.obj[p].(refcnt := h.obj[p].refcnt - 1) && (p in r.known <==> p in h.known)
  }

  ghost predicate FirmBut(h: Heap, r: Heap, loose: set<Id>, some: set<Id>) {
    forall y :: Firm(h, loose, y) && y !in some ==> Untouched(h, r, y)
  }

  /** An attributes object without references is destroyed: its parent has one reference
      less, its lock and what it cached are gone from it, and other attributes objects,
      loose objects and locks stay. */
  ghost predicate Destroys(h: Heap, r: Heap, a: Id, loose: set<Id>)
    requires a in h.obj
  {
    ListsApart(h, r) && OneLess(h, r, h.obj[a].parent) && FirmBut(h, r, loose, {a, LockOf(h.obj[a]), h.obj[a].parent})
  }

  lemma DestroysFirm(h: Heap, h2: Heap, r: Heap, a: Id, loose: set<Id>, y: Id)
    requires a in h.obj && a in h2.obj && h2.obj[a] == h.obj[a] && FirmApart(h, h2, loose)
    requires var m := h.obj[a].mutex; m in h2.obj && Frees(h2, r, m, loose) && h2.obj[m].parent == h.obj[a].parent
    requires LockOf(h.obj[a]) == h.obj[a].mutex
    requires Firm(h, loose, y) && y !in {a, LockOf(h.obj[a]), h.obj[a].parent}
    ensures Untouched(h, Erase(r, a), y)
  {
    hide Firm, FreesParent, FreesLists;
    assert Untouched(h, h2, y);
    assert Untouched(h2, r, y);
  }

  lemma DestroysParent(h: Heap, h2: Heap, r: Heap, a: Id, loose: set<Id>)
    requires a in h.obj && a in h2.obj && h2.obj[a] == h.obj[a] && FirmApart(h, h2, loose) && h.obj[a].parent != a
    requires var m := h.obj[a].mutex; m in h2.obj && Frees(h2, r, m, loose) && h2.obj[m].parent == h.obj[a].parent
    requires h.obj[a].parent != ROOT ==> Firm(h, loose, h.obj[a].parent)
    ensures OneLess(h, Erase(r, a), h.obj[a].parent)
  {
    hide Firm, FreesFirm, FreesLists;
    var p := h.obj[a].parent;
    if p != ROOT { assert Untouched(h, h2, p); }
  }

  lemma DestroysLists(h: Heap, h2: Heap, r: Heap, a: Id, loose: set<Id>, m: Id)
    requires ListsApart(h, h2) && m in h2.obj && Frees(h2, r, m, loose) && h2.obj[m].typ == M
    ensures ListsApart(h, Erase(r, a)) && Erase(r, a).held == h2.held
  {
    hide FreesFirm, FreesParent;
    var e := Erase(r, a);
    forall j: Key | j.t == A ensures Q(e, j) == Q(h, j) { assert Q(r, j) == Q(h2, j) && Q(h2, j) == Q(h, j); }
  }

  lemma DestroyIs(h: Heap, a: Id, loose: set<Id>)
    requires ReadyToGo(h, a, loose)
    ensures var h2 := Flushed(h, a); var m := h.obj[a].mutex;
      && a in h2.obj && h2.obj[a] == h.obj[a] && m in h2.obj && h2.obj[m].parent in h2.obj && h2.obj[m].parent != m
      && DestroyAttr(h, a) == Erase(FreeNolock(h2, m), a)
  {
    FlushedReady(h, a, loose);
    ReleasedFacts(Flushed(h, a), a, loose);
    hide Inv, FreeNolock, Flush;
  }

  lemma DestroysFirms(h: Heap, h2: Heap, r: Heap, a: Id, loose: set<Id>)
    requires a in h.obj && a in h2.obj && h2.obj[a] == h.obj[a] && FirmApart(h, h2, loose)
    requires var m := h.obj[a].mutex; m in h2.obj && Frees(h2, r, m, loose) && h2.obj[m].parent == h.obj[a].parent
    requires LockOf(h.obj[a]) == h.obj[a].mutex
    ensures FirmBut(h, Erase(r, a), loose, {a, LockOf(h.obj[a]), h.obj[a].parent})
  {
    hide Firm, Frees, FirmApart, Untouched;
    forall y | Firm(h, loose, y) && y !in {a, LockOf(h.obj[a]), h.obj[a].parent} ensures Untouched(h, Erase(r, a), y) {
      DestroysFirm(h, h2, r, a, loose, y);
    }
  }

  lemma DestroyKeeps(h: Heap, a: Id, loose: set<Id>)
    requires ReadyToGo(h, a, loose)
    ensures var r := DestroyAttr(h, a);
      && Inv(r, loose - {a}) && a !in r.obj && Destroys(h, r, a, loose)
      && r.held == (h.held || (h.obj[a].parent == ROOT && AnyNested(h, Q(h, Key(a, M)))))
  {
    var h2, m := Flushed(h, a), h.obj[a].mutex;
    FlushedReady(h, a, loose);
    LockReleased(h2, a, loose);
    ReleasedFacts(h2, a, loose);
    AttrLockFirm(h, a, loose);
    if h.obj[a].parent != ROOT { ParentFirm(h, loose, a); }
    hide Inv, Good, Flushed, FreeNolock, Frees, Unused, Firm, FirmApart, ListsApart, OneLess, FirmBut, NoLooseKids, Childless, AnyNested;
    var r := FreeNolock(h2, m);
    DestroyIs(h, a, loose);
    EraseInv(r, a, loose);
    DestroysFirms(h, h2, r, a, loose);
    DestroysParent(h, h2, r, a, loose);
    DestroysLists(h, h2, r, a, loose, m);
  }

  /** Destroys cached attributes objects down to the low-water mark. */
  function PurgeAttrs(h: Heap, p: Id, n: nat): Heap
    decreases n
  {
    var k := Key(p, A);
    if n > 0 && Cnt(h, k) > Min(h, A) && Q(h, k) != [] then
      var m, x := Unshelve(h, k), Q(h, k)[0];
      PurgeAttrs(if x in m.obj then DestroyAttr(m, x) else m, p, n - 1)
    else h
  }

  ghost predicate QuietLists(h: Heap, r: Heap, p: Id) {
    && r.revs == h.revs && r.lim == h.lim && r.next == h.next && r.known <= h.known
    && (forall j: Key :: j.t == A && j.a != p ==> Q(r, j) == Q(h, j))
  }

  ghost predicate QuietAttrs(h: Heap, r: Heap, p: Id, some: set<Id>) {
    forall y :: y in h.known && y in h.obj && h.obj[y].typ == A && y != p && y !in some ==> Untouched(h, r, y)
  }

  ghost predicate QuietParent(h: Heap, r: Heap, p: Id) {
    p in h.obj && p != ROOT ==> p in r.obj && r.obj[p] == h.obj[p].(refcnt := r.obj[p].refcnt) && (p in r.known <==> p in h.known)
  }

  /** Among known attributes objects, those of `some` apart, only p has changed, and only
      its references; p's cache is the only one of attributes objects that has changed. */
  ghost predicate Quiet(h: Heap, r: Heap, p: Id, some: set<Id>) {
    QuietLists(h, r, p) && QuietAttrs(h, r, p, some) && QuietParent(h, r, p)
  }

  lemma QuietTwice(a: Heap, b: Heap, c: Heap, p: Id, some: set<Id>)
    requires Quiet(a, b, p, some) && Quiet(b, c, p, some)
    ensures Quiet(a, c, p, some)
  {
    assert QuietLists(a, c, p) by {
      forall j: Key | j.t == A && j.a != p ensures Q(c, j) == Q(a, j) { assert Q(b, j) == Q(a, j); }
    }
    assert QuietAttrs(a, c, p, some) by {
      hide QuietLists, QuietParent;
      forall y | y in a.known && y in a.obj && a.obj[y].typ == A && y != p && y !in some ensures Untouched(a, c, y) {
        assert Untouched(a, b, y);
        assert Untouched(b, c, y);
      }
    }
  }

  /** Taking one attributes object off a cache and destroying it. */
  lemma DropAttr(h: Heap, p: Id)
    requires Inv(h, {}) && Q(h, Key(p, A)) != []
    ensures var k := Key(p, A); var m, x := Unshelve(h, k), Q(h, k)[0];
      && x in m.obj && x in h.obj
      && var n := DestroyAttr(m, x);
      && Inv(n, {}) && Quiet(h, n, p, {}) && Q(n, k) == Q(h, k)[1..] && (p != ROOT ==> n.held == h.held)
  {
    var k := Key(p, A);
    var m, x := Unshelve(h, k), Q(h, k)[0];
    DropReady(h, p);
    var n := DestroyAttr(m, x);
    hide Inv, ReadyToGo, DestroyAttr, AnyNested, Destroys;
    DestroyKeeps(m, x, {x});
    JustOne(x);
    DropQuiet(h, m, n, p, x);
  }

  lemma DropReady(h: Heap, p: Id)
    requires Inv(h, {}) && Q(h, Key(p, A)) != []
    ensures var m, x := Unshelve(h, Key(p, A)), Q(h, Key(p, A))[0];
      && ReadyToGo(m, x, {x}) && m.obj == h.obj && m.known == h.known && m.obj[x].parent == p && x !in h.known && m.held == h.held
      && Good(h, x)
  {
    var k := Key(p, A);
    var m, x := Unshelve(h, k), Q(h, k)[0];
    UnshelveInv(h, k, {});
    JustOne(x);
    hide Inv, Good;
    GoodUnshelved(h, m, x);
    assert h.obj[x].parent != x by { AgeDiffers(h, x, {}); }
  }

  lemma DropQuietAttrs(h: Heap, m: Heap, n: Heap, p: Id, x: Id)
    requires x in m.obj && FirmBut(m, n, {x}, {x, LockOf(m.obj[x]), p}) && m.obj == h.obj && m.known == h.known && x !in h.known
    requires ROOT !in h.known && LockOf(m.obj[x]) in m.obj && m.obj[LockOf(m.obj[x])].typ == M
    ensures QuietAttrs(h, n, p, {})
  {
    forall y | y in h.known && y in h.obj && h.obj[y].typ == A && y != p ensures Untouched(h, n, y) {
      assert Firm(m, {x}, y);
      assert Untouched(m, n, y);
    }
  }

  lemma DropQuiet(h: Heap, m: Heap, n: Heap, p: Id, x: Id)
    requires Inv(h, {}) && Q(h, Key(p, A)) != [] && x == Q(h, Key(p, A))[0] && m == Unshelve(h, Key(p, A))
    requires x in m.obj && Destroys(m, n, x, {x}) && m.obj[x].parent == p && m.obj == h.obj && m.known == h.known && x !in h.known
    requires Good(h, x) && h.obj[x].typ == A
    ensures Quiet(h, n, p, {}) && Q(n, Key(p, A)) == Q(h, Key(p, A))[1..]
  {
    var k := Key(p, A);
    assert h.obj[h.obj[x].mutex].typ == M && LockOf(h.obj[x]) == h.obj[x].mutex && h.obj[x].mutex in h.obj;
    CoreRoot(h, {});
    hide Inv, Good;
    assert QuietLists(h, n, p) && Q(n, k) == Q(h, k)[1..] by {
      hide FirmBut, OneLess;
      assert forall j: Key :: j != k ==> Q(m, j) == Q(h, j);
      assert Q(n, k) == Q(m, k);
      forall j: Key | j.t == A && j.a != p ensures Q(n, j) == Q(h, j) { assert Q(n, j) == Q(m, j); }
    }
    hide ListsApart, Unshelve;
    DropQuietAttrs(h, m, n, p, x);
    hide FirmBut;
  }

  lemma {:induction false} PurgeAttrsKeeps(h: Heap, p: Id, n: nat)
    requires Inv(h, {}) && n == |Q(h, Key(p, A))|
    ensures var r := PurgeAttrs(h, p, n);
      && Inv(r, {}) && Quiet(h, r, p, {}) && (p != ROOT ==> r.held == h.held)
      && (Cnt(r, Key(p, A)) <= Min(h, A) || Q(r, Key(p, A)) == [])
    decreases n
  {
    var k := Key(p, A);
    if n > 0 && Cnt(h, k) > Min(h, A) {
      hide Inv, Quiet, DestroyAttr, Unshelve;
      DropAttr(h, p);
      var m := DestroyAttr(Unshelve(h, k), Q(h, k)[0]);
      assert m.lim == h.lim by { QuietLim(h, m, p, {}); }
      PurgeAttrsKeeps(m, p, n - 1);
      QuietTwice(h, m, PurgeAttrs(m, p, n - 1), p, {});
    } else {
      hide Inv;
    }
  }

  lemma QuietLim(h: Heap, r: Heap, p: Id, some: set<Id>)
    requires Quiet(h, r, p, some)
    ensures r.lim == h.lim && r.next == h.next && r.known <= h.known && r.revs == h.revs
  {
  }
}
