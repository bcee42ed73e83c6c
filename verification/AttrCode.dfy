/** The release of objects as the code does it, statement by statement and loop by loop
    (threads/cma_attr.c, threads/cma_mutex.c), against the functions of Lifetimes and
    Attributes. */
module AttrCode {
  import opened Semaphore
  import opened Objects
  import opened Lifetimes
  import opened Attributes

  class Store {
    var heap: Heap

    constructor (lim: Limits)
      ensures heap == Start(lim) && InOrder(heap)
    {
      heap := Start(lim);
      StartSound(lim);
    }

    /** Destroys a mutex or condition variable that is off its lists. */
    method DestroyLeaf(x: Id, locked: bool, ghost loose: set<Id>)
      requires Inv(heap, loose) && x in loose && x in heap.obj && heap.obj[x].typ != A && Good(heap, x)
      modifies this
      ensures heap == EraseLeaf(old(heap), x, locked) && Inv(heap, loose - {x})
    {
      EraseLeafKeeps(heap, x, locked, loose);
      if heap.obj[x].typ == M && heap.obj[x].kind != Fast {
        var i := heap.obj[x].inner;
        NestedInner(heap, x, loose);
        ParentOf(heap, loose, i);
        RetiredSame(heap, i);
        heap := heap.(held := heap.held || locked);
        heap := Retire(heap, i);
        heap := StowFast(heap, i);
      }
      heap := Erase(heap, x);
    }

    /** Takes the oldest object of a cache and destroys it. */
    method DropFirst(k: Key, locked: bool, ghost loose: set<Id>)
      requires Inv(heap, loose) && k.t != A && k != INNERS && Q(heap, k) != []
      modifies this
      ensures heap == DropLeaf(old(heap), k, locked) && Inv(heap, loose) && Q(heap, k) == Q(old(heap), k)[1..]
    {
      ghost var h := heap;
      DropLeafShrinks(h, k, locked, loose);
      hide Inv, Good, EraseLeaf, Shrinks;
      UnshelveInv(h, k, loose);
      var x := Q(heap, k)[0];
      heap := Unshelve(heap, k);
      GoodUnshelved(h, heap, x);
      assert x in heap.obj;
      Restored(loose, x);
      hide Unshelve;
      DestroyLeaf(x, locked, loose + {x});
    }

    /** Empties a cache of mutexes or condition variables. */
    method FreeCache(k: Key, locked: bool, ghost loose: set<Id>)
      requires Inv(heap, loose) && k.t != A && k != INNERS
      modifies this
      ensures heap == Flush(old(heap), k, locked, |Q(old(heap), k)|) && Inv(heap, loose) && Q(heap, k) == []
    {
      hide Inv, DropLeaf;
      while Q(heap, k) != []
        invariant Inv(heap, loose)
        invariant Flush(heap, k, locked, |Q(heap, k)|) == Flush(old(heap), k, locked, |Q(old(heap), k)|)
        decreases |Q(heap, k)|
      {
        DropFirst(k, locked, loose);
      }
    }

    /** Destroys the oldest objects of a cache down to its low-water mark. */
    method LowerCache(k: Key, ghost loose: set<Id>)
      requires Inv(heap, loose) && k.t != A && k != INNERS
      modifies this
      ensures heap == Purge(old(heap), k, |Q(old(heap), k)|) && Inv(heap, loose)
    {
      hide Inv, DropLeaf;
      while Cnt(heap, k) > Min(heap, k.t) && Q(heap, k) != []
        invariant Inv(heap, loose)
        invariant Purge(heap, k, |Q(heap, k)|) == Purge(old(heap), k, |Q(old(heap), k)|)
        decreases |Q(heap, k)|
      {
        DropFirst(k, false, loose);
      }
    }

    /** Empties a cache of inner locks down to its low-water mark. */
    method LowerInners(ghost loose: set<Id>)
      requires Inv(heap, loose)
      modifies this
      ensures heap == PurgeFast(old(heap), INNERS) && Inv(heap, loose)
    {
      while Cnt(heap, INNERS) > Min(heap, M) && Q(heap, INNERS) != []
        invariant Inv(heap, loose)
        invariant PurgeFast(heap, INNERS) == PurgeFast(old(heap), INNERS)
        decreases |Q(heap, INNERS)|
      {
        DropInv(heap, INNERS, loose);
        DropKeeps(heap, INNERS);
        hide Inv, Keeps, Unshelve, Erase;
        var x := Q(heap, INNERS)[0];
        heap := Unshelve(heap, INNERS);
        heap := Erase(heap, x);
      }
    }

    /** Caches or destroys a mutex or condition variable that is off its lists. */
    method StowLeaf(x: Id, ghost loose: set<Id>)
      requires Inv(heap, loose) && x in loose && x in heap.obj && heap.obj[x].typ != A && Good(heap, x) && heap.obj[x].seqn == 0
      requires heap.obj[x].parent in heap.obj
      modifies this
      ensures heap == Stow(old(heap), x) && Inv(heap, loose - {x})
    {
      ghost var h := heap;
      StowKeeps(h, x, loose);
      var k := Home(heap.obj[x]);
      if Cacheable(heap, x) {
        if Cnt(heap, k) < Max(heap, k.t) {
          heap := Shelve(heap, x);
        } else {
          StowedFull(h, x, loose);
          hide Inv, Good, Stow, EraseLeaf, Purge, PurgeFast, Stows;
          DestroyLeaf(x, false, loose);
          if k == INNERS { LowerInners(loose - {x}); } else { LowerCache(k, loose - {x}); }
        }
      } else {
        StowedOff(h, x, loose);
        hide Inv, Good, Stow, EraseLeaf, Stows;
        DestroyLeaf(x, false, loose);
      }
    }

    /** Releases a mutex or condition variable of an attributes object that is locked. */
    method FreeLeafNolock(x: Id, ghost loose: set<Id>)
      requires Inv(heap, loose) && x in heap.known && x in heap.obj && heap.obj[x].typ != A && Unused(heap, x, loose)
      modifies this
      ensures heap.known <= old(heap).known
      ensures heap == FreeNolock(old(heap), x) && Inv(heap, loose)
    {
      ghost var h := heap;
      RetiredInvalid(h, x, loose);
      FreeNolockInv(h, x, loose);
      FreeNolockKeeps(h, x, loose);
      RetiredGood(h, x, loose);
      hide Inv, Good, Unused, Retire, FreeNolock, Stow, Stows;
      heap := Retire(heap, x);
      StowLeaf(x, loose + {x});
    }

    /** Destroys an attributes object that is off its lists. */
    method DestroyAttributes(a: Id, ghost loose: set<Id>)
      requires ReadyToGo(heap, a, loose)
      modifies this
      ensures heap == DestroyAttr(old(heap), a) && Inv(heap, loose - {a})
    {
      ghost var h := heap;
      var locked := heap.obj[a].parent == ROOT;
      ReadyFacts(h, a, loose);
      FlushedReady(h, a, loose);
      DestroyIs(h, a, loose);
      DestroyKeeps(h, a, loose);
      hide Inv, Good, ReadyToGo, Flush, FreeNolock, DestroyAttr, Unused, FlushedApart, Destroys, AnyNested, Firm, NoLooseKids;
      FreeCache(Key(a, C), locked, loose);
      FreeCache(Key(a, M), locked, loose);
      ReleasedFacts(heap, a, loose);
      if heap.obj[a].refcnt == 0 {
        FreeLeafNolock(heap.obj[a].mutex, loose);
        heap := Erase(heap, a);
      } // one with references would be marked as deleted, but none comes here
    }

    /** Destroys the oldest cached attributes objects down to the low-water mark. */
    method LowerAttrs(p: Id)
      requires Inv(heap, {})
      modifies this
      ensures heap == PurgeAttrs(old(heap), p, |Q(old(heap), Key(p, A))|) && Inv(heap, {})
    {
      var k := Key(p, A);
      hide Inv, DestroyAttr, Quiet, Good, ReadyToGo;
      while Cnt(heap, k) > Min(heap, A) && Q(heap, k) != []
        invariant Inv(heap, {})
        invariant PurgeAttrs(heap, p, |Q(heap, k)|) == PurgeAttrs(old(heap), p, |Q(old(heap), k)|)
        decreases |Q(heap, k)|
      {
        DropReady(heap, p);
        DropAttr(heap, p);
        var x := Q(heap, k)[0];
        heap := Unshelve(heap, k);
        DestroyAttributes(x, {x});
      }
    }

    /** Caches or destroys an attributes object that is off its lists. */
    method StowAttributes(a: Id)
      requires ReadyToGo(heap, a, {a}) && heap.obj[a].seqn == 0 && heap.obj[a].parent in heap.obj
      modifies this
      ensures heap == StowAttr(old(heap), a) && Inv(heap, {})
    {
      ghost var h := heap;
      StowAttrKeeps(h, a);
      ReadyFacts(h, a, {a});
      hide Inv, ReadyToGo, Quiet, Lowered, DestroyAttr, PurgeAttrs, Good, AnyNested;
      JustOne(a);
      var p := heap.obj[a].parent;
      if Cacheable(heap, a) {
        if Cnt(heap, Key(p, A)) < Max(heap, A) {
          heap := Shelve(heap, a);
        } else {
          DestroyQuiet(h, a);
          DestroyAttributes(a, {a});
          LowerAttrs(p);
        }
      } else {
        DestroyAttributes(a, {a});
      }
    }

    /** Deletes an attributes object, and then its parent, when that was only waiting for it. */
    method FreeAttributes(a: Id)
      requires Inv(heap, {}) && a in heap.known && a in heap.obj && heap.obj[a].typ == A && SettledBut(heap, a)
      modifies this
      ensures heap == FreeAttr(old(heap), a) && Freed(old(heap), heap)
      decreases a
    {
      ghost var h := heap;
      FreeAttrKeeps(h, a);
      if heap.obj[a].refcnt > 0 {
        heap := heap.(obj := heap.obj[a := heap.obj[a].(seqn := 0, pending := true)]);
        return;
      }
      AttrRefs(h, a);
      ParentIsKnown(h, a);
      Released(h, a);
      RetireReady(h, a);
      RetireQuiet(h, a);
      hide Inv, Tame, Quiet, Retire, StowAttr, SettledBut, Settled, StaysStranded, StaysBarren, ReadyToGo;
      var p := heap.obj[a].parent;
      heap := Retire(heap, a);
      StowAttributes(a);
      LetsSettled(h, heap, a, p);
      LetsParent(h, heap, a, p);
      RootStays(heap);
      if p in heap.obj && heap.obj[p].refcnt == 0 && heap.obj[p].pending {
        FreeAttributes(p);
      }
    }
  }

  lemma StowedFull(h: Heap, x: Id, loose: set<Id>)
    requires Inv(h, loose) && x in loose && x in h.obj && h.obj[x].typ != A && Good(h, x) && h.obj[x].parent in h.obj
    requires Cacheable(h, x) && Cnt(h, Home(h.obj[x])) >= Max(h, h.obj[x].typ)
    ensures var k, n := Home(h.obj[x]), EraseLeaf(h, x, false);
      Stow(h, x) == if k == INNERS then PurgeFast(n, INNERS) else Purge(n, k, |Q(n, k)|)
  {
    var k, n := Home(h.obj[x]), EraseLeaf(h, x, false);
    hide Inv, Good, EraseLeaf, Purge, PurgeFast, Stows;
    if k == INNERS {
      ErasesFast(h, x);
    } else {
      ErasedStows(h, x, loose);
      StaySpent(h, n, x, loose);
    }
  }

  lemma ErasesFast(h: Heap, x: Id)
    requires x in h.obj && h.obj[x].typ == M && h.obj[x].parent == ROOT && Good(h, x)
    ensures EraseLeaf(h, x, false) == Erase(h, x)
  {
  }

  lemma StowedOff(h: Heap, x: Id, loose: set<Id>)
    requires Inv(h, loose) && x in loose && x in h.obj && h.obj[x].typ != A && Good(h, x) && h.obj[x].parent in h.obj
    requires !Cacheable(h, x)
    ensures Stow(h, x) == EraseLeaf(h, x, false)
  {
    hide Inv, EraseLeaf, Good;
    if Home(h.obj[x]) == INNERS { ErasesFast(h, x); }
  }

  lemma RetiredInvalid(h: Heap, x: Id, loose: set<Id>)
    requires Inv(h, loose) && x in h.known && x in h.obj
    ensures h.obj[x].parent in h.obj && x in Retire(h, x).obj && Retire(h, x).obj[x].seqn == 0
  {
    ParentOf(h, loose, x);
    hide Inv;
  }
}
