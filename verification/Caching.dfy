/** What becomes of a released object, which objects new ones are made from, and that numbers
    and revisions do what they are for: no number is given twice, and a mutex made before its
    kind was changed never comes back. */
module Caching {
  import opened Objects
  import opened Lifetimes
  import opened Attributes

  // --- Released objects -------------------------------------------------------------------------------

  /** The object goes to the cache: it is of the cache's revision, its parent is not marked as
      deleted, and there is room. */
  ghost predicate Fits(h: Heap, x: Id) {
    && x in h.obj && h.obj[x].parent in h.obj
    && h.obj[x].rev == Rev(h, Home(h.obj[x])) && !h.obj[h.obj[x].parent].pending
    && Cnt(h, Home(h.obj[x])) < Max(h, h.obj[x].typ)
  }

  lemma RetireParts(h: Heap, x: Id)
    requires Inv(h, {}) && x in h.known && x in h.obj
    ensures h.obj[x].parent in h.obj && h.obj[x].parent != x
    ensures var m := Retire(h, x);
      && x in m.obj && m.obj[x] == h.obj[x].(seqn := 0) && m.obj[x].parent in m.obj && m.queue == h.queue && m.count == h.count
      && m.known == h.known - {x} && m.revs == h.revs && m.lim == h.lim && (Fits(m, x) <==> Fits(h, x))
  {
    ParentIsKnown(h, x);
    CoreRoot(h, {});
    hide Inv;
  }

  lemma {:induction false} FastPurged(h: Heap, k: Key, x: Id)
    requires x !in h.obj
    ensures x !in PurgeFast(h, k).obj
    decreases |Q(h, k)|
  {
    if Cnt(h, k) > Min(h, k.t) && Q(h, k) != [] { FastPurged(Erase(Unshelve(h, k), Q(h, k)[0]), k, x); }
  }

  lemma StowFastGone(m: Heap, x: Id)
    requires x in m.obj && m.obj[x].parent in m.obj && !Fits(m, x)
    ensures x !in StowFast(m, x).obj
  {
    var k := Home(m.obj[x]);
    FastPurged(Erase(m, x), k, x);
    hide PurgeFast;
  }

  lemma {:induction false} StowFastObj(m: Heap, i: Id, x: Id)
    requires i in m.obj && m.obj[i].parent in m.obj && x !in m.obj
    ensures x !in StowFast(m, i).obj
  {
    FastPurged(Erase(m, i), Home(m.obj[i]), x);
    hide PurgeFast;
  }

  lemma {:induction false} FastPurgedKnown(h: Heap, k: Key)
    ensures PurgeFast(h, k).known == h.known
    decreases |Q(h, k)|
  {
    if Cnt(h, k) > Min(h, k.t) && Q(h, k) != [] { FastPurgedKnown(Erase(Unshelve(h, k), Q(h, k)[0]), k); }
  }

  lemma StowFastKnown(m: Heap, i: Id)
    requires i in m.obj && m.obj[i].parent in m.obj
    ensures StowFast(m, i).known == m.known
  {
    FastPurgedKnown(Erase(m, i), Home(m.obj[i]));
    hide PurgeFast;
  }

  /** A mutex that is destroyed gives its inner lock back. */
  lemma EraseLeafGone(h: Heap, x: Id, locked: bool)
    requires x in h.obj
    ensures var r := EraseLeaf(h, x, locked);
      x !in r.obj && r.known <= h.known
      && (Nested(h.obj[x]) && h.obj[x].inner in h.obj && h.obj[h.obj[x].inner].parent in h.obj && h.obj[h.obj[x].inner].parent != h.obj[x].inner
          ==> h.obj[x].inner !in r.known)
  {
    var i := h.obj[x].inner;
    if Nested(h.obj[x]) && i in h.obj && h.obj[i].parent in h.obj && h.obj[i].parent != i {
      var n := h.(held := h.held || locked);
      StowFastKnown(Retire(n, i), i);
      hide StowFast;
    }
  }

  lemma {:induction false} PurgedGone(h: Heap, k: Key, n: nat, x: Id, i: Id)
    requires x !in h.obj
    ensures x !in Purge(h, k, n).obj && Purge(h, k, n).known <= h.known
    decreases n
  {
    if n > 0 && Cnt(h, k) > Min(h, k.t) && Q(h, k) != [] {
      DropGone(h, k, false, x);
      hide DropLeaf;
      PurgedGone(DropLeaf(h, k, false), k, n - 1, x, i);
    }
  }

  lemma DropGone(h: Heap, k: Key, locked: bool, x: Id)
    requires Q(h, k) != [] && x !in h.obj
    ensures x !in DropLeaf(h, k, locked).obj && DropLeaf(h, k, locked).known <= h.known
  {
    var m, y := Unshelve(h, k), Q(h, k)[0];
    if y in m.obj {
      EraseLeafGone(m, y, locked);
      EraseLeafObj(m, y, locked, x);
    }
    hide EraseLeaf;
  }

  lemma EraseLeafObj(h: Heap, y: Id, locked: bool, x: Id)
    requires y in h.obj && x !in h.obj
    ensures x !in EraseLeaf(h, y, locked).obj
  {
    var i := h.obj[y].inner;
    if h.obj[y].typ == M && h.obj[y].kind != Fast && i in h.obj && h.obj[i].parent in h.obj && i != h.obj[i].parent {
      StowFastObj(Retire(h.(held := h.held || locked), i), i, x);
      hide StowFast;
    }
  }

  lemma StowGone(m: Heap, x: Id)
    requires x in m.obj && m.obj[x].parent in m.obj && m.obj[x].typ != A && !Fits(m, x) && Home(m.obj[x]) != INNERS
    ensures x !in Stow(m, x).obj && Stow(m, x).known <= EraseLeaf(m, x, false).known
  {
    EraseLeafGone(m, x, false);
    var n := EraseLeaf(m, x, false);
    hide EraseLeaf, Purge;
    PurgedGone(n, Home(m.obj[x]), |Q(m, Home(m.obj[x]))|, x, x);
  }

  lemma InnerLock(h: Heap, m: Heap, x: Id)
    requires Inv(h, {}) && x in h.known && x in h.obj && Nested(h.obj[x]) && m == Retire(h, x)
    ensures var i := h.obj[x].inner; h.obj[x].parent in h.obj && i in m.obj && m.obj[i].parent in m.obj && m.obj[i].parent != i
    ensures Home(h.obj[x]) != INNERS
  {
    CoreRoot(h, {});
    InvGood(h, x, {});
    var i := h.obj[x].inner;
    assert i in h.known;
    RetireParts(h, x);
    ParentIsKnown(h, i);
    assert m.obj[i].parent == h.obj[i].parent;
  }

  lemma StowShelves(m: Heap, x: Id)
    requires x in m.obj && m.obj[x].parent in m.obj && Fits(m, x)
    ensures Stow(m, x) == m.(queue := m.queue[Home(m.obj[x]) := Q(m, Home(m.obj[x])) + [x]],
                             count := m.count[Home(m.obj[x]) := Cnt(m, Home(m.obj[x])) + 1])
  {
    hide EraseLeaf, Purge, PurgeFast;
  }

  lemma ReleasedToCache(h: Heap, x: Id)
    requires Inv(h, {}) && x in h.known && x in h.obj && h.obj[x].typ != A && Fits(h, x)
    ensures h.obj[x].parent in h.obj && h.obj[x].parent != x
    ensures var r, k := FreeNolock(h, x), Home(h.obj[x]);
      x in r.obj && r.known == h.known - {x} && forall j: Key :: Q(r, j) == if j == k then Q(h, k) + [x] else Q(h, j)
  {
    RetireParts(h, x);
    var m := Retire(h, x);
    StowShelves(m, x);
    hide Inv, Retire, Stow, Fits;
  }

  lemma ReleasedAway(h: Heap, x: Id)
    requires Inv(h, {}) && x in h.known && x in h.obj && h.obj[x].typ != A && !Fits(h, x)
    ensures h.obj[x].parent in h.obj && h.obj[x].parent != x
    ensures var r := FreeNolock(h, x); x !in r.obj && r.known <= h.known && (Nested(h.obj[x]) ==> h.obj[x].inner !in r.known)
  {
    RetireParts(h, x);
    var m := Retire(h, x);
    if Nested(h.obj[x]) { InnerLock(h, m, x); }
    hide Inv, Retire;
    if Home(h.obj[x]) == INNERS {
      StowFastGone(m, x);
      StowFastKnown(m, x);
      hide Fits, StowFast;
    } else {
      StowGone(m, x);
      EraseLeafGone(m, x, false);
      hide Fits, Stow, EraseLeaf;
    }
  }

  /** A released mutex or condition variable is kept in its parent's cache exactly when it is of
      the cache's revision, the parent is not marked as deleted and there is room; otherwise it
      is destroyed, and a mutex that is not fast gives its inner lock back. */
  lemma ReleasedExactly(h: Heap, x: Id)
    requires Inv(h, {}) && x in h.known && x in h.obj && h.obj[x].typ != A && Unused(h, x, {})
    ensures h.obj[x].parent in h.obj && h.obj[x].parent != x
    ensures var r, o := FreeNolock(h, x), h.obj[x]; var k := Home(o);
      var fits := o.rev == Rev(h, k) && !h.obj[o.parent].pending && Cnt(h, k) < Max(h, o.typ);
      && (x in Q(r, k) <==> fits) && (x in r.obj <==> fits)
      && (fits ==> r.known == h.known - {x} && forall j: Key :: Q(r, j) == if j == k then Q(h, k) + [x] else Q(h, j))
      && (!fits && Nested(o) ==> o.inner !in r.known)
  {
    RetireParts(h, x);
    FreeNolockKeeps(h, x, {});
    if Fits(h, x) {
      ReleasedToCache(h, x);
      hide Inv, FreeNolock;
    } else {
      ReleasedAway(h, x);
      NotCached(FreeNolock(h, x), x);
      hide Inv, FreeNolock;
    }
  }

  lemma NotCached(r: Heap, x: Id)
    requires Inv(r, {}) && (x !in r.obj || x in r.known)
    ensures forall k: Key :: x !in Q(r, k)
  {
  }

  // Released attributes objects

  lemma StowAttrGone(m: Heap, a: Id)
    requires ReadyToGo(m, a, {a}) && m.obj[a].seqn == 0 && !Fits(m, a)
    ensures m.obj[a].parent in m.obj && a !in StowAttr(m, a).obj
  {
    ReadyFacts(m, a, {a});
    DestroyKeeps(m, a, {a});
    InvIsCounted(m, {a});
    DestroyAttrTame(m, a);
    var p := m.obj[a].parent;
    PurgeAttrsTame(DestroyAttr(m, a), p, |Q(m, Key(p, A))|);
    hide Inv, ReadyToGo, DestroyAttr, PurgeAttrs, Counted, AnyNested, Destroys;
  }

  lemma StowAttrShelves(m: Heap, a: Id)
    requires a in m.obj && m.obj[a].parent in m.obj && m.obj[a].typ == A && Fits(m, a)
    ensures StowAttr(m, a) == Shelve(m, a) && Q(Shelve(m, a), Home(m.obj[a])) == Q(m, Home(m.obj[a])) + [a]
  {
    hide DestroyAttr, PurgeAttrs;
  }

  lemma FreedAway(h: Heap, a: Id)
    requires Inv(h, {}) && SettledBut(h, a) && a in h.known && a in h.obj && h.obj[a].typ == A && h.obj[a].refcnt == 0 && !Fits(h, a)
    ensures a !in FreeAttr(h, a).obj
  {
    RetireParts(h, a);
    RetireReady(h, a);
    var m, p := Retire(h, a), h.obj[a].parent;
    StowAttrGone(m, a);
    Released(h, a);
    var n := StowAttr(m, a);
    LetsSettled(h, n, a, p);
    LetsParent(h, n, a, p);
    LastOutKeeps(n, p);
    hide Inv, Lets, StowAttr, LastOut, Retire, ReadyToGo, Settled, SettledBut, StaysStranded, StaysBarren, Fits;
  }

  lemma FreedToCache(h: Heap, a: Id)
    requires Inv(h, {}) && a in h.known && a in h.obj && h.obj[a].typ == A && h.obj[a].refcnt == 0 && Fits(h, a)
    ensures a in FreeAttr(h, a).obj && Q(FreeAttr(h, a), Home(h.obj[a])) == Q(h, Home(h.obj[a])) + [a]
  {
    RetireParts(h, a);
    RetireReady(h, a);
    var m, p := Retire(h, a), h.obj[a].parent;
    StowAttrShelves(m, a);
    var n := Shelve(m, a);
    assert !n.obj[p].pending by { assert m.obj[p].pending == h.obj[p].pending; }
    hide Inv, StowAttr, Retire, ReadyToGo, Fits;
    assert LastOut(n, p) == n;
  }

  /** The same of an attributes object that nothing refers to when it is deleted. */
  lemma FreedExactly(h: Heap, a: Id)
    requires Inv(h, {}) && SettledBut(h, a) && a in h.known && a in h.obj && h.obj[a].typ == A && h.obj[a].refcnt == 0
    ensures h.obj[a].parent in h.obj
    ensures var r, o := FreeAttr(h, a), h.obj[a]; var k := Home(o);
      var fits := o.rev == Rev(h, k) && !h.obj[o.parent].pending && Cnt(h, k) < Max(h, A);
      (a in Q(r, k) <==> fits) && (a in r.obj <==> fits) && (fits ==> Q(r, k) == Q(h, k) + [a])
  {
    RetireParts(h, a);
    if Fits(h, a) {
      FreedToCache(h, a);
      hide Inv, FreeAttr;
    } else {
      FreedAway(h, a);
      FreeAttrKeeps(h, a);
      NotCached(FreeAttr(h, a), a);
      hide Inv, FreeAttr;
    }
  }

  // --- Full caches ----------------------------------------------------------------------------------------

  /** The last n of a line, or all of it. */
  function Newest(q: seq<Id>, n: int): seq<Id> {
    if n <= 0 then [] else if n < |q| then q[|q| - n..] else q
  }

  lemma NewestBehind(q: seq<Id>, n: int)
    requires q != [] && n < |q|
    ensures Newest(q[1..], n) == Newest(q, n)
  {
  }

  lemma NewestAll(q: seq<Id>, n: int)
    requires |q| <= n || q == []
    ensures Newest(q, n) == q
  {
  }

  lemma {:induction false} PurgeFastLeaves(h: Heap, k: Key)
    requires Cnt(h, k) == |Q(h, k)|
    ensures var r := PurgeFast(h, k); Q(r, k) == Newest(Q(h, k), Min(h, k.t)) && forall j: Key :: j != k ==> Q(r, j) == Q(h, j)
    decreases |Q(h, k)|
  {
    if Cnt(h, k) > Min(h, k.t) && Q(h, k) != [] {
      var n := Erase(Unshelve(h, k), Q(h, k)[0]);
      DropKeeps(h, k);
      assert Min(n, k.t) == Min(h, k.t);
      NewestBehind(Q(h, k), Min(h, k.t));
      assert forall j: Key :: j != k ==> Q(n, j) == Q(h, j);
      hide Unshelve, Erase, Keeps, Newest;
      PurgeFastLeaves(n, k);
    }
  }

  /** One object less, and neither the mark nor the newest have changed. */
  ghost predicate OneFewer(h: Heap, m: Heap, k: Key) {
    && Q(h, k) != [] && |Q(m, k)| == |Q(h, k)| - 1 && Min(m, k.t) == Min(h, k.t)
    && Newest(Q(m, k), Min(h, k.t)) == Newest(Q(h, k), Min(h, k.t))
  }

  lemma FewerBehind(h: Heap, m: Heap, k: Key)
    requires Q(h, k) != [] && Q(m, k) == Q(h, k)[1..] && m.lim == h.lim && Min(h, k.t) < |Q(h, k)|
    ensures OneFewer(h, m, k)
  {
    NewestBehind(Q(h, k), Min(h, k.t));
    hide Newest, Q;
  }

  lemma PurgeStep(h: Heap, k: Key, loose: set<Id>)
    requires Inv(h, loose) && k.t != A && k != INNERS && Q(h, k) != [] && Cnt(h, k) > Min(h, k.t)
    ensures var m := DropLeaf(h, k, false); Inv(m, loose) && OneFewer(h, m, k)
  {
    hide Inv, Shrinks, DropLeaf, Keeps, Unshelve, Newest, OneFewer, Min;
    InvCounted(h, loose, k);
    var m := DropLeaf(h, k, false);
    DropLeafInv(h, k, false, loose);
    DropLeafShrinks(h, k, false, loose);
    ShrinksSame(h, m, k);
    FewerBehind(h, m, k);
  }

  lemma {:induction false} PurgeLeaves(h: Heap, k: Key, n: nat, loose: set<Id>)
    requires Inv(h, loose) && k.t != A && k != INNERS && n == |Q(h, k)|
    ensures Q(Purge(h, k, n), k) == Newest(Q(h, k), Min(h, k.t))
    decreases n
  {
    hide Inv, DropLeaf, Newest, Q, Cnt, Min;
    InvCounted(h, loose, k);
    if n > 0 && Cnt(h, k) > Min(h, k.t) {
      PurgeStep(h, k, loose);
      PurgeLeaves(DropLeaf(h, k, false), k, n - 1, loose);
    } else {
      NewestAll(Q(h, k), Min(h, k.t));
    }
  }

  lemma PurgeAttrsStep(h: Heap, p: Id)
    requires Inv(h, {}) && Q(h, Key(p, A)) != [] && Cnt(h, Key(p, A)) > Min(h, A)
    ensures var k := Key(p, A); var m, x := Unshelve(h, k), Q(h, k)[0];
      x in m.obj && Inv(DestroyAttr(m, x), {}) && OneFewer(h, DestroyAttr(m, x), k)
  {
    var k := Key(p, A);
    hide Inv, Quiet, DestroyAttr, Unshelve, Newest, OneFewer, Min;
    InvCounted(h, {}, k);
    DropAttr(h, p);
    var m := DestroyAttr(Unshelve(h, k), Q(h, k)[0]);
    QuietLim(h, m, p, {});
    FewerBehind(h, m, k);
  }

  lemma {:induction false} PurgeAttrsLeaves(h: Heap, p: Id, n: nat)
    requires Inv(h, {}) && n == |Q(h, Key(p, A))|
    ensures Q(PurgeAttrs(h, p, n), Key(p, A)) == Newest(Q(h, Key(p, A)), Min(h, A))
    decreases n
  {
    var k := Key(p, A);
    hide Inv, DestroyAttr, Unshelve, Newest, Q, Cnt, Min;
    InvCounted(h, {}, k);
    if n > 0 && Cnt(h, k) > Min(h, A) {
      PurgeAttrsStep(h, p);
      PurgeAttrsLeaves(DestroyAttr(Unshelve(h, k), Q(h, k)[0]), p, n - 1);
    } else {
      NewestAll(Q(h, k), Min(h, A));
    }
  }

  /** What is in the cache of x's parent once x is stowed. */
  ghost function After(h: Heap, x: Id): seq<Id>
    requires x in h.obj && h.obj[x].parent in h.obj
  {
    var k := Home(h.obj[x]);
    if h.obj[x].rev != Rev(h, k) || h.obj[h.obj[x].parent].pending then Q(h, k)
    else if Cnt(h, k) < Max(h, k.t) then Q(h, k) + [x]
    else Newest(Q(h, k), Min(h, k.t))
  }

  lemma ErasedSame(m: Heap, x: Id, loose: set<Id>)
    requires Inv(m, loose) && x in loose && x in m.obj && m.obj[x].typ != A && Good(m, x) && Home(m.obj[x]) != INNERS
    ensures var r, k := EraseLeaf(m, x, false), Home(m.obj[x]); Inv(r, loose - {x}) && Q(r, k) == Q(m, k) && r.lim == m.lim
  {
    hide Inv, EraseLeaf, Good;
    EraseLeafKeeps(m, x, false, loose);
    var r, k := EraseLeaf(m, x, false), Home(m.obj[x]);
    assert Q(r, k) == Q(m.(held := r.held), k);
  }

  lemma StowFastLeaves(m: Heap, x: Id)
    requires x in m.obj && m.obj[x].parent in m.obj && Cnt(m, Home(m.obj[x])) == |Q(m, Home(m.obj[x]))|
    ensures Q(StowFast(m, x), Home(m.obj[x])) == After(m, x)
  {
    var k, n := Home(m.obj[x]), Erase(m, x);
    assert Q(n, k) == Q(m, k) && Cnt(n, k) == Cnt(m, k) && Min(n, k.t) == Min(m, k.t);
    hide PurgeFast, Erase, Newest;
    PurgeFastLeaves(n, k);
  }

  lemma PurgedLeaves(m: Heap, x: Id, loose: set<Id>)
    requires Inv(m, loose) && x in loose && x in m.obj && m.obj[x].typ != A && Good(m, x) && Home(m.obj[x]) != INNERS
    ensures var n, k := EraseLeaf(m, x, false), Home(m.obj[x]);
      Q(n, k) == Q(m, k) && Q(Purge(n, k, |Q(m, k)|), k) == Newest(Q(m, k), Min(m, k.t))
  {
    var k, n := Home(m.obj[x]), EraseLeaf(m, x, false);
    hide Inv, Good, EraseLeaf, Purge, Newest, Q;
    ErasedSame(m, x, loose);
    PurgeLeaves(n, k, |Q(n, k)|, loose - {x});
  }

  lemma StowLeaves(m: Heap, x: Id, loose: set<Id>)
    requires Inv(m, loose) && x in loose && x in m.obj && m.obj[x].typ != A && Good(m, x) && m.obj[x].parent in m.obj
    ensures Q(Stow(m, x), Home(m.obj[x])) == After(m, x)
  {
    hide Inv, Good, EraseLeaf, Purge, Newest, StowFast;
    InvCounted(m, loose, Home(m.obj[x]));
    if Home(m.obj[x]) == INNERS { StowFastLeaves(m, x); } else { PurgedLeaves(m, x, loose); }
  }

  lemma AfterRetired(h: Heap, x: Id)
    requires x in h.obj && h.obj[x].parent in h.obj && h.obj[x].parent != x
    ensures var m := Retire(h, x); x in m.obj && m.obj[x].parent in m.obj && Home(m.obj[x]) == Home(h.obj[x]) && After(m, x) == After(h, x)
  {
  }

  /** A released mutex or condition variable leaves the cache it does not fit as it was, joins one
      with room at the end, and has a full one lowered: its oldest go, down to the low-water
      mark, and the newest stay in their order. */
  lemma CacheAfterRelease(h: Heap, x: Id)
    requires Inv(h, {}) && x in h.known && x in h.obj && h.obj[x].typ != A && Unused(h, x, {})
    ensures h.obj[x].parent in h.obj && h.obj[x].parent != x
    ensures var r, o := FreeNolock(h, x), h.obj[x]; var k := Home(o);
      && Q(r, k) == (if o.rev != Rev(h, k) || h.obj[o.parent].pending then Q(h, k)
                     else if Cnt(h, k) < Max(h, o.typ) then Q(h, k) + [x]
                     else Newest(Q(h, k), Min(h, o.typ)))
      && forall j: Key :: j != k && j != INNERS ==> Q(r, j) == Q(h, j)
  {
    hide Inv, Retire, Stow, Good, Stows, Newest, Unused, FreesFirm, FreesParent, FreeNolock, Q;
    FreeNolockInv(h, x, {});
    FreeNolockKeeps(h, x, {});
    RetiredGood(h, x, {});
    AfterRetired(h, x);
    StowLeaves(Retire(h, x), x, {} + {x});
  }

  lemma PurgedAttrsLeaves(m: Heap, a: Id)
    requires ReadyToGo(m, a, {a})
    ensures var n, p := DestroyAttr(m, a), m.obj[a].parent; var k := Key(p, A);
      Q(n, k) == Q(m, k) && Q(PurgeAttrs(n, p, |Q(m, k)|), k) == Newest(Q(m, k), Min(m, A)) && Cnt(m, k) == |Q(m, k)|
  {
    hide Inv, ReadyToGo, Quiet, DestroyAttr, PurgeAttrs, Good, AnyNested, Newest, Q, Cnt;
    ReadyFacts(m, a, {a});
    var n, p := DestroyAttr(m, a), m.obj[a].parent;
    InvCounted(m, {a}, Key(p, A));
    DestroyQuiet(m, a);
    QuietLim(m, n, p, {});
    PurgeAttrsLeaves(n, p, |Q(n, Key(p, A))|);
  }

  lemma StowAttrLeaves(m: Heap, a: Id)
    requires ReadyToGo(m, a, {a})
    ensures m.obj[a].parent in m.obj && Q(StowAttr(m, a), Home(m.obj[a])) == After(m, a)
  {
    hide Inv, ReadyToGo, DestroyAttr, PurgeAttrs, Good, Newest;
    ReadyFacts(m, a, {a});
    PurgedAttrsLeaves(m, a);
  }

  /** So does an attributes object without references, whose parent is not marked as deleted. */
  lemma CacheAfterDeletion(h: Heap, a: Id)
    requires Inv(h, {}) && a in h.known && a in h.obj && h.obj[a].typ == A && h.obj[a].refcnt == 0
    requires h.obj[a].parent in h.obj && !h.obj[h.obj[a].parent].pending
    ensures var r, o := FreeAttr(h, a), h.obj[a]; var k := Home(o);
      Q(r, k) == (if o.rev != Rev(h, k) then Q(h, k)
                  else if Cnt(h, k) < Max(h, A) then Q(h, k) + [a]
                  else Newest(Q(h, k), Min(h, A)))
  {
    hide Inv, StowAttr, Retire, ReadyToGo, Newest, Q;
    RetireReady(h, a);
    var m, p := Retire(h, a), h.obj[a].parent;
    AfterRetired(h, a);
    StowAttrLeaves(m, a);
    StillNotPending(h, a);
    assert LastOut(StowAttr(m, a), p) == StowAttr(m, a);
  }

  lemma StillNotPending(h: Heap, a: Id)
    requires Inv(h, {}) && a in h.known && a in h.obj && h.obj[a].typ == A && h.obj[a].refcnt == 0
    requires h.obj[a].parent in h.obj && !h.obj[h.obj[a].parent].pending
    ensures var m, p := Retire(h, a), h.obj[a].parent;
      a in m.obj && m.obj[a].parent in m.obj && var n := StowAttr(m, a); p in n.obj ==> !n.obj[p].pending
  {
    hide Inv, StowAttr, Retire, Tame, QuietLists, QuietAttrs;
    Released(h, a);
    var m, p := Retire(h, a), h.obj[a].parent;
    var n := StowAttr(m, a);
    if p == ROOT { RootStays(n); }
  }

  // --- What new objects are made from ---------------------------------------------------------------------

  /** A new mutex or condition variable is the oldest in the cache of its parent, or newly
      allocated when that is empty. */
  lemma NewLeafIsTheOldest(h: Heap, k: Key)
    requires Inv(h, {}) && IsAttr(h, k.a) && k.t != A && !h.obj[k.a].pending
    ensures var r := GetLeaf(h, k); var x := if Q(h, k) != [] then Q(h, k)[0] else h.next;
      x in r.known && x !in h.known && x in r.obj && Home(r.obj[x]) == k && (x in h.obj <==> Q(h, k) != [])
  {
    assert Locked(h, {});
    GetLeafKeeps(h, k, {});
    OldestIsThere(h, k);
    hide Inv, GetLeaf, Grows, Locked, Picked, Spare;
  }

  lemma OldestIsThere(h: Heap, k: Key)
    requires Inv(h, {})
    ensures (if Q(h, k) != [] then Q(h, k)[0] else h.next) in h.obj <==> Q(h, k) != []
  {
    if Q(h, k) != [] { assert Q(h, k)[0] in Q(h, k); }
  }

  lemma NewAttrIsTheOldest(h: Heap, a: Id)
    requires Inv(h, {}) && IsAttr(h, a) && !h.obj[a].pending
    ensures var r, k := GetAttr(h, a), Key(a, A); var x := if Q(h, k) != [] then Q(h, k)[0] else h.next;
      x in r.known && x !in h.known && x in r.obj && Home(r.obj[x]) == k && (x in h.obj <==> Q(h, k) != [])
  {
    GetAttrKeeps(h, a);
    OldestIsThere(h, Key(a, A));
    hide Inv, GetAttr, Steady, Picked;
  }

  // --- Numbers and revisions ---------------------------------------------------------------------------------

  /** Gone for good, or a known mutex or condition variable of an earlier revision than its
      parent's cache now has. */
  ghost predicate Outdated(h: Heap, y: Id) {
    y < h.next && (y in h.obj ==> y in h.known && h.obj[y].typ != A && h.obj[y].rev < Rev(h, Home(h.obj[y])))
  }

  /** Nothing is of a later revision than its parent's cache. */
  ghost predicate Dated(h: Heap) {
    forall y :: y in h.obj ==> h.obj[y].rev <= Rev(h, Home(h.obj[y]))
  }

  /** Numbers given out so far are below the next one, and no two objects have the same. */
  ghost predicate Unique(h: Heap) {
    && (forall y :: y in h.obj ==> h.obj[y].seqn < h.seqs)
    && (forall y, z :: y in h.obj && z in h.obj && h.obj[y].seqn == h.obj[z].seqn && y != z ==> h.obj[y].seqn == 0)
  }

  /** Time goes on from h to r, but for x, which is off its lists. */
  ghost predicate AgesBut(h: Heap, r: Heap, x: Id) {
    && h.next <= r.next && h.seqs <= r.seqs
    && (forall y :: Outdated(h, y) && y != x ==> Outdated(r, y))
    && (Dated(h) ==> Dated(r))
    && (Unique(h) && h.seqs > 0 ==> Unique(r))
  }

  ghost predicate Ages(h: Heap, r: Heap) {
    && h.next <= r.next && h.seqs <= r.seqs
    && (forall y :: Outdated(h, y) ==> Outdated(r, y))
    && (Dated(h) ==> Dated(r))
    && (Unique(h) && h.seqs > 0 ==> Unique(r))
  }

  lemma AgesTwice(a: Heap, b: Heap, c: Heap)
    requires Ages(a, b) && Ages(b, c)
    ensures Ages(a, c)
  {
    hide Outdated, Dated, Unique;
  }

  lemma AgesSelf(h: Heap)
    ensures Ages(h, h)
  {
  }

  lemma EraseAges(h: Heap, x: Id)
    ensures Ages(h, Erase(h, x))
  {
  }

  lemma ShelvesAge(h: Heap, r: Heap)
    requires r.obj == h.obj && r.known == h.known && r.next == h.next && r.seqs == h.seqs && r.revs == h.revs
    ensures Ages(h, r)
  {
  }

  lemma RetireAges(h: Heap, x: Id)
    requires x in h.obj && h.obj[x].parent in h.obj && h.obj[x].parent != x
    ensures var m := Retire(h, x);
      && AgesBut(h, m, x) && x in m.obj && m.obj[x].rev == h.obj[x].rev && Home(m.obj[x]) == Home(h.obj[x]) && m.revs == h.revs && m.next == h.next
  {
  }

  /** The object taken off its lists is stowed: if outdated before, it is gone. */
  lemma AgesAfter(h: Heap, m: Heap, r: Heap, x: Id)
    requires AgesBut(h, m, x) && Ages(m, r) && m.next == h.next && (Outdated(h, x) ==> x !in r.obj)
    ensures Ages(h, r)
  {
    if Outdated(h, x) { assert Outdated(r, x); }
    forall y | Outdated(h, y) ensures Outdated(r, y) {
      if y != x { assert Outdated(m, y); }
    }
    hide Outdated, Dated, Unique;
  }

  lemma {:induction false} PurgeFastAges(h: Heap, k: Key)
    ensures Ages(h, PurgeFast(h, k))
    decreases |Q(h, k)|
  {
    if Cnt(h, k) > Min(h, k.t) && Q(h, k) != [] {
      var m := Unshelve(h, k);
      var n := Erase(m, Q(h, k)[0]);
      ShelvesAge(h, m);
      EraseAges(m, Q(h, k)[0]);
      assert |Q(n, k)| < |Q(h, k)|;
      hide Ages, Unshelve, Erase;
      PurgeFastAges(n, k);
      AgesTwice(h, m, n);
      AgesTwice(h, n, PurgeFast(n, k));
    } else {
      AgesSelf(h);
    }
  }

  lemma StowFastAges(h: Heap, x: Id)
    requires x in h.obj && h.obj[x].parent in h.obj
    ensures Ages(h, StowFast(h, x))
  {
    var k, n := Home(h.obj[x]), Erase(h, x);
    EraseAges(h, x);
    PurgeFastAges(n, k);
    ShelvesAge(h, Shelve(h, x));
    hide Ages, PurgeFast, Erase, Shelve;
    AgesTwice(h, n, PurgeFast(n, k));
  }

  lemma OutdatedFast(h: Heap, m: Heap, x: Id)
    requires Outdated(h, x) && x in h.obj && x in m.obj && m.obj[x].parent in m.obj
    requires m.obj[x].rev == h.obj[x].rev && Home(m.obj[x]) == Home(h.obj[x]) && m.revs == h.revs
    ensures !Fits(m, x)
  {
  }

  /** A fast mutex is taken off its lists and stowed. */
  lemma FastReleaseAges(h: Heap, i: Id)
    requires i in h.obj && h.obj[i].parent in h.obj && h.obj[i].parent != i
    ensures var m := Retire(h, i); i in m.obj && m.obj[i].parent in m.obj && Ages(h, StowFast(m, i))
  {
    var m := Retire(h, i);
    RetireAges(h, i);
    assert m.obj[i].parent in m.obj;
    hide Ages, AgesBut, Retire, StowFast;
    StowFastAges(m, i);
    if Outdated(h, i) {
      OutdatedFast(h, m, i);
      StowFastGone(m, i);
    }
    hide Outdated, Fits;
    AgesAfter(h, m, StowFast(m, i), i);
  }

  lemma HeldAges(h: Heap, held: bool)
    ensures Ages(h, h.(held := held))
  {
  }

  lemma EraseLeafAges(h: Heap, x: Id, locked: bool)
    requires x in h.obj
    ensures Ages(h, EraseLeaf(h, x, locked))
  {
    var i := h.obj[x].inner;
    if h.obj[x].typ == M && h.obj[x].kind != Fast && i in h.obj && h.obj[i].parent in h.obj && i != h.obj[i].parent {
      var n := h.(held := h.held || locked);
      HeldAges(h, n.held);
      FastReleaseAges(n, i);
      var m := StowFast(Retire(n, i), i);
      EraseAges(m, x);
      hide Ages, Retire, StowFast, Erase;
      AgesTwice(h, n, m);
      AgesTwice(h, m, Erase(m, x));
    } else {
      EraseAges(h, x);
    }
  }

  lemma DropAges(h: Heap, k: Key, locked: bool)
    requires Q(h, k) != []
    ensures Ages(h, DropLeaf(h, k, locked))
  {
    var m, x := Unshelve(h, k), Q(h, k)[0];
    ShelvesAge(h, m);
    hide Ages, EraseLeaf, Unshelve;
    if x in h.obj {
      assert x in m.obj by { UnshelveObj(h, k); }
      EraseLeafAges(m, x, locked);
      AgesTwice(h, m, EraseLeaf(m, x, locked));
    }
  }

  lemma UnshelveObj(h: Heap, k: Key)
    requires Q(h, k) != []
    ensures Unshelve(h, k).obj == h.obj
  {
  }

  lemma {:induction false} PurgeAges(h: Heap, k: Key, n: nat)
    ensures Ages(h, Purge(h, k, n))
    decreases n
  {
    hide Ages, DropLeaf;
    if n > 0 && Cnt(h, k) > Min(h, k.t) && Q(h, k) != [] {
      var m := DropLeaf(h, k, false);
      DropAges(h, k, false);
      PurgeAges(m, k, n - 1);
      AgesTwice(h, m, Purge(m, k, n - 1));
    } else {
      AgesSelf(h);
    }
  }

  lemma {:induction false} FlushAges(h: Heap, k: Key, locked: bool, n: nat)
    ensures Ages(h, Flush(h, k, locked, n))
    decreases n
  {
    hide Ages, DropLeaf;
    if n > 0 && Q(h, k) != [] {
      var m := DropLeaf(h, k, locked);
      DropAges(h, k, locked);
      FlushAges(m, k, locked, n - 1);
      AgesTwice(h, m, Flush(m, k, locked, n - 1));
    } else {
      AgesSelf(h);
    }
  }

  lemma StowAges(h: Heap, x: Id)
    requires x in h.obj && h.obj[x].parent in h.obj
    ensures Ages(h, Stow(h, x))
  {
    var k, n := Home(h.obj[x]), EraseLeaf(h, x, false);
    StowFastAges(h, x);
    EraseLeafAges(h, x, false);
    ShelvesAge(h, Shelve(h, x));
    PurgeAges(n, k, |Q(h, k)|);
    hide Ages, EraseLeaf, Purge, Shelve, StowFast;
    AgesTwice(h, n, Purge(n, k, |Q(h, k)|));
  }

  lemma StowOutdated(h: Heap, m: Heap, x: Id)
    requires Outdated(h, x) && x in h.obj && x in m.obj && m.obj[x].parent in m.obj
    requires m.obj[x].rev == h.obj[x].rev && Home(m.obj[x]) == Home(h.obj[x]) && m.revs == h.revs
    ensures x !in Stow(m, x).obj
  {
    OutdatedFast(h, m, x);
    if Home(m.obj[x]) == INNERS {
      StowFastGone(m, x);
      hide Fits, StowFast;
    } else {
      StowGone(m, x);
      hide Fits, Stow;
    }
  }

  lemma FreeNolockAges(h: Heap, x: Id)
    requires x in h.obj && h.obj[x].parent in h.obj && h.obj[x].parent != x
    ensures Ages(h, FreeNolock(h, x))
  {
    var m := Retire(h, x);
    RetireAges(h, x);
    assert m.obj[x].parent in m.obj;
    hide Ages, AgesBut, Retire, Stow;
    StowAges(m, x);
    if Outdated(h, x) { StowOutdated(h, m, x); }
    hide Outdated;
    AgesAfter(h, m, Stow(m, x), x);
  }

  /** Rewritten in place: at most a number is taken away, or a revision raised. */
  ghost predicate Revised(h: Heap, r: Heap) {
    && r.known == h.known && r.next == h.next && r.seqs == h.seqs && r.obj.Keys == h.obj.Keys
    && (forall y :: y in h.obj ==>
          r.obj[y].rev == h.obj[y].rev && Home(r.obj[y]) == Home(h.obj[y]) && (r.obj[y].seqn == h.obj[y].seqn || r.obj[y].seqn == 0))
    && (forall k: Key :: Rev(h, k) <= Rev(r, k))
  }

  lemma RevisedAges(h: Heap, r: Heap)
    requires Revised(h, r)
    ensures Ages(h, r)
  {
    hide Rev;
    forall y | Outdated(h, y) ensures Outdated(r, y) {
      if y in h.obj { assert Rev(h, Home(h.obj[y])) <= Rev(r, Home(h.obj[y])); }
    }
    if Dated(h) {
      forall y | y in r.obj ensures r.obj[y].rev <= Rev(r, Home(r.obj[y])) {
        assert Rev(h, Home(h.obj[y])) <= Rev(r, Home(h.obj[y]));
      }
    }
    assert Unique(h) ==> Unique(r);
  }

  lemma RewriteAges(h: Heap, a: Id, o: Obj)
    requires a in h.obj && o.rev == h.obj[a].rev && Home(o) == Home(h.obj[a]) && (o.seqn == h.obj[a].seqn || o.seqn == 0)
    ensures Ages(h, h.(obj := h.obj[a := o]))
  {
    var r := h.(obj := h.obj[a := o]);
    assert r.obj.Keys == h.obj.Keys;
    assert forall k: Key :: Rev(r, k) == Rev(h, k);
    hide Ages, Rev;
    RevisedAges(h, r);
  }

  lemma PendingAges(h: Heap, a: Id)
    requires a in h.obj
    ensures Ages(h, h.(obj := h.obj[a := h.obj[a].(pending := true)]))
    ensures Ages(h, h.(obj := h.obj[a := h.obj[a].(seqn := 0, pending := true)]))
  {
    hide Ages;
    RewriteAges(h, a, h.obj[a].(pending := true));
    RewriteAges(h, a, h.obj[a].(seqn := 0, pending := true));
  }

  lemma DestroyAges(h: Heap, a: Id)
    requires a in h.obj
    ensures Ages(h, DestroyAttr(h, a))
  {
    var locked := h.obj[a].parent == ROOT;
    var h1 := Flush(h, Key(a, C), locked, |Q(h, Key(a, C))|);
    var h2 := Flush(h1, Key(a, M), locked, |Q(h1, Key(a, M))|);
    hide Ages, Flush, FreeNolock, Erase;
    FlushAges(h, Key(a, C), locked, |Q(h, Key(a, C))|);
    FlushAges(h1, Key(a, M), locked, |Q(h1, Key(a, M))|);
    AgesTwice(h, h1, h2);
    if a in h2.obj {
      var m := h2.obj[a].mutex;
      PendingAges(h2, a);
      AgesTwice(h, h2, h2.(obj := h2.obj[a := h2.obj[a].(pending := true)]));
      if m in h2.obj && h2.obj[m].parent in h2.obj && h2.obj[m].parent != m {
        var f := FreeNolock(h2, m);
        FreeNolockAges(h2, m);
        EraseAges(f, a);
        AgesTwice(h, h2, f);
        AgesTwice(h, f, Erase(f, a));
      }
    }
  }

  lemma {:induction false} PurgeAttrsAges(h: Heap, p: Id, n: nat)
    ensures Ages(h, PurgeAttrs(h, p, n))
    decreases n
  {
    var k := Key(p, A);
    hide Ages, DestroyAttr;
    if n > 0 && Cnt(h, k) > Min(h, A) && Q(h, k) != [] {
      var m, x := Unshelve(h, k), Q(h, k)[0];
      ShelvesAge(h, m);
      hide Unshelve;
      var d := if x in m.obj then DestroyAttr(m, x) else m;
      if x in m.obj {
        DestroyAges(m, x);
        AgesTwice(h, m, d);
      }
      PurgeAttrsAges(d, p, n - 1);
      AgesTwice(h, d, PurgeAttrs(d, p, n - 1));
    } else {
      AgesSelf(h);
    }
  }

  lemma StowAttrAges(h: Heap, a: Id)
    requires a in h.obj && h.obj[a].parent in h.obj
    ensures Ages(h, StowAttr(h, a))
  {
    var p, d := h.obj[a].parent, DestroyAttr(h, a);
    DestroyAges(h, a);
    ShelvesAge(h, Shelve(h, a));
    PurgeAttrsAges(d, p, |Q(h, Key(p, A))|);
    hide Ages, DestroyAttr, PurgeAttrs, Shelve;
    AgesTwice(h, d, PurgeAttrs(d, p, |Q(h, Key(p, A))|));
  }

  lemma AttrNotOutdated(h: Heap, a: Id)
    requires a in h.obj && (h.obj[a].typ == A || a !in h.known)
    ensures !Outdated(h, a)
  {
  }

  lemma {:induction false} FreeAttrAges(h: Heap, a: Id)
    requires Inv(h, {}) && a in h.known && a in h.obj && h.obj[a].typ == A
    ensures Ages(h, FreeAttr(h, a))
    decreases a, 0
  {
    hide Inv, Ages, AgesBut, Outdated, Retire, StowAttr, Quiet, Tame;
    if h.obj[a].refcnt > 0 {
      PendingAges(h, a);
    } else {
      AttrRefs(h, a);
      Released(h, a);
      var m, p := Retire(h, a), h.obj[a].parent;
      var n := StowAttr(m, a);
      RetireAges(h, a);
      AttrNotOutdated(h, a);
      StowAttrAges(m, a);
      AgesAfter(h, m, n, a);
      LetsParent(h, n, a, p);
      LastOutAges(n, p);
      AgesTwice(h, n, LastOut(n, p));
    }
  }

  lemma {:induction false} LastOutAges(n: Heap, p: Id)
    requires Inv(n, {}) && (p == ROOT || (p in n.known && p in n.obj && n.obj[p].typ == A))
    ensures Ages(n, LastOut(n, p))
    decreases p, 1
  {
    RootStays(n);
    hide Inv, Ages, FreeAttr;
    if p in n.obj && n.obj[p].refcnt == 0 && n.obj[p].pending {
      FreeAttrAges(n, p);
    } else {
      AgesSelf(n);
    }
  }

  lemma FreeLeafAges(h: Heap, x: Id)
    requires Inv(h, {}) && x in h.known && x in h.obj && h.obj[x].typ != A && Unused(h, x, {})
    ensures h.obj[x].parent in h.obj && h.obj[x].parent != x && Ages(h, FreeLeaf(h, x))
  {
    hide Inv, Ages, Frees, FreeNolock, LastOut, Unused;
    FreeNolockKeeps(h, x, {});
    var n, p := FreeNolock(h, x), h.obj[x].parent;
    FreeNolockAges(h, x);
    LeafParent(h, n, x, p);
    LastOutAges(n, p);
    AgesTwice(h, n, LastOut(n, p));
  }

  // Creation

  lemma AllocAges(h: Heap, k: Key)
    ensures Ages(h, Alloc(h, Blank(k)))
  {
    var r := Alloc(h, Blank(k));
    forall y | Outdated(h, y) ensures Outdated(r, y) { assert y != h.next; }
    assert Dated(h) ==> Dated(r);
    if Unique(h) && h.seqs > 0 { assert Unique(r); }
  }

  lemma PickedAges(h: Heap, k: Key)
    ensures Ages(h, Picked(h, k))
  {
    AllocAges(h, k);
    if Q(h, k) != [] { ShelvesAge(h, Unshelve(h, k)); }
    hide Ages, Alloc, Unshelve, Blank;
  }

  /** A listed object is of the current revision. */
  lemma ListedAges(m: Heap, x: Id, kind: Kind, lock: Id)
    requires x in m.obj && m.obj[x].parent in m.obj && m.obj[x].parent != x && !Outdated(m, x)
    ensures var r := Listed(m, x, kind, lock);
      && Ages(m, r) && x in r.obj && !Outdated(r, x) && r.obj[x].seqn == m.seqs && r.known == m.known + {x}
      && forall y :: y in m.known && y != x && y in m.obj && !Outdated(m, y) ==> !Outdated(r, y)
  {
    var r := Listed(m, x, kind, lock);
    var o := m.obj[x];
    assert Home(Renewed(o, kind, lock)) == Home(o) && Renewed(o, kind, lock).parent == o.parent;
    assert r.revs == m.revs && r.next == m.next && r.seqs == m.seqs + 1 && r.known == m.known + {x};
    assert forall y :: y in m.obj <==> y in r.obj;
    assert forall y :: y in m.obj && y != x ==> r.obj[y] == m.obj[y].(refcnt := r.obj[y].refcnt);
    assert r.obj[x].rev == Rev(m, Home(o)) && Home(r.obj[x]) == Home(o) && r.obj[x].seqn == m.seqs;
    hide Listed, Renewed, Rev;
    ListedParts(m, r, x);
  }

  lemma ListedParts(m: Heap, r: Heap, x: Id)
    requires r.revs == m.revs && r.next == m.next && r.seqs == m.seqs + 1 && r.known == m.known + {x} && x in m.obj
    requires forall y :: y in m.obj <==> y in r.obj
    requires forall y :: y in m.obj && y != x ==> r.obj[y] == m.obj[y].(refcnt := r.obj[y].refcnt)
    requires r.obj[x].rev == Rev(m, Home(r.obj[x])) && r.obj[x].seqn == m.seqs && !Outdated(m, x)
    ensures Ages(m, r) && !Outdated(r, x)
    ensures forall y :: y in m.known && y != x && y in m.obj && !Outdated(m, y) ==> !Outdated(r, y)
  {
    assert Dated(m) ==> Dated(r);
    assert Unique(m) && m.seqs > 0 ==> Unique(r);
  }

  lemma PickedParts(h: Heap, k: Key, loose: set<Id>)
    requires Inv(h, loose) && k.a in h.obj && h.obj[k.a].typ == A
    ensures var m, x := Picked(h, k), Pick(h, k);
      && Ages(h, m) && Inv(m, loose + {x}) && x in m.obj && k.a in m.obj && m.obj[x].parent == k.a && x != k.a && m.obj[x].typ == k.t
      && x !in m.known && !Outdated(m, x) && m.known == h.known && m.obj[k.a].typ == A
  {
    PickedFrom(h, k, loose);
    var m, x := Picked(h, k), Pick(h, k);
    PickedFacts(h, m, k, x);
    PickedAges(h, k);
    AttrNotOutdated(m, x);
    AgeDiffers(m, x, loose + {x});
    hide Inv, Ages, Picked, Pick, PicksFrom, Outdated;
  }

  lemma ListsAge(h: Heap, m: Heap, x: Id, kind: Kind, lock: Id)
    requires Ages(h, m) && x in m.obj && m.obj[x].parent in m.obj && m.obj[x].parent != x && !Outdated(m, x)
    ensures Ages(h, Listed(m, x, kind, lock))
  {
    hide Ages, Listed, Outdated;
    ListedAges(m, x, kind, lock);
    AgesTwice(h, m, Listed(m, x, kind, lock));
  }

  lemma GetInnerAges(m: Heap, loose: set<Id>, x: Id)
    requires Inv(m, loose) && x in m.obj && x !in m.known && m.obj[x].parent != x
    ensures var n := GetInner(m);
      Ages(m, n) && x in n.obj && !Outdated(n, x) && n.obj[x].parent == m.obj[x].parent
  {
    CoreRoot(m, loose);
    PickedParts(m, INNERS, loose);
    var p, i := Picked(m, INNERS), Pick(m, INNERS);
    PickedFrom(m, INNERS, loose);
    PickedFacts(m, p, INNERS, i);
    hide Inv, Ages, Picked, Pick, PicksFrom, Outdated;
    ListsAge(m, p, i, Fast, ROOT);
    InnerListed(p, i, x);
    AttrNotOutdated(p, x);
    NotOutdated(p, i, x);
    hide Listed;
  }

  lemma InnerListed(p: Heap, i: Id, x: Id)
    requires i in p.obj && p.obj[i].parent in p.obj && x in p.obj && p.obj[i].parent != i
    ensures var n := Listed(p, i, Fast, ROOT); x in n.obj && n.obj[x].parent == p.obj[x].parent
  {
  }

  lemma NotOutdated(p: Heap, i: Id, x: Id)
    requires i in p.obj && p.obj[i].parent in p.obj && p.obj[i].parent != i && x in p.obj && x !in p.known && !Outdated(p, i)
    ensures !Outdated(Listed(p, i, Fast, ROOT), x)
  {
    ListedAges(p, i, Fast, ROOT);
    InnerListed(p, i, x);
    hide Ages, Listed;
  }

  lemma GetLeafAges(h: Heap, k: Key, loose: set<Id>)
    requires Inv(h, loose) && k.a in h.obj && h.obj[k.a].typ == A && k.t != A
    ensures Ages(h, GetLeaf(h, k))
  {
    hide Inv, Ages, Picked, Pick, Listed, GetInner, Outdated;
    if h.obj[k.a].pending {
      AgesSelf(h);
    } else {
      PickedParts(h, k, loose);
      var kind, m, x := h.obj[k.a].kind, Picked(h, k), Pick(h, k);
      GetInnerAges(m, loose + {x}, x);
      var n, i := GetInner(m), Pick(m, INNERS);
      AgesTwice(h, m, n);
      if k.t == M && kind != Fast && m.obj[x].inner == ROOT {
        if n.obj[x].parent in n.obj { ListsAge(h, n, x, kind, i); }
      } else {
        ListsAge(h, m, x, kind, if k.t == M && kind != Fast then m.obj[x].inner else ROOT);
      }
    }
  }

  lemma BumpedAges(h: Heap, x: Id)
    ensures Ages(h, Bumped(h, x))
  {
    BumpedSame(h, x);
    forall k: Key ensures Rev(h, k) <= Rev(Bumped(h, x), k) {
      if k.a == x { assert k == Key(x, k.t); }
    }
    hide Ages, Bumped, Rev;
    RevisedAges(h, Bumped(h, x));
  }

  lemma EmptiedAges(g: Heap, x: Id)
    ensures Ages(g, Emptied(g, x))
  {
    var f := Flush(g, Key(x, C), false, |Q(g, Key(x, C))|);
    hide Ages, Flush;
    FlushAges(g, Key(x, C), false, |Q(g, Key(x, C))|);
    FlushAges(f, Key(x, M), false, |Q(f, Key(x, M))|);
    AgesTwice(g, f, Emptied(g, x));
  }

  lemma RecycledAges(h: Heap, a: Id)
    requires Inv(h, {}) && IsAttr(h, a) && !h.obj[a].pending && Pick(h, Key(a, A)) in h.obj
    ensures Ages(h, GetAttr(h, a))
  {
    RecycledPicked(h, a);
    PickedParts(h, Key(a, A), {});
    var m, x := Picked(h, Key(a, A)), Pick(h, Key(a, A));
    var g := Bumped(m, x);
    EmptiedKeeps(g, x);
    var f := Emptied(g, x);
    EmptiedReady(g, f, x, a);
    BumpedAges(m, x);
    EmptiedAges(g, x);
    hide Inv, Ages, Picked, Pick, PicksFrom, Bumped, Emptied, Listed, Outdated, Good, FirmApart, ListsApart, Suits, FreeLock, Steady;
    AgesTwice(h, m, g);
    AgesTwice(h, g, f);
    AttrNotOutdated(f, x);
    if f.obj[x].parent in f.obj { ListsAge(h, f, x, Fast, f.obj[x].mutex); }
  }

  lemma FreshAges(h: Heap, a: Id)
    requires Inv(h, {}) && IsAttr(h, a) && !h.obj[a].pending && Pick(h, Key(a, A)) !in h.obj
    ensures Ages(h, GetAttr(h, a))
  {
    PickedParts(h, Key(a, A), {});
    FreshPicked(h, a);
    var m, x := Picked(h, Key(a, A)), Pick(h, Key(a, A));
    var n, i := GetLeaf(m, Key(a, M)), Pick(m, Key(a, M));
    hide Inv, Ages, Picked, Pick, PicksFrom, GetLeaf, Listed, Outdated, Locked, Blank, Equipped;
    JustOne(x);
    GetLeafAges(m, Key(a, M), {x});
    AgesTwice(h, m, n);
    LockEquips(m, a, x);
    EquippedParts(m, n, a, x, i);
    AttrNotOutdated(n, x);
    if n.obj[x].parent in n.obj { ListsAge(h, n, x, Fast, i); }
  }

  lemma EquippedParts(m: Heap, n: Heap, a: Id, x: Id, i: Id)
    requires Equipped(m, n, a, x, i)
    ensures x in n.obj && n.obj[x].typ == A && n.obj[x].parent == a
  {
    hide Inv, Grows, Suits, FreeLock;
  }

  lemma GetAttrAges(h: Heap, a: Id)
    requires Inv(h, {}) && IsAttr(h, a)
    ensures Ages(h, GetAttr(h, a))
  {
    hide Inv, Ages, Picked, Pick, GetLeaf, Listed, Emptied;
    if h.obj[a].pending {
      AgesSelf(h);
    } else if Pick(h, Key(a, A)) in h.obj {
      hide GetAttr;
      RecycledAges(h, a);
    } else {
      hide GetAttr;
      FreshAges(h, a);
    }
  }

  // Runs

  lemma SetKindAges(h: Heap, a: Id, kind: Kind)
    requires a in h.obj
    ensures Ages(h, SetKind(h, a, kind))
    ensures Rev(SetKind(h, a, kind), Key(a, M)) == Rev(h, Key(a, M)) + 1
  {
    hide Ages;
    RevisedAges(h, SetKind(h, a, kind));
  }

  lemma UsedAges(h: Heap, x: Id, bits: Bits)
    requires x in h.obj
    ensures Ages(h, Used(h, x, bits))
  {
    hide Ages;
    RewriteAges(h, x, h.obj[x].(bits := bits));
  }

  lemma StepAges(h: Heap, act: Act)
    requires InOrder(h)
    ensures Ages(h, Step(h, act))
  {
    AgesSelf(h);
    hide Inv, Ages, GetAttr, GetLeaf, FreeAttr, FreeLeaf, SetKind, Used, Settled, Bounded;
    match act {
      case CreateAttr(a) => if IsAttr(h, a) { GetAttrAges(h, a); }
      case CreateLeaf(k) => if IsAttr(h, k.a) && k.t != A { GetLeafAges(h, k, {}); }
      case DeleteAttr(a) => if IsAttr(h, a) && a != ROOT { FreeAttrAges(h, a); }
      case DeleteLeaf(x) => if IsClients(h, x) { FreeLeafAges(h, x); }
      case ChangeKind(a, kind) => if IsAttr(h, a) { SetKindAges(h, a, kind); }
      case Use(x, bits) => if x in h.obj { UsedAges(h, x, bits); }
    }
  }

  lemma {:induction false} RunAges(h: Heap, acts: seq<Act>)
    requires InOrder(h)
    ensures Ages(h, Run(h, acts)) && InOrder(Run(h, acts))
    decreases |acts|
  {
    hide InOrder, Ages, Step;
    if acts == [] {
      AgesSelf(h);
    } else {
      StepAges(h, acts[0]);
      StepKeeps(h, acts[0]);
      RunAges(Step(h, acts[0]), acts[1..]);
      AgesTwice(h, Step(h, acts[0]), Run(h, acts));
    }
  }

  lemma StartIsDated(lim: Limits)
    ensures Dated(Start(lim)) && Start(lim).seqs > 0
  {
  }

  lemma StartIsUnique(lim: Limits)
    ensures Unique(Start(lim))
  {
    var h := Start(lim);
    assert h.obj[0].seqn == 1 && h.obj[1].seqn == 2 && h.obj[2].seqn == 3 && h.obj[3].seqn == 4 && h.seqs == 5;
    assert forall y :: y in h.obj ==> y == 0 || y == 1 || y == 2 || y == 3;
    hide Start;
  }

  /** In every run no two objects in use have the same number; and numbers only grow, so none
      is given a second time. */
  lemma NumbersAreUnique(lim: Limits, acts: seq<Act>, more: seq<Act>)
    ensures var h := Run(Start(lim), acts);
      && (forall y, z :: y in h.obj && z in h.obj && h.obj[y].seqn == h.obj[z].seqn && y != z ==> h.obj[y].seqn == 0)
      && (forall y :: y in h.obj ==> h.obj[y].seqn < h.seqs) && h.seqs <= Run(h, more).seqs
  {
    StartIsUnique(lim);
    StartIsDated(lim);
    StartSound(lim);
    hide InOrder, Start, Run, Dated, Outdated;
    RunAges(Start(lim), acts);
    RunAges(Run(Start(lim), acts), more);
  }

  /** After the kind of mutex of an attributes object has been changed, no mutex that was made
      from it before is ever in a cache again, whatever follows. */
  lemma OldMutexesNeverReturn(lim: Limits, before: seq<Act>, a: Id, kind: Kind, after: seq<Act>, x: Id)
    requires var h := Run(Start(lim), before);
      IsAttr(h, a) && a != ROOT && h.obj[a].seqn != 0 && x in h.known && x in h.obj && h.obj[x].typ == M && h.obj[x].parent == a
    ensures var r := Run(Step(Run(Start(lim), before), ChangeKind(a, kind)), after);
      forall k: Key :: x !in Q(r, k)
  {
    var h := Run(Start(lim), before);
    StartIsDated(lim);
    StartSound(lim);
    hide InOrder, Start, Run, Step, Outdated, Dated, Unique;
    RunAges(Start(lim), before);
    OldIsOutdated(h, a, kind, x);
    var d := Step(h, ChangeKind(a, kind));
    StepKeeps(h, ChangeKind(a, kind));
    RunAges(d, after);
    OutdatedNotCached(Run(d, after), x);
  }

  lemma OldIsOutdated(h: Heap, a: Id, kind: Kind, x: Id)
    requires InOrder(h) && Dated(h) && IsAttr(h, a) && a != ROOT && h.obj[a].seqn != 0
    requires x in h.known && x in h.obj && h.obj[x].typ == M && h.obj[x].parent == a
    ensures Outdated(Step(h, ChangeKind(a, kind)), x)
  {
    hide InOrder, Dated, Outdated, Rev, SetKind, Step;
    ChangeKindIs(h, a, kind);
    SetKindAges(h, a, kind);
    KnownIsOld(h, x);
    SetKindParts(h, a, kind, x);
    OneOlder(h, SetKind(h, a, kind), x);
  }

  lemma OneOlder(h: Heap, r: Heap, x: Id)
    requires x < h.next && x in h.known && x in h.obj && h.obj[x].typ != A && h.obj[x].rev <= Rev(h, Home(h.obj[x]))
    requires r.next == h.next && r.known == h.known && x in r.obj && r.obj[x] == h.obj[x] && Rev(r, Home(h.obj[x])) == Rev(h, Home(h.obj[x])) + 1
    ensures Outdated(r, x)
  {
  }

  lemma ChangeKindIs(h: Heap, a: Id, kind: Kind)
    requires IsAttr(h, a) && a != ROOT && h.obj[a].seqn != 0
    ensures Step(h, ChangeKind(a, kind)) == SetKind(h, a, kind)
  {
    hide SetKind, GetAttr, GetLeaf, FreeAttr, FreeLeaf, Used;
  }

  lemma KnownIsOld(h: Heap, x: Id)
    requires InOrder(h) && Dated(h) && x in h.obj
    ensures x < h.next && h.obj[x].rev <= Rev(h, Home(h.obj[x]))
  {
    hide Settled, Bounded, Links, Placed, Counted, Numbered, Referred;
  }

  lemma SetKindParts(h: Heap, a: Id, kind: Kind, x: Id)
    requires a in h.obj && x in h.obj && x != a
    ensures var r := SetKind(h, a, kind); r.next == h.next && r.known == h.known && x in r.obj && r.obj[x] == h.obj[x]
  {
  }

  lemma OutdatedNotCached(r: Heap, x: Id)
    requires InOrder(r) && Outdated(r, x)
    ensures forall k: Key :: x !in Q(r, k)
  {
    hide Settled, Bounded;
    NotCached(r, x);
  }
}
