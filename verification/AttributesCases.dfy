/** Runs from the start in which attributes objects and mutexes come to what they should not:
    one client creates and deletes a few objects, and nothing else happens. */
module AttributesCases {
  import opened Objects
  import opened Lifetimes
  import opened Attributes
  import opened SelfLock

  // --- Creation with nothing cached -------------------------------------------------------------------

  /** An attributes object x of a, new, with its lock, and nothing else. */
  ghost predicate Child(h: Heap, r: Heap, a: Id, x: Id) {
    && x in r.obj && x !in h.known && x != ROOT && r.obj[x].typ == A && r.obj[x].parent == a
    && r.known == h.known + {x, r.obj[x].mutex} && r.obj[x].mutex !in h.known && r.obj[x].mutex != ROOT
    && r.lim == h.lim && r.revs == h.revs && r.obj[x].rev == Rev(h, Key(a, A)) && r.obj[x].seqn != 0
    && (forall j: Key {:trigger Q(r, j)} :: |Q(r, j)| <= |Q(h, j)|)
    && (forall y {:trigger r.obj[y]} {:trigger y in r.obj} :: y in h.obj && (y in h.known || y == ROOT) ==>
          y in r.obj && r.obj[y] == h.obj[y].(refcnt := r.obj[y].refcnt))
  }

  lemma PickNew(h: Heap, k: Key)
    requires Q(h, k) == []
    ensures Pick(h, k) == h.next && Picked(h, k) == Alloc(h, Blank(k))
  {
  }

  lemma NoInner(m: Heap, k: Key)
    requires k.a in m.obj && m.obj[k.a].kind == Fast
    ensures !NeedsInner(m, k)
  {
    hide Picked, Pick;
  }

  /** The lock of a new attributes object, of a parent that gives fast mutexes. */
  lemma FastLock(m: Heap, a: Id, x: Id)
    requires Inv(m, {x}) && Locked(m, {x}) && a in m.obj && m.obj[a].typ == A && !m.obj[a].pending && (a == ROOT || a in m.known)
    requires m.obj[a].kind == Fast && x in m.obj && m.obj[x].typ == A && m.obj[x].parent == a && m.obj[x].refcnt == 0 && x != a
    ensures var n, i := GetLeaf(m, Key(a, M)), Pick(m, Key(a, M));
      Equipped(m, n, a, x, i) && n.known == m.known + {i} && i !in m.known
  {
    var k := Key(a, M);
    NoInner(m, k);
    LockEquips(m, a, x);
    PickedFrom(m, k, {x});
    PickedFacts(m, Picked(m, k), k, Pick(m, k));
    hide Inv, Locked, Picked, Pick, PicksFrom, Listed, Ready, Grows, NeedsInner, Spare, Equipped, Good;
    LeafListed(m, k, {x});
    GetLeafIs(m, k);
  }

  lemma ChildFacts(h: Heap, m: Heap, n: Heap, r: Heap, a: Id, x: Id, i: Id)
    requires PicksFrom(h, m, Key(a, A), x) && n.known == m.known + {i} && i !in m.known && i != ROOT && Lists(n, r, x)
    requires Grows(h, r, h.known + {ROOT}, Key(a, A)) && Rev(n, Key(a, A)) == Rev(h, Key(a, A)) && n.seqs > 0
    requires x in n.obj && n.obj[x].typ == A && n.obj[x].parent == a
    requires r.obj[x] == Renewed(n.obj[x], Fast, i).(seqn := n.seqs, rev := Rev(n, Home(n.obj[x])))
    ensures Child(h, r, a, x)
  {
    assert r.obj[x].mutex == i && Home(n.obj[x]) == Key(a, A);
    assert m.known == h.known && r.known == n.known + {x};
    hide PicksFrom, Lists, Renewed;
  }

  lemma CreatesChild(h: Heap, a: Id)
    requires Inv(h, {}) && IsAttr(h, a) && !h.obj[a].pending && h.obj[a].kind == Fast && Q(h, Key(a, A)) == []
    ensures Step(h, CreateAttr(a)) == GetAttr(h, a) && Child(h, GetAttr(h, a), a, h.next) && NewAttr(h, GetAttr(h, a), a, h.next)
  {
    var k := Key(a, A);
    PickNew(h, k);
    var m, x := Picked(h, k), Pick(h, k);
    assert x == h.next;
    NextIsNew(h);
    hide Alloc, Inv, Locked, Blank, Picked, Pick, PicksFrom, GetLeaf, Equipped, Steady, NewAttr, GetAttr, Listed, Child;
    GetAttrKeeps(h, a);
    FreshPicked(h, a);
    PickedFacts(h, m, k, x);
    FreshIs(h, a);
    FastLock(m, a, x);
    ChildListed(h, m, GetLeaf(m, Key(a, M)), a, x, Pick(m, Key(a, M)));
  }

  lemma NextIsNew(h: Heap)
    requires Inv(h, {})
    ensures h.next !in h.obj
  {
  }

  lemma ChildListed(h: Heap, m: Heap, n: Heap, a: Id, x: Id, i: Id)
    requires Inv(h, {}) && a in h.obj && !h.obj[a].pending && PicksFrom(h, m, Key(a, A), x) && x !in h.obj && x != ROOT && x != a
    requires Equipped(m, n, a, x, i) && m.known == h.known && (a == ROOT || a in h.known)
    requires n.known == m.known + {i} && i !in m.known
    ensures a in m.obj && x in n.obj && n.obj[x].parent in n.obj && Child(h, Listed(n, x, Fast, i), a, x)
  {
    hide Inv, PicksFrom, Listed, Grows, Lists, Suits, FreeLock, Renewed, Child;
    GrownLoose(m, n, x, Key(a, M), {x});
    ListedKeeps(n, x, Fast, i, {x});
    var r := Listed(n, x, Fast, i);
    SeqsPositive(n, {x});
    FreshGrows(h, m, n, r, a, x, i);
    RevsSame(h, m, n, a, x);
    SuitsLock(n, x, i, {x});
    hide Equipped;
    ChildFacts(h, m, n, r, a, x, i);
  }

  lemma RevsSame(h: Heap, m: Heap, n: Heap, a: Id, x: Id)
    requires PicksFrom(h, m, Key(a, A), x) && Grows(m, n, m.known + {x} + {ROOT}, Key(a, M))
    ensures n.revs == h.revs && Rev(n, Key(a, A)) == Rev(h, Key(a, A))
  {
  }

  lemma SuitsLock(n: Heap, x: Id, i: Id, loose: set<Id>)
    requires Inv(n, loose) && Suits(n, x, Fast, i) && x in n.obj && n.obj[x].typ == A
    ensures i != ROOT
  {
    CoreRoot(n, loose);
    hide Inv;
  }

  // --- The first child of the default attributes object ------------------------------------------------

  /** One attributes object a has been created, of the default one; it has no references, gives
      fast mutexes, and caches nothing. */
  ghost predicate First(h: Heap, a: Id) {
    && InOrder(h) && a in h.known && a in h.obj && a != ROOT && h.obj[a].typ == A && h.obj[a].parent == ROOT && h.obj[a].seqn != 0
    && h.obj[a].refcnt == 0 && h.obj[a].kind == Fast && !h.obj[a].pending && (forall t: Typ :: Q(h, Key(a, t)) == [])
    && ROOT in h.obj && h.obj[ROOT].mutex in h.known
  }

  lemma StartsWith(lim: Limits)
    ensures First(Step(Start(lim), CreateAttr(ROOT)), 4) && Step(Start(lim), CreateAttr(ROOT)).lim == lim
  {
    var h := Start(lim);
    StartSound(lim);
    assert h.obj[ROOT].mutex in h.known && h.lim == lim && h.next == 4 && IsAttr(h, ROOT) && !h.obj[ROOT].pending && h.obj[ROOT].kind == Fast;
    assert Q(h, Key(ROOT, A)) == [];
    hide Start, Inv, Settled, Bounded, Step, GetAttr, StaysStranded, StaysBarren;
    StepKeeps(h, CreateAttr(ROOT));
    CreatesChild(h, ROOT);
    var r := Step(h, CreateAttr(ROOT));
    assert r.obj[ROOT] == h.obj[ROOT].(refcnt := r.obj[ROOT].refcnt);
    forall t: Typ ensures Q(r, Key(4, t)) == [] { match t case A => case M => case C => }
  }

  lemma RunMore(h: Heap, acts: seq<Act>, a: Act)
    ensures Run(h, acts + [a]) == Step(Run(h, acts), a)
    decreases |acts|
  {
    hide Step;
    if acts == [] {
      assert acts + [a] == [a];
      assert Run(Step(h, a), []) == Step(h, a);
    } else {
      assert (acts + [a])[1..] == acts[1..] + [a];
      RunMore(Step(h, acts[0]), acts[1..], a);
    }
  }

  // --- An attributes object that is never reclaimed -----------------------------------------------------

  /** Nothing was made from a but b and its lock. */
  ghost predicate OnlyChild(h: Heap, a: Id, b: Id) {
    && a in h.known && a in h.obj && a != ROOT && h.obj[a].typ == A && h.obj[a].seqn != 0 && !h.obj[a].pending
    && b in h.known && b in h.obj && h.obj[b].typ == A && h.obj[b].parent == a && h.obj[b].seqn != 0 && b != a && h.obj[b].refcnt == 0
    && h.obj[b].rev == Rev(h, Key(a, A)) && Q(h, Key(a, A)) == []
    && forall y :: y in Kids(h, a) ==> y in {b, h.obj[b].mutex}
  }

  lemma CreatesOnlyChild(h: Heap, a: Id)
    requires First(h, a)
    ensures var r := Step(h, CreateAttr(a)); OnlyChild(r, a, h.next) && r.lim == h.lim
  {
    hide Inv, Settled, Bounded, Step, GetAttr;
    NoKids(h, a);
    CreatesChild(h, a);
    var r, b := Step(h, CreateAttr(a)), h.next;
    FirstDiffers(h, a);
    assert forall y :: y in h.known ==> y in r.obj && r.obj[y].parent != a;
    assert forall y :: y in Kids(r, a) ==> y in {b, r.obj[b].mutex};
    assert r.obj[a] == h.obj[a].(refcnt := r.obj[a].refcnt);
    assert |Q(r, Key(a, A))| <= |Q(h, Key(a, A))|;
    assert Rev(r, Key(a, A)) == Rev(h, Key(a, A));
  }

  lemma FirstDiffers(h: Heap, a: Id)
    requires Inv(h, {}) && a in h.obj
    ensures a != h.next
  {
  }

  lemma NoKids(h: Heap, a: Id)
    requires Inv(h, {}) && a in h.obj && h.obj[a].typ == A && h.obj[a].refcnt == 0
    ensures forall y :: y in h.known ==> y in h.obj && h.obj[y].parent != a
  {
    KnownObjectsBut(h, {});
    InvCounts(h);
    assert h.obj[a].refcnt == |Kids(h, a)|;
    assert forall y :: y !in Kids(h, a);
  }

  lemma ReleaseIs(h: Heap, b: Id)
    requires b in h.obj && h.obj[b].refcnt == 0 && h.obj[b].parent in h.obj && h.obj[b].parent < b
    requires var m := Retire(h, b); b in m.obj && m.obj[b].parent in m.obj
    ensures FreeAttr(h, b) == LastOut(StowAttr(Retire(h, b), b), h.obj[b].parent)
  {
    hide Retire, StowAttr, LastOut;
  }

  lemma StowShelves(m: Heap, b: Id)
    requires b in m.obj && m.obj[b].parent in m.obj && Cacheable(m, b) && Cnt(m, Key(m.obj[b].parent, A)) < Max(m, A)
    ensures StowAttr(m, b) == Shelve(m, b) && LastOut(Shelve(m, b), m.obj[b].parent) == Shelve(m, b)
  {
    hide DestroyAttr, PurgeAttrs, FreeAttr;
  }

  /** A child that nothing refers to goes to the cache of its parent, where there is room. */
  lemma Shelves(h: Heap, b: Id)
    requires Inv(h, {}) && b in h.known && b in h.obj && h.obj[b].typ == A && h.obj[b].seqn != 0 && h.obj[b].refcnt == 0
    requires h.obj[b].parent in h.obj && Cacheable(h, b) && Cnt(h, Key(h.obj[b].parent, A)) < Max(h, A)
    ensures b in Retire(h, b).obj && Step(h, DeleteAttr(b)) == Shelve(Retire(h, b), b)
  {
    ParentIsKnown(h, b);
    CoreRoot(h, {});
    RetiredSame(h, b);
    assert b != ROOT && Step(h, DeleteAttr(b)) == FreeAttr(h, b);
    hide Inv, Retire, Cacheable, StowAttr, LastOut, FreeAttr, Shelve, Step;
    ReleaseIs(h, b);
    StowShelves(Retire(h, b), b);
  }

  lemma PendingNotCacheable(h: Heap, b: Id)
    requires b in h.obj && h.obj[b].parent in h.obj && Cacheable(h, b)
    ensures !h.obj[h.obj[b].parent].pending
  {
  }

  lemma ShelvedKids(h: Heap, a: Id, b: Id)
    requires OnlyChild(h, a, b) && a < b
    ensures a in h.obj && b in h.obj && h.obj[b].parent == a && b in Retire(h, b).obj
    ensures var r := Shelve(Retire(h, b), b);
      && a in r.known && a in r.obj && r.obj[a].typ == A && r.obj[a].seqn != 0 && LiveKids(r, a) == {} && Q(r, Key(a, A)) == [b]
  {
    var m, k := Retire(h, b), Key(a, A);
    var r := Shelve(m, b);
    assert Q(m, k) == [] && [] + [b] == [b];
    assert Q(r, k) == [b];
    forall y ensures y !in LiveKids(r, a) {
      if y in Kids(r, a) {
        assert y in Kids(h, a) && y != b;
        assert b in Q(r, k) && r.obj[b].mutex == y;
      }
    }
  }

  lemma OnlyChildRoom(h: Heap, a: Id, b: Id)
    requires OnlyChild(h, a, b) && Max(h, A) > 0 && Cnt(h, Key(a, A)) == |Q(h, Key(a, A))|
    ensures b in h.obj && h.obj[b].parent in h.obj && Cacheable(h, b) && Cnt(h, Key(h.obj[b].parent, A)) < Max(h, A)
    ensures b in h.known && h.obj[b].typ == A && h.obj[b].seqn != 0 && h.obj[b].refcnt == 0 && h.obj[b].parent == a
  {
  }

  /** It is deleted, and goes to its parent's cache. */
  lemma ShelvesOnlyChild(h: Heap, a: Id, b: Id)
    requires InOrder(h) && OnlyChild(h, a, b) && Max(h, A) > 0
    ensures var r := Step(h, DeleteAttr(b));
      && a in r.known && a in r.obj && r.obj[a].typ == A && r.obj[a].seqn != 0 && LiveKids(r, a) == {} && Q(r, Key(a, A)) == [b]
  {
    hide Settled, Bounded, Inv, OnlyChild, Step, LiveKids, Cacheable;
    InvCounted(h, {}, Key(a, A));
    OnlyChildRoom(h, a, b);
    ParentIsKnown(h, b);
    hide Retire, Shelve;
    Shelves(h, b);
    ShelvedKids(h, a, b);
  }

  /** A client makes an attributes object, makes another from that, and deletes first this,
      then that.  Nothing is in use any more, and the first is there for ever. */
  lemma AnUnusedObjectIsStranded(lim: Limits) returns (acts: seq<Act>)
    requires Max(Start(lim), A) > 0
    ensures var r := Run(Start(lim), acts);
      Stranded(r, 4) && LiveKids(r, 4) == {} && forall more :: Stranded(Run(r, more), 4)
  {
    Begins(lim);
    acts := StrandsMore(Start(lim), [CreateAttr(ROOT)], 4);
    StartSound(lim);
    hide Start, Run, Stranded, LiveKids, Inv, Settled, Bounded, StaysStranded, StaysBarren, Step;
    RunKeeps(Start(lim), acts);
    forall more ensures Stranded(Run(Run(Start(lim), acts), more), 4) {
      StrandedForEver(Run(Start(lim), acts), more, 4);
    }
  }

  lemma FirstAct(h: Heap, a: Act)
    ensures Run(h, [a]) == Step(h, a)
  {
    hide Step;
    assert Run(Step(h, a), []) == Step(h, a);
  }

  lemma Begins(lim: Limits)
    ensures var h := Run(Start(lim), [CreateAttr(ROOT)]);
      First(h, 4) && h.lim == lim && forall t: Typ :: Max(h, t) == Max(Start(lim), t)
  {
    StartMax(lim);
    hide Start, Step, First, Inv;
    StartsWith(lim);
    FirstAct(Start(lim), CreateAttr(ROOT));
  }

  lemma StrandsMore(h: Heap, acts: seq<Act>, a: Id) returns (all: seq<Act>)
    requires First(Run(h, acts), a) && Max(Run(h, acts), A) > 0
    ensures Stranded(Run(h, all), a) && LiveKids(Run(h, all), a) == {}
  {
    var h1 := Run(h, acts);
    var b := h1.next;
    FirstInOrder(h1, a);
    hide Step, Inv, Settled, Bounded, Stranded, StaysStranded, StaysBarren, First, OnlyChild, LiveKids, InOrder, Run;
    CreatesOnlyChild(h1, a);
    StepKeeps(h1, CreateAttr(a));
    RunMore(h, acts, CreateAttr(a));
    var h2 := Step(h1, CreateAttr(a));
    assert Max(h2, A) == Max(h1, A);
    ShelvesOnlyChild(h2, a, b);
    StepKeeps(h2, DeleteAttr(b));
    RunMore(h, acts + [CreateAttr(a)], DeleteAttr(b));
    var h3 := Step(h2, DeleteAttr(b));
    StrandsParent(h3, a);
    RunMore(h, acts + [CreateAttr(a)] + [DeleteAttr(b)], DeleteAttr(a));
    all := acts + [CreateAttr(a)] + [DeleteAttr(b)] + [DeleteAttr(a)];
  }

  lemma FirstInOrder(h: Heap, a: Id)
    requires First(h, a)
    ensures InOrder(h)
  {
  }

  lemma MarkedKids(h: Heap, a: Id)
    requires a in h.obj && LiveKids(h, a) == {}
    ensures LiveKids(Marked(h, a), a) == {}
  {
    var r := Marked(h, a);
    assert Q(r, Key(a, A)) == Q(h, Key(a, A));
    forall y ensures y !in LiveKids(r, a) {
      if y in Kids(r, a) {
        assert y in Kids(h, a) && y !in LiveKids(h, a);
        var c :| c in Q(h, Key(a, A)) && c in h.obj && h.obj[c].mutex == y;
        assert r.obj[c].mutex == y;
      }
    }
  }

  lemma StrandsParent(h: Heap, a: Id)
    requires InOrder(h) && a in h.known && a in h.obj && h.obj[a].typ == A && h.obj[a].seqn != 0 && LiveKids(h, a) == {} && Q(h, Key(a, A)) != []
    ensures var r := Step(h, DeleteAttr(a)); Stranded(r, a) && LiveKids(r, a) == {}
  {
    CoreRoot(h, {});
    hide Inv, Settled, Bounded, Stranded, LiveKids;
    RefersExactlyWhen(h, a);
    MarkedKids(h, a);
    DeletionLeavesBehindExactlyWhen(h, a);
    assert Step(h, DeleteAttr(a)) == FreeAttr(h, a) == Marked(h, a);
  }

  // --- A mutex that loses its inner lock, and a deletion that locks twice -------------------------------

  /** Attributes object a, child of the default one, has nothing in use and one mutex with an
      inner lock in its cache. */
  ghost predicate Hoards(h: Heap, a: Id, x: Id) {
    && InOrder(h) && IsAttr(h, a) && a != ROOT && h.obj[a].parent == ROOT && h.obj[a].seqn != 0 && !h.obj[a].pending && h.obj[a].refcnt == 0
    && Q(h, Key(a, M)) == [x] && x in h.obj && Nested(h.obj[x])
  }

  lemma SettingKind(h: Heap, a: Id, kind: Kind)
    requires IsAttr(h, a) && a != ROOT && h.obj[a].seqn != 0
    ensures var r := Step(h, ChangeKind(a, kind));
      && r == SetKind(h, a, kind) && IsAttr(r, a) && r.obj[a] == h.obj[a].(kind := kind) && r.known == h.known && r.lim == h.lim
      && (forall j: Key :: Q(r, j) == Q(h, j) && Cnt(r, j) == Cnt(h, j))
      && (forall y :: y in h.obj && y != a ==> y in r.obj && r.obj[y] == h.obj[y])
  {
  }

  /** A mutex of a recursive kind is created ... */
  ghost predicate Nests(h: Heap, r: Heap, a: Id, x: Id) {
    && IsAttr(h, a) && IsAttr(r, a) && a != ROOT && !r.obj[a].pending && r.obj[a].parent == h.obj[a].parent && r.obj[a].seqn == h.obj[a].seqn
    && x in r.known && x in r.obj && x != ROOT && Nested(r.obj[x]) && r.obj[x].parent == a && r.obj[x].rev == Rev(r, Key(a, M))
    && Spare(r, x) && Q(r, Key(a, M)) == [] && r.lim == h.lim && (forall y :: y in Kids(r, a) ==> y == x)
    && (ROOT in r.obj ==> r.obj[ROOT].mutex != x)
  }

  lemma NewNeedsInner(h: Heap, k: Key)
    requires Q(h, k) == [] && k.t == M && k.a in h.obj && h.obj[k.a].kind != Fast && h.next !in h.obj
    ensures NeedsInner(h, k) && Pick(h, k) in Picked(h, k).obj
  {
  }

  lemma NestedIs(h: Heap, k: Key)
    requires Inv(h, {}) && IsAttr(h, k.a) && !h.obj[k.a].pending && NeedsInner(h, k) && Pick(h, k) in Picked(h, k).obj
    ensures var r, x, i := GetLeaf(h, k), Pick(h, k), Pick(Picked(h, k), INNERS);
      && Inv(r, {}) && Ready(h, r, k, x, Picked(h, k).obj[x]) && Grows(h, r, h.known + {} + {ROOT}, k) && r.known == h.known + {i, x}
      && x in r.obj && r.obj[x].inner == i && Spare(r, x)
  {
    NothingLocked(h);
    hide Inv, Picked, Pick, GetInner, Listed, GetLeaf, Locked, Grows, Spare, PicksFrom;
    assert h.obj[k.a].typ == A && k.t == M;
    hide NeedsInner;
    LeafNested(h, k, {});
    GetLeafIs(h, k);
  }

  lemma NothingLocked(h: Heap)
    ensures Locked(h, {})
  {
  }

  lemma CreatesNested(h: Heap, a: Id)
    requires Inv(h, {}) && IsAttr(h, a) && a != ROOT && h.obj[a].kind != Fast && !h.obj[a].pending && h.obj[a].refcnt == 0
    requires Q(h, Key(a, M)) == [] && ROOT in h.obj && h.obj[ROOT].mutex in h.known
    ensures Nests(h, Step(h, CreateLeaf(Key(a, M))), a, h.next)
  {
    var k := Key(a, M);
    assert Step(h, CreateLeaf(k)) == GetLeaf(h, k);
    PickNew(h, k);
    hide Inv, Picked, Pick, GetLeaf, NeedsInner, Nests, Ready, Grows, Spare, Step, Alloc;
    NextIsNew(h);
    NoKids(h, a);
    NewNeedsInner(h, k);
    NestedIs(h, k);
    NotYetKnown(h);
    NestsFacts(h, GetLeaf(h, k), a, h.next, Pick(Picked(h, k), INNERS), Picked(h, k).obj[h.next]);
  }

  lemma NotYetKnown(h: Heap)
    requires Inv(h, {})
    ensures h.next !in h.known
  {
  }

  lemma ReadyNested(h: Heap, r: Heap, k: Key, x: Id, was: Obj)
    requires Inv(r, {}) && Ready(h, r, k, x, was) && k.t == M && k.a in h.obj && h.obj[k.a].kind != Fast
    ensures x in r.known && x in r.obj && x != ROOT && Nested(r.obj[x]) && r.obj[x].parent == k.a && r.obj[x].rev == Rev(h, k)
    ensures r.obj[x].inner in r.obj && r.obj[r.obj[x].inner].parent == ROOT
  {
    CoreRoot(r, {});
    InvGood(r, x, {});
    hide Inv;
  }

  lemma NestsFacts(h: Heap, r: Heap, a: Id, x: Id, i: Id, was: Obj)
    requires Inv(r, {}) && Ready(h, r, Key(a, M), x, was) && Grows(h, r, h.known + {} + {ROOT}, Key(a, M)) && r.known == h.known + {i, x} && Spare(r, x)
    requires IsAttr(h, a) && a != ROOT && h.obj[a].kind != Fast && !h.obj[a].pending && Q(h, Key(a, M)) == [] && x !in h.known
    requires ROOT in h.obj && h.obj[ROOT].mutex in h.known && (forall y :: y in h.known ==> y in h.obj && h.obj[y].parent != a)
    requires x in r.obj && r.obj[x].inner == i
    ensures Nests(h, r, a, x)
  {
    hide Inv, Ready, Spare;
    ReadyNested(h, r, Key(a, M), x, was);
    assert |Q(r, Key(a, M))| <= |Q(h, Key(a, M))|;
    assert r.revs == h.revs && Rev(r, Key(a, M)) == Rev(h, Key(a, M));
    assert r.obj[ROOT].mutex == h.obj[ROOT].mutex;
    assert forall y :: y in h.known ==> y in r.obj && r.obj[y].parent != a;
    assert forall y :: y in Kids(r, a) ==> y == x;
    assert r.obj[a].parent == h.obj[a].parent;
  }

  /** ... and deleted: it goes to the cache with its inner lock. */
  lemma ShelvesNested(h: Heap, r: Heap, a: Id, x: Id)
    requires InOrder(r) && Nests(h, r, a, x) && Max(r, M) > 0
    ensures x in Retire(r, x).obj && Step(r, DeleteLeaf(x)) == Shelve(Retire(r, x), x)
  {
    hide Settled, Bounded, Inv, Nests, Unused, Cacheable, Step, Retire, Shelve, FreeNolock, FreeLeaf, Stow;
    NestedRoom(h, r, a, x);
    ParentIsKnown(r, x);
    DeletesIs(h, r, a, x);
    NotLastOut(r, x);
    FreeShelves(r, x);
  }

  lemma DeletesIs(h: Heap, r: Heap, a: Id, x: Id)
    requires Nests(h, r, a, x) && r.obj[x].parent in r.obj && r.obj[x].parent != x
    ensures Step(r, DeleteLeaf(x)) == FreeLeaf(r, x)
  {
    hide FreeLeaf;
  }

  lemma FreeShelves(r: Heap, x: Id)
    requires Inv(r, {}) && x in r.obj && r.obj[x].parent in r.obj && r.obj[x].parent != x && r.obj[x].parent != ROOT && r.obj[x].typ == M
    requires Cacheable(r, x) && Q(r, Key(r.obj[x].parent, M)) == [] && Max(r, M) > 0
    ensures x in Retire(r, x).obj && FreeNolock(r, x) == Shelve(Retire(r, x), x)
  {
    RetiredSame(r, x);
    InvCounted(r, {}, Key(r.obj[x].parent, M));
    hide Inv, Retire, Cacheable, Shelve, Stow;
    StowsAway(Retire(r, x), x);
  }

  lemma NestedRoom(h: Heap, r: Heap, a: Id, x: Id)
    requires Nests(h, r, a, x) && Max(r, M) > 0
    ensures x in r.known && x in r.obj && r.obj[x].typ == M && r.obj[x].parent == a && a != ROOT && a in r.obj && !r.obj[a].pending
    ensures Cacheable(r, x) && Unused(r, x, {}) && Q(r, Key(a, M)) == []
  {
  }

  lemma StowsAway(m: Heap, x: Id)
    requires x in m.obj && m.obj[x].parent in m.obj && m.obj[x].parent != ROOT && Cacheable(m, x) && Cnt(m, Home(m.obj[x])) < Max(m, m.obj[x].typ)
    ensures Stow(m, x) == Shelve(m, x)
  {
  }

  lemma KidsGone(r: Heap, a: Id, x: Id)
    requires x in r.obj && r.obj[x].parent in r.obj && r.obj[x].parent != x && (forall y :: y in Kids(r, a) ==> y == x)
    requires x in Retire(r, x).obj
    ensures Kids(Shelve(Retire(r, x), x), a) == {}
  {
    var s := Shelve(Retire(r, x), x);
    assert forall y :: y in Kids(s, a) ==> y in Kids(r, a) && y != x;
  }

  lemma HoardsParts(h: Heap, r: Heap, a: Id, x: Id)
    requires Nests(h, r, a, x) && h.obj[a].parent == ROOT && h.obj[a].seqn != 0 && a < x
    requires x in Retire(r, x).obj
    ensures var s := Shelve(Retire(r, x), x);
      && IsAttr(s, a) && s.obj[a].parent == ROOT && s.obj[a].seqn != 0 && !s.obj[a].pending
      && Q(s, Key(a, M)) == [x] && x in s.obj && Nested(s.obj[x]) && s.lim == r.lim && s.known == r.known - {x}
      && (ROOT in r.obj && a != ROOT ==> ROOT in s.obj && s.obj[ROOT] == r.obj[ROOT])
  {
    var m := Retire(r, x);
    assert Q(m, Key(a, M)) == [] && [] + [x] == [x];
  }

  lemma NowHoards(h: Heap, r: Heap, a: Id, x: Id)
    requires InOrder(r) && Nests(h, r, a, x) && h.obj[a].parent == ROOT && h.obj[a].seqn != 0
    requires x in Retire(r, x).obj && InOrder(Shelve(Retire(r, x), x))
    ensures Hoards(Shelve(Retire(r, x), x), a, x)
  {
    var s := Shelve(Retire(r, x), x);
    ParentIsKnown(r, x);
    assert x in r.obj && r.obj[x].parent == a && a != ROOT && forall y :: y in Kids(r, a) ==> y == x;
    hide Inv, Settled, Bounded, Shelve, Retire, Nests, Kids;
    KidsGone(r, a, x);
    HoardsParts(h, r, a, x);
    InvCounts(s);
    assert s.obj[a].refcnt == |Kids(s, a)|;
  }

  /** The acts that bring that about. */
  function HoardActs(x: Id): seq<Act> {
    [CreateAttr(ROOT)] + [ChangeKind(4, Recursive)] + [CreateLeaf(Key(4, M))] + [DeleteLeaf(x)]
  }

  lemma FirstSet(h: Heap, a: Id)
    requires First(h, a)
    ensures var r := Step(h, ChangeKind(a, Recursive));
      && Inv(h, {}) && InOrder(h) && IsAttr(r, a) && a != ROOT && r.obj[a].kind != Fast && !r.obj[a].pending && r.obj[a].refcnt == 0
      && r.obj[a].parent == ROOT && r.obj[a].seqn != 0
      && Q(r, Key(a, M)) == [] && ROOT in r.obj && r.obj[ROOT].mutex in r.known && r.lim == h.lim
  {
    hide Inv, Settled, Bounded, Step;
    SettingKind(h, a, Recursive);
  }

  lemma NestsLim(h: Heap, r: Heap, a: Id, x: Id)
    requires Nests(h, r, a, x)
    ensures r.lim == h.lim
  {
  }

  lemma HoardsMore(h: Heap, acts: seq<Act>, a: Id) returns (x: Id)
    requires First(Run(h, acts), a) && Max(Run(h, acts), M) > 0
    ensures var r := Run(h, acts + [ChangeKind(a, Recursive)] + [CreateLeaf(Key(a, M))] + [DeleteLeaf(x)]);
      Hoards(r, a, x) && r.lim == Run(h, acts).lim
  {
    var h1 := Run(h, acts);
    hide Step, Inv, Settled, Bounded, StaysStranded, StaysBarren, First, Nests, Hoards, InOrder, Run, IsAttr, Shelve, Retire;
    FirstSet(h1, a);
    StepKeeps(h1, ChangeKind(a, Recursive));
    RunMore(h, acts, ChangeKind(a, Recursive));
    var h2 := Step(h1, ChangeKind(a, Recursive));
    x := h2.next;
    assert Inv(h2, {}) by { OrderInv(h2); }
    CreatesNested(h2, a);
    StepKeeps(h2, CreateLeaf(Key(a, M)));
    RunMore(h, acts + [ChangeKind(a, Recursive)], CreateLeaf(Key(a, M)));
    var h3 := Step(h2, CreateLeaf(Key(a, M)));
    NestsLim(h2, h3, a, x);
    assert Max(h3, M) == Max(h1, M);
    ShelvesNested(h2, h3, a, x);
    StepKeeps(h3, DeleteLeaf(x));
    RunMore(h, acts + [ChangeKind(a, Recursive)] + [CreateLeaf(Key(a, M))], DeleteLeaf(x));
    IsAttrIn(h2, a);
    NowHoards(h2, h3, a, x);
    NestedRoom(h2, h3, a, x);
    ShelveLim(h3, x);
  }

  lemma ShelveLim(h: Heap, x: Id)
    requires x in h.obj && h.obj[x].parent in h.obj && x in Retire(h, x).obj
    ensures Shelve(Retire(h, x), x).lim == h.lim
  {
  }

  lemma OrderInv(h: Heap)
    requires InOrder(h)
    ensures Inv(h, {})
  {
  }

  lemma IsAttrIn(h: Heap, a: Id)
    requires IsAttr(h, a)
    ensures a in h.obj && h.obj[a].typ == A
  {
  }

  /** A client sets an attributes object's kind to recursive, makes a mutex and deletes it. */
  lemma AMutexIsHoarded(lim: Limits) returns (acts: seq<Act>, x: Id)
    requires Max(Start(lim), M) > 0
    ensures var h := Run(Start(lim), acts); Hoards(h, 4, x) && h.lim == lim
  {
    Begins(lim);
    hide Start, Run, First, Hoards;
    x := HoardsMore(Start(lim), [CreateAttr(ROOT)], 4);
    acts := HoardActs(x);
  }

  lemma HoardSet(h: Heap, a: Id, x: Id)
    requires Hoards(h, a, x)
    ensures var r := Step(h, ChangeKind(a, Fast));
      && InOrder(h) && IsAttr(r, a) && !r.obj[a].pending && r.obj[a].kind == Fast && Q(r, Key(a, M)) == [x] && x in r.obj && Nested(r.obj[x])
      && Step(r, CreateLeaf(Key(a, M))) == GetLeaf(r, Key(a, M))
  {
    hide Inv, Settled, Bounded, Step, GetLeaf;
    SettingKind(h, a, Fast);
    Distinct(h, a, x);
    CreatesIs(Step(h, ChangeKind(a, Fast)), Key(a, M));
  }

  lemma Distinct(h: Heap, a: Id, x: Id)
    requires a in h.obj && h.obj[a].typ == A && x in h.obj && Nested(h.obj[x])
    ensures a != x
  {
  }

  lemma CreatesIs(h: Heap, k: Key)
    requires IsAttr(h, k.a) && k.t != A
    ensures Step(h, CreateLeaf(k)) == GetLeaf(h, k)
  {
    hide GetLeaf;
  }

  lemma LosesMore(h: Heap, acts: seq<Act>, a: Id, x: Id) returns (i: Id)
    requires Hoards(Run(h, acts), a, x)
    ensures var r := Run(h, acts + [ChangeKind(a, Fast)] + [CreateLeaf(Key(a, M))]); i in r.known && Spare(r, i)
  {
    var h1 := Run(h, acts);
    hide Step, Inv, Settled, Bounded, StaysStranded, StaysBarren, Hoards, InOrder, Run, GetLeaf, Spare;
    HoardSet(h1, a, x);
    StepKeeps(h1, ChangeKind(a, Fast));
    RunMore(h, acts, ChangeKind(a, Fast));
    var h2 := Step(h1, ChangeKind(a, Fast));
    OrderInv(h2);
    RunMore(h, acts + [ChangeKind(a, Fast)], CreateLeaf(Key(a, M)));
    RecyclingLosesTheInnerLockExactlyWhen(h2, a);
    i := h2.obj[x].inner;
  }

  /** A mutex is hoarded, the kind set to fast, and a mutex made: the inner lock of the first is
      known and nothing uses it. */
  lemma AnInnerLockIsLost(lim: Limits) returns (acts: seq<Act>, i: Id)
    requires Max(Start(lim), M) > 0
    ensures var r := Run(Start(lim), acts); i in r.known && Spare(r, i)
  {
    hide Start, Run, Hoards, Spare;
    var x: Id;
    acts, x := AMutexIsHoarded(lim);
    i := LosesMore(Start(lim), acts, 4, x);
    acts := acts + [ChangeKind(4, Fast)] + [CreateLeaf(Key(4, M))];
  }

  lemma HoarderIsDoomed(h: Heap, a: Id, x: Id)
    requires Hoards(h, a, x) && Max(h, A) <= 0 && ROOT in h.obj && Cnt(h, ATTRS) >= 0
    ensures IsAttr(h, a) && Top(h, a) == a && a in Doomed(h, a) && Holds(h, a) && a in h.known && h.obj[a].refcnt == 0 && h.obj[a].parent == ROOT
    ensures Step(h, DeleteAttr(a)) == FreeAttr(h, a)
  {
    hide Inv, Settled, Bounded, FreeAttr;
    assert Q(h, Key(a, M))[0] == x;
  }

  /** Where attributes objects are not cached and mutexes are, a mutex is hoarded, and its
      attributes object deleted: the call locks the default attributes object twice. */
  lemma ADeletionLocksTwice(lim: Limits) returns (acts: seq<Act>)
    requires Max(Start(lim), M) > 0 && Max(Start(lim), A) <= 0
    ensures Run(Start(lim), acts).held
  {
    var x: Id;
    StartMax(lim);
    hide Start, Run, Hoards, Step, Inv, Settled, Bounded;
    acts, x := AMutexIsHoarded(lim);
    var h := Run(Start(lim), acts);
    assert Max(h, A) == Max(Start(lim), A);
    LocksTwice(h, 4, x);
    RunMore(Start(lim), acts, DeleteAttr(4));
    acts := acts + [DeleteAttr(4)];
  }

  lemma StartMax(lim: Limits)
    ensures Start(lim).lim == lim
  {
  }

  lemma LocksTwice(h: Heap, a: Id, x: Id)
    requires Hoards(h, a, x) && Max(h, A) <= 0
    ensures Step(h, DeleteAttr(a)).held
  {
    assert InOrder(h) && IsAttr(h, a);
    RootStays(h);
    InvCounted(h, {}, ATTRS);
    hide Inv, Settled, Bounded, Hoards, Step, FreeAttr, Doomed, Holds, SelfLock.Top;
    HoarderIsDoomed(h, a, x);
    DeletionLocksTwiceExactlyWhen(h, a);
    assert AnyHolds(h, Doomed(h, a));
  }
}
