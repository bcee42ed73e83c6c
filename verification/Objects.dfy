/** Attributes objects, the mutexes and condition variables created from them, and
    their caches (threads/cma_attr.c, threads/cma_mutex.c, threads/cma_condition.c):
    the heap of such objects and the elementary steps that creation, release and
    destruction are made of. */
module Objects {
  import opened Semaphore

  type Id = nat

  /** Attributes object, mutex, condition variable. */
  datatype Typ = A | M | C

  datatype Kind = Fast | Recursive | Nonrecursive

  /** The protocol state of a mutex: its bits, whether unlocking clears its own lock bit
      or a dummy, and for owned kinds the owner and the nesting count. */
  datatype Bits = Bits(lock: bool, event: bool, waiters: bool, unlocksLock: bool, owned: bool, nest: int)

  /** `kind` is a mutex's kind, or the kind an attributes object gives to new ones;
      `inner` is the inner lock of a mutex and `mutex` the lock of an attributes
      object, 0 standing for none. */
  datatype Obj = Obj(
    typ: Typ, parent: Id, seqn: nat, rev: nat, kind: Kind, inner: Id, mutex: Id, refcnt: int, pending: bool, bits: Bits)

  datatype Key = Key(a: Id, t: Typ)

  /** High and low water marks of the caches, by type. */
  datatype Limits = Limits(max: map<Typ, int>, min: map<Typ, int>)

  /** Object 0 is the default attributes object, the parent of them all.  `known` are the
      objects on the lists of known objects; `held` records that some call has locked the
      default attributes object while holding it locked. */
  datatype Heap = Heap(
    obj: map<Id, Obj>, queue: map<Key, seq<Id>>, count: map<Key, int>, revs: map<Key, nat>,
    known: set<Id>, next: Id, seqs: nat, lim: Limits, held: bool)

  const ROOT: Id := 0

  function Q(h: Heap, k: Key): seq<Id> {
    if k in h.queue then h.queue[k] else []
  }

  function Cnt(h: Heap, k: Key): int {
    if k in h.count then h.count[k] else 0
  }

  function Rev(h: Heap, k: Key): nat {
    if k in h.revs then h.revs[k] else 0
  }

  function Max(h: Heap, t: Typ): int {
    if t in h.lim.max then h.lim.max[t] else 0
  }

  function Min(h: Heap, t: Typ): int {
    if t in h.lim.min then h.lim.min[t] else 0
  }

  function Home(o: Obj): Key {
    Key(o.parent, o.typ)
  }

  // --- Invariant -----------------------------------------------------------------------------

  ghost function Kids(h: Heap, a: Id): set<Id> {
    set x | x in h.known && x in h.obj && h.obj[x].parent == a
  }

  /** Every object but the default one was created from an older attributes object. */
  ghost predicate Tree(h: Heap) {
    && ROOT in h.obj && h.obj[ROOT].typ == A && ROOT !in h.known
    && (forall x :: x in h.obj ==> x < h.next)
    && (forall x :: x in h.obj && x != ROOT ==>
          h.obj[x].parent < x && h.obj[x].parent in h.obj && h.obj[h.obj[x].parent].typ == A)
  }

  /** Every object is known, or in the cache of its parent, or among the `loose` ones that
      are on their way; never twice. */
  ghost predicate Placed(h: Heap, loose: set<Id>) {
    && h.known !! loose && ROOT !in loose
    && (forall x :: x in h.known + loose ==> x in h.obj)
    && (forall x :: x in h.obj && x != ROOT && x !in h.known && x !in loose ==> x in Q(h, Home(h.obj[x])))
    && (forall k: Key, x: Id {:trigger x in Q(h, k)} :: x in Q(h, k) ==>
          x in h.obj && x != ROOT && Home(h.obj[x]) == k && x !in h.known && x !in loose)
    && (forall k: Key {:trigger Q(h, k)} :: NoDup(Q(h, k)))
  }

  /** Each cache counts its entries. */
  ghost predicate Counted(h: Heap) {
    forall k: Key {:trigger Cnt(h, k)} :: Cnt(h, k) == |Q(h, k)|
  }

  /** An object with a sequence number is known: cached ones are invalid. */
  ghost predicate Numbered(h: Heap) {
    && h.seqs > 0
    && (forall x :: x in h.obj && h.obj[x].seqn != 0 ==> x == ROOT || x in h.known)
  }

  /** Each attributes object counts the known objects created from it. */
  ghost predicate Referred(h: Heap) {
    forall a :: a in h.obj && h.obj[a].typ == A ==> h.obj[a].refcnt == |Kids(h, a)|
  }

  /** The elementary structure. */
  ghost predicate Core(h: Heap, loose: set<Id>) {
    Tree(h) && Placed(h, loose) && Counted(h) && Numbered(h) && Referred(h)
  }

  // --- Elementary steps -----------------------------------------------------------------------

  /** Takes a known object off its list: it becomes invalid and its parent has one
      reference less. */
  function Retire(h: Heap, x: Id): Heap
    requires x in h.obj && h.obj[x].parent in h.obj
  {
    var o, p := h.obj[x], h.obj[h.obj[x].parent];
    h.(obj := h.obj[o.parent := p.(refcnt := p.refcnt - 1)][x := o.(seqn := 0)], known := h.known - {x})
  }

  /** Puts an object on the list of known objects, with a new sequence number and the
      current revision of its parent's cache. */
  function Enlist(h: Heap, x: Id): Heap
    requires x in h.obj && h.obj[x].parent in h.obj
  {
    var o, p := h.obj[x], h.obj[h.obj[x].parent];
    h.(obj := h.obj[o.parent := p.(refcnt := p.refcnt + 1)][x := o.(seqn := h.seqs, rev := Rev(h, Home(o)))],
       known := h.known + {x}, seqs := h.seqs + 1)
  }

  /** Adds an object to the cache of its parent. */
  function Shelve(h: Heap, x: Id): Heap
    requires x in h.obj
  {
    var k := Home(h.obj[x]);
    h.(queue := h.queue[k := Q(h, k) + [x]], count := h.count[k := Cnt(h, k) + 1])
  }

  /** Takes the first object off a cache. */
  function Unshelve(h: Heap, k: Key): Heap
    requires Q(h, k) != []
  {
    h.(queue := h.queue[k := Q(h, k)[1..]], count := h.count[k := Cnt(h, k) - 1])
  }

  /** Frees the memory of an object. */
  function Erase(h: Heap, x: Id): Heap {
    h.(obj := h.obj - {x})
  }

  /** Allocates an object. */
  function Alloc(h: Heap, o: Obj): Heap {
    h.(obj := h.obj[h.next := o], next := h.next + 1)
  }

  // --- What they keep --------------------------------------------------------------------------

  /** Nothing has changed but lists, sequence numbers, revisions and references. */
  ghost predicate Alike(h: Heap, r: Heap) {
    && r.obj.Keys == h.obj.Keys && r.next == h.next && r.lim == h.lim && r.revs == h.revs
    && forall y {:trigger r.obj[y]} :: y in h.obj ==>
         r.obj[y] == h.obj[y].(seqn := r.obj[y].seqn, rev := r.obj[y].rev, refcnt := r.obj[y].refcnt)
  }

  lemma AlikeTree(h: Heap, r: Heap)
    requires Tree(h) && Alike(h, r) && ROOT !in r.known
    ensures Tree(r)
  {
    forall x | x in r.obj && x != ROOT
      ensures r.obj[x].parent < x && r.obj[x].parent in r.obj && r.obj[r.obj[x].parent].typ == A
    {
      assert x in h.obj && r.obj[x].parent == h.obj[x].parent;
    }
  }

  lemma RetireAlike(h: Heap, x: Id)
    requires x in h.obj && h.obj[x].parent in h.obj
    ensures var r := Retire(h, x);
      Alike(h, r) && r.known == h.known - {x} && r.queue == h.queue && r.count == h.count && r.seqs == h.seqs && r.held == h.held
    ensures forall y :: y in h.obj && h.obj[x].parent != x ==>
      Retire(h, x).obj[y].refcnt == (if y == h.obj[x].parent then h.obj[y].refcnt - 1 else h.obj[y].refcnt)
      && Retire(h, x).obj[y].seqn == (if y == x then 0 else h.obj[y].seqn)
  {
  }

  lemma EnlistAlike(h: Heap, x: Id)
    requires x in h.obj && h.obj[x].parent in h.obj
    ensures var r := Enlist(h, x);
      Alike(h, r) && r.known == h.known + {x} && r.queue == h.queue && r.count == h.count && r.seqs == h.seqs + 1
      && r.held == h.held && r.obj[x].rev == Rev(h, Home(h.obj[x]))
    ensures forall y :: y in h.obj && h.obj[x].parent != x ==>
      Enlist(h, x).obj[y].refcnt == (if y == h.obj[x].parent then h.obj[y].refcnt + 1 else h.obj[y].refcnt)
      && Enlist(h, x).obj[y].seqn == (if y == x then h.seqs else h.obj[y].seqn)
  {
  }

  lemma AlikeKids(h: Heap, r: Heap, a: Id)
    requires Alike(h, r)
    ensures Kids(r, a) == set x | x in r.known && x in h.obj && h.obj[x].parent == a
  {
    forall x ensures x in Kids(r, a) <==> x in r.known && x in h.obj && h.obj[x].parent == a {
      if x in h.obj { assert r.obj[x].parent == h.obj[x].parent; }
    }
  }

  /** A known object becomes loose, or a loose one known. */
  lemma Relisted(h: Heap, r: Heap, loose: set<Id>, loose': set<Id>)
    requires Placed(h, loose) && Alike(h, r) && r.queue == h.queue
    requires forall y :: y in r.known || y in loose' <==> y in h.known || y in loose
    requires r.known !! loose' && ROOT !in loose'
    ensures Placed(r, loose')
  {
    assert forall k :: Q(r, k) == Q(h, k);
    forall x | x in r.obj && x != ROOT && x !in r.known && x !in loose' ensures x in Q(r, Home(r.obj[x])) {
      assert Home(r.obj[x]) == Home(h.obj[x]);
    }
    forall k: Key, x: Id | x in Q(r, k)
      ensures x in r.obj && x != ROOT && Home(r.obj[x]) == k && x !in r.known && x !in loose'
    {
      assert x in Q(h, k);
      assert Home(r.obj[x]) == Home(h.obj[x]);
    }
  }

  lemma CountedSame(h: Heap, r: Heap)
    requires Counted(h) && r.queue == h.queue && r.count == h.count
    ensures Counted(r)
  {
    assert forall k :: Cnt(r, k) == Cnt(h, k) && Q(r, k) == Q(h, k);
  }

  lemma ParentKnown(h: Heap, loose: set<Id>, x: Id)
    requires Core(h, loose) && x in h.known + loose
    ensures x in h.obj && x != ROOT && h.obj[x].parent in h.obj && h.obj[x].parent != x
    ensures h.obj[h.obj[x].parent].typ == A
  {
  }

  /** A known object comes or goes, and its parent's count follows. */
  lemma KidsFollow(h: Heap, r: Heap, x: Id, a: Id)
    requires Alike(h, r) && x in h.obj
    requires forall y :: y != x ==> (y in r.known <==> y in h.known)
    requires x in r.known <==> x !in h.known
    ensures |Kids(r, a)| ==
      if h.obj[x].parent != a then |Kids(h, a)| else if x in h.known then |Kids(h, a)| - 1 else |Kids(h, a)| + 1
  {
    AlikeKids(h, r, a);
    hide Alike;
    var k := Kids(h, a);
    if h.obj[x].parent != a {
      assert Kids(r, a) == k;
    } else if x in h.known {
      assert x in k && Kids(r, a) == k - {x};
    } else {
      assert x !in k && Kids(r, a) == k + {x};
    }
  }

  lemma ReferredFollows(h: Heap, r: Heap, x: Id)
    requires Referred(h) && Alike(h, r) && x in h.obj
    requires forall y :: y != x ==> (y in r.known <==> y in h.known)
    requires x in r.known <==> x !in h.known
    requires forall y :: y in h.obj && h.obj[x].parent != x ==>
      r.obj[y].refcnt == h.obj[y].refcnt + if h.obj[x].parent != y then 0 else if x in h.known then -1 else 1
    requires h.obj[x].parent != x
    ensures Referred(r)
  {
    forall a | a in r.obj && r.obj[a].typ == A ensures r.obj[a].refcnt == |Kids(r, a)| {
      KidsFollow(h, r, x, a);
      hide Kids;
      assert a in h.obj && h.obj[a].typ == A;
      assert h.obj[a].refcnt == |Kids(h, a)|;
    }
  }

  lemma NumberedFollows(h: Heap, r: Heap, x: Id)
    requires Numbered(h) && Alike(h, r) && r.seqs >= h.seqs
    requires forall y :: y in h.obj && y != x ==> r.obj[y].seqn == h.obj[y].seqn
    requires x in h.obj ==> x in r.known || r.obj[x].seqn == 0
    requires forall y :: y in h.known && y != x ==> y in r.known
    ensures Numbered(r)
  {
    forall y | y in r.obj && r.obj[y].seqn != 0 ensures y == ROOT || y in r.known {
      assert y in h.obj;
    }
  }

  lemma RetirePlaced(h: Heap, x: Id, loose: set<Id>)
    requires Tree(h) && Placed(h, loose) && x in h.known
    ensures x in h.obj && h.obj[x].parent in h.obj && Placed(Retire(h, x), loose + {x})
  {
    hide Alike, Retire;
    assert x in h.known + loose && ROOT !in h.known;
    RetireAlike(h, x);
    Relisted(h, Retire(h, x), loose, loose + {x});
  }

  lemma RetireCounts(h: Heap, x: Id)
    requires Tree(h) && Referred(h) && Numbered(h) && x in h.obj && x != ROOT && x in h.known
    ensures Referred(Retire(h, x)) && Numbered(Retire(h, x))
  {
    hide Alike, Retire, Referred, Numbered;
    RetireAlike(h, x);
    ReferredFollows(h, Retire(h, x), x);
    NumberedFollows(h, Retire(h, x), x);
  }

  lemma RetireCore(h: Heap, x: Id, loose: set<Id>)
    requires Core(h, loose) && x in h.known
    ensures x in h.obj && h.obj[x].parent in h.obj && Core(Retire(h, x), loose + {x}) && Alike(h, Retire(h, x))
  {
    ParentKnown(h, loose, x);
    hide Tree, Placed, Counted, Numbered, Referred, Retire, Alike;
    RetirePlaced(h, x, loose);
    RootUnlisted(h, loose);
    RetireCounts(h, x);
    RetireAlike(h, x);
    AlikeTree(h, Retire(h, x));
    CountedSame(h, Retire(h, x));
  }

  lemma EnlistPlaced(h: Heap, x: Id, loose: set<Id>)
    requires Tree(h) && Placed(h, loose) && x in loose
    ensures x in h.obj && h.obj[x].parent in h.obj && Placed(Enlist(h, x), loose - {x})
  {
    hide Alike, Enlist;
    assert x in h.known + loose && ROOT !in h.known;
    EnlistAlike(h, x);
    Relisted(h, Enlist(h, x), loose, loose - {x});
  }

  lemma EnlistCounts(h: Heap, x: Id)
    requires Tree(h) && Referred(h) && Numbered(h) && x in h.obj && x != ROOT && x !in h.known
    ensures Referred(Enlist(h, x)) && Numbered(Enlist(h, x))
  {
    hide Alike, Enlist, Referred, Numbered;
    EnlistAlike(h, x);
    ReferredFollows(h, Enlist(h, x), x);
    NumberedFollows(h, Enlist(h, x), x);
  }

  lemma EnlistCore(h: Heap, x: Id, loose: set<Id>)
    requires Core(h, loose) && x in loose
    ensures x in h.obj && h.obj[x].parent in h.obj && Core(Enlist(h, x), loose - {x}) && Alike(h, Enlist(h, x))
  {
    ParentKnown(h, loose, x);
    hide Tree, Placed, Counted, Numbered, Referred, Enlist, Alike;
    EnlistPlaced(h, x, loose);
    RootUnlisted(h, loose);
    EnlistCounts(h, x);
    EnlistAlike(h, x);
    AlikeTree(h, Enlist(h, x));
    CountedSame(h, Enlist(h, x));
  }

  lemma RootUnlisted(h: Heap, loose: set<Id>)
    requires Tree(h) && Placed(h, loose)
    ensures ROOT !in h.known && ROOT !in loose && h.known !! loose
  {
  }

  /** Objects other than x, lists and counts are untouched. */
  lemma ShelveCore(h: Heap, x: Id, loose: set<Id>)
    requires Core(h, loose) && x in loose && x in h.obj && h.obj[x].seqn == 0
    ensures Core(Shelve(h, x), loose - {x})
  {
    var r, k := Shelve(h, x), Home(h.obj[x]);
    assert x != ROOT && x !in h.known;
    assert forall j: Key :: Q(r, j) == if j == k then Q(h, k) + [x] else Q(h, j);
    assert forall j: Key :: Cnt(r, j) == if j == k then Cnt(h, k) + 1 else Cnt(h, j);
    assert Referred(r) by { SameReferred(h, r); }
    assert Counted(r);
    assert Tree(r) && Numbered(r);
    assert Placed(r, loose - {x}) by { hide Tree, Counted, Numbered, Referred, Shelve; ShelvePlaced(h, r, x, loose); }
  }

  lemma SameReferred(h: Heap, r: Heap)
    requires Referred(h) && r.known == h.known && r.obj == h.obj
    ensures Referred(r)
  {
    assert forall a :: Kids(r, a) == Kids(h, a);
  }

  lemma ShelvePlaced(h: Heap, r: Heap, x: Id, loose: set<Id>)
    requires Placed(h, loose) && x in loose && r.known == h.known && r.obj == h.obj && x in h.obj
    requires forall j: Key :: Q(r, j) == if j == Home(h.obj[x]) then Q(h, j) + [x] else Q(h, j)
    ensures Placed(r, loose - {x})
  {
    assert forall j: Key :: x !in Q(h, j);
    forall j: Key ensures NoDup(Q(r, j)) {
      assert NoDup(Q(h, j));
    }
  }

  lemma UnshelveCore(h: Heap, k: Key, loose: set<Id>)
    requires Core(h, loose) && Q(h, k) != []
    ensures var x := Q(h, k)[0];
      x in h.obj && Home(h.obj[x]) == k && h.obj[x].seqn == 0 && x !in loose && Core(Unshelve(h, k), loose + {x})
  {
    var r, x := Unshelve(h, k), Q(h, k)[0];
    assert x in Q(h, k);
    assert forall j: Key :: Q(r, j) == if j == k then Q(h, k)[1..] else Q(h, j);
    assert forall j: Key :: Cnt(r, j) == if j == k then Cnt(h, k) - 1 else Cnt(h, j);
    assert Referred(r) by { SameReferred(h, r); }
    assert Counted(r);
    assert Tree(r) && Numbered(r);
    assert Placed(r, loose + {x}) by { hide Tree, Counted, Numbered, Referred, Unshelve; UnshelvePlaced(h, r, k, loose); }
  }

  lemma UnshelvePlaced(h: Heap, r: Heap, k: Key, loose: set<Id>)
    requires Placed(h, loose) && Q(h, k) != [] && r.known == h.known && r.obj == h.obj
    requires forall j: Key :: Q(r, j) == if j == k then Q(h, k)[1..] else Q(h, j)
    ensures Placed(r, loose + {Q(h, k)[0]})
  {
    var x := Q(h, k)[0];
    assert x in Q(h, k);
    NoDupTail(Q(h, k));
    forall j: Key ensures NoDup(Q(r, j)) {
      assert NoDup(Q(h, j));
    }
    forall j: Key, y: Id | y in Q(r, j)
      ensures y in r.obj && y != ROOT && Home(r.obj[y]) == j && y !in r.known && y !in loose + {x}
    {
      assert y in Q(h, j);
    }
  }

  /** No object was created from x. */
  ghost predicate Childless(h: Heap, x: Id) {
    forall y :: y in h.obj && y != ROOT ==> h.obj[y].parent != x
  }

  lemma EraseCore(h: Heap, x: Id, loose: set<Id>)
    requires Core(h, loose) && x in loose && (x in h.obj && h.obj[x].typ == A ==> Childless(h, x))
    ensures Core(Erase(h, x), loose - {x})
  {
    var r := Erase(h, x);
    assert x != ROOT && x !in h.known && x in h.obj;
    assert forall k :: Q(r, k) == Q(h, k) && Cnt(r, k) == Cnt(h, k);
    assert Counted(r);
    assert Tree(r);
    assert Numbered(r);
    assert Referred(r) by { EraseReferred(h, x); }
    assert Placed(r, loose - {x}) by { hide Tree, Counted, Numbered, Referred; ErasePlaced(h, x, loose); }
  }

  lemma EraseReferred(h: Heap, x: Id)
    requires Referred(h) && x !in h.known
    ensures Referred(Erase(h, x))
  {
    var r := Erase(h, x);
    forall a ensures Kids(r, a) == Kids(h, a) { }
  }

  lemma ErasePlaced(h: Heap, x: Id, loose: set<Id>)
    requires Placed(h, loose) && x in loose
    ensures Placed(Erase(h, x), loose - {x})
  {
    var r := Erase(h, x);
    assert forall k :: Q(r, k) == Q(h, k);
    forall k: Key, y: Id | y in Q(r, k)
      ensures y in r.obj && y != ROOT && Home(r.obj[y]) == k && y !in r.known && y !in loose - {x}
    {
      assert y in Q(h, k);
    }
    assert forall k :: NoDup(Q(h, k)) ==> NoDup(Q(r, k));
  }

  lemma AllocCore(h: Heap, o: Obj, loose: set<Id>)
    requires Core(h, loose) && o.parent in h.obj && h.obj[o.parent].typ == A && o.seqn == 0 && o.refcnt == 0
    ensures h.next !in h.obj && h.next !in loose && Core(Alloc(h, o), loose + {h.next})
  {
    var r := Alloc(h, o);
    assert h.next !in h.obj;
    assert h.next !in loose && h.next !in h.known by { assert forall y :: y in h.known + loose ==> y in h.obj; }
    assert forall k :: Q(r, k) == Q(h, k) && Cnt(r, k) == Cnt(h, k);
    assert Counted(r);
    assert Tree(r);
    assert Numbered(r);
    assert Referred(r) by { AllocReferred(h, o); }
    assert Placed(r, loose + {h.next}) by { hide Tree, Counted, Numbered, Referred; AllocPlaced(h, o, loose); }
  }

  lemma AllocReferred(h: Heap, o: Obj)
    requires Tree(h) && Referred(h) && h.next !in h.obj && h.next !in h.known && o.refcnt == 0
    requires forall y :: y in h.known ==> y in h.obj
    ensures Referred(Alloc(h, o))
  {
    var r := Alloc(h, o);
    forall a ensures Kids(r, a) == Kids(h, a) { }
    assert forall y :: y in h.known ==> h.obj[y].parent != h.next;
    assert Kids(h, h.next) == {};
  }

  lemma AllocPlaced(h: Heap, o: Obj, loose: set<Id>)
    requires Placed(h, loose) && h.next !in h.obj && h.next !in loose && h.next !in h.known && h.next != ROOT
    ensures Placed(Alloc(h, o), loose + {h.next})
  {
    var r := Alloc(h, o);
    assert forall k :: Q(r, k) == Q(h, k);
    forall k: Key, y: Id | y in Q(r, k)
      ensures y in r.obj && y != ROOT && Home(r.obj[y]) == k && y !in r.known && y !in loose + {h.next}
    {
      assert y in Q(h, k);
    }
    assert forall k :: NoDup(Q(h, k)) ==> NoDup(Q(r, k));
  }
}
