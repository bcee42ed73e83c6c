/** Handles and incarnations (threads/cma_handle.c, threads/cma_handle.h,
    threads/cma_sequence.c): a handle names an object by its address, type and sequence
    number; the number is counted without bound but kept in a 16-bit field. */
module Handles {
  type Addr = nat

  datatype Option<T> = None | Some(value: T)

  datatype Error = Existence | UseError

  datatype Result<T> = Ok(value: T) | Err(error: Error)

  const SHORT: nat := 0x1_0000

  /** What is left of a number in a signed 16-bit field. */
  function Short(n: int): int {
    (n + 0x8000) % SHORT - 0x8000
  }

  /** A multiple of 2^16 apart. */
  predicate Congruent(m: int, n: int) {
    (m - n) % SHORT == 0
  }

  /** The field holds the number itself as long as that fits, and in it two numbers look the
      same exactly when they are a multiple of 2^16 apart. */
  lemma ShortAgrees(m: int, n: int)
    ensures Short(m) == Short(n) <==> Congruent(m, n)
    ensures -0x8000 <= m < 0x8000 ==> Short(m) == m
  {
  }

  lemma SmallAgree(m: int, n: int)
    requires 0 <= m < SHORT && 0 <= n < SHORT
    ensures Congruent(m, n) <==> m == n
  {
  }

  /** A handle: a null address stands for no object. */
  datatype Handle = Handle(pointer: Option<Addr>, sequence: int, typ: int)

  const NULL := Handle(None, 0, 0)

  /** An object's header as it is in memory. */
  datatype Header = Header(sequence: int, typ: int)

  type Memory = map<Addr, Header>

  /** The object a handle names, when it is of that type. */
  function Validate(m: Memory, h: Handle, typ: int): Result<Addr> {
    match h.pointer
    case None => Err(Existence)
    case Some(p) =>
      if p !in m || h.sequence != m[p].sequence || h.typ != m[p].typ then Err(Existence)
      else if h.typ != typ then Err(UseError)
      else Ok(p)
  }

  /** The same, but the null handle names no object. */
  function ValidateNull(m: Memory, h: Handle, typ: int): Result<Option<Addr>> {
    if h == NULL then Ok(None)
    else match Validate(m, h, typ)
      case Ok(p) => Ok(Some(p))
      case Err(e) => Err(e)
  }

  // --- Creation and deletion over time -----------------------------------------------------------

  /** One life of an object: its storage, its type, and its number among objects of the type. */
  datatype Incarnation = Incarnation(p: Addr, typ: int, n: nat)

  /** The handle a client gets for an incarnation. */
  function HandleOf(i: Incarnation): Handle {
    Handle(Some(i.p), Short(i.n), i.typ)
  }

  /** `live` has the number of each live object, `next` the next number of each type;
      `issued` are all incarnations so far. */
  datatype World = World(mem: Memory, live: map<Addr, nat>, next: map<int, nat>, issued: set<Incarnation>)

  function Next(w: World, typ: int): (n: nat) {
    if typ in w.next then w.next[typ] else 1
  }

  datatype Act = Create(p: Addr, typ: int) | Delete(p: Addr)

  /** Storage is new, or that of a dead object of the same type: deleted objects are kept in
      caches by type. */
  predicate Free(w: World, p: Addr, typ: int) {
    p !in w.mem || (p !in w.live && w.mem[p].typ == typ)
  }

  function Step(w: World, act: Act): World {
    match act
    case Create(p, typ) =>
      if !Free(w, p, typ) then w
      else
        var n := Next(w, typ);
        World(w.mem[p := Header(Short(n), typ)], w.live[p := n], w.next[typ := n + 1], w.issued + {Incarnation(p, typ, n)})
    case Delete(p) =>
      if p !in w.live || p !in w.mem then w
      else w.(mem := w.mem[p := w.mem[p].(sequence := 0)], live := w.live - {p})
  }

  const START := World(map[], map[], map[], {})

  function Run(w: World, acts: seq<Act>): World
    decreases |acts|
  {
    if acts == [] then w else Run(Step(w, acts[0]), acts[1..])
  }

  /** Is the incarnation the one that is live now? */
  predicate Alive(w: World, i: Incarnation) {
    i.p in w.live && w.live[i.p] == i.n
  }

  /** A live object shows its number, a dead one zero. */
  ghost predicate Shown(w: World) {
    && (forall p :: p in w.live ==>
          p in w.mem && w.mem[p].sequence == Short(w.live[p]) && Incarnation(p, w.mem[p].typ, w.live[p]) in w.issued)
    && (forall p :: p in w.mem && p !in w.live ==> w.mem[p].sequence == 0)
  }

  /** Storage keeps its type, and numbers are given in order. */
  ghost predicate Numbered(w: World) {
    && (forall t :: t in w.next ==> w.next[t] >= 1)
    && (forall i :: i in w.issued ==> i.p in w.mem && w.mem[i.p].typ == i.typ && 1 <= i.n < Next(w, i.typ))
  }

  /** No number is given twice. */
  ghost predicate Unique(w: World) {
    forall i, j :: i in w.issued && j in w.issued && i.typ == j.typ && i.n == j.n ==> i == j
  }

  ghost predicate Inv(w: World) {
    Shown(w) && Numbered(w) && Unique(w)
  }

  lemma StepShown(w: World, act: Act)
    requires Shown(w)
    ensures Shown(Step(w, act))
  {
    ShortAgrees(0, 0);
    hide Short, Next;
  }

  lemma CreateNumbered(w: World, p: Addr, typ: int)
    requires Numbered(w) && Free(w, p, typ)
    ensures Numbered(Step(w, Create(p, typ))) && Next(w, typ) >= 1
  {
    var r := Step(w, Create(p, typ));
    hide Short;
    forall i | i in r.issued ensures i.p in r.mem && r.mem[i.p].typ == i.typ && 1 <= i.n < Next(r, i.typ) {
      if i != Incarnation(p, typ, Next(w, typ)) { assert i in w.issued; }
    }
  }

  lemma CreateUnique(w: World, p: Addr, typ: int)
    requires Numbered(w) && Unique(w) && Free(w, p, typ)
    ensures Unique(Step(w, Create(p, typ)))
  {
    hide Short;
    forall i | i in w.issued && i.typ == typ ensures i.n != Next(w, typ) { }
  }

  lemma DeleteKeeps(w: World, p: Addr)
    requires Numbered(w) && Unique(w)
    ensures Numbered(Step(w, Delete(p))) && Unique(Step(w, Delete(p)))
  {
    var r := Step(w, Delete(p));
    assert r.issued == w.issued && r.next == w.next;
    forall i | i in r.issued ensures i.p in r.mem && r.mem[i.p].typ == i.typ && 1 <= i.n < Next(r, i.typ) {
      assert i in w.issued;
    }
  }

  lemma StepInv(w: World, act: Act)
    requires Inv(w)
    ensures Inv(Step(w, act))
  {
    hide Shown, Numbered, Unique, Short;
    StepShown(w, act);
    match act
    case Create(p, typ) =>
      if Free(w, p, typ) {
        CreateNumbered(w, p, typ);
        CreateUnique(w, p, typ);
      }
    case Delete(p) => DeleteKeeps(w, p);
  }

  lemma {:induction false} RunInv(w: World, acts: seq<Act>)
    requires Inv(w)
    ensures Inv(Run(w, acts))
    decreases |acts|
  {
    if acts != [] {
      StepInv(w, acts[0]);
      RunInv(Step(w, acts[0]), acts[1..]);
    }
  }

  /** A handle ever issued is accepted exactly when its type is asked for and the field
      agrees: with the number of the object that lives there now, or with the zero that
      deletion left. */
  lemma ValidatesExactlyWhen(acts: seq<Act>, i: Incarnation, typ: int)
    requires i in Run(START, acts).issued
    ensures var w := Run(START, acts);
      Validate(w.mem, HandleOf(i), typ) == Ok(i.p) <==>
        typ == i.typ && Congruent(if i.p in w.live then w.live[i.p] else 0, i.n)
  {
    RunInv(START, acts);
    var w := Run(START, acts);
    ShortAgrees(if i.p in w.live then w.live[i.p] else 0, i.n);
    ShortAgrees(0, 0);
    hide Short, Congruent, Run;
  }

  /** As long as fewer than 2^16 objects of a type have been created, a handle is accepted
      exactly when its type is asked for and its own incarnation is live; otherwise the
      answer is an error, never another object. */
  lemma HandlesNameTheirIncarnation(acts: seq<Act>, i: Incarnation, typ: int)
    requires i in Run(START, acts).issued && Next(Run(START, acts), i.typ) <= SHORT
    ensures var w := Run(START, acts);
      Validate(w.mem, HandleOf(i), typ) ==
        if !Alive(w, i) then Err(Existence) else if typ != i.typ then Err(UseError) else Ok(i.p)
  {
    hide Short, Congruent, Run;
    RunInv(START, acts);
    ValidatesExactlyWhen(acts, i, typ);
    ValidatesExactlyWhen(acts, i, i.typ);
    var w := Run(START, acts);
    if i.p in w.live {
      assert Incarnation(i.p, w.mem[i.p].typ, w.live[i.p]) in w.issued;
      SmallAgree(w.live[i.p], i.n);
    } else {
      SmallAgree(0, i.n);
    }
  }

  /** And with no more: the handle of number 2^16 outlives its object. */
  lemma HandleOutlivesItsObject(acts: seq<Act>, i: Incarnation)
    requires i in Run(START, acts).issued && i.n == SHORT && i.p !in Run(START, acts).live
    ensures Validate(Run(START, acts).mem, HandleOf(i), i.typ) == Ok(i.p)
  {
    hide Run;
    ValidatesExactlyWhen(acts, i, i.typ);
  }

  /** An object created and deleted n times over in the same storage. */
  function Cycles(p: Addr, typ: int, n: nat): seq<Act> {
    if n == 0 then [] else [Create(p, typ)] + ([Delete(p)] + Cycles(p, typ, n - 1))
  }

  lemma CycleOnce(w: World, p: Addr, typ: int)
    requires Free(w, p, typ) && p !in w.live && Inv(w)
    ensures var r := Step(Step(w, Create(p, typ)), Delete(p));
      && Inv(r) && Free(r, p, typ) && p !in r.live && w.issued <= r.issued && Incarnation(p, typ, Next(w, typ)) in r.issued
      && Next(r, typ) == Next(w, typ) + 1
  {
    StepInv(w, Create(p, typ));
    StepInv(Step(w, Create(p, typ)), Delete(p));
    hide Inv, Short;
  }

  lemma {:induction false} CyclesRun(w: World, p: Addr, typ: int, n: nat)
    requires Free(w, p, typ) && p !in w.live && Inv(w)
    ensures var r := Run(w, Cycles(p, typ, n));
      && p !in r.live && w.issued <= r.issued && (n > 0 ==> Incarnation(p, typ, Next(w, typ) + n - 1) in r.issued)
    decreases n
  {
    if n > 0 {
      var c := Cycles(p, typ, n - 1);
      var w1 := Step(w, Create(p, typ));
      var w2 := Step(w1, Delete(p));
      assert Cycles(p, typ, n)[1..] == [Delete(p)] + c && ([Delete(p)] + c)[1..] == c;
      hide Step, Inv;
      CycleOnce(w, p, typ);
      assert Run(w, Cycles(p, typ, n)) == Run(w1, [Delete(p)] + c) == Run(w2, c);
      hide Run, Cycles;
      CyclesRun(w2, p, typ, n - 1);
    }
  }

  /** There is such a run: after 2^16 creations and deletions the last handle, whose object is
      gone, is accepted. */
  lemma ADeadHandleIsAccepted(p: Addr, typ: int)
    ensures var w := Run(START, Cycles(p, typ, SHORT)); var i := Incarnation(p, typ, SHORT);
      i in w.issued && !Alive(w, i) && Validate(w.mem, HandleOf(i), typ) == Ok(p)
  {
    assert Inv(START) && Free(START, p, typ) && Next(START, typ) == 1;
    hide Run, Cycles, Inv;
    CyclesRun(START, p, typ, SHORT);
    HandleOutlivesItsObject(Cycles(p, typ, SHORT), Incarnation(p, typ, SHORT));
  }

  // --- Deferred signals ------------------------------------------------------------------------------

  /** A deferred signal: the condition variable, and the number its header showed. */
  datatype Deferred = Deferred(p: Addr, sequence: int)

  /** Does carrying out the deferred signal wake a waiter of what is at that address now? */
  predicate Wakes(m: Memory, d: Deferred, cvType: int) {
    d.p in m && m[d.p].sequence == d.sequence && m[d.p].typ == cvType
  }

  lemma {:induction false} RunKeepsIssued(w: World, acts: seq<Act>)
    requires Inv(w)
    ensures w.issued <= Run(w, acts).issued
    decreases |acts|
  {
    if acts != [] {
      StepInv(w, acts[0]);
      RunKeepsIssued(Step(w, acts[0]), acts[1..]);
    }
  }

  /** A signal deferred for one incarnation of an object wakes a waiter of a later one in
      its place exactly when that is a condition variable and their numbers are a multiple
      of 2^16 apart; the place is never given to another type. */
  lemma DeferredSignalReachesExactlyWhen(before: seq<Act>, after: seq<Act>, p: Addr, cvType: int)
    requires var w := Run(START, before); p in w.live && p in w.mem
    requires p in Run(Run(START, before), after).live
    ensures var w, r := Run(START, before), Run(Run(START, before), after);
      Wakes(r.mem, Deferred(p, w.mem[p].sequence), cvType) <==> w.mem[p].typ == cvType && Congruent(r.live[p], w.live[p])
  {
    hide Short, Congruent, Run;
    var w := Run(START, before);
    RunInv(START, before);
    RunInv(w, after);
    RunKeepsIssued(w, after);
    var r := Run(w, after);
    assert Incarnation(p, w.mem[p].typ, w.live[p]) in r.issued;
    ShortAgrees(r.live[p], w.live[p]);
  }

  // --- The cells that clients keep ---------------------------------------------------------------------

  class HandleCell {
    var pointer: Option<Addr>
    var sequence: int
    var typ: int

    constructor ()
      ensures Value() == NULL
    {
      pointer, sequence, typ := None, 0, 0;
    }

    function Value(): Handle
      reads this
    {
      Handle(pointer, sequence, typ)
    }

    /** Copies another handle, whatever it is. */
    method Assign(source: HandleCell)
      modifies this
      ensures Value() == old(source.Value())
    {
      sequence := source.sequence;
      typ := source.typ;
      pointer := source.pointer;
    }

    /** A cleared handle is the null handle: it names no object, where none is allowed. */
    method Clear()
      modifies this
      ensures Value() == NULL
      ensures forall m: Memory, t: int :: Validate(m, Value(), t) == Err(Existence) && ValidateNull(m, Value(), t) == Ok(None)
    {
      sequence := 0;
      typ := 0;
      pointer := None;
    }

    /** The handle of the object at p. */
    method FromObject(m: Memory, p: Addr)
      requires p in m
      modifies this
      ensures Value() == Handle(Some(p), m[p].sequence, m[p].typ) && Validate(m, Value(), m[p].typ) == Ok(p)
    {
      sequence := m[p].sequence;
      typ := m[p].typ;
      pointer := Some(p);
    }

    method Equal(other: HandleCell) returns (same: bool)
      ensures same <==> Value() == other.Value()
    {
      if other.sequence == sequence && other.typ == typ && other.pointer == pointer {
        same := true;
      } else {
        same := false;
      }
    }
  }
}
