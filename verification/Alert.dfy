/** Alert scopes (threads/cma_alert.c): a thread saves its alert state on entering a scope
    and restores it on leaving one, possibly from further in than the outermost. */
module Alert {
  /** The alert state of a thread, and at the same time what a client saves of it. */
  datatype State = State(pending: bool, general: bool, asynch: bool, count: nat)

  datatype Outcome = Fine | Alerted | NestingError

  datatype Act = DisableAsynch | DisableGeneral | EnableGeneral | EnableAsynch | Restore(prior: State) | Send | Test

  /** Does the act open a scope? */
  predicate Opens(act: Act) {
    act.DisableAsynch? || act.DisableGeneral? || act.EnableGeneral?
  }

  /** A pending alert is delivered where general delivery is enabled. */
  function Deliver(s: State): (State, Outcome) {
    if s.pending && s.general then (s.(pending := false, asynch := false), Alerted) else (s, Fine)
  }

  function Step(s: State, act: Act): (State, Outcome) {
    match act
    case DisableAsynch => (s.(count := s.count + 1, asynch := false), Fine)
    case DisableGeneral => (s.(count := s.count + 1, general := false), Fine)
    case EnableGeneral => (s.(count := s.count + 1, general := true), Fine)
    case EnableAsynch => Deliver(s.(asynch := true))
    case Restore(r) =>
      if r.count == s.count then (s, Fine)
      else if r.count < s.count then (s.(count := r.count, general := r.general, asynch := r.asynch), Fine)
      else (s, NestingError)
    case Send => (s.(pending := true), Fine)
    case Test => Deliver(s)
  }

  function Run(s: State, acts: seq<Act>): (State, seq<Outcome>)
    decreases |acts|
  {
    if acts == [] then (s, [])
    else
      var (n, o) := Step(s, acts[0]);
      var (r, os) := Run(n, acts[1..]);
      (r, [o] + os)
  }

  // --- Scopes ----------------------------------------------------------------------------------------

  /** Only scopes further in than depth d are restored. */
  predicate Inside(acts: seq<Act>, d: nat) {
    forall i :: 0 <= i < |acts| && acts[i].Restore? ==> acts[i].prior.count > d
  }

  lemma {:induction false} StaysInside(s: State, acts: seq<Act>, d: nat)
    requires s.count > d && Inside(acts, d)
    ensures Run(s, acts).0.count > d
    decreases |acts|
  {
    if acts != [] {
      var n := Step(s, acts[0]).0;
      assert n.count > d;
      assert Inside(acts[1..], d) by {
        forall i | 0 <= i < |acts| - 1 && acts[1..][i].Restore? ensures acts[1..][i].prior.count > d {
          assert acts[1..][i] == acts[i + 1];
        }
      }
      StaysInside(n, acts[1..], d);
    }
  }

  /** Whatever a thread does inside a scope, however deep, and however many of the scopes it
      opens there it leaves open, restoring the scope gives back the enable bits it was
      opened with, and leaves alone whether an alert is pending; doing it again changes
      nothing. */
  lemma ScopeRestores(s: State, open: Act, acts: seq<Act>)
    requires Opens(open) && Inside(acts, s.count)
    ensures var inner := Run(Step(s, open).0, acts).0; var (r, o) := Step(inner, Restore(s));
      && r == State(inner.pending, s.general, s.asynch, s.count) && o == Fine
      && Step(r, Restore(s)) == (r, Fine)
  {
    StaysInside(Step(s, open).0, acts, s.count);
  }

  // --- The stack of scopes ----------------------------------------------------------------------------

  /** What the open scopes will give back, outermost first. */
  datatype Stack = Stack(pending: bool, general: bool, asynch: bool, saved: seq<(bool, bool)>)

  /** The same acts on a stack: restoring names a depth, and takes what was saved there. */
  function OnStack(t: Stack, act: Act): Stack {
    var pushed := t.(saved := t.saved + [(t.general, t.asynch)]);
    match act
    case DisableAsynch => pushed.(asynch := false)
    case DisableGeneral => pushed.(general := false)
    case EnableGeneral => pushed.(general := true)
    case EnableAsynch => if t.pending && t.general then t.(pending := false, asynch := false) else t.(asynch := true)
    case Restore(r) =>
      if r.count < |t.saved| then
        t.(general := t.saved[r.count].0, asynch := t.saved[r.count].1, saved := t.saved[..r.count])
      else t
    case Send => t.(pending := true)
    case Test => if t.pending && t.general then t.(pending := false, asynch := false) else t
  }

  function StackRun(t: Stack, acts: seq<Act>): Stack
    decreases |acts|
  {
    if acts == [] then t else StackRun(OnStack(t, acts[0]), acts[1..])
  }

  ghost predicate Shows(s: State, t: Stack) {
    s == State(t.pending, t.general, t.asynch, |t.saved|)
  }

  /** A record is current when the scope open at its depth has those bits. */
  predicate Current(t: Stack, act: Act) {
    act.Restore? && act.prior.count < |t.saved| ==> (act.prior.general, act.prior.asynch) == t.saved[act.prior.count]
  }

  /** One act does to the nesting count what it does to the stack exactly when the record it
      restores, if it does, is current: the count alone cannot tell a scope from a later one
      at the same depth. */
  lemma CountsForAStackExactlyWhen(s: State, t: Stack, act: Act)
    requires Shows(s, t)
    ensures Shows(Step(s, act).0, OnStack(t, act)) <==> Current(t, act)
  {
    if act.Restore? && act.prior.count < |t.saved| {
      var k := act.prior.count;
      assert OnStack(t, act).general == t.saved[k].0 && OnStack(t, act).asynch == t.saved[k].1;
    }
  }

  /** Every restored record is current when it is. */
  predicate AllCurrent(t: Stack, acts: seq<Act>)
    decreases |acts|
  {
    acts == [] || (Current(t, acts[0]) && AllCurrent(OnStack(t, acts[0]), acts[1..]))
  }

  /** At the start, at the end, and between any two acts. */
  ghost predicate ShowsThroughout(s: State, t: Stack, acts: seq<Act>)
    decreases |acts|
  {
    Shows(s, t) && (acts == [] || ShowsThroughout(Step(s, acts[0]).0, OnStack(t, acts[0]), acts[1..]))
  }

  /** The count and two bits of a thread stand for the stack of its scopes all along a run,
      and so at its end, exactly when every restored record is current. */
  lemma {:induction false} CountsStandForTheStack(s: State, t: Stack, acts: seq<Act>)
    requires Shows(s, t)
    ensures ShowsThroughout(s, t, acts) <==> AllCurrent(t, acts)
    ensures AllCurrent(t, acts) ==> Shows(Run(s, acts).0, StackRun(t, acts))
    decreases |acts|
  {
    if acts != [] {
      CountsForAStackExactlyWhen(s, t, acts[0]);
      if Current(t, acts[0]) {
        CountsStandForTheStack(Step(s, acts[0]).0, OnStack(t, acts[0]), acts[1..]);
      }
    }
  }

  // --- Clients ------------------------------------------------------------------------------------------

  /** What a client does: an act other than a restore, or leaving the n-th scope it has opened. */
  datatype Move = Do(act: Act) | Leave(n: nat)

  /** A client keeps the record of every scope it has opened, and can know from its own
      moves which of them are open, outermost first: leaving one drops those at its depth
      and further in. */
  datatype Client = Client(s: State, records: seq<State>, open: seq<nat>)

  /** The act that a move makes. */
  function ActOf(c: Client, m: Move): Act {
    match m
    case Do(act) => act
    case Leave(n) => if n < |c.records| then Restore(c.records[n]) else Test
  }

  function Perform(c: Client, m: Move): Client {
    var r := Step(c.s, ActOf(c, m)).0;
    if m.Do? && Opens(m.act) then Client(r, c.records + [c.s], c.open + [|c.records|])
    else if m.Leave? && m.n < |c.records| && c.records[m.n].count < |c.open| then
      Client(r, c.records, c.open[..c.records[m.n].count])
    else Client(r, c.records, c.open)
  }

  /** Scopes are left, and records not restored otherwise. */
  predicate Tidy(moves: seq<Move>) {
    forall i :: 0 <= i < |moves| && moves[i].Do? ==> !moves[i].act.Restore?
  }

  /** A client that leaves only scopes that are open; it may skip inner ones. */
  predicate Disciplined(c: Client, moves: seq<Move>)
    decreases |moves|
  {
    moves == [] || ((moves[0].Leave? ==> moves[0].n in c.open) && Disciplined(Perform(c, moves[0]), moves[1..]))
  }

  /** A scope that is left, open or not, was opened with the same enable bits as the one
      that is open at its depth, if one is. */
  predicate Alike(c: Client, m: Move) {
    m.Leave? && m.n < |c.records| && c.records[m.n].count < |c.open| && c.open[c.records[m.n].count] < |c.records| ==>
      var r, o := c.records[m.n], c.records[c.open[c.records[m.n].count]];
      r.general == o.general && r.asynch == o.asynch
  }

  predicate AllAlike(c: Client, moves: seq<Move>)
    decreases |moves|
  {
    moves == [] || (Alike(c, moves[0]) && AllAlike(Perform(c, moves[0]), moves[1..]))
  }

  function Acts(c: Client, moves: seq<Move>): seq<Act>
    decreases |moves|
  {
    if moves == [] then [] else [ActOf(c, moves[0])] + Acts(Perform(c, moves[0]), moves[1..])
  }

  /** The records of the open scopes are what the stack has saved. */
  ghost predicate Agrees(c: Client, t: Stack) {
    && Shows(c.s, t) && |c.open| == |t.saved|
    && (forall k: nat {:trigger c.open[k]} :: k < |c.open| ==>
          c.open[k] < |c.records| && c.records[c.open[k]].count == k
          && (c.records[c.open[k]].general, c.records[c.open[k]].asynch) == t.saved[k])
  }

  lemma AlikeIsCurrent(c: Client, t: Stack, m: Move)
    requires Agrees(c, t) && (m.Do? ==> !m.act.Restore?)
    ensures Alike(c, m) <==> Current(t, ActOf(c, m))
  {
    if m.Leave? && m.n < |c.records| && c.records[m.n].count < |c.open| {
      var k := c.records[m.n].count;
      assert c.open[k] < |c.records|;
    }
  }

  lemma LeaveAgrees(c: Client, t: Stack, n: nat)
    requires Agrees(c, t) && Alike(c, Leave(n))
    ensures Agrees(Perform(c, Leave(n)), OnStack(t, ActOf(c, Leave(n))))
  {
    AlikeIsCurrent(c, t, Leave(n));
    CountsForAStackExactlyWhen(c.s, t, ActOf(c, Leave(n)));
    if n < |c.records| && c.records[n].count < |c.open| {
      var k := c.records[n].count;
      assert OnStack(t, Restore(c.records[n])).saved == t.saved[..k];
    }
    hide Alike, Current;
  }

  lemma DoAgrees(c: Client, t: Stack, act: Act)
    requires Agrees(c, t) && !act.Restore?
    ensures Agrees(Perform(c, Do(act)), OnStack(t, act))
  {
    var r, u := Perform(c, Do(act)), OnStack(t, act);
    CountsForAStackExactlyWhen(c.s, t, act);
    if Opens(act) {
      assert u.saved == t.saved + [(c.s.general, c.s.asynch)] && r.open == c.open + [|c.records|] && r.records == c.records + [c.s];
      hide Step, OnStack, Perform;
    } else {
      assert u.saved == t.saved && r.open == c.open && r.records == c.records;
    }
  }

  /** All along a client's run they do exactly when each scope left is like the one open at its depth. */
  lemma {:induction false} ShownThroughoutExactlyWhen(c: Client, t: Stack, moves: seq<Move>)
    requires Agrees(c, t) && Tidy(moves)
    ensures ShowsThroughout(c.s, t, Acts(c, moves)) <==> AllAlike(c, moves)
    decreases |moves|
  {
    if moves != [] {
      var m := moves[0];
      var a, d := ActOf(c, m), Perform(c, m);
      hide Alike, Current, OnStack;
      AlikeIsCurrent(c, t, m);
      CountsForAStackExactlyWhen(c.s, t, a);
      assert Acts(c, moves)[1..] == Acts(d, moves[1..]);
      if Alike(c, m) {
        if m.Leave? { LeaveAgrees(c, t, m.n); } else { DoAgrees(c, t, m.act); }
        ShownThroughoutExactlyWhen(d, OnStack(t, a), moves[1..]);
      }
    }
  }

  lemma OpenIsAlike(c: Client, t: Stack, n: nat)
    requires Agrees(c, t) && n in c.open
    ensures Alike(c, Leave(n))
  {
    var k: nat :| k < |c.open| && c.open[k] == n;
    assert c.records[n].count == k;
  }

  /** So it is for a client that leaves only open scopes, and such a one gets from every
      scope what it was opened with. */
  lemma {:induction false} DisciplineIsEnough(c: Client, t: Stack, moves: seq<Move>)
    requires Agrees(c, t) && Tidy(moves) && Disciplined(c, moves)
    ensures AllAlike(c, moves) && AllCurrent(t, Acts(c, moves)) && ShowsThroughout(c.s, t, Acts(c, moves))
    decreases |moves|
  {
    if moves != [] {
      var m := moves[0];
      if m.Leave? {
        OpenIsAlike(c, t, m.n);
        LeaveAgrees(c, t, m.n);
      } else {
        DoAgrees(c, t, m.act);
      }
      hide Alike, OnStack, Perform, Agrees;
      DisciplineIsEnough(Perform(c, m), OnStack(t, ActOf(c, m)), moves[1..]);
    }
    ShownThroughoutExactlyWhen(c, t, moves);
    CountsStandForTheStack(c.s, t, Acts(c, moves));
  }

  const FRESH := State(false, true, false, 0)

  /** Two scopes are opened and left by the outer one; another two are opened, the inner one
      with general delivery enabled; then the first inner one is left again. */
  const STALE: seq<Move> :=
    [Do(DisableGeneral)] + ([Do(DisableAsynch)] + ([Leave(0)] + ([Do(DisableAsynch)] + ([Do(EnableGeneral)] + ([Leave(1)] + [])))))

  lemma Onward(c: Client, t: Stack, m: Move, moves: seq<Move>)
    ensures var a, n, acts := ActOf(c, m), Perform(c, m), Acts(c, [m] + moves); var rest := Acts(n, moves);
      Run(c.s, acts).0 == Run(n.s, rest).0 && StackRun(t, acts) == StackRun(OnStack(t, a), rest)
  {
    var a, n := ActOf(c, m), Perform(c, m);
    assert ([m] + moves)[1..] == moves && ([a] + Acts(n, moves))[1..] == Acts(n, moves);
    assert Acts(c, [m] + moves) == [a] + Acts(n, moves);
    hide Step, OnStack, Acts;
  }

  /** One move of a client, and of a stack. */
  ghost predicate Moves(c: Client, t: Stack, m: Move, d: Client, u: Stack) {
    Perform(c, m) == d && OnStack(t, ActOf(c, m)) == u
  }

  lemma StaleOpens()
    ensures var r, u, v := State(false, false, false, 1), (true, false), (false, false);
      && Moves(Client(FRESH, [], []), Stack(false, true, false, []), Do(DisableGeneral),
               Client(r, [FRESH], [0]), Stack(false, false, false, [u]))
      && Moves(Client(r, [FRESH], [0]), Stack(false, false, false, [u]), Do(DisableAsynch),
               Client(r.(count := 2), [FRESH, r], [0, 1]), Stack(false, false, false, [u, v]))
  {
    assert [FRESH] + [State(false, false, false, 1)] == [FRESH, State(false, false, false, 1)];
    var none: seq<State> := [];
    assert none + [FRESH] == [FRESH];
  }

  lemma StaleLeaves()
    ensures var r, u, v := State(false, false, false, 1), (true, false), (false, false);
      && Moves(Client(r.(count := 2), [FRESH, r], [0, 1]), Stack(false, false, false, [u, v]), Leave(0),
               Client(FRESH, [FRESH, r], []), Stack(false, true, false, []))
  {
    assert [0, 1][..0] == [];
  }

  lemma StaleOpensAgain()
    ensures var r, q, u := State(false, false, false, 1), State(false, true, false, 1), (true, false);
      && Moves(Client(FRESH, [FRESH, r], []), Stack(false, true, false, []), Do(DisableAsynch),
               Client(q, [FRESH, r, FRESH], [2]), Stack(false, true, false, [u]))
      && Moves(Client(q, [FRESH, r, FRESH], [2]), Stack(false, true, false, [u]), Do(EnableGeneral),
               Client(q.(count := 2), [FRESH, r, FRESH, q], [2, 3]), Stack(false, true, false, [u, u]))
  {
    var r, q := State(false, false, false, 1), State(false, true, false, 1);
    assert [FRESH, r] + [FRESH] == [FRESH, r, FRESH] && [FRESH, r, FRESH] + [q] == [FRESH, r, FRESH, q];
  }

  lemma StaleMistakes()
    ensures var r, q, u := State(false, false, false, 1), State(false, true, false, 1), (true, false);
      var c, t := Client(q.(count := 2), [FRESH, r, FRESH, q], [2, 3]), Stack(false, true, false, [u, u]);
      && Perform(c, Leave(1)).s == r && OnStack(t, ActOf(c, Leave(1))) == Stack(false, true, false, [u])
  {
    var u := (true, false);
    assert [u, u][..1] == [u];
  }

  lemma Goes(c: Client, t: Stack, m: Move, moves: seq<Move>, d: Client, u: Stack, s: State, v: Stack)
    requires Moves(c, t, m, d, u) && Run(d.s, Acts(d, moves)).0 == s && StackRun(u, Acts(d, moves)) == v
    ensures Run(c.s, Acts(c, [m] + moves)).0 == s && StackRun(t, Acts(c, [m] + moves)) == v
  {
    hide Perform, OnStack, ActOf, Run, StackRun, Acts;
    Onward(c, t, m, moves);
  }

  /** The stale record passes for that of the scope now open at its depth, and general
      delivery is disabled, where that scope was opened with it enabled. */
  lemma AStaleRecordIsMistaken()
    ensures var acts := Acts(Client(FRESH, [], []), STALE);
      && Run(FRESH, acts).0 == State(false, false, false, 1)
      && StackRun(Stack(false, true, false, []), acts) == Stack(false, true, false, [(true, false)])
  {
    var r, q, u, v := State(false, false, false, 1), State(false, true, false, 1), (true, false), (false, false);
    var m6: seq<Move> := [];
    var m5 := [Leave(1)] + m6;
    var m4 := [Do(EnableGeneral)] + m5;
    var m3 := [Do(DisableAsynch)] + m4;
    var m2 := [Leave(0)] + m3;
    var m1 := [Do(DisableAsynch)] + m2;
    var w := Stack(false, true, false, [u]);
    var c0, t0 := Client(FRESH, [], []), Stack(false, true, false, []);
    var c1, t1 := Client(r, [FRESH], [0]), Stack(false, false, false, [u]);
    var c2, t2 := Client(r.(count := 2), [FRESH, r], [0, 1]), Stack(false, false, false, [u, v]);
    var c3 := Client(FRESH, [FRESH, r], []);
    var c4 := Client(q, [FRESH, r, FRESH], [2]);
    var c5, t5 := Client(q.(count := 2), [FRESH, r, FRESH, q], [2, 3]), Stack(false, true, false, [u, u]);
    hide Perform, OnStack, ActOf, Run, StackRun, Acts, Moves;
    StaleOpens();
    StaleLeaves();
    StaleOpensAgain();
    StaleMistakes();
    AtTheEnd(Perform(c5, Leave(1)), w);
    Onward(c5, t5, Leave(1), m6);
    Goes(c4, w, Do(EnableGeneral), m5, c5, t5, r, w);
    Goes(c3, t0, Do(DisableAsynch), m4, c4, w, r, w);
    Goes(c2, t2, Leave(0), m3, c3, t0, r, w);
    Goes(c1, t1, Do(DisableAsynch), m2, c2, t2, r, w);
    Goes(c0, t0, Do(DisableGeneral), m1, c1, t1, r, w);
  }

  lemma AtTheEnd(c: Client, t: Stack)
    ensures Run(c.s, Acts(c, [])).0 == c.s && StackRun(t, Acts(c, [])) == t
  {
  }

  // --- Alerts -------------------------------------------------------------------------------------------

  function Deliveries(os: seq<Outcome>): nat {
    if os == [] then 0 else (if os[0] == Alerted then 1 else 0) + Deliveries(os[1..])
  }

  /** Alerts sent in the run that found none pending. */
  function Arrivals(s: State, acts: seq<Act>): nat
    decreases |acts|
  {
    if acts == [] then 0
    else (if acts[0] == Send && !s.pending then 1 else 0) + Arrivals(Step(s, acts[0]).0, acts[1..])
  }

  function One(b: bool): nat {
    if b then 1 else 0
  }

  /** Scopes come and go, but an alert is only ever taken by its delivery: those that arrived
      have been delivered, once each, or the last of them is still pending. */
  lemma {:induction false} AlertsAreDeliveredOnce(s: State, acts: seq<Act>)
    ensures One(s.pending) + Arrivals(s, acts) == Deliveries(Run(s, acts).1) + One(Run(s, acts).0.pending)
    decreases |acts|
  {
    if acts != [] {
      var (n, o) := Step(s, acts[0]);
      var os := Run(n, acts[1..]).1;
      AlertsAreDeliveredOnce(n, acts[1..]);
      assert ([o] + os)[1..] == os;
      assert One(s.pending) + (if acts[0] == Send && !s.pending then 1 else 0) == One(o == Alerted) + One(n.pending);
    }
  }

  // --- The thread's record --------------------------------------------------------------------------------

  class Record {
    var pending: bool
    var general: bool
    var asynch: bool
    var count: nat

    constructor ()
      ensures Value() == State(false, true, false, 0)
    {
      pending, general, asynch, count := false, true, false, 0;
    }

    function Value(): State
      reads this
    {
      State(pending, general, asynch, count)
    }

    method OpenWithoutAsynch() returns (prior: State)
      modifies this
      ensures prior == old(Value()) && Value() == Step(old(Value()), DisableAsynch).0
    {
      prior := Value();
      count := count + 1;
      asynch := false;
    }

    method OpenWithoutGeneral() returns (prior: State)
      modifies this
      ensures prior == old(Value()) && Value() == Step(old(Value()), DisableGeneral).0
    {
      prior := Value();
      count := count + 1;
      general := false;
    }

    method OpenWithGeneral() returns (prior: State)
      modifies this
      ensures prior == old(Value()) && Value() == Step(old(Value()), EnableGeneral).0
    {
      prior := Value();
      count := count + 1;
      general := true;
    }

    method AttemptDelivery() returns (o: Outcome)
      modifies this
      ensures (Value(), o) == Step(old(Value()), Test)
    {
      o := Fine;
      if pending && general {
        pending := false;
        asynch := false;
        o := Alerted;
      }
    }

    method AllowAsynch() returns (o: Outcome)
      modifies this
      ensures (Value(), o) == Step(old(Value()), EnableAsynch)
    {
      asynch := true;
      o := AttemptDelivery();
    }

    method Leave(prior: State) returns (o: Outcome)
      modifies this
      ensures (Value(), o) == Step(old(Value()), Restore(prior))
    {
      o := Fine;
      if count != prior.count {
        if prior.count < count {
          count := prior.count;
          general := prior.general;
          asynch := prior.asynch;
        } else {
          o := NestingError;
        }
      }
    }

    method SendAlert()
      modifies this
      ensures Value() == Step(old(Value()), Send).0
    {
      pending := true;
    }
  }
}
