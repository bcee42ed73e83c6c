/** Deferred kernel actions (threads/cma_defer.c, threads/cma_kernel.h): interrupts queue
    actions on three rings at any time and clear the "processed" flag; threads that
    enter or leave the kernel, dispatch, or are about to yield, drain the rings.  A
    thread can be preempted in the middle of a drain, by a thread that it wakes. */
module Deferral {

  /** A deferred wakeup, of one waiter or of all. */
  datatype Entry = Entry(id: nat, all: bool)

  /** What a thread is in the middle of, innermost last. */
  datatype Rec =
    | Enter                  // has the kernel; about to test the flag
    | Exit(tested: bool)     // about to test the flag; about to release the kernel
    | Undefer(at: nat)       // about to set the flag (0); draining ring 1, 2 or 3; done
    | Waking(left: nat)      // readying all waiters of a semaphore, trying to run each
    | TryRun(at: nat)        // about to undefer (0); about to yield (1); back (2)
    | Dispatch(tested: bool) // about to test the flag; about to switch threads

  /** `queued` and `carried` are what was ever put on a ring, and taken off it. */
  datatype State = State(
    kernel: bool, processed: bool, rings: seq<seq<Entry>>,
    queued: seq<seq<Entry>>, carried: seq<seq<Entry>>,
    stacks: seq<seq<Rec>>, cur: nat)

  datatype Act =
    | Interrupt(ring: nat, e: Entry)
    // the running thread, at its base level
    | Lock | Unlock | Block | Wake | Call
    // its next step; `preempts`: a thread just woken outranks it; `to`: who runs next
    | Go(preempts: bool, to: nat, waiters: nat)

  predicate Shape(s: State) {
    |s.rings| == |s.queued| == |s.carried| == 3 && s.cur < |s.stacks|
  }

  function Init(n: nat): State
    requires n > 0
  {
    State(false, true, [[], [], []], [[], [], []], [[], [], []], seq(n, _ => []), 0)
  }

  function Stack(s: State): seq<Rec>
    requires Shape(s)
  {
    s.stacks[s.cur]
  }

  function With(s: State, st: seq<Rec>): (r: State)
    requires Shape(s)
    ensures Shape(r) && |r.stacks| == |s.stacks|
  {
    s.(stacks := s.stacks[s.cur := st])
  }

  predicate InDispatch(st: seq<Rec>) {
    exists i :: 0 <= i < |st| && st[i].Dispatch?
  }

  /** Tests and sets the flag; undefers when it was clear. */
  function TestFlag(s: State, st: seq<Rec>): (r: State)
    requires Shape(s)
    ensures Shape(r) && |r.stacks| == |s.stacks|
  {
    if s.processed then With(s, st) else With(s.(processed := true), st + [Undefer(0)])
  }

  /** One step of the draining loops.  With `guarded` (the build that never runs a thread
      from inside the dispatcher and yields once after waking all) waking all may yield
      without undeferring first. */
  function DrainStep(guarded: bool, s: State, below: seq<Rec>, at: nat, a: Act): (r: State)
    requires Shape(s) && a.Go?
    ensures Shape(r) && |r.stacks| == |s.stacks|
  {
    if at == 0 then With(s.(processed := true), below + [Undefer(1)])
    else if at > 3 then With(s, below)
    else if s.rings[at - 1] == [] then With(s, below + [Undefer(at + 1)])
    else
      var e, q := s.rings[at - 1][0], s.rings[at - 1][1..];
      var m := s.(rings := s.rings[at - 1 := q], carried := s.carried[at - 1 := s.carried[at - 1] + [e]]);
      var st := below + [Undefer(at)];
      if !guarded && e.all then With(m, st + [Waking(a.waiters)])
      else if !a.preempts || (guarded && InDispatch(st)) then With(m, st)
      else if e.all then With(m, st + [Dispatch(false)])
      else With(m, st + [TryRun(0)])
  }

  function Step(guarded: bool, s: State, a: Act): (r: State)
    requires Shape(s)
    ensures Shape(r) && |r.stacks| == |s.stacks|
  {
    if a.Interrupt? then
      if a.ring >= 3 then s
      else s.(rings := s.rings[a.ring := s.rings[a.ring] + [a.e]], queued := s.queued[a.ring := s.queued[a.ring] + [a.e]],
              processed := false)
    else if Stack(s) == [] then
      match a
      case Lock => if s.kernel then s else With(s.(kernel := true), [Enter])
      case Unlock => if s.kernel then With(s, [Exit(false)]) else s
      case Block => if s.kernel then With(s, [Dispatch(false)]) else s
      case Wake => if s.kernel then With(s, [TryRun(0)]) else s
      case Call => if s.kernel then With(s, [Undefer(0)]) else s
      case _ => s
    else if !a.Go? then s
    else
      var below, top := Stack(s)[..|Stack(s)| - 1], Stack(s)[|Stack(s)| - 1];
      match top
      case Enter => TestFlag(s, below)
      case Exit(tested) => if tested then With(s.(kernel := false), below) else TestFlag(s, below + [Exit(true)])
      case Undefer(at) => DrainStep(guarded, s, below, at, a)
      case Waking(left) =>
        if left == 0 then With(s, below)
        else With(s, below + [Waking(left - 1)] + if a.preempts then [TryRun(0)] else [])
      case TryRun(at) =>
        if at == 0 then With(s, below + [TryRun(1), Undefer(0)])
        else if at == 1 then With(s, below + [TryRun(2), Dispatch(false)])
        else With(s, below)
      case Dispatch(tested) =>
        if tested then With(s, below).(cur := if a.to < |s.stacks| then a.to else s.cur)
        else TestFlag(s, below + [Dispatch(true)])
  }

  function Run(guarded: bool, s: State, acts: seq<Act>): (r: State)
    requires Shape(s)
    ensures Shape(r) && |r.stacks| == |s.stacks|
    decreases |acts|
  {
    if acts == [] then s else Run(guarded, Step(guarded, s, acts[0]), acts[1..])
  }

  // --- First in, first out, once each ------------------------------------------------------------

  ghost predicate Conserved(s: State) {
    Shape(s) && forall r: nat :: r < 3 ==> s.queued[r] == s.carried[r] + s.rings[r]
  }

  lemma DrainConserves(guarded: bool, s: State, below: seq<Rec>, at: nat, a: Act)
    requires Shape(s) && Conserved(s) && a.Go?
    ensures Conserved(DrainStep(guarded, s, below, at, a))
  {
    hide InDispatch;
    if 1 <= at <= 3 && s.rings[at - 1] != [] {
      var q, c := s.rings[at - 1], s.carried[at - 1];
      var t := DrainStep(guarded, s, below, at, a);
      assert t.rings == s.rings[at - 1 := q[1..]] && t.carried == s.carried[at - 1 := c + [q[0]]] && t.queued == s.queued;
      hide DrainStep;
      assert c + q == (c + [q[0]]) + q[1..];
    }
  }

  lemma StepConserves(guarded: bool, s: State, a: Act)
    requires Shape(s) && Conserved(s)
    ensures Conserved(Step(guarded, s, a))
  {
    hide DrainStep;
    if a.Interrupt? {
      if a.ring < 3 {
        assert (s.carried[a.ring] + s.rings[a.ring]) + [a.e] == s.carried[a.ring] + (s.rings[a.ring] + [a.e]);
      }
    } else if a.Go? && Stack(s) != [] && Stack(s)[|Stack(s)| - 1].Undefer? {
      DrainConserves(guarded, s, Stack(s)[..|Stack(s)| - 1], Stack(s)[|Stack(s)| - 1].at, a);
    }
  }

  /** In every run, of either build: what has been carried out is a prefix of what was
      queued, ring by ring, and the rest is still there, in order. */
  lemma {:induction false} EveryRunConserves(guarded: bool, s: State, acts: seq<Act>)
    requires Shape(s) && Conserved(s)
    ensures Conserved(Run(guarded, s, acts))
    decreases |acts|
  {
    if acts != [] {
      StepConserves(guarded, s, acts[0]);
      hide Step, Conserved;
      EveryRunConserves(guarded, Step(guarded, s, acts[0]), acts[1..]);
    }
  }

  // --- Nothing forgotten ---------------------------------------------------------------------------

  /** A record whose thread will still drain ring r (0, 1 or 2) itself. */
  predicate Covers(x: Rec, r: nat) {
    (x.Undefer? && x.at <= r + 1) || x == TryRun(0)
  }

  ghost predicate Pending(s: State, r: nat)
    requires Shape(s)
  {
    r < 3 && s.rings[r] != []
  }

  /** Work that is queued is announced by the flag, or some thread, perhaps preempted, is
      in the middle of a drain that will come to it. */
  ghost predicate Remembered(s: State) {
    Shape(s) && forall r: nat {:trigger Pending(s, r)} :: Pending(s, r) && s.processed ==> CoveredBySome(s, r)
  }

  ghost predicate CoveredBySome(s: State, r: nat)
    requires Shape(s)
  {
    exists t: nat, i: nat {:trigger s.stacks[t][i]} :: t < |s.stacks| && i < |s.stacks[t]| && Covers(s.stacks[t][i], r)
  }

  /** The running thread itself will come to ring r, before it does anything else. */
  predicate CoveredHere(st: seq<Rec>, r: nat) {
    st != [] &&
    var top := st[|st| - 1];
    Covers(top, r) || (top.Waking? && CoveredHere(st[..|st| - 1], r))
  }

  /** ... and it is the running thread that is in the middle of it. */
  ghost predicate Noticed(s: State) {
    && Shape(s)
    && (!s.kernel ==> Stack(s) == [])
    && (forall r: nat {:trigger Pending(s, r)} :: Pending(s, r) && s.processed ==> CoveredHere(Stack(s), r))
  }

  /** The step after which queued work is not announced: a guarded build wakes all waiters
      from a drain, one of them outranks the running thread, and there is more to drain. */
  ghost predicate Abandons(guarded: bool, s: State, a: Act)
    requires Shape(s)
  {
    && guarded && a.Go? && a.preempts && s.processed && Stack(s) != []
    && var top := Stack(s)[|Stack(s)| - 1];
    && top.Undefer? && 1 <= top.at <= 3 && s.rings[top.at - 1] != [] && s.rings[top.at - 1][0].all
    && !InDispatch(Stack(s))
    && (|s.rings[top.at - 1]| > 1 || exists r: nat :: r != top.at - 1 && Pending(s, r))
  }

  lemma TestFlagNotices(s: State, st: seq<Rec>)
    requires Shape(s) && (s.kernel || st == [])
    requires forall r: nat {:trigger Pending(s, r)} :: Pending(s, r) ==> !s.processed
    ensures s.kernel ==> Noticed(TestFlag(s, st))
  {
    var t := TestFlag(s, st);
    forall r: nat | Pending(t, r) && t.processed && s.kernel ensures CoveredHere(Stack(t), r) {
      assert Pending(s, r);
    }
  }

  lemma CoveredUnder(st: seq<Rec>, x: Rec, r: nat)
    ensures CoveredHere(st + [x], r) <==> Covers(x, r) || (x.Waking? && CoveredHere(st, r))
  {
    assert (st + [x])[..|st + [x]| - 1] == st;
  }

  /** The running thread's stack changes, and nothing else. */
  lemma WithNotices(s: State, st: seq<Rec>)
    requires Noticed(s) && (s.kernel || st == [])
    requires forall r: nat {:trigger Pending(s, r)} :: Pending(s, r) && s.processed && CoveredHere(Stack(s), r) ==> CoveredHere(st, r)
    ensures Noticed(With(s, st))
  {
    var t := With(s, st);
    forall r: nat | Pending(t, r) && t.processed ensures CoveredHere(Stack(t), r) {
      assert Pending(s, r);
    }
  }

  lemma InterruptNotices(guarded: bool, s: State, a: Act)
    requires Noticed(s) && a.Interrupt?
    ensures Noticed(Step(guarded, s, a))
  {
    hide CoveredHere;
    assert forall r: nat :: a.ring >= 3 && Pending(Step(guarded, s, a), r) ==> Pending(s, r);
  }

  lemma BaseNotices(guarded: bool, s: State, a: Act)
    requires Noticed(s) && !a.Interrupt? && Stack(s) == []
    ensures Noticed(Step(guarded, s, a))
  {
    assert forall r: nat :: Pending(s, r) ==> !s.processed;
    var t := Step(guarded, s, a);
    hide CoveredHere;
    assert t.rings == s.rings && t.processed == s.processed;
    assert forall r: nat :: Pending(t, r) ==> Pending(s, r);
  }

  /** Draining, one step: the ring left behind is empty, and a thread switched to without
      undeferring is the only way to leave something behind. */
  lemma DrainNotices(guarded: bool, s: State, below: seq<Rec>, at: nat, a: Act)
    requires Noticed(s) && s.kernel && a.Go? && Stack(s) == below + [Undefer(at)]
    ensures Noticed(DrainStep(guarded, s, below, at, a)) <==> !Abandons(guarded, s, a)
  {
    var t := DrainStep(guarded, s, below, at, a);
    assert Stack(s)[..|Stack(s)| - 1] == below && Stack(s)[|Stack(s)| - 1] == Undefer(at);
    forall r: nat ensures CoveredHere(Stack(s), r) <==> at <= r + 1 { CoveredUnder(below, Undefer(at), r); }
    if at == 0 {
      forall r: nat ensures CoveredHere(Stack(t), r) { CoveredUnder(below, Undefer(1), r); }
    } else if at > 3 {
      assert forall r: nat :: Pending(t, r) ==> Pending(s, r);
    } else if s.rings[at - 1] == [] {
      forall r: nat ensures CoveredHere(Stack(t), r) <==> at + 1 <= r + 1 { CoveredUnder(below, Undefer(at + 1), r); }
      assert forall r: nat :: Pending(t, r) ==> Pending(s, r) && r != at - 1;
    } else {
      DrainOneNotices(guarded, s, below, at, a);
    }
  }

  lemma DrainOneNotices(guarded: bool, s: State, below: seq<Rec>, at: nat, a: Act)
    requires Noticed(s) && s.kernel && a.Go? && Stack(s) == below + [Undefer(at)] && 1 <= at <= 3 && s.rings[at - 1] != []
    requires forall r: nat :: CoveredHere(Stack(s), r) <==> at <= r + 1
    ensures Noticed(DrainStep(guarded, s, below, at, a)) <==> !Abandons(guarded, s, a)
  {
    var t, e, st := DrainStep(guarded, s, below, at, a), s.rings[at - 1][0], below + [Undefer(at)];
    assert Stack(s)[|Stack(s)| - 1] == Undefer(at) && Stack(s) == st;
    forall r: nat
      ensures CoveredHere(st, r) <==> at <= r + 1
      ensures CoveredHere(st + [Waking(a.waiters)], r) <==> at <= r + 1
      ensures CoveredHere(st + [TryRun(0)], r)
      ensures !CoveredHere(st + [Rec.Dispatch(false)], r)
    {
      CoveredUnder(st, Waking(a.waiters), r);
      CoveredUnder(st, TryRun(0), r);
      CoveredUnder(st, Rec.Dispatch(false), r);
    }
    forall r: nat ensures Pending(t, r) <==> Pending(s, r) && (r == at - 1 ==> |s.rings[r]| > 1) { }
    hide CoveredHere, InDispatch;
    if guarded && e.all && a.preempts && !InDispatch(st) {
      assert Stack(t) == st + [Rec.Dispatch(false)] && t.processed == s.processed && t.kernel;
      if s.processed && |s.rings[at - 1]| > 1 { assert Pending(t, at - 1); }
      if s.processed && exists r: nat :: r != at - 1 && Pending(s, r) {
        var r: nat :| r != at - 1 && Pending(s, r);
        assert Pending(t, r);
      }
    }
  }

  predicate Gate(x: Rec) {
    x.Enter? || x.Exit?
  }

  ghost predicate Low(st: seq<Rec>) {
    forall i: nat {:trigger st[i]} :: 1 <= i < |st| ==> !Gate(st[i])
  }

  /** Entering and leaving the kernel happens at a thread's base level only. */
  ghost predicate Stacked(s: State) {
    forall t: nat :: t < |s.stacks| ==> Low(s.stacks[t])
  }

  lemma LowChanges(st: seq<Rec>)
    requires Low(st) && st != []
    ensures var below := st[..|st| - 1];
      && Low(below)
      && (forall x {:trigger below + [x]} :: !Gate(x) || Gate(st[|st| - 1]) ==> Low(below + [x]))
  {
  }

  lemma LowPush(st: seq<Rec>, x: Rec)
    requires Low(st) && !Gate(x)
    ensures Low(st + [x])
  {
  }

  lemma DrainLow(guarded: bool, s: State, below: seq<Rec>, at: nat, a: Act)
    requires Shape(s) && a.Go? && Low(below)
    ensures Low(Stack(DrainStep(guarded, s, below, at, a)))
    ensures DrainStep(guarded, s, below, at, a).cur == s.cur
    ensures DrainStep(guarded, s, below, at, a).stacks == s.stacks[s.cur := Stack(DrainStep(guarded, s, below, at, a))]
  {
    LowPush(below, Undefer(at));
    LowPush(below, Undefer(1));
    LowPush(below, Undefer(at + 1));
    LowPush(below + [Undefer(at)], Waking(a.waiters));
    LowPush(below + [Undefer(at)], Rec.Dispatch(false));
    LowPush(below + [Undefer(at)], TryRun(0));
    hide Low, InDispatch;
  }

  lemma TopLow(guarded: bool, s: State, a: Act)
    requires Shape(s) && Low(Stack(s)) && a.Go? && Stack(s) != [] && !Stack(s)[|Stack(s)| - 1].Undefer?
    ensures exists st :: Low(st) && Step(guarded, s, a).stacks == s.stacks[s.cur := st]
  {
    var below, top := Stack(s)[..|Stack(s)| - 1], Stack(s)[|Stack(s)| - 1];
    LowChanges(Stack(s));
    match top {
      case Enter => LowPush(below, Undefer(0));
      case Exit(_) => LowPush(below + [Exit(true)], Undefer(0));
      case Waking(left) =>
        if left > 0 { LowPush(below, Waking(left - 1)); LowPush(below + [Waking(left - 1)], TryRun(0)); }
        assert left > 0 ==> below + [Waking(left - 1)] + [] == below + [Waking(left - 1)];
      case TryRun(at) =>
        LowPush(below, TryRun(1));
        LowPush(below, TryRun(2));
        LowPush(below + [TryRun(1)], Undefer(0));
        LowPush(below + [TryRun(2)], Rec.Dispatch(false));
        assert below + [TryRun(1), Undefer(0)] == below + [TryRun(1)] + [Undefer(0)];
        assert below + [TryRun(2), Rec.Dispatch(false)] == below + [TryRun(2)] + [Rec.Dispatch(false)];
      case Dispatch(_) =>
        LowPush(below, Rec.Dispatch(true));
        LowPush(below + [Rec.Dispatch(true)], Undefer(0));
    }
    var t := Step(guarded, s, a);
    assert Low(t.stacks[s.cur]);
    hide Low;
    assert t.stacks == s.stacks[s.cur := t.stacks[s.cur]];
  }

  lemma StepStacked(guarded: bool, s: State, a: Act)
    requires Shape(s) && Stacked(s)
    ensures Stacked(Step(guarded, s, a))
  {
    if a.Go? && Stack(s) != [] {
      var top := Stack(s)[|Stack(s)| - 1];
      LowChanges(Stack(s));
      if top.Undefer? {
        DrainLow(guarded, s, Stack(s)[..|Stack(s)| - 1], top.at, a);
        hide DrainStep, Low;
      } else {
        TopLow(guarded, s, a);
        hide Step, Low;
      }
    }
  }

  /** Every other step of the running thread keeps queued work announced. */
  lemma TopNotices(guarded: bool, s: State, below: seq<Rec>, top: Rec, a: Act)
    requires Noticed(s) && Stacked(s) && s.kernel && a.Go? && Stack(s) == below + [top] && !top.Undefer?
    ensures Noticed(Step(guarded, s, a))
  {
    var st := Stack(s);
    assert st[..|st| - 1] == below && st[|st| - 1] == top;
    forall r: nat ensures CoveredHere(st, r) <==> top == TryRun(0) || (top.Waking? && CoveredHere(below, r)) {
      CoveredUnder(below, top, r);
    }
    hide CoveredHere;
    match top {
      case Enter => TestFlagNotices(s, below);
      case Exit(tested) => if tested { ReleaseNotices(s, below); } else { TestFlagNotices(s, below + [Exit(true)]); }
      case Waking(left) => WakingNotices(s, below, left, a);
      case TryRun(at) =>
        if at == 0 {
          UndeferFirst(s, below);
        } else {
          WithNotices(s, if at == 1 then below + [TryRun(2), Rec.Dispatch(false)] else below);
        }
      case Dispatch(tested) =>
        if tested {
          var t := Step(guarded, s, a);
          assert t.rings == s.rings && t.processed == s.processed && t.kernel;
          assert forall r: nat :: Pending(t, r) ==> Pending(s, r);
        } else {
          TestFlagNotices(s, below + [Rec.Dispatch(true)]);
        }
    }
  }

  lemma ReleaseNotices(s: State, below: seq<Rec>)
    requires Noticed(s) && Stacked(s) && Stack(s) == below + [Exit(true)]
    ensures Noticed(With(s.(kernel := false), below))
  {
    var t := With(s.(kernel := false), below);
    assert Low(Stack(s)) && Stack(s)[|below|] == Exit(true);
    forall r: nat ensures !CoveredHere(Stack(s), r) { CoveredUnder(below, Exit(true), r); }
    hide CoveredHere;
    assert forall r: nat :: Pending(t, r) ==> Pending(s, r);
  }

  lemma UndeferFirst(s: State, below: seq<Rec>)
    requires Noticed(s) && s.kernel
    ensures Noticed(With(s, below + [TryRun(1), Undefer(0)]))
  {
    assert below + [TryRun(1), Undefer(0)] == below + [TryRun(1)] + [Undefer(0)];
    forall r: nat ensures CoveredHere(below + [TryRun(1), Undefer(0)], r) { CoveredUnder(below + [TryRun(1)], Undefer(0), r); }
    WithNotices(s, below + [TryRun(1), Undefer(0)]);
  }

  lemma WakingNotices(s: State, below: seq<Rec>, left: nat, a: Act)
    requires Noticed(s) && s.kernel && a.Go? && Stack(s) == below + [Waking(left)]
    ensures Noticed(With(s, if left == 0 then below else below + [Waking(left - 1)] + if a.preempts then [TryRun(0)] else []))
  {
    forall r: nat ensures CoveredHere(Stack(s), r) <==> CoveredHere(below, r) { CoveredUnder(below, Waking(left), r); }
    if left > 0 {
      var up := below + [Waking(left - 1)];
      forall r: nat ensures CoveredHere(below, r) ==> CoveredHere(up, r) && CoveredHere(up + [TryRun(0)], r) {
        CoveredUnder(below, Waking(left - 1), r);
        CoveredUnder(up, TryRun(0), r);
      }
      assert up + [] == up;
      WithNotices(s, up + if a.preempts then [TryRun(0)] else []);
    } else {
      WithNotices(s, below);
    }
  }

  /** Queued work stays announced by the flag, or about to be drained by the running
      thread, after every step but one: exactly when that step abandons a drain. */
  lemma StepNoticesExactlyWhen(guarded: bool, s: State, a: Act)
    requires Noticed(s) && Stacked(s)
    ensures Noticed(Step(guarded, s, a)) <==> !Abandons(guarded, s, a)
  {
    if a.Interrupt? {
      InterruptNotices(guarded, s, a);
    } else if Stack(s) == [] {
      BaseNotices(guarded, s, a);
    } else if a.Go? {
      var below, top := Stack(s)[..|Stack(s)| - 1], Stack(s)[|Stack(s)| - 1];
      assert Stack(s) == below + [top];
      if top.Undefer? {
        DrainNotices(guarded, s, below, top.at, a);
      } else {
        TopNotices(guarded, s, below, top, a);
      }
      hide Noticed, DrainStep, TestFlag;
    }
  }

  /** No step of the run abandons a drain. */
  ghost predicate NeverAbandons(guarded: bool, s: State, acts: seq<Act>)
    requires Shape(s)
    decreases |acts|
  {
    acts == [] || (!Abandons(guarded, s, acts[0]) && NeverAbandons(guarded, Step(guarded, s, acts[0]), acts[1..]))
  }

  lemma {:induction false} UnguardedNeverAbandons(s: State, acts: seq<Act>)
    requires Shape(s)
    ensures NeverAbandons(false, s, acts)
    decreases |acts|
  {
    if acts != [] {
      hide Step;
      UnguardedNeverAbandons(Step(false, s, acts[0]), acts[1..]);
    }
  }

  lemma {:induction false} RunNotices(guarded: bool, s: State, acts: seq<Act>)
    requires Noticed(s) && Stacked(s) && NeverAbandons(guarded, s, acts)
    ensures Noticed(Run(guarded, s, acts)) && Stacked(Run(guarded, s, acts))
    decreases |acts|
  {
    if acts != [] {
      StepNoticesExactlyWhen(guarded, s, acts[0]);
      StepStacked(guarded, s, acts[0]);
      hide Noticed, Stacked, Step, Abandons;
      RunNotices(guarded, Step(guarded, s, acts[0]), acts[1..]);
    }
  }

  /** Nothing forgotten: in every run that abandons no drain, with interrupts anywhere,
      whenever the kernel is free and work is queued the flag says so, so that the
      next thread to enter or leave the kernel undefers. */
  lemma FreeKernelMeansAnnounced(guarded: bool, n: nat, acts: seq<Act>)
    requires n > 0 && NeverAbandons(guarded, Init(n), acts)
    ensures var s := Run(guarded, Init(n), acts);
      && Conserved(s)
      && (!s.kernel && (exists r: nat :: r < 3 && s.rings[r] != []) ==>
            !s.processed && Stack(s) == [])
      && (!s.processed && !s.kernel ==>
            Stack(Step(guarded, Step(guarded, s, Lock), Go(false, 0, 0))) == [Undefer(0)])
  {
    var s0 := Init(n);
    assert Conserved(s0) && Noticed(s0) && Stacked(s0);
    EveryRunConserves(guarded, s0, acts);
    RunNotices(guarded, s0, acts);
    var s := Run(guarded, s0, acts);
    hide Run;
    assert Stack(s) == [] ==> forall r: nat :: !CoveredHere(Stack(s), r);
    if r: nat :| r < 3 && s.rings[r] != [] { assert Pending(s, r); }
    assert [Enter][..0] == [];
  }

  /** A build without the guard forgets nothing in any run: with work queued the flag is
      clear, or the running thread is in the middle of a drain that will come to it; and with
      the kernel free the flag is clear. */
  lemma UnguardedBuildsForgetNothing(n: nat, acts: seq<Act>)
    requires n > 0
    ensures var s := Run(false, Init(n), acts);
      forall r: nat :: r < 3 && s.rings[r] != [] ==>
        if s.kernel then !s.processed || CoveredHere(Stack(s), r) else !s.processed
  {
    var s0 := Init(n);
    assert Noticed(s0) && Stacked(s0);
    UnguardedNeverAbandons(s0, acts);
    RunNotices(false, s0, acts);
    var s := Run(false, s0, acts);
    hide Run, NeverAbandons;
    forall r: nat | r < 3 && s.rings[r] != []
      ensures if s.kernel then !s.processed || CoveredHere(Stack(s), r) else !s.processed
    {
      assert Pending(s, r);
      assert Stack(s) == [] ==> !CoveredHere(Stack(s), r);
    }
  }

  // --- Remembered in either build ---------------------------------------------------------------------

  ghost predicate CoveredIn(st: seq<Rec>, r: nat) {
    exists i: nat :: i < |st| && Covers(st[i], r)
  }

  /** A change of the running thread's stack above its last record forgets nothing when
      the new records cover what the last one did. */
  lemma StackRemembers(s: State, t: State, below: seq<Rec>, top: Rec, st: seq<Rec>)
    requires Remembered(s) && Shape(t) && Stack(s) == below + [top]
    requires t.stacks == s.stacks[s.cur := st] && below <= st
    requires forall r: nat {:trigger Pending(t, r)} :: Pending(t, r) && t.processed ==>
      CoveredIn(st, r) || (Pending(s, r) && s.processed && !Covers(top, r))
    ensures Remembered(t)
  {
    assert forall i: nat :: i < |below| ==> st[i] == s.stacks[s.cur][i];
    forall r: nat | Pending(t, r) && t.processed ensures CoveredBySome(t, r) {
      if CoveredIn(st, r) {
        var i: nat :| i < |st| && Covers(st[i], r);
        assert t.stacks[s.cur][i] == st[i];
      } else {
        var u: nat, i: nat :| u < |s.stacks| && i < |s.stacks[u]| && Covers(s.stacks[u][i], r);
        assert t.stacks[u][i] == s.stacks[u][i];
      }
    }
  }

  lemma LastCovers(st: seq<Rec>, x: Rec, r: nat)
    requires Covers(x, r)
    ensures CoveredIn(st + [x], r)
  {
    assert (st + [x])[|st|] == x;
  }

  lemma TestFlagRemembers(s: State, below: seq<Rec>, top: Rec, up: seq<Rec>, t: State)
    requires Remembered(s) && Stack(s) == below + [top] && below <= up
    requires t == TestFlag(s, up) && forall r: nat :: !Covers(top, r)
    ensures Remembered(t)
  {
    if s.processed {
      assert forall r: nat :: Pending(t, r) ==> Pending(s, r);
      StackRemembers(s, t, below, top, up);
    } else {
      forall r: nat ensures CoveredIn(up + [Undefer(0)], r) { LastCovers(up, Undefer(0), r); }
      StackRemembers(s, t, below, top, up + [Undefer(0)]);
    }
  }

  lemma DrainRemembers(guarded: bool, s: State, below: seq<Rec>, at: nat, a: Act)
    requires Remembered(s) && a.Go? && Stack(s) == below + [Undefer(at)]
    ensures Remembered(DrainStep(guarded, s, below, at, a))
  {
    hide InDispatch;
    var t := DrainStep(guarded, s, below, at, a);
    var st := Stack(t);
    assert t.stacks == s.stacks[s.cur := st];
    if at == 0 {
      forall r: nat ensures CoveredIn(below + [Undefer(1)], r) { LastCovers(below, Undefer(1), r); }
    } else if at > 3 {
      assert forall r: nat :: Pending(t, r) ==> Pending(s, r);
    } else {
      forall r: nat | Pending(t, r) && t.processed
        ensures CoveredIn(st, r) || (Pending(s, r) && s.processed && !Covers(Undefer(at), r))
      {
        assert Pending(s, r);
        if at <= r + 1 {
          if s.rings[at - 1] == [] { LastCovers(below, Undefer(at + 1), r); }
          else { assert st[|below|] == Undefer(at); }
        }
      }
    }
    hide DrainStep, Covers;
    StackRemembers(s, t, below, Undefer(at), st);
  }

  lemma TopRemembers(guarded: bool, s: State, below: seq<Rec>, top: Rec, a: Act)
    requires Remembered(s) && a.Go? && Stack(s) == below + [top] && !top.Undefer?
    ensures Remembered(Step(guarded, s, a))
  {
    var st, t := Stack(s), Step(guarded, s, a);
    assert st[..|st| - 1] == below && st[|st| - 1] == top;
    match top {
      case Enter => TestFlagRemembers(s, below, top, below, t);
      case Exit(tested) =>
        if tested { ClimbRemembers(s, below, top, below, t); }
        else { TestFlagRemembers(s, below, top, below + [Exit(true)], t); }
      case Dispatch(tested) =>
        if tested { ClimbRemembers(s, below, top, below, t); }
        else { TestFlagRemembers(s, below, top, below + [Rec.Dispatch(true)], t); }
      case Waking(left) =>
        ClimbRemembers(s, below, top,
          if left == 0 then below else below + [Waking(left - 1)] + if a.preempts then [TryRun(0)] else [], t);
      case TryRun(at) =>
        if at == 0 {
          assert below + [TryRun(1), Undefer(0)] == below + [TryRun(1)] + [Undefer(0)];
          forall r: nat ensures CoveredIn(below + [TryRun(1), Undefer(0)], r) { LastCovers(below + [TryRun(1)], Undefer(0), r); }
          StackRemembers(s, t, below, top, below + [TryRun(1), Undefer(0)]);
        } else {
          ClimbRemembers(s, below, top, if at == 1 then below + [TryRun(2), Rec.Dispatch(false)] else below, t);
        }
    }
  }

  lemma ClimbRemembers(s: State, below: seq<Rec>, top: Rec, up: seq<Rec>, t: State)
    requires Remembered(s) && Stack(s) == below + [top] && below <= up && Shape(t)
    requires t.stacks == s.stacks[s.cur := up] && t.rings == s.rings && t.processed == s.processed
    requires forall r: nat :: !Covers(top, r)
    ensures Remembered(t)
  {
    assert forall r: nat :: Pending(t, r) ==> Pending(s, r);
    hide Covers;
    StackRemembers(s, t, below, top, up);
  }

  lemma BaseRemembers(guarded: bool, s: State, a: Act)
    requires Remembered(s) && !a.Interrupt? && Stack(s) == []
    ensures Remembered(Step(guarded, s, a))
  {
    var t := Step(guarded, s, a);
    assert t.rings == s.rings && t.processed == s.processed;
    forall r: nat | Pending(t, r) && t.processed ensures CoveredBySome(t, r) {
      assert Pending(s, r);
      var u: nat, i: nat :| u < |s.stacks| && i < |s.stacks[u]| && Covers(s.stacks[u][i], r);
      assert t.stacks[u][i] == s.stacks[u][i];
    }
  }

  lemma StepRemembers(guarded: bool, s: State, a: Act)
    requires Remembered(s)
    ensures Remembered(Step(guarded, s, a))
  {
    if a.Interrupt? {
      assert a.ring >= 3 || !Step(guarded, s, a).processed;
    } else if Stack(s) == [] {
      BaseRemembers(guarded, s, a);
    } else if a.Go? {
      var below, top := Stack(s)[..|Stack(s)| - 1], Stack(s)[|Stack(s)| - 1];
      assert Stack(s) == below + [top];
      hide Remembered, DrainStep, TestFlag;
      if top.Undefer? { DrainRemembers(guarded, s, below, top.at, a); } else { TopRemembers(guarded, s, below, top, a); }
    }
  }

  /** In every run of either build: work that is queued is announced by the flag, or an
      undeferral that will come to it has begun and not finished, in some thread. */
  lemma {:induction false} EveryRunRemembers(guarded: bool, s: State, acts: seq<Act>)
    requires Remembered(s)
    ensures Remembered(Run(guarded, s, acts))
    decreases |acts|
  {
    if acts != [] {
      StepRemembers(guarded, s, acts[0]);
      hide Step, Remembered;
      EveryRunRemembers(guarded, Step(guarded, s, acts[0]), acts[1..]);
    }
  }

  // --- Draining --------------------------------------------------------------------------------------

  /** What the running thread meets at each of its next steps, counted from some point on:
      how many waiters it readies, and who would run next. */
  type Course = nat -> (nat, nat)

  function Undisturbed(w: (nat, nat)): Act {
    Go(false, w.0, w.1)
  }

  /** n more steps of the running thread from step i of the course, undisturbed. */
  function Steps(guarded: bool, s: State, course: Course, i: nat, n: nat): (r: State)
    requires Shape(s)
    ensures Shape(r) && |r.stacks| == |s.stacks|
    decreases n
  {
    if n == 0 then s else Steps(guarded, Step(guarded, s, Undisturbed(course(i))), course, i + 1, n - 1)
  }

  ghost predicate Leads(guarded: bool, s: State, course: Course, i: nat, r: State)
    requires Shape(s)
  {
    exists n: nat :: Steps(guarded, s, course, i, n) == r
  }

  lemma LeadsMore(guarded: bool, s: State, course: Course, i: nat, r: State)
    requires Shape(s) && Leads(guarded, Step(guarded, s, Undisturbed(course(i))), course, i + 1, r)
    ensures Leads(guarded, s, course, i, r)
  {
    var n: nat :| Steps(guarded, Step(guarded, s, Undisturbed(course(i))), course, i + 1, n) == r;
    assert Steps(guarded, s, course, i, n + 1) == r;
  }

  /** Readying any number of waiters, none of whom outranks the running thread, comes to its end. */
  lemma {:induction false} WakingLeads(guarded: bool, s: State, course: Course, i: nat, st: seq<Rec>, left: nat, r: State)
    requires Shape(s) && Stack(s) == st + [Waking(left)]
    requires forall j: nat :: Leads(guarded, With(s, st), course, j, r)
    ensures Leads(guarded, s, course, i, r)
    decreases left
  {
    var t := Step(guarded, s, Undisturbed(course(i)));
    assert Stack(s)[..|Stack(s)| - 1] == st && Stack(s)[|Stack(s)| - 1] == Waking(left);
    hide Leads;
    if left > 0 {
      var none: seq<Rec> := [];
      assert st + [Waking(left - 1)] + none == st + [Waking(left - 1)];
      assert t == With(s, st + [Waking(left - 1)]);
      WithTwice(s, st + [Waking(left - 1)], st);
      hide Step;
      WakingLeads(guarded, t, course, i + 1, st, left - 1, r);
    } else {
      assert t == With(s, st);
    }
    LeadsMore(guarded, s, course, i, r);
  }

  /** All work carried out, ring by ring from `at` on, in order. */
  function Carried(s: State, at: nat): (r: State)
    requires Shape(s) && 1 <= at
    ensures Shape(r) && |r.stacks| == |s.stacks|
    decreases 4 - at
  {
    if at > 3 then s
    else Carried(s.(rings := s.rings[at - 1 := []], carried := s.carried[at - 1 := s.carried[at - 1] + s.rings[at - 1]]), at + 1)
  }

  lemma CarriedStack(s: State, at: nat, st: seq<Rec>)
    requires Shape(s) && 1 <= at
    ensures Carried(With(s, st), at) == With(Carried(s, at), st) && Carried(s, at).cur == s.cur
    decreases 4 - at
  {
    if at <= 3 {
      var t := s.(rings := s.rings[at - 1 := []], carried := s.carried[at - 1 := s.carried[at - 1] + s.rings[at - 1]]);
      CarriedStack(t, at + 1, st);
    }
  }

  /** The first entry of ring `at` taken off and counted as carried out. */
  function Taken(s: State, at: nat): State
    requires Shape(s) && 1 <= at <= 3 && s.rings[at - 1] != []
  {
    var e, q := s.rings[at - 1][0], s.rings[at - 1][1..];
    s.(rings := s.rings[at - 1 := q], carried := s.carried[at - 1 := s.carried[at - 1] + [e]])
  }

  /** A drain at ring `at` takes one step: what it still has to carry out stays the same. */
  lemma DrainOnce(guarded: bool, s: State, below: seq<Rec>, at: nat, w: (nat, nat))
    requires Shape(s) && 1 <= at <= 3 && Stack(s) == below + [Undefer(at)]
    ensures var t := Step(guarded, s, Undisturbed(w));
      if s.rings[at - 1] == [] then t == With(s, below + [Undefer(at + 1)])
      else t == if !guarded && s.rings[at - 1][0].all then With(Taken(s, at), Stack(s) + [Waking(w.1)]) else Taken(s, at)
  {
    var t := Step(guarded, s, Undisturbed(w));
    assert Stack(s)[..|Stack(s)| - 1] == below && Stack(s)[|Stack(s)| - 1] == Undefer(at);
    assert s.stacks[s.cur := below + [Undefer(at)]] == s.stacks;
  }

  lemma CarriedTaken(s: State, at: nat)
    requires Shape(s) && 1 <= at <= 3 && s.rings[at - 1] != []
    ensures Shape(Taken(s, at)) && Carried(Taken(s, at), at) == Carried(s, at) && Stack(Taken(s, at)) == Stack(s)
    ensures |Taken(s, at).rings[at - 1]| < |s.rings[at - 1]|
  {
    var e, q, c, t := s.rings[at - 1][0], s.rings[at - 1][1..], s.carried[at - 1], Taken(s, at);
    assert (c + [e]) + q == c + s.rings[at - 1];
    assert t.rings[at - 1 := []] == s.rings[at - 1 := []];
    assert t.carried[at - 1 := t.carried[at - 1] + t.rings[at - 1]] == s.carried[at - 1 := c + s.rings[at - 1]];
  }

  /** An empty ring changes nothing. */
  lemma CarriedEmpty(s: State, at: nat)
    requires Shape(s) && 1 <= at <= 3 && s.rings[at - 1] == []
    ensures Carried(s, at) == Carried(s, at + 1)
  {
    assert s.carried[at - 1] + [] == s.carried[at - 1];
    assert s.rings[at - 1 := []] == s.rings && s.carried[at - 1 := s.carried[at - 1]] == s.carried;
  }

  /** A drain that is not disturbed empties ring after ring, in the order of queueing, and
      returns, whatever is queued and however many waiters each wakeup finds: every step of
      it carries out one action, readies one waiter or moves to the next ring. */
  lemma {:induction false} DrainsAll(guarded: bool, s: State, course: Course, i: nat, below: seq<Rec>, at: nat)
    requires Shape(s) && 1 <= at <= 4 && Stack(s) == below + [Undefer(at)]
    ensures Leads(guarded, s, course, i, With(Carried(s, at), below))
    decreases 4 - at, if at <= 3 then |s.rings[at - 1]| else 0
  {
    var t := Step(guarded, s, Undisturbed(course(i)));
    if at == 4 {
      assert Stack(s)[..|Stack(s)| - 1] == below && Stack(s)[|Stack(s)| - 1] == Undefer(at);
      assert Steps(guarded, t, course, i + 1, 0) == t;
    } else {
      DrainOnce(guarded, s, below, at, course(i));
      hide Step, Leads;
      if s.rings[at - 1] == [] {
        CarriedEmpty(s, at);
        CarriedStack(s, at + 1, below + [Undefer(at + 1)]);
        hide Carried;
        DrainsAll(guarded, t, course, i + 1, below, at + 1);
        WithTwice(Carried(s, at + 1), below + [Undefer(at + 1)], below);
      } else {
        CarriedTaken(s, at);
        hide Carried, Taken;
        DrainsRest(guarded, s, t, course, i + 1, below, at);
      }
    }
    LeadsMore(guarded, s, course, i, With(Carried(s, at), below));
  }

  lemma {:induction false} DrainsRest(guarded: bool, s: State, t: State, course: Course, i: nat, below: seq<Rec>, at: nat)
    requires Shape(s) && 1 <= at <= 3 && Stack(s) == below + [Undefer(at)] && s.rings[at - 1] != []
    requires Shape(Taken(s, at)) && Carried(Taken(s, at), at) == Carried(s, at) && Stack(Taken(s, at)) == Stack(s)
    requires |Taken(s, at).rings[at - 1]| < |s.rings[at - 1]|
    requires t == Taken(s, at) || exists left: nat :: t == With(Taken(s, at), Stack(s) + [Waking(left)])
    ensures Shape(t) && Leads(guarded, t, course, i, With(Carried(s, at), below))
    decreases 4 - at, |s.rings[at - 1]|, 0
  {
    var m, r := Taken(s, at), With(Carried(s, at), below);
    hide Taken, Carried, Leads;
    if t == m {
      DrainsAll(guarded, m, course, i, below, at);
    } else {
      var left: nat :| t == With(m, Stack(s) + [Waking(left)]);
      WithTwice(m, Stack(s) + [Waking(left)], Stack(s));
      WithSame(m);
      forall j: nat ensures Leads(guarded, With(t, Stack(s)), course, j, r) {
        DrainsAll(guarded, m, course, j, below, at);
      }
      WakingLeads(guarded, t, course, i, Stack(s), left, r);
    }
  }

  lemma WithSame(s: State)
    requires Shape(s)
    ensures With(s, Stack(s)) == s
  {
  }

  lemma WithTwice(s: State, a: seq<Rec>, b: seq<Rec>)
    requires Shape(s)
    ensures With(With(s, a), b) == With(s, b)
  {
  }

  /** A flag found clear is set, and everything is carried out before the thread goes on. */
  lemma FlagDrains(guarded: bool, s: State, course: Course, i: nat, st: seq<Rec>)
    requires Shape(s) && !s.processed
    ensures var p := s.(processed := true);
      TestFlag(s, st) == With(p, st + [Undefer(0)]) && Leads(guarded, TestFlag(s, st), course, i, With(Carried(p, 1), st))
  {
    var p := s.(processed := true);
    var t := With(p, st + [Undefer(0)]);
    assert Stack(t)[..|Stack(t)| - 1] == st && Stack(t)[|Stack(t)| - 1] == Undefer(0);
    assert Step(guarded, t, Undisturbed(course(i))) == With(p, st + [Undefer(1)]);
    hide Step, Leads;
    DrainsAll(guarded, With(p, st + [Undefer(1)]), course, i + 1, st, 1);
    CarriedStack(p, 1, st + [Undefer(1)]);
    hide Carried;
    WithTwice(Carried(p, 1), st + [Undefer(1)], st);
    LeadsMore(guarded, t, course, i, With(Carried(p, 1), st));
  }

  /** So the thread that enters a free kernel with work announced carries all of it out,
      when nothing disturbs it, before it goes on ... */
  lemma EntryDrains(guarded: bool, s: State, course: Course, i: nat)
    requires Shape(s) && Stack(s) == [Enter] && !s.processed
    ensures var c := Carried(s.(processed := true), 1);
      Leads(guarded, s, course, i, With(c, [])) && c.rings == [[], [], []]
  {
    assert Stack(s)[..0] == [] && Step(guarded, s, Undisturbed(course(i))) == TestFlag(s, []);
    hide Step, Leads, Carried, TestFlag;
    FlagDrains(guarded, s, course, i + 1, []);
    LeadsMore(guarded, s, course, i, With(Carried(s.(processed := true), 1), []));
    CarriedRings(s.(processed := true));
  }

  /** ... the thread that leaves the kernel does so before it gives the kernel up ... */
  lemma ExitDrains(guarded: bool, s: State, course: Course, i: nat)
    requires Shape(s) && Stack(s) == [Exit(false)] && !s.processed
    ensures var c := Carried(s.(processed := true), 1);
      Leads(guarded, s, course, i, With(c, [Exit(true)])) && c.rings == [[], [], []]
    ensures var c := Carried(s.(processed := true), 1);
      forall w :: Step(guarded, With(c, [Exit(true)]), Undisturbed(w)) == With(c.(kernel := false), [])
  {
    assert Stack(s)[..0] == [] && [] + [Exit(true)] == [Exit(true)];
    assert Step(guarded, s, Undisturbed(course(i))) == TestFlag(s, [Exit(true)]);
    var c := Carried(s.(processed := true), 1);
    forall w ensures Step(guarded, With(c, [Exit(true)]), Undisturbed(w)) == With(c.(kernel := false), []) {
      assert [Exit(true)][..0] == [];
    }
    hide Step, Leads, Carried, TestFlag;
    FlagDrains(guarded, s, course, i + 1, [Exit(true)]);
    LeadsMore(guarded, s, course, i, With(c, [Exit(true)]));
    CarriedRings(s.(processed := true));
  }

  /** ... and the one that dispatches before it chooses who runs. */
  lemma DispatchDrains(guarded: bool, s: State, course: Course, i: nat, below: seq<Rec>)
    requires Shape(s) && Stack(s) == below + [Dispatch(false)] && !s.processed
    ensures var c := Carried(s.(processed := true), 1);
      Leads(guarded, s, course, i, With(c, below + [Dispatch(true)])) && c.rings == [[], [], []]
  {
    assert Stack(s)[..|Stack(s)| - 1] == below && Stack(s)[|Stack(s)| - 1] == Dispatch(false);
    assert Step(guarded, s, Undisturbed(course(i))) == TestFlag(s, below + [Dispatch(true)]);
    hide Step, Leads, Carried, TestFlag;
    FlagDrains(guarded, s, course, i + 1, below + [Dispatch(true)]);
    LeadsMore(guarded, s, course, i, With(Carried(s.(processed := true), 1), below + [Dispatch(true)]));
    CarriedRings(s.(processed := true));
  }

  lemma CarriedRings(s: State)
    requires Shape(s)
    ensures Carried(s, 1).rings == [[], [], []]
  {
    var s1 := s.(rings := s.rings[0 := []], carried := s.carried[0 := s.carried[0] + s.rings[0]]);
    var s2 := s1.(rings := s1.rings[1 := []], carried := s1.carried[1 := s1.carried[1] + s1.rings[1]]);
    var s3 := s2.(rings := s2.rings[2 := []], carried := s2.carried[2 := s2.carried[2] + s2.rings[2]]);
    assert Carried(s, 1) == Carried(s1, 2) == Carried(s2, 3);
    assert Carried(s2, 3) == s3;
    assert s3.rings == [[], [], []];
  }

  // --- Whole calls -----------------------------------------------------------------------------------

  /** Caught up: all that is announced has been carried out. */
  function Caught(s: State): (r: State)
    requires Shape(s)
    ensures Shape(r) && |r.stacks| == |s.stacks|
  {
    if s.processed then s else Carried(s.(processed := true), 1)
  }

  lemma Arrived(guarded: bool, s: State, course: Course, i: nat)
    requires Shape(s)
    ensures Leads(guarded, s, course, i, s)
  {
    assert Steps(guarded, s, course, i, 0) == s;
  }

  lemma FlagLeads(guarded: bool, s: State, course: Course, i: nat, st: seq<Rec>)
    requires Shape(s)
    ensures Leads(guarded, TestFlag(s, st), course, i, With(Caught(s), st))
  {
    if s.processed {
      Arrived(guarded, With(s, st), course, i);
    } else {
      FlagDrains(guarded, s, course, i, st);
    }
  }

  lemma {:induction false} StepsMore(guarded: bool, s: State, course: Course, i: nat, n: nat, m: nat)
    requires Shape(s)
    ensures Steps(guarded, s, course, i, n + m) == Steps(guarded, Steps(guarded, s, course, i, n), course, i + n, m)
    decreases n
  {
    hide Step;
    if n > 0 { StepsMore(guarded, Step(guarded, s, Undisturbed(course(i))), course, i + 1, n - 1, m); }
  }

  /** What leads to a state that leads on wherever in the course that comes, leads there. */
  lemma LeadsTwice(guarded: bool, s: State, course: Course, i: nat, m: State, r: State)
    requires Shape(s) && Shape(m) && Leads(guarded, s, course, i, m) && forall j: nat :: Leads(guarded, m, course, j, r)
    ensures Leads(guarded, s, course, i, r)
  {
    var n: nat :| Steps(guarded, s, course, i, n) == m;
    assert Leads(guarded, m, course, i + n, r);
    var k: nat :| Steps(guarded, m, course, i + n, k) == r;
    StepsMore(guarded, s, course, i, n, k);
  }

  lemma CaughtStack(s: State, st: seq<Rec>)
    requires Shape(s)
    ensures Caught(With(s, st)) == With(Caught(s), st) && Caught(s).cur == s.cur && Caught(s).kernel == s.kernel
  {
    CarriedStack(s.(processed := true), 1, st);
    CarriedKernel(s.(processed := true), 1);
    hide Carried;
  }

  lemma CarriedKernel(s: State, at: nat)
    requires Shape(s) && 1 <= at
    ensures Carried(s, at).kernel == s.kernel && Carried(s, at).processed == s.processed
    decreases 4 - at
  {
    if at <= 3 { CarriedKernel(s.(rings := s.rings[at - 1 := []], carried := s.carried[at - 1 := s.carried[at - 1] + s.rings[at - 1]]), at + 1); }
  }

  /** Locking the kernel: a free one is taken, and what is announced is carried out before the
      thread goes on; one that is held is not taken again. */
  lemma LockTakesTheKernel(guarded: bool, s: State, course: Course, i: nat)
    requires Shape(s) && Stack(s) == []
    ensures s.kernel ==> Step(guarded, s, Lock) == s
    ensures !s.kernel ==> Leads(guarded, Step(guarded, s, Lock), course, i, Caught(s).(kernel := true))
  {
    if !s.kernel {
      var k := s.(kernel := true);
      var t := With(k, [Enter]);
      assert Step(guarded, s, Lock) == t;
      assert Stack(t)[..0] == [] && Step(guarded, t, Undisturbed(course(i))) == TestFlag(t, []);
      FlagLeads(guarded, t, course, i + 1, []);
      CaughtStack(k, [Enter]);
      WithTwice(Caught(k), [Enter], []);
      CaughtStack(k, []);
      WithSame(k);
      CaughtHeld(s, true);
      hide Step, Leads, Caught, TestFlag;
      LeadsMore(guarded, t, course, i, With(Caught(t), []));
    }
  }

  lemma CaughtHeld(s: State, kernel: bool)
    requires Shape(s)
    ensures Caught(s.(kernel := kernel)) == Caught(s).(kernel := kernel)
  {
    CarriedHeld(s.(processed := true), 1, kernel);
    hide Carried;
  }

  lemma CarriedHeld(s: State, at: nat, kernel: bool)
    requires Shape(s) && 1 <= at
    ensures Carried(s.(kernel := kernel), at) == Carried(s, at).(kernel := kernel)
    decreases 4 - at
  {
    if at <= 3 { CarriedHeld(s.(rings := s.rings[at - 1 := []], carried := s.carried[at - 1 := s.carried[at - 1] + s.rings[at - 1]]), at + 1, kernel); }
  }

  /** Unlocking it: what is announced is carried out, and then the kernel is free. */
  lemma UnlockFreesTheKernel(guarded: bool, s: State, course: Course, i: nat)
    requires Shape(s) && Stack(s) == []
    ensures !s.kernel ==> Step(guarded, s, Unlock) == s
    ensures s.kernel ==> Leads(guarded, Step(guarded, s, Unlock), course, i, Caught(s).(kernel := false))
  {
    if s.kernel {
      var t, m, r := With(s, [Exit(false)]), With(Caught(s), [Exit(true)]), Caught(s).(kernel := false);
      assert Step(guarded, s, Unlock) == t;
      assert Stack(t)[..0] == [] && [] + [Exit(true)] == [Exit(true)];
      assert Step(guarded, t, Undisturbed(course(i))) == TestFlag(t, [Exit(true)]);
      FlagLeads(guarded, t, course, i + 1, [Exit(true)]);
      CaughtStack(s, [Exit(false)]);
      WithTwice(Caught(s), [Exit(false)], [Exit(true)]);
      CaughtStack(s, []);
      WithSame(s);
      forall j: nat ensures Leads(guarded, m, course, j, r) {
        assert [Exit(true)][..0] == [];
        WithTwice(Caught(s), [Exit(true)], []);
        assert Step(guarded, m, Undisturbed(course(j))) == With(m.(kernel := false), []) == r;
        Arrived(guarded, r, course, j + 1);
        LeadsMore(guarded, m, course, j, r);
      }
      hide Step, Leads, Caught, TestFlag;
      LeadsMore(guarded, t, course, i, m);
      LeadsTwice(guarded, t, course, i, m, r);
    }
  }

  /** The next step of a dispatch that has caught up is the switch to whoever is chosen. */
  lemma ThenSwitches(guarded: bool, s: State, below: seq<Rec>, preempts: bool, to: nat, waiters: nat)
    requires Shape(s)
    ensures Step(guarded, With(s, below + [Dispatch(true)]), Go(preempts, to, waiters)) ==
      With(s, below).(cur := if to < |s.stacks| then to else s.cur)
  {
    var t := With(s, below + [Dispatch(true)]);
    assert Stack(t)[..|Stack(t)| - 1] == below && Stack(t)[|Stack(t)| - 1] == Dispatch(true);
    WithTwice(s, below + [Dispatch(true)], below);
  }

  lemma DispatchCatchesUp(guarded: bool, s: State, course: Course, i: nat, below: seq<Rec>)
    requires Shape(s)
    ensures Leads(guarded, With(s, below + [Dispatch(false)]), course, i, With(Caught(s), below + [Dispatch(true)]))
  {
    var t := With(s, below + [Dispatch(false)]);
    assert Stack(t)[..|Stack(t)| - 1] == below && Stack(t)[|Stack(t)| - 1] == Dispatch(false);
    assert Step(guarded, t, Undisturbed(course(i))) == TestFlag(t, below + [Dispatch(true)]);
    FlagLeads(guarded, t, course, i + 1, below + [Dispatch(true)]);
    CaughtStack(s, below + [Dispatch(false)]);
    WithTwice(Caught(s), below + [Dispatch(false)], below + [Dispatch(true)]);
    hide Step, Leads, Caught, TestFlag;
    LeadsMore(guarded, t, course, i, With(Caught(t), below + [Dispatch(true)]));
  }

  /** Blocking with the kernel held catches up and then switches. */
  lemma BlockSwitches(guarded: bool, s: State, course: Course, i: nat)
    requires Shape(s) && Stack(s) == [] && s.kernel
    ensures Leads(guarded, Step(guarded, s, Block), course, i, With(Caught(s), [Dispatch(true)]))
    ensures forall to: nat, w: nat ::
              (Step(guarded, With(Caught(s), [Dispatch(true)]), Go(false, to, w)) ==
               Caught(s).(cur := if to < |s.stacks| then to else s.cur))
  {
    assert Step(guarded, s, Block) == With(s, [Dispatch(false)]);
    assert forall x: Rec :: [] + [x] == [x];
    DispatchCatchesUp(guarded, s, course, i, []);
    CaughtStack(s, []);
    WithSame(s);
    forall to: nat, w: nat ensures Step(guarded, With(Caught(s), [Dispatch(true)]), Go(false, to, w)) == Caught(s).(cur := if to < |s.stacks| then to else s.cur) {
      ThenSwitches(guarded, Caught(s), [], false, to, w);
    }
  }

  /** A thread that makes way for one just readied catches up unconditionally, then switches,
      and goes on where it was when it runs again. */
  lemma MakingWaySwitches(guarded: bool, s: State, course: Course, i: nat, below: seq<Rec>)
    requires Shape(s)
    ensures var c := Carried(s.(processed := true), 1);
      && Leads(guarded, With(s, below + [TryRun(0)]), course, i, With(c, below + [TryRun(2)] + [Dispatch(true)]))
      && (forall to: nat, w: nat ::
            (Step(guarded, With(c, below + [TryRun(2)] + [Dispatch(true)]), Go(false, to, w)) ==
             With(c, below + [TryRun(2)]).(cur := if to < |s.stacks| then to else c.cur)))
      && (forall w :: Step(guarded, With(c, below + [TryRun(2)]), Undisturbed(w)) == With(c, below))
  {
    var p := s.(processed := true);
    var c := Carried(p, 1);
    var t, d1, t1 := With(s, below + [TryRun(0)]), With(s, below + [TryRun(1), Undefer(0)]), With(c, below + [TryRun(1)]);
    var e := With(c, below + [TryRun(2)] + [Dispatch(true)]);
    assert Stack(t)[..|Stack(t)| - 1] == below && Stack(t)[|Stack(t)| - 1] == TryRun(0);
    WithTwice(s, below + [TryRun(0)], below + [TryRun(1), Undefer(0)]);
    assert Step(guarded, t, Undisturbed(course(i))) == d1;
    TryingDrains(guarded, s, course, i + 1, below);
    CarriedKernel(p, 1);
    forall j: nat ensures Leads(guarded, t1, course, j, e) {
      assert Stack(t1)[..|Stack(t1)| - 1] == below && Stack(t1)[|Stack(t1)| - 1] == TryRun(1);
      assert below + [TryRun(2), Dispatch(false)] == below + [TryRun(2)] + [Dispatch(false)];
      WithTwice(c, below + [TryRun(1)], below + [TryRun(2)] + [Dispatch(false)]);
      assert Step(guarded, t1, Undisturbed(course(j))) == With(c, below + [TryRun(2)] + [Dispatch(false)]);
      assert Caught(c) == c;
      DispatchCatchesUp(guarded, c, course, j + 1, below + [TryRun(2)]);
      LeadsMore(guarded, t1, course, j, e);
    }
    forall to: nat, w: nat ensures Step(guarded, e, Go(false, to, w)) == With(c, below + [TryRun(2)]).(cur := if to < |s.stacks| then to else c.cur) {
      ThenSwitches(guarded, c, below + [TryRun(2)], false, to, w);
    }
    forall w ensures Step(guarded, With(c, below + [TryRun(2)]), Undisturbed(w)) == With(c, below) {
      ComesBack(guarded, c, below, w);
    }
    hide Step, Leads, Carried;
    LeadsMore(guarded, t, course, i, t1);
    LeadsTwice(guarded, t, course, i, t1, e);
  }

  lemma ComesBack(guarded: bool, c: State, below: seq<Rec>, w: (nat, nat))
    requires Shape(c)
    ensures Step(guarded, With(c, below + [TryRun(2)]), Undisturbed(w)) == With(c, below)
  {
    var t := With(c, below + [TryRun(2)]);
    assert Stack(t)[..|Stack(t)| - 1] == below && Stack(t)[|Stack(t)| - 1] == TryRun(2);
    WithTwice(c, below + [TryRun(2)], below);
  }

  lemma TryingDrains(guarded: bool, s: State, course: Course, i: nat, below: seq<Rec>)
    requires Shape(s)
    ensures Leads(guarded, With(s, below + [TryRun(1), Undefer(0)]), course, i, With(Carried(s.(processed := true), 1), below + [TryRun(1)]))
  {
    var p, st := s.(processed := true), below + [TryRun(1)];
    var t := With(s, below + [TryRun(1), Undefer(0)]);
    assert below + [TryRun(1), Undefer(0)] == st + [Undefer(0)];
    assert Stack(t)[..|Stack(t)| - 1] == st && Stack(t)[|Stack(t)| - 1] == Undefer(0);
    WithTwice(p, below + [TryRun(1), Undefer(0)], st + [Undefer(1)]);
    assert Step(guarded, t, Undisturbed(course(i))) == With(p, st + [Undefer(1)]);
    hide Step, Leads;
    DrainsAll(guarded, With(p, st + [Undefer(1)]), course, i + 1, st, 1);
    CarriedStack(p, 1, st + [Undefer(1)]);
    hide Carried;
    WithTwice(Carried(p, 1), st + [Undefer(1)], st);
    LeadsMore(guarded, t, course, i, With(Carried(p, 1), st));
  }

  /** A wakeup from the base level begins to make way, and so does one carried out or a waiter
      readied in a drain, exactly when the woken thread outranks the running one and the build
      allows it where it is. */
  lemma MakesWayExactlyWhen(guarded: bool, s: State, below: seq<Rec>, top: Rec, preempts: bool, to: nat, waiters: nat)
    requires Shape(s) && Stack(s) == below + [top]
    requires (top.Undefer? && 1 <= top.at <= 3 && s.rings[top.at - 1] != []) || (top.Waking? && top.left > 0)
    ensures var st := Stack(Step(guarded, s, Go(preempts, to, waiters)));
      st != [] && (st[|st| - 1] in {TryRun(0), Dispatch(false)} <==>
        preempts && (top.Undefer? ==> if guarded then !InDispatch(Stack(s)) else !s.rings[top.at - 1][0].all))
  {
    assert Stack(s)[..|Stack(s)| - 1] == below && Stack(s)[|Stack(s)| - 1] == top;
    assert below + [top] == Stack(s);
    if top.Waking? {
      var none: seq<Rec> := [];
      assert below + [Waking(top.left - 1)] + none == below + [Waking(top.left - 1)];
    }
  }

  lemma WakeMakesWay(guarded: bool, s: State)
    requires Shape(s) && Stack(s) == []
    ensures Step(guarded, s, Wake) == if s.kernel then With(s, [TryRun(0)]) else s
  {
  }

  // --- Abandoned work --------------------------------------------------------------------------------

  lemma Extend(guarded: bool, s: State, acts: seq<Act>, a: Act)
    requires Shape(s)
    ensures Run(guarded, s, acts + [a]) == Step(guarded, Run(guarded, s, acts), a)
    decreases |acts|
  {
    hide Step;
    if acts == [] {
      assert acts + [a] == [a];
      assert Run(guarded, s, [a]) == Run(guarded, Step(guarded, s, a), []);
    } else {
      assert (acts + [a])[1..] == acts[1..] + [a];
      Extend(guarded, Step(guarded, s, acts[0]), acts[1..], a);
    }
  }

  ghost predicate Reaches(guarded: bool, s: State, r: State)
    requires Shape(s)
  {
    exists acts :: Run(guarded, s, acts) == r
  }

  lemma Next(guarded: bool, s: State, m: State, a: Act, r: State)
    requires Shape(s) && Shape(m) && Reaches(guarded, s, m) && Step(guarded, m, a) == r
    ensures Reaches(guarded, s, r)
  {
    hide Step;
    var acts :| Run(guarded, s, acts) == m;
    Extend(guarded, s, acts, a);
    assert Run(guarded, s, acts + [a]) == r;
  }

  /** A state of two threads, of which the first is preempted in a drain or runs in it. */
  function Two(kernel: bool, processed: bool, ring: seq<Entry>, done: seq<Entry>, all: seq<Entry>, st: seq<seq<Rec>>, cur: nat): State {
    State(kernel, processed, [ring, [], []], [all, [], []], [done, [], []], st, cur)
  }

  /** The running thread's last record, in a state of two threads, is replaced by `top`. */
  lemma TwoStacks(st: seq<seq<Rec>>, cur: nat, below: seq<Rec>, last: Rec, top: seq<Rec>)
    requires |st| == 2 && cur < 2 && st[cur] == below + [last]
    ensures st[cur][..|st[cur]| - 1] == below && st[cur][|st[cur]| - 1] == last
    ensures st[cur := below + top] == if cur == 0 then [below + top, st[1]] else [st[0], below + top]
  {
  }

  lemma ExitSteps(guarded: bool, s: State, below: seq<Rec>)
    requires Shape(s)
    ensures Stack(s) == below + [Exit(false)] ==>
      Step(guarded, s, Go(false, 0, 0))
      == if s.processed then With(s, below + [Exit(true)]) else With(s.(processed := true), below + [Exit(true)] + [Undefer(0)])
    ensures Stack(s) == below + [Exit(true)] ==> Step(guarded, s, Go(false, 0, 0)) == With(s.(kernel := false), below)
    ensures Stack(s) == below + [Undefer(0)] ==>
      Step(guarded, s, Go(false, 0, 0)) == With(s.(processed := true), below + [Undefer(1)])
  {
    hide InDispatch;
    if Stack(s) != [] {
      assert forall x :: Stack(s) == below + [x] ==> Stack(s)[..|Stack(s)| - 1] == below && Stack(s)[|Stack(s)| - 1] == x;
    }
  }

  /** A thread leaving the kernel begins to drain ... */
  lemma LeavingDrains(a: Entry, b: Entry)
    ensures Reaches(true, Two(true, false, [a, b], [], [a, b], [[Exit(false)], []], 0),
        Two(true, true, [a, b], [], [a, b], [[Exit(true), Undefer(1)], []], 0))
  {
    hide Reaches, Step;
    var s := Two(true, false, [a, b], [], [a, b], [[Exit(false)], []], 0);
    var s1 := Two(true, true, [a, b], [], [a, b], [[Exit(true), Undefer(0)], []], 0);
    Stay(true, s);
    assert [] + [Exit(false)] == [Exit(false)] && [] + [Exit(true)] + [Undefer(0)] == [Exit(true), Undefer(0)];
    assert s.stacks[0 := [Exit(true), Undefer(0)]] == s1.stacks;
    ExitSteps(true, s, []);
    Next(true, s, s, Go(false, 0, 0), s1);
    assert [Exit(true)] + [Undefer(0)] == [Exit(true), Undefer(0)] && [Exit(true)] + [Undefer(1)] == [Exit(true), Undefer(1)];
    assert s1.stacks[0 := [Exit(true), Undefer(1)]] == [[Exit(true), Undefer(1)], []];
    ExitSteps(true, s1, [Exit(true)]);
    Next(true, s, s1, Go(false, 0, 0), Two(true, true, [a, b], [], [a, b], [[Exit(true), Undefer(1)], []], 0));
  }

  /** ... is preempted by a waiter that it wakes ... */
  lemma DrainIsPreempted(a: Entry, b: Entry)
    requires a.all
    ensures Reaches(true, Two(true, true, [a, b], [], [a, b], [[Exit(true), Undefer(1)], []], 0),
        Two(true, true, [b], [a], [a, b], [[Exit(true), Undefer(1)], []], 1))
  {
    hide Reaches;
    var low := [Exit(true), Undefer(1)];
    var s := Two(true, true, [a, b], [], [a, b], [low, []], 0);
    var s3 := Two(true, true, [b], [a], [a, b], [low + [Rec.Dispatch(false)], []], 0);
    var s4 := Two(true, true, [b], [a], [a, b], [low + [Rec.Dispatch(true)], []], 0);
    Stay(true, s);
    TwoStacks(s.stacks, 0, [Exit(true)], Undefer(1), [Undefer(1), Rec.Dispatch(false)]);
    assert [Exit(true)] + [Undefer(1)] == low && [Exit(true)] + [Undefer(1), Rec.Dispatch(false)] == low + [Rec.Dispatch(false)];
    assert !InDispatch(low);
    assert [a, b][1..] == [b] && [] + [a] == [a];
    Next(true, s, s, Go(true, 0, 0), s3);
    TwoStacks(s3.stacks, 0, low, Rec.Dispatch(false), [Rec.Dispatch(true)]);
    Next(true, s, s3, Go(false, 0, 0), s4);
    TwoStacks(s4.stacks, 0, low, Rec.Dispatch(true), []);
    assert low + [] == low;
    Next(true, s, s4, Go(false, 1, 0), Two(true, true, [b], [a], [a, b], [low, []], 1));
  }

  lemma Stay(guarded: bool, s: State)
    requires Shape(s)
    ensures Reaches(guarded, s, s)
  {
    assert Run(guarded, s, []) == s;
  }

  /** ... which leaves the kernel without a look at the rings. */
  lemma WaiterLeaves(a: Entry, b: Entry)
    ensures Reaches(true, Two(true, true, [b], [a], [a, b], [[Exit(true), Undefer(1)], []], 1),
        Two(false, true, [b], [a], [a, b], [[Exit(true), Undefer(1)], []], 1))
  {
    hide Reaches;
    var low := [Exit(true), Undefer(1)];
    var s := Two(true, true, [b], [a], [a, b], [low, []], 1);
    var s1 := Two(true, true, [b], [a], [a, b], [low, [Exit(false)]], 1);
    var s2 := Two(true, true, [b], [a], [a, b], [low, [Exit(true)]], 1);
    Stay(true, s);
    assert s.stacks[1 := [Exit(false)]] == s1.stacks;
    Next(true, s, s, Unlock, s1);
    hide Step;
    assert [] + [Exit(false)] == [Exit(false)] && [] + [Exit(true)] == [Exit(true)];
    assert s1.stacks[1 := [Exit(true)]] == s2.stacks && s2.stacks[1 := []] == s.stacks;
    ExitSteps(true, s1, []);
    Next(true, s, s1, Go(false, 0, 0), s2);
    ExitSteps(true, s2, []);
    Next(true, s, s2, Go(false, 0, 0), Two(false, true, [b], [a], [a, b], [low, []], 1));
  }

  /** So a guarded build can forget: the kernel is free, a wakeup is queued, and the flag
      says that nothing is, until the preempted thread runs again. */
  lemma ADrainCanBeAbandoned()
    ensures var a, b := Entry(0, true), Entry(1, false);
      && Reaches(true, Two(true, false, [a, b], [], [a, b], [[Exit(false)], []], 0),
           Two(true, true, [a, b], [], [a, b], [[Exit(true), Undefer(1)], []], 0))
      && Reaches(true, Two(true, true, [a, b], [], [a, b], [[Exit(true), Undefer(1)], []], 0),
           Two(true, true, [b], [a], [a, b], [[Exit(true), Undefer(1)], []], 1))
      && Reaches(true, Two(true, true, [b], [a], [a, b], [[Exit(true), Undefer(1)], []], 1),
           Two(false, true, [b], [a], [a, b], [[Exit(true), Undefer(1)], []], 1))
  {
    hide Reaches;
    LeavingDrains(Entry(0, true), Entry(1, false));
    DrainIsPreempted(Entry(0, true), Entry(1, false));
    WaiterLeaves(Entry(0, true), Entry(1, false));
  }
}
