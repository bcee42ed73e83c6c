/** A run of four threads in which a thread is freed under the one that waits for it. */
module JoinerCases {
  import opened Semaphore
  import opened SchedOrder
  import opened Lists
  import opened Dispatcher
  import opened Processor
  import opened SchedulingCases

  /** The null thread, the initial thread, which joins, the thread joined, and one that detaches it. */
  const FOUR: seq<Info> := [Info(Idle, 0, false), Info(Fore, 0, false), Info(Fore, 0, false), Info(Fore, 0, false)]

  /** Ready list 1 is all that the run uses, and the queue of semaphore 1, where the joiner
      waits for the thread to terminate. */
  ghost predicate Scene4(k: Kern, place: seq<Place>, ready: seq<Tid>, waiting: seq<Tid>, cur: Tid) {
    && Shape(FOUR, k) && k.l.place == place && k.cur == cur && |place| == 4
    && |k.l.q| == LAST + 2 && k.l.q[1] == ready && k.l.q[LAST + 1] == waiting
    && k.next <= 1 && (ready != [] ==> k.next == 1)
    && k.qnum == [1, 1, 1, 1] && k.onHold == [false, false, false, false] && k.nopending == [true, true] && k.deferred == []
  }

  function Lives(joined: nat, cnt: nat): Life {
    Life([false, false, false, false], [0, 0, joined, 0], cnt, false, false)
  }

  lemma InsertedLast(q: seq<Tid>, t: Tid)
    ensures InsertAt(q, |q|, t) == q + [t]
  {
  }

  lemma ReadyScene4(k: Kern, place: seq<Place>, ready: seq<Tid>, waiting: seq<Tid>, cur: Tid, t: Tid)
    requires Scene4(k, place, ready, waiting, cur) && 0 < t < 4
    ensures Scene4(Ready(FOUR, k, t, false), place[t := In(1)], ready + [t], waiting, cur)
  {
    InsertedLast(ready, t);
  }

  lemma DispatchScene4(k: Kern, place: seq<Place>, ready: seq<Tid>, waiting: seq<Tid>, cur: Tid)
    requires Scene4(k, place, ready, waiting, cur) && ready != [] && ready[0] < 4
    ensures Scene4(Dispatch(FOUR, k), place[ready[0] := Running], ready[1..], waiting, ready[0])
  {
    assert Top(k.l.q, k.next) == 1;
  }

  /** Nobody takes the processor from another. */
  lemma NobodyTakes(k: Kern, t: Tid)
    requires Shape(FOUR, k)
    ensures TryRun(FOUR, k, t) == k
  {
    hide Dispatcher.Yield, Drain;
  }

  lemma StartIs4(s: State, t: Tid)
    requires Fits(FOUR, s) && t < 4 && s.k.l.place[t] == Fresh && s.k.cur == INITIAL && !s.life.leaving && !s.life.exited
    ensures var r := Step(FOUR, s, Start(t));
      r.k == TryRun(FOUR, Ready(FOUR, s.k, t, false), t) && r.life == s.life
  {
    hide Ready, TryRun;
  }

  lemma StartScene4(s: State, place: seq<Place>, ready: seq<Tid>, t: Tid)
    requires Fits(FOUR, s) && Scene4(s.k, place, ready, [], INITIAL) && s.life == Lives(0, 4)
    requires 0 < t < 4 && place[t] == Fresh
    ensures var r := Step(FOUR, s, Start(t));
      Scene4(r.k, place[t := In(1)], ready + [t], [], INITIAL) && r.life == s.life
  {
    ReadyScene4(s.k, place, ready, [], INITIAL, t);
    StartIs4(s, t);
    hide Ready, TryRun, Step, Scene4;
    NobodyTakes(Ready(FOUR, s.k, t, false), t);
  }

  lemma WaitScene4(s: State, place: seq<Place>, ready: seq<Tid>)
    requires Fits(FOUR, s) && Scene4(s.k, place, ready, [], INITIAL) && s.life == Lives(1, 4)
    requires ready != [] && ready[0] < 4 && ready[0] != INITIAL
    ensures var r := Step(FOUR, s, Processor.Wait(1));
      Scene4(r.k, place[INITIAL := In(LAST + 1)][ready[0] := Running], ready[1..], [INITIAL], ready[0]) && r.life == s.life
  {
    var b := Blocked(FOUR, s.k, 1);
    InsertedLast([], INITIAL);
    assert Scene4(b, place[INITIAL := In(LAST + 1)], ready, [INITIAL], INITIAL);
    DispatchScene4(b, place[INITIAL := In(LAST + 1)], ready, [INITIAL], INITIAL);
    hide Dispatch;
  }

  lemma TakenScene4(k: Kern, place: seq<Place>, ready: seq<Tid>)
    requires Scene4(k, place, ready, [INITIAL], 2)
    ensures Scene4(k.(l := Take(k.l, LAST + 1, Loose)), place[INITIAL := Loose], ready, [], 2)
  {
  }

  lemma WokenScene4(k: Kern, place: seq<Place>, ready: seq<Tid>)
    requires Scene4(k, place, ready, [INITIAL], 2) && |place| == 4
    ensures Scene4(Dispatcher.WakeOne(FOUR, k, 1), place[INITIAL := In(1)], ready + [INITIAL], [], 2)
  {
    WokenIs(k, place, ready);
    hide Ready, Scene4, Take, Dispatcher.WakeOne;
    var m := k.(l := Take(k.l, LAST + 1, Loose));
    TakenScene4(k, place, ready);
    ReadyScene4(m, place[INITIAL := Loose], ready, [], 2, INITIAL);
    assert place[INITIAL := Loose][INITIAL := In(1)] == place[INITIAL := In(1)];
  }

  lemma WokenIs(k: Kern, place: seq<Place>, ready: seq<Tid>)
    requires Scene4(k, place, ready, [INITIAL], 2)
    ensures Shape(FOUR, k) && |k.l.place| == 4 && LAST + 1 < |k.l.q| && k.l.q[LAST + 1] != []
    ensures Shape(FOUR, k.(l := Take(k.l, LAST + 1, Loose)))
    ensures Dispatcher.WakeOne(FOUR, k, 1) == Ready(FOUR, k.(l := Take(k.l, LAST + 1, Loose)), INITIAL, false)
  {
    hide Ready;
  }

  lemma SignalIs4(s: State, place: seq<Place>, ready: seq<Tid>)
    requires Fits(FOUR, s) && Scene4(s.k, place, ready, [INITIAL], 2) && s.life == Lives(1, 4)
    ensures |place| == 4
    ensures var r := Step(FOUR, s, Signal(One(1)));
      r.life == s.life && r.k == TryRun(FOUR, Dispatcher.WakeOne(FOUR, s.k, 1), INITIAL)
  {
    WakeAndRunOne(FOUR, s.k, 1);
    hide WakeAndRun, TryRun, Dispatcher.WakeOne;
  }

  lemma SignalScene4(s: State, place: seq<Place>, ready: seq<Tid>)
    requires Fits(FOUR, s) && Scene4(s.k, place, ready, [INITIAL], 2) && s.life == Lives(1, 4)
    ensures var r := Step(FOUR, s, Signal(One(1)));
      Scene4(r.k, place[INITIAL := In(1)], ready + [INITIAL], [], 2) && r.life == s.life
  {
    hide Scene4, Step, TryRun, Dispatcher.WakeOne;
    SignalIs4(s, place, ready);
    WokenScene4(s.k, place, ready);
    NobodyTakes(Dispatcher.WakeOne(FOUR, s.k, 1), INITIAL);
  }

  lemma ExitScene4(s: State, place: seq<Place>, ready: seq<Tid>)
    requires Fits(FOUR, s) && Scene4(s.k, place, ready, [], 2) && s.life == Lives(1, 4)
    requires ready != [] && ready[0] < 4 && ready[0] != 2 && forall u: Tid :: u < 4 ==> !Grave(place[u])
    ensures var r := Step(FOUR, s, Exit);
      Scene4(r.k, place[2 := Done][ready[0] := Running], ready[1..], [], ready[0]) && r.life == Lives(1, 3)
  {
    var b := Bury(FOUR, s);
    assert Scene4(b, place[2 := Done], ready, [], 2);
    DispatchScene4(b, place[2 := Done], ready, [], 2);
    hide Dispatch;
  }

  lemma InitScene4()
    ensures |FOUR| > 1 && Fits(FOUR, Init(FOUR, 1))
    ensures var r := Step(FOUR, Step(FOUR, Init(FOUR, 1), Create(2)), Create(3));
      Scene4(r.k, [In(0), Running, Fresh, Fresh], [], [], INITIAL) && r.life == Lives(0, 4)
  {
    var s := Init(FOUR, 1);
    assert s.k.l.place == [In(0), Running, Unborn, Unborn];
  }

  lemma JoinScene4(s: State, place: seq<Place>, ready: seq<Tid>)
    requires Fits(FOUR, s) && Scene4(s.k, place, ready, [], INITIAL) && place[2] == In(1) && s.life == Lives(0, 4)
    ensures var r := Step(FOUR, s, Processor.Join(2)); Scene4(r.k, place, ready, [], INITIAL) && r.life == Lives(1, 4)
  {
  }

  lemma Four(s: State, a: Act, b: Act, c: Act, d: Act)
    requires Fits(FOUR, s)
    ensures Run(FOUR, s, [a, b, c, d]) == Step(FOUR, Step(FOUR, Step(FOUR, Step(FOUR, s, a), b), c), d)
  {
    assert [a, b, c, d] == [a, b, c] + [d];
    hide Step, Run;
    Run3(FOUR, s, a, b, c);
    RunThen(FOUR, s, [a, b, c], d);
  }

  const STARTED: seq<Act> := [Create(2), Create(3), Start(2), Start(3)]
  const JOINED: seq<Act> := [Processor.Join(2), Processor.Wait(1), Signal(One(1)), Exit]

  lemma BothStarted()
    ensures |FOUR| > 1 && Fits(FOUR, Init(FOUR, 1))
    ensures var r := Run(FOUR, Init(FOUR, 1), STARTED);
      Scene4(r.k, [In(0), Running, In(1), In(1)], [2, 3], [], INITIAL) && r.life == Lives(0, 4)
  {
    InitScene4();
    var s := Init(FOUR, 1);
    var s2 := Step(FOUR, Step(FOUR, s, Create(2)), Create(3));
    var p2 := [In(0), Running, Fresh, Fresh];
    hide Step, Init, Scene4;
    StartScene4(s2, p2, [], 2);
    var p3 := p2[2 := In(1)];
    assert [] + [2] == [2];
    StartScene4(Step(FOUR, s2, Start(2)), p3, [2], 3);
    assert [2] + [3] == [2, 3] && p3[3 := In(1)] == [In(0), Running, In(1), In(1)];
    Four(s, Create(2), Create(3), Start(2), Start(3));
  }

  lemma JoinedAndGone(s: State)
    requires Fits(FOUR, s) && Scene4(s.k, [In(0), Running, In(1), In(1)], [2, 3], [], INITIAL) && s.life == Lives(0, 4)
    ensures var r := Run(FOUR, s, JOINED);
      Scene4(r.k, [In(0), In(1), Done, Running], [INITIAL], [], 3) && r.life == Lives(1, 3)
  {
    var p := [In(0), Running, In(1), In(1)];
    hide Step, Scene4;
    JoinScene4(s, p, [2, 3]);
    var s1 := Step(FOUR, s, Processor.Join(2));
    WaitScene4(s1, p, [2, 3]);
    assert [2, 3][1..] == [3];
    var s2 := Step(FOUR, s1, Processor.Wait(1));
    var p2 := p[INITIAL := In(LAST + 1)][2 := Running];
    SignalScene4(s2, p2, [3]);
    assert [3] + [INITIAL] == [3, INITIAL];
    var s3 := Step(FOUR, s2, Signal(One(1)));
    var p3 := p2[INITIAL := In(1)];
    ExitScene4(s3, p3, [3, INITIAL]);
    assert [3, INITIAL][1..] == [INITIAL] && p3[2 := Done][3 := Running] == [In(0), In(1), Done, Running];
    Four(s, Processor.Join(2), Processor.Wait(1), Signal(One(1)), Exit);
  }

  lemma {:induction false} RunsAppend(s: State, a: seq<Act>, b: seq<Act>)
    requires Fits(FOUR, s)
    ensures Run(FOUR, s, a + b) == Run(FOUR, Run(FOUR, s, a), b)
    decreases |a|
  {
    hide Step;
    if a == [] {
      assert a + b == b;
    } else {
      assert (a + b)[1..] == a[1..] + b;
      RunsAppend(Step(FOUR, s, a[0]), a[1..], b);
    }
  }

  lemma DetachedNow(s: State)
    requires Fits(FOUR, s) && Scene4(s.k, [In(0), In(1), Done, Running], [INITIAL], [], 3) && s.life == Lives(1, 3)
    ensures Step(FOUR, s, Detach(2)).k.l.place[2] == Freed && Step(FOUR, s, Detach(2)).life.joiners[2] == 1
  {
  }

  /** The initial thread waits for thread 2 to terminate, is woken by it, and is about to
      look at its result; thread 3 runs first, and detaches thread 2, which is freed. */
  lemma ADetachFreesUnderAJoiner()
    ensures |FOUR| > 1 && Fits(FOUR, Init(FOUR, 1))
    ensures var s := Run(FOUR, Init(FOUR, 1), STARTED + JOINED); var r := Step(FOUR, s, Detach(2));
      s.k.l.place[INITIAL] == In(1) && s.k.l.place[2] == Done && r.k.l.place[2] == Freed && r.life.joiners[2] == 1
  {
    BothStarted();
    var s := Init(FOUR, 1);
    var s1 := Run(FOUR, s, STARTED);
    RunsAppend(s, STARTED, JOINED);
    hide Step, Init, Run;
    JoinedAndGone(s1);
    DetachedNow(Run(FOUR, s1, JOINED));
  }
}
