/** Keys with destructors and the values threads keep under them (threads/cma_context.c). */
module Context {
  datatype Option<T> = None | Some(value: T)

  /** Values and destructors are addresses, 0 standing for none. */
  type Address = nat

  /** What a destructor sets before it returns, in order, given its key and value. */
  type Reaction = (nat, Address) -> seq<(nat, Address)>

  const INCREMENT: nat := 100

  // --- Values by key -------------------------------------------------------------------------------

  /** Values set one after the other; an improper key raises an error and ends it. */
  function Put(vals: seq<Address>, sets: seq<(nat, Address)>): (r: seq<Address>)
    ensures |r| == |vals|
    decreases |sets|
  {
    if sets != [] && 0 < sets[0].0 < |vals| then Put(vals[sets[0].0 := sets[0].1], sets[1..]) else vals
  }

  /** What running down from key `at` on leaves, and the destructor calls it makes. */
  function Down(vals: seq<Address>, dests: seq<Address>, at: nat, react: Reaction): (r: (seq<Address>, seq<(nat, Address)>))
    requires |vals| <= |dests|
    ensures |r.0| == |vals|
    decreases |vals| - at
  {
    if at >= |vals| then (vals, [])
    else if vals[at] == 0 then Down(vals, dests, at + 1, react)
    else if dests[at] == 0 then Down(vals[at := 0], dests, at + 1, react)
    else
      var (r, calls) := Down(Put(vals, react(at, vals[at]))[at := 0], dests, at + 1, react);
      (r, [(at, vals[at])] + calls)
  }

  lemma {:induction false} NothingDown(vals: seq<Address>, dests: seq<Address>, at: nat, react: Reaction)
    requires |vals| <= |dests| && forall k :: at <= k < |vals| ==> vals[k] == 0
    ensures Down(vals, dests, at, react) == (vals, [])
    decreases |vals| - at
  {
    if at < |vals| { NothingDown(vals, dests, at + 1, react); }
  }

  /** Calls in key order, from key `at` on, with values, of keys with destructors. */
  ghost predicate InKeyOrder(calls: seq<(nat, Address)>, dests: seq<Address>, at: nat) {
    && (forall i :: 0 <= i < |calls| ==> at <= calls[i].0 < |dests| && calls[i].1 != 0 && dests[calls[i].0] != 0)
    && (forall i, j :: 0 <= i < j < |calls| ==> calls[i].0 < calls[j].0)
  }

  lemma Earlier(calls: seq<(nat, Address)>, dests: seq<Address>, at: nat, v: Address)
    requires InKeyOrder(calls, dests, at + 1) && at < |dests| && v != 0
    ensures InKeyOrder(calls, dests, at)
    ensures dests[at] != 0 ==> InKeyOrder([(at, v)] + calls, dests, at)
  {
    assert forall i :: 1 <= i <= |calls| ==> ([(at, v)] + calls)[i] == calls[i - 1];
  }

  /** Destructors are called in the order of their keys, once each at most, and never for
      an empty value. */
  lemma {:induction false} CallsInKeyOrder(vals: seq<Address>, dests: seq<Address>, at: nat, react: Reaction)
    requires |vals| <= |dests|
    ensures InKeyOrder(Down(vals, dests, at, react).1, dests, at)
    decreases |vals| - at
  {
    if at < |vals| {
      var n := if vals[at] == 0 then vals
               else if dests[at] == 0 then vals[at := 0] else Put(vals, react(at, vals[at]))[at := 0];
      CallsInKeyOrder(n, dests, at + 1, react);
      Earlier(Down(n, dests, at + 1, react).1, dests, at, if vals[at] == 0 then 1 else vals[at]);
    }
  }

  /** The last value that a destructor's sets give key k, among n keys, or v when they give
      it none; an improper key ends them. */
  function Last(sets: seq<(nat, Address)>, k: nat, n: nat, v: Address): Address
    decreases |sets|
  {
    if sets == [] || !(0 < sets[0].0 < n) then v
    else Last(sets[1..], k, n, if sets[0].0 == k then sets[0].1 else v)
  }

  /** The last value that calls to the destructors of keys above k give key k, or v when
      they give it none. */
  function LastFromAbove(calls: seq<(nat, Address)>, react: Reaction, k: nat, n: nat, v: Address): Address
    decreases |calls|
  {
    if calls == [] then v
    else LastFromAbove(calls[1..], react, k, n, if calls[0].0 > k then Last(react(calls[0].0, calls[0].1), k, n, v) else v)
  }

  lemma {:induction false} PutLast(vals: seq<Address>, sets: seq<(nat, Address)>, k: nat)
    requires k < |vals|
    ensures Put(vals, sets)[k] == Last(sets, k, |vals|, vals[k])
    decreases |sets|
  {
    if sets != [] && 0 < sets[0].0 < |vals| { PutLast(vals[sets[0].0 := sets[0].1], sets[1..], k); }
  }

  /** The state after one key has been run down. */
  function Next(vals: seq<Address>, dests: seq<Address>, at: nat, react: Reaction): (r: seq<Address>)
    requires at < |vals| <= |dests|
    ensures |r| == |vals|
  {
    if vals[at] == 0 then vals else if dests[at] == 0 then vals[at := 0] else Put(vals, react(at, vals[at]))[at := 0]
  }

  lemma DownNext(vals: seq<Address>, dests: seq<Address>, at: nat, react: Reaction)
    requires at < |vals| <= |dests|
    ensures var d, n := Down(vals, dests, at, react), Down(Next(vals, dests, at, react), dests, at + 1, react);
      d.0 == n.0 && d.1 == if vals[at] != 0 && dests[at] != 0 then [(at, vals[at])] + n.1 else n.1
  {
  }

  /** What a rundown leaves under a key is the last value that the destructors of later keys
      give it: nothing, when they give it none. */
  lemma {:induction false} WhatIsLeft(vals: seq<Address>, dests: seq<Address>, at: nat, react: Reaction, k: nat)
    requires |vals| <= |dests| && k < |vals|
    ensures var (r, calls) := Down(vals, dests, at, react);
      r[k] == LastFromAbove(calls, react, k, |vals|, if k < at then vals[k] else 0)
    decreases |vals| - at
  {
    if at < |vals| {
      var n := Next(vals, dests, at, react);
      DownNext(vals, dests, at, react);
      var calls := Down(n, dests, at + 1, react).1;
      if vals[at] != 0 && dests[at] != 0 {
        PutLast(vals, react(at, vals[at]), k);
        assert ([(at, vals[at])] + calls)[1..] == calls;
      }
      hide Down, Put, Last;
      WhatIsLeft(n, dests, at + 1, react, k);
    }
  }

  ghost predicate Empty(vals: seq<Address>) {
    forall k :: 1 <= k < |vals| ==> vals[k] == 0
  }

  /** For each key, the last call to a later key's destructor that sets it, if there is one,
      empties it. */
  ghost predicate NothingFromAbove(calls: seq<(nat, Address)>, react: Reaction, n: nat) {
    forall k: nat {:trigger LastFromAbove(calls, react, k, n, 0)} :: 1 <= k < n ==> LastFromAbove(calls, react, k, n, 0) == 0
  }

  /** A rundown leaves nothing exactly when the calls it makes leave nothing to earlier keys. */
  lemma RundownLeavesNothingExactlyWhen(vals: seq<Address>, dests: seq<Address>, react: Reaction)
    requires |vals| <= |dests|
    ensures var d := Down(vals, dests, 1, react); Empty(d.0) <==> NothingFromAbove(d.1, react, |vals|)
  {
    hide Down, LastFromAbove;
    var d := Down(vals, dests, 1, react);
    forall k: nat | 1 <= k < |vals| ensures d.0[k] == LastFromAbove(d.1, react, k, |vals|, 0) {
      WhatIsLeft(vals, dests, 1, react, k);
    }
    if Empty(d.0) {
      forall k: nat | 1 <= k < |vals| ensures LastFromAbove(d.1, react, k, |vals|, 0) == 0 { assert d.0[k] == 0; }
    } else {
      var k :| 1 <= k < |vals| && d.0[k] != 0;
      assert LastFromAbove(d.1, react, k, |vals|, 0) != 0;
    }
  }

  /** The destructor of a key sets that key and later ones only. */
  ghost predicate Forward(react: Reaction) {
    forall k: nat, v: Address, i: nat {:trigger react(k, v)[i]} :: i < |react(k, v)| ==> react(k, v)[i].0 >= k
  }

  lemma {:induction false} LastOfOthers(sets: seq<(nat, Address)>, k: nat, n: nat, v: Address)
    requires forall i :: 0 <= i < |sets| ==> sets[i].0 > k
    ensures Last(sets, k, n, v) == v
    decreases |sets|
  {
    if sets != [] && 0 < sets[0].0 < n { LastOfOthers(sets[1..], k, n, v); }
  }

  lemma {:induction false} ForwardGivesNothing(calls: seq<(nat, Address)>, react: Reaction, k: nat, n: nat)
    requires Forward(react)
    ensures LastFromAbove(calls, react, k, n, 0) == 0
    decreases |calls|
  {
    if calls != [] {
      if calls[0].0 > k { LastOfOthers(react(calls[0].0, calls[0].1), k, n, 0); }
      ForwardGivesNothing(calls[1..], react, k, n);
    }
  }

  /** So nothing is left when destructors only set their own and later keys. */
  lemma ForwardLeavesNothing(vals: seq<Address>, dests: seq<Address>, react: Reaction)
    requires |vals| <= |dests| && Forward(react)
    ensures Empty(Down(vals, dests, 1, react).0)
  {
    hide Down, Forward, LastFromAbove;
    RundownLeavesNothingExactlyWhen(vals, dests, react);
    forall k: nat | 1 <= k < |vals| ensures LastFromAbove(Down(vals, dests, 1, react).1, react, k, |vals|, 0) == 0 {
      ForwardGivesNothing(Down(vals, dests, 1, react).1, react, k, |vals|);
    }
  }

  /** The destructor of key 2 hands its value to key 1. */
  function Back(k: nat, x: Address): seq<(nat, Address)> {
    if k == 2 then [(1, x)] else []
  }

  /** A destructor that sets an earlier key leaves a value behind for the next thread to
      have the same control block. */
  lemma BackwardLeavesAValue(v: Address)
    requires v != 0
    ensures Down([0, 0, v], [0, 7, 8], 1, Back) == ([0, v, 0], [(2, v)])
  {
    var vals, dests := [0, 0, v], [0, 7, 8];
    assert vals[1 := v] == [0, v, v];
    assert Put(vals, [(1, v)]) == Put([0, v, v], [(1, v)][1..]) == [0, v, v];
    assert [0, v, v][2 := 0] == [0, v, 0];
    assert Down([0, v, 0], dests, 3, Back) == ([0, v, 0], []);
    var none: seq<(nat, Address)> := [];
    assert Back(2, v) == [(1, v)] && [(2, v)] + none == [(2, v)];
    assert Down(vals, dests, 2, Back) == ([0, v, 0], [(2, v)]);
  }

  // --- The key table -----------------------------------------------------------------------------------

  class Keys {
    var next: nat
    var size: nat
    var table: array?<Address>

    ghost predicate Valid()
      reads this, table
    {
      && 1 <= next
      && (if table == null then size == 0 && next == 1 else table.Length == size && next <= size)
    }

    /** The destructors of the keys so far; key 0 is not for clients. */
    ghost function Destructors(): (d: seq<Address>)
      requires Valid()
      reads this, table
      ensures |d| == next
    {
      if table == null then [0] else [0] + table[1..next]
    }

    constructor ()
      ensures Valid() && Destructors() == [0]
    {
      next, size, table := 1, 0, null;
    }

    /** A new key is the next number, and all destructors stay with their keys. */
    method Create(destructor: Address) returns (key: nat)
      requires Valid()
      modifies this, table
      ensures Valid() && key == old(next) && Destructors() == old(Destructors()) + [destructor]
      ensures table == old(table) || fresh(table)
    {
      key := next;
      next := next + 1;
      if key >= size {
        var grown := size + INCREMENT;
        var bigger := new Address[grown](_ => 0);
        if table != null {
          forall i | 0 <= i < size { bigger[i] := table[i]; }
        }
        size := grown;
        table := bigger;
      }
      table[key] := destructor;
      assert old(next) == 1 ==> table[1..next] == [destructor];
      assert table[1..next] == table[1..key] + [destructor];
      assert old(table) != null ==> table[1..key] == old(table[1..next]);
    }
  }

  // --- The values of a thread -----------------------------------------------------------------------------

  class Contexts {
    const keys: Keys
    var count: nat
    var cells: array?<Address>

    ghost predicate Valid()
      reads this, cells, keys, keys.table
    {
      && keys.Valid() && count <= keys.next
      && (if cells == null then count == 0 else cells.Length == count)
      && (cells != null && keys.table != null ==> cells != keys.table)
    }

    /** What the thread has under each key so far created. */
    ghost function Values(): (v: seq<Address>)
      requires Valid()
      reads this, cells, keys, keys.table
      ensures |v| == keys.next
    {
      seq(keys.next, (k: nat) requires Valid() reads this, cells, keys, keys.table => if k < count && cells != null then cells[k] else 0)
    }

    constructor (keys: Keys)
      requires keys.Valid()
      ensures this.keys == keys && Valid() && forall k :: 0 <= k < keys.next ==> Values()[k] == 0
    {
      this.keys := keys;
      count, cells := 0, null;
    }

    /** The value under a key, none before it is set; an improper key is an error. */
    method Get(key: int) returns (r: Option<Address>)
      requires Valid()
      ensures r == if 0 < key < keys.next then Some(Values()[key]) else None
    {
      if key <= 0 || key >= keys.next {
        return None;
      }
      if count <= key {
        r := Some(0);
      } else {
        r := Some(cells[key]);
      }
    }

    /** Sets the value under a key and under no other. */
    method Set(key: int, value: Address) returns (ok: bool)
      requires Valid()
      modifies this`count, this`cells, cells
      ensures Valid() && ok == (0 < key < keys.next)
      ensures Values() == if ok then old(Values())[key := value] else old(Values())
      ensures count >= old(count) && keys.Destructors() == old(keys.Destructors())
      ensures cells == old(cells) || fresh(cells)
    {
      if key <= 0 || key >= keys.next {
        return false;
      }
      if count <= key {
        var more := new Address[keys.next](_ => 0);
        if cells != null {
          forall i | 0 <= i < count { more[i] := cells[i]; }
        }
        cells := more;
        count := keys.next;
      }
      cells[key] := value;
      ok := true;
    }

    /** A destructor sets its values; an error ends it. */
    method React(sets: seq<(nat, Address)>)
      requires Valid()
      modifies this`count, this`cells, cells
      ensures Valid() && Values() == Put(old(Values()), sets)
      ensures count >= old(count) && keys.Destructors() == old(keys.Destructors())
      ensures cells == old(cells) || fresh(cells)
    {
      var i := 0;
      while i < |sets|
        invariant 0 <= i <= |sets| && Valid() && count >= old(count) && keys.Destructors() == old(keys.Destructors())
        invariant Put(Values(), sets[i..]) == Put(old(Values()), sets)
        invariant cells == old(cells) || fresh(cells)
      {
        assert sets[i..][0] == sets[i] && sets[i..][1..] == sets[i + 1..];
        var ok := Set(sets[i].0, sets[i].1);
        if !ok {
          return;
        }
        i := i + 1;
      }
    }

    /** Calls the destructor of one value, and then clears it. */
    method Destroy(at: nat, react: Reaction) returns (called: bool)
      requires Valid() && 1 <= at < count && Values()[at] != 0
      modifies this`count, this`cells, cells
      ensures Valid() && keys.Destructors() == old(keys.Destructors()) && (called <==> keys.Destructors()[at] != 0)
      ensures Values() == (if called then Put(old(Values()), react(at, old(Values())[at])) else old(Values()))[at := 0]
      ensures cells == old(cells) || fresh(cells)
    {
      var was := cells[at];
      var destructor := keys.table[at];
      assert keys.Destructors()[at] == destructor;
      called := destructor != 0;
      if called {
        React(react(at, was));
      }
      ghost var mid := Values();
      cells[at] := 0;
      assert Values() == mid[at := 0];
    }

    /** Runs down the values of an ending thread. */
    method RunDown(react: Reaction) returns (ghost calls: seq<(nat, Address)>, made: nat)
      requires Valid()
      modifies this`count, this`cells, cells
      ensures Valid() && made == |calls|
      ensures (Values(), calls) == Down(old(Values()), keys.Destructors(), 1, react)
    {
      ghost var dests, was := keys.Destructors(), Values();
      hide Down, Put, Reaches;
      var at := 1;
      calls, made := [], 0;
      ReachesNone(Down(was, dests, 1, react));
      while at < count
        invariant 1 <= at <= keys.next && Valid() && made == |calls| && keys.Destructors() == dests
        invariant cells == old(cells) || fresh(cells)
        invariant Reaches(calls, Down(Values(), dests, at, react), Down(was, dests, 1, react))
        decreases keys.next - at
      {
        ghost var vals, before := Values(), calls;
        DownStep(vals, dests, at, react);
        if cells[at] != 0 {
          var called := Destroy(at, react);
          if called {
            calls, made := calls + [(at, vals[at])], made + 1;
            ReachesOn(before, (at, vals[at]), Down(Values(), dests, at + 1, react), Down(was, dests, 1, react));
          }
        }
        at := at + 1;
      }
      NothingDown(Values(), dests, at, react);
      ReachesAll(calls, Values(), Down(was, dests, 1, react));
    }
  }

  /** From the calls made so far and what is left to do, the whole comes out. */
  ghost predicate Reaches(calls: seq<(nat, Address)>, left: (seq<Address>, seq<(nat, Address)>), whole: (seq<Address>, seq<(nat, Address)>)) {
    left.0 == whole.0 && calls + left.1 == whole.1
  }

  lemma ReachesOn(calls: seq<(nat, Address)>, c: (nat, Address), left: (seq<Address>, seq<(nat, Address)>), whole: (seq<Address>, seq<(nat, Address)>))
    requires Reaches(calls, (left.0, [c] + left.1), whole)
    ensures Reaches(calls + [c], left, whole)
  {
    assert calls + ([c] + left.1) == calls + [c] + left.1;
  }

  lemma ReachesAll(calls: seq<(nat, Address)>, vals: seq<Address>, whole: (seq<Address>, seq<(nat, Address)>))
    requires Reaches(calls, (vals, []), whole)
    ensures (vals, calls) == whole
  {
    assert calls + [] == calls;
  }

  lemma ReachesNone(whole: (seq<Address>, seq<(nat, Address)>))
    ensures Reaches([], whole, whole)
  {
    assert [] + whole.1 == whole.1;
  }

  lemma DownStep(vals: seq<Address>, dests: seq<Address>, at: nat, react: Reaction)
    requires |vals| <= |dests| && at < |vals|
    ensures vals[at] == 0 ==> Down(vals, dests, at, react) == Down(vals, dests, at + 1, react)
    ensures vals[at] != 0 && dests[at] == 0 ==> Down(vals, dests, at, react) == Down(vals[at := 0], dests, at + 1, react)
    ensures vals[at] != 0 && dests[at] != 0 ==>
      var d := Down(Put(vals, react(at, vals[at]))[at := 0], dests, at + 1, react);
      Down(vals, dests, at, react) == (d.0, [(at, vals[at])] + d.1)
  {
  }

  // --- When memory runs out -----------------------------------------------------------------------------------

  /** The key counter and the size of the table: the counter moves before memory is asked for. */
  datatype Table = Table(next: nat, size: nat)

  function Attempt(t: Table, granted: bool): Table {
    if t.next < t.size then t.(next := t.next + 1)
    else if granted then Table(t.next + 1, t.size + INCREMENT)
    else t.(next := t.next + 1)
  }

  function Attempts(t: Table, granted: seq<bool>): Table
    decreases |granted|
  {
    if granted == [] then t else Attempts(Attempt(t, granted[0]), granted[1..])
  }

  function Refusals(t: Table, granted: seq<bool>): nat
    decreases |granted|
  {
    if granted == [] then 0
    else (if t.next >= t.size && !granted[0] then 1 else 0) + Refusals(Attempt(t, granted[0]), granted[1..])
  }

  /** A key that is given out has its place in the table. */
  predicate Fits(t: Table) {
    t.next < Attempt(t, true).size
  }

  /** How often the table has grown. */
  function Growths(t: Table, granted: seq<bool>): nat
    decreases |granted|
  {
    if granted == [] then 0
    else (if t.next >= t.size && granted[0] then 1 else 0) + Growths(Attempt(t, granted[0]), granted[1..])
  }

  lemma {:induction false} AttemptsCount(t: Table, granted: seq<bool>)
    ensures Attempts(t, granted) == Table(t.next + |granted|, t.size + INCREMENT * Growths(t, granted))
    decreases |granted|
  {
    if granted != [] { AttemptsCount(Attempt(t, granted[0]), granted[1..]); }
  }

  /** After any history of granted and refused memory, a creation writes inside the table
      exactly when the attempts so far, with the reserved key and the new one, fit into as
      many increments as the table has had and the one it may get. */
  lemma KeysFitExactlyWhen(granted: seq<bool>)
    ensures Fits(Attempts(Table(1, 0), granted)) <==>
      |granted| + 2 <= INCREMENT * (Growths(Table(1, 0), granted) + 1)
  {
    AttemptsCount(Table(1, 0), granted);
  }

  lemma {:induction false} CounterRunsAhead(t: Table, granted: seq<bool>, ahead: nat)
    requires t.next <= t.size + ahead + 1
    ensures var r := Attempts(t, granted); r.next <= r.size + ahead + Refusals(t, granted) + 1
    decreases |granted|
  {
    if granted != [] {
      var n := Attempt(t, granted[0]);
      var more := if t.next >= t.size && !granted[0] then 1 else 0;
      CounterRunsAhead(n, granted[1..], ahead + more);
    }
  }

  /** Up to 98 failed attempts to create a key do no harm to the next. */
  lemma KeysFitWhileFailuresAreFew(granted: seq<bool>)
    requires Refusals(Table(1, 0), granted) < INCREMENT - 1
    ensures Fits(Attempts(Table(1, 0), granted))
  {
    CounterRunsAhead(Table(1, 0), granted, 0);
  }

  function Failures(n: nat): seq<bool> {
    seq(n, i => false)
  }

  lemma {:induction false} FailuresAdvance(t: Table, n: nat)
    requires t.next >= t.size
    ensures Attempts(t, Failures(n)) == Table(t.next + n, t.size)
    decreases n
  {
    if n > 0 {
      assert Failures(n)[1..] == Failures(n - 1);
      FailuresAdvance(Attempt(t, false), n - 1);
    }
  }

  /** With nothing but failures before it, a creation writes inside its table exactly when
      there were fewer than 99. */
  lemma FirstKeyFitsExactlyWhen(n: nat)
    ensures Fits(Attempts(Table(1, 0), Failures(n))) <==> n < INCREMENT - 1
  {
    FailuresAdvance(Table(1, 0), n);
  }
}
