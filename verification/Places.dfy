/** Reasoning about the program positions of any number of threads. */
module Places {

  /** Some thread stands at one of the places `ps`. */
  ghost predicate Among<P>(pc: seq<P>, ps: set<P>) {
    exists u: nat :: u < |pc| && pc[u] in ps
  }

  /** What moving one thread does to every set of places. */
  lemma Moved<P(!new)>(pc: seq<P>, t: nat, p: P)
    requires t < |pc|
    ensures forall ps {:trigger Among(pc[t := p], ps)} :: p in ps ==> Among(pc[t := p], ps)
    ensures forall ps {:trigger Among(pc[t := p], ps)} :: pc[t] !in ps && Among(pc, ps) ==> Among(pc[t := p], ps)
    ensures forall ps {:trigger Among(pc[t := p], ps)} :: p !in ps && Among(pc[t := p], ps) ==> Among(pc, ps)
  {
    var r := pc[t := p];
    assert r[t] == p;
    forall ps | pc[t] !in ps && Among(pc, ps)
      ensures Among(r, ps)
    {
      var u: nat :| u < |pc| && pc[u] in ps;
      assert r[u] == pc[u];
    }
  }

  /** Where threads stand after t went to p and every thread of `woken` to w. */
  function Scatter<P>(pc: seq<P>, t: nat, p: P, woken: seq<nat>, w: P): (r: seq<P>)
    ensures |r| == |pc|
    ensures forall u: nat :: u < |pc| ==> r[u] == if u in woken then w else if u == t then p else pc[u]
  {
    seq(|pc|, (u: nat) requires u < |pc| => if u in woken then w else if u == t then p else pc[u])
  }

  /** What that does to a set of places that holds none of the places left behind,
      or none of the places entered (with t out of range nobody but the woken moves). */
  lemma Scattered<P(!new)>(pc: seq<P>, t: nat, p: P, woken: seq<nat>, w: P, ps: set<P>)
    requires forall u :: u in woken ==> u < |pc|
    requires t <= |pc| && t !in woken
    ensures var r := Scatter(pc, t, p, woken, w);
      && ((t < |pc| && p in ps) || (w in ps && woken != []) ==> Among(r, ps))
      && (Among(pc, ps) && (t == |pc| || pc[t] !in ps) && (forall u: nat :: u in woken ==> pc[u] !in ps || w in ps) ==>
            Among(r, ps))
      && (Among(r, ps) && (t == |pc| || p !in ps) && (w !in ps || woken == []) ==> Among(pc, ps))
  {
    var r := Scatter(pc, t, p, woken, w);
    if woken != [] { assert woken[0] in woken && r[woken[0]] == w; }
    assert t < |pc| ==> r[t] == p;
    if Among(pc, ps) && (t == |pc| || pc[t] !in ps) && forall u: nat :: u in woken ==> pc[u] !in ps || w in ps {
      var u: nat :| u < |pc| && pc[u] in ps;
      assert r[u] in ps;
    }
    if Among(r, ps) && (t == |pc| || p !in ps) && (w !in ps || woken == []) {
      var u: nat :| u < |r| && r[u] in ps;
      assert pc[u] in ps;
    }
  }

  lemma Widen<P>(pc: seq<P>, ps: set<P>, qs: set<P>)
    requires ps <= qs
    ensures Among(pc, ps) ==> Among(pc, qs)
  {
  }

  /** The sum of a weight over all threads. */
  ghost function Total<P>(weight: P -> nat, pc: seq<P>): nat {
    if pc == [] then 0 else weight(pc[0]) + Total(weight, pc[1..])
  }

  lemma {:induction false} TotalUpdate<P>(weight: P -> nat, pc: seq<P>, t: nat, p: P)
    requires t < |pc|
    ensures Total(weight, pc[t := p]) == Total(weight, pc) - weight(pc[t]) + weight(p)
  {
    if t == 0 {
      assert pc[t := p][1..] == pc[1..];
    } else {
      assert pc[t := p][1..] == pc[1..][t - 1 := p];
      TotalUpdate(weight, pc[1..], t - 1, p);
    }
  }

  lemma {:induction false} TotalSame<P>(weight: P -> nat, a: seq<P>, b: seq<P>)
    requires |a| == |b| && forall i :: 0 <= i < |a| ==> weight(a[i]) == weight(b[i])
    ensures Total(weight, a) == Total(weight, b)
  {
    if a != [] { TotalSame(weight, a[1..], b[1..]); }
  }

  /** A total beyond zero has a part beyond zero. */
  lemma {:induction false} TotalWitness<P>(weight: P -> nat, a: seq<P>) returns (i: nat)
    requires Total(weight, a) > 0
    ensures i < |a| && weight(a[i]) > 0
  {
    if weight(a[0]) > 0 {
      i := 0;
    } else {
      i := TotalWitness(weight, a[1..]);
      i := i + 1;
    }
  }
}
