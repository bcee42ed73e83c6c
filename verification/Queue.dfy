/** Circular doubly linked queues (threads/cma_queue.h, threads/cma_queue.c) and the way a
    semaphore's whole queue is taken over at once (threads/cma_semaphore.h). */
module Queue {
  /** A link: a queue header, or the link field of an object. */
  class Link {
    var flink: Link?
    var blink: Link?

    /** An object that is on no queue. */
    constructor ()
      ensures flink == null && blink == null
    {
      flink, blink := null, null;
    }
  }

  ghost predicate Distinct(s: seq<Link>) {
    forall i: nat, j: nat {:trigger s[i], s[j]} :: i < j < |s| ==> s[i] != s[j]
  }

  /** Each link leads to the next one and back, round to the first. */
  ghost predicate Linked(s: seq<Link>)
    reads s
  {
    && s != [] && s[|s| - 1].flink == s[0] && s[0].blink == s[|s| - 1]
    && forall i: nat {:trigger s[i].flink} {:trigger s[i + 1]} :: i + 1 < |s| ==> s[i].flink == s[i + 1] && s[i + 1].blink == s[i]
  }

  /** One closed chain of different links: a header s[0] and the queue's elements after it. */
  ghost predicate Chain(s: seq<Link>)
    reads s
  {
    Distinct(s) && Linked(s)
  }

  /** A new link in place `at`, and a link taken from there. */
  function Put(s: seq<Link>, at: nat, e: Link): seq<Link>
    requires at <= |s|
  {
    s[..at] + [e] + s[at..]
  }

  function Cut(s: seq<Link>, at: nat): seq<Link>
    requires at < |s|
  {
    s[..at] + s[at + 1..]
  }

  /** The same chain, read from place `at` on. */
  function From(s: seq<Link>, at: nat): seq<Link>
    requires at <= |s|
  {
    s[at..] + s[..at]
  }

  lemma FromDistinct(s: seq<Link>, at: nat)
    requires Distinct(s) && at <= |s|
    ensures Distinct(From(s, at))
  {
    var t := From(s, at);
    assert forall i: nat :: i < |t| ==> t[i] == if i < |s| - at then s[i + at] else s[i + at - |s|];
  }

  /** A chain may be read from any of its links. */
  lemma FromLinked(s: seq<Link>, at: nat)
    requires Linked(s) && at < |s|
    ensures Linked(From(s, at))
  {
    var t := From(s, at);
    forall i: nat | i + 1 < |t| ensures t[i].flink == t[i + 1] && t[i + 1].blink == t[i] {
      if i + 1 < |s| - at {
        assert t[i] == s[i + at] && t[i + 1] == s[i + at + 1];
      } else if i + 1 == |s| - at {
        assert t[i] == s[|s| - 1] && t[i + 1] == s[0];
      } else {
        assert t[i] == s[i + at - |s|] && t[i + 1] == s[i + at - |s| + 1];
      }
    }
    assert t[0] == s[at];
    if at > 0 {
      assert t[|t| - 1] == s[at - 1] && s[at - 1].flink == s[at - 1 + 1];
    }
  }

  lemma InCut(s: seq<Link>, j: nat, e: Link)
    requires j < |s|
    ensures e in Cut(s, j) ==> e in From(s, j)[1..]
  {
    if e in Cut(s, j) {
      var i: nat :| i < |s| - 1 && Cut(s, j)[i] == e;
      assert if i < j then From(s, j)[1..][|s| - j - 1 + i] == e else From(s, j)[1..][i - j] == e;
    }
  }

  lemma FromChain(s: seq<Link>, at: nat)
    requires Chain(s) && at < |s|
    ensures Chain(From(s, at))
  {
    FromDistinct(s, at);
    FromLinked(s, at);
  }

  /** The consistency check that every operation makes of the links it is given. */
  predicate Consistent(e: Link)
    reads e, e.flink, e.blink
  {
    e.flink != null && e.blink != null && e.blink.flink == e && e.flink.blink == e
  }

  /** The check holds of every link of a chain. */
  lemma ChainConsistent(s: seq<Link>, j: nat)
    requires Linked(s) && j < |s|
    ensures Consistent(s[j]) && s[j].flink == From(s, j)[if |s| == 1 then 0 else 1] && s[j].blink == From(s, j)[|s| - 1]
  {
    FromLinked(s, j);
    var t := From(s, j);
    assert t[0] == s[j];
    if |s| > 1 { assert t[0].flink == t[0 + 1]; }
  }

  /** An empty queue. */
  method Init(head: Link)
    modifies head
    ensures Chain([head])
  {
    head.flink := head;
    head.blink := head;
  }

  /** Is the queue empty? */
  method Empty(head: Link, ghost s: seq<Link>) returns (empty: bool)
    requires Chain(s) && s[0] == head
    ensures empty <==> s == [head]
  {
    ChainConsistent(s, 0);
    assert Consistent(head);
    empty := head.flink == head;
    if !empty { assert |s| > 1; }
  }

  /** Links an element in between the last and the first of a chain. */
  method Join(e: Link, b: Link, f: Link, ghost r: seq<Link>)
    requires Chain(r) && r[|r| - 1] == b && r[0] == f && e !in r && e.flink == null && e.blink == null
    modifies r, e
    ensures Chain(r + [e])
  {
    e.blink := b;
    e.flink := f;
    b.flink := e;
    f.blink := e;
  }

  /** Links the last and the first but one of a chain, past its first. */
  method Bypass(e: Link, b: Link, f: Link, ghost r: seq<Link>)
    requires Chain(r) && |r| > 1 && r[0] == e && r[|r| - 1] == b && r[1] == f
    modifies r
    ensures Chain(r[1..]) && e !in r[1..] && e.flink == null && e.blink == null
  {
    b.flink := f;
    f.blink := b;
    e.flink, e.blink := null, null;
    ghost var t := r[1..];
    assert t[0] == f && t[|t| - 1] == b && forall i: nat {:trigger t[i]} :: i < |t| ==> t[i] == r[i + 1];
  }

  lemma PutFrom(s: seq<Link>, j: nat, e: Link)
    requires j < |s| && Chain(From(s, j) + [e])
    ensures Chain(Put(s, if j == 0 then |s| else j, e))
  {
    var r := From(s, j) + [e];
    var k := if j == 0 then 0 else |s| - j;
    hide Chain;
    FromChain(r, k);
    assert From(r, k) == Put(s, if j == 0 then |s| else j, e);
  }

  lemma CutFrom(s: seq<Link>, j: nat)
    requires |s| > 1 && j < |s| && Chain(From(s, j)[1..])
    ensures Chain(Cut(s, j))
  {
    var r := From(s, j)[1..];
    var k := if j == 0 then 0 else |s| - 1 - j;
    hide Chain;
    FromChain(r, k);
    assert From(r, k) == Cut(s, j);
  }

  /** Inserts an element before q: at the end of the queue when q is its header. */
  method Insert(e: Link, q: Link, ghost s: seq<Link>, ghost j: nat)
    requires Chain(s) && j < |s| && s[j] == q && e !in s && e.flink == null && e.blink == null
    modifies s, e
    ensures Chain(Put(s, if j == 0 then |s| else j, e))
  {
    ghost var r := From(s, j);
    ChainConsistent(s, j);
    FromChain(s, j);
    assert Consistent(q);
    hide Chain;
    Join(e, q.blink, q, r);
    PutFrom(s, j, e);
  }

  /** Inserts an element after q: at the front of the queue when q is its header. */
  method InsertAfter(e: Link, q: Link, ghost s: seq<Link>, ghost j: nat)
    requires Chain(s) && j < |s| && s[j] == q && e !in s && e.flink == null && e.blink == null
    modifies s, e
    ensures Chain(Put(s, j + 1, e))
  {
    ghost var k := if j + 1 < |s| then j + 1 else 0;
    ghost var r := From(s, k);
    ChainConsistent(s, j);
    FromChain(s, k);
    assert Consistent(q) && r[|s| - 1] == q && q.flink == r[0];
    hide Chain;
    Join(e, q, q.flink, r);
    PutFrom(s, k, e);
  }

  /** Takes a link out of its chain. */
  method Remove(e: Link, ghost s: seq<Link>, ghost j: nat)
    requires Chain(s) && j < |s| && |s| > 1 && s[j] == e
    modifies s
    ensures Chain(Cut(s, j)) && e !in Cut(s, j) && e.flink == null && e.blink == null
  {
    ChainConsistent(s, j);
    FromChain(s, j);
    assert Consistent(e);
    hide Chain;
    Bypass(e, e.blink, e.flink, From(s, j));
    CutFrom(s, j);
    InCut(s, j, e);
  }

  /** Takes the first element, if there is one. */
  method Dequeue(head: Link, ghost s: seq<Link>) returns (e: Link?)
    requires Chain(s) && s[0] == head
    modifies s
    ensures |s| == 1 ==> e == null && Chain(s)
    ensures |s| > 1 ==> e == s[1] && Chain([head] + s[2..]) && s[1].flink == null && s[1].blink == null
  {
    ChainConsistent(s, 0);
    assert Consistent(head);
    var first := head.flink;
    if head == first {
      assert |s| == 1;
      return null;
    }
    assert |s| > 1;
    Remove(first, s, 1);
    assert Cut(s, 1) == [head] + s[2..];
    e := first;
  }

  /** Takes all elements off a queue in one go: a new header goes in behind the old one,
      and the old one out of the chain.  The new header has the elements in their order, and
      the old one is empty. */
  method TakeAll(head: Link, q: Link, ghost s: seq<Link>)
    requires Chain(s) && s[0] == head && q !in s
    modifies s, q
    ensures Chain([q] + s[1..]) && Chain([head])
  {
    q.flink, q.blink := null, null;
    hide Linked, Distinct;
    InsertAfter(q, head, s, 0);
    ghost var t := Put(s, 1, q);
    assert t[0] == head && Cut(t, 0) == [q] + s[1..];
    Remove(head, t, 0);
    Init(head);
  }
}
