/** The circular linked rings of threads/cma_defer.c: an insert and a remove pointer
    chase each other round a ring of nodes that can be augmented while in use. */
module Ring {

  /** A deferred action, or a condition variable with its sequence number. */
  datatype Entry = Entry(kind: int, value1: int, value2: int)

  class Node {
    var next: Node
    var value: Entry

    constructor (v: Entry)
      ensures next == this && value == v
    {
      next, value := this, v;
    }
  }

  ghost predicate Distinct(ns: seq<Node>) {
    forall i: nat, j: nat {:trigger ns[i], ns[j]} :: i < j < |ns| ==> ns[i] != ns[j]
  }

  /** Each node leads to the following one. */
  ghost predicate Chain(ns: seq<Node>)
    reads ns
  {
    forall i: nat {:trigger ns[i].next} :: i + 1 < |ns| ==> ns[i].next == ns[i + 1]
  }

  /** One ring: a chain of different nodes whose last leads back to the first. */
  ghost predicate Cycle(ns: seq<Node>)
    reads ns
  {
    Distinct(ns) && Chain(ns) && (ns != [] ==> ns[|ns| - 1].next == ns[0])
  }

  ghost function Values(ns: seq<Node>): (r: seq<Entry>)
    reads ns
    ensures |r| == |ns|
  {
    seq(|ns|, (i: nat) requires i < |ns| reads ns => ns[i].value)
  }

  ghost function At(n: Node?): set<Node> {
    if n == null then {} else {n}
  }

  class Deferred {
    var insert: Node?
    var remove: Node?
    /** All nodes, from the remove pointer on; the first `pending` after it are in use. */
    ghost var nodes: seq<Node>
    ghost var pending: nat

    ghost predicate Valid()
      reads this, nodes
    {
      && Cycle(nodes)
      && (if nodes == [] then pending == 0 && insert == null && remove == null
          else pending < |nodes| && remove == nodes[0] && insert == nodes[pending])
    }

    /** The values queued and not yet removed, oldest first. */
    ghost function Contents(): seq<Entry>
      reads this, nodes
      requires Valid()
    {
      if nodes == [] then [] else Values(nodes[1..pending + 1])
    }

    constructor ()
      ensures Valid() && nodes == [] && Contents() == []
    {
      insert, remove, nodes, pending := null, null, [], 0;
    }

    /** Starts the ring with its first node. */
    method LinkFirst(x: Node)
      requires Valid() && nodes == [] && x.next == x
      modifies this
      ensures Valid() && nodes == [x] && Contents() == []
    {
      insert, remove, nodes := x, x, [x];
      assert Values(nodes[1..1]) == [];
    }

    /** Links a new node in behind the insert pointer. */
    method LinkNext(x: Node)
      requires Valid() && nodes != [] && x !in nodes
      modifies this`nodes, insert, x
      ensures Valid() && nodes == old(nodes)[..pending + 1] + [x] + old(nodes)[pending + 1..]
      ensures Contents() == old(Contents())
    {
      ghost var was, k := nodes, pending;
      x.next := insert.next;
      insert.next := x;
      nodes := was[..k + 1] + [x] + was[k + 1..];
      Spliced(was, k, x);
      hide Cycle;
      assert nodes[0] == was[0] && nodes[k] == was[k];
      assert nodes[1..k + 1] == was[1..k + 1];
    }

    /** Augments the ring by `count` nodes: the queued values stay as they are, in order,
        and the ring is one cycle of all the nodes, old and new. */
    method Augment(count: nat, v: Entry)
      requires Valid()
      modifies this, At(insert)
      ensures Valid() && |nodes| == |old(nodes)| + count
      ensures Contents() == old(Contents())
      ensures forall n :: n in old(nodes) ==> n in nodes
      ensures forall n :: n in nodes ==> n in old(nodes) || fresh(n)
    {
      var i := 0;
      while i < count
        invariant 0 <= i <= count
        invariant Valid() && |nodes| == |old(nodes)| + i && Contents() == old(Contents())
        invariant forall n :: n in old(nodes) ==> n in nodes
        invariant forall n :: n in nodes ==> n in old(nodes) || fresh(n)
        invariant insert == null || insert == old(insert) || fresh(insert)
      {
        Link(v);
        i := i + 1;
      }
    }

    method Link(v: Entry)
      requires Valid()
      modifies this, At(insert)
      ensures Valid() && |nodes| == |old(nodes)| + 1 && Contents() == old(Contents())
      ensures forall n :: n in old(nodes) ==> n in nodes
      ensures forall n :: n in nodes ==> n in old(nodes) || fresh(n)
      ensures insert != null && (insert == old(insert) || fresh(insert))
    {
      var x := new Node(v);
      ghost var was, k := nodes, pending;
      if insert == null {
        LinkFirst(x);
      } else {
        LinkNext(x);
        assert was == was[..k + 1] + was[k + 1..];
      }
    }

    /** Queues a value.  The insert pointer moves before the ring is seen to be full, so an
        insertion beyond the capacity fails, and forgets everything that was queued. */
    method Insert(v: Entry) returns (ok: bool)
      requires Valid() && nodes != []
      modifies this`insert, this`pending, nodes
      ensures Valid()
      ensures ok <==> |old(Contents())| < |nodes| - 1
      ensures Contents() == if ok then old(Contents()) + [v] else []
    {
      ghost var was, k := Contents(), pending;
      assert insert == nodes[k] && nodes[k].next == nodes[if k + 1 == |nodes| then 0 else k + 1];
      insert := insert.next;
      if insert == remove {
        pending := 0;
        ok := false;
        assert Values(nodes[1..1]) == [];
      } else {
        pending := k + 1;
        assert Contents()[..k] == was;
        Fill(v);
        ok := true;
      }
    }

    /** Writes a value into the node the insert pointer is at. */
    method Fill(v: Entry)
      requires Valid() && nodes != [] && pending > 0
      modifies insert
      ensures Valid() && Contents() == old(Contents())[..pending - 1] + [v]
    {
      ghost var was := Contents();
      assert insert == nodes[pending];
      assert was[..pending - 1] == Values(nodes[1..pending]);
      insert.value := v;
      assert forall n :: n in nodes[1..pending] ==> n != insert;
      assert nodes[1..pending + 1] == nodes[1..pending] + [insert];
      assert was[..pending - 1] == Values(nodes[1..pending]);
    }

    /** Removes the oldest value, if there is one. */
    method Remove() returns (v: Entry)
      requires Valid() && remove != insert
      modifies this`remove, this`nodes, this`pending
      ensures Valid() && old(Contents()) == [v] + Contents()
      ensures |nodes| == |old(nodes)| && forall n :: n in nodes <==> n in old(nodes)
    {
      ghost var was := nodes;
      assert remove == nodes[0] && nodes[0].next == nodes[1];
      Rotated(was, was[1..] + [was[0]]);
      hide Cycle;
      remove := remove.next;
      v := remove.value;
      nodes := was[1..] + [was[0]];
      pending := pending - 1;
      assert was[1..pending + 2] == [was[1]] + was[2..pending + 2];
      assert nodes[1..pending + 1] == was[2..pending + 2];
    }

    /** Drains the ring, in the order of insertion. */
    method Drain() returns (out: seq<Entry>)
      requires Valid() && nodes != []
      modifies this`remove, this`nodes, this`pending
      ensures Valid() && Contents() == [] && out == old(Contents())
      ensures |nodes| == |old(nodes)|
    {
      out := [];
      hide Cycle, Values;
      while remove != insert
        invariant Valid() && nodes != [] && |nodes| == |old(nodes)|
        invariant out + Contents() == old(Contents())
        decreases |Contents()|
      {
        var v := Remove();
        Taken(out, v, Contents());
        out := out + [v];
      }
      EmptyWhenMet();
    }

    lemma EmptyWhenMet()
      requires Valid() && nodes != [] && remove == insert
      ensures pending == 0 && Contents() == []
    {
      assert nodes[0] == nodes[pending];
      assert Values(nodes[1..1]) == [];
    }
  }

  /** A node linked in behind the k-th of a ring makes a ring of them all. */
  lemma Spliced(ns: seq<Node>, k: nat, x: Node)
    requires Distinct(ns) && k < |ns| && x !in ns
    requires forall i: nat {:trigger ns[i].next} :: i + 1 < |ns| && i != k ==> ns[i].next == ns[i + 1]
    requires k + 1 < |ns| ==> ns[|ns| - 1].next == ns[0]
    requires ns[k].next == x && x.next == ns[if k + 1 == |ns| then 0 else k + 1]
    ensures Cycle(ns[..k + 1] + [x] + ns[k + 1..])
  {
    var ms := ns[..k + 1] + [x] + ns[k + 1..];
    assert forall i: nat :: i <= k ==> ms[i] == ns[i];
    assert ms[k + 1] == x;
    assert forall i: nat :: k + 1 < i < |ms| ==> ms[i] == ns[i - 1];
  }

  lemma Taken(out: seq<Entry>, v: Entry, rest: seq<Entry>)
    ensures out + ([v] + rest) == (out + [v]) + rest
  {
  }

  /** Turning a ring by one node leaves it a ring. */
  lemma Rotated(ns: seq<Node>, ms: seq<Node>)
    requires Cycle(ns) && |ns| > 0 && ms == ns[1..] + [ns[0]]
    ensures Cycle(ms)
  {
    assert forall i: nat :: i + 1 < |ms| ==> ms[i] == ns[i + 1];
    assert ms[|ms| - 1] == ns[0];
  }
}
