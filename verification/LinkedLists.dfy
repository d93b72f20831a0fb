/** The intrusive doubly linked lists of the kernel, pointer by pointer: OS_PEND_LIST with its OS_PEND_DATA nodes and
    OS_RDY_LIST with its task control blocks have the same links. Each routine is proved to do to the sequence of nodes
    what the functions of `TaskLists` and `KernelOps` do to a list of tasks.
  */
module LinkedLists {
  import opened TaskLists
  import KernelOps
  import ListScans

  class Node {
    const tid: Tid
    const prio: nat
    var next: Node?
    var prev: Node?

    constructor (t: Tid, p: nat)
      ensures tid == t && prio == p && next == null && prev == null
    {
      tid, prio, next, prev := t, p, null, null;
    }
  }

  class List {
    var head: Node?
    var tail: Node?
    var nbrEntries: nat
    ghost var nodes: seq<Node>

    /** The links, the ends and the count are those of the sequence of nodes. */
    ghost predicate Valid()
      reads this, nodes
    {
      && nbrEntries == |nodes|
      && head == At(nodes, 0) && tail == At(nodes, |nodes| - 1)
      && Distinct(nodes)
      && forall i: nat :: i < |nodes| ==> LinkedAt(nodes, i)
    }

    constructor ()
      ensures Valid() && nodes == []
    {
      head, tail, nbrEntries, nodes := null, null, 0, [];
    }

    /** OS_RdyListInsertHead. */
    method InsertHead(p: Node)
      requires Valid() && p !in nodes
      modifies this, p, nodes
      ensures Valid() && nodes == [p] + old(nodes)
    {
      if nbrEntries == 0 {
        nbrEntries := 1;
        p.next := null;
        p.prev := null;
        head := p;
        tail := p;
      } else {
        nbrEntries := nbrEntries + 1;
        p.next := head;
        p.prev := null;
        var next := head;
        next.prev := p;
        head := p;
      }
      nodes := [p] + nodes;
      ghost var was := old(nodes);
      forall i: nat | i < |nodes| ensures LinkedAt(nodes, i) {
        assert i > 0 ==> old(LinkedAt(was, i - 1)) && nodes[i] == was[i - 1];
      }
    }

    /** OS_RdyListInsertTail. */
    method InsertTail(p: Node)
      requires Valid() && p !in nodes
      modifies this, p, nodes
      ensures Valid() && nodes == old(nodes) + [p]
    {
      if nbrEntries == 0 {
        nbrEntries := 1;
        p.next := null;
        p.prev := null;
        head := p;
        tail := p;
      } else {
        nbrEntries := nbrEntries + 1;
        p.next := null;
        var last := tail;
        p.prev := last;
        last.next := p;
        tail := p;
      }
      nodes := nodes + [p];
      ghost var was := old(nodes);
      forall i: nat | i < |nodes| ensures LinkedAt(nodes, i) {
        assert i < |was| ==> old(LinkedAt(was, i)) && nodes[i] == was[i];
      }
    }

    /** OS_PendListInsertPrio: behind every node of the same or a higher priority. */
    method InsertPrio(p: Node, ghost ord: Order)
      requires Valid() && p !in nodes && ord.fifo
      requires Keyed(nodes, ord) && ord.Key(p.tid) == p.prio
      modifies this, p, nodes
      ensures Valid() && Ids(nodes) == Insert(old(Ids(nodes)), p.tid, ord)
      ensures exists i: nat :: i <= |old(nodes)| && nodes == old(nodes)[..i] + [p] + old(nodes)[i..]
    {
      ghost var was := nodes;
      if nbrEntries == 0 {
        nbrEntries := 1;
        p.next := null;
        p.prev := null;
        head := p;
        tail := p;
        nodes := [p];
        assert LinkedAt(nodes, 0);
        assert nodes == was[..0] + [p] + was[0..];
      } else {
        hide Ids, Insert, Keyed, LinkedAt;
        var next, i := FindPlace(p.prio);
        PlaceIs(was, p, ord, i);
        LinkBefore(p, next, i);
      }
    }

    /** The walk of OS_PendListInsertPrio: the first node of a lower priority, or null. */
    method FindPlace(prio: nat) returns (next: Node?, ghost i: nat)
      requires Valid()
      ensures i <= |nodes| && next == At(nodes, i) && (next != null ==> prio < next.prio)
      ensures forall j: nat :: j < i ==> nodes[j].prio <= prio
    {
      next, i := head, 0;
      while next != null
        invariant i <= |nodes| && next == At(nodes, i)
        invariant forall j: nat :: j < i ==> nodes[j].prio <= prio
        decreases |nodes| - i
      {
        if prio < next.prio {
          return;
        } else {
          assert LinkedAt(nodes, i);
          next := next.next;
          i := i + 1;
        }
      }
    }

    /** The end of OS_PendListInsertPrio: link the node in front of next, or at the tail. */
    method LinkBefore(p: Node, next: Node?, ghost i: nat)
      requires Valid() && p !in nodes && i <= |nodes| && |nodes| > 0 && next == At(nodes, i)
      modifies this, p, nodes
      ensures Valid() && nodes == old(nodes)[..i] + [p] + old(nodes)[i..]
    {
      ghost var was := nodes;
      nbrEntries := nbrEntries + 1;
      if next == null {
        p.next := null;
        var prev := tail;
        p.prev := prev;
        prev.next := p;
        tail := p;
      } else {
        assert LinkedAt(was, i);
        if next.prev == null {
          next.prev := p;
          p.prev := null;
          p.next := next;
          head := p;
        } else {
          var prev := next.prev;
          p.prev := prev;
          p.next := next;
          prev.next := p;
          next.prev := p;
        }
      }
      nodes := was[..i] + [p] + was[i..];
      forall j: nat | j < |nodes| ensures LinkedAt(nodes, j) {
        if j < i {
          assert old(LinkedAt(was, j)) && nodes[j] == was[j];
        } else if j > i {
          assert old(LinkedAt(was, j - 1)) && nodes[j] == was[j - 1];
        }
      }
    }

    /** OS_PendListRemove1. */
    method Remove1(p: Node, ghost i: nat)
      requires Valid() && i < |nodes| && nodes[i] == p
      modifies this, nodes
      ensures Valid() && nodes == old(nodes)[..i] + old(nodes)[i + 1..] && p.next == null && p.prev == null
    {
      ghost var was := nodes;
      assert LinkedAt(was, i);
      if nbrEntries == 1 {
        head := null;
        tail := null;
      } else if p.prev == null {
        assert LinkedAt(was, i + 1);
        var next := p.next;
        next.prev := null;
        head := next;
      } else if p.next == null {
        assert LinkedAt(was, i - 1);
        var prev := p.prev;
        prev.next := null;
        tail := prev;
      } else {
        assert LinkedAt(was, i - 1) && LinkedAt(was, i + 1);
        var prev := p.prev;
        var next := p.next;
        prev.next := next;
        next.prev := prev;
      }
      nbrEntries := nbrEntries - 1;
      p.next := null;
      p.prev := null;
      nodes := was[..i] + was[i + 1..];
      forall j: nat | j < |nodes| ensures LinkedAt(nodes, j) {
        if j < i {
          assert old(LinkedAt(was, j)) && nodes[j] == was[j];
        } else {
          assert old(LinkedAt(was, j + 1)) && nodes[j] == was[j + 1];
        }
      }
    }

    /** OS_RdyListRemove; the answer is whether the priority has to leave the priority table. */
    method RdyRemove(p: Node, ghost i: nat) returns (emptied: bool)
      requires Valid() && i < |nodes| && nodes[i] == p
      modifies this, nodes
      ensures Valid() && nodes == old(nodes)[..i] + old(nodes)[i + 1..] && emptied == (nodes == [])
    {
      ghost var was := nodes;
      assert LinkedAt(was, i) && (i > 0 ==> LinkedAt(was, i - 1)) && (i + 1 < |was| ==> LinkedAt(was, i + 1));
      var prev := p.prev;
      var next := p.next;
      emptied := false;
      if prev == null {
        if next == null {
          nbrEntries := 0;
          head := null;
          tail := null;
          emptied := true;
        } else {
          nbrEntries := nbrEntries - 1;
          next.prev := null;
          head := next;
        }
      } else {
        nbrEntries := nbrEntries - 1;
        prev.next := next;
        if next == null {
          tail := prev;
        } else {
          next.prev := prev;
        }
      }
      p.prev := null;
      p.next := null;
      nodes := was[..i] + was[i + 1..];
      forall j: nat | j < |nodes| ensures LinkedAt(nodes, j) {
        if j < i {
          assert old(LinkedAt(was, j)) && nodes[j] == was[j];
        } else {
          assert old(LinkedAt(was, j + 1)) && nodes[j] == was[j + 1];
        }
      }
    }

    /** OS_RdyListMoveHeadToTail. */
    method MoveHeadToTail()
      requires Valid()
      modifies this, nodes
      ensures Valid() && nodes == if |old(nodes)| < 2 then old(nodes) else old(nodes)[1..] + [old(nodes)[0]]
      ensures Ids(nodes) == KernelOps.Rotate(old(Ids(nodes)))
    {
      ghost var was := nodes;
      IdsRotate(was);
      if nbrEntries < 2 {
        return;
      }
      assert LinkedAt(was, 0) && LinkedAt(was, 1) && LinkedAt(was, |was| - 1);
      if nbrEntries == 2 {
        var first := head;
        var last := tail;
        first.prev := last;
        first.next := null;
        last.prev := null;
        last.next := first;
        head := last;
        tail := first;
      } else {
        var first := head;
        var last := tail;
        var second := first.next;
        second.prev := null;
        first.next := null;
        first.prev := last;
        last.next := first;
        head := second;
        tail := first;
      }
      nodes := was[1..] + [was[0]];
      forall j: nat | j < |nodes| ensures LinkedAt(nodes, j) {
        if j + 1 < |was| {
          assert old(LinkedAt(was, j + 1)) && nodes[j] == was[j + 1];
        }
      }
    }
  }

  /** The links of the i-th node lead to its neighbours. */
  predicate LinkedAt(nodes: seq<Node>, i: nat)
    reads nodes
  {
    i < |nodes| && nodes[i].next == At(nodes, i + 1) && nodes[i].prev == At(nodes, i - 1)
  }

  function At(nodes: seq<Node>, i: int): Node? {
    if 0 <= i < |nodes| then nodes[i] else null
  }

  ghost predicate Distinct(nodes: seq<Node>) {
    forall i: nat, j: nat :: i < j < |nodes| ==> nodes[i] != nodes[j]
  }

  function Ids(nodes: seq<Node>): seq<Tid> {
    if nodes == [] then [] else [nodes[0].tid] + Ids(nodes[1..])
  }

  /** The order gives each node's task the priority that the node has. */
  ghost predicate Keyed(nodes: seq<Node>, ord: Order) {
    forall i: nat :: i < |nodes| ==> ord.Key(nodes[i].tid) == nodes[i].prio
  }

  lemma {:induction false} IdsAll(nodes: seq<Node>)
    ensures |Ids(nodes)| == |nodes| && forall i: nat :: i < |nodes| ==> Ids(nodes)[i] == nodes[i].tid
  {
    if nodes != [] {
      IdsAll(nodes[1..]);
    }
  }

  /** Linking the node at the place found is inserting the task in order. */
  lemma PlaceIs(nodes: seq<Node>, p: Node, ord: Order, i: nat)
    requires ord.fifo && Keyed(nodes, ord) && ord.Key(p.tid) == p.prio && i <= |nodes|
    requires forall j: nat :: j < i ==> nodes[j].prio <= p.prio
    requires i < |nodes| ==> p.prio < nodes[i].prio
    ensures Ids(nodes[..i] + [p] + nodes[i..]) == Insert(Ids(nodes), p.tid, ord)
  {
    IdsAll(nodes);
    ListScans.InsertStops(Ids(nodes), p.tid, ord, i);
    IdsSplice(nodes, p, i);
  }

  lemma IdsSplice(nodes: seq<Node>, p: Node, i: nat)
    requires i <= |nodes| && i <= |Ids(nodes)|
    ensures Ids(nodes[..i] + [p] + nodes[i..]) == Ids(nodes)[..i] + [p.tid] + Ids(nodes)[i..]
  {
    var r := nodes[..i] + [p] + nodes[i..];
    IdsAll(nodes);
    IdsAll(r);
    assert Ids(r) == Ids(nodes)[..i] + [p.tid] + Ids(nodes)[i..];
  }

  /** Unlinking the node of a task drops the task from the list. */
  lemma {:induction false} IdsDrop(nodes: seq<Node>, i: nat)
    requires i < |nodes| && forall j: nat :: j < i ==> nodes[j].tid != nodes[i].tid
    ensures Ids(nodes[..i] + nodes[i + 1..]) == Drop(Ids(nodes), nodes[i].tid)
  {
    if i == 0 {
      assert nodes[..0] + nodes[1..] == nodes[1..];
    } else {
      IdsDrop(nodes[1..], i - 1);
      var r := nodes[..i] + nodes[i + 1..];
      assert r[1..] == nodes[1..][..i - 1] + nodes[1..][i..];
      assert Ids(nodes)[0] == nodes[0].tid && Ids(nodes)[1..] == Ids(nodes[1..]);
    }
  }

  lemma IdsRotate(nodes: seq<Node>)
    ensures Ids(if |nodes| < 2 then nodes else nodes[1..] + [nodes[0]]) == KernelOps.Rotate(Ids(nodes))
  {
    IdsAll(nodes);
    if |nodes| >= 2 {
      IdsAll(nodes[1..] + [nodes[0]]);
      assert Ids(nodes[1..] + [nodes[0]]) == Ids(nodes)[1..] + [Ids(nodes)[0]];
    }
  }
}
