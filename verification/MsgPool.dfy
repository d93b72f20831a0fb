/** os_msg.c: one pool of message nodes, shared by all message queues. A node is an index into the pool and -1 is the
    null pointer. The free list and the queues are chains of nodes through NextPtr.

    The first message put into an empty queue keeps the NextPtr it had on the free list, so the last node of a queue may
    point at a free node. No routine is misled by this, because the number of entries, not the pointers, tells where a
    queue ends.
  */
module MsgPool {
  import opened KernelState
  import opened Services

  /** What is stored: NextPtr and the message of each node, the pool's header, and InPtr, OutPtr, NbrEntries and
      NbrEntriesSize of each queue. */
  datatype Store = Store(next: seq<int>, msg: seq<Msg>, nextFree: int, nbrFree: nat, nbrUsed: nat,
                         inPtr: seq<int>, outPtr: seq<int>, nbr: seq<nat>, size: seq<nat>)

  /** What it means: the free list, the chain of each queue, and for each node the queue it is in (-1: free). */
  datatype Chains = Chains(free: seq<nat>, queue: seq<seq<nat>>, owner: seq<int>)

  /** The i-th node of the chain points at the next one. */
  predicate LinkAt(next: seq<int>, c: seq<nat>, i: nat) {
    i + 1 < |c| && c[i] < |next| && next[c[i]] == c[i + 1]
  }

  /** Every node of the chain but the last points at its successor. */
  ghost predicate Linked(next: seq<int>, c: seq<nat>) {
    forall i: nat :: i + 1 < |c| ==> LinkAt(next, c, i)
  }

  ghost predicate NoDup(c: seq<nat>) {
    forall i: nat, j: nat :: i < j < |c| ==> c[i] != c[j]
  }

  /** The nodes of the chain are those that belong to q, each once. */
  ghost predicate Owns(owner: seq<int>, c: seq<nat>, q: int) {
    && NoDup(c)
    && (forall i: nat :: i < |c| ==> c[i] < |owner| && owner[c[i]] == q)
    && forall x: nat :: x < |owner| && owner[x] == q ==> x in c
  }

  function First(c: seq<nat>): int {
    if c == [] then -1 else c[0]
  }

  predicate Shape(s: Store, g: Chains) {
    && |s.msg| == |s.next| == |g.owner|
    && |s.inPtr| == |s.outPtr| == |s.nbr| == |s.size| == |g.queue|
    && forall x: nat :: x < |g.owner| ==> -1 <= g.owner[x] < |g.queue|
  }

  /** A queue: its chain, its pointers as long as it is not empty, and its count. The NextPtr of its last node can be
      anything. */
  ghost predicate QueueOk(s: Store, g: Chains, q: nat)
    requires Shape(s, g) && q < |g.queue|
  {
    var c := g.queue[q];
    && Linked(s.next, c) && Owns(g.owner, c, q)
    && s.nbr[q] == |c| <= s.size[q]
    && (c != [] ==> s.outPtr[q] == c[0] && s.inPtr[q] == c[|c| - 1])
  }

  ghost predicate FreeOk(s: Store, g: Chains)
    requires Shape(s, g)
  {
    && Linked(s.next, g.free) && Owns(g.owner, g.free, -1)
    && s.nextFree == First(g.free) && (g.free != [] ==> s.next[g.free[|g.free| - 1]] == -1)
    && s.nbrFree == |g.free|
  }

  function Sum(a: seq<nat>): nat {
    if a == [] then 0 else a[0] + Sum(a[1..])
  }

  /** The free list and the chains of the queues partition the pool, and the counts are right. */
  ghost predicate Ok(s: Store, g: Chains) {
    && Shape(s, g) && FreeOk(s, g) && (forall q: nat :: q < |g.queue| ==> QueueOk(s, g, q))
    && s.nbrUsed == Sum(s.nbr) && s.nbrFree + s.nbrUsed == |s.next|
  }

  /** The messages along a chain. */
  function MsgsOf(msg: seq<Msg>, c: seq<nat>): seq<Msg> {
    if c == [] then [] else [if c[0] < |msg| then msg[c[0]] else NO_MSG] + MsgsOf(msg, c[1..])
  }

  function Contents(s: Store, g: Chains, q: nat): seq<Msg> {
    if q < |g.queue| then MsgsOf(s.msg, g.queue[q]) else []
  }

  // ----------------------------------------------------------------------------------------- chains

  lemma LinkedElsewhere(next: seq<int>, c: seq<nat>, p: nat, v: int)
    requires Linked(next, c) && p < |next| && forall i: nat :: i + 1 < |c| ==> c[i] != p
    ensures Linked(next[p := v], c)
  {
    var after := next[p := v];
    forall i: nat | i + 1 < |c| ensures LinkAt(after, c, i) {
      assert LinkAt(next, c, i);
    }
  }

  lemma LinkedTail(next: seq<int>, c: seq<nat>)
    requires Linked(next, c) && c != []
    ensures Linked(next, c[1..])
  {
    forall i: nat | i + 1 < |c[1..]| ensures LinkAt(next, c[1..], i) {
      assert LinkAt(next, c, i + 1);
    }
  }

  lemma LinkedFront(next: seq<int>, p: nat, c: seq<nat>)
    requires Linked(next, c) && p < |next| && (c != [] ==> next[p] == c[0])
    ensures Linked(next, [p] + c)
  {
    forall i: nat | i + 1 < |[p] + c| ensures LinkAt(next, [p] + c, i) {
      assert i > 0 ==> LinkAt(next, c, i - 1);
    }
  }

  lemma LinkedJoin(next: seq<int>, a: seq<nat>, b: seq<nat>)
    requires Linked(next, a) && Linked(next, b) && a != [] && a[|a| - 1] < |next|
    requires b != [] ==> next[a[|a| - 1]] == b[0]
    ensures Linked(next, a + b)
  {
    var c := a + b;
    forall i: nat | i + 1 < |c| ensures LinkAt(next, c, i) {
      assert i + 1 < |a| ==> LinkAt(next, a, i);
      assert i >= |a| ==> LinkAt(next, b, i - |a|);
    }
  }

  /** A node changes hands: the chain it leaves, the chain it enters, and any other. */
  lemma OwnsLess(owner: seq<int>, c: seq<nat>, q: int, r: int)
    requires Owns(owner, c, q) && c != [] && r != q
    ensures Owns(owner[c[0] := r], c[1..], q)
  {
  }

  lemma OwnsMore(owner: seq<int>, c: seq<nat>, q: int, p: nat)
    requires Owns(owner, c, q) && p < |owner| && owner[p] != q
    ensures Owns(owner[p := q], [p] + c, q) && Owns(owner[p := q], c + [p], q)
  {
  }

  lemma OwnsElse(owner: seq<int>, c: seq<nat>, q: int, p: nat, r: int)
    requires Owns(owner, c, q) && p < |owner| && owner[p] != q && r != q
    ensures Owns(owner[p := r], c, q)
  {
  }

  lemma {:induction false} SumSet(a: seq<nat>, q: nat, v: nat)
    requires q < |a|
    ensures Sum(a[q := v]) + a[q] == Sum(a) + v
  {
    if q == 0 {
      assert a[0 := v][1..] == a[1..];
    } else {
      assert a[q := v][1..] == a[1..][q - 1 := v];
      SumSet(a[1..], q - 1, v);
    }
  }

  lemma {:induction false} MsgsElsewhere(msg: seq<Msg>, c: seq<nat>, p: nat, m: Msg)
    requires p < |msg| && forall i: nat :: i < |c| ==> c[i] != p
    ensures MsgsOf(msg[p := m], c) == MsgsOf(msg, c)
  {
    if c != [] {
      MsgsElsewhere(msg, c[1..], p, m);
    }
  }

  lemma {:induction false} MsgsJoin(msg: seq<Msg>, a: seq<nat>, b: seq<nat>)
    ensures MsgsOf(msg, a + b) == MsgsOf(msg, a) + MsgsOf(msg, b)
  {
    if a == [] {
      assert a + b == b;
    } else {
      assert (a + b)[1..] == a[1..] + b;
      MsgsJoin(msg, a[1..], b);
    }
  }

  // -------------------------------------------------------------------------------------------- get

  /** OS_MsgQGet on a queue with entries. */
  function Got(s: Store, q: nat): Store
    requires q < |s.outPtr| && q < |s.inPtr| && q < |s.nbr| && 0 <= s.outPtr[q] < |s.next| && s.nbr[q] > 0 && s.nbrUsed > 0
  {
    var p := s.outPtr[q];
    s.(outPtr := s.outPtr[q := s.next[p]], inPtr := if s.next[p] == -1 then s.inPtr[q := -1] else s.inPtr,
       nbr := s.nbr[q := if s.next[p] == -1 then 0 else s.nbr[q] - 1], next := s.next[p := s.nextFree], nextFree := p,
       nbrFree := s.nbrFree + 1, nbrUsed := s.nbrUsed - 1)
  }

  function GotChains(g: Chains, q: nat): Chains
    requires q < |g.queue| && g.queue[q] != [] && g.queue[q][0] < |g.owner|
  {
    var p := g.queue[q][0];
    Chains([p] + g.free, g.queue[q := g.queue[q][1..]], g.owner[p := -1])
  }

  lemma GetReady(s: Store, g: Chains, q: nat)
    requires Ok(s, g) && q < |g.queue| && s.nbr[q] > 0
    ensures g.queue[q] != [] && g.queue[q][0] == s.outPtr[q] < |s.next| && s.nbrUsed > 0
    ensures |g.queue[q]| > 1 ==> s.next[s.outPtr[q]] == g.queue[q][1]
  {
    assert QueueOk(s, g, q);
    assert |g.queue[q]| > 1 ==> LinkAt(s.next, g.queue[q], 0);
    SumSet(s.nbr, q, 0);
  }

  lemma GetFree(s: Store, g: Chains, q: nat)
    requires Ok(s, g) && q < |g.queue| && s.nbr[q] > 0
    ensures GetReadyNow(s, g, q) && FreeOk(Got(s, q), GotChains(g, q))
  {
    hide NoDup, Linked;
    GetReady(s, g, q);
    var p := g.queue[q][0];
    assert QueueOk(s, g, q);
    assert forall i: nat :: i < |g.free| ==> g.free[i] != p;
    LinkedElsewhere(s.next, g.free, p, s.nextFree);
    LinkedFront(s.next[p := s.nextFree], p, g.free);
    OwnsMore(g.owner, g.free, -1, p);
    assert Got(s, q).next[([p] + g.free)[|g.free|]] == -1;
  }

  /** The functions above apply, and keep the shape. */
  ghost predicate GetReadyNow(s: Store, g: Chains, q: nat) {
    Shape(s, g) && q < |g.queue| && s.nbr[q] > 0 && s.nbrUsed > 0 && 0 <= s.outPtr[q] < |s.next|
    && g.queue[q] != [] && g.queue[q][0] == s.outPtr[q] && Shape(Got(s, q), GotChains(g, q))
  }

  lemma GetQueue(s: Store, g: Chains, q: nat, r: nat)
    requires Ok(s, g) && q < |g.queue| && s.nbr[q] > 0 && r < |g.queue| && GetReadyNow(s, g, q)
    ensures QueueOk(Got(s, q), GotChains(g, q), r)
  {
    hide NoDup, Linked;
    GetReady(s, g, q);
    var p, c := g.queue[q][0], g.queue[r];
    assert QueueOk(s, g, r) && QueueOk(s, g, q);
    if r == q {
      LinkedTail(s.next, c);
      NotAgain(c);
      LinkedElsewhere(s.next, c[1..], p, s.nextFree);
      OwnsLess(g.owner, c, q, -1);
    } else {
      assert forall i: nat :: i < |c| ==> c[i] != p;
      LinkedElsewhere(s.next, c, p, s.nextFree);
      OwnsElse(g.owner, c, r, p, -1);
    }
  }

  lemma NotAgain(c: seq<nat>)
    requires NoDup(c) && c != []
    ensures forall i: nat :: i < |c[1..]| ==> c[1..][i] != c[0]
  {
  }

  /** Taking a message returns its node to the pool; the queue is the rest, the other queues are as they were. */
  lemma GetOk(s: Store, g: Chains, q: nat)
    requires Ok(s, g) && q < |g.queue| && s.nbr[q] > 0
    ensures GetReadyNow(s, g, q) && Ok(Got(s, q), GotChains(g, q)) && |GotChains(g, q).queue| == |g.queue|
    ensures Contents(s, g, q) == [s.msg[s.outPtr[q]]] + Contents(Got(s, q), GotChains(g, q), q)
    ensures forall r: nat :: r != q ==> Contents(Got(s, q), GotChains(g, q), r) == Contents(s, g, r)
  {
    hide FreeOk, QueueOk;
    GetReady(s, g, q);
    GetFree(s, g, q);
    forall r: nat | r < |g.queue| ensures QueueOk(Got(s, q), GotChains(g, q), r) {
      GetQueue(s, g, q, r);
    }
    GetCounts(s, g, q);
  }

  lemma GetCounts(s: Store, g: Chains, q: nat)
    requires Ok(s, g) && q < |g.queue| && s.nbr[q] > 0 && GetReadyNow(s, g, q)
    ensures Got(s, q).nbrUsed == Sum(Got(s, q).nbr) && Got(s, q).nbrFree + Got(s, q).nbrUsed == |s.next|
  {
    hide FreeOk, NoDup, Linked;
    GetReady(s, g, q);
    assert QueueOk(s, g, q);
    SumSet(s.nbr, q, s.nbr[q] - 1);
  }

  // -------------------------------------------------------------------------------------------- put

  /** OS_MsgQPut when neither the queue nor the pool is exhausted. */
  function Stored(s: Store, q: nat, m: Msg, lifo: bool): Store
    requires q < |s.outPtr| && q < |s.inPtr| && q < |s.nbr| && 0 <= s.nextFree < |s.next| && |s.msg| == |s.next|
    requires s.nbrFree > 0 && (s.nbr[q] > 0 ==> 0 <= s.inPtr[q] < |s.next|)
  {
    var p := s.nextFree;
    var s1 := s.(nextFree := s.next[p], nbrFree := s.nbrFree - 1, nbrUsed := s.nbrUsed + 1,
                 nbr := s.nbr[q := s.nbr[q] + 1], msg := s.msg[p := m]);
    if s.nbr[q] == 0 then s1.(inPtr := s.inPtr[q := p], outPtr := s.outPtr[q := p])
    else if !lifo then s1.(next := s.next[s.inPtr[q] := p][p := -1], inPtr := s.inPtr[q := p])
    else s1.(next := s.next[p := s.outPtr[q]], outPtr := s.outPtr[q := p])
  }

  function StoredChains(g: Chains, q: nat, lifo: bool): Chains
    requires q < |g.queue| && g.free != [] && g.free[0] < |g.owner|
  {
    var p := g.free[0];
    Chains(g.free[1..], g.queue[q := if lifo then [p] + g.queue[q] else g.queue[q] + [p]], g.owner[p := q])
  }

  ghost predicate CanStore(s: Store, g: Chains, q: nat) {
    && Shape(s, g) && q < |g.queue| && 0 <= s.nextFree < |s.next| && s.nbrFree > 0
    && g.free != [] && g.free[0] == s.nextFree && (s.nbr[q] > 0 ==> 0 <= s.inPtr[q] < |s.next|)
    && s.nbr[q] < s.size[q]
  }

  lemma PutReady(s: Store, g: Chains, q: nat)
    requires Ok(s, g) && q < |g.queue| && s.nbr[q] < s.size[q] && s.nbrFree > 0
    ensures CanStore(s, g, q)
  {
    assert QueueOk(s, g, q);
  }

  lemma PutFree(s: Store, g: Chains, q: nat, m: Msg, lifo: bool)
    requires Ok(s, g) && CanStore(s, g, q)
    ensures FreeOk(Stored(s, q, m, lifo), StoredChains(g, q, lifo))
  {
    hide NoDup, Linked;
    var p, r := g.free[0], g.free[1..];
    assert QueueOk(s, g, q);
    if |g.free| > 1 {
      FirstLink(s.next, g.free);
    }
    LinkedTail(s.next, g.free);
    NotAgain(g.free);
    OwnsLess(g.owner, g.free, -1, q);
    LinkedElsewhere(s.next, r, p, s.outPtr[q]);
    if s.nbr[q] > 0 {
      assert forall i: nat :: i < |r| ==> g.owner[r[i]] == -1 && r[i] == g.free[i + 1];
      assert g.owner[s.inPtr[q]] == q by {
        assert g.owner[g.queue[q][|g.queue[q]| - 1]] == q;
      }
      LinkedElsewhere(s.next, r, s.inPtr[q], p);
      LinkedElsewhere(s.next[s.inPtr[q] := p], r, p, -1);
    }
  }

  lemma FirstLink(next: seq<int>, c: seq<nat>)
    requires Linked(next, c) && |c| > 1
    ensures c[0] < |next| && next[c[0]] == c[1]
  {
    assert LinkAt(next, c, 0);
  }

  lemma PutOther(s: Store, g: Chains, q: nat, m: Msg, lifo: bool, r: nat)
    requires Ok(s, g) && CanStore(s, g, q) && r < |g.queue| && r != q
    ensures QueueOk(Stored(s, q, m, lifo), StoredChains(g, q, lifo), r)
  {
    hide NoDup, Linked;
    var p, c := g.free[0], g.queue[r];
    assert QueueOk(s, g, r) && QueueOk(s, g, q);
    assert forall i: nat :: i < |c| ==> g.owner[c[i]] == r;
    OwnsElse(g.owner, c, r, p, q);
    LinkedElsewhere(s.next, c, p, s.outPtr[q]);
    if s.nbr[q] > 0 {
      assert g.owner[g.queue[q][|g.queue[q]| - 1]] == q;
      LinkedElsewhere(s.next, c, s.inPtr[q], p);
      LinkedElsewhere(s.next[s.inPtr[q] := p], c, p, -1);
    }
  }

  lemma PutSelf(s: Store, g: Chains, q: nat, m: Msg, lifo: bool)
    requires Ok(s, g) && CanStore(s, g, q)
    ensures QueueOk(Stored(s, q, m, lifo), StoredChains(g, q, lifo), q)
  {
    hide NoDup, Linked;
    var p, c := g.free[0], g.queue[q];
    assert QueueOk(s, g, q);
    assert g.owner[p] == -1 && forall i: nat :: i < |c| ==> g.owner[c[i]] == q;
    OwnsMore(g.owner, c, q, p);
    if s.nbr[q] == 0 {
      assert [p] + c == [p] && c + [p] == [p];
      LinkedFront(s.next, p, []) by {
        LinkedNone(s.next);
      }
      assert [p] + [] == [p];
    } else if lifo {
      LinkedElsewhere(s.next, c, p, s.outPtr[q]);
      LinkedFront(s.next[p := s.outPtr[q]], p, c);
    } else {
      NotLast(c);
      LinkedElsewhere(s.next, c, s.inPtr[q], p);
      LinkedElsewhere(s.next[s.inPtr[q] := p], c, p, -1);
      var nx := s.next[s.inPtr[q] := p][p := -1];
      LinkedNone(nx);
      LinkedFront(nx, p, []);
      assert [p] + [] == [p];
      LinkedJoin(nx, c, [p]);
    }
  }

  lemma LinkedNone(next: seq<int>)
    ensures Linked(next, [])
  {
  }

  lemma NotLast(c: seq<nat>)
    requires NoDup(c) && c != []
    ensures forall i: nat :: i + 1 < |c| ==> c[i] != c[|c| - 1]
  {
  }

  /** A message is stored at the tail or at the head of its queue in a node from the pool; the other queues are as they
      were. */
  lemma PutOk(s: Store, g: Chains, q: nat, m: Msg, lifo: bool)
    requires Ok(s, g) && q < |g.queue| && s.nbr[q] < s.size[q] && s.nbrFree > 0
    ensures CanStore(s, g, q) && Ok(Stored(s, q, m, lifo), StoredChains(g, q, lifo))
    ensures |StoredChains(g, q, lifo).queue| == |g.queue|
    ensures Contents(Stored(s, q, m, lifo), StoredChains(g, q, lifo), q) ==
      if lifo then [m] + Contents(s, g, q) else Contents(s, g, q) + [m]
    ensures forall r: nat :: r != q ==> Contents(Stored(s, q, m, lifo), StoredChains(g, q, lifo), r) == Contents(s, g, r)
  {
    hide FreeOk, QueueOk;
    PutReady(s, g, q);
    PutFree(s, g, q, m, lifo);
    forall r: nat | r < |g.queue| ensures QueueOk(Stored(s, q, m, lifo), StoredChains(g, q, lifo), r) {
      if r == q {
        PutSelf(s, g, q, m, lifo);
      } else {
        PutOther(s, g, q, m, lifo, r);
      }
    }
    SumSet(s.nbr, q, s.nbr[q] + 1);
    PutContents(s, g, q, m, lifo);
  }

  lemma PutContents(s: Store, g: Chains, q: nat, m: Msg, lifo: bool)
    requires Ok(s, g) && CanStore(s, g, q)
    ensures Contents(Stored(s, q, m, lifo), StoredChains(g, q, lifo), q) ==
      if lifo then [m] + Contents(s, g, q) else Contents(s, g, q) + [m]
    ensures forall r: nat :: r != q ==> Contents(Stored(s, q, m, lifo), StoredChains(g, q, lifo), r) == Contents(s, g, r)
  {
    hide FreeOk, QueueOk, Ok;
    var p := g.free[0];
    forall r: nat | r < |g.queue| ensures MsgsOf(s.msg[p := m], g.queue[r]) == MsgsOf(s.msg, g.queue[r]) {
      FreeIsElsewhere(s, g, r);
      MsgsElsewhere(s.msg, g.queue[r], p, m);
    }
    MsgsJoin(s.msg[p := m], g.queue[q], [p]);
    assert ([p] + g.queue[q])[1..] == g.queue[q];
  }

  lemma FreeIsElsewhere(s: Store, g: Chains, r: nat)
    requires Ok(s, g) && r < |g.queue| && g.free != []
    ensures forall i: nat :: i < |g.queue[r]| ==> g.queue[r][i] != g.free[0]
  {
    assert QueueOk(s, g, r);
  }

  // ----------------------------------------------------------------------------------------- free all

  /** OS_MsgQFreeAll on a queue with entries: the whole chain goes in front of the free list. */
  function Freed(s: Store, q: nat): Store
    requires q < |s.outPtr| && q < |s.inPtr| && q < |s.nbr| && 0 <= s.inPtr[q] < |s.next| && s.nbr[q] <= s.nbrUsed
  {
    s.(next := s.next[s.inPtr[q] := s.nextFree], nextFree := s.outPtr[q], nbrUsed := s.nbrUsed - s.nbr[q],
       nbrFree := s.nbrFree + s.nbr[q], nbr := s.nbr[q := 0], inPtr := s.inPtr[q := -1], outPtr := s.outPtr[q := -1])
  }

  function FreedChains(g: Chains, q: nat): Chains
    requires q < |g.queue|
  {
    Chains(g.queue[q] + g.free, g.queue[q := []], seq(|g.owner|, x requires 0 <= x < |g.owner| =>
      if g.owner[x] == q then -1 else g.owner[x]))
  }

  ghost predicate CanFree(s: Store, g: Chains, q: nat) {
    Shape(s, g) && q < |g.queue| && 0 <= s.inPtr[q] < |s.next| && s.nbr[q] <= s.nbrUsed && g.queue[q] != []
  }

  lemma FreeFree(s: Store, g: Chains, q: nat)
    requires Ok(s, g) && CanFree(s, g, q)
    ensures FreeOk(Freed(s, q), FreedChains(g, q))
  {
    hide Linked;
    assert QueueOk(s, g, q);
    var c := g.queue[q];
    var nx := s.next[s.inPtr[q] := s.nextFree];
    NotLast(c);
    assert forall i: nat :: i < |g.free| ==> g.owner[g.free[i]] == -1;
    LinkedElsewhere(s.next, c, s.inPtr[q], s.nextFree);
    LinkedElsewhere(s.next, g.free, s.inPtr[q], s.nextFree);
    LinkedJoin(nx, c, g.free);
    OwnsJoin(g, q);
  }

  lemma OwnsJoin(g: Chains, q: nat)
    requires q < |g.queue| && Owns(g.owner, g.free, -1) && Owns(g.owner, g.queue[q], q)
    ensures Owns(FreedChains(g, q).owner, g.queue[q] + g.free, -1)
  {
    var c, ow := g.queue[q] + g.free, FreedChains(g, q).owner;
    forall x: nat | x < |ow| && ow[x] == -1 ensures x in c {
      assert x in g.queue[q] || x in g.free;
    }
    forall i: nat | i < |c| ensures c[i] < |ow| && ow[c[i]] == -1 {
      assert c[i] == if i < |g.queue[q]| then g.queue[q][i] else g.free[i - |g.queue[q]|];
    }
    JoinNoDup(g.queue[q], g.free, g.owner, q);
  }

  lemma JoinNoDup(a: seq<nat>, b: seq<nat>, owner: seq<int>, q: nat)
    requires NoDup(a) && NoDup(b)
    requires forall i: nat :: i < |a| ==> a[i] < |owner| && owner[a[i]] == q
    requires forall i: nat :: i < |b| ==> b[i] < |owner| && owner[b[i]] == -1
    ensures NoDup(a + b)
  {
    var c := a + b;
    forall i: nat, j: nat | i < j < |c| ensures c[i] != c[j] {
      if j < |a| {
        assert a[i] != a[j];
      } else if i >= |a| {
        assert b[i - |a|] != b[j - |a|];
      } else {
        assert owner[c[i]] == q && owner[c[j]] == -1;
      }
    }
  }

  lemma FreeQueue(s: Store, g: Chains, q: nat, r: nat)
    requires Ok(s, g) && CanFree(s, g, q) && r < |g.queue|
    ensures QueueOk(Freed(s, q), FreedChains(g, q), r)
  {
    hide Linked;
    assert QueueOk(s, g, q) && QueueOk(s, g, r);
    LinkedNone(s.next[s.inPtr[q] := s.nextFree]);
    if r != q {
      assert g.owner[g.queue[q][|g.queue[q]| - 1]] == q;
      LinkedElsewhere(s.next, g.queue[r], s.inPtr[q], s.nextFree);
    }
  }

  /** Emptying a queue returns all its nodes to the pool at once; the other queues are as they were. */
  lemma FreeAllOk(s: Store, g: Chains, q: nat)
    requires Ok(s, g) && q < |g.queue| && s.nbr[q] > 0
    ensures CanFree(s, g, q) && Ok(Freed(s, q), FreedChains(g, q)) && |FreedChains(g, q).queue| == |g.queue|
    ensures Contents(Freed(s, q), FreedChains(g, q), q) == []
    ensures forall r: nat :: r != q ==> Contents(Freed(s, q), FreedChains(g, q), r) == Contents(s, g, r)
  {
    hide FreeOk, QueueOk;
    FreeReady(s, g, q);
    FreeFree(s, g, q);
    forall r: nat | r < |g.queue| ensures QueueOk(Freed(s, q), FreedChains(g, q), r) {
      FreeQueue(s, g, q, r);
    }
    SumSet(s.nbr, q, 0);
  }

  lemma FreeReady(s: Store, g: Chains, q: nat)
    requires Ok(s, g) && q < |g.queue| && s.nbr[q] > 0
    ensures CanFree(s, g, q)
  {
    assert QueueOk(s, g, q);
    SumSet(s.nbr, q, 0);
  }

  /** The stale pointer: the first message put into an empty queue still points at the next free node, and the queue is
      nevertheless in order. */
  lemma LastNodeMayDangle(s: Store, g: Chains, q: nat, m: Msg, lifo: bool)
    requires Ok(s, g) && q < |g.queue| && s.nbr[q] == 0 < s.size[q] && |g.free| > 1
    ensures CanStore(s, g, q)
    ensures var s' := Stored(s, q, m, lifo); var g' := StoredChains(g, q, lifo);
      Ok(s', g') && s'.next[s'.inPtr[q]] == g'.free[0] == g.free[1] && g'.owner[g'.free[0]] == -1
  {
    PutOk(s, g, q, m, lifo);
    FirstLink(s.next, g.free);
  }

  // --------------------------------------------------------------------------------------- as coded

  class Pool {
    var next: array<int>
    var msg: array<Msg>
    var nextFree: int
    var nbrFree: nat
    var nbrUsed: nat
    var inPtr: array<int>
    var outPtr: array<int>
    var nbr: array<nat>
    var size: array<nat>
    ghost var chains: Chains

    ghost function State(): Store
      reads this, next, msg, inPtr, outPtr, nbr, size
    {
      Store(next[..], msg[..], nextFree, nbrFree, nbrUsed, inPtr[..], outPtr[..], nbr[..], size[..])
    }

    ghost predicate Valid()
      reads this, next, msg, inPtr, outPtr, nbr, size
    {
      next != inPtr && next != outPtr && inPtr != outPtr && nbr != size && Ok(State(), chains)
    }

    /** OS_MsgPoolCreate and OS_MsgPoolInit, with OS_MsgQInit for each queue. */
    constructor (poolSize: nat, sizes: seq<nat>)
      requires poolSize > 0
      ensures Valid() && next.Length == nbrFree == poolSize && size[..] == sizes
      ensures |chains.queue| == |sizes| && forall q: nat :: q < |sizes| ==> Contents(State(), chains, q) == []
    {
      next := new int[poolSize](i => -1);
      msg := new Msg[poolSize](i => NO_MSG);
      inPtr := new int[|sizes|](i => -1);
      outPtr := new int[|sizes|](i => -1);
      nbr := new nat[|sizes|](i => 0);
      size := new nat[|sizes|](i requires 0 <= i < |sizes| => sizes[i]);
      nextFree, nbrFree, nbrUsed := 0, poolSize, 0;
      chains := AllFree(poolSize, |sizes|);
      new;
      LinkUp();
      assert size[..] == sizes;
      InitialOk(State(), |sizes|);
    }

    /** The loop of OS_MsgPoolCreate. */
    method LinkUp()
      requires next.Length > 0
      modifies next
      ensures forall j: nat :: j < next.Length ==> next[j] == if j + 1 < next.Length then j + 1 else -1
    {
      var i := 0;
      while i < next.Length - 1
        invariant 0 <= i <= next.Length - 1 && forall j: nat :: j < i ==> next[j] == j + 1
      {
        next[i] := i + 1;
        i := i + 1;
      }
      next[i] := -1;
    }

    /** OS_MsgQGet. */
    method Get(q: nat) returns (m: Msg, ok: bool)
      requires Valid() && q < |chains.queue|
      modifies this, next, inPtr, outPtr, nbr
      ensures Valid() && |chains.queue| == |old(chains).queue|
      ensures ok == (old(Contents(State(), chains, q)) != [])
      ensures ok ==> old(Contents(State(), chains, q)) == [m] + Contents(State(), chains, q) && nbrFree == old(nbrFree) + 1
      ensures !ok ==> Contents(State(), chains, q) == [] && nbrFree == old(nbrFree)
      ensures forall r: nat :: r != q ==> Contents(State(), chains, r) == old(Contents(State(), chains, r))
    {
      hide Ok, GotChains, Got, Contents;
      ghost var s, g := State(), chains;
      Shapes(s, g, q);
      if nbr[q] == 0 {
        return NO_MSG, false;
      }
      GetOk(s, g, q);
      GetReady(s, g, q);
      m := msg[outPtr[q]];
      Unlink(q);
      chains := GotChains(g, q);
      ok := true;
    }

    /** The part of OS_MsgQGet that moves the first node of the queue to the free list. */
    method Unlink(q: nat)
      requires q < outPtr.Length && q < inPtr.Length && q < nbr.Length && 0 <= outPtr[q] < next.Length
      requires next != inPtr && next != outPtr && inPtr != outPtr && nbr != size && nbr[q] > 0 && nbrUsed > 0
      modifies this`nextFree, this`nbrFree, this`nbrUsed, next, inPtr, outPtr, nbr
      ensures State() == Got(old(State()), q) && nbrFree == old(nbrFree) + 1
    {
      var p := outPtr[q];
      outPtr[q] := next[p];
      if outPtr[q] == -1 {
        inPtr[q] := -1;
        nbr[q] := 0;
      } else {
        nbr[q] := nbr[q] - 1;
      }
      next[p] := nextFree;
      nextFree := p;
      nbrFree := nbrFree + 1;
      nbrUsed := nbrUsed - 1;
    }

    /** OS_MsgQPut. */
    method Put(q: nat, m: Msg, lifo: bool) returns (err: Err)
      requires Valid() && q < |chains.queue|
      modifies this, next, msg, inPtr, outPtr, nbr
      ensures Valid() && |chains.queue| == |old(chains).queue| && size[q] == old(size[q])
      ensures (Contents(State(), chains, q), err) ==
        MsgPut(old(Contents(State(), chains, q)), size[q], m, lifo, old(nbrFree) == 0)
      ensures nbrFree == old(nbrFree) - if err == ErrNone then 1 else 0
      ensures forall r: nat :: r != q ==> Contents(State(), chains, r) == old(Contents(State(), chains, r))
    {
      hide Ok, StoredChains, Contents;
      ghost var s, g := State(), chains;
      Shapes(s, g, q);
      if nbr[q] >= size[q] {
        return ErrQMax;
      }
      if nbrFree == 0 {
        return ErrPoolEmpty;
      }
      PutOk(s, g, q, m, lifo);
      Link(q, m, lifo);
      chains := StoredChains(g, q, lifo);
      Shapes(State(), chains, q);
      return ErrNone;
    }

    /** The part of OS_MsgQPut that takes a node from the free list. */
    method Link(q: nat, m: Msg, lifo: bool)
      requires q < outPtr.Length && q < inPtr.Length && q < nbr.Length && 0 <= nextFree < next.Length && nbrFree > 0
      requires next != inPtr && next != outPtr && inPtr != outPtr && nbr != size && msg.Length == next.Length
      requires nbr[q] > 0 ==> 0 <= inPtr[q] < next.Length
      modifies this`nextFree, this`nbrFree, this`nbrUsed, next, msg, inPtr, outPtr, nbr
      ensures State() == Stored(old(State()), q, m, lifo)
    {
      var p := nextFree;
      nextFree := next[p];
      nbrFree := nbrFree - 1;
      nbrUsed := nbrUsed + 1;
      if nbr[q] == 0 {
        First(q, p);
      } else if !lifo {
        Append(q, p);
      } else {
        Prepend(q, p);
      }
      nbr[q] := nbr[q] + 1;
      msg[p] := m;
    }

    /** The node is the only one of the queue; its link stays as it is. */
    method First(q: nat, p: nat)
      requires q < inPtr.Length && q < outPtr.Length && inPtr != outPtr
      modifies inPtr, outPtr
      ensures inPtr[..] == old(inPtr[..])[q := p] && outPtr[..] == old(outPtr[..])[q := p]
    {
      inPtr[q] := p;
      outPtr[q] := p;
    }

    /** The node goes in front of the first one of the queue. */
    method Prepend(q: nat, p: nat)
      requires q < outPtr.Length && p < next.Length && next != outPtr
      modifies next, outPtr
      ensures next[..] == old(next[..])[p := old(outPtr[q])] && outPtr[..] == old(outPtr[..])[q := p]
    {
      next[p] := outPtr[q];
      outPtr[q] := p;
    }

    /** The node goes behind the last one of the queue. */
    method Append(q: nat, p: nat)
      requires q < inPtr.Length && p < next.Length && 0 <= inPtr[q] < next.Length && next != inPtr
      modifies next, inPtr
      ensures next[..] == old(next[..])[old(inPtr[q]) := p][p := -1] && inPtr[..] == old(inPtr[..])[q := p]
    {
      var last := inPtr[q];
      next[last] := p;
      next[p] := -1;
      inPtr[q] := p;
    }

    /** OS_MsgQFreeAll. */
    method FreeAll(q: nat) returns (qty: nat)
      requires Valid() && q < |chains.queue|
      modifies this, next, inPtr, outPtr, nbr
      ensures Valid() && |chains.queue| == |old(chains).queue|
      ensures qty == |old(Contents(State(), chains, q))| && nbrFree == old(nbrFree) + qty
      ensures Contents(State(), chains, q) == []
      ensures forall r: nat :: r != q ==> Contents(State(), chains, r) == old(Contents(State(), chains, r))
    {
      hide Ok, FreedChains, Contents;
      ghost var s, g := State(), chains;
      Shapes(s, g, q);
      qty := nbr[q];
      if nbr[q] > 0 {
        FreeAllOk(s, g, q);
        Release(q);
        chains := FreedChains(g, q);
      } else {
        NoMessages(Contents(s, g, q));
      }
    }

    /** The part of OS_MsgQFreeAll that puts the chain in front of the free list. */
    method Release(q: nat)
      requires q < outPtr.Length && q < inPtr.Length && q < nbr.Length && 0 <= inPtr[q] < next.Length
      requires next != inPtr && next != outPtr && inPtr != outPtr && nbr != size && nbr[q] <= nbrUsed
      modifies this`nextFree, this`nbrFree, this`nbrUsed, next, inPtr, outPtr, nbr
      ensures State() == Freed(old(State()), q)
    {
      var last := inPtr[q];
      next[last] := nextFree;
      nextFree := outPtr[q];
      nbrUsed := nbrUsed - nbr[q];
      nbrFree := nbrFree + nbr[q];
      nbr[q] := 0;
      inPtr[q] := -1;
      outPtr[q] := -1;
    }
  }

  lemma NoMessages(c: seq<Msg>)
    ensures |c| == 0 ==> c == []
  {
  }

  /** Sizes of the parts, and of the contents. */
  lemma Shapes(s: Store, g: Chains, q: nat)
    requires Ok(s, g) && q < |g.queue|
    ensures |s.msg| == |s.next| && |s.inPtr| == |s.outPtr| == |s.nbr| == |s.size| == |g.queue|
    ensures |Contents(s, g, q)| == s.nbr[q]
  {
    assert QueueOk(s, g, q);
    MsgsLength(s.msg, g.queue[q]);
  }

  lemma {:induction false} MsgsLength(msg: seq<Msg>, c: seq<nat>)
    ensures |MsgsOf(msg, c)| == |c|
  {
    if c != [] {
      MsgsLength(msg, c[1..]);
    }
  }

  function AllFree(n: nat, queues: nat): Chains {
    Chains(seq(n, i requires 0 <= i => i), seq(queues, q => []), seq(n, i => -1))
  }

  lemma {:induction false} ZeroSum(n: nat)
    ensures Sum(seq(n, i => 0)) == 0
  {
    if n > 0 {
      assert seq(n, i => 0)[1..] == seq(n - 1, i => 0);
      ZeroSum(n - 1);
    }
  }

  lemma InitialOk(s: Store, queues: nat)
    requires |s.next| == |s.msg| == s.nbrFree > 0 && s.nextFree == 0 && s.nbrUsed == 0
    requires |s.inPtr| == |s.outPtr| == |s.size| == |s.nbr| == queues && forall q: nat :: q < queues ==> s.nbr[q] == 0
    requires forall j: nat :: j < |s.next| ==> s.next[j] == if j + 1 < |s.next| then j + 1 else -1
    ensures Ok(s, AllFree(|s.next|, queues))
    ensures forall q: nat :: q < queues ==> Contents(s, AllFree(|s.next|, queues), q) == []
  {
    assert s.nbr == seq(queues, i => 0);
    var g := AllFree(|s.next|, queues);
    var f := g.free;
    forall i: nat | i + 1 < |f| ensures LinkAt(s.next, f, i) {
    }
    forall x: nat | x < |g.owner| ensures x in f {
      assert f[x] == x;
    }
    ZeroSum(queues);
  }
}
