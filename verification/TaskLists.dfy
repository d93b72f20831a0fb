/** Lists of tasks: the abstract value of a ready list, a pend list or a tick-wheel spoke.

    Everything is defined by recursion on the list, and a list is observed through `Count`, so that
    "t is in the list exactly once" is one equation. The order of a list is its order under a key:
    the task's priority for a pend list, the ticks remaining for a spoke.
  */
module TaskLists {

  type Tid = nat

  const TICKS: nat := 0x1_0000_0000

  /** A 32-bit tick counter value (OS_TICK). */
  type Tick = t: nat | t < 0x1_0000_0000

  /** a - b on 32-bit unsigned integers. */
  function Sub32(a: Tick, b: Tick): Tick {
    if a >= b then a - b else a + TICKS - b
  }

  /** a + b on 32-bit unsigned integers. */
  function Add32(a: Tick, b: Tick): Tick {
    if a + b < TICKS then a + b else a + b - TICKS
  }

  /** How a list is ordered: `keys` gives each task's key; among equal keys a newcomer goes last in a pend list
      (`fifo`) and first in a spoke. */
  datatype Order = Order(keys: map<Tid, nat>, fifo: bool) {
    function Key(t: Tid): nat {
      if t in keys then keys[t] else 0
    }

    /** The newcomer passes over the entry x on its way from the head. */
    predicate Passes(t: Tid, x: Tid) {
      if fifo then Key(x) <= Key(t) else Key(x) < Key(t)
    }
  }

  /** How often t occurs in q. */
  function Count(q: seq<Tid>, t: Tid): nat {
    if q == [] then 0 else (if q[0] == t then 1 else 0) + Count(q[1..], t)
  }

  /** q without the first occurrence of t. */
  function Drop(q: seq<Tid>, t: Tid): seq<Tid> {
    if q == [] then [] else if q[0] == t then q[1..] else [q[0]] + Drop(q[1..], t)
  }

  /** q with t inserted in front of the first entry it does not pass. */
  function Insert(q: seq<Tid>, t: Tid, ord: Order): seq<Tid> {
    if q == [] then [t]
    else if ord.Passes(t, q[0]) then [q[0]] + Insert(q[1..], t, ord)
    else [t] + q
  }

  predicate Sorted(q: seq<Tid>, ord: Order) {
    |q| <= 1 || (ord.Key(q[0]) <= ord.Key(q[1]) && Sorted(q[1..], ord))
  }

  lemma {:induction false} CountCat(a: seq<Tid>, b: seq<Tid>, t: Tid)
    ensures Count(a + b, t) == Count(a, t) + Count(b, t)
  {
    if a == [] {
      assert a + b == b;
    } else {
      assert (a + b)[1..] == a[1..] + b;
      CountCat(a[1..], b, t);
    }
  }

  lemma {:induction false} CountInsert(q: seq<Tid>, t: Tid, ord: Order, x: Tid)
    ensures Count(Insert(q, t, ord), x) == Count(q, x) + (if x == t then 1 else 0)
  {
    if q != [] && ord.Passes(t, q[0]) {
      CountCat([q[0]], Insert(q[1..], t, ord), x);
      CountInsert(q[1..], t, ord, x);
    } else if q != [] {
      CountCat([t], q, x);
    }
  }

  lemma {:induction false} CountDrop(q: seq<Tid>, t: Tid, x: Tid)
    ensures Count(Drop(q, t), x) == if x == t && Count(q, t) > 0 then Count(q, t) - 1 else Count(q, x)
  {
    if q != [] && q[0] != t {
      CountCat([q[0]], Drop(q[1..], t), x);
      CountDrop(q[1..], t, x);
    }
  }

  lemma {:induction false} CountPositive(q: seq<Tid>, i: nat)
    requires i < |q|
    ensures Count(q, q[i]) > 0
  {
    if i > 0 {
      CountPositive(q[1..], i - 1);
    }
  }

  /** The head of a sorted list has the least key. */
  lemma {:induction false} HeadLeast(q: seq<Tid>, ord: Order, x: Tid)
    requires Sorted(q, ord) && Count(q, x) > 0
    ensures q != [] && ord.Key(q[0]) <= ord.Key(x)
  {
    if q[0] != x {
      HeadLeast(q[1..], ord, x);
    }
  }

  /** Insertion keeps a list sorted, and passes exactly the entries it must. */
  lemma {:induction false} SortedInsert(q: seq<Tid>, t: Tid, ord: Order)
    requires Sorted(q, ord)
    ensures Sorted(Insert(q, t, ord), ord)
  {
    if q != [] && ord.Passes(t, q[0]) {
      SortedInsert(q[1..], t, ord);
      var r := Insert(q[1..], t, ord);
      assert Insert(q, t, ord)[1..] == r;
      assert r[0] == t || r[0] == q[1];
    } else if q != [] {
      assert Insert(q, t, ord)[1..] == q;
    }
  }

  lemma {:induction false} SortedDrop(q: seq<Tid>, t: Tid, ord: Order)
    requires Sorted(q, ord)
    ensures Sorted(Drop(q, t), ord)
    ensures Drop(q, t) != [] ==> ord.Key(q[0]) <= ord.Key(Drop(q, t)[0])
  {
    if q != [] && q[0] != t {
      SortedDrop(q[1..], t, ord);
      assert Drop(q, t)[1..] == Drop(q[1..], t);
    }
  }

  /** Two orders whose keys differ by the same amount on every member agree on sortedness. */
  lemma {:induction false} SortedShift(q: seq<Tid>, ord: Order, ord': Order, d: nat)
    requires Sorted(q, ord)
    requires forall x :: Count(q, x) > 0 ==> ord'.Key(x) + d == ord.Key(x)
    ensures Sorted(q, ord')
  {
    if |q| > 1 {
      CountPositive(q, 0);
      CountPositive(q, 1);
      forall x | Count(q[1..], x) > 0 ensures ord'.Key(x) + d == ord.Key(x) {
        assert Count(q, x) > 0;
      }
      SortedShift(q[1..], ord, ord', d);
    }
  }

  /** In a first-come list the newcomer stands behind every entry that is at least as urgent and before the others: the
      order of arrival is kept among equals. */
  lemma {:induction false} InsertPlace(q: seq<Tid>, t: Tid, ord: Order) returns (i: nat)
    requires Sorted(q, ord) && ord.fifo
    ensures i <= |q| && Insert(q, t, ord) == q[..i] + [t] + q[i..]
    ensures forall j: nat :: j < |q| ==> (j < i <==> ord.Key(q[j]) <= ord.Key(t))
  {
    if q == [] {
      i := 0;
    } else if ord.Passes(t, q[0]) {
      var k := InsertPlace(q[1..], t, ord);
      i := k + 1;
      assert q[..i] == [q[0]] + q[1..][..k] && q[i..] == q[1..][k..];
      forall j: nat | j < |q| ensures j < i <==> ord.Key(q[j]) <= ord.Key(t) {
        assert j > 0 ==> q[j] == q[1..][j - 1];
      }
    } else {
      i := 0;
      HeadBelow(q, ord);
    }
  }

  lemma HeadBelow(q: seq<Tid>, ord: Order)
    requires Sorted(q, ord) && q != []
    ensures forall j: nat :: j < |q| ==> ord.Key(q[0]) <= ord.Key(q[j])
  {
    forall j: nat | j < |q| ensures ord.Key(q[0]) <= ord.Key(q[j]) {
      CountPositive(q, j);
      HeadLeast(q, ord, q[j]);
    }
  }
}
