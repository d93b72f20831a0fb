/** One task at a time enters, leaves or keeps its place in the three families of lists. Each lemma here takes the
    state before and after and asks only how the lists and the one TCB differ, so it serves every routine.
  */
module ListMoves {
  import opened TaskLists
  import opened KernelState
  import opened KernelOps

  /** The step changes no TCB but that of t, no object and not the time. */
  predicate Touches(k: K, t: Tid, k': K) {
    k'.tcb == k.tcb[t := Get(k', t)] && k'.now == k.now && k'.obj == k.obj
  }

  function Enqueue(q: seq<Tid>, t: Tid, atTail: bool): seq<Tid> {
    if atTail then q + [t] else [t] + q
  }

  lemma CountEnqueue(q: seq<Tid>, t: Tid, atTail: bool, x: Tid)
    ensures Count(Enqueue(q, t, atTail), x) == Count(q, x) + if x == t then 1 else 0
  {
    CountCat([t], q, x);
    CountCat(q, [t], x);
  }

  // ------------------------------------------------------------------------------------- ready lists

  lemma ReadyStays(k: K, t: Tid, k': K)
    requires ReadyInv(k) && Touches(k, t, k')
    requires k'.rdy == k.rdy && k'.prios == k.prios && RdyAt(Get(k', t)) == RdyAt(Get(k, t))
    ensures ReadyInv(k')
  {
    forall p: nat, x: Tid | p < |k'.rdy|
      ensures Count(k'.rdy[p], x) == if RdyAt(Get(k', x)) == p then 1 else 0
    {
      assert Count(k.rdy[p], x) == if RdyAt(Get(k, x)) == p then 1 else 0;
    }
  }

  lemma ReadyEnters(k: K, t: Tid, k': K, p: nat, atTail: bool)
    requires ReadyInv(k) && Touches(k, t, k')
    requires RdyAt(Get(k, t)) == -1 && RdyAt(Get(k', t)) == p < |k.rdy|
    requires k'.rdy == k.rdy[p := Enqueue(k.rdy[p], t, atTail)] && k'.prios == k.prios + {p}
    ensures ReadyInv(k')
  {
    forall q: nat, x: Tid | q < |k'.rdy|
      ensures Count(k'.rdy[q], x) == if RdyAt(Get(k', x)) == q then 1 else 0
    {
      CountEnqueue(k.rdy[p], t, atTail, x);
      assert Count(k.rdy[q], x) == if RdyAt(Get(k, x)) == q then 1 else 0;
    }
  }

  lemma ReadyLeaves(k: K, t: Tid, k': K, p: nat)
    requires ReadyInv(k) && Touches(k, t, k')
    requires RdyAt(Get(k, t)) == p < |k.rdy| && RdyAt(Get(k', t)) == -1
    requires k'.rdy == k.rdy[p := Drop(k.rdy[p], t)]
    requires k'.prios == if k'.rdy[p] == [] then k.prios - {p} else k.prios
    ensures ReadyInv(k')
  {
    assert Count(k.rdy[p], t) == 1;
    forall q: nat, x: Tid | q < |k'.rdy|
      ensures Count(k'.rdy[q], x) == if RdyAt(Get(k', x)) == q then 1 else 0
    {
      CountDrop(k.rdy[p], t, x);
      assert Count(k.rdy[q], x) == if RdyAt(Get(k, x)) == q then 1 else 0;
    }
  }

  // -------------------------------------------------------------------------------------- tick wheel

  /** The keys of all tasks but t are the same. */
  lemma RemainFrame(k: K, t: Tid, k': K, q: seq<Tid>)
    requires Touches(k, t, k') && Sorted(q, RemainOrder(k.tcb, k.now))
    requires Count(q, t) == 0 || Get(k', t).due == Get(k, t).due
    requires t in k.tcb
    ensures Sorted(q, RemainOrder(k'.tcb, k'.now))
  {
    SortedShift(q, RemainOrder(k.tcb, k.now), RemainOrder(k'.tcb, k'.now), 0);
  }

  lemma WheelStays(k: K, t: Tid, k': K)
    requires WheelInv(k) && Touches(k, t, k') && t in k.tcb
    requires k'.wheel == k.wheel && Get(k', t).spoke == Get(k, t).spoke
    requires Get(k, t).spoke == -1 || Get(k', t).due == Get(k, t).due
    ensures WheelInv(k')
  {
    forall i: nat, x: Tid | i < |k'.wheel|
      ensures Count(k'.wheel[i], x) == if Get(k', x).spoke == i then 1 else 0
    {
      assert Count(k.wheel[i], x) == if Get(k, x).spoke == i then 1 else 0;
    }
    forall i: nat | i < |k'.wheel| ensures Sorted(k'.wheel[i], RemainOrder(k'.tcb, k'.now)) {
      RemainFrame(k, t, k', k.wheel[i]);
    }
  }

  lemma WheelLeaves(k: K, t: Tid, k': K, s: nat)
    requires WheelInv(k) && Touches(k, t, k') && t in k.tcb
    requires Get(k, t).spoke == s < |k.wheel| && Get(k', t).spoke == -1
    requires k'.wheel == k.wheel[s := Drop(k.wheel[s], t)]
    ensures WheelInv(k')
  {
    forall i: nat, x: Tid | i < |k'.wheel|
      ensures Count(k'.wheel[i], x) == if Get(k', x).spoke == i then 1 else 0
    {
      CountDrop(k.wheel[s], t, x);
      assert Count(k.wheel[i], x) == if Get(k, x).spoke == i then 1 else 0;
      assert Count(k.wheel[s], t) == 1;
    }
    forall i: nat | i < |k'.wheel| ensures Sorted(k'.wheel[i], RemainOrder(k'.tcb, k'.now)) {
      SortedDrop(k.wheel[i], t, RemainOrder(k.tcb, k.now));
      RemainFrame(k, t, k', k'.wheel[i]);
    }
  }

  lemma WheelEnters(k: K, t: Tid, k': K, s: nat)
    requires WheelInv(k) && Touches(k, t, k') && t in k.tcb
    requires Get(k, t).spoke == -1 && Get(k', t).spoke == s < |k.wheel|
    requires k'.wheel == k.wheel[s := Insert(k.wheel[s], t, RemainOrder(k'.tcb, k'.now))]
    ensures WheelInv(k')
  {
    var ord := RemainOrder(k'.tcb, k'.now);
    forall i: nat, x: Tid | i < |k'.wheel|
      ensures Count(k'.wheel[i], x) == if Get(k', x).spoke == i then 1 else 0
    {
      CountInsert(k.wheel[s], t, ord, x);
      assert Count(k.wheel[i], x) == if Get(k, x).spoke == i then 1 else 0;
    }
    forall i: nat | i < |k'.wheel| ensures Sorted(k'.wheel[i], ord) {
      assert Count(k.wheel[i], t) == 0;
      RemainFrame(k, t, k', k.wheel[i]);
      SortedInsert(k.wheel[i], t, ord);
    }
  }

  // -------------------------------------------------------------------------------------- pend lists

  /** Unlinking drops t from the listed pend lists and from no other. */
  lemma {:induction false} UnlinkAllAt(wait: map<Oid, seq<Tid>>, tbl: seq<PendData>, t: Tid, o: Oid)
    requires Distinct(tbl)
    ensures UnlinkAll(wait, tbl, t).Keys == wait.Keys
    ensures o in wait ==>
      UnlinkAll(wait, tbl, t)[o] == if Listed(tbl, o) then Drop(wait[o], t) else wait[o]
  {
    if tbl != [] {
      var o1 := tbl[0].obj;
      UnlinkAllAt(if o1 in wait then wait[o1 := Drop(wait[o1], t)] else wait, tbl[1..], t, o);
    }
  }

  /** Linking inserts t into the listed pend lists and into no other. */
  lemma {:induction false} LinkAllAt(wait: map<Oid, seq<Tid>>, tbl: seq<PendData>, t: Tid, ord: Order, o: Oid)
    requires Distinct(tbl)
    ensures LinkAll(wait, tbl, t, ord).Keys == wait.Keys
    ensures o in wait ==>
      LinkAll(wait, tbl, t, ord)[o] == if Listed(tbl, o) then Insert(wait[o], t, ord) else wait[o]
  {
    if tbl != [] {
      var o1 := tbl[0].obj;
      LinkAllAt(if o1 in wait then wait[o1 := Insert(wait[o1], t, ord)] else wait, tbl[1..], t, ord, o);
    }
  }

  /** Re-sorting moves t within the listed pend lists that have other entries, and changes no other. */
  lemma {:induction false} ResortAllAt(wait: map<Oid, seq<Tid>>, tbl: seq<PendData>, t: Tid, ord: Order, o: Oid)
    requires Distinct(tbl)
    ensures ResortAll(wait, tbl, t, ord).Keys == wait.Keys
    ensures o in wait ==>
      ResortAll(wait, tbl, t, ord)[o] ==
        if Listed(tbl, o) && |wait[o]| > 1 then Insert(Drop(wait[o], t), t, ord) else wait[o]
  {
    if tbl != [] {
      var o1 := tbl[0].obj;
      var w := if o1 in wait && |wait[o1]| > 1 then wait[o1 := Insert(Drop(wait[o1], t), t, ord)] else wait;
      ResortAllAt(w, tbl[1..], t, ord, o);
    }
  }

  lemma PrioFrame(k: K, t: Tid, k': K, q: seq<Tid>)
    requires Touches(k, t, k') && Sorted(q, PrioOrder(k.tcb))
    requires Count(q, t) == 0 || Get(k', t).prio == Get(k, t).prio
    requires t in k.tcb
    ensures Sorted(q, PrioOrder(k'.tcb))
  {
    SortedShift(q, PrioOrder(k.tcb), PrioOrder(k'.tcb), 0);
  }

  /** In the pend list of o every task but t occurs as often as before, t as its table says, and the order is right. */
  ghost predicate ListChange(k: K, t: Tid, k': K, o: Oid) {
    && (forall x: Tid :: x != t ==> Count(Waiters(k', o), x) == Count(Waiters(k, o), x))
    && Count(Waiters(k', o), t) == (if Listed(Get(k', t).tbl, o) then 1 else 0)
    && (!Object(k, o).FlagGrp? ==> Sorted(Waiters(k', o), PrioOrder(k'.tcb)))
  }

  /** What t pends on after the step exists and is of the right kind. */
  ghost predicate KindsOf(k: K, b: Tcb) {
    forall o: Oid :: Listed(b.tbl, o) ==> o in k.wait && KindOk(b.pendOn, Object(k, o))
  }

  lemma WaitCounts(k: K, t: Tid, k': K, o: Oid, x: Tid)
    requires WaitInv(k) && Touches(k, t, k') && o in k.wait && o in k'.wait && ListChange(k, t, k', o)
    ensures Count(k'.wait[o], x) == if Listed(Get(k', x).tbl, o) then 1 else 0
  {
    assert Count(k.wait[o], x) == if Listed(Get(k, x).tbl, o) then 1 else 0;
  }

  lemma WaitKinds(k: K, t: Tid, k': K, x: Tid, o: Oid)
    requires WaitInv(k) && Touches(k, t, k') && KindsOf(k, Get(k', t)) && Listed(Get(k', x).tbl, o)
    ensures o in k.wait && KindOk(Get(k', x).pendOn, Object(k', o))
  {
    assert x != t ==> Listed(Get(k, x).tbl, o);
  }

  lemma WaitChanges(k: K, t: Tid, k': K)
    requires WaitInv(k) && Touches(k, t, k') && k'.wait.Keys == k.wait.Keys && KindsOf(k, Get(k', t))
    requires forall o: Oid :: o in k.wait ==> ListChange(k, t, k', o)
    ensures WaitInv(k')
  {
    hide KindsOf;
    forall o: Oid, x: Tid | o in k'.wait
      ensures Count(k'.wait[o], x) == if Listed(Get(k', x).tbl, o) then 1 else 0
    {
      hide WaitInv, ListChange, Touches, Get;
      WaitCounts(k, t, k', o, x);
    }
    forall x: Tid, o: Oid | Listed(Get(k', x).tbl, o)
      ensures o in k'.wait && KindOk(Get(k', x).pendOn, Object(k', o))
    {
      hide WaitInv, ListChange, Touches, Get;
      WaitKinds(k, t, k', x, o);
    }
    forall o: Oid | o in k'.wait && !Object(k', o).FlagGrp? ensures Sorted(k'.wait[o], PrioOrder(k'.tcb)) {
      hide WaitInv;
      assert ListChange(k, t, k', o);
    }
  }

  lemma ListStays(k: K, t: Tid, k': K, o: Oid)
    requires WaitInv(k) && Touches(k, t, k') && t in k.tcb && o in k.wait && Waiters(k', o) == k.wait[o]
    requires Listed(Get(k', t).tbl, o) == Listed(Get(k, t).tbl, o)
    requires Listed(Get(k, t).tbl, o) ==> Get(k', t).prio == Get(k, t).prio
    ensures ListChange(k, t, k', o)
  {
    assert Count(k.wait[o], t) == if Listed(Get(k, t).tbl, o) then 1 else 0;
    if !Object(k, o).FlagGrp? {
      PrioFrame(k, t, k', k.wait[o]);
    }
  }

  lemma ListLeaves(k: K, t: Tid, k': K, o: Oid)
    requires WaitInv(k) && Touches(k, t, k') && t in k.tcb && o in k.wait
    requires Listed(Get(k, t).tbl, o) && !Listed(Get(k', t).tbl, o) && Waiters(k', o) == Drop(k.wait[o], t)
    ensures ListChange(k, t, k', o)
  {
    assert Count(k.wait[o], t) == 1;
    forall x: Tid ensures Count(Waiters(k', o), x) == if x != t then Count(Waiters(k, o), x) else 0 {
      CountDrop(k.wait[o], t, x);
    }
    if !Object(k, o).FlagGrp? {
      SortedDrop(k.wait[o], t, PrioOrder(k.tcb));
      PrioFrame(k, t, k', Drop(k.wait[o], t));
    }
  }

  /** t enters a list it is not in, at its place. */
  lemma ListEnters(k: K, t: Tid, k': K, o: Oid, q: seq<Tid>)
    requires Touches(k, t, k') && t in k.tcb && o in k.wait
    requires Count(q, t) == 0 && (!Object(k, o).FlagGrp? ==> Sorted(q, PrioOrder(k.tcb)))
    requires forall x: Tid :: x != t ==> Count(q, x) == Count(k.wait[o], x)
    requires Listed(Get(k', t).tbl, o) && Waiters(k', o) == Insert(q, t, PrioOrder(k'.tcb))
    ensures ListChange(k, t, k', o)
  {
    forall x: Tid ensures Count(Waiters(k', o), x) == if x != t then Count(Waiters(k, o), x) else 1 {
      CountInsert(q, t, PrioOrder(k'.tcb), x);
    }
    if !Object(k, o).FlagGrp? {
      PrioFrame(k, t, k', q);
      SortedInsert(q, t, PrioOrder(k'.tcb));
    }
  }

  lemma ListResorts(k: K, t: Tid, k': K, o: Oid)
    requires WaitInv(k) && Touches(k, t, k') && t in k.tcb && o in k.wait
    requires Get(k', t).tbl == Get(k, t).tbl && Listed(Get(k, t).tbl, o)
    requires Waiters(k', o) == if |k.wait[o]| > 1 then Insert(Drop(k.wait[o], t), t, PrioOrder(k'.tcb)) else k.wait[o]
    ensures ListChange(k, t, k', o)
  {
    assert Count(k.wait[o], t) == 1;
    if |k.wait[o]| > 1 {
      var q := Drop(k.wait[o], t);
      forall x: Tid ensures Count(q, x) == if x != t then Count(k.wait[o], x) else 0 {
        CountDrop(k.wait[o], t, x);
      }
      if !Object(k, o).FlagGrp? {
        SortedDrop(k.wait[o], t, PrioOrder(k.tcb));
      }
      ListEnters(k, t, k', o, q);
    }
  }

  lemma WaitStays(k: K, t: Tid, k': K)
    requires WaitInv(k) && Touches(k, t, k') && t in k.tcb
    requires k'.wait == k.wait && Get(k', t).tbl == Get(k, t).tbl
    requires Get(k, t).tbl == [] || (Get(k', t).prio == Get(k, t).prio && Get(k', t).pendOn == Get(k, t).pendOn)
    ensures WaitInv(k')
  {
    forall o: Oid | o in k.wait ensures ListChange(k, t, k', o) {
      ListStays(k, t, k', o);
    }
    WaitChanges(k, t, k');
  }

  lemma WaitLeaves(k: K, t: Tid, k': K)
    requires WaitInv(k) && Touches(k, t, k') && t in k.tcb
    requires Distinct(Get(k, t).tbl) && Get(k', t).tbl == []
    requires k'.wait == UnlinkAll(k.wait, Get(k, t).tbl, t)
    ensures WaitInv(k')
  {
    var tbl := Get(k, t).tbl;
    UnlinkAllAt(k.wait, tbl, t, 0);
    forall o: Oid | o in k.wait ensures ListChange(k, t, k', o) {
      UnlinkAllAt(k.wait, tbl, t, o);
      if Listed(tbl, o) {
        ListLeaves(k, t, k', o);
      } else {
        ListStays(k, t, k', o);
      }
    }
    WaitChanges(k, t, k');
  }

  lemma WaitEnters(k: K, t: Tid, k': K)
    requires WaitInv(k) && Touches(k, t, k') && t in k.tcb
    requires Get(k, t).tbl == [] && Distinct(Get(k', t).tbl) && KindsOf(k, Get(k', t))
    requires k'.wait == LinkAll(k.wait, Get(k', t).tbl, t, PrioOrder(k'.tcb))
    ensures WaitInv(k')
  {
    var tbl := Get(k', t).tbl;
    LinkAllAt(k.wait, tbl, t, PrioOrder(k'.tcb), 0);
    forall o: Oid | o in k.wait ensures ListChange(k, t, k', o) {
      LinkAllAt(k.wait, tbl, t, PrioOrder(k'.tcb), o);
      assert Count(k.wait[o], t) == 0;
      if Listed(tbl, o) {
        ListEnters(k, t, k', o, k.wait[o]);
      } else {
        ListStays(k, t, k', o);
      }
    }
    WaitChanges(k, t, k');
  }

  lemma WaitResorts(k: K, t: Tid, k': K)
    requires WaitInv(k) && Touches(k, t, k') && t in k.tcb
    requires Get(k', t).tbl == Get(k, t).tbl && Distinct(Get(k, t).tbl) && Get(k', t).pendOn == Get(k, t).pendOn
    requires k'.wait == ResortAll(k.wait, Get(k, t).tbl, t, PrioOrder(k'.tcb))
    ensures WaitInv(k')
  {
    var tbl := Get(k, t).tbl;
    var ord := PrioOrder(k'.tcb);
    assert KindsOf(k, Get(k', t));
    ResortAllAt(k.wait, tbl, t, ord, 0);
    forall o: Oid | o in k.wait ensures ListChange(k, t, k', o) {
      ResortAllAt(k.wait, tbl, t, ord, o);
      if Listed(tbl, o) {
        ListResorts(k, t, k', o);
      } else {
        ListStays(k, t, k', o);
      }
    }
    WaitChanges(k, t, k');
  }

  lemma TcbStays(k: K, t: Tid, k': K)
    requires TcbInv(k) && Touches(k, t, k')
    requires |k'.rdy| == |k.rdy| && |k'.wheel| == |k.wheel|
    requires TcbOk(Get(k', t), |k.rdy|, |k.wheel|, k.now)
    ensures TcbInv(k')
  {
  }
}
