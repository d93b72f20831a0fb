/** The loops that wake several tasks: post to all, abort all, delete. Each task that waits when the loop starts is woken
    exactly once, in list order, and nobody else is.
  */
module Broadcast {
  import opened TaskLists
  import opened KernelState
  import opened KernelOps
  import opened ListMoves
  import opened CoreKept
  import opened ObjKept
  import opened WakeMany
  import opened Services
  import opened ObjectsKept
  import opened Departures
  import opened Suspension

  /** The tasks of ts pend, and none is named twice. */
  ghost predicate AllPend(k: K, ts: seq<Tid>) {
    forall t: Tid :: Count(ts, t) > 0 ==> Count(ts, t) == 1 && Pending(k, t)
  }

  predicate Pending(k: K, t: Tid) {
    t in k.tcb && Get(k, t).state.Live? && Get(k, t).state.pend && Get(k, t).prio < |k.rdy|
  }

  lemma RestPends(k: K, ts: seq<Tid>, ev: Event)
    requires AllPend(k, ts) && ts != [] && !ev.DelayOver?
    ensures var t := ts[0]; Ends(ev, Get(k, t).state) && Wake(k, t, ev).tcb == k.tcb[t := Finish(Get(k, t), ev)]
    ensures AllPend(Wake(k, ts[0], ev), ts[1..]) && |Wake(k, ts[0], ev).rdy| == |k.rdy|
  {
    var t := ts[0];
    assert Count(ts, t) > 0;
    WakeForm(k, t, ev);
    forall x: Tid | Count(ts[1..], x) > 0 ensures x != t && Count(ts[1..], x) == 1 && Pending(k, x) {
      assert Count(ts, x) > 0;
    }
  }

  /** Every task of the list is woken by the same event, and no other TCB changes. */
  lemma {:induction false} WakeAllAt(k: K, ts: seq<Tid>, ev: Event, x: Tid)
    requires AllPend(k, ts) && !ev.DelayOver?
    ensures Get(WakeAll(k, ts, ev), x) == if Count(ts, x) > 0 then Finish(Get(k, x), ev) else Get(k, x)
    decreases |ts|
  {
    hide Wake, Finish;
    if ts != [] {
      RestPends(k, ts, ev);
      assert Count(ts, ts[0]) > 0;
      WakeAllAt(Wake(k, ts[0], ev), ts[1..], ev, x);
    }
  }

  /** The tasks of ts that become ready at priority p, in order. */
  function Readied(k: K, ts: seq<Tid>, p: nat): seq<Tid> {
    if ts == [] then []
    else if Get(k, ts[0]).state.Live? && !Get(k, ts[0]).state.susp && Get(k, ts[0]).prio == p
      then [ts[0]] + Readied(k, ts[1..], p)
    else Readied(k, ts[1..], p)
  }

  function Reversed(q: seq<Tid>): seq<Tid> {
    if q == [] then [] else Reversed(q[1..]) + [q[0]]
  }

  lemma {:induction false} SameReadied(k: K, k': K, ts: seq<Tid>, p: nat)
    requires forall x: Tid :: Count(ts, x) > 0 ==> Get(k', x) == Get(k, x)
    ensures Readied(k', ts, p) == Readied(k, ts, p)
    decreases |ts|
  {
    if ts != [] {
      assert Count(ts, ts[0]) > 0;
      forall x: Tid | Count(ts[1..], x) > 0 ensures Get(k', x) == Get(k, x) {
        assert Count(ts, x) > 0;
      }
      SameReadied(k, k', ts[1..], p);
    }
  }

  /** The order in which the woken tasks will run: at the running priority behind the tasks that were ready, first come
      first; at another priority in front of them, last woken first. */
  lemma {:induction false} WakeAllOrder(k: K, ts: seq<Tid>, ev: Event, p: nat)
    requires AllPend(k, ts) && !ev.DelayOver? && p < |k.rdy|
    ensures |WakeAll(k, ts, ev).rdy| == |k.rdy|
    ensures WakeAll(k, ts, ev).rdy[p] ==
      if p == k.prioCur then k.rdy[p] + Readied(k, ts, p) else Reversed(Readied(k, ts, p)) + k.rdy[p]
    decreases |ts|
  {
    hide Wake, Finish;
    if ts == [] {
      assert k.rdy[p] + [] == k.rdy[p] && [] + k.rdy[p] == k.rdy[p];
    } else {
      var t := ts[0];
      var k1 := Wake(k, t, ev);
      RestPends(k, ts, ev);
      assert Count(ts, t) > 0;
      WakeForm(k, t, ev);
      WakeAllOrder(k1, ts[1..], ev, p);
      forall x: Tid | Count(ts[1..], x) > 0 ensures Get(k1, x) == Get(k, x) {
        assert Count(ts, x) > 0 && Count(ts, t) == 1;
      }
      SameReadied(k, k1, ts[1..], p);
      assert k1.rdy[p] == if Get(k, t).prio == p && !Get(k, t).state.susp then Enqueue(k.rdy[p], t, p == k.prioCur) else k.rdy[p];
      OneMore(k.rdy[p], t, Readied(k, ts[1..], p));
    }
  }

  lemma OneMore(q: seq<Tid>, t: Tid, rest: seq<Tid>)
    ensures (q + [t]) + rest == q + ([t] + rest)
    ensures Reversed(rest) + ([t] + q) == Reversed([t] + rest) + q
  {
    assert ([t] + rest)[1..] == rest;
    assert Reversed([t] + rest) == Reversed(rest) + [t];
    assert Reversed(rest) + ([t] + q) == (Reversed(rest) + [t]) + q;
  }

  lemma WaitersPend(k: K, o: Oid)
    requires ListsInv(k)
    ensures AllPend(k, Waiters(k, o))
  {
    hide CoreInv, ObjInv;
    forall t: Tid | Count(Waiters(k, o), t) > 0
      ensures Count(Waiters(k, o), t) == 1 && Pending(k, t)
    {
      WaiterPends(k, t, o);
      InList(k, o, t);
      PrioInRange(k, t);
    }
  }

  lemma PrioInRange(k: K, t: Tid)
    requires CoreInv(k) && t in k.tcb && Get(k, t).state.Live?
    ensures Get(k, t).prio < |k.rdy|
  {
    hide ReadyInv, WheelInv, WaitInv;
    TcbOkOf(k, t);
  }

  /** The main theorem on broadcasts: everybody who waits for o is woken, exactly once, and nobody is left. */
  lemma BroadcastWakesEachOnce(k: K, o: Oid, ev: Event)
    requires ListsInv(k) && o in k.wait && !ev.DelayOver?
    ensures var k' := WakeAll(k, k.wait[o], ev);
      && ListsInv(k') && o in k'.wait && k'.wait[o] == []
      && forall t: Tid :: Get(k', t) == if Listed(Get(k, t).tbl, o) then Finish(Get(k, t), ev) else Get(k, t)
  {
    hide CoreInv, ObjInv, Finish;
    var k' := WakeAll(k, k.wait[o], ev);
    WakeAllEmpties(k, k.wait[o], o, ev);
    WaitersPend(k, o);
    forall t: Tid ensures Get(k', t) == if Listed(Get(k, t).tbl, o) then Finish(Get(k, t), ev) else Get(k, t) {
      InList(k, o, t);
      WakeAllAt(k, k.wait[o], ev, t);
    }
  }

  /** Waking the first waiter leaves the others in their order. */
  lemma FirstWoken(k: K, o: Oid, ev: Event)
    requires ListsInv(k) && Waiters(k, o) != [] && !ev.DelayOver?
    ensures var k' := WakeAll(k, Waiters(k, o)[..1], ev); var h := Waiters(k, o)[0];
      && Waiters(k', o) == Waiters(k, o)[1..]
      && forall t: Tid :: Get(k', t) == if t == h then Finish(Get(k, t), ev) else Get(k, t)
  {
    hide CoreInv, ObjInv, Finish, Wake;
    var w := k.wait[o];
    CountPositive(w, 0);
    WakeCounts(k, w[0], ev, o, 0);
    WaitersPend(k, o);
    assert Count(w, w[0]) > 0;
    RestPends(k, w, ev);
    assert w[..1][1..] == [];
    assert WakeAll(k, w[..1], ev) == WakeAll(Wake(k, w[0], ev), w[..1][1..], ev);
  }

  /** Who is left waiting after an abort: nobody, if all were to be aborted and the scheduler was to run; with the
      option not to schedule, all but the first, although the caller asked for all. */
  lemma AbortAllAbortsOneWithoutSched(k: K, o: Oid, all: bool, noSched: bool)
    requires ListsInv(k) && Waiters(k, o) != []
    ensures Waiters(PendAbort(k, o, all, noSched).k, o) == if all && !noSched then [] else Waiters(k, o)[1..]
    ensures var k' := PendAbort(k, o, all, noSched).k;
      forall t: Tid :: Get(k', t) ==
        if t == Waiters(k, o)[0] || (all && !noSched && Listed(Get(k, t).tbl, o)) then Finish(Get(k, t), Aborted(Some(o)))
        else Get(k, t)
  {
    hide CoreInv, Finish, WakeAll, Sched;
    var w := Waiters(k, o);
    var ev := Aborted(Some(o));
    ObjOkOf(k, o);
    var k1 := WakeAll(k, if all && !noSched then w else w[..1], ev);
    FirstWoken(k, o, ev);
    BroadcastWakesEachOnce(k, o, ev);
    CountPositive(w, 0);
    InList(k, o, w[0]);
    SchedKeepsTcbs(k1, noSched);
  }
}
