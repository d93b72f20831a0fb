/** Waking tasks one after the other: the loops of post-to-all, abort-all and delete. */
module WakeMany {
  import opened TaskLists
  import opened KernelState
  import opened KernelOps
  import opened ListMoves
  import opened CoreKept
  import opened ObjKept

  /** Ready tasks stay as they are; objects and scheduler variables are untouched. */
  ghost predicate Stable(k: K, k': K) {
    && k'.cur == k.cur && k'.idle == k.idle && k'.lock == k.lock && k'.obj == k.obj && k'.now == k.now
    && |k'.rdy| == |k.rdy| && |k'.wheel| == |k.wheel| && k'.wait.Keys == k.wait.Keys
    && forall t: Tid :: Get(k, t).state == RDY ==> Get(k', t) == Get(k, t)
  }

  /** ts is part of the pend list of o, each task as often as there. */
  ghost predicate AmongWaiters(k: K, ts: seq<Tid>, o: Oid) {
    o in k.wait && forall x: Tid :: Count(ts, x) <= Count(k.wait[o], x)
  }

  lemma WakeListsInv(k: K, t: Tid, ev: Event)
    requires ListsInv(k)
    ensures ListsInv(Wake(k, t, ev)) && Stable(k, Wake(k, t, ev))
  {
    if Ends(ev, Get(k, t).state) {
      WakeKept(k, t, ev);
      WakeShape(k, t, ev);
      ObjStays(k, t, Wake(k, t, ev));
    }
  }

  /** A task on a pend list is blocked. */
  lemma WaiterPends(k: K, t: Tid, o: Oid)
    requires ListsInv(k) && o in k.wait && Count(k.wait[o], t) > 0
    ensures t in k.tcb && Get(k, t).state.Live? && Get(k, t).state.pend && Listed(Get(k, t).tbl, o)
    ensures KindOk(Get(k, t).pendOn, Object(k, o))
  {
    assert Count(k.wait[o], t) == if Listed(Get(k, t).tbl, o) then 1 else 0;
    assert TcbOk(k.tcb[t], |k.rdy|, |k.wheel|, k.now);
  }

  /** Waking a task that waits for o takes it off the pend list of o, and nobody else. */
  lemma WakeCounts(k: K, t: Tid, ev: Event, o: Oid, x: Tid)
    requires ListsInv(k) && o in k.wait && Count(k.wait[o], t) > 0 && !ev.DelayOver?
    ensures o in Wake(k, t, ev).wait
    ensures Count(Wake(k, t, ev).wait[o], x) == Count(k.wait[o], x) - if x == t then 1 else 0
    ensures Wake(k, t, ev).wait[o] == Drop(k.wait[o], t)
  {
    WaiterPends(k, t, o);
    assert TcbOk(k.tcb[t], |k.rdy|, |k.wheel|, k.now);
    WakeShape(k, t, ev);
    UnlinkAllAt(k.wait, Get(k, t).tbl, t, o);
    CountDrop(k.wait[o], t, x);
    assert Count(k.wait[o], t) == 1;
  }

  lemma AmongAfterFirst(k: K, ts: seq<Tid>, o: Oid, ev: Event)
    requires ListsInv(k) && AmongWaiters(k, ts, o) && ts != [] && !ev.DelayOver?
    ensures Count(k.wait[o], ts[0]) > 0
    ensures AmongWaiters(Wake(k, ts[0], ev), ts[1..], o)
  {
    CountPositive(ts, 0);
    var k' := Wake(k, ts[0], ev);
    WakeCounts(k, ts[0], ev, o, 0);
    forall x: Tid ensures Count(ts[1..], x) <= Count(k'.wait[o], x) {
      WakeCounts(k, ts[0], ev, o, x);
      assert Count(ts, x) <= Count(k.wait[o], x);
    }
  }

  /** Waking any number of the tasks that wait for o keeps the invariant and takes exactly these off its list. */
  lemma {:induction false} WakeAllListsInv(k: K, ts: seq<Tid>, o: Oid, ev: Event)
    requires ListsInv(k) && AmongWaiters(k, ts, o) && !ev.DelayOver?
    ensures var k' := WakeAll(k, ts, ev);
      && ListsInv(k') && Stable(k, k')
      && forall x: Tid :: Count(Waiters(k', o), x) + Count(ts, x) == Count(k.wait[o], x)
    decreases |ts|
  {
    if ts != [] {
      var k1 := Wake(k, ts[0], ev);
      AmongAfterFirst(k, ts, o, ev);
      WakeListsInv(k, ts[0], ev);
      WakeAllListsInv(k1, ts[1..], o, ev);
      var k' := WakeAll(k, ts, ev);
      forall x: Tid ensures Count(Waiters(k', o), x) + Count(ts, x) == Count(k.wait[o], x) {
        WakeCounts(k, ts[0], ev, o, x);
      }
    }
  }

  lemma FirstAmong(k: K, o: Oid)
    requires o in k.wait && k.wait[o] != []
    ensures AmongWaiters(k, k.wait[o], o) && AmongWaiters(k, k.wait[o][..1], o)
  {
    var q := k.wait[o];
    assert q == q[..1] + q[1..];
    forall x: Tid ensures Count(q[..1], x) <= Count(q, x) {
      CountCat(q[..1], q[1..], x);
    }
  }
}
