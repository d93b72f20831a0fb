/** The tick wheel against the naive timer that looks at every task on every tick.

    The scan of one spoke stops at the first task whose time has not come. Because a spoke is sorted by the ticks
    remaining, with 32-bit wrap-around, it nevertheless finds every task whose due time is the new tick count.
  */
module TickWheel {
  import opened TaskLists
  import opened KernelState
  import opened KernelOps
  import opened ListMoves
  import opened CoreKept
  import opened ObjKept
  import opened WakeMany
  import opened Services

  /** The entries at the front of q whose due time is n. */
  function DuePrefix(tcb: map<Tid, Tcb>, q: seq<Tid>, n: Tick): seq<Tid> {
    if q != [] && q[0] in tcb && tcb[q[0]].due == n then [q[0]] + DuePrefix(tcb, q[1..], n) else []
  }

  function ExpireAll(k: K, ts: seq<Tid>): K
    decreases |ts|
  {
    if ts == [] then k else ExpireAll(Expire(k, ts[0]), ts[1..])
  }

  /** The tasks of ts are in the tick wheel, each once. */
  ghost predicate InWheelOnce(k: K, ts: seq<Tid>) {
    forall x: Tid :: Count(ts, x) <= if Get(k, x).spoke >= 0 then 1 else 0
  }

  lemma ExpireListsInv(k: K, t: Tid)
    requires ListsInv(k) && Get(k, t).spoke >= 0
    ensures ListsInv(Expire(k, t)) && Stable(k, Expire(k, t))
    ensures Get(Expire(k, t), t) == Expired(Get(k, t))
    ensures Touches(k, t, Expire(k, t)) && Get(Expire(k, t), t).spoke == -1
  {
    assert TcbOk(k.tcb[t], |k.rdy|, |k.wheel|, k.now);
    var ev := if Get(k, t).state.pend then TimedOut else DelayOver;
    WakeListsInv(k, t, ev);
    WakeShape(k, t, ev);
  }

  lemma TailInWheel(k: K, ts: seq<Tid>)
    requires ListsInv(k) && InWheelOnce(k, ts) && ts != []
    ensures Get(k, ts[0]).spoke >= 0
    ensures InWheelOnce(Expire(k, ts[0]), ts[1..])
  {
    hide CoreInv, ObjInv, Wake;
    var t := ts[0];
    CountPositive(ts, 0);
    assert Count(ts, t) <= if Get(k, t).spoke >= 0 then 1 else 0;
    ExpireListsInv(k, t);
    forall x: Tid ensures Count(ts[1..], x) <= if Get(Expire(k, t), x).spoke >= 0 then 1 else 0 {
      assert Count(ts, x) <= if Get(k, x).spoke >= 0 then 1 else 0;
    }
  }

  /** The TCB of a task whose delay or timeout is over. */
  function Expired(b: Tcb): Tcb {
    Finish(b, if b.state.Live? && b.state.pend then TimedOut else DelayOver)
  }

  lemma {:induction false} ExpireAllInv(k: K, ts: seq<Tid>)
    requires ListsInv(k) && InWheelOnce(k, ts)
    ensures ListsInv(ExpireAll(k, ts)) && Stable(k, ExpireAll(k, ts))
    ensures forall x: Tid :: Get(ExpireAll(k, ts), x) == if Count(ts, x) > 0 then Expired(Get(k, x)) else Get(k, x)
    decreases |ts|
  {
    hide CoreInv, ObjInv, Expire, Finish;
    if ts != [] {
      var k1 := Expire(k, ts[0]);
      TailInWheel(k, ts);
      ExpireListsInv(k, ts[0]);
      ExpireAllInv(k1, ts[1..]);
      forall x: Tid
        ensures Get(ExpireAll(k, ts), x) == if Count(ts, x) > 0 then Expired(Get(k, x)) else Get(k, x)
      {
        assert Count(ts, ts[0]) <= 1;
        assert x != ts[0] ==> Get(k1, x) == Get(k, x);
      }
    }
  }

  // ------------------------------------------------------------------------------ the scan is complete

  /** The scan takes exactly the entries that are due, although it stops at the first that is not. */
  lemma {:induction false} DuePrefixCount(tcb: map<Tid, Tcb>, q: seq<Tid>, now: Tick, x: Tid)
    requires Sorted(q, RemainOrder(tcb, now))
    requires forall y: Tid :: Count(q, y) > 0 ==> y in tcb && tcb[y].due != now
    ensures Count(DuePrefix(tcb, q, Add32(now, 1)), x) ==
      if x in tcb && tcb[x].due == Add32(now, 1) then Count(q, x) else 0
  {
    var n := Add32(now, 1);
    if q != [] {
      CountPositive(q, 0);
      if tcb[q[0]].due == n {
        forall y: Tid | Count(q[1..], y) > 0 ensures y in tcb && tcb[y].due != now {
          assert Count(q, y) > 0;
        }
        DuePrefixCount(tcb, q[1..], now, x);
        CountCat([q[0]], DuePrefix(tcb, q[1..], n), x);
      } else if x in tcb && tcb[x].due == n && Count(q, x) > 0 {
        HeadLeast(q, RemainOrder(tcb, now), x);
        assert false;
      }
    }
  }

  /** The spoke of the new tick count holds every task that is due. */
  lemma SpokeOfDue(k: K, x: Tid)
    requires WheelInv(k) && TcbInv(k)
    ensures var i := SpokeOf(Add32(k.now, 1), |k.wheel|);
      i < |k.wheel| &&
      Count(DuePrefix(k.tcb, k.wheel[i], Add32(k.now, 1)), x) ==
        if Get(k, x).spoke >= 0 && Get(k, x).due == Add32(k.now, 1) then 1 else 0
  {
    var i := SpokeOf(Add32(k.now, 1), |k.wheel|);
    forall y: Tid | Count(k.wheel[i], y) > 0 ensures y in k.tcb && k.tcb[y].due != k.now {
      assert Count(k.wheel[i], y) == if Get(k, y).spoke == i then 1 else 0;
      assert TcbOk(k.tcb[y], |k.rdy|, |k.wheel|, k.now);
    }
    DuePrefixCount(k.tcb, k.wheel[i], k.now, x);
    assert Count(k.wheel[i], x) == if Get(k, x).spoke == i then 1 else 0;
  }

  // ------------------------------------------------------------- the scan in terms of the state before

  lemma InsertIgnoresTime(k: K, n: Tick, t: Tid)
    ensures RdyInsert(k.(now := n), t) == RdyInsert(k, t).(now := n)
  {
  }

  lemma ExpireIgnoresTime(k: K, n: Tick, t: Tid)
    ensures Expire(k.(now := n), t) == Expire(k, t).(now := n)
  {
    hide RdyInsert, Finish, UnlinkAll, WheelDrop;
    var b := Get(k, t);
    var ev := if b.state.Live? && b.state.pend then TimedOut else DelayOver;
    InsertIgnoresTime(k.(tcb := k.tcb[t := Finish(b, ev)], wait := UnlinkAll(k.wait, b.tbl, t),
      wheel := WheelDrop(k.wheel, b.spoke, t)), n, t);
  }

  predicate SameAndDelayed(k: K, k0: K, x: Tid) {
    Get(k, x) == Get(k0, x) && x in k.tcb && x in k0.tcb && Get(k, x).state.Live? && Get(k, x).state.dly
  }

  /** The scan leaves the TCBs of the entries it has not reached as they were. */
  ghost predicate Unreached(k: K, k0: K, q: seq<Tid>) {
    forall x: Tid :: Count(q, x) > 0 ==> SameAndDelayed(k, k0, x)
  }

  lemma {:induction false} ScanIs(k: K, k0: K, q: seq<Tid>, n: Tick)
    requires Unreached(k, k0, q) && forall x: Tid :: Count(q, x) <= 1
    ensures ExpireDue(k.(now := n), q) == ExpireAll(k, DuePrefix(k0.tcb, q, n)).(now := n)
    decreases |q|
  {
    if q != [] {
      CountPositive(q, 0);
      var t := q[0];
      assert SameAndDelayed(k, k0, t);
      if Get(k, t).due == n {
        ExpireIgnoresTime(k, n, t);
        var k1 := Expire(k, t);
        forall x: Tid ensures Count(q[1..], x) <= 1 && (Count(q[1..], x) > 0 ==> SameAndDelayed(k1, k0, x)) {
          assert Count(q, x) <= 1;
          assert Count(q, t) <= 1;
          assert Count(q, x) > 0 ==> SameAndDelayed(k, k0, x);
          assert x != t ==> Get(k1, x) == Get(k, x);
        }
        ScanIs(k1, k0, q[1..], n);
        assert DuePrefix(k0.tcb, q, n)[1..] == DuePrefix(k0.tcb, q[1..], n);
      }
    }
  }

  /** OS_TickListUpdate is: expire the due tasks of one spoke, and count the tick. */
  lemma TickUpdateIs(k: K)
    requires WheelInv(k) && TcbInv(k)
    ensures var n := Add32(k.now, 1); var i := SpokeOf(n, |k.wheel|);
      i < |k.wheel| && TickUpdate(k) == ExpireAll(k, DuePrefix(k.tcb, k.wheel[i], n)).(now := n)
  {
    var i := SpokeOf(Add32(k.now, 1), |k.wheel|);
    forall x: Tid ensures Count(k.wheel[i], x) <= 1
      && (Count(k.wheel[i], x) > 0 ==> x in k.tcb && Get(k, x).state.Live? && Get(k, x).state.dly)
    {
      assert Count(k.wheel[i], x) == if Get(k, x).spoke == i then 1 else 0;
      assert x in k.tcb ==> TcbOk(k.tcb[x], |k.rdy|, |k.wheel|, k.now);
    }
    ScanIs(k, k, k.wheel[i], Add32(k.now, 1));
  }

  // -------------------------------------------------------------------------------- the main theorem

  /** The naive timer: a task that is due at the new tick count expires, any other is left alone. */
  function NaiveTick(k: K, t: Tid): Tcb {
    var b := Get(k, t);
    if b.state.Live? && b.state.dly && b.due == Add32(k.now, 1) then Expired(b) else b
  }

  lemma DueInWheelOnce(k: K)
    requires WheelInv(k) && TcbInv(k)
    ensures var i := SpokeOf(Add32(k.now, 1), |k.wheel|);
      i < |k.wheel| && InWheelOnce(k, DuePrefix(k.tcb, k.wheel[i], Add32(k.now, 1)))
  {
    var i := SpokeOf(Add32(k.now, 1), |k.wheel|);
    SpokeOfDue(k, 0);
    forall x: Tid ensures Count(DuePrefix(k.tcb, k.wheel[i], Add32(k.now, 1)), x) <= if Get(k, x).spoke >= 0 then 1 else 0 {
      SpokeOfDue(k, x);
    }
  }

  /** For every 32-bit tick count and every wheel size: one update expires exactly the tasks that are due. */
  lemma TickExpiresExactlyTheDue(k: K)
    requires ListsInv(k)
    ensures forall t: Tid :: Get(TickUpdate(k), t) == NaiveTick(k, t)
    ensures TickUpdate(k).now == Add32(k.now, 1)
  {
    var n := Add32(k.now, 1);
    var i := SpokeOf(n, |k.wheel|);
    var due := DuePrefix(k.tcb, k.wheel[i], n);
    TickUpdateIs(k);
    DueInWheelOnce(k);
    ExpireAllInv(k, due);
    forall t: Tid ensures Get(TickUpdate(k), t) == NaiveTick(k, t) {
      SpokeOfDue(k, t);
      assert t in k.tcb ==> TcbOk(k.tcb[t], |k.rdy|, |k.wheel|, k.now);
    }
  }

  /** Counting the tick, once nobody is due, keeps a spoke sorted: every remaining time drops by one. */
  lemma RemainDrops(k: K, i: nat)
    requires WheelInv(k) && TcbInv(k) && i < |k.wheel|
    requires forall t: Tid :: Get(k, t).spoke >= 0 ==> Get(k, t).due != Add32(k.now, 1)
    ensures Sorted(k.wheel[i], RemainOrder(k.tcb, Add32(k.now, 1)))
  {
    var ord, ord' := RemainOrder(k.tcb, k.now), RemainOrder(k.tcb, Add32(k.now, 1));
    forall x: Tid | Count(k.wheel[i], x) > 0 ensures ord'.Key(x) + 1 == ord.Key(x) {
      assert Count(k.wheel[i], x) == if Get(k, x).spoke == i then 1 else 0;
      assert TcbOk(k.tcb[x], |k.rdy|, |k.wheel|, k.now);
    }
    SortedShift(k.wheel[i], ord, ord', 1);
  }

  lemma CountTickTcb(k: K)
    requires TcbInv(k) && forall t: Tid :: Get(k, t).spoke >= 0 ==> Get(k, t).due != Add32(k.now, 1)
    ensures TcbInv(k.(now := Add32(k.now, 1)))
  {
    forall t: Tid | t in k.tcb ensures TcbOk(k.tcb[t], |k.rdy|, |k.wheel|, Add32(k.now, 1)) {
      assert TcbOk(Get(k, t), |k.rdy|, |k.wheel|, k.now);
    }
  }

  lemma ListsIgnoreTime(k: K, n: Tick)
    requires ReadyInv(k) && WaitInv(k)
    ensures ReadyInv(k.(now := n)) && WaitInv(k.(now := n))
  {
    var k' := k.(now := n);
    assert forall t: Tid :: Get(k', t) == Get(k, t);
    assert forall o: Oid :: Object(k', o) == Object(k, o);
    assert ReadyInv(k');
    assert WaitInv(k');
  }

  lemma CountTheTick(k: K)
    requires CoreInv(k) && forall t: Tid :: Get(k, t).spoke >= 0 ==> Get(k, t).due != Add32(k.now, 1)
    ensures CoreInv(k.(now := Add32(k.now, 1)))
  {
    hide ReadyInv, WaitInv, TcbInv;
    var k' := k.(now := Add32(k.now, 1));
    ListsIgnoreTime(k, Add32(k.now, 1));
    assert forall t: Tid :: Get(k', t) == Get(k, t);
    forall i: nat | i < |k'.wheel| ensures Sorted(k'.wheel[i], RemainOrder(k'.tcb, k'.now)) {
      RemainDrops(k, i);
    }
    CountTickTcb(k);
  }

  lemma ObjInvIgnoresTime(k: K, n: Tick)
    requires ObjInv(k)
    ensures ObjInv(k.(now := n))
  {
    var k' := k.(now := n);
    forall o: Oid | o in k'.obj ensures ObjOk(k', o, k'.obj[o]) {
      assert ObjOk(k, o, k.obj[o]);
    }
  }

  lemma TickListsInv(k: K)
    requires ListsInv(k)
    ensures ListsInv(TickUpdate(k))
    ensures forall t: Tid :: Get(k, t).state == RDY ==> Get(TickUpdate(k), t) == Get(k, t)
    ensures TickUpdate(k).cur == k.cur && TickUpdate(k).idle == k.idle && TickUpdate(k).lock == k.lock
    ensures TickUpdate(k).obj == k.obj
  {
    var n := Add32(k.now, 1);
    var i := SpokeOf(n, |k.wheel|);
    TickUpdateIs(k);
    DueInWheelOnce(k);
    ExpireAllInv(k, DuePrefix(k.tcb, k.wheel[i], n));
    var k1 := ExpireAll(k, DuePrefix(k.tcb, k.wheel[i], n));
    forall t: Tid | Get(k1, t).spoke >= 0 ensures Get(k1, t).due != n {
      SpokeOfDue(k, t);
    }
    CountTheTick(k1);
    ObjInvIgnoresTime(k1, n);
  }
}
