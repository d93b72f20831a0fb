/** In which order tasks that one call wakes will run: at the running priority behind the tasks that were ready, first come
    first; at another priority in front of them, last woken first. It is the same for posts, flags, deletions and the
    tick.
  */
module ReadyOrder {
  import opened TaskLists
  import opened KernelState
  import opened KernelOps
  import opened ListMoves
  import opened CoreKept
  import opened ObjKept
  import opened Services
  import opened FlagsMultiKept
  import opened TickWheel
  import opened SingleFlags
  import opened Suspension
  import opened Run
  import opened Broadcast

  /** The tasks of ts that are not suspended have become ready, in this order; the tasks ready before keep theirs. */
  ghost predicate GetReady(k: K, ts: seq<Tid>, k': K) {
    && |k'.rdy| == |k.rdy|
    && forall p: nat :: p < |k.rdy| ==> k'.rdy[p] == Joined(k.rdy[p], Readied(k, ts, p), p == k.prioCur)
  }

  /** A ready list with the newcomers: behind the others, or in front of them. */
  function Joined(q: seq<Tid>, ts: seq<Tid>, running: bool): seq<Tid> {
    if running then q + ts else Reversed(ts) + q
  }

  /** One task has been woken. */
  predicate OneReady(k: K, t: Tid, k': K) {
    var b := Get(k, t);
    && b.state.Live? && b.prio < |k.rdy| && k'.prioCur == k.prioCur
    && k'.rdy == if b.state.susp then k.rdy else k.rdy[b.prio := Enqueue(k.rdy[b.prio], t, b.prio == k.prioCur)]
  }

  lemma OneThenMore(k: K, t: Tid, ts: seq<Tid>, k1: K, k': K)
    requires OneReady(k, t, k1) && GetReady(k1, ts, k')
    requires forall x: Tid :: Count(ts, x) > 0 ==> Get(k1, x) == Get(k, x)
    ensures GetReady(k, [t] + ts, k')
  {
    assert ([t] + ts)[1..] == ts;
    forall p: nat | p < |k.rdy| ensures k'.rdy[p] == Joined(k.rdy[p], Readied(k, [t] + ts, p), p == k.prioCur) {
      SameReadied(k, k1, ts, p);
      OneMore(k.rdy[p], t, Readied(k, ts, p));
    }
  }

  lemma NoneReady(k: K)
    ensures GetReady(k, [], k)
  {
    assert forall p: nat :: p < |k.rdy| ==> k.rdy[p] + [] == k.rdy[p] && [] + k.rdy[p] == k.rdy[p];
  }

  lemma WakeReadies(k: K, t: Tid, ev: Event)
    requires t in k.tcb && Ends(ev, Get(k, t).state) && Get(k, t).prio < |k.rdy|
    ensures OneReady(k, t, Wake(k, t, ev))
  {
    hide Wake, Finish, UnlinkAll, WheelDrop;
    WakeForm(k, t, ev);
  }

  /** The first, or all, of the tasks that wait for an object. */
  lemma WakeAllReadies(k: K, ts: seq<Tid>, ev: Event)
    requires AllPend(k, ts) && !ev.DelayOver?
    ensures GetReady(k, ts, WakeAll(k, ts, ev))
  {
    hide WakeAll, Readied, Reversed;
    WakeAllLength(k, ts, ev);
    forall p: nat | p < |k.rdy|
      ensures WakeAll(k, ts, ev).rdy[p] == Joined(k.rdy[p], Readied(k, ts, p), p == k.prioCur)
    {
      WakeAllOrder(k, ts, ev, p);
    }
  }

  lemma SomePend(k: K, o: Oid, all: bool)
    requires ListsInv(k) && Waiters(k, o) != []
    ensures AllPend(k, if all then Waiters(k, o) else Waiters(k, o)[..1])
  {
    hide CoreInv, ObjInv, Pending;
    var w := Waiters(k, o);
    WaitersPend(k, o);
    assert Count(w, w[0]) > 0;
    assert w[..1][1..] == [];
    assert forall x: Tid :: Count(w[..1], x) == if x == w[0] then 1 else 0;
  }

  lemma {:induction false} WakeAllLength(k: K, ts: seq<Tid>, ev: Event)
    ensures |WakeAll(k, ts, ev).rdy| == |k.rdy|
    decreases |ts|
  {
    hide Finish, UnlinkAll, WheelDrop;
    if ts != [] {
      WakeAllLength(Wake(k, ts[0], ev), ts[1..], ev);
    }
  }

  // ------------------------------------------------------------------------------------- event flags

  /** Those of the tasks whose condition holds on the flags, in order. */
  ghost function TheMet(k: K, ts: seq<Tid>, flags: Flags): seq<Tid> {
    if ts == [] then []
    else (if Fulfilled(Get(k, ts[0]).flagsMode, flags, Get(k, ts[0]).flagsPend) then [ts[0]] else []) + TheMet(k, ts[1..], flags)
  }

  lemma {:induction false} MetAmong(k: K, ts: seq<Tid>, flags: Flags, x: Tid)
    ensures Count(TheMet(k, ts, flags), x) > 0 ==> Count(ts, x) > 0
  {
    hide Fulfilled;
    if ts != [] {
      CountCat([ts[0]], TheMet(k, ts[1..], flags), x);
      assert [] + TheMet(k, ts[1..], flags) == TheMet(k, ts[1..], flags);
      MetAmong(k, ts[1..], flags, x);
    }
  }

  lemma FlagReadies(k: K, t: Tid, rdy: Flags)
    requires Pending(k, t)
    ensures OneReady(k, t, FlagReady(k, t, rdy))
    ensures forall x: Tid :: x != t ==> Get(FlagReady(k, t, rdy), x) == Get(k, x)
  {
    hide Finish, UnlinkAll, Wake;
    if Get(k, t).state == PEND_TIMEOUT_SUSPENDED {
    } else {
      WakeReadies(k, t, Flagged(rdy));
      WakeForm(k, t, Flagged(rdy));
    }
  }

  lemma {:induction false} SameMet(k: K, k': K, ts: seq<Tid>, flags: Flags)
    requires forall x: Tid :: Count(ts, x) > 0 ==> Get(k', x) == Get(k, x)
    ensures TheMet(k', ts, flags) == TheMet(k, ts, flags)
  {
    hide Fulfilled;
    if ts != [] {
      assert Count(ts, ts[0]) > 0;
      forall x: Tid | Count(ts[1..], x) > 0 ensures Get(k', x) == Get(k, x) {
        assert Count(ts, x) > 0;
      }
      SameMet(k, k', ts[1..], flags);
    }
  }

  lemma {:induction false} FlagReadyAllReadies(k: K, ts: seq<Tid>, flags: Flags)
    requires AllPend(k, ts)
    ensures GetReady(k, TheMet(k, ts, flags), FlagReadyAll(k, ts, flags))
    decreases |ts|
  {
    hide FlagReady, FlagBits, FlagMet, Fulfilled, GetReady, OneReady;
    if ts == [] {
      NoneReady(k);
    } else {
      var t, b := ts[0], Get(k, ts[0]);
      var rest := TheMet(k, ts[1..], flags);
      MetMeans(b.flagsMode, flags, b.flagsPend);
      TailPends(k, ts);
      assert [] + rest == rest;
      if FlagMet(b.flagsMode, flags, b.flagsPend) {
        var k1 := FlagReady(k, t, FlagBits(b.flagsMode, flags, b.flagsPend));
        FlagReadies(k, t, FlagBits(b.flagsMode, flags, b.flagsPend));
        OthersPend(k, k1, ts);
        FlagReadyAllReadies(k1, ts[1..], flags);
        SameMet(k, k1, ts[1..], flags);
        forall x: Tid | Count(rest, x) > 0 ensures Get(k1, x) == Get(k, x) {
          MetAmong(k, ts[1..], flags, x);
          assert Count(ts[1..], x) > 0;
        }
        OneThenMore(k, t, rest, k1, FlagReadyAll(k, ts, flags));
      } else {
        FlagReadyAllReadies(k, ts[1..], flags);
      }
    }
  }

  lemma TailPends(k: K, ts: seq<Tid>)
    requires AllPend(k, ts) && ts != []
    ensures Pending(k, ts[0]) && AllPend(k, ts[1..]) && forall x: Tid :: Count(ts[1..], x) > 0 ==> x != ts[0]
  {
    assert Count(ts, ts[0]) > 0;
    forall x: Tid | Count(ts[1..], x) > 0 ensures x != ts[0] && Count(ts[1..], x) == 1 && Pending(k, x) {
      assert Count(ts, x) > 0;
    }
  }

  lemma OthersPend(k: K, k1: K, ts: seq<Tid>)
    requires AllPend(k, ts) && ts != [] && OneReady(k, ts[0], k1)
    requires forall x: Tid :: x != ts[0] ==> Get(k1, x) == Get(k, x)
    ensures AllPend(k1, ts[1..])
    ensures forall x: Tid :: Count(ts[1..], x) > 0 ==> Get(k1, x) == Get(k, x)
  {
    TailPends(k, ts);
    forall x: Tid | Count(ts[1..], x) > 0 ensures Count(ts[1..], x) == 1 && Pending(k1, x) && Get(k1, x) == Get(k, x) {
      assert Pending(k, x);
    }
  }

  // -------------------------------------------------------------------------------------------- tick

  /** The tasks are delayed or wait with a timeout, each once. */
  ghost predicate AllDelayed(k: K, ts: seq<Tid>) {
    forall x: Tid :: Count(ts, x) > 0 ==>
      Count(ts, x) == 1 && x in k.tcb && Get(k, x).state.Live? && Get(k, x).state.dly && Get(k, x).prio < |k.rdy|
  }

  lemma {:induction false} ExpireAllReadies(k: K, ts: seq<Tid>)
    requires AllDelayed(k, ts)
    ensures GetReady(k, ts, ExpireAll(k, ts))
    decreases |ts|
  {
    hide Wake, Finish, GetReady, OneReady;
    if ts == [] {
      NoneReady(k);
    } else {
      var t := ts[0];
      var k1 := Expire(k, t);
      var ev := if Get(k, t).state.pend then TimedOut else DelayOver;
      assert Count(ts, t) > 0;
      WakeReadies(k, t, ev);
      Woken1(k, t, ev);
      forall x: Tid | Count(ts[1..], x) > 0 ensures Get(k1, x) == Get(k, x) && Count(ts[1..], x) == 1 && Count(ts, x) > 0 {
        assert Count(ts, x) > 0;
      }
      ExpireAllReadies(k1, ts[1..]);
      assert [t] + ts[1..] == ts;
      OneThenMore(k, t, ts[1..], k1, ExpireAll(k, ts));
    }
  }

  lemma Woken1(k: K, t: Tid, ev: Event)
    requires t in k.tcb && Ends(ev, Get(k, t).state) && Get(k, t).prio < |k.rdy|
    ensures |Wake(k, t, ev).rdy| == |k.rdy|
    ensures forall x: Tid :: x != t ==> Get(Wake(k, t, ev), x) == Get(k, x) && (x in k.tcb ==> x in Wake(k, t, ev).tcb)
  {
    hide Wake, Finish, UnlinkAll, WheelDrop;
    WakeForm(k, t, ev);
  }

  /** At the tick the tasks that are due become ready in the order of their spoke. */
  lemma TickReadies(k: K)
    requires Inv(k)
    ensures var n: Tick := (k.now + 1) % 0x1_0000_0000;
      |k.wheel| > 0 && GetReady(k, DuePrefix(k.tcb, k.wheel[n % |k.wheel|], n), Step(k, OpTick))
  {
    hide CoreInv, ObjInv, CurOk, TickUpdate, ExpireAll, GetReady, DuePrefix;
    var n: Tick := (k.now + 1) % 0x1_0000_0000;
    WheelParts(k);
    TickUpdateIs(k);
    DueDelayed(k, n);
    ExpireAllReadies(k, DuePrefix(k.tcb, k.wheel[n % |k.wheel|], n));
    SameRdy(k, DuePrefix(k.tcb, k.wheel[n % |k.wheel|], n), n);
  }

  lemma SameRdy(k: K, ts: seq<Tid>, n: Tick)
    requires GetReady(k, ts, ExpireAll(k, ts))
    ensures GetReady(k, ts, ExpireAll(k, ts).(now := n))
  {
    hide ExpireAll, Readied, Reversed;
  }

  lemma WheelParts(k: K)
    requires Inv(k)
    ensures WheelInv(k) && TcbInv(k) && |k.wheel| > 0
  {
  }

  lemma DueDelayed(k: K, n: Tick)
    requires Inv(k) && n == Add32(k.now, 1)
    ensures |k.wheel| > 0 && AllDelayed(k, DuePrefix(k.tcb, k.wheel[n % |k.wheel|], n))
  {
    hide ReadyInv, WheelInv, WaitInv, TcbInv, ObjInv, CurOk, DuePrefix;
    WheelParts(k);
    DueInWheelOnce(k);
    var ts := DuePrefix(k.tcb, k.wheel[n % |k.wheel|], n);
    forall x: Tid | Count(ts, x) > 0
      ensures Count(ts, x) == 1 && x in k.tcb && Get(k, x).state.Live? && Get(k, x).state.dly && Get(k, x).prio < |k.rdy|
    {
      assert Count(ts, x) <= if Get(k, x).spoke >= 0 then 1 else 0;
      TcbOkOf(k, x);
    }
  }
}
