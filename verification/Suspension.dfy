/** Suspension is orthogonal to waiting: suspend, wake, resume comes to the same as the wake alone, for every way to wake a
    task. Suspending and waking also commute, with one exception, which is stated exactly: a post of flags leaves a task
    in the tick wheel if it was suspended while its timeout was running.
  */
module Suspension {
  import opened TaskLists
  import opened KernelState
  import opened KernelOps
  import opened ListMoves
  import opened CoreKept
  import opened ObjKept
  import opened WakeMany
  import opened Services
  import opened ServicesKept
  import opened TickWheel

  lemma {:induction false} DropLast(q: seq<Tid>, t: Tid)
    requires Count(q, t) == 0
    ensures Drop(q + [t], t) == q
  {
    if q == [] {
      assert q + [t] == [t];
    } else {
      assert (q + [t])[1..] == q[1..] + [t];
      DropLast(q[1..], t);
      assert [q[0]] + q[1..] == q;
    }
  }

  lemma {:induction false} DropThenAppend(q: seq<Tid>, t: Tid, x: Tid)
    requires x != t
    ensures Drop(q + [x], t) == Drop(q, t) + [x]
  {
    if q != [] {
      assert (q + [x])[1..] == q[1..] + [x];
      if q[0] != t {
        DropThenAppend(q[1..], t, x);
      }
    } else {
      assert q + [x] == [x];
      assert Drop([x], t) == [x] + Drop([], t);
    }
  }

  /** Taking t off a ready list and putting x on it do not interfere. */
  lemma DropEnqueue(q: seq<Tid>, t: Tid, x: Tid, atTail: bool)
    requires x != t || Count(q, t) == 0
    ensures Drop(Enqueue(q, x, atTail), t) == if x == t then q else Enqueue(Drop(q, t), x, atTail)
  {
    if x == t {
      DropLast(q, t);
      assert ([t] + q)[1..] == q;
    } else {
      DropThenAppend(q, t, x);
      assert ([x] + q)[1..] == q;
    }
  }

  /** The state with a ready task suspended. */
  function Unreadied(k: K, t: Tid): K
    requires t in k.tcb && k.tcb[t].prio < |k.rdy|
  {
    var b := k.tcb[t];
    var q := Drop(k.rdy[b.prio], t);
    k.(tcb := k.tcb[t := b.(state := SUSPENDED, suspendCtr := 1)], rdy := k.rdy[b.prio := q],
       prios := if q == [] then k.prios - {b.prio} else k.prios)
  }

  lemma SuspendReady(k: K, t: Tid)
    requires CoreInv(k) && Get(k, t).state == RDY
    ensures k.tcb[t].prio < |k.rdy| && SuspendTask(k, t) == Unreadied(k, t)
  {
    hide ReadyInv, WheelInv, WaitInv;
    TcbOkOf(k, t);
  }

  /** Suspending a blocked or suspended task. */
  function SuspendedTcb(b: Tcb): Tcb {
    if b.state.Live? && b.state.susp then b.(suspendCtr := (b.suspendCtr + 1) % 256)
    else if b.state.Live? then b.(state := Live(true, b.state.pend, b.state.dly), suspendCtr := 1)
    else b
  }

  lemma SuspendBlocked(k: K, t: Tid)
    requires Get(k, t).state.Live? && Get(k, t).state != RDY
    ensures SuspendTask(k, t) == Put(k, t, SuspendedTcb(Get(k, t)))
  {
  }

  // ------------------------------------------------------------------------ suspend and wake commute

  /** The state with a blocked task woken, in full. */
  function Woken(k: K, t: Tid, ev: Event): K
    requires t in k.tcb && k.tcb[t].prio < |k.rdy|
  {
    var b := k.tcb[t];
    k.(tcb := k.tcb[t := Finish(b, ev)], wait := UnlinkAll(k.wait, b.tbl, t), wheel := WheelDrop(k.wheel, b.spoke, t),
       rdy := if b.state.Live? && b.state.susp then k.rdy
         else k.rdy[b.prio := Enqueue(k.rdy[b.prio], t, b.prio == k.prioCur)],
       prios := if b.state.Live? && b.state.susp then k.prios else k.prios + {b.prio})
  }

  lemma WakeForm(k: K, t: Tid, ev: Event)
    requires t in k.tcb && Ends(ev, Get(k, t).state) && Get(k, t).prio < |k.rdy|
    ensures Wake(k, t, ev) == Woken(k, t, ev)
  {
  }

  /** The ready list of a woken task, with the task taken off again. */
  lemma SelfLists(k: K, b: Tcb, t: Tid, q: seq<Tid>)
    requires CoreInv(k) && t in k.tcb && b == k.tcb[t] && b.state.Live? && b.state != RDY && b.prio < |k.rdy|
    requires q == Enqueue(k.rdy[b.prio], t, b.prio == k.prioCur)
    ensures Drop(q, t) == k.rdy[b.prio] && k.rdy[b.prio := q][b.prio := Drop(q, t)] == k.rdy
    ensures (if Drop(q, t) == [] then k.prios + {b.prio} - {b.prio} else k.prios + {b.prio}) == k.prios
  {
    hide WheelInv, WaitInv, TcbInv;
    assert Count(k.rdy[b.prio], t) == if RdyAt(Get(k, t)) == b.prio then 1 else 0;
    DropEnqueue(k.rdy[b.prio], t, t, b.prio == k.prioCur);
    assert b.prio in k.prios <==> k.rdy[b.prio] != [];
  }

  lemma FinishSuspended(b: Tcb, ev: Event)
    requires Ends(ev, b.state) && !b.state.susp
    ensures Finish(SuspendedTcb(b), ev) == Finish(b, ev).(state := SUSPENDED, suspendCtr := 1)
    ensures Finish(b, ev).prio == b.prio && SuspendedTcb(b).prio == b.prio && SuspendedTcb(b).tbl == b.tbl
    ensures SuspendedTcb(b).spoke == b.spoke && SuspendedTcb(b).state.Live? && SuspendedTcb(b).state.susp
  {
  }

  lemma ReadiedLists(k: K, t: Tid, k1: K, k2: K, ev: Event)
    requires CoreInv(k) && t in k.tcb && k.tcb[t].prio < |k.rdy| && Ends(ev, k.tcb[t].state) && !k.tcb[t].state.susp
    requires k1 == Woken(k, t, ev) && k2 == Put(k, t, SuspendedTcb(k.tcb[t]))
    ensures Unreadied(k1, t) == Woken(k2, t, ev)
  {
    hide CoreInv, Enqueue, UnlinkAll, WheelDrop, Finish, SuspendedTcb;
    var b := k.tcb[t];
    FinishSuspended(b, ev);
    SelfLists(k, b, t, Enqueue(k.rdy[b.prio], t, b.prio == k.prioCur));
    assert Unreadied(k1, t).tcb == Woken(k2, t, ev).tcb;
    assert Unreadied(k1, t).rdy == Woken(k2, t, ev).rdy;
    assert Unreadied(k1, t).prios == Woken(k2, t, ev).prios;
  }

  lemma SuspendWakeReadied(k: K, t: Tid, ev: Event)
    requires CoreInv(k) && Ends(ev, Get(k, t).state) && !Get(k, t).state.susp
    ensures SuspendTask(Wake(k, t, ev), t) == Wake(SuspendTask(k, t), t, ev)
  {
    hide ReadyInv, WheelInv, WaitInv, TcbInv, Wake, SuspendTask;
    TcbOkOf(k, t);
    SuspendBlocked(k, t);
    WakeForm(k, t, ev);
    var k1, k2 := Woken(k, t, ev), Put(k, t, SuspendedTcb(k.tcb[t]));
    WakeForm(k2, t, ev);
    WakeKept(k, t, ev);
    SuspendReady(k1, t);
    ReadiedLists(k, t, k1, k2, ev);
  }

  lemma FinishTwice(b: Tcb, ev: Event)
    requires Ends(ev, b.state) && b.state.susp
    ensures Finish(SuspendedTcb(b), ev) == SuspendedTcb(Finish(b, ev))
    ensures Finish(b, ev).state.Live? && Finish(b, ev).state != RDY
    ensures SuspendedTcb(b).prio == b.prio && SuspendedTcb(b).tbl == b.tbl && SuspendedTcb(b).spoke == b.spoke
    ensures SuspendedTcb(b).state == b.state
  {
  }

  lemma SuspendWakeSelf(k: K, t: Tid, ev: Event)
    requires CoreInv(k) && Ends(ev, Get(k, t).state)
    ensures SuspendTask(Wake(k, t, ev), t) == Wake(SuspendTask(k, t), t, ev)
  {
    hide ReadyInv, WheelInv, WaitInv, TcbInv, Wake, SuspendTask;
    var b := Get(k, t);
    if b.state.susp {
      TcbOkOf(k, t);
      SuspendBlocked(k, t);
      WakeForm(k, t, ev);
      var k1 := Woken(k, t, ev);
      var k2 := Put(k, t, SuspendedTcb(b));
      WakeForm(k2, t, ev);
      SuspendBlocked(k1, t);
      FinishTwice(b, ev);
      hide Finish, SuspendedTcb, UnlinkAll, WheelDrop;
      assert Put(k1, t, SuspendedTcb(Get(k1, t))).tcb == Woken(k2, t, ev).tcb;
    } else {
      SuspendWakeReadied(k, t, ev);
    }
  }

  lemma SuspendWakeOther(k: K, t: Tid, x: Tid, ev: Event)
    requires CoreInv(k) && Ends(ev, Get(k, x).state) && x != t
    ensures SuspendTask(Wake(k, x, ev), t) == Wake(SuspendTask(k, t), x, ev)
  {
    hide ReadyInv, WheelInv, WaitInv, TcbInv;
    TcbOkOf(k, x);
    WakeForm(k, x, ev);
    var k1 := Wake(k, x, ev);
    var k2 := SuspendTask(k, t);
    if Get(k, t).state == RDY {
      OtherReady(k, t, x, ev);
    } else if Get(k, t).state.Live? {
      SuspendBlocked(k, t);
      SuspendBlocked(k1, t);
      WakeForm(k2, x, ev);
      assert SuspendTask(k1, t).tcb == Wake(k2, x, ev).tcb;
    }
  }

  lemma ReadyOnes(k: K, t: Tid)
    requires CoreInv(k) && Get(k, t).state == RDY
    ensures Get(k, t).prio < |k.rdy| && Get(k, t).prio in k.prios
  {
    hide WheelInv, WaitInv;
    ReadyListed(k, t);
  }

  lemma OtherReady(k: K, t: Tid, x: Tid, ev: Event)
    requires CoreInv(k) && Ends(ev, Get(k, x).state) && x != t && Get(k, t).state == RDY
    ensures SuspendTask(Wake(k, x, ev), t) == Wake(SuspendTask(k, t), x, ev)
  {
    hide ReadyInv, WheelInv, WaitInv, TcbInv, Wake, SuspendTask, Finish;
    TcbOkOf(k, x);
    TcbOkOf(k, t);
    WakeForm(k, x, ev);
    WakeKept(k, x, ev);
    SuspendReady(k, t);
    ReadyOnes(k, t);
    var k1, k2 := Woken(k, x, ev), Unreadied(k, t);
    SuspendReady(k1, t);
    WakeForm(k2, x, ev);
    OtherLists(k, t, x, k1, k2, ev);
  }

  lemma OtherLists(k: K, t: Tid, x: Tid, k1: K, k2: K, ev: Event)
    requires t in k.tcb && x in k.tcb && x != t && k.tcb[t].prio < |k.rdy| && k.tcb[x].prio < |k.rdy|
    requires k.tcb[t].prio in k.prios && k1 == Woken(k, x, ev) && k2 == Unreadied(k, t)
    ensures Unreadied(k1, t) == Woken(k2, x, ev)
  {
    hide Finish, Enqueue;
    var b := k.tcb[x];
    var p := k.tcb[t].prio;
    DropEnqueue(k.rdy[b.prio], t, x, b.prio == k.prioCur);
    EnqueueNonEmpty(Drop(k.rdy[b.prio], t), x, b.prio == k.prioCur);
    assert Unreadied(k1, t).tcb == Woken(k2, x, ev).tcb;
    assert Unreadied(k1, t).rdy == Woken(k2, x, ev).rdy;
    assert Unreadied(k1, t).prios == Woken(k2, x, ev).prios;
  }

  lemma EnqueueNonEmpty(q: seq<Tid>, x: Tid, atTail: bool)
    ensures Enqueue(q, x, atTail) != []
  {
  }

  /** Suspension commutes with taking a task off everything it waits on. */
  lemma SuspendThenWake(k: K, t: Tid, x: Tid, ev: Event)
    requires CoreInv(k)
    ensures SuspendTask(Wake(k, x, ev), t) == Wake(SuspendTask(k, t), x, ev)
  {
    hide CoreInv;
    if Ends(ev, Get(k, x).state) {
      if x == t {
        SuspendWakeSelf(k, t, ev);
      } else {
        SuspendWakeOther(k, t, x, ev);
      }
    } else {
      NoWake(k, t, x, ev);
    }
  }

  lemma NoWake(k: K, t: Tid, x: Tid, ev: Event)
    requires !Ends(ev, Get(k, x).state)
    ensures !Ends(ev, Get(SuspendTask(k, t), x).state)
  {
  }

  lemma {:induction false} SuspendCommutesWithWakeAll(k: K, t: Tid, ts: seq<Tid>, ev: Event)
    requires ListsInv(k)
    ensures SuspendTask(WakeAll(k, ts, ev), t) == WakeAll(SuspendTask(k, t), ts, ev)
    decreases |ts|
  {
    hide CoreInv, ObjInv, Wake, SuspendTask;
    if ts != [] {
      SuspendThenWake(k, t, ts[0], ev);
      WakeListsInv(k, ts[0], ev);
      SuspendCommutesWithWakeAll(Wake(k, ts[0], ev), t, ts[1..], ev);
    }
  }

  // ------------------------------------------------------------------------ suspend and tick commute

  lemma ExpireKind(k: K, t: Tid, x: Tid)
    ensures var k' := SuspendTask(k, t); var s := Get(k, x).state; var s' := Get(k', x).state;
      && (s.Live? <==> s'.Live?) && (s.Live? ==> s'.pend == s.pend && s'.dly == s.dly)
      && Get(k', x).due == Get(k, x).due && k'.now == k.now && k'.wheel == k.wheel
  {
  }

  lemma SuspendCommutesWithExpire(k: K, t: Tid, x: Tid)
    requires CoreInv(k)
    ensures SuspendTask(Expire(k, x), t) == Expire(SuspendTask(k, t), x)
  {
    hide CoreInv, Wake, SuspendTask;
    ExpireKind(k, t, x);
    SuspendThenWake(k, t, x, if Get(k, x).state.Live? && Get(k, x).state.pend then TimedOut else DelayOver);
  }

  lemma {:induction false} SuspendCommutesWithExpireAll(k: K, t: Tid, ts: seq<Tid>)
    requires ListsInv(k)
    ensures SuspendTask(ExpireAll(k, ts), t) == ExpireAll(SuspendTask(k, t), ts)
    decreases |ts|
  {
    hide CoreInv, ObjInv, Wake, SuspendTask, Expire;
    if ts != [] {
      SuspendCommutesWithExpire(k, t, ts[0]);
      ExpireKeepsInv(k, ts[0]);
      SuspendCommutesWithExpireAll(Expire(k, ts[0]), t, ts[1..]);
    }
  }

  lemma ExpireKeepsInv(k: K, t: Tid)
    requires ListsInv(k)
    ensures ListsInv(Expire(k, t))
  {
    hide CoreInv, ObjInv, Wake;
    WakeListsInv(k, t, if Get(k, t).state.Live? && Get(k, t).state.pend then TimedOut else DelayOver);
  }

  lemma {:induction false} SameDuePrefix(k: K, t: Tid, q: seq<Tid>, n: Tick)
    requires forall x: Tid :: Count(q, x) > 0 ==> x in k.tcb
    ensures DuePrefix(SuspendTask(k, t).tcb, q, n) == DuePrefix(k.tcb, q, n)
  {
    hide SuspendTask;
    if q != [] {
      assert Count(q, q[0]) > 0;
      ExpireKind(k, t, q[0]);
      forall x: Tid | Count(q[1..], x) > 0 ensures x in k.tcb {
        assert Count(q, x) > 0;
      }
      SuspendDomain(k, t, q[0]);
      SameDuePrefix(k, t, q[1..], n);
    }
  }

  lemma SuspendDomain(k: K, t: Tid, x: Tid)
    ensures x in SuspendTask(k, t).tcb <==> x in k.tcb
  {
  }

  lemma RdyRemoveIgnoresTime(k: K, t: Tid, n: Tick)
    ensures RdyRemove(k.(now := n), t) == RdyRemove(k, t).(now := n)
  {
  }

  lemma SuspendIgnoresTime(k: K, t: Tid, n: Tick)
    ensures SuspendTask(k.(now := n), t) == SuspendTask(k, t).(now := n)
  {
    hide RdyRemove;
    RdyRemoveIgnoresTime(Put(k, t, Get(k, t).(state := SUSPENDED, suspendCtr := 1)), t, n);
  }

  lemma SpokeMembers(k: K, i: nat)
    requires CoreInv(k) && i < |k.wheel|
    ensures forall x: Tid :: Count(k.wheel[i], x) > 0 ==> x in k.tcb
  {
    forall x: Tid | Count(k.wheel[i], x) > 0 ensures x in k.tcb {
      assert Count(k.wheel[i], x) == if Get(k, x).spoke == i then 1 else 0;
    }
  }

  /** A tick finds the same tasks due whether or not one of them has just been suspended. */
  lemma SuspendCommutesWithTick(k: K, t: Tid)
    requires ListsInv(k) && Get(k, t).suspendCtr < 255
    ensures SuspendTask(TickUpdate(k), t) == TickUpdate(SuspendTask(k, t))
  {
    hide ReadyInv, WaitInv, ObjInv, SuspendTask, TickUpdate, TcbInv, WheelInv, ExpireAll, DuePrefix;
    var n := Add32(k.now, 1);
    var k1 := SuspendTask(k, t);
    SuspendCore(k, t);
    ExpireKind(k, t, t);
    TickUpdateIs(k);
    TickUpdateIs(k1);
    var i := SpokeOf(n, |k.wheel|);
    SpokeMembers(k, i);
    SameDuePrefix(k, t, k.wheel[i], n);
    SuspendCommutesWithExpireAll(k, t, DuePrefix(k.tcb, k.wheel[i], n));
    SuspendIgnoresTime(ExpireAll(k, DuePrefix(k.tcb, k.wheel[i], n)), t, n);
  }

  lemma SuspendCore(k: K, t: Tid)
    requires CoreInv(k) && Get(k, t).suspendCtr < 255
    ensures CoreInv(SuspendTask(k, t))
  {
    hide ReadyInv, WaitInv, TcbInv, WheelInv;
    if t in k.tcb && k.tcb[t].state.Live? {
      SuspendKept(k, t);
    }
  }

  // ------------------------------------------------------------------------------- suspend and resume

  /** Resuming undoes suspending; a task that was ready goes to the place RdyInsert gives it. */
  lemma ResumeUndoesSuspend(k: K, t: Tid)
    requires CoreInv(k) && Get(k, t).state.Live? && Get(k, t).suspendCtr < 255
    ensures ResumeTask(SuspendTask(k, t), t) ==
      if Get(k, t).state == RDY then RdyInsert(RdyRemove(k, t), t) else k
  {
    hide ReadyInv, WheelInv, WaitInv, TcbInv;
    var b := k.tcb[t];
    TcbOkOf(k, t);
    hide SuspendTask, ResumeTask, RdyInsert, RdyRemove;
    if b.state == RDY {
      ResumeReadied(k, t);
    } else if b.state.susp {
      ResumeUndoesCount(k, t);
    } else {
      ResumeUndoesFirst(k, t);
    }
  }

  lemma ResumeUndoesCount(k: K, t: Tid)
    requires t in k.tcb && k.tcb[t].state.Live? && k.tcb[t].state.susp && 0 < k.tcb[t].suspendCtr < 255
    ensures ResumeTask(SuspendTask(k, t), t) == k
  {
    hide RdyInsert, WheelRemove;
    var b := k.tcb[t];
    CountDown(b.suspendCtr + 1);
    SuspendBlocked(k, t);
    assert k.tcb[t := SuspendedTcb(b)][t := b] == k.tcb;
  }

  lemma ResumeUndoesFirst(k: K, t: Tid)
    requires t in k.tcb && k.tcb[t].state.Live? && !k.tcb[t].state.susp && k.tcb[t].state != RDY
    requires k.tcb[t].suspendCtr == 0
    ensures ResumeTask(SuspendTask(k, t), t) == k
  {
    hide RdyInsert, WheelRemove;
    var b := k.tcb[t];
    CountDown(1);
    SuspendBlocked(k, t);
    assert k.tcb[t := SuspendedTcb(b)][t := b] == k.tcb;
  }

  lemma ResumeReadied(k: K, t: Tid)
    requires CoreInv(k) && t in k.tcb && k.tcb[t].state == RDY
    ensures ResumeTask(SuspendTask(k, t), t) == RdyInsert(RdyRemove(k, t), t)
  {
    hide ReadyInv, WheelInv, WaitInv, TcbInv;
    var b := k.tcb[t];
    TcbOkOf(k, t);
    CountDown(1);
    SuspendReady(k, t);
    var k1 := Unreadied(k, t);
    assert k1.tcb[t := b] == k.tcb;
    assert k1.tcb[t := b][t := b] == k.tcb;
    assert Put(k1, t, b) == RdyRemove(k, t);
    assert WheelRemove(Put(k1, t, b), t) == Put(k1, t, b);
    assert ResumeTask(k1, t) == RdyInsert(WheelRemove(Put(k1, t, b), t), t);
  }

  // ---------------------------------------------------------------------------- every kind of wake-up

  /** What the kernel does to a task when the event occurs: a post of flags has a routine of its own, OS_FlagTaskRdy. */
  function Happens(k: K, x: Tid, ev: Event): K {
    if ev.Flagged? then FlagReady(k, x, ev.flags) else Wake(k, x, ev)
  }

  /** The state after a flag wake-up of a task suspended with its timeout running, in full. */
  function FlaggedInWheel(k: K, x: Tid, f: Flags): K
    requires x in k.tcb
  {
    var b := k.tcb[x];
    k.(tcb := k.tcb[x := Finish(b, Flagged(f)).(spoke := b.spoke, due := b.due)], wait := UnlinkAll(k.wait, b.tbl, x))
  }

  lemma FlagReadyForm(k: K, x: Tid, f: Flags)
    requires Get(k, x).state == PEND_TIMEOUT_SUSPENDED
    ensures FlagReady(k, x, f) == FlaggedInWheel(k, x, f)
  {
    hide UnlinkAll, Finish;
    assert FlagReady(k, x, f).tcb == FlaggedInWheel(k, x, f).tcb;
  }

  lemma SuspendFlaggedSelf(k: K, t: Tid, f: Flags)
    requires Get(k, t).state == PEND_TIMEOUT_SUSPENDED
    ensures SuspendTask(FlagReady(k, t, f), t) == FlagReady(SuspendTask(k, t), t, f)
  {
    hide UnlinkAll;
    SuspendBlocked(k, t);
    FlagReadyForm(k, t, f);
    FlagReadyForm(SuspendTask(k, t), t, f);
    SuspendBlocked(FlaggedInWheel(k, t, f), t);
    assert SuspendTask(FlagReady(k, t, f), t).tcb == FlagReady(SuspendTask(k, t), t, f).tcb;
  }

  lemma SuspendFlaggedOther(k: K, t: Tid, x: Tid, f: Flags)
    requires Get(k, x).state == PEND_TIMEOUT_SUSPENDED && x != t
    ensures SuspendTask(FlagReady(k, x, f), t) == FlagReady(SuspendTask(k, t), x, f)
  {
    hide FlagReady, SuspendTask;
    SuspendedKind(k, t, x);
    FlagReadyForm(k, x, f);
    FlagReadyForm(SuspendTask(k, t), x, f);
    SuspendWithFlag(k, t, x, f);
  }

  lemma SuspendWithFlag(k: K, t: Tid, x: Tid, f: Flags)
    requires x in k.tcb && x != t
    ensures x in SuspendTask(k, t).tcb
    ensures SuspendTask(FlaggedInWheel(k, x, f), t) == FlaggedInWheel(SuspendTask(k, t), x, f)
  {
    hide UnlinkAll, Finish, RdyRemove;
    var k1 := FlaggedInWheel(k, x, f);
    SuspendDomain(k, t, x);
    if Get(k, t).state == RDY {
      RdyRemoveThenFlag(k, t, x, f);
    } else if Get(k, t).state.Live? {
      SuspendBlocked(k, t);
      SuspendBlocked(k1, t);
      assert SuspendTask(k1, t).tcb == FlaggedInWheel(SuspendTask(k, t), x, f).tcb;
    }
  }

  lemma RdyRemoveThenFlag(k: K, t: Tid, x: Tid, f: Flags)
    requires x in k.tcb && x != t
    ensures var b := Get(k, t).(state := SUSPENDED, suspendCtr := 1);
      RdyRemove(Put(FlaggedInWheel(k, x, f), t, b), t) == FlaggedInWheel(RdyRemove(Put(k, t, b), t), x, f)
  {
    hide UnlinkAll, Finish;
    var b := Get(k, t).(state := SUSPENDED, suspendCtr := 1);
    assert Put(FlaggedInWheel(k, x, f), t, b).tcb == FlaggedInWheel(Put(k, t, b), x, f).tcb;
  }

  /** A task suspended before the flags come keeps its place in the wheel, one suspended afterwards does not. */
  lemma SuspendFlaggedTimed(k: K, t: Tid, f: Flags)
    requires CoreInv(k) && Get(k, t).state == PEND_TIMEOUT
    ensures Get(SuspendTask(FlagReady(k, t, f), t), t).spoke == -1
    ensures Get(FlagReady(SuspendTask(k, t), t, f), t).spoke >= 0
  {
    hide ReadyInv, WheelInv, WaitInv, TcbInv, UnlinkAll;
    TcbOkOf(k, t);
    SuspendBlocked(k, t);
    FlagReadyForm(SuspendTask(k, t), t, f);
    SuspendWakeSelf(k, t, Flagged(f));
    WakenedCtr(SuspendTask(k, t), t, Flagged(f));
  }

  /** Suspension commutes with every wake-up, whoever is woken and whoever is suspended, but for one case: the flags
      that a task waits for with a timeout, when it is this task that is suspended. */
  lemma SuspendCommutesWithWake(k: K, t: Tid, x: Tid, ev: Event)
    requires CoreInv(k)
    ensures SuspendTask(Happens(k, x, ev), t) == Happens(SuspendTask(k, t), x, ev) <==>
      !(ev.Flagged? && x == t && Get(k, t).state == PEND_TIMEOUT)
  {
    hide CoreInv, SuspendTask, Wake;
    SuspendThenWake(k, t, x, ev);
    if ev.Flagged? {
      SuspendedKind(k, t, x);
      if Get(k, x).state == PEND_TIMEOUT_SUSPENDED {
        if x == t { SuspendFlaggedSelf(k, t, ev.flags); } else { SuspendFlaggedOther(k, t, x, ev.flags); }
      } else if x == t && Get(k, t).state == PEND_TIMEOUT {
        SuspendFlaggedTimed(k, t, ev.flags);
      }
    }
  }

  lemma SuspendedKind(k: K, t: Tid, x: Tid)
    ensures Get(SuspendTask(k, t), x).state == PEND_TIMEOUT_SUSPENDED <==>
      Get(k, x).state == PEND_TIMEOUT_SUSPENDED || (x == t && Get(k, x).state == PEND_TIMEOUT)
  {
    hide RdyRemove;
    RdyRemoveTcb(Put(k, t, Get(k, t).(state := SUSPENDED, suspendCtr := 1)), t);
  }

  /** The main theorem: for every blocked task and every event that ends its wait, suspend, event, resume leaves the
      whole kernel state as the event alone does: state, status, message, and every list. This includes the case in
      which the order matters: the resumption takes the task off the wheel. */
  lemma SuspensionIsOrthogonal(k: K, t: Tid, ev: Event)
    requires CoreInv(k) && Ends(ev, Get(k, t).state) && Get(k, t).suspendCtr < 255
    ensures ResumeTask(Happens(SuspendTask(k, t), t, ev), t) == Happens(k, t, ev)
  {
    hide CoreInv, SuspendTask, ResumeTask, Wake;
    SuspendedKind(k, t, t);
    if ev.Flagged? && Get(k, t).state == PEND_TIMEOUT {
      ResumeFlaggedTimed(k, t, ev.flags);
    } else if ev.Flagged? && Get(k, t).state == PEND_TIMEOUT_SUSPENDED {
      SuspendFlaggedSelf(k, t, ev.flags);
      ResumeFlaggedSuspended(k, t, ev.flags);
    } else {
      WakeOrthogonal(k, t, ev);
    }
  }

  lemma WakeOrthogonal(k: K, t: Tid, ev: Event)
    requires CoreInv(k) && Ends(ev, Get(k, t).state) && Get(k, t).suspendCtr < 255
    ensures ResumeTask(Wake(SuspendTask(k, t), t, ev), t) == Wake(k, t, ev)
  {
    hide CoreInv, SuspendTask, ResumeTask, Wake;
    SuspendThenWake(k, t, t, ev);
    WakeKept(k, t, ev);
    WakenedCtr(k, t, ev);
    ResumeUndoesSuspend(Wake(k, t, ev), t);
    if Get(Wake(k, t, ev), t).state == RDY {
      ReinsertedThere(k, t, ev);
    }
  }

  /** The suspended task was left in the wheel; resuming it takes it out. */
  lemma ResumeFlaggedTimed(k: K, t: Tid, f: Flags)
    requires CoreInv(k) && Get(k, t).state == PEND_TIMEOUT
    ensures ResumeTask(FlagReady(SuspendTask(k, t), t, f), t) == FlagReady(k, t, f)
  {
    hide ReadyInv, WheelInv, WaitInv, TcbInv, UnlinkAll, WheelDrop, Finish, ResumeTask, SuspendTask;
    TcbOkOf(k, t);
    SuspendBlocked(k, t);
    var k1 := Put(k, t, SuspendedTcb(k.tcb[t]));
    FlagReadyForm(k1, t, f);
    WakeForm(k, t, Flagged(f));
    TakenOut(k, t, f);
    ResumedOffWheel(FlaggedInWheel(k1, t, f), t);
  }

  /** The first suspension is undone, and the task is ready. */
  lemma ResumedOffWheel(k: K, t: Tid)
    requires Get(k, t).state == SUSPENDED && Get(k, t).suspendCtr == 1
    ensures ResumeTask(k, t) == RdyInsert(WheelRemove(Put(k, t, Get(k, t).(suspendCtr := 0, state := RDY)), t), t)
  {
    hide RdyInsert, WheelRemove;
    CountDown(1);
  }

  lemma TakenOut(k: K, t: Tid, f: Flags)
    requires t in k.tcb && k.tcb[t].state == PEND_TIMEOUT && k.tcb[t].prio < |k.rdy| && k.tcb[t].spoke >= 0
    requires k.tcb[t].suspendCtr == 0
    ensures var k2 := FlaggedInWheel(Put(k, t, SuspendedTcb(k.tcb[t])), t, f); var b := Get(k2, t);
      && b.state == SUSPENDED && b.suspendCtr == 1
      && RdyInsert(WheelRemove(Put(k2, t, b.(suspendCtr := 0, state := RDY)), t), t) == Woken(k, t, Flagged(f))
  {
    hide UnlinkAll, WheelDrop;
    var k2 := FlaggedInWheel(Put(k, t, SuspendedTcb(k.tcb[t])), t, f);
    var k3 := WheelRemove(Put(k2, t, Get(k2, t).(suspendCtr := 0, state := RDY)), t);
    assert k3.tcb == Woken(k, t, Flagged(f)).tcb;
  }

  lemma ResumeFlaggedSuspended(k: K, t: Tid, f: Flags)
    requires CoreInv(k) && Get(k, t).state == PEND_TIMEOUT_SUSPENDED && Get(k, t).suspendCtr < 255
    ensures ResumeTask(SuspendTask(FlagReady(k, t, f), t), t) == FlagReady(k, t, f)
  {
    hide ReadyInv, WheelInv, WaitInv, TcbInv, UnlinkAll, FlagReady, SuspendTask, ResumeTask;
    TcbOkOf(k, t);
    FlagReadyForm(k, t, f);
    ResumeUndoesCount(FlaggedInWheel(k, t, f), t);
  }

  lemma WakenedCtr(k: K, t: Tid, ev: Event)
    requires Ends(ev, Get(k, t).state)
    ensures Get(Wake(k, t, ev), t) == Finish(Get(k, t), ev)
    ensures Get(Wake(k, t, ev), t).state.Live? && Get(Wake(k, t, ev), t).suspendCtr == Get(k, t).suspendCtr
  {
  }

  /** Taking a task that has just been woken off its ready list and inserting it again changes nothing. */
  lemma ReinsertedThere(k: K, t: Tid, ev: Event)
    requires CoreInv(k) && Ends(ev, Get(k, t).state) && Get(Wake(k, t, ev), t).state == RDY
    ensures RdyInsert(RdyRemove(Wake(k, t, ev), t), t) == Wake(k, t, ev)
  {
    hide ReadyInv, WheelInv, WaitInv, TcbInv, Wake, UnlinkAll, WheelDrop;
    TcbOkOf(k, t);
    WakenedCtr(k, t, ev);
    WakeForm(k, t, ev);
    var b := k.tcb[t];
    var k1 := Woken(k, t, ev);
    var q := Enqueue(k.rdy[b.prio], t, b.prio == k.prioCur);
    SelfLists(k, b, t, q);
    assert k1.rdy[b.prio := Drop(q, t)][b.prio := q] == k1.rdy;
    assert RdyInsert(RdyRemove(k1, t), t).prios == k1.prios;
  }

  // ---------------------------------------------------------------------------------------- nesting

  function SuspendTimes(k: K, t: Tid, n: nat): K {
    if n == 0 then k else SuspendTask(SuspendTimes(k, t, n - 1), t)
  }

  function ResumeTimes(k: K, t: Tid, n: nat): K
    decreases n
  {
    if n == 0 then k else ResumeTimes(ResumeTask(k, t), t, n - 1)
  }

  lemma SuspendCounts(k: K, t: Tid)
    requires CoreInv(k) && Get(k, t).state.Live? && Get(k, t).suspendCtr < 255
    ensures var b := Get(SuspendTask(k, t), t);
      b.state.Live? && b.state.susp && b.suspendCtr == Get(k, t).suspendCtr + 1
  {
    hide ReadyInv, WheelInv, WaitInv, TcbInv, SuspendTask;
    TcbOkOf(k, t);
    if Get(k, t).state == RDY {
      SuspendReady(k, t);
    } else {
      SuspendBlocked(k, t);
    }
  }

  lemma {:induction false} SuspendTimesIs(k: K, t: Tid, n: nat)
    requires CoreInv(k) && Get(k, t).state.Live? && Get(k, t).suspendCtr + n <= 255
    ensures var k' := SuspendTimes(k, t, n);
      && CoreInv(k') && Get(k', t).state.Live? && Get(k', t).suspendCtr == Get(k, t).suspendCtr + n
      && (Get(k', t).state.susp <==> Get(k, t).suspendCtr + n > 0)
  {
    hide ReadyInv, WheelInv, WaitInv, TcbInv, SuspendTask;
    if n == 0 {
      TcbOkOf(k, t);
    } else {
      SuspendTimesIs(k, t, n - 1);
      SuspendCounts(SuspendTimes(k, t, n - 1), t);
      SuspendCore(SuspendTimes(k, t, n - 1), t);
    }
  }

  /** After n suspensions, m resumes leave n - m: the task runs again exactly when every suspension was undone. */
  lemma {:induction false} EverySuspensionNeedsAResume(k: K, t: Tid, n: nat, m: nat)
    requires CoreInv(k) && Get(k, t).state.Live? && Get(k, t).suspendCtr + n <= 255
    requires m < n || (m == n && Get(k, t).state != RDY)
    ensures ResumeTimes(SuspendTimes(k, t, n), t, m) == SuspendTimes(k, t, n - m)
    ensures Get(ResumeTimes(SuspendTimes(k, t, n), t, m), t).state.Live?
    ensures Get(ResumeTimes(SuspendTimes(k, t, n), t, m), t).state.susp <==> Get(k, t).suspendCtr + n > m
    decreases m
  {
    hide CoreInv, SuspendTask, ResumeTask;
    SuspendTimesIs(k, t, n - m);
    if m > 0 {
      SuspendTimesIs(k, t, n - 1);
      ResumeUndoesSuspend(SuspendTimes(k, t, n - 1), t);
      EverySuspensionNeedsAResume(k, t, n - 1, m - 1);
    }
  }
}
