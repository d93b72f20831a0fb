/** The calls after which the kernel's data no longer agree. Each lemma takes a sound state and a call outside the
    condition under which `ServicesKept` and its neighbours show the invariant kept, and shows it broken: together
    they say exactly when a service keeps the invariant (see `Run`).
  */
module Departures {
  import opened TaskLists
  import opened KernelState
  import opened KernelOps
  import opened CoreKept
  import opened ObjKept
  import opened WakeMany
  import opened Services
  import opened ServicesKept
  import opened FlagsMultiKept

  lemma SchedKeepsTcbs(k: K, noSched: bool)
    ensures SameLists(k, MaybeSched(k, noSched))
    ensures MaybeSched(k, noSched).idle == k.idle && MaybeSched(k, noSched).lock == k.lock
  {
  }

  /** A TCB whose parts contradict each other. */
  lemma BadTcb(k: K, t: Tid)
    requires t in k.tcb && !TcbOk(k.tcb[t], |k.rdy|, |k.wheel|, k.now)
    ensures !Inv(k)
  {
  }

  /** A delay until a tick count that has passed: OSTimeDly reports the error, but the caller, which goes on running,
      is left in state DLY and is in no spoke. */
  lemma TimeDlyBreaks(k: K, dly: Tick)
    requires Inv(k) && k.lock == 0 && Sub32(Sub32(dly, k.now), 1) > TICK_TH_RDY
    ensures var r := TimeDly(k, dly, OptMatch);
      !Inv(r.k) && r.err == ErrZeroDly && r.k.cur == k.cur && Get(r.k, k.cur).state == DLY && Get(r.k, k.cur).spoke == -1
  {
  }

  /** The 256th nested suspension: the counter is zero and the task suspended. */
  lemma SuspendBreaks(k: K, t: Tid)
    requires Inv(k) && t != k.idle && Get(k, t).state.Live? && Get(k, t).suspendCtr == 255
    ensures !Inv(TaskSuspend(k, t).k) && Get(TaskSuspend(k, t).k, t).suspendCtr == 0
  {
    TcbOkOf(k, t);
    SchedKeepsTcbs(SuspendTask(k, t), false);
    BadTcb(TaskSuspend(k, t).k, t);
  }

  /** The 256th nested acquisition: the mutex has an owner and is free. */
  lemma MutexPendBreaks(k: K, o: Oid, timeout: Tick, nonBlocking: bool)
    requires Inv(k) && Object(k, o).Mutex? && Object(k, o).owner == Some(k.cur) && Object(k, o).nest == 255
    ensures !Inv(MutexPend(k, o, timeout, nonBlocking).k)
  {
    var k' := MutexPend(k, o, timeout, nonBlocking).k;
    assert !ObjOk(k', o, k'.obj[o]);
  }

  /** OSTaskCreate does not ask whether the TCB is in use. It does no harm exactly when the TCB is on no list. */
  lemma TaskCreateExactly(k: K, t: Tid, prio: nat, qMax: nat)
    requires Inv(k) && t in k.tcb
    ensures Inv(TaskCreate(k, t, prio, qMax).k) <==>
      prio >= |k.rdy| || (prio == |k.rdy| - 1 && t != k.idle) || OffLists(k.tcb[t])
  {
    hide CoreInv, ObjInv, CurOk, Sched, RdyPut;
    if prio < |k.rdy| && (prio < |k.rdy| - 1 || t == k.idle) {
      if OffLists(k.tcb[t]) {
        TaskCreateInv(k, t, prio, qMax);
      } else {
        CreateInUseBreaks(k, t, NO_TCB.(state := RDY, prio := prio, taskQMax := qMax));
      }
    }
  }

  lemma CreateInUseBreaks(k: K, t: Tid, b: Tcb)
    requires Inv(k) && t in k.tcb && !OffLists(k.tcb[t]) && b.prio < |k.rdy|
    requires b == NO_TCB.(state := RDY, prio := b.prio, taskQMax := b.taskQMax)
    ensures !CoreInv(Sched(RdyPut(Put(k, t, b), t, true)))
  {
    hide ReadyInv, WheelInv, WaitInv, TcbInv, ObjInv, Sched;
    var k' := Sched(RdyPut(Put(k, t, b), t, true));
    SchedKeepsTcbs(RdyPut(Put(k, t, b), t, true), false);
    TcbOkOf(k, t);
    if k.tcb[t].state == RDY {
      ReadyTwice(k, t, b, k');
    } else {
      LinkedStill(k, t, b, k');
    }
  }

  lemma ReadyTwice(k: K, t: Tid, b: Tcb, k': K)
    requires ReadyInv(k) && Get(k, t).state == RDY && Get(k, t).prio < |k.rdy| && b.state == RDY && b.prio < |k.rdy|
    requires k'.tcb == k.tcb[t := b] && k'.rdy == k.rdy[b.prio := k.rdy[b.prio] + [t]]
    ensures !ReadyInv(k')
  {
    var p := Get(k, t).prio;
    CountCat(k.rdy[p], [t], t);
    assert Count(k.rdy[p], t) == 1;
    assert RdyAt(Get(k', t)) == b.prio;
    assert Count(k'.rdy[p], t) != if b.prio == p then 1 else 0;
  }

  lemma LinkedStill(k: K, t: Tid, b: Tcb, k': K)
    requires WheelInv(k) && WaitInv(k) && -1 <= Get(k, t).spoke < |k.wheel|
    requires Get(k, t).spoke >= 0 || Get(k, t).tbl != []
    requires k'.tcb == k.tcb[t := b] && k'.wheel == k.wheel && k'.wait == k.wait && b.spoke == -1 && b.tbl == []
    ensures !WheelInv(k') || !WaitInv(k')
  {
    hide Sorted;
    var a := Get(k, t);
    if a.spoke >= 0 {
      assert Count(k.wheel[a.spoke], t) == 1 && Get(k', t).spoke == -1;
    } else {
      var o := a.tbl[0].obj;
      assert Listed(a.tbl, o) && Count(k.wait[o], t) == 1 && !Listed(Get(k', t).tbl, o);
    }
  }

  /** Deleting the owner of a mutex leaves the mutex owned by a task that does not exist. */
  lemma DeleteOwnerBreaks(k: K, t: Tid, o: Oid)
    requires Inv(k) && t != k.idle && o in k.obj && k.obj[o].Mutex? && k.obj[o].owner == Some(t)
    ensures !Inv(TaskDel(k, t).k)
  {
    hide CoreInv, Sched;
    var b := NO_TCB.(prio := |k.rdy|);
    assert ObjOk(k, o, k.obj[o]);
    var k1 := if Get(k, t).state == RDY then RdyRemove(k, t)
      else if Get(k, t).state == SUSPENDED then k
      else if !Get(k, t).state.pend || NoObject(Get(k, t).pendOn) then WheelRemove(k, t)
      else Unlink(WheelRemove(k, t), t);
    var k2 := Put(k1, t, b);
    SchedKeepsTcbs(k2, false);
    assert !ObjOk(Sched(k2), o, k.obj[o]);
  }

  /** Deleting oneself while the scheduler is locked leaves a deleted task running. */
  lemma DeleteSelfLockedBreaks(k: K)
    requires Inv(k) && k.cur != k.idle && k.lock > 0
    ensures !Inv(TaskDel(k, k.cur).k)
  {
  }

  lemma SleepTcb(k: K, t: Tid, b: Tcb)
    ensures Sleep(k, t, b).tcb == k.tcb[t := b]
    ensures |Sleep(k, t, b).rdy| == |k.rdy| && |Sleep(k, t, b).wheel| == |k.wheel| && Sleep(k, t, b).now == k.now
  {
  }

  /** A multi-pend that blocks on one object through two entries. */
  lemma MultiPendBreaks(k: K, tbl: seq<PendData>, timeout: Tick, nonBlocking: bool)
    requires Inv(k) && MultiBlocks(k, tbl, nonBlocking) && !Distinct(tbl)
    ensures !Inv(MultiPend(k, tbl, timeout, nonBlocking).k)
  {
    hide CoreInv, ObjInv, Sleep, Sched, MaybeSched, BlockedTcb, TakeReady, MultiValid;
    NoneReady(k, tbl);
    var got := TakeReady(k.obj, tbl).1;
    NothingReady(k, tbl);
    var b := BlockedTcb(Get(k, k.cur), OnMulti, got, timeout, k.now, |k.wheel|);
    SleepTcb(k, k.cur, b);
    BlockedTbl(Get(k, k.cur), OnMulti, got, timeout, k.now, |k.wheel|);
    ScheduledBad(Sleep(k, k.cur, b), k.cur);
  }

  lemma BlockedTbl(b: Tcb, on: PendOn, tbl: seq<PendData>, timeout: Tick, now: Tick, size: nat)
    ensures BlockedTcb(b, on, tbl, timeout, now, size).tbl == tbl
  {
  }

  lemma ScheduledBad(k: K, t: Tid)
    requires t in k.tcb && !TcbOk(k.tcb[t], |k.rdy|, |k.wheel|, k.now)
    ensures !Inv(Sched(k))
  {
    SchedKeepsTcbs(k, false);
    BadTcb(Sched(k), t);
  }

  // ------------------------------------------------------------------------------------- event flags

  /** The TCB of a task woken by a post of flags. Unlike the other ways to wake a task, a task that is suspended with
      its timeout running keeps its place in the tick wheel. */
  function FlagWoken(b: Tcb, flags: Flags): Tcb {
    var ev := Flagged(FlagBits(b.flagsMode, flags, b.flagsPend));
    if b.state == PEND_TIMEOUT_SUSPENDED then Finish(b, ev).(spoke := b.spoke, due := b.due) else Finish(b, ev)
  }

  lemma FlagStepAt(k: K, t: Tid, flags: Flags, x: Tid)
    requires Get(k, t).state.Live? && Get(k, t).state.pend
    ensures Get(FlagStep(k, t, flags), x) ==
      if x == t && MetBy(Get(k, t), flags) then FlagWoken(Get(k, t), flags) else Get(k, x)
  {
  }

  /** OS_FlagPost makes ready exactly the waiters whose condition holds on the new flags, and reports to each the bits
      that made it ready. */
  lemma {:induction false} FlagReadyAllAt(k: K, ts: seq<Tid>, flags: Flags, x: Tid)
    requires forall y: Tid :: Count(ts, y) > 0 ==> Count(ts, y) == 1 && Get(k, y).state.Live? && Get(k, y).state.pend
    ensures Get(FlagReadyAll(k, ts, flags), x) ==
      if Count(ts, x) > 0 && MetBy(Get(k, x), flags) then FlagWoken(Get(k, x), flags) else Get(k, x)
    decreases |ts|
  {
    hide Wake, Unlink, FlagReady, MetBy, FlagWoken;
    if ts != [] {
      var t := ts[0];
      assert Count(ts, t) > 0;
      var k1 := FlagStep(k, t, flags);
      FlagStepAt(k, t, flags, x);
      forall y: Tid | Count(ts[1..], y) > 0 ensures Count(ts[1..], y) == 1 && Get(k1, y) == Get(k, y) {
        assert Count(ts, y) > 0;
        FlagStepAt(k, t, flags, y);
      }
      FlagReadyAllAt(k1, ts[1..], flags, x);
    }
  }

  lemma WaitersOnce(k: K, o: Oid)
    requires ListsInv(k)
    ensures forall y: Tid :: Count(Waiters(k, o), y) > 0 ==>
      Count(Waiters(k, o), y) == 1 && Get(k, y).state.Live? && Get(k, y).state.pend
  {
    forall y: Tid | Count(Waiters(k, o), y) > 0
      ensures Count(Waiters(k, o), y) == 1 && Get(k, y).state.Live? && Get(k, y).state.pend
    {
      WaiterPends(k, y, o);
      assert Count(k.wait[o], y) == if Listed(Get(k, y).tbl, o) then 1 else 0;
    }
  }

  lemma FlagPostWakesExactlyTheMet(k: K, o: Oid, bits: Flags, set': bool, noSched: bool, x: Tid)
    requires ListsInv(k) && Object(k, o).FlagGrp?
    ensures var flags := PostedFlags(Object(k, o).flags, bits, set'); var k' := FlagPost(k, o, bits, set', noSched).k;
      Get(k', x) == if Listed(Get(k, x).tbl, o) && MetBy(Get(k, x), flags) then FlagWoken(Get(k, x), flags) else Get(k, x)
  {
    hide CoreInv, ObjInv, FlagWoken, MetBy, Sched, FlagReadyAll, Listed, PostedFlags;
    var flags := PostedFlags(Object(k, o).flags, bits, set');
    var k1 := SetObj(k, o, FlagGrp(flags));
    var w := Waiters(k, o);
    WaitersOnce(k, o);
    assert forall y: Tid :: Get(k1, y) == Get(k, y);
    FlagReadyAllAt(k1, w, flags, x);
    InList(k, o, x);
    SchedKeepsTcbs(FlagReadyAll(k1, w, flags), noSched);
  }

  lemma InList(k: K, o: Oid, x: Tid)
    requires ListsInv(k)
    ensures Count(Waiters(k, o), x) == if Listed(Get(k, x).tbl, o) then 1 else 0
  {
    assert Listed(Get(k, x).tbl, o) ==> o in k.wait;
    assert o in k.wait ==> Count(k.wait[o], x) == if Listed(Get(k, x).tbl, o) then 1 else 0;
  }

  /** The tasks of ts whose condition does not hold on the flags, in order. */
  function Unmet(k: K, ts: seq<Tid>, flags: Flags): seq<Tid> {
    if ts == [] then []
    else (if MetBy(Get(k, ts[0]), flags) then [] else [ts[0]]) + Unmet(k, ts[1..], flags)
  }

  lemma {:induction false} SameUnmet(k: K, k': K, ts: seq<Tid>, flags: Flags)
    requires forall x: Tid :: Count(ts, x) > 0 ==> Get(k', x) == Get(k, x)
    ensures Unmet(k', ts, flags) == Unmet(k, ts, flags)
  {
    hide MetBy;
    if ts != [] {
      assert Count(ts, ts[0]) > 0;
      forall x: Tid | Count(ts[1..], x) > 0 ensures Get(k', x) == Get(k, x) {
        assert Count(ts, x) > 0;
      }
      SameUnmet(k, k', ts[1..], flags);
    }
  }

  lemma {:induction false} DropBetween(pre: seq<Tid>, t: Tid, rest: seq<Tid>)
    requires Count(pre, t) == 0
    ensures Drop(pre + ([t] + rest), t) == pre + rest
  {
    hide Drop;
    var q := [t] + rest;
    if pre == [] {
      assert pre + q == q && pre + rest == rest;
      DropHead(t, rest, t);
    } else {
      var x, more := pre[0], pre[1..];
      assert pre == [x] + more;
      assert pre + q == [x] + (more + q);
      DropBetween(more, t, rest);
      DropHead(x, more + q, t);
      assert [x] + (more + rest) == pre + rest;
    }
  }

  lemma DropHead(x: Tid, q: seq<Tid>, t: Tid)
    ensures Drop([x] + q, t) == if x == t then q else [x] + Drop(q, t)
  {
    assert ([x] + q)[1..] == q;
  }

  /** Each of the tasks waits, once, and for the flags of o only. */
  ghost predicate WaitOnly(k: K, ts: seq<Tid>, o: Oid) {
    forall x: Tid :: Count(ts, x) > 0 ==> Count(ts, x) == 1 && WaitsFlag(Get(k, x), o)
  }

  predicate WaitsFlag(b: Tcb, o: Oid) {
    b.state.Live? && b.state.pend && |b.tbl| == 1 && b.tbl[0].obj == o
  }

  lemma FlagStepLists(k: K, t: Tid, flags: Flags, o: Oid)
    requires o in k.wait && WaitsFlag(Get(k, t), o)
    ensures FlagStep(k, t, flags).wait == if MetBy(Get(k, t), flags) then k.wait[o := Drop(k.wait[o], t)] else k.wait
  {
    hide FlagMet, FlagBits;
    var b := Get(k, t);
    assert b.tbl[1..] == [];
    assert UnlinkAll(k.wait, b.tbl, t) == k.wait[o := Drop(k.wait[o], t)];
  }

  /** The walk takes the tasks whose condition holds off the list and leaves the others where they are. */
  lemma {:induction false} FlagReadyAllLeaves(k: K, pre: seq<Tid>, ts: seq<Tid>, flags: Flags, o: Oid)
    requires o in k.wait && k.wait[o] == pre + ts && WaitOnly(k, ts, o)
    requires forall x: Tid :: Count(ts, x) > 0 ==> Count(pre, x) == 0
    ensures Waiters(FlagReadyAll(k, ts, flags), o) == pre + Unmet(k, ts, flags)
    decreases |ts|
  {
    hide FlagStep, FlagReady, MetBy, FlagWoken, WaitsFlag;
    if ts != [] {
      var t, rest := ts[0], ts[1..];
      assert Count(ts, t) > 0;
      var k1 := FlagStep(k, t, flags);
      var pre1 := if MetBy(Get(k, t), flags) then pre else pre + [t];
      FlagStepLists(k, t, flags, o);
      assert ts == [t] + rest && pre + ts == (pre + [t]) + rest;
      DropBetween(pre, t, rest);
      forall x: Tid | Count(rest, x) > 0
        ensures Count(rest, x) == 1 && Get(k1, x) == Get(k, x) && Count(pre1, x) == 0 && WaitsFlag(Get(k, x), o)
      {
        assert Count(ts, x) > 0;
        WaitsPend(Get(k, t), o);
        FlagStepAt(k, t, flags, x);
        CountCat(pre, [t], x);
      }
      SameUnmet(k, k1, rest, flags);
      FlagReadyAllLeaves(k1, pre1, rest, flags, o);
      StepIs(k, t, flags);
      assert pre1 + Unmet(k, rest, flags) == pre + Unmet(k, ts, flags);
    }
  }

  lemma WaitsPend(b: Tcb, o: Oid)
    requires WaitsFlag(b, o)
    ensures b.state.Live? && b.state.pend
  {
  }

  lemma StepIs(k: K, t: Tid, flags: Flags)
    ensures var b := Get(k, t); var rdy := FlagBits(b.flagsMode, flags, b.flagsPend);
      FlagStep(k, t, flags) == if FlagMet(b.flagsMode, flags, b.flagsPend) then FlagReady(k, t, rdy) else k
  {
  }

  lemma FlagWaitersOnly(k: K, o: Oid)
    requires ListsInv(k) && Object(k, o).FlagGrp?
    ensures o in k.wait && WaitOnly(k, Waiters(k, o), o)
  {
    hide ReadyInv, WheelInv;
    assert o in k.obj && o in k.wait;
    forall x: Tid | Count(Waiters(k, o), x) > 0 ensures Count(Waiters(k, o), x) == 1 && WaitsFlag(Get(k, x), o) {
      WaiterPends(k, x, o);
      InList(k, o, x);
      TcbOkOf(k, x);
    }
  }

  /** After a post the pend list holds, in their old order, exactly the waiters whose condition does not hold. */
  lemma FlagPostLeavesTheUnmet(k: K, o: Oid, bits: Flags, set': bool, noSched: bool)
    requires ListsInv(k) && Object(k, o).FlagGrp?
    ensures var flags := PostedFlags(Object(k, o).flags, bits, set');
      Waiters(FlagPost(k, o, bits, set', noSched).k, o) == Unmet(k, Waiters(k, o), flags)
  {
    hide CoreInv, ObjInv, MetBy, Sched, FlagReadyAll, WaitsFlag, PostedFlags;
    var flags := PostedFlags(Object(k, o).flags, bits, set');
    var k1 := SetObj(k, o, FlagGrp(flags));
    var w := Waiters(k, o);
    FlagWaitersOnly(k, o);
    assert forall x: Tid :: Get(k1, x) == Get(k, x);
    assert [] + w == w;
    FlagReadyAllLeaves(k1, [], w, flags, o);
    SameUnmet(k, k1, w, flags);
    SchedKeepsTcbs(FlagReadyAll(k1, w, flags), noSched);
  }

  /** A flag wake-up of a task that is suspended with its timeout running leaves it in the tick wheel although its
      state says it is not delayed. */
  lemma FlagPostBreaks(k: K, o: Oid, bits: Flags, set': bool, noSched: bool)
    requires Inv(k) && Object(k, o).FlagGrp?
    requires !WakesClean(k, Waiters(k, o), PostedFlags(Object(k, o).flags, bits, set'))
    ensures !Inv(FlagPost(k, o, bits, set', noSched).k)
  {
    var flags := PostedFlags(Object(k, o).flags, bits, set');
    var t: Tid :| Count(Waiters(k, o), t) > 0 && MetBy(Get(k, t), flags) && Get(k, t).state == PEND_TIMEOUT_SUSPENDED;
    InList(k, o, t);
    FlagPostWakesExactlyTheMet(k, o, bits, set', noSched, t);
    StuckInWheel(k, t, flags, FlagPost(k, o, bits, set', noSched).k);
  }

  lemma StuckInWheel(k: K, t: Tid, flags: Flags, k': K)
    requires Inv(k) && Get(k, t).state == PEND_TIMEOUT_SUSPENDED && Get(k', t) == FlagWoken(Get(k, t), flags)
    ensures !Inv(k')
  {
    TcbOkOf(k, t);
    BadTcb(k', t);
  }
}
