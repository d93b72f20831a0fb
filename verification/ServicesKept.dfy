/** Each service keeps the invariant, under the condition stated in its lemma. */
module ServicesKept {
  import opened TaskLists
  import opened KernelState
  import opened KernelOps
  import opened ListMoves
  import opened CoreKept
  import opened ObjKept
  import opened WakeMany
  import opened Services

  // ----------------------------------------------------------------------------- sleeping and waking

  /** Scheduling after a step that leaves the idle task ready, and the current task too if no switch may happen. */
  lemma SchedInv(k: K, noSched: bool)
    requires ListsInv(k) && Get(k, k.idle).state == RDY
    requires (noSched || k.lock > 0) ==> Get(k, k.cur).state == RDY
    ensures Inv(MaybeSched(k, noSched))
  {
    if !noSched {
      SchedPicksHighest(k);
    }
  }

  /** After a task other than the idle task has gone to sleep, and before the scheduler runs. */
  lemma SleepLists(k: K, b: Tcb)
    requires Inv(k) && k.cur != k.idle && CanSleep(k, k.cur, b) && EntersAllowed(k, k.cur, b)
    ensures ListsInv(Sleep(k, k.cur, b)) && Get(Sleep(k, k.cur, b), k.idle).state == RDY
    ensures Sleep(k, k.cur, b).idle == k.idle && Sleep(k, k.cur, b).lock == k.lock
  {
    hide ReadyInv, WheelInv, WaitInv, TcbInv, Sleep;
    SleepKept(k, k.cur, b);
    ObjStays(k, k.cur, Sleep(k, k.cur, b));
  }

  lemma SleepInv(k: K, b: Tcb)
    requires Inv(k) && k.lock == 0 && k.cur != k.idle && CanSleep(k, k.cur, b) && EntersAllowed(k, k.cur, b)
    ensures Inv(Sched(Sleep(k, k.cur, b)))
  {
    hide Sleep, Sched, CanSleep, EntersAllowed, CoreInv, ObjInv;
    SleepLists(k, b);
    SchedInv(Sleep(k, k.cur, b), false);
  }

  /** The table fits what the task pends on. */
  predicate TableOk(on: PendOn, tbl: seq<PendData>) {
    && on != OnNothing && (NoObject(on) ==> tbl == []) && (OneObject(on) ==> |tbl| == 1)
    && (on == OnMulti ==> tbl != []) && Distinct(tbl) && Unmarked(tbl)
  }

  /** A timeout or delay of at least one tick puts the due time in the future. */
  lemma DueLater(now: Tick, prev: Tick, time: Tick, opt: TimeOpt)
    ensures DueTime(now, prev, time, opt).Some? ==> DueTime(now, prev, time, opt).value != now
    ensures DueTime(now, prev, time, opt) == None <==>
      (if opt == OptMatch then Sub32(Sub32(time, now), 1) > TICK_TH_RDY else time == 0)
  {
  }

  /** A task has nothing of its own to take when it starts to wait for that. */
  predicate NoneOwn(on: PendOn, b: Tcb) {
    (on == OnTaskSem ==> b.semCtr == 0) && (on == OnTaskQ ==> b.taskQ == [])
  }

  lemma BlockLists(k: K, on: PendOn, tbl: seq<PendData>, timeout: Tick)
    requires Inv(k) && k.cur != k.idle && TableOk(on, tbl) && NoneOwn(on, Get(k, k.cur))
    requires forall o: Oid :: Listed(tbl, o) ==> o in k.wait && KindOk(on, Object(k, o)) && MayWait(k, o, k.cur)
    ensures var k' := Block(k, k.cur, on, tbl, timeout);
      ListsInv(k') && Get(k', k'.idle).state == RDY && k'.lock == k.lock
  {
    hide ReadyInv, WaitInv, TcbInv, ObjInv, Sleep;
    var b := Get(k, k.cur);
    DueLater(k.now, b.prev, timeout, OptTimeout);
    TcbOkOf(k, k.cur);
    SleepLists(k, BlockedTcb(b, on, tbl, timeout, k.now, |k.wheel|));
  }

  lemma BlockInv(k: K, on: PendOn, tbl: seq<PendData>, timeout: Tick, nonBlocking: bool)
    requires Inv(k) && k.cur != k.idle && TableOk(on, tbl) && NoneOwn(on, Get(k, k.cur))
    requires forall o: Oid :: Listed(tbl, o) ==> o in k.wait && KindOk(on, Object(k, o)) && MayWait(k, o, k.cur)
    ensures Inv(BlockCur(k, on, tbl, timeout, nonBlocking).k)
  {
    hide CoreInv, ObjInv, Block, Sched, TableOk;
    if !nonBlocking && k.lock == 0 {
      BlockLists(k, on, tbl, timeout);
      SchedInv(Block(k, k.cur, on, tbl, timeout), false);
    }
  }

  lemma EntryOk(k: K, on: PendOn, o: Oid)
    requires ListsInv(k) && OneObject(on) && KindOk(on, Object(k, o)) && MayWait(k, o, k.cur)
    ensures TableOk(on, Entry(o))
    ensures forall x: Oid :: Listed(Entry(o), x) ==> x in k.wait && KindOk(on, Object(k, x)) && MayWait(k, x, k.cur)
  {
    assert forall x: Oid :: Listed(Entry(o), x) ==> x == o;
  }

  lemma WakeInv(k: K, t: Tid, ev: Event, noSched: bool)
    requires Inv(k)
    ensures Inv(MaybeSched(Wake(k, t, ev), noSched))
  {
    WakeListsInv(k, t, ev);
    SchedInv(Wake(k, t, ev), noSched);
  }

  lemma WakeSomeInv(k: K, o: Oid, all: bool, ev: Event, noSched: bool)
    requires Inv(k) && Waiters(k, o) != [] && !ev.DelayOver?
    ensures Inv(MaybeSched(WakeAll(k, if all then Waiters(k, o) else Waiters(k, o)[..1], ev), noSched))
  {
    FirstAmong(k, o);
    var ts := if all then k.wait[o] else k.wait[o][..1];
    WakeAllListsInv(k, ts, o, ev);
    SchedInv(WakeAll(k, ts, ev), noSched);
  }

  // ------------------------------------------------------------------------------------------- tasks

  /** A step that changes one task only. */
  lemma OneTaskInv(k: K, t: Tid, k': K)
    requires Inv(k) && Kept(k, t, k') && EntersAllowed(k, t, Get(k', t))
    requires Get(k', t).state != Deleted || !IsOwner(k, t)
    requires (t == k.idle || (t == k.cur && k.lock > 0)) ==> Get(k', t).state == RDY
    ensures Inv(Sched(k'))
    ensures (t == k.idle || t == k.cur ==> Get(k', t).state == RDY) ==> Inv(k')
  {
    hide CoreInv, Sched;
    ObjStays(k, t, k');
    SchedInv(k', false);
  }

  /** The TCB is linked into no list. */
  predicate OffLists(b: Tcb) {
    b.state != RDY && b.spoke == -1 && b.tbl == []
  }

  lemma UnusedOffLists(k: K, t: Tid)
    requires CoreInv(k) && t in k.tcb && k.tcb[t].state == Deleted
    ensures OffLists(k.tcb[t])
  {
    hide ReadyInv, WheelInv, WaitInv;
    TcbOkOf(k, t);
  }

  lemma TaskCreateInv(k: K, t: Tid, prio: nat, qMax: nat)
    requires Inv(k) && t in k.tcb && OffLists(k.tcb[t])
    ensures Inv(TaskCreate(k, t, prio, qMax).k)
  {
    hide ReadyInv, WheelInv, WaitInv, TcbInv, Sched;
    if prio < |k.rdy| && (prio < |k.rdy| - 1 || t == k.idle) {
      var b := NO_TCB.(state := RDY, prio := prio, taskQMax := qMax);
      TcbOkOf(k, t);
      RdyPutKept(k, t, b, true);
      OneTaskInv(k, t, RdyPut(Put(k, t, b), t, true));
    }
  }

  /** Outside the ready list, the task is on the lists its TCB names. */
  lemma RemoveKept(k: K, t: Tid, b: Tcb)
    requires CoreInv(k) && t in k.tcb && k.tcb[t].state != RDY
    requires b.state == Deleted && b.spoke == -1 && b.tbl == [] && TcbOk(b, |k.rdy|, |k.wheel|, k.now)
    ensures Kept(k, t, Put(Unlink(WheelRemove(k, t), t), t, b))
  {
    hide ReadyInv, WheelInv, WaitInv, TcbInv;
    var k' := Put(Unlink(WheelRemove(k, t), t), t, b);
    var a := k.tcb[t];
    TcbOkOf(k, t);
    assert k'.tcb == k.tcb[t := b];
    UnlinkAllAt(k.wait, a.tbl, t, 0);
    ReadyStays(k, t, k');
    if a.spoke >= 0 {
      WheelLeaves(k, t, k', a.spoke);
    } else {
      WheelStays(k, t, k');
    }
    WaitLeaves(k, t, k');
    TcbStays(k, t, k');
  }

  /** The cases of OSTaskDel come to the same: a task that is on a list is taken off it. */
  lemma TaskDelIs(k: K, t: Tid)
    requires CoreInv(k) && t in k.tcb && t != k.idle && k.tcb[t].state.Live? && k.tcb[t].state != RDY
    ensures TaskDel(k, t).k == Sched(Put(Unlink(WheelRemove(k, t), t), t, NO_TCB.(prio := |k.rdy|)))
  {
    hide ReadyInv, WheelInv, WaitInv, TcbInv, Sched;
    var a := k.tcb[t];
    var b := NO_TCB.(prio := |k.rdy|);
    TcbOkOf(k, t);
    var k2 := Put(Unlink(WheelRemove(k, t), t), t, b);
    assert k2.tcb == k.tcb[t := b];
    assert Put(k, t, b).tcb == k.tcb[t := b];
    assert Put(WheelRemove(k, t), t, b).tcb == k.tcb[t := b];
  }

  lemma TaskDelInv(k: K, t: Tid)
    requires Inv(k) && !IsOwner(k, t) && (t == k.cur ==> k.lock == 0)
    ensures Inv(TaskDel(k, t).k)
  {
    hide ReadyInv, WheelInv, WaitInv, TcbInv;
    if t != k.idle && Get(k, t).state != Deleted {
      var b := NO_TCB.(prio := |k.rdy|);
      if k.tcb[t].state == RDY {
        RdyRemoveKept(k, t, b);
        OneTaskInv(k, t, Put(RdyRemove(k, t), t, b));
      } else {
        TaskDelIs(k, t);
        RemoveKept(k, t, b);
        OneTaskInv(k, t, Put(Unlink(WheelRemove(k, t), t), t, b));
      }
    }
  }

  lemma SuspendKept(k: K, t: Tid)
    requires CoreInv(k) && t in k.tcb && k.tcb[t].state.Live? && k.tcb[t].suspendCtr < 255
    ensures Kept(k, t, SuspendTask(k, t))
    ensures Get(SuspendTask(k, t), t).state.Live? && Get(SuspendTask(k, t), t).tbl == k.tcb[t].tbl
  {
    hide ReadyInv, WheelInv, WaitInv, TcbInv;
    var b := k.tcb[t];
    TcbOkOf(k, t);
    if b.state == RDY {
      var b' := b.(state := SUSPENDED, suspendCtr := 1);
      RdyRemoveKept(k, t, b');
      assert SuspendTask(k, t) == Put(RdyRemove(k, t), t, b');
    } else {
      PutKept(k, t, Get(SuspendTask(k, t), t));
    }
  }

  lemma TaskSuspendInv(k: K, t: Tid)
    requires Inv(k) && Get(k, t).suspendCtr < 255
    ensures Inv(TaskSuspend(k, t).k)
  {
    hide ReadyInv, WheelInv, WaitInv, TcbInv, Sched, SuspendTask;
    if t != k.idle && Get(k, t).state != Deleted && (t != k.cur || k.lock == 0) {
      SuspendKept(k, t);
      OneTaskInv(k, t, SuspendTask(k, t));
    }
  }

  lemma CountDown(n: nat)
    requires 0 < n < 256
    ensures (n + 255) % 256 == n - 1
  {
  }

  /** The last resume of a task that waits for nothing. */
  lemma ResumeReadies(k: K, t: Tid)
    requires CoreInv(k) && t in k.tcb && k.tcb[t].state == SUSPENDED && k.tcb[t].suspendCtr == 1
    ensures Kept(k, t, ResumeTask(k, t)) && Get(ResumeTask(k, t), t) == k.tcb[t].(state := RDY, suspendCtr := 0)
  {
    hide ReadyInv, WheelInv, WaitInv, TcbInv;
    var b := k.tcb[t];
    var b' := b.(state := RDY, suspendCtr := 0);
    TcbOkOf(k, t);
    var k1 := Put(k, t, b');
    assert WheelRemove(k1, t) == k1 by {
      assert k.tcb[t := b'][t := b'] == k.tcb[t := b'];
    }
    assert ResumeTask(k, t) == RdyPut(k1, t, b.prio == k.prioCur);
    RdyPutKept(k, t, b', b.prio == k.prioCur);
  }

  /** Any other resume. */
  lemma ResumeCounts(k: K, t: Tid)
    requires CoreInv(k) && t in k.tcb && k.tcb[t].state.Live? && k.tcb[t].state.susp
    requires k.tcb[t].suspendCtr != 1 || k.tcb[t].state != SUSPENDED
    ensures Kept(k, t, ResumeTask(k, t))
    ensures Get(ResumeTask(k, t), t).tbl == k.tcb[t].tbl && Get(ResumeTask(k, t), t).state.Live?
  {
    hide ReadyInv, WheelInv, WaitInv, TcbInv, RdyInsert, WheelRemove;
    var b := k.tcb[t];
    TcbOkOf(k, t);
    CountDown(b.suspendCtr);
    var n := b.suspendCtr - 1;
    var b' := b.(suspendCtr := n, state := if n == 0 then Live(false, b.state.pend, b.state.dly) else b.state);
    assert ResumeTask(k, t) == Put(k, t, b');
    PutKept(k, t, b');
  }

  lemma ResumeKept(k: K, t: Tid)
    requires CoreInv(k) && t in k.tcb && k.tcb[t].state.Live? && k.tcb[t].state.susp
    ensures Kept(k, t, ResumeTask(k, t))
    ensures Get(ResumeTask(k, t), t).tbl == k.tcb[t].tbl && Get(ResumeTask(k, t), t).state.Live?
  {
    hide CoreInv, Kept, ResumeTask;
    if k.tcb[t].suspendCtr == 1 && k.tcb[t].state == SUSPENDED {
      ResumeReadies(k, t);
    } else {
      ResumeCounts(k, t);
    }
  }

  lemma TaskResumeInv(k: K, t: Tid)
    requires Inv(k)
    ensures Inv(TaskResume(k, t).k)
  {
    if Get(k, t).state.Live? && Get(k, t).state.susp {
      ResumeKept(k, t);
      OneTaskInv(k, t, ResumeTask(k, t));
    } else {
      SchedInv(k, false);
    }
  }

  lemma SetPrioKept(k: K, t: Tid, prio: nat, atTail: bool)
    requires CoreInv(k) && t in k.tcb && k.tcb[t].state.Live? && prio < |k.rdy|
    ensures Kept(k, t, SetOwnerPrio(k, t, prio, atTail))
    ensures Get(SetOwnerPrio(k, t, prio, atTail), t) == k.tcb[t].(prio := prio)
  {
    hide ReadyInv, WheelInv, WaitInv, TcbInv;
    var b := k.tcb[t];
    TcbOkOf(k, t);
    if b.state == RDY {
      MoveReadyKept(k, t, prio, atTail);
    } else if b.state.pend {
      MovePendingKept(k, t, prio);
    } else {
      PutKept(k, t, b.(prio := prio));
    }
  }

  /** A flag waiter keeps its place: the pend list of an event flag group need not be sorted. */
  lemma FlagPrioKept(k: K, t: Tid, prio: nat)
    requires CoreInv(k) && t in k.tcb && k.tcb[t].state.Live? && k.tcb[t].state.pend && k.tcb[t].pendOn == OnFlag
    requires prio < |k.rdy|
    ensures Kept(k, t, Put(k, t, k.tcb[t].(prio := prio)))
  {
    hide ReadyInv, WheelInv, TcbInv;
    var k' := Put(k, t, k.tcb[t].(prio := prio));
    TcbOkOf(k, t);
    ReadyStays(k, t, k');
    WheelStays(k, t, k');
    assert KindsOf(k, Get(k', t));
    forall o: Oid | o in k.wait ensures ListChange(k, t, k', o) {
      assert Count(k.wait[o], t) == if Listed(Get(k, t).tbl, o) then 1 else 0;
      if !Object(k, o).FlagGrp? {
        PrioFrame(k, t, k', k.wait[o]);
      }
    }
    WaitChanges(k, t, k');
    TcbStays(k, t, k');
  }

  lemma ChangePrioKept(k: K, t: Tid, prio: nat, atTail: bool)
    requires CoreInv(k) && t in k.tcb && k.tcb[t].state.Live? && prio < |k.rdy|
    ensures Kept(k, t, ChangePrio(k, t, prio, atTail))
    ensures Get(ChangePrio(k, t, prio, atTail), t) == k.tcb[t].(prio := prio)
  {
    hide ReadyInv, WheelInv, WaitInv, TcbInv;
    var b := k.tcb[t];
    TcbOkOf(k, t);
    if b.state == RDY {
      MoveReadyKept(k, t, prio, atTail);
    } else if b.state.pend && b.pendOn == OnFlag {
      FlagPrioKept(k, t, prio);
    } else if b.state.pend && !NoObject(b.pendOn) {
      MovePendingKept(k, t, prio);
    } else {
      PutKept(k, t, b.(prio := prio));
    }
  }

  lemma TaskChangePrioInv(k: K, t: Tid, prio: nat, self: bool)
    requires Inv(k)
    ensures Inv(TaskChangePrio(k, t, prio, self).k)
  {
    if prio + 1 < |k.rdy| && Get(k, t).state != Deleted {
      ChangePrioKept(k, t, prio, !self);
      OneTaskInv(k, t, ChangePrio(k, t, prio, !self));
    }
  }
}
