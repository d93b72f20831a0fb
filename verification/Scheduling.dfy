/** What a call does to the clock and to the choice of the running task. Only the tick moves the tick counter; a call that
    switches to another task makes it the one at the head of the highest ready list, with its priority as OSPrioCur; and
    a call that changes the ready lists runs the scheduler, but for the tick and the posts and aborts told not to.
  */
module Scheduling {
  import opened TaskLists
  import opened KernelState
  import opened KernelOps
  import opened ObjKept
  import opened Services
  import opened FlagsMultiKept
  import opened Run

  /** Clock, running task, its recorded priority, lock and idle task are the same. */
  predicate SameClock(k: K, k': K) {
    k'.now == k.now && k'.cur == k.cur && k'.prioCur == k.prioCur && k'.lock == k.lock && k'.idle == k.idle
  }

  /** The running task is the head of the highest ready list. */
  predicate Tops(k: K) {
    var p := FirstReady(k.rdy, 0);
    p < |k.rdy| && k.rdy[p] != [] && k.rdy[p][0] == k.cur
  }

  /** The scheduler has nothing to do: it is locked, the running task heads the ready lists, or nobody is ready. */
  predicate Settled(k: K) {
    k.lock > 0 || Tops(k) || FirstReady(k.rdy, 0) >= |k.rdy|
  }

  /** Another task has just been chosen. */
  predicate Switched(k: K) {
    Tops(k) && k.prioCur == FirstReady(k.rdy, 0)
  }

  /** The call may wake tasks without running the scheduler. */
  predicate Unscheduled(op: Op) {
    match op
    case OpTick => true
    case OpPendAbort(_, _, noSched) => noSched
    case OpSemPost(_, _, noSched) => noSched
    case OpQPost(_, _, _, _, noSched, _) => noSched
    case OpMutexPost(_, noSched) => noSched
    case OpFlagPost(_, _, _, noSched) => noSched
    case OpTaskSemPost(_, noSched) => noSched
    case OpTaskQPost(_, _, _, noSched, _) => noSched
    case OpTaskPendAbort(_, _, noSched) => noSched
    case _ => false
  }

  /** What holds of every call: see `StepOutcome`. */
  predicate Outcome(k: K, op: Op, k': K) {
    && k'.now == k.now
    && (op.OpMutexPost? || (k'.cur == k.cur && k'.prioCur == k.prioCur) || Switched(k'))
    && (Unscheduled(op) || Settled(k') || (k'.rdy == k.rdy && k'.cur == k.cur && k'.lock == k.lock))
    && (k.lock > 0 && (op.OpUnlock? ==> k.lock > 1) ==> k'.cur == k.cur)
  }

  lemma {:induction false} FirstReadyStops(rdy: seq<seq<Tid>>, p: nat)
    ensures var f := FirstReady(rdy, p); f < |rdy| ==> rdy[f] != []
    decreases |rdy| - p
  {
    if p < |rdy| && rdy[p] == [] {
      FirstReadyStops(rdy, p + 1);
    }
  }

  /** The scheduler after a step that leaves the clock alone. */
  lemma SchedOutcome(k: K, op: Op, k2: K, noSched: bool)
    requires SameClock(k, k2) && (noSched ==> Unscheduled(op) || (k2.rdy == k.rdy))
    ensures Outcome(k, op, MaybeSched(k2, noSched)) && (!noSched ==> Outcome(k, op, Sched(k2)))
  {
    FirstReadyStops(k2.rdy, 0);
    hide FirstReady;
  }

  lemma SameOutcome(k: K, op: Op, k': K)
    requires SameClock(k, k') && k'.rdy == k.rdy
    ensures Outcome(k, op, k')
  {
  }

  // -------------------------------------------------------------------------- what the routines leave alone

  lemma WakeClock(k: K, t: Tid, ev: Event)
    ensures SameClock(k, Wake(k, t, ev))
  {
    hide Finish, UnlinkAll, WheelDrop;
  }

  lemma {:induction false} WakeAllClock(k: K, ts: seq<Tid>, ev: Event)
    ensures SameClock(k, WakeAll(k, ts, ev))
    decreases |ts|
  {
    hide Wake;
    if ts != [] {
      WakeClock(k, ts[0], ev);
      WakeAllClock(Wake(k, ts[0], ev), ts[1..], ev);
    }
  }

  lemma {:induction false} FlagReadyAllClock(k: K, ts: seq<Tid>, flags: Flags)
    ensures SameClock(k, FlagReadyAll(k, ts, flags))
    decreases |ts|
  {
    hide FlagMet, FlagBits, Finish, UnlinkAll, WheelDrop;
    if ts != [] {
      FlagReadyAllClock(FlagStep(k, ts[0], flags), ts[1..], flags);
    }
  }

  lemma RdyClock(k: K, t: Tid, atTail: bool)
    ensures SameClock(k, RdyPut(k, t, atTail)) && SameClock(k, RdyRemove(k, t))
  {
  }

  lemma SuspendResumeClock(k: K, t: Tid)
    ensures SameClock(k, SuspendTask(k, t)) && SameClock(k, ResumeTask(k, t))
  {
    hide WheelDrop;
  }

  lemma SleepClock(k: K, t: Tid, b: Tcb)
    ensures SameClock(k, Sleep(k, t, b))
  {
    hide LinkAll, WheelAdd;
  }

  lemma PrioClock(k: K, t: Tid, prio: nat, atTail: bool)
    ensures SameClock(k, ChangePrio(k, t, prio, atTail)) && SameClock(k, SetOwnerPrio(k, t, prio, atTail))
  {
    hide ResortAll;
  }

  // ------------------------------------------------------------------------------------------- the calls

  lemma DelOutcome(k: K, t: Tid)
    ensures Outcome(k, OpTaskDel(t), TaskDel(k, t).k)
  {
    hide WheelDrop, UnlinkAll, RdyRemove, Sched, Outcome;
    var b := Get(k, t);
    RdyClock(k, t, true);
    var k1 := if b.state == RDY then RdyRemove(k, t)
      else if b.state == SUSPENDED then k
      else if !b.state.Live? || !b.state.pend || NoObject(b.pendOn) then WheelRemove(k, t)
      else Unlink(WheelRemove(k, t), t);
    SameOutcome(k, OpTaskDel(t), k);
    SchedOutcome(k, OpTaskDel(t), Put(k1, t, NO_TCB.(prio := |k.rdy|)), false);
  }

  lemma TaskOpsOutcome(k: K, op: Op)
    requires op.OpTaskCreate? || op.OpTaskDel? || op.OpSuspend? || op.OpResume? || op.OpChangePrio?
    ensures Outcome(k, op, Step(k, op))
  {
    hide TaskDel, SuspendTask, ResumeTask, ChangePrio, RdyPut, Sched, Outcome;
    SameOutcome(k, op, k);
    match op
    case OpTaskCreate(t, prio, qMax) =>
      var k1 := Put(k, t, NO_TCB.(state := RDY, prio := prio, taskQMax := qMax));
      RdyClock(k1, t, true);
      SchedOutcome(k, op, RdyPut(k1, t, true), false);
    case OpTaskDel(t) => DelOutcome(k, t);
    case OpSuspend(t) =>
      SuspendResumeClock(k, t);
      SchedOutcome(k, op, SuspendTask(k, t), false);
    case OpResume(t) =>
      SuspendResumeClock(k, t);
      SchedOutcome(k, op, k, false);
      SchedOutcome(k, op, ResumeTask(k, t), false);
    case OpChangePrio(t, prio, self) =>
      PrioClock(k, t, prio, !self);
      SchedOutcome(k, op, ChangePrio(k, t, prio, !self), false);
  }

  lemma DlyOutcome(k: K, op: Op)
    requires op.OpDly?
    ensures Outcome(k, op, Step(k, op))
  {
    hide Sleep, Timed, Sched, Outcome;
    var b := Timed(Get(k, k.cur).(state := DLY), k.now, |k.wheel|, op.dly, op.opt);
    SameOutcome(k, op, k);
    SameOutcome(k, op, Put(k, k.cur, b));
    SleepClock(k, k.cur, b);
    SchedOutcome(k, op, Sleep(k, k.cur, b), false);
  }

  lemma BlockOutcome(k: K, op: Op, k0: K, on: PendOn, tbl: seq<PendData>, timeout: Tick, nonBlocking: bool)
    requires SameClock(k, k0) && k0.rdy == k.rdy
    ensures Outcome(k, op, BlockCur(k0, on, tbl, timeout, nonBlocking).k)
  {
    hide Sleep, BlockedTcb, Sched, Outcome;
    var b := BlockedTcb(Get(k0, k0.cur), on, tbl, timeout, k0.now, |k0.wheel|);
    SameOutcome(k, op, k0);
    SleepClock(k0, k0.cur, b);
    SchedOutcome(k, op, Sleep(k0, k0.cur, b), false);
  }

  lemma PendOutcome(k: K, op: Op)
    requires op.OpSemPend? || op.OpQPend? || op.OpTaskSemPend? || op.OpTaskQPend?
    ensures Outcome(k, op, Step(k, op))
  {
    hide BlockCur, Outcome;
    match op
    case OpSemPend(o, timeout, nonBlocking) =>
      BlockOutcome(k, op, k, OnSem, Entry(o), timeout, nonBlocking);
      Untouched(k, op);
    case OpQPend(o, timeout, nonBlocking) =>
      BlockOutcome(k, op, k, OnQ, Entry(o), timeout, nonBlocking);
      Untouched(k, op);
    case OpTaskSemPend(timeout, nonBlocking) =>
      BlockOutcome(k, op, k, OnTaskSem, [], timeout, nonBlocking);
      Untouched(k, op);
    case OpTaskQPend(timeout, nonBlocking) =>
      BlockOutcome(k, op, k, OnTaskQ, [], timeout, nonBlocking);
      Untouched(k, op);
  }

  lemma Untouched(k: K, op: Op)
    ensures forall k': K :: SameClock(k, k') && k'.rdy == k.rdy ==> Outcome(k, op, k')
  {
  }

  lemma FlagMultiOutcome(k: K, op: Op)
    requires op.OpFlagPend? || op.OpMultiPend? || op.OpFlagConsume?
    ensures Outcome(k, op, Step(k, op))
  {
    hide BlockCur, Outcome, FlagMet, FlagBits, FlagConsumed, TakeReady, MultiValid;
    Untouched(k, op);
    match op
    case OpFlagPend(o, want, mode, consume, timeout, nonBlocking) =>
      var k1 := Put(k, k.cur, Get(k, k.cur).(flagsPend := want, flagsMode := mode, flagsRdy := 0));
      BlockOutcome(k, op, k1, OnFlag, Entry(o), timeout, false);
    case OpMultiPend(tbl, timeout, nonBlocking) =>
      BlockOutcome(k, op, k, OnMulti, TakeReady(k.obj, tbl).1, timeout, nonBlocking);
    case OpFlagConsume(o) =>
  }

  lemma WakesOutcome(k: K, op: Op, ts: seq<Tid>, ev: Event, noSched: bool)
    requires noSched ==> Unscheduled(op)
    ensures Outcome(k, op, MaybeSched(WakeAll(k, ts, ev), noSched))
  {
    hide WakeAll, MaybeSched, Outcome;
    WakeAllClock(k, ts, ev);
    SchedOutcome(k, op, WakeAll(k, ts, ev), noSched);
  }

  lemma PostsOutcome(k: K, op: Op)
    requires op.OpSemPost? || op.OpQPost? || op.OpPendAbort?
    ensures Outcome(k, op, Step(k, op))
  {
    hide WakeAll, MaybeSched, MsgPut, Outcome;
    Untouched(k, op);
    match op
    case OpSemPost(o, all, noSched) =>
      var w := Waiters(k, o);
      WakesOutcome(k, op, if all || w == [] then w else w[..1], Posted(Some(o), NO_MSG), noSched);
    case OpQPost(o, m, lifo, all, noSched, poolEmpty) =>
      var w := Waiters(k, o);
      WakesOutcome(k, op, if all || w == [] then w else w[..1], Posted(Some(o), m), noSched);
    case OpPendAbort(o, all, noSched) =>
      var w := Waiters(k, o);
      WakesOutcome(k, op, if (all && !noSched) || w == [] then w else w[..1], Aborted(Some(o)), noSched);
  }

  lemma DelFlagOutcome(k: K, op: Op)
    requires op.OpObjDel? || op.OpFlagPost?
    ensures Outcome(k, op, Step(k, op))
  {
    hide WakeAll, FlagReadyAll, MaybeSched, Sched, PostedFlags, Outcome;
    Untouched(k, op);
    match op
    case OpObjDel(o, always) =>
      WakeAllClock(k, Waiters(k, o), ObjDeleted(Some(o)));
      SchedOutcome(k, op, SetObj(WakeAll(k, Waiters(k, o), ObjDeleted(Some(o))), o, Gone), false);
    case OpFlagPost(o, bits, set', noSched) =>
      if Object(k, o).FlagGrp? {
        var flags := PostedFlags(Object(k, o).flags, bits, set');
        FlagReadyAllClock(SetObj(k, o, FlagGrp(flags)), Waiters(k, o), flags);
        SchedOutcome(k, op, FlagReadyAll(SetObj(k, o, FlagGrp(flags)), Waiters(k, o), flags), noSched);
      }
  }

  lemma OneWakeOutcome(k: K, op: Op, t: Tid, ev: Event, noSched: bool)
    requires noSched ==> Unscheduled(op)
    ensures Outcome(k, op, MaybeSched(Wake(k, t, ev), noSched)) && (!noSched ==> Outcome(k, op, Sched(Wake(k, t, ev))))
  {
    hide Wake, MaybeSched, Sched, Outcome;
    WakeClock(k, t, ev);
    SchedOutcome(k, op, Wake(k, t, ev), noSched);
  }

  lemma OwnPostsOutcome(k: K, op: Op)
    requires op.OpTaskSemPost? || op.OpTaskQPost? || op.OpTaskPendAbort? || op.OpDlyResume?
    ensures Outcome(k, op, Step(k, op))
  {
    hide TaskSemPost, TaskQPost, TaskPendAbort, TimeDlyResume, Outcome;
    match op
    case OpTaskSemPost(t, noSched) => SemSignalOutcome(k, t, noSched);
    case OpTaskQPost(t, m, lifo, noSched, poolEmpty) => MsgOutcome(k, op);
    case OpTaskPendAbort(t, on, noSched) => AbortOutcome(k, t, on, noSched);
    case OpDlyResume(t) => DlyResumeOutcome(k, t);
  }

  lemma SemSignalOutcome(k: K, t: Tid, noSched: bool)
    ensures Outcome(k, OpTaskSemPost(t, noSched), TaskSemPost(k, t, noSched).k)
  {
    hide Wake, MaybeSched, Outcome;
    Untouched(k, OpTaskSemPost(t, noSched));
    OneWakeOutcome(k, OpTaskSemPost(t, noSched), t, Posted(None, NO_MSG), noSched);
  }

  lemma MsgOutcome(k: K, op: Op)
    requires op.OpTaskQPost?
    ensures Outcome(k, op, TaskQPost(k, op.t, op.m, op.lifo, op.noSched, op.poolEmpty).k)
  {
    hide Wake, MaybeSched, Outcome, MsgPut;
    Untouched(k, op);
    OneWakeOutcome(k, op, op.t, Posted(None, op.m), op.noSched);
  }

  lemma AbortOutcome(k: K, t: Tid, on: PendOn, noSched: bool)
    ensures Outcome(k, OpTaskPendAbort(t, on, noSched), TaskPendAbort(k, t, on, noSched).k)
  {
    hide Wake, MaybeSched, Outcome;
    Untouched(k, OpTaskPendAbort(t, on, noSched));
    OneWakeOutcome(k, OpTaskPendAbort(t, on, noSched), t, Aborted(None), noSched);
  }

  lemma DlyResumeOutcome(k: K, t: Tid)
    ensures Outcome(k, OpDlyResume(t), TimeDlyResume(k, t).k)
  {
    hide Wake, Sched, Outcome;
    Untouched(k, OpDlyResume(t));
    SchedOutcome(k, OpDlyResume(t), k, false);
    OneWakeOutcome(k, OpDlyResume(t), t, DelayOver, false);
  }

  lemma MutexPendOutcome(k: K, o: Oid, timeout: Tick, nonBlocking: bool)
    ensures Outcome(k, OpMutexPend(o, timeout, nonBlocking), MutexPend(k, o, timeout, nonBlocking).k)
  {
    hide SetOwnerPrio, Sleep, BlockedTcb, Sched, Outcome;
    var op := OpMutexPend(o, timeout, nonBlocking);
    Untouched(k, op);
    match Object(k, o)
    case Mutex(Some(w), _, _) =>
      PrioClock(k, w, Get(k, k.cur).prio, false);
      var k1 := RaiseOwner(k, w, Get(k, k.cur).prio);
      var b := BlockedTcb(Get(k1, k.cur), OnMutex, Entry(o), timeout, k1.now, |k1.wheel|);
      SleepClock(k1, k.cur, b);
      SchedOutcome(k, op, Sleep(k1, k.cur, b), false);
    case _ =>
  }

  /** A release with waiters may set OSPrioCur before the scheduler runs. */
  lemma MutexPostOutcome(k: K, o: Oid, noSched: bool)
    ensures Outcome(k, OpMutexPost(o, noSched), MutexPost(k, o, noSched).k)
  {
    hide RestoreCur, Wake, MaybeSched, Outcome;
    var op := OpMutexPost(o, noSched);
    Untouched(k, op);
    match Object(k, o)
    case Mutex(_, _, orig) =>
      if Waiters(k, o) != [] {
        var k1, h := RestoreCur(k, orig), Waiters(k, o)[0];
        var k2 := SetObj(k1, o, Mutex(Some(h), 1, Get(k1, h).prio));
        RestoreClock(k, orig);
        OneWakeOutcome(k2, op, h, Posted(Some(o), NO_MSG), noSched);
        PostAfter(k, k2, op, MaybeSched(Wake(k2, h, Posted(Some(o), NO_MSG)), noSched), h);
      }
    case _ =>
  }

  lemma RestoreClock(k: K, orig: nat)
    ensures var k1 := RestoreCur(k, orig); k1.now == k.now && k1.cur == k.cur && k1.lock == k.lock
    ensures var k1 := RestoreCur(k, orig); k1.prioCur == if Get(k, k.cur).prio == orig then k.prioCur else orig
  {
    hide Drop;
  }

  /** A release either runs the scheduler or was told not to. */
  lemma PostAfter(k: K, k2: K, op: Op, k': K, h: Tid)
    requires op.OpMutexPost? && k2.now == k.now && k2.cur == k.cur && k2.lock == k.lock && Outcome(k2, op, k')
    requires k' == MaybeSched(Wake(k2, h, Posted(Some(op.o), NO_MSG)), op.noSched)
    ensures Outcome(k, op, k')
  {
    hide Wake;
    WakeClock(k2, h, Posted(Some(op.o), NO_MSG));
    var k3 := Wake(k2, h, Posted(Some(op.o), NO_MSG));
    if !op.noSched {
      SchedSettles(k3);
    }
  }

  lemma SchedSettles(k: K)
    ensures Settled(Sched(k))
  {
    FirstReadyStops(k.rdy, 0);
    hide FirstReady;
  }

  lemma MutexDelOutcome(k: K, o: Oid, always: bool)
    ensures Outcome(k, OpMutexDel(o, always), MutexDel(k, o, always).k)
  {
    hide WakeAll, SetOwnerPrio, Sched, Outcome;
    var op := OpMutexDel(o, always);
    Untouched(k, op);
    match Object(k, o)
    case Mutex(owner, _, orig) =>
      if owner.Some? {
        PrioClock(k, owner.value, orig, true);
      }
      var k1 := if owner.Some? && Get(k, owner.value).prio != orig then SetOwnerPrio(k, owner.value, orig, true) else k;
      WakeAllClock(k1, Waiters(k, o), ObjDeleted(Some(o)));
      SchedOutcome(k, op, SetObj(WakeAll(k1, Waiters(k, o), ObjDeleted(Some(o))), o, Gone), false);
    case _ =>
  }

  lemma MutexOutcome(k: K, op: Op)
    requires op.OpMutexPend? || op.OpMutexPost? || op.OpMutexDel?
    ensures Outcome(k, op, Step(k, op))
  {
    hide MutexPend, MutexPost, MutexDel, Outcome;
    match op
    case OpMutexPend(o, timeout, nonBlocking) => MutexPendOutcome(k, o, timeout, nonBlocking);
    case OpMutexPost(o, noSched) => MutexPostOutcome(k, o, noSched);
    case OpMutexDel(o, always) => MutexDelOutcome(k, o, always);
  }

  lemma ContentsOutcome(k: K, op: Op)
    requires op.OpCreate? || op.OpSemSet? || op.OpQFlush?
    ensures Outcome(k, op, Step(k, op))
  {
    hide Outcome;
    Untouched(k, op);
  }

  lemma LockOutcome(k: K)
    ensures Outcome(k, OpLock, SchedLock(k).k) && Outcome(k, OpUnlock, SchedUnlock(k).k)
  {
    hide Sched, FirstReady, Tops;
    if k.lock > 0 {
      UnlockOutcome(k);
    }
  }

  lemma PlainOutcome(k: K, op: Op)
    requires op.OpRoundRobin? || op.OpLock? || op.OpUnlock? || op.OpSched?
    ensures Outcome(k, op, Step(k, op))
  {
    hide Sched, Outcome, RoundRobin, SchedLock, SchedUnlock;
    RotateOutcome(k);
    LockOutcome(k);
    SchedOutcome(k, op, k, false);
  }

  lemma RotateOutcome(k: K)
    ensures Outcome(k, OpRoundRobin, RoundRobin(k).k)
  {
    hide Sched, Outcome, Rotate;
    Untouched(k, OpRoundRobin);
    if k.prioCur < |k.rdy| {
      SchedOutcome(k, OpRoundRobin, k.(rdy := k.rdy[k.prioCur := Rotate(k.rdy[k.prioCur])]), false);
    }
  }

  lemma UnlockOutcome(k: K)
    requires k.lock > 0
    ensures Outcome(k, OpUnlock, Sched(k.(lock := k.lock - 1)))
  {
    hide FirstReady;
    var k1 := k.(lock := k.lock - 1);
    SchedOutcome(k1, OpUnlock, k1, false);
    SchedSettles(k1);
  }

  /** For every call but the tick: the tick counter stands still; the running task and OSPrioCur stay, or a switch has just
      been made; and the ready lists stay, or the scheduler was run, or the call was told not to run it. */
  lemma StepOutcome(k: K, op: Op)
    requires !op.OpTick?
    ensures Outcome(k, op, Step(k, op))
  {
    hide Call, Outcome;
    if op.OpTaskCreate? || op.OpTaskDel? || op.OpSuspend? || op.OpResume? || op.OpChangePrio? {
      TaskOpsOutcome(k, op);
    } else if op.OpDly? {
      DlyOutcome(k, op);
    } else if op.OpSemPend? || op.OpQPend? || op.OpTaskSemPend? || op.OpTaskQPend? {
      PendOutcome(k, op);
    } else if op.OpFlagPend? || op.OpMultiPend? || op.OpFlagConsume? {
      FlagMultiOutcome(k, op);
    } else if op.OpSemPost? || op.OpQPost? || op.OpPendAbort? {
      PostsOutcome(k, op);
    } else if op.OpObjDel? || op.OpFlagPost? {
      DelFlagOutcome(k, op);
    } else if op.OpTaskSemPost? || op.OpTaskQPost? || op.OpTaskPendAbort? || op.OpDlyResume? {
      OwnPostsOutcome(k, op);
    } else if op.OpMutexPend? || op.OpMutexPost? || op.OpMutexDel? {
      MutexOutcome(k, op);
    } else if op.OpCreate? || op.OpSemSet? || op.OpQFlush? {
      ContentsOutcome(k, op);
    } else {
      PlainOutcome(k, op);
    }
  }

  /** Only the tick moves the tick counter. */
  lemma NowStays(k: K, op: Op)
    requires !op.OpTick?
    ensures Step(k, op).now == k.now
  {
    hide Call;
    StepOutcome(k, op);
  }

  // ----------------------------------------------------------------------- the running task heads the lists

  /** With the scheduler unlocked, the running task is the head of the highest ready list. */
  predicate HighestRuns(k: K) {
    k.lock == 0 ==> Tops(k)
  }

  lemma HighestRunsStep(k: K, op: Op)
    requires Inv(k) && WellUsed(k, op) && Harmless(k, op) && !Unscheduled(op) && HighestRuns(k)
    ensures HighestRuns(Step(k, op))
  {
    hide Inv, WellUsed, Harmless, Call, FirstReady;
    StepKeeps(k, op);
    StepOutcome(k, op);
    SomebodyReady(Step(k, op));
  }

  lemma SomebodyReady(k: K)
    requires Inv(k)
    ensures FirstReady(k.rdy, 0) < |k.rdy|
  {
    hide WheelInv, WaitInv, ObjInv;
    FirstReadyHead(k);
  }

  /** Over every run of guarded calls that are not told to leave the scheduler out, the running task heads the highest
      non-empty ready list whenever the scheduler is unlocked. */
  lemma {:induction false} HighestRunsThroughout(k: K, ops: seq<Op>)
    requires Inv(k) && Proper(k, ops) && HighestRuns(k) && forall op: Op :: op in ops ==> !Unscheduled(op)
    ensures HighestRuns(After(k, ops))
    decreases |ops|
  {
    hide Inv, WellUsed, Harmless, Step, HighestRuns, Unscheduled;
    if ops != [] {
      StepKeeps(k, ops[0]);
      HighestRunsStep(k, ops[0]);
      HighestRunsThroughout(Step(k, ops[0]), ops[1..]);
    }
  }

  /** After wake-ups without scheduling, one scheduling makes up for them. */
  lemma SchedulingMakesUp(k: K)
    requires Inv(k) && k.lock == 0
    ensures HighestRuns(Step(k, OpSched))
  {
    hide ReadyInv, WheelInv, WaitInv, TcbInv, ObjInv, FirstReady;
    SomebodyReady(k);
    SchedSettles(k);
  }

  // ------------------------------------------------------------------------------- the scheduler's lock

  lemma LockedStep(k: K, op: Op)
    requires k.lock > 0 && Step(k, op).lock > 0
    ensures Step(k, op).cur == k.cur
  {
    if op.OpTick? {
      hide TickUpdate;
      TickCur(k);
    } else if op.OpUnlock? && k.lock == 1 {
      hide FirstReady;
    } else {
      hide Call;
      StepOutcome(k, op);
    }
  }

  lemma TickCur(k: K)
    ensures TickUpdate(k).cur == k.cur
  {
    hide ExpireDue;
    var k1 := k.(now := Add32(k.now, 1));
    var i := SpokeOf(k1.now, |k.wheel|);
    if i < |k.wheel| {
      ExpireCur(k1, k.wheel[i]);
    }
  }

  lemma {:induction false} ExpireCur(k: K, q: seq<Tid>)
    ensures ExpireDue(k, q).cur == k.cur
    decreases |q|
  {
    hide Wake;
    if q != [] {
      var b := Get(k, q[0]);
      WakeClock(k, q[0], if b.state.Live? && b.state.pend then TimedOut else DelayOver);
      if !b.state.Live? || !b.state.dly {
        ExpireCur(k, q[1..]);
      } else if b.due == k.now {
        ExpireCur(Expire(k, q[0]), q[1..]);
      }
    }
  }

  predicate LockedThroughout(k: K, ops: seq<Op>)
    decreases |ops|
  {
    k.lock > 0 && (ops == [] || LockedThroughout(Step(k, ops[0]), ops[1..]))
  }

  /** As long as the scheduler stays locked, whatever is called and however many locks nest, the same task runs. */
  lemma {:induction false} NoSwitchWhileLocked(k: K, ops: seq<Op>)
    requires LockedThroughout(k, ops)
    ensures After(k, ops).cur == k.cur
    decreases |ops|
  {
    hide Step;
    if ops != [] {
      LockedStep(k, ops[0]);
      NoSwitchWhileLocked(Step(k, ops[0]), ops[1..]);
    }
  }
}
