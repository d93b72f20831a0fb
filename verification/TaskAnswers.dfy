/** What the services on tasks, on time and on the scheduler answer, and what they do. */
module TaskAnswers {
  import opened TaskLists
  import opened KernelState
  import opened KernelOps
  import opened CoreKept
  import opened ObjKept
  import opened ListMoves
  import opened Services
  import opened ServicesKept
  import opened Departures
  import opened Run
  import opened Delays
  import opened FallingAsleep
  import opened Repricing
  import opened PostAnswers

  // ------------------------------------------------------------------------------------------- delays

  /** a - b modulo 2^32. */
  function Apart32(a: Tick, b: Tick): Tick {
    (a - b) % 0x1_0000_0000
  }

  lemma Sub32Is(a: Tick, b: Tick)
    ensures Sub32(a, b) == Apart32(a, b) && Add32(a, b) == (a + b) % 0x1_0000_0000
  {
  }

  /** A delay is accepted if it is not zero; a match, if it lies one to 0xFFFF0001 ticks ahead. */
  predicate Acceptable(now: Tick, dly: Tick, opt: TimeOpt) {
    if opt == OptMatch then 1 <= Apart32(dly, now) <= 0xFFFF_0001 else dly > 0
  }

  /** When the delay ends: at the match; at the next deadline of the period, or a period from now if that has passed; or
      so many ticks from now. */
  function EndOf(now: Tick, prev: Tick, dly: Tick, opt: TimeOpt): Tick {
    if opt == OptMatch then dly
    else if opt == OptPeriodic && Apart32(now, prev) < dly then (prev + dly) % 0x1_0000_0000
    else (now + dly) % 0x1_0000_0000
  }

  lemma DueIs(now: Tick, prev: Tick, dly: Tick, opt: TimeOpt)
    ensures DueTime(now, prev, dly, opt) == if Acceptable(now, dly, opt) then Some(EndOf(now, prev, dly, opt)) else None
  {
    hide Apart32, Sub32, Add32;
    Sub32Is(dly, now);
    Sub32Is(now, prev);
    Sub32Is(now, dly);
    Sub32Is(prev, dly);
    if opt == OptMatch {
      OneLess32(dly, now);
    } else if opt == OptPeriodic && dly > 0 {
      PeriodicDue(now, prev, dly);
    }
  }

  lemma OneLess32(a: Tick, b: Tick)
    ensures Sub32(Sub32(a, b), 1) == if Sub32(a, b) == 0 then 0xFFFF_FFFF else Sub32(a, b) - 1
  {
  }

  /** OSTimeDly. The caller sleeps until the end of its delay. A match that is refused leaves it running in state DLY, and
      in no spoke. */
  lemma DlyAnswers(k: K, dly: Tick, opt: TimeOpt)
    requires Inv(k)
    ensures var r := Call(k, OpDly(dly, opt)); var b := Get(k, k.cur); var due := EndOf(k.now, b.prev, dly, opt);
      && (k.lock > 0 ==> r == R(k, ErrSchedLocked))
      && (k.lock == 0 && Acceptable(k.now, dly, opt) ==>
        && r.err == ErrNone && |k.wheel| > 0 && Remaining(r.k, k.cur) == Apart32(due, k.now)
        && Sleeps(k, b.(state := Live(false, false, true), due := due, spoke := due % |k.wheel|,
                        prev := if opt == OptPeriodic then due else b.prev), r.k))
      && (k.lock == 0 && !Acceptable(k.now, dly, opt) ==>
        r == R(if opt == OptMatch then k.(tcb := k.tcb[k.cur := b.(state := Live(false, false, true), due := 0, spoke := -1)])
               else k, ErrZeroDly))
  {
    hide Inv, Sleep, Sched, Sleeps;
    CurFacts(k);
    DueIs(k.now, Get(k, k.cur).prev, dly, opt);
    if k.lock == 0 && Acceptable(k.now, dly, opt) {
      DlySleepsUntil(k, dly, opt);
    }
  }

  lemma DlySleepsUntil(k: K, dly: Tick, opt: TimeOpt)
    requires Inv(k) && k.lock == 0 && Acceptable(k.now, dly, opt) && |k.wheel| > 0
    ensures var k' := TimeDly(k, dly, opt).k; var b := Get(k, k.cur); var due := EndOf(k.now, b.prev, dly, opt);
      && TimeDly(k, dly, opt).err == ErrNone && Remaining(k', k.cur) == Apart32(due, k.now)
      && Sleeps(k, b.(state := Live(false, false, true), due := due, spoke := due % |k.wheel|,
                      prev := if opt == OptPeriodic then due else b.prev), k')
  {
    hide Inv, Sleep, Sched, LeavesReady, QueuesFor, EntersWheel;
    var b := Get(k, k.cur);
    CurFacts(k);
    DueIs(k.now, b.prev, dly, opt);
    var due := EndOf(k.now, b.prev, dly, opt);
    Sub32Is(due, k.now);
    SleepSleeps(k, b.(state := Live(false, false, true), due := due, spoke := due % |k.wheel|,
                      prev := if opt == OptPeriodic then due else b.prev));
  }

  /** OSTimeDlyResume. What it does to the delayed task says `WaitAnswers.DelayResumed`. */
  lemma DlyResumeAnswers(k: K, t: Tid)
    requires Inv(k)
    ensures var r := Call(k, OpDlyResume(t)); var b := Get(k, t); var delayed := b.state.Live? && b.state.dly && !b.state.pend;
      && (t == k.cur ==> r == R(k, ErrNotDly))
      && (t != k.cur && b.state == Deleted ==> r.err == ErrStateInvalid && SameLists(k, r.k))
      && (t != k.cur && b.state.Live? && !delayed ==> r.err == ErrNotDly && SameLists(k, r.k))
      && (t != k.cur && delayed ==> (r.err == if b.state.susp then ErrTaskSuspended else ErrNone) && BecomesReady(k, t, r.k))
  {
    hide Inv, Wake, Sched, SameLists, BecomesReady;
    SchedSame(k);
    var b := Get(k, t);
    if b.state.Live? && b.state.dly && !b.state.pend {
      DelayReady(k, t);
    }
  }

  lemma DelayReady(k: K, t: Tid)
    requires Inv(k) && Ends(DelayOver, Get(k, t).state)
    ensures BecomesReady(k, t, Sched(Wake(k, t, DelayOver)))
  {
    hide ReadyInv, WheelInv, WaitInv, ObjInv, CurOk, Wake, Sched;
    TcbOkOf(k, t);
    WokenReady(k, k, t, DelayOver);
    SchedKeepsTcbs(Wake(k, t, DelayOver), false);
  }

  lemma SchedSame(k: K)
    ensures SameLists(k, Sched(k))
  {
    hide FirstReady;
  }

  // -------------------------------------------------------------------------------- create and delete

  /** The state with a new task: it is ready, last at its priority. */
  function WithTask(k: K, t: Tid, prio: nat, qMax: nat): K
    requires prio < |k.rdy|
  {
    k.(rdy := k.rdy[prio := k.rdy[prio] + [t]], prios := k.prios + {prio},
       tcb := k.tcb[t := Tcb(Live(false, false, false), prio, OnNothing, StatusOk, [], [], Msg(0, 0), 0, 0, [], qMax,
                             0, 0x8000_0000, -1, 0, 0, SetAll)])
  }

  /** OSTaskCreate. The new task has nothing, waits for nothing, and is last in its ready list. */
  lemma CreateTaskAnswers(k: K, t: Tid, prio: nat, qMax: nat)
    ensures var r := Call(k, OpTaskCreate(t, prio, qMax));
      if prio >= |k.rdy| || (prio == |k.rdy| - 1 && t != k.idle) then r == R(k, ErrPrioInvalid)
      else r.err == ErrNone && SameLists(WithTask(k, t, prio, qMax), r.k)
  {
    hide Sched, SameLists;
    if prio < |k.rdy| {
      SchedSame(RdyPut(Put(k, t, NO_TCB.(state := RDY, prio := prio, taskQMax := qMax)), t, true));
    }
  }

  /** A TCB that is not in use. */
  function FreeTcb(prio: nat): Tcb {
    Tcb(Deleted, prio, OnNothing, StatusOk, [], [], Msg(0, 0), 0, 0, [], 0, 0, 0x8000_0000, -1, 0, 0, SetAll)
  }

  /** The tables, the clock, the lock and the idle task are the same. */
  predicate SameRest(k: K, k': K) {
    k'.obj == k.obj && k'.now == k.now && k'.lock == k.lock && k'.idle == k.idle
  }

  /** OSTaskDel. The task is on no list any more, and its TCB is as one that was never used. */
  lemma DelTaskAnswers(k: K, t: Tid)
    requires Inv(k)
    ensures var r := Call(k, OpTaskDel(t));
      && (t == k.idle ==> r == R(k, ErrIdle))
      && (t != k.idle && Get(k, t).state == Deleted ==> r == R(k, ErrStateInvalid))
      && (t != k.idle && Get(k, t).state.Live? ==>
        && r.err == ErrNone && r.k.tcb == k.tcb[t := FreeTcb(|k.rdy|)] && SameRest(k, r.k) && OffEveryList(k, t, r.k))
  {
    hide Inv, TaskDel, OffEveryList, SameRest;
    if t != k.idle && Get(k, t).state.Live? {
      if Get(k, t).state == RDY {
        DelReady(k, t);
      } else {
        DelWaiting(k, t);
      }
    }
    DelRefused(k, t);
  }

  lemma DelRefused(k: K, t: Tid)
    ensures t == k.idle ==> TaskDel(k, t) == R(k, ErrIdle)
    ensures t != k.idle && Get(k, t).state == Deleted ==> TaskDel(k, t) == R(k, ErrStateInvalid)
    ensures t != k.idle && Get(k, t).state.Live? ==> TaskDel(k, t).err == ErrNone
  {
    hide RdyRemove, WheelRemove, Unlink, Sched;
  }

  lemma DelReady(k: K, t: Tid)
    requires Inv(k) && t != k.idle && Get(k, t).state == RDY
    ensures var k' := TaskDel(k, t).k;
      k'.tcb == k.tcb[t := FreeTcb(|k.rdy|)] && SameRest(k, k') && OffEveryList(k, t, k')
  {
    hide Inv, Drop, Sched, TakenOff;
    var p := Get(k, t).prio;
    NotThere(k, t);
    var k1 := Put(RdyRemove(k, t), t, NO_TCB.(prio := |k.rdy|));
    SchedKeepsTcbs(k1, false);
    DropWithout(k.rdy[p], t);
    assert forall o: Oid :: !Listed([], o);
    assert forall i: nat :: i < |k.wheel| ==> Without(k.wheel[i], k1.wheel[i], t);
    assert forall o: Oid :: o in k.wait ==> Without(k.wait[o], k1.wait[o], t);
    assert forall q: nat :: q < |k.rdy| ==> Without(k.rdy[q], k1.rdy[q], t);
  }

  lemma DelWaiting(k: K, t: Tid)
    requires Inv(k) && t != k.idle && Get(k, t).state.Live? && Get(k, t).state != RDY
    ensures var k' := TaskDel(k, t).k;
      k'.tcb == k.tcb[t := FreeTcb(|k.rdy|)] && SameRest(k, k') && OffEveryList(k, t, k')
  {
    hide CoreInv, ObjInv, CurOk, Drop, Sched, TakenOff, TaskDel, UnlinkAll;
    var b := Get(k, t);
    NotThere(k, t);
    TaskDelIs(k, t);
    var k1 := Put(Unlink(WheelRemove(k, t), t), t, NO_TCB.(prio := |k.rdy|));
    SchedKeepsTcbs(k1, false);
    UnlinkAllAt(k.wait, b.tbl, t, 0);
    forall o: Oid | o in k.wait ensures Without(k.wait[o], k1.wait[o], t) {
      UnlinkAllAt(k.wait, b.tbl, t, o);
      DropWithout(k.wait[o], t);
    }
    forall i: nat | i < |k.wheel| ensures Without(k.wheel[i], k1.wheel[i], t) {
      DropWithout(k.wheel[i], t);
    }
    assert forall q: nat :: q < |k.rdy| ==> Without(k.rdy[q], k1.rdy[q], t);
    assert k1.tcb == k.tcb[t := FreeTcb(|k.rdy|)];
  }

  // --------------------------------------------------------------------------------------- suspension

  /** A task is off its ready list if it was ready; no other list changes. */
  ghost predicate LeavesIfReady(k: K, t: Tid, k': K) {
    && (if Get(k, t).state == RDY then LeavesReady(k, t, k') else k'.rdy == k.rdy)
    && k'.wheel == k.wheel && k'.wait == k.wait && SameRest(k, k')
  }

  /** OSTaskSuspend. The suspension is counted, and nothing else about the task changes. */
  lemma SuspendAnswers(k: K, t: Tid)
    requires Inv(k)
    ensures var r := Call(k, OpSuspend(t)); var b := Get(k, t);
      && (t == k.idle ==> r == R(k, ErrIdle))
      && (t != k.idle && t == k.cur && k.lock > 0 ==> r == R(k, ErrSchedLocked))
      && (t != k.idle && (t != k.cur || k.lock == 0) && b.state == Deleted ==> r == R(k, ErrStateInvalid))
      && (t != k.idle && (t != k.cur || k.lock == 0) && b.state.Live? ==>
        && r.err == ErrNone && LeavesIfReady(k, t, r.k)
        && r.k.tcb == k.tcb[t := b.(state := Live(true, b.state.pend, b.state.dly),
                                    suspendCtr := (b.suspendCtr + 1) % 256)])
  {
    hide Inv, SuspendTask, Sched, LeavesIfReady;
    if Get(k, t).state.Live? {
      SuspendIs(k, t);
      SchedKeepsTcbs(SuspendTask(k, t), false);
      LeftSame(k, t, SuspendTask(k, t), Sched(SuspendTask(k, t)));
    }
  }

  lemma LeftSame(k: K, t: Tid, k1: K, k': K)
    requires LeavesIfReady(k, t, k1) && SameLists(k1, k') && k'.lock == k1.lock && k'.idle == k1.idle
    ensures LeavesIfReady(k, t, k')
  {
    hide TakenOff;
  }

  lemma SuspendIs(k: K, t: Tid)
    requires Inv(k) && Get(k, t).state.Live?
    ensures var b := Get(k, t); var k' := SuspendTask(k, t);
      && LeavesIfReady(k, t, k')
      && k'.tcb == k.tcb[t := b.(state := Live(true, b.state.pend, b.state.dly), suspendCtr := (b.suspendCtr + 1) % 256)]
  {
    hide Inv, RdyRemove, LeavesReady;
    PendingOn(k, t);
    if Get(k, t).state == RDY {
      ReadyLeft(k, t, Get(k, t).(state := SUSPENDED, suspendCtr := 1));
    }
  }

  lemma ReadyLeft(k: K, t: Tid, b: Tcb)
    requires Inv(k) && Get(k, t).state == RDY && b.prio == Get(k, t).prio
    ensures var k' := RdyRemove(Put(k, t, b), t);
      LeavesReady(k, t, k') && k'.tcb == k.tcb[t := b] && k' == k.(tcb := k'.tcb, rdy := k'.rdy, prios := k'.prios)
  {
    hide WheelInv, WaitInv, ObjInv, CurOk, Drop, TakenOff;
    TcbOkOf(k, t);
    assert Count(k.rdy[b.prio], t) == 1;
    DropAt(k.rdy[b.prio], t);
  }

  /** OSTaskResume. The last resumption ends the suspension, and makes a task ready that waits for nothing else. */
  lemma ResumeAnswers(k: K, t: Tid)
    requires Inv(k)
    ensures var r := Call(k, OpResume(t)); var b := Get(k, t);
      && (t == k.cur ==> r == R(k, ErrResumeSelf))
      && (t != k.cur && b.state == Deleted ==> r == R(k, ErrStateInvalid))
      && (t != k.cur && b.state.Live? && !b.state.susp ==> r.err == ErrNotSuspended && SameLists(k, r.k))
      && (t != k.cur && b.state.Live? && b.state.susp ==>
        && r.err == ErrNone && b.suspendCtr > 0 && Resumed(k, t, b.suspendCtr - 1, r.k))
  {
    hide Inv, ResumeTask, Sched, Resumed, SameLists;
    SchedSame(k);
    PendingOn(k, t);
    if Get(k, t).state.Live? && Get(k, t).state.susp {
      ResumeIs(k, t);
      SchedKeepsTcbs(ResumeTask(k, t), false);
      ResumedSame(k, t, Get(k, t).suspendCtr - 1, ResumeTask(k, t), Sched(ResumeTask(k, t)));
    }
  }

  /** The suspension counter of t is n; at zero t is not suspended any more, and ready if it neither waits nor is
      delayed. */
  predicate Resumed(k: K, t: Tid, n: nat, k': K) {
    var b := Get(k, t);
    && b.state.Live?
    && k'.tcb == k.tcb[t := b.(suspendCtr := n, state := Live(n > 0, b.state.pend, b.state.dly))]
    && k'.wheel == k.wheel && k'.wait == k.wait && SameRest(k, k')
    && if n == 0 && !b.state.pend && !b.state.dly
       then b.prio < |k.rdy| && k'.rdy == JoinedBy(k.rdy, t, b.prio, b.prio == k.prioCur)
       else k'.rdy == k.rdy
  }

  lemma ResumedSame(k: K, t: Tid, n: nat, k1: K, k': K)
    requires Resumed(k, t, n, k1) && SameLists(k1, k') && k'.lock == k1.lock && k'.idle == k1.idle
    ensures Resumed(k, t, n, k')
  {
  }

  lemma ResumeIs(k: K, t: Tid)
    requires Inv(k) && Get(k, t).state.Live? && Get(k, t).state.susp
    ensures Get(k, t).suspendCtr > 0 && Resumed(k, t, Get(k, t).suspendCtr - 1, ResumeTask(k, t))
  {
    hide ReadyInv, WheelInv, WaitInv, ObjInv, CurOk;
    TcbOkOf(k, t);
    CountDown(Get(k, t).suspendCtr);
  }

  // ----------------------------------------------------------------------------------------- priority

  /** The task gets the new priority; then the scheduler may run. */
  ghost predicate GetsPrioThen(k: K, t: Tid, p: nat, atTail: bool, requeue: bool, k': K) {
    exists k1: K :: GetsPrio(k, t, p, atTail, requeue, k1) && SameLists(k1, k')
  }

  /** OSTaskChangePrio. The lowest priority is not to be had. A ready task goes to the tail of its new list, and to the
      head if it changes its own priority by the null pointer; a task that waits for objects other than flags queues
      again. */
  lemma ChangePrioAnswers(k: K, t: Tid, prio: nat, self: bool)
    requires Inv(k)
    ensures var r := Call(k, OpChangePrio(t, prio, self));
      && (prio + 1 >= |k.rdy| ==> r == R(k, ErrPrioInvalid))
      && (prio + 1 < |k.rdy| && Get(k, t).state == Deleted ==> r == R(k, ErrStateInvalid))
      && (prio + 1 < |k.rdy| && Get(k, t).state.Live? ==>
        r.err == ErrNone && GetsPrioThen(k, t, prio, !self, Get(k, t).pendOn != OnFlag, r.k))
  {
    hide Inv, ChangePrio, Sched, GetsPrio, SameLists;
    if prio + 1 < |k.rdy| && Get(k, t).state.Live? {
      ChangePrioGets(k, t, prio, !self);
      SchedSame(ChangePrio(k, t, prio, !self));
    }
  }

  /** OSTaskSemPendAbort and OSTaskQPendAbort. What the task finds says `WaitAnswers.OwnWaitFinds`. */
  lemma TaskPendAbortAnswers(k: K, t: Tid, on: PendOn, noSched: bool)
    requires Inv(k) && on != OnNothing
    ensures var r := Call(k, OpTaskPendAbort(t, on, noSched));
      && (t == k.cur ==> r == R(k, ErrAbortSelf))
      && (t != k.cur && Get(k, t).pendOn != on ==> r == R(k, ErrAbortNone))
      && (t != k.cur && Get(k, t).pendOn == on ==> r.err == ErrNone && BecomesReady(k, t, r.k))
  {
    hide Inv, Wake, MaybeSched, BecomesReady;
    PendingOn(k, t);
    OwnReady(k, t, Aborted(None), noSched);
  }

  // ---------------------------------------------------------------------------------------- scheduler

  /** OSSchedRoundRobinYield: the first task of the running priority goes behind the others of it, once. */
  lemma RoundRobinAnswers(k: K)
    requires Inv(k)
    ensures var r := Call(k, OpRoundRobin); var p := k.prioCur;
      && (k.lock > 0 ==> r == R(k, ErrSchedLocked))
      && (k.lock == 0 && (p >= |k.rdy| || |k.rdy[p]| < 2) ==> r == R(k, ErrRoundRobin1))
      && (k.lock == 0 && p < |k.rdy| && |k.rdy[p]| >= 2 ==>
        r.err == ErrNone && SameLists(k.(rdy := k.rdy[p := k.rdy[p][1..] + [k.rdy[p][0]]]), r.k))
  {
    hide Inv, Sched, SameLists;
    if k.prioCur < |k.rdy| {
      SchedSame(k.(rdy := k.rdy[k.prioCur := Rotate(k.rdy[k.prioCur])]));
    }
  }

  /** OSSchedLock: up to 250 locks nest. */
  lemma LockAnswers(k: K)
    ensures Call(k, OpLock) == if k.lock >= 250 then R(k, ErrLockOvf) else R(k.(lock := k.lock + 1), ErrNone)
  {
  }

  /** OSSchedUnlock: one lock less; the scheduler runs with the last. */
  lemma UnlockAnswers(k: K)
    ensures var r := Call(k, OpUnlock);
      && (k.lock == 0 ==> r == R(k, ErrNotLocked))
      && (k.lock > 1 ==> r == R(k.(lock := k.lock - 1), ErrSchedLocked))
      && (k.lock == 1 ==> r.err == ErrNone && r.k.lock == 0 && SameLists(k, r.k) && r.k == Step(k.(lock := 0), OpSched))
  {
    hide FirstReady;
  }

  /** OSSched: nothing while the scheduler is locked; else the first task of the highest priority runs. */
  lemma SchedAnswers(k: K)
    requires Inv(k)
    ensures var r := Call(k, OpSched);
      && r.err == ErrNone && SameLists(k, r.k) && SameRest(k, r.k)
      && (k.lock > 0 ==> r.k == k)
      && (k.lock == 0 ==> HeadsHighest(k, r.k.cur) && r.k.prioCur == if r.k.cur == k.cur then k.prioCur else Get(k, r.k.cur).prio)
  {
    hide Inv, Sched, HeadsHighest;
    SchedSame(k);
    SchedKeepsTcbs(k, false);
    SchedChooses(k);
  }

  lemma SchedChooses(k: K)
    requires Inv(k)
    ensures var k' := Sched(k);
      && (k.lock > 0 ==> k' == k)
      && (k.lock == 0 ==> HeadsHighest(k, k'.cur) && k'.prioCur == if k'.cur == k.cur then k.prioCur else Get(k, k'.cur).prio)
  {
    hide ReadyInv, WheelInv, WaitInv, TcbInv, ObjInv, FirstReady;
    FirstReadyHead(k);
  }

  /** t is the first of the tasks that are ready at its priority, and nobody is ready at a higher one. */
  ghost predicate HeadsHighest(k: K, t: Tid) {
    var p := Get(k, t).prio;
    && p < |k.rdy| && k.rdy[p] != [] && k.rdy[p][0] == t && Get(k, t).state == RDY
    && forall x: Tid :: Get(k, x).state == RDY ==> p <= Get(k, x).prio
  }
}
