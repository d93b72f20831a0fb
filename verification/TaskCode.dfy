/** os_task.c, os_time.c and os_mutex.c as they are coded: the switches over the eight task states. */
module TaskCode {
  import opened TaskLists
  import opened KernelState
  import opened KernelOps
  import opened ListMoves
  import opened CoreKept
  import opened ObjKept
  import opened WakeMany
  import opened Services
  import opened ServicesKept
  import opened ObjectsKept
  import opened MutexKept
  import opened KernelCode
  import opened ObjectCode

  /** A task whose TCB agrees with the lists. */
  ghost predicate InOrder(k: K, t: Tid) {
    t in k.tcb && TcbOk(k.tcb[t], |k.rdy|, |k.wheel|, k.now)
  }

  /** The switch of OS_TaskSuspend. */
  method SuspendSwitch(s: Kernel, t: Tid)
    requires InOrder(s.State(), t) && s.tcb[t].state.Live?
    modifies s`tcb, s`rdy, s`prios
    ensures s.State() == SuspendTask(old(s.State()), t)
  {
    match s.tcb[t].state
    case Live(false, false, false) =>
      s.tcb := s.tcb[t := s.tcb[t].(state := SUSPENDED, suspendCtr := 1)];
      s.RdyListRemove(t);
    case Live(false, false, true) =>
      s.tcb := s.tcb[t := s.tcb[t].(state := DLY_SUSPENDED, suspendCtr := 1)];
    case Live(false, true, false) =>
      s.tcb := s.tcb[t := s.tcb[t].(state := PEND_SUSPENDED, suspendCtr := 1)];
    case Live(false, true, true) =>
      s.tcb := s.tcb[t := s.tcb[t].(state := PEND_TIMEOUT_SUSPENDED, suspendCtr := 1)];
    case Live(true, _, _) =>
      s.tcb := s.tcb[t := s.tcb[t].(suspendCtr := (s.tcb[t].suspendCtr + 1) % 256)];
  }

  /** A suspension leaves the idle task ready, also the one that makes the counter wrap. */
  lemma SuspendPrios(k: K, t: Tid)
    requires Inv(k) && t in k.tcb && k.tcb[t].state.Live? && t != k.idle
    ensures PriosOk(SuspendTask(k, t))
  {
    hide ReadyInv, WheelInv, WaitInv, ObjInv, TcbInv;
    TcbOkOf(k, t);
    SoundPrios(k);
    if !k.tcb[t].state.susp {
      hide SuspendTask;
      SuspendKept(k, t);
      ObjStays(k, t, SuspendTask(k, t));
      SoundPrios(SuspendTask(k, t));
    }
  }

  /** OSTaskSuspend. The idle task cannot be suspended; the rest is OS_TaskSuspend. */
  method Suspend(s: Kernel, t: Tid) returns (err: Err)
    requires Inv(s.State())
    modifies s
    ensures R(s.State(), err) == TaskSuspend(old(s.State()), t)
  {
    hide ReadyInv, WheelInv, WaitInv, ObjInv, SuspendTask;
    if t == s.idle {
      return ErrIdle;
    }
    if t == s.cur && s.lock > 0 {
      return ErrSchedLocked;
    }
    if t !in s.tcb || s.tcb[t].state == Deleted {
      return ErrStateInvalid;
    }
    TcbOkOf(s.State(), t);
    SuspendPrios(s.State(), t);
    SuspendSwitch(s, t);
    Reschedule(s, false);
    return ErrNone;
  }

  /** What OS_TaskResume does to a suspended task, case by case. */
  lemma ResumeForm(k: K, t: Tid)
    requires InOrder(k, t) && k.tcb[t].state.Live? && k.tcb[t].state.susp
    ensures var b := k.tcb[t].(suspendCtr := k.tcb[t].suspendCtr - 1); b.suspendCtr >= 0
    ensures var b := k.tcb[t].(suspendCtr := k.tcb[t].suspendCtr - 1);
      ResumeTask(k, t) ==
        if b.suspendCtr > 0 then Put(k, t, b)
        else if b.state == SUSPENDED then RdyInsert(WheelRemove(Put(k, t, b.(state := RDY)), t), t)
        else Put(k, t, b.(state := Live(false, b.state.pend, b.state.dly)))
  {
    hide RdyInsert, WheelRemove;
    CountDown(k.tcb[t].suspendCtr);
  }

  /** The switch of OS_TaskResume for a suspended task. */
  method ResumeSwitch(s: Kernel, t: Tid)
    requires InOrder(s.State(), t) && s.tcb[t].state.Live? && s.tcb[t].state.susp
    modifies s`tcb, s`wheel, s`rdy, s`prios
    ensures s.State() == ResumeTask(old(s.State()), t)
  {
    hide ResumeTask, RdyInsert, WheelRemove;
    ghost var k, b := s.State(), s.tcb[t].(suspendCtr := s.tcb[t].suspendCtr - 1);
    ResumeForm(k, t);
    s.tcb := s.tcb[t := s.tcb[t].(suspendCtr := s.tcb[t].suspendCtr - 1)];
    if s.tcb[t].suspendCtr == 0 {
      match s.tcb[t].state
      case Live(true, false, false) =>
        s.tcb := s.tcb[t := s.tcb[t].(state := RDY)];
        assert s.State() == Put(k, t, b.(state := RDY));
        s.TaskRdy(t);
      case Live(true, false, true) =>
        s.tcb := s.tcb[t := s.tcb[t].(state := DLY)];
      case Live(true, true, false) =>
        s.tcb := s.tcb[t := s.tcb[t].(state := PEND)];
      case Live(true, true, true) =>
        s.tcb := s.tcb[t := s.tcb[t].(state := PEND_TIMEOUT)];
    }
  }

  /** OSTaskResume. */
  method Resume(s: Kernel, t: Tid) returns (err: Err)
    requires Inv(s.State())
    modifies s
    ensures R(s.State(), err) == TaskResume(old(s.State()), t)
  {
    hide ReadyInv, WheelInv, WaitInv, ObjInv, ResumeTask;
    if t == s.cur {
      return ErrResumeSelf;
    }
    if t !in s.tcb || s.tcb[t].state == Deleted {
      return ErrStateInvalid;
    }
    if !s.tcb[t].state.susp {
      Reschedule(s, false);
      return ErrNotSuspended;
    }
    TcbOkOf(s.State(), t);
    ResumeKept(s.State(), t);
    ObjStays(s.State(), t, ResumeTask(s.State(), t));
    ResumeSwitch(s, t);
    Reschedule(s, false);
    return ErrNone;
  }

  // -------------------------------------------------------------------------------------- priorities

  /** A ready task moves: OS_RdyListRemove, the new priority, OS_PrioInsert and the insertion at one end. */
  method MoveReadyTask(s: Kernel, t: Tid, prio: nat, atTail: bool)
    requires t in s.tcb && s.tcb[t].prio < |s.rdy| && prio < |s.rdy|
    modifies s`tcb, s`rdy, s`prios
    ensures s.State() == MoveReady(old(s.State()), t, prio, atTail)
  {
    s.RdyListRemove(t);
    s.tcb := s.tcb[t := s.tcb[t].(prio := prio)];
    s.prios := s.prios + {prio};
    if atTail {
      s.rdy := s.rdy[prio := s.rdy[prio] + [t]];
    } else {
      s.rdy := s.rdy[prio := [t] + s.rdy[prio]];
    }
  }

  /** The switches over the task state and the kind of object in OSTaskChangePrio. */
  method ChangePrioSwitch(s: Kernel, t: Tid, prio: nat, atTail: bool)
    requires CoreInv(s.State()) && t in s.tcb && s.tcb[t].state.Live? && prio < |s.rdy|
    modifies s`tcb, s`rdy, s`prios, s`wait
    ensures s.State() == ChangePrio(old(s.State()), t, prio, atTail)
  {
    hide CoreInv, MoveReady, MovePending;
    ghost var k := s.State();
    OnItsLists(k, t);
    MembersHaveTcbs(k);
    match s.tcb[t].state
    case Live(false, false, false) =>
      MoveReadyTask(s, t, prio, atTail);
    case Live(_, true, _) =>
      match s.tcb[t].pendOn {
        case OnTaskQ => s.tcb := s.tcb[t := s.tcb[t].(prio := prio)];
        case OnTaskSem => s.tcb := s.tcb[t := s.tcb[t].(prio := prio)];
        case OnFlag => s.tcb := s.tcb[t := s.tcb[t].(prio := prio)];
        case OnNothing => PendsOnSomething(k, t);
        case _ => s.PendListChangePrio(t, prio);
      }
    case Live(_, false, _) =>
      s.tcb := s.tcb[t := s.tcb[t].(prio := prio)];
  }

  /** OSTaskChangePrio. */
  method ChangePriority(s: Kernel, t: Tid, prio: nat, self: bool) returns (err: Err)
    requires Inv(s.State())
    modifies s
    ensures R(s.State(), err) == TaskChangePrio(old(s.State()), t, prio, self)
  {
    hide CoreInv, ObjInv, ChangePrio, TcbOk;
    if prio + 1 >= |s.rdy| {
      return ErrPrioInvalid;
    }
    if t !in s.tcb || s.tcb[t].state == Deleted {
      return ErrStateInvalid;
    }
    ChangePrioLists(s.State(), t, prio, !self);
    ChangePrioSwitch(s, t, prio, !self);
    Reschedule(s, false);
    return ErrNone;
  }

  lemma PendsOnSomething(k: K, t: Tid)
    requires CoreInv(k) && t in k.tcb && k.tcb[t].state.Live? && k.tcb[t].state.pend
    ensures k.tcb[t].pendOn != OnNothing
  {
    hide ReadyInv, WheelInv, WaitInv;
    TcbOkOf(k, t);
  }

  lemma ChangePrioLists(k: K, t: Tid, prio: nat, atTail: bool)
    requires Inv(k) && t in k.tcb && k.tcb[t].state.Live? && prio < |k.rdy|
    ensures var k' := ChangePrio(k, t, prio, atTail);
      ListsInv(k') && Get(k', k'.idle).state == RDY && k'.lock == k.lock && k'.cur == k.cur
  {
    hide ReadyInv, WheelInv, WaitInv, TcbInv, ChangePrio;
    ChangePrioKept(k, t, prio, atTail);
    ObjStays(k, t, ChangePrio(k, t, prio, atTail));
  }

  /** The switch in OSMutexPend and OSMutexDel that gives the owner another priority. */
  method ChangeOwnerPrio(s: Kernel, t: Tid, prio: nat, atTail: bool)
    requires CoreInv(s.State()) && t in s.tcb && s.tcb[t].state.Live? && prio < |s.rdy|
    modifies s`tcb, s`rdy, s`prios, s`wait
    ensures s.State() == SetOwnerPrio(old(s.State()), t, prio, atTail)
  {
    hide CoreInv, MoveReady, MovePending;
    ghost var k := s.State();
    OnItsLists(k, t);
    MembersHaveTcbs(k);
    match s.tcb[t].state
    case Live(false, false, false) =>
      MoveReadyTask(s, t, prio, atTail);
    case Live(_, true, _) =>
      s.PendListChangePrio(t, prio);
    case Live(_, false, _) =>
      s.tcb := s.tcb[t := s.tcb[t].(prio := prio)];
  }

  // -------------------------------------------------------------------------------- create and delete

  /** OSTaskCreate. Like the source it does not ask whether the TCB is in use (see `Departures.TaskCreateExactly`). */
  method CreateTask(s: Kernel, t: Tid, prio: nat, qMax: nat) returns (err: Err)
    requires PriosOk(s.State())
    modifies s
    ensures R(s.State(), err) == TaskCreate(old(s.State()), t, prio, qMax)
  {
    if prio >= |s.rdy| || (prio == |s.rdy| - 1 && t != s.idle) {
      return ErrPrioInvalid;
    }
    ghost var k := s.State();
    s.tcb := s.tcb[t := NO_TCB];
    s.tcb := s.tcb[t := s.tcb[t].(state := RDY, prio := prio, taskQMax := qMax)];
    s.prios := s.prios + {prio};
    s.rdy := s.rdy[prio := s.rdy[prio] + [t]];
    assert s.tcb == k.tcb[t := NO_TCB.(state := RDY, prio := prio, taskQMax := qMax)];
    Reschedule(s, false);
    return ErrNone;
  }

  /** OSTaskDel. */
  method DeleteTask(s: Kernel, t: Tid) returns (err: Err)
    requires Inv(s.State())
    modifies s
    ensures R(s.State(), err) == TaskDel(old(s.State()), t)
  {
    hide CoreInv, ObjInv, UnlinkAll, WheelDrop, Drop;
    if t == s.idle {
      return ErrIdle;
    }
    if t !in s.tcb || s.tcb[t].state == Deleted {
      return ErrStateInvalid;
    }
    ghost var k := s.State();
    OnItsLists(k, t);
    DelLists(k, t);
    TakeOffLists(s, t);
    s.tcb := s.tcb[t := NO_TCB.(prio := |s.rdy|)];
    Reschedule(s, false);
    return ErrNone;
  }

  /** The lists a deleted task is taken off. */
  function Removed(k: K, t: Tid): K {
    var b := Get(k, t);
    if b.state == RDY then RdyRemove(k, t)
    else if b.state == SUSPENDED then k
    else if b.state.Live? && (!b.state.pend || NoObject(b.pendOn)) then WheelRemove(k, t)
    else Unlink(WheelRemove(k, t), t)
  }

  method TakeOffLists(s: Kernel, t: Tid)
    requires t in s.tcb && s.tcb[t].state.Live? && s.tcb[t].prio < |s.rdy| && -1 <= s.tcb[t].spoke < |s.wheel|
    requires forall i: nat :: i < |s.tcb[t].tbl| ==> s.tcb[t].tbl[i].obj in s.wait
    modifies s`tcb, s`wheel, s`wait, s`rdy, s`prios
    ensures s.State() == Removed(old(s.State()), t)
  {
    if s.tcb[t].state == RDY {
      s.RdyListRemove(t);
    } else if s.tcb[t].state == DLY || s.tcb[t].state == DLY_SUSPENDED {
      s.TickListRemove(t);
    } else if s.tcb[t].state != SUSPENDED {
      s.TickListRemove(t);
      match s.tcb[t].pendOn {
        case OnNothing =>
        case OnTaskQ =>
        case OnTaskSem =>
        case _ => s.PendListRemove(t);
      }
    }
  }

  lemma DelLists(k: K, t: Tid)
    requires Inv(k) && t != k.idle && t in k.tcb && k.tcb[t].state.Live?
    ensures PriosOk(Put(Removed(k, t), t, NO_TCB.(prio := |k.rdy|)))
    ensures |Removed(k, t).rdy| == |k.rdy|
  {
    hide ReadyInv, WheelInv, WaitInv, TcbInv, ObjInv;
    var b := NO_TCB.(prio := |k.rdy|);
    var k' := Put(Removed(k, t), t, b);
    if k.tcb[t].state == RDY {
      RdyRemoveKept(k, t, b);
    } else {
      RemovedIs(k, t, b);
      RemoveKept(k, t, b);
    }
    SoundPrios(k');
  }

  lemma RemovedIs(k: K, t: Tid, b: Tcb)
    requires CoreInv(k) && t in k.tcb && k.tcb[t].state.Live? && k.tcb[t].state != RDY
    ensures Put(Removed(k, t), t, b) == Put(Unlink(WheelRemove(k, t), t), t, b) && |Removed(k, t).rdy| == |k.rdy|
  {
    hide ReadyInv, WheelInv, WaitInv, TcbInv;
    TcbOkOf(k, t);
    assert Put(Unlink(WheelRemove(k, t), t), t, b).tcb == k.tcb[t := b];
    assert Put(k, t, b).tcb == k.tcb[t := b];
    assert Put(WheelRemove(k, t), t, b).tcb == k.tcb[t := b];
  }

  // -------------------------------------------------------------------------------------------- time

  /** OSTimeDly. */
  method Delay(s: Kernel, dly: Tick, opt: TimeOpt) returns (err: Err)
    requires Inv(s.State()) && s.cur != s.idle
    modifies s
    ensures R(s.State(), err) == TimeDly(old(s.State()), dly, opt)
  {
    hide ReadyInv, WaitInv, TcbInv, ObjInv, Timed, RdyRemove, WheelAdd, Sleep;
    if s.lock > 0 {
      return ErrSchedLocked;
    }
    if opt != OptMatch && dly == 0 {
      return ErrZeroDly;
    }
    ghost var k := s.State();
    TcbOkOf(k, s.cur);
    MembersHaveTcbs(k);
    DlySteps(k, dly, opt);
    s.tcb := s.tcb[s.cur := s.tcb[s.cur].(state := DLY)];
    var ok := s.TickListInsert(s.cur, dly, opt);
    if !ok {
      return ErrZeroDly;
    }
    s.RdyListRemove(s.cur);
    Reschedule(s, false);
    return ErrNone;
  }

  /** What OSTimeDly does before the scheduler runs. */
  lemma DlySteps(k: K, dly: Tick, opt: TimeOpt)
    requires Inv(k) && k.cur != k.idle && (dly != 0 || opt == OptMatch)
    ensures var k0 := Put(k, k.cur, k.tcb[k.cur].(state := DLY)); var k1 := TickInsert(k0, k.cur, dly, opt);
      var b := Timed(k.tcb[k.cur].(state := DLY), k.now, |k.wheel|, dly, opt);
      && k.cur in k1.tcb && k1.tcb[k.cur].prio == k.tcb[k.cur].prio
      && (DueTime(k.now, k.tcb[k.cur].prev, dly, opt).None? ==> k1 == Put(k, k.cur, b) && b.spoke == -1)
      && (DueTime(k.now, k.tcb[k.cur].prev, dly, opt).Some? ==>
        && RdyRemove(k1, k.cur) == Sleep(k, k.cur, b) && b.spoke != -1 && ListsInv(Sleep(k, k.cur, b))
        && Get(Sleep(k, k.cur, b), k.idle).state == RDY && Sleep(k, k.cur, b).idle == k.idle)
  {
    hide ReadyInv, WaitInv, TcbInv, ObjInv, RdyRemove, WheelAdd, Sleep, RemainOrder;
    TcbOkOf(k, k.cur);
    var k0 := Put(k, k.cur, k.tcb[k.cur].(state := DLY));
    var k1 := TickInsert(k0, k.cur, dly, opt);
    var b := Timed(k.tcb[k.cur].(state := DLY), k.now, |k.wheel|, dly, opt);
    DueLater(k.now, k.tcb[k.cur].prev, dly, opt);
    assert k0.tcb[k.cur := b] == k.tcb[k.cur := b];
    NoSpoke(k.wheel, k.cur, RemainOrder(k.tcb[k.cur := b], k.now));
    if DueTime(k.now, k.tcb[k.cur].prev, dly, opt).Some? {
      SleepIs(k, k.cur, b);
      RdyRemoveIs(k, k1, k.cur);
      LinkNothing(k.wait, k.cur, PrioOrder(k.tcb[k.cur := b]));
      SleepLists(k, b);
    }
  }

  lemma LinkNothing(wait: map<Oid, seq<Tid>>, t: Tid, ord: Order)
    ensures LinkAll(wait, [], t, ord) == wait
  {
  }

  lemma DelayedExpirable(k: K, t: Tid)
    requires CoreInv(k) && t in k.tcb && k.tcb[t].state.Live? && k.tcb[t].state.dly
    ensures Expirable(k, t)
  {
    hide ReadyInv, WheelInv, WaitInv;
    OnItsLists(k, t);
    TcbOkOf(k, t);
  }

  /** OSTimeDlyResume. */
  method ResumeDelayed(s: Kernel, t: Tid) returns (err: Err)
    requires Inv(s.State())
    modifies s
    ensures R(s.State(), err) == TimeDlyResume(old(s.State()), t)
  {
    hide CoreInv, ObjInv, Wake, Finish, UnlinkAll, WheelDrop, Enqueue;
    if t == s.cur {
      return ErrNotDly;
    }
    if t !in s.tcb || s.tcb[t].state == Deleted {
      Reschedule(s, false);
      return ErrStateInvalid;
    }
    err := ErrNotDly;
    if s.tcb[t].state == DLY || s.tcb[t].state == DLY_SUSPENDED {
      ghost var k, b := s.State(), s.tcb[t];
      var susp := s.tcb[t].state == DLY_SUSPENDED;
      DelayedExpirable(k, t);
      WakeListsInv(k, t, DelayOver);
      s.tcb := s.tcb[t := s.tcb[t].(state := if susp then SUSPENDED else RDY)];
      s.TaskRdyOrNot(t, susp);
      NoTable(k.wait, t);
      DelayFinish(b);
      assert s.tcb == k.tcb[t := Finish(b, DelayOver)];
      ExpiredIs(k, t, DelayOver, s.State());
      err := if susp then ErrTaskSuspended else ErrNone;
    }
    Reschedule(s, false);
  }

  // -------------------------------------------------------------------------- signals and messages to a task

  /** OSTaskSemPend. */
  method PendTaskSem(s: Kernel, timeout: Tick, nonBlocking: bool) returns (err: Err)
    requires Inv(s.State()) && s.cur != s.idle
    modifies s
    ensures R(s.State(), err) == TaskSemPend(old(s.State()), timeout, nonBlocking)
  {
    hide CoreInv, ObjInv, BlockCur;
    if s.tcb[s.cur].semCtr > 0 {
      s.tcb := s.tcb[s.cur := s.tcb[s.cur].(semCtr := s.tcb[s.cur].semCtr - 1)];
      return ErrNone;
    }
    err := BlockCaller(s, OnTaskSem, [], timeout, nonBlocking);
  }

  lemma NoObjectPended(k: K, t: Tid)
    requires Inv(k) && t in k.tcb && k.tcb[t].state.Live?
    ensures (k.tcb[t].pendOn == OnTaskSem || k.tcb[t].pendOn == OnTaskQ) ==> k.tcb[t].state.pend
    ensures ListsInv(k)
  {
    hide ReadyInv, WheelInv, WaitInv;
    TcbOkOf(k, t);
  }

  /** OS_TaskSemPost. */
  method PostTaskSem(s: Kernel, t: Tid, noSched: bool) returns (err: Err)
    requires Inv(s.State())
    modifies s
    ensures R(s.State(), err) == TaskSemPost(old(s.State()), t, noSched)
  {
    hide CoreInv, ObjInv, Wake, MaybeSched;
    if t !in s.tcb || s.tcb[t].state == Deleted {
      return ErrStateInvalid;
    }
    ghost var k := s.State();
    NoObjectPended(k, t);
    if s.tcb[t].pendOn == OnTaskSem {
      WakeListsInv(k, t, Posted(None, NO_MSG));
      s.Post(None, t, NO_MSG);
      Reschedule(s, noSched);
      return ErrNone;
    }
    if s.tcb[t].semCtr == SEM_MAX {
      return ErrSemOvf;
    }
    s.tcb := s.tcb[t := s.tcb[t].(semCtr := s.tcb[t].semCtr + 1)];
    return ErrNone;
  }

  /** OSTaskQPend. */
  method PendTaskQ(s: Kernel, timeout: Tick, nonBlocking: bool) returns (err: Err)
    requires Inv(s.State()) && s.cur != s.idle
    modifies s
    ensures R(s.State(), err) == TaskQPend(old(s.State()), timeout, nonBlocking)
  {
    hide CoreInv, ObjInv, BlockCur;
    if s.tcb[s.cur].taskQ != [] {
      s.tcb := s.tcb[s.cur := s.tcb[s.cur].(taskQ := s.tcb[s.cur].taskQ[1..])];
      return ErrNone;
    }
    err := BlockCaller(s, OnTaskQ, [], timeout, nonBlocking);
  }

  /** OS_TaskQPost. */
  method PostTaskQ(s: Kernel, t: Tid, m: Msg, lifo: bool, noSched: bool, poolEmpty: bool) returns (err: Err)
    requires Inv(s.State())
    modifies s
    ensures R(s.State(), err) == TaskQPost(old(s.State()), t, m, lifo, noSched, poolEmpty)
  {
    hide CoreInv, ObjInv, Wake, MaybeSched, MsgPut;
    if t !in s.tcb || s.tcb[t].state == Deleted {
      return ErrStateInvalid;
    }
    ghost var k := s.State();
    NoObjectPended(k, t);
    if s.tcb[t].pendOn == OnTaskQ {
      WakeListsInv(k, t, Posted(None, m));
      s.Post(None, t, m);
      Reschedule(s, noSched);
      return ErrNone;
    }
    var (q, e) := MsgPut(s.tcb[t].taskQ, s.tcb[t].taskQMax, m, lifo, poolEmpty);
    s.tcb := s.tcb[t := s.tcb[t].(taskQ := q)];
    return e;
  }

  /** OSTaskSemPendAbort and OSTaskQPendAbort. */
  method AbortTaskPend(s: Kernel, t: Tid, on: PendOn, noSched: bool) returns (err: Err)
    requires Inv(s.State()) && t in s.tcb && (on == OnTaskSem || on == OnTaskQ)
    modifies s
    ensures R(s.State(), err) == TaskPendAbort(old(s.State()), t, on, noSched)
  {
    hide CoreInv, ObjInv, Wake, MaybeSched;
    if t == s.cur {
      return ErrAbortSelf;
    }
    if s.tcb[t].pendOn != on {
      return ErrAbortNone;
    }
    WakeListsInv(s.State(), t, Aborted(None));
    s.PendAbort(None, t);
    Reschedule(s, noSched);
    return ErrNone;
  }

  // ----------------------------------------------------------------------------------------- mutexes

  /** The caller waits for a mutex that is owned by another task, which inherits its priority. */
  method WaitForOwner(s: Kernel, o: Oid, t: Tid, timeout: Tick) returns (err: Err)
    requires Inv(s.State()) && s.cur != s.idle && s.lock == 0
    requires o in s.obj && s.obj[o].Mutex? && s.obj[o].owner == Some(t) && t != s.cur
    modifies s
    ensures R(s.State(), err) ==
      R(Sched(Block(RaiseOwner(old(s.State()), t, old(s.tcb[s.cur].prio)), old(s.cur), OnMutex, Entry(o), timeout)), Blocked)
  {
    hide CoreInv, ObjInv, Block, SetOwnerPrio, Sched;
    ghost var k := s.State();
    ObjOkOf(k, o);
    OwnerLive(k, o);
    PrioInRangeOf(k, s.cur);
    RaiseOwnerInv(k, t, s.tcb[s.cur].prio);
    if s.tcb[t].prio > s.tcb[s.cur].prio {
      ChangeOwnerPrio(s, t, s.tcb[s.cur].prio, false);
    }
    EntryOk(s.State(), OnMutex, o);
    err := BlockCaller(s, OnMutex, Entry(o), timeout, false);
  }

  /** OSMutexPend. */
  method PendMutex(s: Kernel, o: Oid, timeout: Tick, nonBlocking: bool) returns (err: Err)
    requires Inv(s.State()) && s.cur != s.idle
    modifies s
    ensures R(s.State(), err) == MutexPend(old(s.State()), o, timeout, nonBlocking)
  {
    hide CoreInv, Block, RaiseOwner, Sched;
    if o !in s.obj || !s.obj[o].Mutex? {
      return ErrObjType;
    }
    ObjOkOf(s.State(), o);
    var v := s.obj[o];
    if v.nest == 0 {
      s.obj := s.obj[o := Mutex(Some(s.cur), 1, s.tcb[s.cur].prio)];
      return ErrNone;
    }
    if v.owner == Some(s.cur) {
      s.obj := s.obj[o := v.(nest := (v.nest + 1) % 256)];
      return ErrMutexOwner;
    }
    if nonBlocking {
      return ErrWouldBlock;
    }
    if s.lock > 0 {
      return ErrSchedLocked;
    }
    err := WaitForOwner(s, o, v.owner.value, timeout);
  }

  lemma PrioInRangeOf(k: K, t: Tid)
    requires CoreInv(k) && t in k.tcb && k.tcb[t].state.Live?
    ensures k.tcb[t].prio < |k.rdy|
  {
    hide ReadyInv, WheelInv, WaitInv;
    TcbOkOf(k, t);
  }

  /** OSMutexPost. */
  method PostMutex(s: Kernel, o: Oid, noSched: bool) returns (err: Err)
    requires Inv(s.State())
    modifies s
    ensures R(s.State(), err) == MutexPost(old(s.State()), o, noSched)
  {
    hide CoreInv, Wake, MoveReady, MaybeSched;
    if o !in s.obj || !s.obj[o].Mutex? {
      return ErrObjType;
    }
    ghost var k := s.State();
    ObjOkOf(k, o);
    var v := s.obj[o];
    if v.owner != Some(s.cur) {
      return ErrMutexNotOwner;
    }
    if v.nest > 1 {
      s.obj := s.obj[o := v.(nest := v.nest - 1)];
      return ErrMutexNesting;
    }
    if s.wait[o] == [] {
      s.obj := s.obj[o := Mutex(None, 0, v.orig)];
      return ErrNone;
    }
    GrantSteps(k, o);
    PrioInRangeOf(k, s.cur);
    if s.tcb[s.cur].prio != v.orig {
      MoveReadyTask(s, s.cur, v.orig, true);
      s.prioCur := v.orig;
    }
    var t := s.wait[o][0];
    s.obj := s.obj[o := Mutex(Some(t), 1, s.tcb[t].prio)];
    s.Post(Some(o), t, NO_MSG);
    Reschedule(s, noSched);
    return ErrNone;
  }

  /** The release of a mutex with waiters, step by step. */
  lemma GrantSteps(k: K, o: Oid)
    requires Inv(k) && Object(k, o).Mutex? && Object(k, o).owner == Some(k.cur) && Waiters(k, o) != []
    ensures var k1 := RestoreCur(k, Object(k, o).orig); var t := k.wait[o][0];
      && Object(k, o).orig < |k.rdy| && k.cur in k.tcb && k1.wait == k.wait && k1.obj == k.obj
      && t in k1.tcb && Listed(k1.tcb[t].tbl, o)
      && CoreInv(SetObj(k1, o, Mutex(Some(t), 1, k1.tcb[t].prio)))
      && var k2 := Granted(k, o, Object(k, o).orig, t);
      && ListsInv(k2) && Get(k2, k2.idle).state == RDY && k2.idle == k.idle
  {
    hide ReadyInv, WheelInv, WaitInv, TcbInv, RestoreCur, Wake, TcbOk;
    var k1 := RestoreCur(k, Object(k, o).orig);
    var t := k.wait[o][0];
    OwnerLive(k, o);
    RestoreCurInv(k, Object(k, o).orig);
    RestoreCurWait(k, Object(k, o).orig);
    GrantedInv(k, o);
    CountPositive(k.wait[o], 0);
    WaiterPends(k1, t, o);
    SetObjWait(k1, o, Mutex(Some(t), 1, k1.tcb[t].prio));
    SameTasks(k1, SetObj(k1, o, Mutex(Some(t), 1, k1.tcb[t].prio)));
  }

  lemma RestoreCurWait(k: K, orig: nat)
    ensures RestoreCur(k, orig).wait == k.wait
  {
  }

  /** OSMutexDel. */
  method DeleteMutex(s: Kernel, o: Oid, always: bool) returns (err: Err, nbrTasks: nat)
    requires Inv(s.State())
    modifies s
    ensures R(s.State(), err) == MutexDel(old(s.State()), o, always)
    ensures nbrTasks == if err == ErrObjType then 0 else |Waiters(old(s.State()), o)|
  {
    hide CoreInv, WakeAll, SetOwnerPrio, Sched;
    if o !in s.obj || !s.obj[o].Mutex? {
      return ErrObjType, 0;
    }
    ghost var k := s.State();
    SameKeys(k);
    ghost var w := s.wait[o];
    nbrTasks := |s.wait[o]|;
    if !always {
      if nbrTasks != 0 {
        return ErrTaskWaiting, nbrTasks;
      }
      s.obj := s.obj[o := Gone];
      return ErrNone, nbrTasks;
    }
    var v := s.obj[o];
    if v.owner.Some? {
      OwnerLive(k, o);
      if s.tcb[v.owner.value].prio != v.orig {
        OwnerPrioInv(k, v.owner.value, v.orig, true);
        OwnListStays(k, o, v.owner.value, v.orig);
        ChangeOwnerPrio(s, v.owner.value, v.orig, true);
      }
    }
    assert s.wait[o] == w;
    DeleteWaiters(s, o);
    SetObjKept(s.State(), o, Gone);
    s.obj := s.obj[o := Gone];
    Reschedule(s, false);
    return ErrNone, nbrTasks;
  }

  /** The owner is not in the pend list of its mutex, so that moving it leaves the list alone. */
  lemma OwnListStays(k: K, o: Oid, t: Tid, prio: nat)
    requires CoreInv(k) && t in k.tcb && o in k.wait && !Listed(k.tcb[t].tbl, o)
    ensures var k' := SetOwnerPrio(k, t, prio, true); o in k'.wait && k'.wait[o] == k.wait[o]
  {
    hide ReadyInv, WheelInv, WaitInv;
    TcbOkOf(k, t);
    ResortAllAt(k.wait, k.tcb[t].tbl, t, PrioOrder(Put(k, t, Get(k, t).(prio := prio)).tcb), o);
  }
}
