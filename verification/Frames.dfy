/** What a call does to each task. A task that the call does not name keeps its task control block as it is, unless it is
    one of those the call wakes, which are told exactly; a wait ends through exactly the calls listed; and nobody's own
    signals, messages and period change but through the calls that are about them.
  */
module Frames {
  import opened TaskLists
  import opened KernelState
  import opened KernelOps
  import opened CoreKept
  import opened ObjKept
  import opened Services
  import opened ObjectsKept
  import opened FlagsMultiKept
  import opened MutexKept
  import opened TickWheel
  import opened Departures
  import opened Run
  import opened Effects
  import opened MutexRun
  import opened Broadcast

  /** t is a parameter of the call, makes it, or owns the mutex it is about. */
  predicate Names(k: K, op: Op, t: Tid) {
    match op
    case OpTaskCreate(x, _, _) => x == t
    case OpTaskDel(x) => x == t
    case OpSuspend(x) => x == t
    case OpResume(x) => x == t
    case OpChangePrio(x, _, _) => x == t
    case OpDlyResume(x) => x == t
    case OpTaskSemPost(x, _) => x == t
    case OpTaskQPost(x, _, _, _, _) => x == t
    case OpTaskPendAbort(x, _, _) => x == t
    case OpMutexPend(o, _, _) => t == k.cur || Holds(k, t, o)
    case OpMutexDel(o, _) => Holds(k, t, o)
    case OpMutexPost(_, _) => t == k.cur
    case _ => t == k.cur && Pends(op)
  }

  /** The call may put the caller to sleep. */
  predicate Pends(op: Op) {
    op.OpDly? || op.OpSemPend? || op.OpQPend? || op.OpMutexPend? || op.OpFlagPend? || op.OpMultiPend?
    || op.OpTaskSemPend? || op.OpTaskQPend?
  }

  /** t is the first that waits for o, or any of them if all are meant. */
  predicate FirstOrAll(k: K, o: Oid, t: Tid, all: bool) {
    Listed(Get(k, t).tbl, o) && (all || (Waiters(k, o) != [] && Waiters(k, o)[0] == t))
  }

  /** The call wakes t, which waits for its object. */
  predicate Wakes(k: K, op: Op, t: Tid) {
    match op
    case OpObjDel(o, always) => always && !Object(k, o).Gone? && !Object(k, o).Mutex? && FirstOrAll(k, o, t, true)
    case OpPendAbort(o, all, noSched) => FirstOrAll(k, o, t, all && !noSched)
    case OpSemPost(o, all, _) => Object(k, o).Sem? && FirstOrAll(k, o, t, all)
    case OpQPost(o, _, _, all, _, _) => Object(k, o).Queue? && FirstOrAll(k, o, t, all)
    case OpMutexPost(o, _) => Holds(k, k.cur, o) && Object(k, o).nest <= 1 && FirstOrAll(k, o, t, false)
    case OpMutexDel(o, always) => Object(k, o).Mutex? && always && FirstOrAll(k, o, t, true)
    case OpFlagPost(o, bits, set', _) =>
      Object(k, o).FlagGrp? && FirstOrAll(k, o, t, true) && MetBy(Get(k, t), PostedFlags(Object(k, o).flags, bits, set'))
    case _ => false
  }

  /** A task as the call that woke it leaves it. */
  function WokenTcb(k: K, op: Op, b: Tcb): Tcb {
    match op
    case OpObjDel(o, _) => Finish(b, ObjDeleted(Some(o)))
    case OpPendAbort(o, _, _) => Finish(b, Aborted(Some(o)))
    case OpSemPost(o, _, _) => Finish(b, Posted(Some(o), NO_MSG))
    case OpQPost(o, m, _, _, _, _) => Finish(b, Posted(Some(o), m))
    case OpMutexPost(o, _) => Finish(b, Posted(Some(o), NO_MSG))
    case OpMutexDel(o, _) => Finish(b, ObjDeleted(Some(o)))
    case OpFlagPost(o, bits, set', _) =>
      FlagWoken(b, PostedFlags(if Object(k, o).FlagGrp? then Object(k, o).flags else 0, bits, set'))
    case _ => b
  }

  /** The task's own signals and messages and the last due time of its period are the same. */
  predicate SameOwn(b: Tcb, b': Tcb) {
    b'.semCtr == b.semCtr && b'.taskQ == b.taskQ && b'.taskQMax == b.taskQMax && b'.prev == b.prev
  }

  /** t is woken by the call, or untouched. */
  predicate Apart(k: K, op: Op, t: Tid, k': K) {
    Get(k', t) == if Wakes(k, op, t) then WokenTcb(k, op, Get(k, t)) else Get(k, t)
  }

  lemma FinishOwn(b: Tcb, ev: Event)
    ensures SameOwn(b, Finish(b, ev)) && Finish(b, ev).prio == b.prio
  {
  }

  lemma FlagOwn(b: Tcb, flags: Flags)
    ensures SameOwn(b, FlagWoken(b, flags))
  {
  }

  // ------------------------------------------------------------------------------- calls on one task

  /** Only the TCB of x changes. */
  ghost predicate Only(k: K, x: Tid, k': K) {
    forall t: Tid :: t != x ==> Get(k', t) == Get(k, t)
  }

  lemma OnlyIs(k: K, x: Tid, k1: K, k': K)
    requires k1.tcb == k.tcb[x := Get(k1, x)] && k'.tcb == k1.tcb
    ensures Only(k, x, k')
  {
  }

  lemma DelOnly(k: K, t: Tid)
    ensures Only(k, t, TaskDel(k, t).k)
  {
    hide RdyRemove, WheelDrop, UnlinkAll;
    var b := Get(k, t);
    RdyRemoveTcb(k, t);
    var k1 := if b.state == RDY then RdyRemove(k, t)
      else if b.state == SUSPENDED then k
      else if !b.state.Live? || !b.state.pend || NoObject(b.pendOn) then WheelRemove(k, t)
      else Unlink(WheelRemove(k, t), t);
    if t != k.idle && b.state != Deleted {
      OnlyIs(k, t, Put(k1, t, NO_TCB.(prio := |k.rdy|)), TaskDel(k, t).k);
    }
  }

  /** Suspending a task, and resuming it, changes neither what is its own nor how long it waits. */
  predicate SameWait(b: Tcb, b': Tcb) {
    && b'.pendOn == b.pendOn && b'.tbl == b.tbl && b'.due == b.due && b'.spoke == b.spoke && b'.status == b.status
    && (b.state.Live? ==> b'.state.Live? && b'.state.pend == b.state.pend && b'.state.dly == b.state.dly)
  }

  lemma SuspendOnly(k: K, t: Tid)
    ensures Only(k, t, SuspendTask(k, t))
    ensures SameOwn(Get(k, t), Get(SuspendTask(k, t), t)) && SameWait(Get(k, t), Get(SuspendTask(k, t), t))
  {
    hide RdyRemove, SameOwn, SameWait;
    RdyRemoveTcb(Put(k, t, Get(k, t).(state := SUSPENDED, suspendCtr := 1)), t);
    SuspendedSame(Get(k, t));
  }

  lemma SuspendedSame(b: Tcb)
    ensures SameOwn(b, b) && SameWait(b, b)
    ensures forall n: nat :: SameOwn(b, b.(suspendCtr := n)) && SameWait(b, b.(suspendCtr := n))
    ensures b.state.Live? ==> var b' := b.(state := Live(true, b.state.pend, b.state.dly), suspendCtr := 1);
      SameOwn(b, b') && SameWait(b, b')
  {
  }

  lemma RdyInsertTcb(k: K, t: Tid)
    ensures RdyInsert(k, t).tcb == k.tcb
  {
  }

  lemma ResumeOnly(k: K, t: Tid)
    ensures Only(k, t, ResumeTask(k, t)) && SameOwn(Get(k, t), Get(ResumeTask(k, t), t))
    ensures Get(k, t).state.Live? && (Get(k, t).state.pend || Get(k, t).state.dly) ==>
      SameWait(Get(k, t), Get(ResumeTask(k, t), t))
  {
    hide RdyInsert, WheelDrop;
    var b := Get(k, t);
    if b.state != Deleted && b.state.susp {
      var n := (b.suspendCtr + 255) % 256;
      var s := if n == 0 then Live(false, b.state.pend, b.state.dly) else b.state;
      var k1 := Put(k, t, b.(suspendCtr := n, state := s));
      RdyInsertTcb(WheelRemove(k1, t), t);
    }
  }

  lemma TaskOpsApart(k: K, op: Op, t: Tid)
    requires op.OpTaskCreate? || op.OpTaskDel? || op.OpSuspend? || op.OpResume? || op.OpChangePrio? || op.OpDly?
    requires !Names(k, op, t)
    ensures Get(Step(k, op), t) == Get(k, t)
  {
    hide Sched, RdyPut, RdyRemove, SuspendTask, ResumeTask, MoveReady, MovePending, Sleep, Timed, TaskDel;
    match op
    case OpTaskCreate(x, prio, qMax) =>
      var k1 := Put(k, x, NO_TCB.(state := RDY, prio := prio, taskQMax := qMax));
      RdyPutTcb(k1, x, true);
      SchedKeepsTcbs(RdyPut(k1, x, true), false);
    case OpTaskDel(x) => DelOnly(k, x);
    case OpSuspend(x) =>
      SuspendOnly(k, x);
      SchedKeepsTcbs(SuspendTask(k, x), false);
    case OpResume(x) =>
      ResumeOnly(k, x);
      SchedKeepsTcbs(k, false);
      SchedKeepsTcbs(ResumeTask(k, x), false);
    case OpChangePrio(x, prio, self) => PrioApart(k, x, prio, self, t);
    case OpDly(dly, opt) => DlyApart(k, dly, opt, t);
  }

  lemma PrioApart(k: K, x: Tid, prio: nat, self: bool, t: Tid)
    requires t != x
    ensures Get(TaskChangePrio(k, x, prio, self).k, t) == Get(k, t)
  {
    hide Sched, MoveReady, MovePending;
    MovePrioTcb(k, x, prio, !self);
    SchedKeepsTcbs(ChangePrio(k, x, prio, !self), false);
  }

  lemma DlyApart(k: K, dly: Tick, opt: TimeOpt, t: Tid)
    requires t != k.cur
    ensures Get(TimeDly(k, dly, opt).k, t) == Get(k, t)
  {
    hide Sched, Sleep, Timed;
    var b := Timed(Get(k, k.cur).(state := DLY), k.now, |k.wheel|, dly, opt);
    SleepTcb(k, k.cur, b);
    SchedKeepsTcbs(Sleep(k, k.cur, b), false);
  }

  // -------------------------------------------------------------------------- pends, signals, messages

  lemma BlockCurOnly(k: K, on: PendOn, tbl: seq<PendData>, timeout: Tick, nonBlocking: bool)
    ensures var k' := BlockCur(k, on, tbl, timeout, nonBlocking).k;
      Only(k, k.cur, k') && SameOwn(Get(k, k.cur), Get(k', k.cur))
  {
    hide Sleep, BlockedTcb, Sched;
    var b := BlockedTcb(Get(k, k.cur), on, tbl, timeout, k.now, |k.wheel|);
    SleepTcb(k, k.cur, b);
    SchedKeepsTcbs(Sleep(k, k.cur, b), false);
    BlockedOwn(Get(k, k.cur), on, tbl, timeout, k.now, |k.wheel|);
  }

  lemma BlockedOwn(b: Tcb, on: PendOn, tbl: seq<PendData>, timeout: Tick, now: Tick, size: nat)
    ensures SameOwn(b, BlockedTcb(b, on, tbl, timeout, now, size))
  {
  }

  lemma WakeOnly(k: K, t: Tid, ev: Event, noSched: bool)
    ensures var k' := MaybeSched(Wake(k, t, ev), noSched);
      && Only(k, t, k')
      && Get(k', t) == if Ends(ev, Get(k, t).state) then Finish(Get(k, t), ev) else Get(k, t)
  {
    hide Wake, Finish, Sched;
    if Ends(ev, Get(k, t).state) {
      WakeTcb(k, t, ev);
    } else {
      NotWoken(k, t, ev);
    }
    SchedKeepsTcbs(Wake(k, t, ev), noSched);
  }

  lemma NotWoken(k: K, t: Tid, ev: Event)
    requires !Ends(ev, Get(k, t).state)
    ensures Wake(k, t, ev) == k
  {
  }

  lemma SemPendOnly(k: K, o: Oid, timeout: Tick, nonBlocking: bool)
    ensures var k' := SemPend(k, o, timeout, nonBlocking).k;
      Only(k, k.cur, k') && SameOwn(Get(k, k.cur), Get(k', k.cur))
  {
    hide BlockCur;
    BlockCurOnly(k, OnSem, Entry(o), timeout, nonBlocking);
  }

  lemma QPendOnly(k: K, o: Oid, timeout: Tick, nonBlocking: bool)
    ensures var k' := QPend(k, o, timeout, nonBlocking).k;
      Only(k, k.cur, k') && SameOwn(Get(k, k.cur), Get(k', k.cur))
  {
    hide BlockCur;
    BlockCurOnly(k, OnQ, Entry(o), timeout, nonBlocking);
  }

  lemma MultiPendOnly(k: K, tbl: seq<PendData>, timeout: Tick, nonBlocking: bool)
    ensures var k' := MultiPend(k, tbl, timeout, nonBlocking).k;
      Only(k, k.cur, k') && SameOwn(Get(k, k.cur), Get(k', k.cur))
  {
    hide BlockCur, TakeReady, MultiValid;
    BlockCurOnly(k, OnMulti, TakeReady(k.obj, tbl).1, timeout, nonBlocking);
  }

  lemma TaskSemPendOnly(k: K, timeout: Tick, nonBlocking: bool)
    ensures Only(k, k.cur, TaskSemPend(k, timeout, nonBlocking).k)
  {
    hide BlockCur;
    BlockCurOnly(k, OnTaskSem, [], timeout, nonBlocking);
  }

  lemma TaskQPendOnly(k: K, timeout: Tick, nonBlocking: bool)
    ensures Only(k, k.cur, TaskQPend(k, timeout, nonBlocking).k)
  {
    hide BlockCur;
    BlockCurOnly(k, OnTaskQ, [], timeout, nonBlocking);
  }

  lemma PendsOnly(k: K, op: Op)
    requires op.OpSemPend? || op.OpQPend? || op.OpMultiPend? || op.OpTaskSemPend? || op.OpTaskQPend?
    ensures Only(k, k.cur, Step(k, op))
  {
    hide SemPend, QPend, MultiPend, TaskSemPend, TaskQPend, SameOwn, Only;
    match op
    case OpSemPend(o, timeout, nonBlocking) => SemPendOnly(k, o, timeout, nonBlocking);
    case OpQPend(o, timeout, nonBlocking) => QPendOnly(k, o, timeout, nonBlocking);
    case OpMultiPend(tbl, timeout, nonBlocking) => MultiPendOnly(k, tbl, timeout, nonBlocking);
    case OpTaskSemPend(timeout, nonBlocking) => TaskSemPendOnly(k, timeout, nonBlocking);
    case OpTaskQPend(timeout, nonBlocking) => TaskQPendOnly(k, timeout, nonBlocking);
  }

  lemma PendsOwn(k: K, op: Op)
    requires op.OpSemPend? || op.OpQPend? || op.OpMultiPend?
    ensures SameOwn(Get(k, k.cur), Get(Step(k, op), k.cur))
  {
    hide SemPend, QPend, MultiPend, SameOwn, Only;
    match op
    case OpSemPend(o, timeout, nonBlocking) => SemPendOnly(k, o, timeout, nonBlocking);
    case OpQPend(o, timeout, nonBlocking) => QPendOnly(k, o, timeout, nonBlocking);
    case OpMultiPend(tbl, timeout, nonBlocking) => MultiPendOnly(k, tbl, timeout, nonBlocking);
  }

  lemma OwnSelf(b: Tcb)
    ensures SameOwn(b, b)
  {
  }

  lemma SignalsApart(k: K, op: Op, t: Tid)
    requires op.OpTaskSemPost? || op.OpTaskQPost? || op.OpTaskPendAbort? || op.OpDlyResume?
    requires !Names(k, op, t)
    ensures Get(Step(k, op), t) == Get(k, t)
  {
    hide Call, TaskSemPost, TaskQPost, TaskPendAbort, TimeDlyResume;
    SignalSteps(k, op);
    match op
    case OpTaskSemPost(x, noSched) => SemPostApart(k, x, noSched, t);
    case OpTaskQPost(x, m, lifo, noSched, poolEmpty) => QPostApart(k, x, m, lifo, noSched, poolEmpty, t);
    case OpTaskPendAbort(x, on, noSched) => AbortApart(k, x, on, noSched, t);
    case OpDlyResume(x) => ResumeDlyApart(k, x, t);
  }

  lemma SemPostApart(k: K, x: Tid, noSched: bool, t: Tid)
    requires t != x
    ensures Get(TaskSemPost(k, x, noSched).k, t) == Get(k, t)
  {
    hide Wake, MaybeSched, Finish;
    WakeOnly(k, x, Posted(None, NO_MSG), noSched);
  }

  lemma QPostApart(k: K, x: Tid, m: Msg, lifo: bool, noSched: bool, poolEmpty: bool, t: Tid)
    requires t != x
    ensures Get(TaskQPost(k, x, m, lifo, noSched, poolEmpty).k, t) == Get(k, t)
  {
    hide Wake, MaybeSched, Finish, MsgPut;
    WakeOnly(k, x, Posted(None, m), noSched);
  }

  lemma AbortApart(k: K, x: Tid, on: PendOn, noSched: bool, t: Tid)
    requires t != x
    ensures Get(TaskPendAbort(k, x, on, noSched).k, t) == Get(k, t)
  {
    hide Wake, MaybeSched, Finish;
    WakeOnly(k, x, Aborted(None), noSched);
  }

  lemma ResumeDlyApart(k: K, x: Tid, t: Tid)
    requires t != x
    ensures Get(TimeDlyResume(k, x).k, t) == Get(k, t)
  {
    hide Wake, Sched;
    WakeOnly(k, x, DelayOver, false);
    SchedKeepsTcbs(k, false);
  }

  // ----------------------------------------------------------------------------------- calls on objects

  /** The tasks that are woken when one or all of the waiters of o are. */
  lemma SomeWoken(k: K, o: Oid, all: bool, ev: Event, noSched: bool, t: Tid)
    requires ListsInv(k) && Waiters(k, o) != [] && !ev.DelayOver?
    ensures var w := Waiters(k, o);
      Get(MaybeSched(WakeAll(k, if all then w else w[..1], ev), noSched), t) ==
        if FirstOrAll(k, o, t, all) then Finish(Get(k, t), ev) else Get(k, t)
  {
    hide CoreInv, ObjInv, WakeAll, Finish, Sched;
    var w := Waiters(k, o);
    if all {
      BroadcastWakesEachOnce(k, o, ev);
    } else {
      FirstWoken(k, o, ev);
      CountPositive(w, 0);
      InList(k, o, w[0]);
    }
    SchedKeepsTcbs(WakeAll(k, if all then w else w[..1], ev), noSched);
  }

  lemma NobodyListed(k: K, o: Oid, t: Tid)
    requires ListsInv(k) && Waiters(k, o) == []
    ensures !Listed(Get(k, t).tbl, o)
  {
    hide CoreInv, ObjInv;
    InList(k, o, t);
  }

  lemma ObjOpsApart(k: K, op: Op, t: Tid)
    requires Inv(k)
    requires op.OpPendAbort? || op.OpSemPost? || op.OpQPost?
    ensures Apart(k, op, t, Step(k, op))
  {
    hide Inv, PendAbort, SemPost, QPost, FirstOrAll, Finish;
    match op
    case OpPendAbort(o, all, noSched) => PendAbortTcb(k, o, all, noSched, t);
    case OpSemPost(o, all, noSched) => SemPostTcb(k, o, all, noSched, t);
    case OpQPost(o, m, lifo, all, noSched, poolEmpty) => QPostTcb(k, o, m, lifo, all, noSched, poolEmpty, t);
  }

  lemma PendAbortTcb(k: K, o: Oid, all: bool, noSched: bool, t: Tid)
    requires Inv(k)
    ensures Get(PendAbort(k, o, all, noSched).k, t) ==
      if FirstOrAll(k, o, t, all && !noSched) then Finish(Get(k, t), Aborted(Some(o))) else Get(k, t)
  {
    hide CoreInv, CurOk, WakeAll, Finish, MaybeSched;
    ObjOkOf(k, o);
    if Waiters(k, o) != [] {
      SomeWoken(k, o, all && !noSched, Aborted(Some(o)), noSched, t);
    } else {
      NobodyListed(k, o, t);
    }
  }

  lemma SemPostTcb(k: K, o: Oid, all: bool, noSched: bool, t: Tid)
    requires Inv(k)
    ensures Get(SemPost(k, o, all, noSched).k, t) ==
      if Object(k, o).Sem? && FirstOrAll(k, o, t, all) then Finish(Get(k, t), Posted(Some(o), NO_MSG)) else Get(k, t)
  {
    hide CoreInv, ObjInv, CurOk, WakeAll, Finish, MaybeSched;
    if Waiters(k, o) != [] {
      SomeWoken(k, o, all, Posted(Some(o), NO_MSG), noSched, t);
    } else {
      NobodyListed(k, o, t);
    }
  }

  lemma QPostTcb(k: K, o: Oid, m: Msg, lifo: bool, all: bool, noSched: bool, poolEmpty: bool, t: Tid)
    requires Inv(k)
    ensures Get(QPost(k, o, m, lifo, all, noSched, poolEmpty).k, t) ==
      if Object(k, o).Queue? && FirstOrAll(k, o, t, all) then Finish(Get(k, t), Posted(Some(o), m)) else Get(k, t)
  {
    hide CoreInv, ObjInv, CurOk, WakeAll, Finish, MaybeSched, MsgPut;
    if Waiters(k, o) != [] {
      SomeWoken(k, o, all, Posted(Some(o), m), noSched, t);
    } else {
      NobodyListed(k, o, t);
    }
  }

  lemma DelApart(k: K, o: Oid, always: bool, t: Tid)
    requires Inv(k)
    ensures Apart(k, OpObjDel(o, always), t, ObjDel(k, o, always).k)
  {
    hide CoreInv, CurOk, WakeAll, Finish, Sched;
    var ev := ObjDeleted(Some(o));
    ObjOkOf(k, o);
    if !Object(k, o).Gone? {
      BroadcastWakesEachOnce(k, o, ev);
      SchedKeepsTcbs(SetObj(WakeAll(k, Waiters(k, o), ev), o, Gone), false);
    }
  }

  lemma FlagsApart(k: K, op: Op, t: Tid)
    requires Inv(k) && (op.OpFlagPend? || op.OpFlagConsume? || op.OpFlagPost?)
    ensures t != k.cur || !op.OpFlagPend? ==> Apart(k, op, t, Step(k, op))
    ensures SameOwn(Get(k, t), Get(Step(k, op), t))
  {
    hide Inv, Call, FlagPend, FlagPost, FlagConsume, Apart, SameOwn;
    OwnSelf(Get(k, t));
    FlagSteps(k, op);
    match op
    case OpFlagPend(o, want, mode, consume, timeout, nonBlocking) =>
      FlagPendOnly(k, o, want, mode, consume, timeout, nonBlocking);
      if t != k.cur {
        ApartSame(k, op, t, Step(k, op));
      }
    case OpFlagConsume(o) =>
      ConsumeTcbs(k, o);
      ApartSame(k, op, t, Step(k, op));
    case OpFlagPost(o, bits, set', noSched) =>
      FlagPostTcb(k, o, bits, set', noSched, t);
      FlagPostApart(k, o, bits, set', noSched, t);
  }

  lemma ConsumeTcbs(k: K, o: Oid)
    ensures FlagConsume(k, o).k.tcb == k.tcb
  {
    hide FlagConsumed;
  }

  lemma FlagPostApart(k: K, o: Oid, bits: Flags, set': bool, noSched: bool, t: Tid)
    requires Inv(k)
    ensures Apart(k, OpFlagPost(o, bits, set', noSched), t, FlagPost(k, o, bits, set', noSched).k)
  {
    hide Inv, FlagPost, FirstOrAll, MetBy, FlagWoken, PostedFlags, SameOwn;
    FlagPostTcb(k, o, bits, set', noSched, t);
  }

  lemma FlagPostTcb(k: K, o: Oid, bits: Flags, set': bool, noSched: bool, t: Tid)
    requires Inv(k)
    ensures var flags := PostedFlags(if Object(k, o).FlagGrp? then Object(k, o).flags else 0, bits, set');
      Get(FlagPost(k, o, bits, set', noSched).k, t) ==
        if Object(k, o).FlagGrp? && FirstOrAll(k, o, t, true) && MetBy(Get(k, t), flags) then FlagWoken(Get(k, t), flags)
        else Get(k, t)
    ensures SameOwn(Get(k, t), Get(FlagPost(k, o, bits, set', noSched).k, t))
  {
    hide CoreInv, CurOk, ObjInv, FlagPost, FlagWoken, PostedFlags, MetBy, SameOwn;
    OwnSelf(Get(k, t));
    if Object(k, o).FlagGrp? {
      FlagOwn(Get(k, t), PostedFlags(Object(k, o).flags, bits, set'));
      FlagPostWakesExactlyTheMet(k, o, bits, set', noSched, t);
    } else {
      NoGroup(k, o, bits, set', noSched);
    }
  }

  lemma NoGroup(k: K, o: Oid, bits: Flags, set': bool, noSched: bool)
    requires !Object(k, o).FlagGrp?
    ensures FlagPost(k, o, bits, set', noSched).k == k
  {
  }

  lemma FlagPendOnly(k: K, o: Oid, want: Flags, mode: FlagMode, consume: bool, timeout: Tick, nonBlocking: bool)
    ensures var k' := FlagPend(k, o, want, mode, consume, timeout, nonBlocking).k;
      Only(k, k.cur, k') && SameOwn(Get(k, k.cur), Get(k', k.cur))
  {
    hide BlockCur, FlagMet, FlagBits, FlagConsumed;
    var k1 := Put(k, k.cur, Get(k, k.cur).(flagsPend := want, flagsMode := mode, flagsRdy := 0));
    BlockCurOnly(k1, OnFlag, Entry(o), timeout, false);
  }

  // -------------------------------------------------------------------------------------------- mutexes

  /** Asking for a mutex leaves a task as it is, raises it as the owner, or puts it to sleep as the caller. */
  lemma MutexPendTcb(k: K, o: Oid, timeout: Tick, nonBlocking: bool, t: Tid)
    ensures var b, b' := Get(k, t), Get(MutexPend(k, o, timeout, nonBlocking).k, t);
      || b' == b
      || (t != k.cur && Holds(k, t, o) && b' == b.(prio := Get(k, k.cur).prio))
      || (t == k.cur && b' == BlockedTcb(b, OnMutex, Entry(o), timeout, k.now, |k.wheel|))
  {
    hide RaiseOwner, Block, BlockedTcb, Sched;
    match Object(k, o)
    case Mutex(Some(w), nest, orig) =>
      if w != k.cur {
        MutexBlockTcbs(k, o, w, timeout);
      }
    case _ =>
  }

  lemma MutexPendApart(k: K, o: Oid, timeout: Tick, nonBlocking: bool, t: Tid)
    ensures !Names(k, OpMutexPend(o, timeout, nonBlocking), t) ==>
      Get(MutexPend(k, o, timeout, nonBlocking).k, t) == Get(k, t)
    ensures SameOwn(Get(k, t), Get(MutexPend(k, o, timeout, nonBlocking).k, t))
    ensures t != k.cur ==> SameWait(Get(k, t), Get(MutexPend(k, o, timeout, nonBlocking).k, t))
  {
    hide MutexPend, BlockedTcb, SameOwn, SameWait;
    MutexPendTcb(k, o, timeout, nonBlocking, t);
    BlockedOwn(Get(k, t), OnMutex, Entry(o), timeout, k.now, |k.wheel|);
    SamePrioOwn(Get(k, t), Get(k, k.cur).prio);
    SamePrioWait(Get(k, t), Get(k, k.cur).prio);
  }

  lemma MutexPostApart(k: K, o: Oid, noSched: bool, t: Tid)
    requires Inv(k)
    ensures t != k.cur ==> Apart(k, OpMutexPost(o, noSched), t, MutexPost(k, o, noSched).k)
    ensures SameOwn(Get(k, t), Get(MutexPost(k, o, noSched).k, t))
  {
    hide Inv, RestoreCur, Wake, MaybeSched, Finish;
    if Holds(k, k.cur, o) && Object(k, o).nest <= 1 {
      FinishOwn(Get(k, t), Posted(Some(o), NO_MSG));
      if Waiters(k, o) != [] {
        GrantEffect(k, o, noSched);
      }
    }
  }

  /** What the deletion of a mutex with its waiters does to a task: the owner gets its priority back, the waiters are
      woken. */
  lemma MutexDelTcb(k: K, o: Oid, t: Tid)
    requires Inv(k) && Object(k, o).Mutex?
    ensures var b := Get(k, t); var b' := Get(MutexDel(k, o, true).k, t);
      b' == if Holds(k, t, o) then b.(prio := Object(k, o).orig)
        else if Listed(b.tbl, o) then Finish(b, ObjDeleted(Some(o))) else b
  {
    hide CoreInv, ObjInv, CurOk, SetOwnerPrio, WakeAll, Sched, Finish;
    var ev := ObjDeleted(Some(o));
    var w := Waiters(k, o);
    var owner, orig := Object(k, o).owner, Object(k, o).orig;
    var k1 := if owner.Some? && Get(k, owner.value).prio != orig then SetOwnerPrio(k, owner.value, orig, true) else k;
    if owner.Some? {
      OwnerLive(k, o);
      SetOwnerPrioTcb(k, owner.value, orig, true);
      OwnerPrioInv(k, owner.value, orig, true);
    }
    InList(k, o, t);
    OwnedPend(k, o, k1);
    WakeAllAt(k1, w, ev, t);
    SchedKeepsTcbs(SetObj(WakeAll(k1, w, ev), o, Gone), false);
  }

  lemma OwnedPend(k: K, o: Oid, k1: K)
    requires Inv(k) && Object(k, o).Mutex? && |k1.rdy| == |k.rdy|
    requires Object(k, o).owner == None ==> k1.tcb == k.tcb
    requires Object(k, o).owner.Some? ==> var x := Object(k, o).owner.value;
      k1.tcb == k.tcb || k1.tcb == k.tcb[x := Get(k, x).(prio := Object(k, o).orig)]
    ensures AllPend(k1, Waiters(k, o))
  {
    hide CoreInv, ObjInv, CurOk;
    WaitersPend(k, o);
    forall x: Tid | Count(Waiters(k, o), x) > 0 ensures Count(Waiters(k, o), x) == 1 && Pending(k1, x) {
      assert Pending(k, x);
      if Holds(k, x, o) {
        OwnerLive(k, o);
        InList(k, o, x);
      }
    }
  }

  lemma MutexDelApart(k: K, o: Oid, always: bool, t: Tid)
    requires Inv(k)
    ensures !Holds(k, t, o) ==> Apart(k, OpMutexDel(o, always), t, MutexDel(k, o, always).k)
    ensures SameOwn(Get(k, t), Get(MutexDel(k, o, always).k, t))
    ensures Holds(k, t, o) ==> SameWait(Get(k, t), Get(MutexDel(k, o, always).k, t))
  {
    hide Inv, Finish, SetOwnerPrio, WakeAll, Sched;
    FinishOwn(Get(k, t), ObjDeleted(Some(o)));
    if Object(k, o).Mutex? && always {
      MutexDelTcb(k, o, t);
    }
  }

  // ------------------------------------------------------------------------------------------ every call

  /** The frame theorem: apart from the tick, every call leaves each task that it does not name either untouched or, if it
      is one of those it wakes, with exactly the TCB given. */
  lemma OthersStay(k: K, op: Op, t: Tid)
    requires Inv(k) && !op.OpTick? && !Names(k, op, t)
    ensures Apart(k, op, t, Step(k, op))
  {
    hide Inv, Call, Apart, Names;
    if op.OpTaskCreate? || op.OpTaskDel? || op.OpSuspend? || op.OpResume? || op.OpChangePrio? || op.OpDly? {
      TaskOpsApart(k, op, t);
      ApartSame(k, op, t, Step(k, op));
    } else if op.OpSemPend? || op.OpQPend? || op.OpMultiPend? || op.OpTaskSemPend? || op.OpTaskQPend? {
      NotCaller(k, op, t);
      PendsOnly(k, op);
      ApartSame(k, op, t, Step(k, op));
    } else if op.OpTaskSemPost? || op.OpTaskQPost? || op.OpTaskPendAbort? || op.OpDlyResume? {
      SignalsApart(k, op, t);
      ApartSame(k, op, t, Step(k, op));
    } else if op.OpPendAbort? || op.OpSemPost? || op.OpQPost? {
      ObjOpsApart(k, op, t);
    } else if op.OpFlagPend? || op.OpFlagConsume? || op.OpFlagPost? {
      NotCaller(k, op, t);
      FlagsApart(k, op, t);
    } else if op.OpObjDel? || op.OpMutexPend? || op.OpMutexPost? || op.OpMutexDel? {
      RestApart(k, op, t);
    } else {
      if op.OpCreate? || op.OpSemSet? || op.OpQFlush? { ContentsOnly(k, op); } else { SchedOnly(k, op); }
      ApartSame(k, op, t, Step(k, op));
    }
  }

  lemma NotCaller(k: K, op: Op, t: Tid)
    requires !Names(k, op, t)
    ensures Pends(op) || op.OpMutexPost? ==> t != k.cur
    ensures op.OpMutexDel? || op.OpMutexPend? ==> !Holds(k, t, op.o)
  {
  }

  /** The calls that wake tasks that wait for an object. */
  predicate Waker(op: Op) {
    op.OpObjDel? || op.OpPendAbort? || op.OpSemPost? || op.OpQPost? || op.OpMutexPost? || op.OpMutexDel? || op.OpFlagPost?
  }

  lemma ApartSame(k: K, op: Op, t: Tid, k': K)
    requires Get(k', t) == Get(k, t) && !Waker(op)
    ensures Apart(k, op, t, k')
  {
  }

  lemma RestApart(k: K, op: Op, t: Tid)
    requires Inv(k) && !Names(k, op, t)
    requires op.OpObjDel? || op.OpMutexPend? || op.OpMutexPost? || op.OpMutexDel?
    ensures Apart(k, op, t, Step(k, op))
  {
    hide Inv, Apart, Names, Call, ObjDel, MutexPend, MutexPost, MutexDel;
    NotCaller(k, op, t);
    if op.OpObjDel? {
      ObjDelStep(k, op);
    } else {
      MutexSteps(k, op);
    }
    match op {
      case OpObjDel(o, always) => DelApart(k, o, always, t);
      case OpMutexPend(o, timeout, nonBlocking) =>
        MutexPendApart(k, o, timeout, nonBlocking, t);
        ApartSame(k, op, t, Step(k, op));
      case OpMutexPost(o, noSched) => MutexPostApart(k, o, noSched, t);
      case OpMutexDel(o, always) => MutexDelApart(k, o, always, t);
    }
  }

  lemma SchedOnly(k: K, op: Op)
    requires op.OpRoundRobin? || op.OpLock? || op.OpUnlock? || op.OpSched?
    ensures Step(k, op).tcb == k.tcb
  {
    hide FirstReady, Rotate;
  }

  lemma ContentsOnly(k: K, op: Op)
    requires op.OpCreate? || op.OpSemSet? || op.OpQFlush?
    ensures Step(k, op).tcb == k.tcb
  {
  }

  /** The calls that are about the task's own signals, messages or period. */
  predicate AboutOwn(k: K, op: Op, t: Tid) {
    match op
    case OpTaskCreate(x, _, _) => x == t
    case OpTaskDel(x) => x == t
    case OpTaskSemPost(x, _) => x == t
    case OpTaskQPost(x, _, _, _, _) => x == t
    case OpTaskSemPend(_, _) => t == k.cur
    case OpTaskQPend(_, _) => t == k.cur
    case OpDly(_, opt) => t == k.cur && opt == OptPeriodic
    case _ => false
  }

  /** What is a task's own changes only through the calls about it. */
  lemma OwnStays(k: K, op: Op, t: Tid)
    requires Inv(k) && !AboutOwn(k, op, t)
    ensures SameOwn(Get(k, t), Get(Step(k, op), t))
  {
    hide Inv, Call, Names, AboutOwn, SameOwn;
    if op.OpTick? {
      TickOwn(k, t);
    } else if !Names(k, op, t) {
      OthersStay(k, op, t);
      ApartOwn(k, op, t, Step(k, op));
    } else {
      NamedOwn(k, op, t);
    }
  }

  lemma ApartOwn(k: K, op: Op, t: Tid, k': K)
    requires Apart(k, op, t, k')
    ensures SameOwn(Get(k, t), Get(k', t))
  {
    hide Wakes, FlagWoken, Finish, SameOwn, PostedFlags;
    OwnSelf(Get(k, t));
    forall ev: Event ensures SameOwn(Get(k, t), Finish(Get(k, t), ev)) {
      FinishOwn(Get(k, t), ev);
    }
    forall flags: Flags ensures SameOwn(Get(k, t), FlagWoken(Get(k, t), flags)) {
      FlagOwn(Get(k, t), flags);
    }
  }

  lemma TickOwn(k: K, t: Tid)
    requires Inv(k)
    ensures SameOwn(Get(k, t), Get(Step(k, OpTick), t))
  {
    hide CoreInv, ObjInv, CurOk, TickUpdate, Finish;
    TickExpiresExactlyTheDue(k);
    assert Get(TickUpdate(k), t) == NaiveTick(k, t);
    OwnSelf(Get(k, t));
    FinishOwn(Get(k, t), if Get(k, t).state.Live? && Get(k, t).state.pend then TimedOut else DelayOver);
  }

  lemma NamedOwn(k: K, op: Op, t: Tid)
    requires Inv(k) && !AboutOwn(k, op, t) && Names(k, op, t)
    ensures SameOwn(Get(k, t), Get(Step(k, op), t))
  {
    hide Inv, Call, TimeDlyResume, TaskPendAbort, TaskChangePrio, SameOwn;
    if Pends(op) && !op.OpMutexPend? {
      hide Names, AboutOwn;
      CallerPends(k, op, t);
      PendingOwn(k, op);
    } else {
      match op {
        case OpSuspend(_) | OpResume(_) => SuspendResumeOwn(k, op, t);
        case OpChangePrio(x, prio, self) =>
          PrioStep(k, op);
          PrioTcb(k, t, prio, self);
          SamePrioOwn(Get(k, t), prio);
        case OpDlyResume(_) =>
          SignalSteps(k, op);
          DlyResumeOwn(k, t);
        case OpTaskPendAbort(_, on, noSched) =>
          SignalSteps(k, op);
          PendAbortOwn(k, t, on, noSched);
        case OpMutexPend(_, _, _) | OpMutexPost(_, _) | OpMutexDel(_, _) => MutexOwn(k, op, t);
      }
    }
  }

  lemma CallerPends(k: K, op: Op, t: Tid)
    requires Pends(op) && !op.OpMutexPend? && Names(k, op, t) && !AboutOwn(k, op, t)
    ensures t == k.cur && !op.OpTaskSemPend? && !op.OpTaskQPend? && (op.OpDly? ==> op.opt != OptPeriodic)
  {
  }

  lemma PendingOwn(k: K, op: Op)
    requires Inv(k) && Pends(op) && !op.OpMutexPend? && !op.OpTaskSemPend? && !op.OpTaskQPend?
    requires op.OpDly? ==> op.opt != OptPeriodic
    ensures SameOwn(Get(k, k.cur), Get(Step(k, op), k.cur))
  {
    hide Inv, Call, TimeDly, SameOwn;
    if op.OpDly? {
      DlyStep(k, op);
      DlyOwn(k, op.dly, op.opt);
    } else if op.OpFlagPend? {
      FlagsApart(k, op, k.cur);
    } else {
      PendsOwn(k, op);
    }
  }

  lemma MutexOwn(k: K, op: Op, t: Tid)
    requires Inv(k) && (op.OpMutexPend? || op.OpMutexPost? || op.OpMutexDel?)
    ensures SameOwn(Get(k, t), Get(Step(k, op), t))
  {
    hide Inv, MutexPend, MutexPost, MutexDel, SameOwn;
    match op
    case OpMutexPend(o, timeout, nonBlocking) => MutexPendApart(k, o, timeout, nonBlocking, t);
    case OpMutexPost(o, noSched) => MutexPostApart(k, o, noSched, t);
    case OpMutexDel(o, always) => MutexDelApart(k, o, always, t);
  }

  lemma SamePrioOwn(b: Tcb, prio: nat)
    ensures SameOwn(b, b) && SameOwn(b, b.(prio := prio))
  {
  }

  lemma SuspendResumeOwn(k: K, op: Op, t: Tid)
    requires (op.OpSuspend? || op.OpResume?) && op.t == t
    ensures SameOwn(Get(k, t), Get(Step(k, op), t))
    ensures Get(k, t).state.Live? && (Get(k, t).state.pend || Get(k, t).state.dly) ==>
      SameWait(Get(k, t), Get(Step(k, op), t))
  {
    hide SuspendTask, ResumeTask, Sched;
    SuspendOnly(k, t);
    ResumeOnly(k, t);
    SchedKeepsTcbs(k, false);
    SchedKeepsTcbs(SuspendTask(k, t), false);
    SchedKeepsTcbs(ResumeTask(k, t), false);
  }

  lemma DlyResumeOwn(k: K, t: Tid)
    ensures SameOwn(Get(k, t), Get(TimeDlyResume(k, t).k, t))
  {
    hide Wake, Sched, Finish, MaybeSched, SameOwn;
    OwnSelf(Get(k, t));
    FinishOwn(Get(k, t), DelayOver);
    SchedNow(k);
    SchedKeepsTcbs(k, false);
    WakeOnly(k, t, DelayOver, false);
    SchedNow(Wake(k, t, DelayOver));
  }

  lemma PendAbortOwn(k: K, t: Tid, on: PendOn, noSched: bool)
    ensures SameOwn(Get(k, t), Get(TaskPendAbort(k, t, on, noSched).k, t))
  {
    hide Wake, Finish, MaybeSched, SameOwn;
    OwnSelf(Get(k, t));
    FinishOwn(Get(k, t), Aborted(None));
    WakeOnly(k, t, Aborted(None), noSched);
  }

  lemma SchedNow(k: K)
    ensures MaybeSched(k, false) == Sched(k)
  {
  }

  lemma DlyOwn(k: K, dly: Tick, opt: TimeOpt)
    requires opt != OptPeriodic
    ensures SameOwn(Get(k, k.cur), Get(TimeDly(k, dly, opt).k, k.cur))
  {
    hide Sleep, Sched;
    var b := Timed(Get(k, k.cur).(state := DLY), k.now, |k.wheel|, dly, opt);
    SleepTcb(k, k.cur, b);
    SchedKeepsTcbs(Sleep(k, k.cur, b), false);
  }

  // --------------------------------------------------------------------------------- a task that waits

  /** The call ends the wait of t. */
  predicate Interrupts(k: K, op: Op, t: Tid) {
    match op
    case OpTaskDel(x) => x == t
    case OpDlyResume(x) => x == t && Get(k, t).pendOn == OnNothing
    case OpTaskSemPost(x, _) => x == t && Get(k, t).pendOn == OnTaskSem
    case OpTaskQPost(x, _, _, _, _) => x == t && Get(k, t).pendOn == OnTaskQ
    case OpTaskPendAbort(x, on, _) => x == t && Get(k, t).pendOn == on && on != OnNothing
    case _ => Wakes(k, op, t)
  }

  predicate Waits(b: Tcb) {
    b.state.Live? && (b.state.pend || b.state.dly)
  }

  lemma WaiterNotRunning(k: K, t: Tid)
    requires Inv(k) && Waits(Get(k, t))
    ensures t != k.cur && t != k.idle && (Get(k, t).state.pend <==> Get(k, t).pendOn != OnNothing)
    ensures NoObject(Get(k, t).pendOn) ==> Get(k, t).tbl == []
  {
    hide ReadyInv, WheelInv, WaitInv, ObjInv;
    TcbOkOf(k, t);
  }

  lemma WaitSelf(b: Tcb)
    ensures SameWait(b, b)
  {
  }

  /** A task on the list of an object pends. */
  lemma WokenPends(k: K, op: Op, t: Tid)
    requires Inv(k) && Wakes(k, op, t)
    ensures Get(k, t).state.Live? && Get(k, t).state.pend && Get(k, t).tbl != [] && Get(k, t).pendOn != OnNothing
  {
    hide ReadyInv, WheelInv, ObjInv, CurOk, MetBy, PostedFlags;
    assert exists o: Oid :: Listed(Get(k, t).tbl, o);
    TcbOkOf(k, t);
  }

  lemma WokenWaitOver(k: K, op: Op, t: Tid)
    requires Wakes(k, op, t) && Get(k, t).state.Live? && Get(k, t).state.pend
    ensures !SameWait(Get(k, t), WokenTcb(k, op, Get(k, t)))
  {
    hide FirstOrAll, MetBy, FlagBits, PostedFlags, EventTbl, EventMsg;
  }

  /** Which calls end a wait: apart from the tick, a wait goes on as it was, due at the same tick, if and only if the call
      is not one of those that interrupt it. */
  lemma WaitEndsExactly(k: K, op: Op, t: Tid)
    requires Inv(k) && WellUsed(k, op) && !op.OpTick? && Waits(Get(k, t))
    ensures SameWait(Get(k, t), Get(Step(k, op), t)) <==> !Interrupts(k, op, t)
  {
    hide Inv, Call, Names, SameWait, Interrupts, Waits, Wakes, WokenTcb;
    WaiterNotRunning(k, t);
    WaitSelf(Get(k, t));
    if !Names(k, op, t) {
      OthersStay(k, op, t);
      UnnamedInterrupt(k, op, t);
      if Wakes(k, op, t) {
        WokenPends(k, op, t);
        WokenWaitOver(k, op, t);
      }
    } else {
      NamedWait(k, op, t);
    }
  }

  lemma UnnamedInterrupt(k: K, op: Op, t: Tid)
    requires !Names(k, op, t)
    ensures Interrupts(k, op, t) <==> Wakes(k, op, t)
  {
    hide Call, FirstOrAll, MetBy, PostedFlags;
  }

  lemma NamedWait(k: K, op: Op, t: Tid)
    requires Inv(k) && WellUsed(k, op) && Names(k, op, t) && t != k.cur && t != k.idle && Waits(Get(k, t))
    requires Get(k, t).state.pend <==> Get(k, t).pendOn != OnNothing
    ensures SameWait(Get(k, t), Get(Step(k, op), t)) <==> !Interrupts(k, op, t)
  {
    hide Inv, Call, SameWait, Interrupts, Wakes;
    WhoIsNamed(k, op, t);
    if op.OpTaskDel? {
      DeletedWait(k, t);
    } else if op.OpSuspend? || op.OpResume? {
      SuspendResumeOwn(k, op, t);
    } else if op.OpChangePrio? {
      PrioWait(k, op);
    } else if op.OpMutexPend? || op.OpMutexDel? {
      OwnerWait(k, op, t);
      OwnerNotWoken(k, op, t);
    } else {
      SignalWait(k, op, t);
    }
  }

  /** A task that waits is named by a call only in these ways. */
  lemma WhoIsNamed(k: K, op: Op, t: Tid)
    requires WellUsed(k, op) && Names(k, op, t) && t != k.cur && Waits(Get(k, t))
    ensures op.OpTaskDel? || op.OpSuspend? || op.OpResume? || op.OpChangePrio? || op.OpMutexPend? || op.OpMutexDel?
      || op.OpDlyResume? || op.OpTaskPendAbort? || op.OpTaskSemPost? || op.OpTaskQPost?
    ensures op.OpMutexPend? || op.OpMutexDel? || op.t == t
    ensures op.OpMutexDel? ==> Holds(k, t, op.o)
    ensures op.OpTaskDel? ==> Interrupts(k, op, t)
    ensures op.OpSuspend? || op.OpResume? || op.OpChangePrio? ==> !Interrupts(k, op, t)
    ensures op.OpMutexPend? || op.OpMutexDel? ==> (Interrupts(k, op, t) <==> Wakes(k, op, t))
  {
    hide FirstOrAll, MetBy, PostedFlags;
  }

  lemma DeletedWait(k: K, t: Tid)
    requires Waits(Get(k, t)) && t != k.idle
    ensures !SameWait(Get(k, t), Get(Step(k, OpTaskDel(t)), t))
  {
    hide RdyRemove, WheelDrop, UnlinkAll;
  }

  /** An owner does not wait for its mutex. */
  lemma OwnerNotWoken(k: K, op: Op, t: Tid)
    requires Inv(k) && (op.OpMutexPend? || op.OpMutexDel?) && (op.OpMutexPend? || Holds(k, t, op.o))
    ensures !Wakes(k, op, t)
  {
    hide CoreInv, CurOk;
    if op.OpMutexDel? {
      OwnerLive(k, op.o);
    }
  }

  lemma SamePrioWait(b: Tcb, prio: nat)
    ensures SameWait(b, b) && SameWait(b, b.(prio := prio))
  {
  }

  lemma PrioWait(k: K, op: Op)
    requires op.OpChangePrio?
    ensures SameWait(Get(k, op.t), Get(Step(k, op), op.t))
  {
    hide TaskChangePrio, SameWait;
    PrioTcb(k, op.t, op.prio, op.self);
    SamePrioWait(Get(k, op.t), op.prio);
  }

  lemma OwnerWait(k: K, op: Op, t: Tid)
    requires Inv(k) && (op.OpMutexPend? || op.OpMutexDel?) && Names(k, op, t) && (op.OpMutexPend? ==> t != k.cur)
    ensures SameWait(Get(k, t), Get(Step(k, op), t))
  {
    hide Inv, MutexPend, MutexDel, SameWait;
    if op.OpMutexPend? {
      MutexPendApart(k, op.o, op.timeout, op.nonBlocking, t);
    } else {
      MutexDelApart(k, op.o, op.always, t);
    }
  }

  lemma SignalWait(k: K, op: Op, t: Tid)
    requires op.OpDlyResume? || op.OpTaskPendAbort? || op.OpTaskSemPost? || op.OpTaskQPost?
    requires op.t == t && t != k.cur && Waits(Get(k, t)) && (Get(k, t).state.pend <==> Get(k, t).pendOn != OnNothing)
    ensures SameWait(Get(k, t), Get(Step(k, op), t)) <==> !Interrupts(k, op, t)
  {
    hide Call, TimeDlyResume, TaskPendAbort, TaskSemPost, TaskQPost, SameWait, Waits, Interrupts;
    SignalSteps(k, op);
    SignalInterrupts(k, op, t);
    match op
    case OpDlyResume(_) => DlyResumeWait(k, t);
    case OpTaskPendAbort(_, on, noSched) => AbortWait(k, t, on, noSched);
    case OpTaskSemPost(_, noSched) => SignalledWait(k, t, noSched);
    case OpTaskQPost(_, m, lifo, noSched, poolEmpty) => MessageWait(k, t, m, lifo, noSched, poolEmpty);
  }

  lemma SignalInterrupts(k: K, op: Op, t: Tid)
    requires op.OpDlyResume? || op.OpTaskPendAbort? || op.OpTaskSemPost? || op.OpTaskQPost?
    ensures Interrupts(k, op, t) <==> op.t == t && var on := Get(k, t).pendOn;
      match op
      case OpDlyResume(_) => on == OnNothing
      case OpTaskPendAbort(_, kind, _) => on == kind && kind != OnNothing
      case OpTaskSemPost(_, _) => on == OnTaskSem
      case OpTaskQPost(_, _, _, _, _) => on == OnTaskQ
  {
  }

  /** A wait that is over is not the same. */
  lemma FinishOver(b: Tcb, ev: Event)
    requires Waits(b)
    ensures !SameWait(b, Finish(b, ev))
  {
  }

  lemma DlyResumeWait(k: K, t: Tid)
    requires t != k.cur && Waits(Get(k, t)) && (Get(k, t).state.pend <==> Get(k, t).pendOn != OnNothing)
    ensures SameWait(Get(k, t), Get(TimeDlyResume(k, t).k, t)) <==> Get(k, t).pendOn != OnNothing
  {
    hide Wake, Sched, Finish, MaybeSched, SameWait;
    WaitSelf(Get(k, t));
    FinishOver(Get(k, t), DelayOver);
    SchedNow(k);
    SchedKeepsTcbs(k, false);
    WakeOnly(k, t, DelayOver, false);
    SchedNow(Wake(k, t, DelayOver));
  }

  lemma AbortWait(k: K, t: Tid, on: PendOn, noSched: bool)
    requires t != k.cur && Waits(Get(k, t)) && (Get(k, t).state.pend <==> Get(k, t).pendOn != OnNothing)
    ensures SameWait(Get(k, t), Get(TaskPendAbort(k, t, on, noSched).k, t)) <==>
      !(Get(k, t).pendOn == on && on != OnNothing)
  {
    hide Wake, MaybeSched, Finish, SameWait;
    WaitSelf(Get(k, t));
    FinishOver(Get(k, t), Aborted(None));
    WakeOnly(k, t, Aborted(None), noSched);
  }

  lemma SignalledWait(k: K, t: Tid, noSched: bool)
    requires Waits(Get(k, t)) && (Get(k, t).state.pend <==> Get(k, t).pendOn != OnNothing)
    ensures SameWait(Get(k, t), Get(TaskSemPost(k, t, noSched).k, t)) <==> Get(k, t).pendOn != OnTaskSem
  {
    hide Wake, MaybeSched, Finish;
    FinishOver(Get(k, t), Posted(None, NO_MSG));
    WakeOnly(k, t, Posted(None, NO_MSG), noSched);
  }

  lemma MessageWait(k: K, t: Tid, m: Msg, lifo: bool, noSched: bool, poolEmpty: bool)
    requires Waits(Get(k, t)) && (Get(k, t).state.pend <==> Get(k, t).pendOn != OnNothing)
    ensures SameWait(Get(k, t), Get(TaskQPost(k, t, m, lifo, noSched, poolEmpty).k, t)) <==> Get(k, t).pendOn != OnTaskQ
  {
    hide Wake, MaybeSched, Finish, MsgPut;
    FinishOver(Get(k, t), Posted(None, m));
    WakeOnly(k, t, Posted(None, m), noSched);
  }

  // ------------------------------------------------------------- the calls about what is the task's own

  lemma SemPostFields(k: K, t: Tid, noSched: bool)
    ensures var b, b' := Get(k, t), Get(TaskSemPost(k, t, noSched).k, t); b'.taskQ == b.taskQ && b'.prev == b.prev
  {
    hide Wake, MaybeSched;
    WakeOnly(k, t, Posted(None, NO_MSG), noSched);
  }

  lemma SemPendFields(k: K, timeout: Tick, nonBlocking: bool)
    ensures var b, b' := Get(k, k.cur), Get(TaskSemPend(k, timeout, nonBlocking).k, k.cur);
      b'.taskQ == b.taskQ && b'.prev == b.prev
  {
    hide BlockCur;
    BlockCurOnly(k, OnTaskSem, [], timeout, nonBlocking);
  }

  lemma QPostFields(k: K, t: Tid, m: Msg, lifo: bool, noSched: bool, poolEmpty: bool)
    ensures var b, b' := Get(k, t), Get(TaskQPost(k, t, m, lifo, noSched, poolEmpty).k, t);
      b'.semCtr == b.semCtr && b'.prev == b.prev
  {
    hide Wake, MaybeSched, MsgPut;
    WakeOnly(k, t, Posted(None, m), noSched);
  }

  lemma QPendFields(k: K, timeout: Tick, nonBlocking: bool)
    ensures var b, b' := Get(k, k.cur), Get(TaskQPend(k, timeout, nonBlocking).k, k.cur);
      b'.semCtr == b.semCtr && b'.prev == b.prev
  {
    hide BlockCur;
    BlockCurOnly(k, OnTaskQ, [], timeout, nonBlocking);
  }

  lemma DlyFields(k: K, dly: Tick, opt: TimeOpt)
    ensures var b, b' := Get(k, k.cur), Get(TimeDly(k, dly, opt).k, k.cur);
      b'.semCtr == b.semCtr && b'.taskQ == b.taskQ
  {
    hide Sleep, Sched;
    var b := Timed(Get(k, k.cur).(state := DLY), k.now, |k.wheel|, dly, opt);
    SleepTcb(k, k.cur, b);
    SchedKeepsTcbs(Sleep(k, k.cur, b), false);
  }
}
