/** Runs of the kernel: any sequence of service calls and ticks. The invariant holds after every one of them, and for
    each call this module says exactly when it does not.
  */
module Run {
  import opened TaskLists
  import opened KernelState
  import opened KernelOps
  import opened ObjKept
  import opened Services
  import opened ServicesKept
  import opened ObjectsKept
  import opened MutexKept
  import opened FlagsMultiKept
  import opened Departures

  /** One critical section, as called by the running task, an interrupt or the tick task. */
  datatype Op =
    | OpTaskCreate(t: Tid, prio: nat, qMax: nat)
    | OpTaskDel(t: Tid)
    | OpSuspend(t: Tid)
    | OpResume(t: Tid)
    | OpChangePrio(t: Tid, prio: nat, self: bool)
    | OpDly(dly: Tick, opt: TimeOpt)
    | OpDlyResume(t: Tid)
    | OpTick
    | OpCreate(o: Oid, v: Obj)
    | OpObjDel(o: Oid, always: bool)
    | OpPendAbort(o: Oid, all: bool, noSched: bool)
    | OpSemPend(o: Oid, timeout: Tick, nonBlocking: bool)
    | OpSemPost(o: Oid, all: bool, noSched: bool)
    | OpSemSet(o: Oid, cnt: SemCtr)
    | OpQPend(o: Oid, timeout: Tick, nonBlocking: bool)
    | OpQPost(o: Oid, m: Msg, lifo: bool, all: bool, noSched: bool, poolEmpty: bool)
    | OpQFlush(o: Oid)
    | OpMutexPend(o: Oid, timeout: Tick, nonBlocking: bool)
    | OpMutexPost(o: Oid, noSched: bool)
    | OpMutexDel(o: Oid, always: bool)
    | OpFlagPend(o: Oid, want: Flags, mode: FlagMode, consume: bool, timeout: Tick, nonBlocking: bool)
    | OpFlagConsume(o: Oid)
    | OpFlagPost(o: Oid, bits: Flags, set': bool, noSched: bool)
    | OpMultiPend(tbl: seq<PendData>, timeout: Tick, nonBlocking: bool)
    | OpTaskSemPend(timeout: Tick, nonBlocking: bool)
    | OpTaskSemPost(t: Tid, noSched: bool)
    | OpTaskQPend(timeout: Tick, nonBlocking: bool)
    | OpTaskQPost(t: Tid, m: Msg, lifo: bool, noSched: bool, poolEmpty: bool)
    | OpTaskPendAbort(t: Tid, on: PendOn, noSched: bool)
    | OpRoundRobin
    | OpLock
    | OpUnlock
    | OpSched

  function Call(k: K, op: Op): R {
    match op
    case OpTaskCreate(t, prio, qMax) => TaskCreate(k, t, prio, qMax)
    case OpTaskDel(t) => TaskDel(k, t)
    case OpSuspend(t) => TaskSuspend(k, t)
    case OpResume(t) => TaskResume(k, t)
    case OpChangePrio(t, prio, self) => TaskChangePrio(k, t, prio, self)
    case OpDly(dly, opt) => TimeDly(k, dly, opt)
    case OpDlyResume(t) => TimeDlyResume(k, t)
    case OpTick => R(TickUpdate(k), ErrNone)
    case OpCreate(o, v) => R(CreateObj(k, o, v), ErrNone)
    case OpObjDel(o, always) => ObjDel(k, o, always)
    case OpPendAbort(o, all, noSched) => PendAbort(k, o, all, noSched)
    case OpSemPend(o, timeout, nonBlocking) => SemPend(k, o, timeout, nonBlocking)
    case OpSemPost(o, all, noSched) => SemPost(k, o, all, noSched)
    case OpSemSet(o, cnt) => SemSet(k, o, cnt)
    case OpQPend(o, timeout, nonBlocking) => QPend(k, o, timeout, nonBlocking)
    case OpQPost(o, m, lifo, all, noSched, poolEmpty) => QPost(k, o, m, lifo, all, noSched, poolEmpty)
    case OpQFlush(o) => QFlush(k, o)
    case OpMutexPend(o, timeout, nonBlocking) => MutexPend(k, o, timeout, nonBlocking)
    case OpMutexPost(o, noSched) => MutexPost(k, o, noSched)
    case OpMutexDel(o, always) => MutexDel(k, o, always)
    case OpFlagPend(o, want, mode, consume, timeout, nonBlocking) =>
      FlagPend(k, o, want, mode, consume, timeout, nonBlocking)
    case OpFlagConsume(o) => FlagConsume(k, o)
    case OpFlagPost(o, bits, set', noSched) => FlagPost(k, o, bits, set', noSched)
    case OpMultiPend(tbl, timeout, nonBlocking) => MultiPend(k, tbl, timeout, nonBlocking)
    case OpTaskSemPend(timeout, nonBlocking) => TaskSemPend(k, timeout, nonBlocking)
    case OpTaskSemPost(t, noSched) => TaskSemPost(k, t, noSched)
    case OpTaskQPend(timeout, nonBlocking) => TaskQPend(k, timeout, nonBlocking)
    case OpTaskQPost(t, m, lifo, noSched, poolEmpty) => TaskQPost(k, t, m, lifo, noSched, poolEmpty)
    case OpTaskPendAbort(t, on, noSched) => TaskPendAbort(k, t, on, noSched)
    case OpRoundRobin => RoundRobin(k)
    case OpLock => SchedLock(k)
    case OpUnlock => SchedUnlock(k)
    case OpSched => R(Sched(k), ErrNone)
  }

  function Step(k: K, op: Op): K {
    Call(k, op).k
  }

  // What a step is for a kind of call, so that a proof about that kind need not see all the others.

  lemma FlagSteps(k: K, op: Op)
    requires op.OpFlagPend? || op.OpFlagConsume? || op.OpFlagPost?
    ensures Step(k, op) == match op
      case OpFlagPend(o, want, mode, consume, timeout, nonBlocking) =>
        FlagPend(k, o, want, mode, consume, timeout, nonBlocking).k
      case OpFlagConsume(o) => FlagConsume(k, o).k
      case OpFlagPost(o, bits, set', noSched) => FlagPost(k, o, bits, set', noSched).k
  {
    hide FlagPend, FlagConsume, FlagPost;
  }

  lemma SignalSteps(k: K, op: Op)
    requires op.OpDlyResume? || op.OpTaskPendAbort? || op.OpTaskSemPost? || op.OpTaskQPost?
    ensures Step(k, op) == match op
      case OpDlyResume(t) => TimeDlyResume(k, t).k
      case OpTaskPendAbort(t, on, noSched) => TaskPendAbort(k, t, on, noSched).k
      case OpTaskSemPost(t, noSched) => TaskSemPost(k, t, noSched).k
      case OpTaskQPost(t, m, lifo, noSched, poolEmpty) => TaskQPost(k, t, m, lifo, noSched, poolEmpty).k
  {
    hide TimeDlyResume, TaskPendAbort, TaskSemPost, TaskQPost;
  }

  lemma MutexSteps(k: K, op: Op)
    requires op.OpMutexPend? || op.OpMutexPost? || op.OpMutexDel?
    ensures Step(k, op) == match op
      case OpMutexPend(o, timeout, nonBlocking) => MutexPend(k, o, timeout, nonBlocking).k
      case OpMutexPost(o, noSched) => MutexPost(k, o, noSched).k
      case OpMutexDel(o, always) => MutexDel(k, o, always).k
  {
    hide MutexPend, MutexPost, MutexDel;
  }

  lemma ObjDelStep(k: K, op: Op)
    requires op.OpObjDel?
    ensures Step(k, op) == ObjDel(k, op.o, op.always).k
  {
    hide ObjDel;
  }

  lemma PrioStep(k: K, op: Op)
    requires op.OpChangePrio?
    ensures Step(k, op) == TaskChangePrio(k, op.t, op.prio, op.self).k
  {
    hide TaskChangePrio;
  }

  lemma DlyStep(k: K, op: Op)
    requires op.OpDly?
    ensures Step(k, op) == TimeDly(k, op.dly, op.opt).k
  {
    hide TimeDly;
  }

  /** What the kernel's documentation asks of its users: the idle task never waits, a TCB or object in use is not
      created again, and an object is created empty. */
  predicate WellUsed(k: K, op: Op) {
    match op
    case OpTaskCreate(t, _, _) => t in k.tcb && k.tcb[t].state == Deleted
    case OpCreate(o, v) => Object(k, o) == Gone && Fresh(v)
    case OpDly(_, _) => k.cur != k.idle
    case OpSemPend(_, _, _) => k.cur != k.idle
    case OpQPend(_, _, _) => k.cur != k.idle
    case OpMutexPend(_, _, _) => k.cur != k.idle
    case OpFlagPend(_, _, _, _, _, _) => k.cur != k.idle
    case OpMultiPend(_, _, _) => k.cur != k.idle
    case OpTaskSemPend(_, _) => k.cur != k.idle
    case OpTaskQPend(_, _) => k.cur != k.idle
    case _ => true
  }

  /** The calls that leave the kernel's data in agreement: all but the ones the source does not guard against. */
  ghost predicate Harmless(k: K, op: Op) {
    match op
    case OpTaskDel(t) =>
      t == k.idle || Get(k, t).state == Deleted || (!IsOwner(k, t) && (t == k.cur ==> k.lock == 0))
    case OpSuspend(t) => t == k.idle || Get(k, t).suspendCtr < 255
    case OpDly(dly, opt) => k.lock > 0 || opt != OptMatch || Sub32(Sub32(dly, k.now), 1) <= TICK_TH_RDY
    case OpMutexPend(o, _, _) => !(Object(k, o).Mutex? && Object(k, o).owner == Some(k.cur) && Object(k, o).nest == 255)
    case OpFlagPost(o, bits, set', _) =>
      Object(k, o).FlagGrp? ==> WakesClean(k, Waiters(k, o), PostedFlags(Object(k, o).flags, bits, set'))
    case OpMultiPend(tbl, timeout, nonBlocking) =>
      MultiBlocks(k, tbl, nonBlocking) ==> Distinct(tbl)
    case _ => true
  }

  lemma TaskOpsKeep(k: K, op: Op)
    requires Inv(k) && WellUsed(k, op) && Harmless(k, op)
    requires op.OpTaskCreate? || op.OpTaskDel? || op.OpSuspend? || op.OpResume? || op.OpChangePrio? || op.OpDly?
      || op.OpDlyResume?
    ensures Inv(Step(k, op))
  {
    hide CoreInv, ObjInv, CurOk, TaskCreate, TaskDel, TaskSuspend, TaskResume, TaskChangePrio, TimeDly, TimeDlyResume,
      Harmless, OffLists;
    match op
    case OpTaskCreate(t, prio, qMax) =>
      UnusedOffLists(k, t);
      TaskCreateInv(k, t, prio, qMax);
    case OpTaskDel(t) => TaskDelKeeps(k, t);
    case OpSuspend(t) => SuspendKeeps(k, t);
    case OpResume(t) => TaskResumeInv(k, t);
    case OpChangePrio(t, prio, self) => TaskChangePrioInv(k, t, prio, self);
    case OpDly(dly, opt) => DlyKeeps(k, dly, opt);
    case OpDlyResume(t) => TimeDlyResumeInv(k, t);
  }

  lemma SignalOpsKeep(k: K, op: Op)
    requires Inv(k) && WellUsed(k, op)
    requires op.OpTaskSemPend? || op.OpTaskSemPost? || op.OpTaskQPend? || op.OpTaskQPost? || op.OpTaskPendAbort?
    ensures Inv(Step(k, op))
  {
    hide Inv, TaskSemPend, TaskSemPost, TaskQPend, TaskQPost, TaskPendAbort;
    match op
    case OpTaskSemPend(timeout, nonBlocking) => TaskSemPendInv(k, timeout, nonBlocking);
    case OpTaskSemPost(t, noSched) => TaskSemPostInv(k, t, noSched);
    case OpTaskQPend(timeout, nonBlocking) => TaskQPendInv(k, timeout, nonBlocking);
    case OpTaskQPost(t, m, lifo, noSched, poolEmpty) => TaskQPostInv(k, t, m, lifo, noSched, poolEmpty);
    case OpTaskPendAbort(t, on, noSched) => TaskPendAbortInv(k, t, on, noSched);
  }

  lemma TaskDelKeeps(k: K, t: Tid)
    requires Inv(k) && Harmless(k, OpTaskDel(t))
    ensures Inv(TaskDel(k, t).k)
  {
    if t != k.idle && Get(k, t).state != Deleted {
      TaskDelInv(k, t);
    }
  }

  lemma SuspendKeeps(k: K, t: Tid)
    requires Inv(k) && Harmless(k, OpSuspend(t))
    ensures Inv(TaskSuspend(k, t).k)
  {
    if t != k.idle {
      TaskSuspendInv(k, t);
    }
  }

  lemma DlyKeeps(k: K, dly: Tick, opt: TimeOpt)
    requires Inv(k) && k.cur != k.idle && Harmless(k, OpDly(dly, opt))
    ensures Inv(TimeDly(k, dly, opt).k)
  {
    if k.lock == 0 {
      TimeDlyInv(k, dly, opt);
    }
  }

  lemma MutexPendKeeps(k: K, o: Oid, timeout: Tick, nonBlocking: bool)
    requires Inv(k) && k.cur != k.idle && Harmless(k, OpMutexPend(o, timeout, nonBlocking))
    ensures Inv(MutexPend(k, o, timeout, nonBlocking).k)
  {
    hide CoreInv, CurOk, Sched, Block, RaiseOwner;
    if Object(k, o).Mutex? && Object(k, o).nest == 255 {
      ObjOkOf(k, o);
      if !nonBlocking && k.lock == 0 {
        MutexBlockInv(k, o, timeout);
      }
    } else {
      MutexPendInv(k, o, timeout, nonBlocking);
    }
  }

  lemma FlagPostKeeps(k: K, o: Oid, bits: Flags, set': bool, noSched: bool)
    requires Inv(k) && Harmless(k, OpFlagPost(o, bits, set', noSched))
    ensures Inv(FlagPost(k, o, bits, set', noSched).k)
  {
    hide Inv, FlagPost;
    FlagPostInv(k, o, bits, set', noSched);
  }

  lemma BlockCurSame(k: K, on: PendOn, tbl: seq<PendData>, timeout: Tick, nonBlocking: bool)
    ensures BlockCur(k, on, tbl, timeout, nonBlocking).err == Blocked || BlockCur(k, on, tbl, timeout, nonBlocking).k == k
  {
  }

  lemma MultiPendKeeps(k: K, tbl: seq<PendData>, timeout: Tick, nonBlocking: bool)
    requires Inv(k) && k.cur != k.idle && Harmless(k, OpMultiPend(tbl, timeout, nonBlocking))
    ensures Inv(MultiPend(k, tbl, timeout, nonBlocking).k)
  {
    hide Inv, TakeReady, MultiValid, BlockCur, MultiBlocks;
    MultiBlocksWhen(k, tbl, timeout, nonBlocking);
    BlockCurSame(k, OnMulti, TakeReady(k.obj, tbl).1, timeout, nonBlocking);
    if Distinct(tbl) {
      MultiPendInv(k, tbl, timeout, nonBlocking);
    } else if tbl != [] && MultiValid(k, tbl) && TakeReady(k.obj, tbl).2 > 0 {
      MultiTakeInv(k, tbl, timeout, nonBlocking);
    }
  }

  lemma SemQOpsKeep(k: K, op: Op)
    requires Inv(k) && WellUsed(k, op)
    requires op.OpCreate? || op.OpObjDel? || op.OpPendAbort? || op.OpSemPend? || op.OpSemPost? || op.OpSemSet?
      || op.OpQPend? || op.OpQPost? || op.OpQFlush?
    ensures Inv(Step(k, op))
  {
    hide Inv, CreateObj, ObjDel, PendAbort, SemPend, SemPost, SemSet, QPend, QPost, QFlush;
    match op
    case OpCreate(o, v) => CreateObjInv(k, o, v);
    case OpObjDel(o, always) => ObjDelInv(k, o, always);
    case OpPendAbort(o, all, noSched) => PendAbortInv(k, o, all, noSched);
    case OpSemPend(o, timeout, nonBlocking) => SemPendInv(k, o, timeout, nonBlocking);
    case OpSemPost(o, all, noSched) => SemPostInv(k, o, all, noSched);
    case OpSemSet(o, cnt) => SemSetInv(k, o, cnt);
    case OpQPend(o, timeout, nonBlocking) => QPendInv(k, o, timeout, nonBlocking);
    case OpQPost(o, m, lifo, all, noSched, poolEmpty) => QPostInv(k, o, m, lifo, all, noSched, poolEmpty);
    case OpQFlush(o) => QFlushInv(k, o);
  }

  lemma MutexOpsKeep(k: K, op: Op)
    requires Inv(k) && WellUsed(k, op) && Harmless(k, op)
    requires op.OpMutexPend? || op.OpMutexPost? || op.OpMutexDel?
    ensures Inv(Step(k, op))
  {
    hide Inv, MutexPend, MutexPost, MutexDel, Harmless;
    match op
    case OpMutexPend(o, timeout, nonBlocking) => MutexPendKeeps(k, o, timeout, nonBlocking);
    case OpMutexPost(o, noSched) => MutexPostInv(k, o, noSched);
    case OpMutexDel(o, always) => MutexDelInv(k, o, always);
  }

  lemma FlagOpsKeep(k: K, op: Op)
    requires Inv(k) && WellUsed(k, op) && Harmless(k, op)
    requires op.OpFlagPend? || op.OpFlagConsume? || op.OpFlagPost? || op.OpMultiPend?
    ensures Inv(Step(k, op))
  {
    hide Inv, FlagPend, FlagConsume, FlagPost, MultiPend, Harmless;
    match op
    case OpFlagPend(o, want, mode, consume, timeout, nonBlocking) =>
      FlagPendInv(k, o, want, mode, consume, timeout, nonBlocking);
    case OpFlagConsume(o) => FlagConsumeInv(k, o);
    case OpFlagPost(o, bits, set', noSched) => FlagPostKeeps(k, o, bits, set', noSched);
    case OpMultiPend(tbl, timeout, nonBlocking) => MultiPendKeeps(k, tbl, timeout, nonBlocking);
  }

  lemma LockKeeps(k: K)
    requires Inv(k)
    ensures Inv(SchedLock(k).k)
  {
    hide Inv, Sched;
    LockInv(k, k.lock + 1);
  }

  lemma UnlockKeeps(k: K)
    requires Inv(k)
    ensures Inv(SchedUnlock(k).k)
  {
    hide Inv, Sched;
    if k.lock > 0 {
      LockInv(k, k.lock - 1);
    }
  }

  lemma SchedKeeps(k: K)
    requires Inv(k)
    ensures Inv(Sched(k))
  {
    hide CoreInv, ObjInv;
    SchedInv(k, false);
  }

  lemma SchedOpsKeep(k: K, op: Op)
    requires Inv(k) && (op.OpTick? || op.OpRoundRobin? || op.OpLock? || op.OpUnlock? || op.OpSched?)
    ensures Inv(Step(k, op))
  {
    hide Inv, TickUpdate, RoundRobin, SchedLock, SchedUnlock, Sched, SameLists;
    match op
    case OpTick => TickInv(k);
    case OpRoundRobin => RoundRobinInv(k);
    case OpLock => LockKeeps(k);
    case OpUnlock => UnlockKeeps(k);
    case OpSched => SchedKeeps(k);
  }

  lemma StepKeeps(k: K, op: Op)
    requires Inv(k) && WellUsed(k, op) && Harmless(k, op)
    ensures Inv(Step(k, op))
  {
    hide Inv, WellUsed, Harmless, Step;
    if op.OpTick? || op.OpRoundRobin? || op.OpLock? || op.OpUnlock? || op.OpSched? {
      SchedOpsKeep(k, op);
    } else if op.OpCreate? || op.OpObjDel? || op.OpPendAbort? || op.OpSemPend? || op.OpSemPost? || op.OpSemSet?
      || op.OpQPend? || op.OpQPost? || op.OpQFlush? {
      SemQOpsKeep(k, op);
    } else if op.OpMutexPend? || op.OpMutexPost? || op.OpMutexDel? {
      MutexOpsKeep(k, op);
    } else if op.OpFlagPend? || op.OpFlagConsume? || op.OpFlagPost? || op.OpMultiPend? {
      FlagOpsKeep(k, op);
    } else if op.OpTaskSemPend? || op.OpTaskSemPost? || op.OpTaskQPend? || op.OpTaskQPost? || op.OpTaskPendAbort? {
      SignalOpsKeep(k, op);
    } else {
      TaskOpsKeep(k, op);
    }
  }

  lemma StepBreaks(k: K, op: Op)
    requires Inv(k) && WellUsed(k, op) && !Harmless(k, op)
    ensures !Inv(Step(k, op))
  {
    hide Inv, TaskDel, TaskSuspend, TimeDly, MutexPend, MultiPend, FlagPost, WakesClean, PostedFlags, IsOwner;
    match op
    case OpTaskDel(t) =>
      if IsOwner(k, t) { OwnerDelBreaks(k, t); } else { DeleteSelfLockedBreaks(k); }
    case OpSuspend(t) => CounterBreaks(k, t);
    case OpDly(dly, opt) => TimeDlyBreaks(k, dly);
    case OpMutexPend(o, timeout, nonBlocking) => MutexPendBreaks(k, o, timeout, nonBlocking);
    case OpFlagPost(o, bits, set', noSched) => FlagPostBreaks(k, o, bits, set', noSched);
    case OpMultiPend(tbl, timeout, nonBlocking) => MultiPendBreaks(k, tbl, timeout, nonBlocking);
  }

  lemma OwnerDelBreaks(k: K, t: Tid)
    requires Inv(k) && t != k.idle && IsOwner(k, t)
    ensures !Inv(TaskDel(k, t).k)
  {
    var o: Oid :| o in k.obj && k.obj[o].Mutex? && k.obj[o].owner == Some(t);
    DeleteOwnerBreaks(k, t, o);
  }

  lemma CounterBreaks(k: K, t: Tid)
    requires Inv(k) && t != k.idle && Get(k, t).suspendCtr >= 255
    ensures !Inv(TaskSuspend(k, t).k)
  {
    TcbOkAt(k, t);
    SuspendBreaks(k, t);
  }

  lemma TcbOkAt(k: K, t: Tid)
    requires CoreInv(k)
    ensures Get(k, t).suspendCtr < 256 && (Get(k, t).state == Deleted ==> Get(k, t).suspendCtr == 0)
  {
    assert t in k.tcb ==> TcbOk(k.tcb[t], |k.rdy|, |k.wheel|, k.now);
  }

  /** The main theorem: a call keeps the kernel's data in agreement if and only if it is not one of those that the
      source leaves unguarded. */
  lemma InvariantKeptExactly(k: K, op: Op)
    requires Inv(k) && WellUsed(k, op)
    ensures Inv(Step(k, op)) <==> Harmless(k, op)
  {
    hide Inv, WellUsed, Harmless, Step;
    if Harmless(k, op) {
      StepKeeps(k, op);
    } else {
      StepBreaks(k, op);
    }
  }

  // -------------------------------------------------------------------------------------------- runs

  /** The state after the calls. */
  function After(k: K, ops: seq<Op>): K
    decreases |ops|
  {
    if ops == [] then k else After(Step(k, ops[0]), ops[1..])
  }

  /** Every call of the run is proper where it is made. */
  ghost predicate Proper(k: K, ops: seq<Op>)
    decreases |ops|
  {
    ops == [] || (WellUsed(k, ops[0]) && Harmless(k, ops[0]) && Proper(Step(k, ops[0]), ops[1..]))
  }

  lemma {:induction false} InvariantOverRuns(k: K, ops: seq<Op>)
    requires Inv(k) && Proper(k, ops)
    ensures Inv(After(k, ops))
    decreases |ops|
  {
    hide Inv, WellUsed, Harmless, Step;
    if ops != [] {
      StepKeeps(k, ops[0]);
      InvariantOverRuns(Step(k, ops[0]), ops[1..]);
    }
  }

  /** OSInit and OSStart: a pool of unused TCBs, the idle task ready at the lowest priority. */
  function Booted(pool: set<Tid>, idle: Tid, prios: nat, size: nat): K
    requires prios > 0 && size > 0
  {
    var empty: seq<Tid> := [];
    K((map t | t in pool :: NO_TCB)[idle := NO_TCB.(state := RDY, prio := prios - 1)],
      seq(prios, p => if p == prios - 1 then [idle] else empty), {prios - 1}, seq(size, i => empty),
      map[], map[], 0, idle, prios - 1, 0, idle)
  }

  lemma BootedReady(pool: set<Tid>, idle: Tid, prios: nat, size: nat)
    requires prios > 0 && size > 0
    ensures ReadyInv(Booted(pool, idle, prios, size))
  {
    var k := Booted(pool, idle, prios, size);
    assert forall t: Tid :: RdyAt(Get(k, t)) == if t == idle then prios - 1 else -1;
    assert forall t: Tid :: Count([idle], t) == if t == idle then 1 else 0;
  }

  lemma BootedInv(pool: set<Tid>, idle: Tid, prios: nat, size: nat)
    requires prios > 0 && size > 0
    ensures Inv(Booted(pool, idle, prios, size))
  {
    hide ReadyInv;
    var k := Booted(pool, idle, prios, size);
    BootedReady(pool, idle, prios, size);
    assert forall t: Tid :: Get(k, t).tbl == [] && Get(k, t).spoke == -1;
    assert WheelInv(k);
    assert WaitInv(k);
    assert TcbInv(k);
  }

  /** From the start of multitasking, the lists, the TCBs and the objects agree after any run of proper calls. */
  lemma KernelInvariant(pool: set<Tid>, idle: Tid, prios: nat, size: nat, ops: seq<Op>)
    requires prios > 0 && size > 0 && Proper(Booted(pool, idle, prios, size), ops)
    ensures Inv(After(Booted(pool, idle, prios, size), ops))
  {
    BootedInv(pool, idle, prios, size);
    InvariantOverRuns(Booted(pool, idle, prios, size), ops);
  }
}
