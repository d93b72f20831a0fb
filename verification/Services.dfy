/** The kernel services as functions of the state. Each service is one critical section together with, where the source
    calls it then, the scheduler; `Interrupted` is about interrupts between the two. A call that blocks the caller
    answers `Blocked`; what the call returns once the task runs again is `PendResult` of the status left in its TCB.
  */
module Services {
  import opened TaskLists
  import opened KernelState
  import opened KernelOps

  datatype Err =
    | ErrNone | Blocked
    | ErrObjType | ErrWouldBlock | ErrSchedLocked | ErrAbortNone | ErrAbortSelf | ErrTaskWaiting
    | ErrSemOvf | ErrQMax | ErrPoolEmpty | ErrMutexOwner | ErrMutexNesting | ErrMutexNotOwner
    | ErrPrioInvalid | ErrStateInvalid | ErrIdle | ErrResumeSelf | ErrNotSuspended
    | ErrZeroDly | ErrNotDly | ErrTaskSuspended | ErrRoundRobin1 | ErrLockOvf | ErrNotLocked | ErrPtrInvalid
    | ErrPendAbort | ErrObjDel | ErrTimeout

  datatype R = R(k: K, err: Err)

  const SEM_MAX: nat := 0xFFFF_FFFF

  function PendResult(s: PendStatus): Err {
    match s
    case StatusOk => ErrNone
    case StatusAbort => ErrPendAbort
    case StatusDel => ErrObjDel
    case StatusTimeout => ErrTimeout
  }

  function SetObj(k: K, o: Oid, v: Obj): K {
    k.(obj := k.obj[o := v])
  }

  function MaybeSched(k: K, noSched: bool): K {
    if noSched then k else Sched(k)
  }

  /** The part shared by the pend calls once nothing is available: answer, or block the caller. */
  function BlockCur(k: K, on: PendOn, tbl: seq<PendData>, timeout: Tick, nonBlocking: bool): R {
    if nonBlocking then R(k, ErrWouldBlock)
    else if k.lock > 0 then R(k, ErrSchedLocked)
    else R(Sched(Block(k, k.cur, on, tbl, timeout)), Blocked)
  }

  function Entry(o: Oid): seq<PendData> {
    [PendData(o, false, NO_MSG)]
  }

  // ------------------------------------------------------------------------------------------- tasks

  /** OSTaskCreate, from OS_TaskInitTCB on, with multitasking started. */
  function TaskCreate(k: K, t: Tid, prio: nat, qMax: nat): R {
    if prio >= |k.rdy| || (prio == |k.rdy| - 1 && t != k.idle) then R(k, ErrPrioInvalid) else
    R(Sched(RdyPut(Put(k, t, NO_TCB.(state := RDY, prio := prio, taskQMax := qMax)), t, true)), ErrNone)
  }

  /** OSTaskDel. */
  function TaskDel(k: K, t: Tid): R {
    var b := Get(k, t);
    if t == k.idle then R(k, ErrIdle)
    else if b.state == Deleted then R(k, ErrStateInvalid)
    else
      var k1 :=
        if b.state == RDY then RdyRemove(k, t)
        else if b.state == SUSPENDED then k
        else if !b.state.pend || NoObject(b.pendOn) then WheelRemove(k, t)
        else Unlink(WheelRemove(k, t), t);
      R(Sched(Put(k1, t, NO_TCB.(prio := |k.rdy|))), ErrNone)
  }

  /** OSTaskSuspend and OS_TaskSuspend. The counter is 8 bits wide. */
  function TaskSuspend(k: K, t: Tid): R {
    var b := Get(k, t);
    if t == k.idle then R(k, ErrIdle)
    else if t == k.cur && k.lock > 0 then R(k, ErrSchedLocked)
    else if b.state == Deleted then R(k, ErrStateInvalid)
    else R(Sched(SuspendTask(k, t)), ErrNone)
  }

  function SuspendTask(k: K, t: Tid): K {
    var b := Get(k, t);
    if b.state == Deleted then k
    else if b.state.susp then Put(k, t, b.(suspendCtr := (b.suspendCtr + 1) % 256))
    else
      var k1 := Put(k, t, b.(state := Live(true, b.state.pend, b.state.dly), suspendCtr := 1));
      if b.state == RDY then RdyRemove(k1, t) else k1
  }

  /** OSTaskResume and OS_TaskResume. */
  function TaskResume(k: K, t: Tid): R {
    var b := Get(k, t);
    if t == k.cur then R(k, ErrResumeSelf)
    else if b.state == Deleted then R(k, ErrStateInvalid)
    else if !b.state.susp then R(Sched(k), ErrNotSuspended)
    else R(Sched(ResumeTask(k, t)), ErrNone)
  }

  function ResumeTask(k: K, t: Tid): K {
    var b := Get(k, t);
    if b.state == Deleted || !b.state.susp then k else
    var n := (b.suspendCtr + 255) % 256;
    var k1 := Put(k, t, b.(suspendCtr := n, state := if n == 0 then Live(false, b.state.pend, b.state.dly) else b.state));
    if n == 0 && b.state == SUSPENDED then RdyInsert(WheelRemove(k1, t), t) else k1
  }

  /** OSTaskChangePrio; `self` is the NULL-pointer call. */
  function TaskChangePrio(k: K, t: Tid, prio: nat, self: bool): R {
    if prio + 1 >= |k.rdy| then R(k, ErrPrioInvalid) else
    var b := Get(k, t);
    if b.state == Deleted then R(k, ErrStateInvalid) else
    R(Sched(ChangePrio(k, t, prio, !self)), ErrNone)
  }

  function ChangePrio(k: K, t: Tid, prio: nat, atTail: bool): K {
    var b := Get(k, t);
    if b.state == RDY then MoveReady(k, t, prio, atTail)
    else if b.state.Live? && b.state.pend && !NoObject(b.pendOn) && b.pendOn != OnFlag then MovePending(k, t, prio)
    else Put(k, t, b.(prio := prio))
  }

  // -------------------------------------------------------------------------------------------- time

  /** OSTimeDly. Where OS_TickListInsert fails the task state has already been set. */
  function TimeDly(k: K, dly: Tick, opt: TimeOpt): R {
    if k.lock > 0 then R(k, ErrSchedLocked)
    else if dly == 0 && opt != OptMatch then R(k, ErrZeroDly)
    else
      var b := Timed(Get(k, k.cur).(state := DLY), k.now, |k.wheel|, dly, opt);
      if b.spoke == -1 then R(Put(k, k.cur, b), ErrZeroDly)
      else R(Sched(Sleep(k, k.cur, b)), ErrNone)
  }

  /** OSTimeDlyResume. */
  function TimeDlyResume(k: K, t: Tid): R {
    var b := Get(k, t);
    if t == k.cur then R(k, ErrNotDly)
    else if b.state == Deleted then R(Sched(k), ErrStateInvalid)
    else if b.state.pend || !b.state.dly then R(Sched(k), ErrNotDly)
    else R(Sched(Wake(k, t, DelayOver)), if b.state.susp then ErrTaskSuspended else ErrNone)
  }

  /** What the tick does to a task whose time has come. */
  function Expire(k: K, t: Tid): K {
    Wake(k, t, if Get(k, t).state.Live? && Get(k, t).state.pend then TimedOut else DelayOver)
  }

  /** The scan of one spoke: expire from the head until the first task whose time has not come. */
  function ExpireDue(k: K, q: seq<Tid>): K
    decreases |q|
  {
    if q == [] then k else
    var b := Get(k, q[0]);
    if !b.state.Live? || !b.state.dly then ExpireDue(k, q[1..])
    else if b.due == k.now then ExpireDue(Expire(k, q[0]), q[1..])
    else k
  }

  /** OS_TickListUpdate. */
  function TickUpdate(k: K): K {
    var k1 := k.(now := Add32(k.now, 1));
    var i := SpokeOf(k1.now, |k.wheel|);
    if i >= |k.wheel| then k1 else ExpireDue(k1, k.wheel[i])
  }

  // -------------------------------------------------------------------------------------- semaphores

  /** OSSemPend. */
  function SemPend(k: K, o: Oid, timeout: Tick, nonBlocking: bool): R {
    match Object(k, o)
    case Sem(ctr) =>
      if ctr > 0 then R(SetObj(k, o, Sem(ctr - 1)), ErrNone)
      else BlockCur(k, OnSem, Entry(o), timeout, nonBlocking)
    case _ => R(k, ErrObjType)
  }

  /** OS_SemPost. */
  function SemPost(k: K, o: Oid, all: bool, noSched: bool): R {
    match Object(k, o)
    case Sem(ctr) =>
      var w := Waiters(k, o);
      if w == [] then
        if ctr == SEM_MAX then R(k, ErrSemOvf) else R(SetObj(k, o, Sem(ctr + 1)), ErrNone)
      else R(MaybeSched(WakeAll(k, if all then w else w[..1], Posted(Some(o), NO_MSG)), noSched), ErrNone)
    case _ => R(k, ErrObjType)
  }

  /** OSSemSet. */
  function SemSet(k: K, o: Oid, cnt: SemCtr): R {
    match Object(k, o)
    case Sem(ctr) =>
      if ctr > 0 || Waiters(k, o) == [] then R(SetObj(k, o, Sem(cnt)), ErrNone) else R(k, ErrTaskWaiting)
    case _ => R(k, ErrObjType)
  }

  /** OSSemPendAbort, OSQPendAbort, OSMutexPendAbort and OSFlagPendAbort. The option word is compared with
      OS_OPT_PEND_ABORT_ALL as a whole, so that ABORT_ALL with NO_SCHED aborts one task. */
  function PendAbort(k: K, o: Oid, all: bool, noSched: bool): R {
    var w := Waiters(k, o);
    if Object(k, o) == Gone then R(k, ErrObjType)
    else if w == [] then R(k, ErrAbortNone)
    else R(MaybeSched(WakeAll(k, if all && !noSched then w else w[..1], Aborted(Some(o))), noSched), ErrNone)
  }

  /** OSSemDel, OSQDel and OSFlagDel. */
  function ObjDel(k: K, o: Oid, always: bool): R {
    var w := Waiters(k, o);
    if Object(k, o).Gone? || Object(k, o).Mutex? then R(k, ErrObjType)
    else if !always then
      if w == [] then R(SetObj(k, o, Gone), ErrNone) else R(k, ErrTaskWaiting)
    else R(Sched(SetObj(WakeAll(k, w, ObjDeleted(Some(o))), o, Gone)), ErrNone)
  }

  // ------------------------------------------------------------------------------------------ queues

  /** OSQPend. The message taken at once is the head of the queue before the call. */
  function QPend(k: K, o: Oid, timeout: Tick, nonBlocking: bool): R {
    match Object(k, o)
    case Queue(msgs, max) =>
      if msgs != [] then R(SetObj(k, o, Queue(msgs[1..], max)), ErrNone)
      else BlockCur(k, OnQ, Entry(o), timeout, nonBlocking)
    case _ => R(k, ErrObjType)
  }

  /** OS_MsgQPut on the abstract queue; `poolEmpty` says that no message node is left. */
  function MsgPut(msgs: seq<Msg>, max: nat, m: Msg, lifo: bool, poolEmpty: bool): (seq<Msg>, Err) {
    if |msgs| >= max then (msgs, ErrQMax)
    else if poolEmpty then (msgs, ErrPoolEmpty)
    else if lifo then ([m] + msgs, ErrNone)
    else (msgs + [m], ErrNone)
  }

  /** OS_QPost. */
  function QPost(k: K, o: Oid, m: Msg, lifo: bool, all: bool, noSched: bool, poolEmpty: bool): R {
    match Object(k, o)
    case Queue(msgs, max) =>
      var w := Waiters(k, o);
      if w == [] then
        var (q, err) := MsgPut(msgs, max, m, lifo, poolEmpty);
        R(SetObj(k, o, Queue(q, max)), err)
      else R(MaybeSched(WakeAll(k, if all then w else w[..1], Posted(Some(o), m)), noSched), ErrNone)
    case _ => R(k, ErrObjType)
  }

  /** OSQFlush. */
  function QFlush(k: K, o: Oid): R {
    match Object(k, o)
    case Queue(msgs, max) => R(SetObj(k, o, Queue([], max)), ErrNone)
    case _ => R(k, ErrObjType)
  }

  // ----------------------------------------------------------------------------------------- mutexes

  /** Change the priority of a mutex owner, as OSMutexPend and OSMutexDel do. */
  function SetOwnerPrio(k: K, t: Tid, prio: nat, atTail: bool): K {
    var b := Get(k, t);
    if b.state == RDY then MoveReady(k, t, prio, atTail)
    else if b.state.Live? && b.state.pend then MovePending(k, t, prio)
    else Put(k, t, b.(prio := prio))
  }

  /** The owner inherits the priority of the caller if that is higher. */
  function RaiseOwner(k: K, t: Tid, prio: nat): K {
    if Get(k, t).prio > prio then SetOwnerPrio(k, t, prio, false) else k
  }

  /** OSMutexPend. The nesting counter is 8 bits wide. */
  function MutexPend(k: K, o: Oid, timeout: Tick, nonBlocking: bool): R {
    match Object(k, o)
    case Mutex(owner, nest, orig) =>
      if nest == 0 then R(SetObj(k, o, Mutex(Some(k.cur), 1, Get(k, k.cur).prio)), ErrNone)
      else if owner == Some(k.cur) then R(SetObj(k, o, Mutex(owner, (nest + 1) % 256, orig)), ErrMutexOwner)
      else if nonBlocking then R(k, ErrWouldBlock)
      else if k.lock > 0 then R(k, ErrSchedLocked)
      else if owner == None then R(k, ErrStateInvalid)
      else if Get(k, owner.value).prio > Get(k, k.cur).prio && Get(k, owner.value).state == Deleted then
        R(k, ErrStateInvalid)
      else
        var k1 := RaiseOwner(k, owner.value, Get(k, k.cur).prio);
        R(Sched(Block(k1, k.cur, OnMutex, Entry(o), timeout)), Blocked)
    case _ => R(k, ErrObjType)
  }

  /** The owner gives up a mutex that others wait for: it gets its original priority back and goes to the tail. */
  function RestoreCur(k: K, orig: nat): K {
    if Get(k, k.cur).prio == orig then k else MoveReady(k, k.cur, orig, true).(prioCur := orig)
  }

  /** OSMutexPost. */
  function MutexPost(k: K, o: Oid, noSched: bool): R {
    match Object(k, o)
    case Mutex(owner, nest, orig) =>
      if owner != Some(k.cur) then R(k, ErrMutexNotOwner)
      else if nest > 1 then R(SetObj(k, o, Mutex(owner, nest - 1, orig)), ErrMutexNesting)
      else
        var w := Waiters(k, o);
        if w == [] then R(SetObj(k, o, Mutex(None, 0, orig)), ErrNone)
        else
          var k1 := RestoreCur(k, orig);
          var k2 := SetObj(k1, o, Mutex(Some(w[0]), 1, Get(k1, w[0]).prio));
          R(MaybeSched(Wake(k2, w[0], Posted(Some(o), NO_MSG)), noSched), ErrNone)
    case _ => R(k, ErrObjType)
  }

  /** OSMutexDel. */
  function MutexDel(k: K, o: Oid, always: bool): R {
    match Object(k, o)
    case Mutex(owner, nest, orig) =>
      var w := Waiters(k, o);
      if !always then
        if w == [] then R(SetObj(k, o, Gone), ErrNone) else R(k, ErrTaskWaiting)
      else if owner.Some? && Get(k, owner.value).prio != orig && Get(k, owner.value).state == Deleted then
        R(k, ErrStateInvalid)
      else
        var k1 := if owner.Some? && Get(k, owner.value).prio != orig then SetOwnerPrio(k, owner.value, orig, true) else k;
        R(Sched(SetObj(WakeAll(k1, w, ObjDeleted(Some(o))), o, Gone)), ErrNone)
    case _ => R(k, ErrObjType)
  }

  // ------------------------------------------------------------------------------------- event flags

  function BitAnd(f: Flags, g: Flags): Flags { f & g }

  function BitOr(f: Flags, g: Flags): Flags { f | g }

  function BitNot(f: Flags): Flags { !f }

  /** The bits of interest that are as the mode asks. */
  function FlagBits(mode: FlagMode, flags: Flags, want: Flags): Flags {
    match mode
    case SetAll => BitAnd(flags, want)
    case SetAny => BitAnd(flags, want)
    case ClrAll => BitAnd(BitNot(flags), want)
    case ClrAny => BitAnd(BitNot(flags), want)
  }

  /** The condition a task waits for holds. */
  predicate FlagMet(mode: FlagMode, flags: Flags, want: Flags) {
    var rdy := FlagBits(mode, flags, want);
    match mode
    case SetAll => rdy == want
    case ClrAll => rdy == want
    case SetAny => rdy != 0
    case ClrAny => rdy != 0
  }

  function FlagConsumed(mode: FlagMode, flags: Flags, rdy: Flags): Flags {
    match mode
    case SetAll => BitAnd(flags, BitNot(rdy))
    case SetAny => BitAnd(flags, BitNot(rdy))
    case ClrAll => BitOr(flags, rdy)
    case ClrAny => BitOr(flags, rdy)
  }

  /** OSFlagPend up to the point where the task blocks. */
  function FlagPend(k: K, o: Oid, want: Flags, mode: FlagMode, consume: bool, timeout: Tick, nonBlocking: bool): R {
    match Object(k, o)
    case FlagGrp(flags) =>
      var b := Get(k, k.cur);
      if FlagMet(mode, flags, want) then
        var rdy := FlagBits(mode, flags, want);
        var k1 := Put(k, k.cur, b.(flagsRdy := rdy));
        R(if consume then SetObj(k1, o, FlagGrp(FlagConsumed(mode, flags, rdy))) else k1, ErrNone)
      else if nonBlocking then R(k, ErrWouldBlock)
      else if k.lock > 0 then R(k, ErrSchedLocked)
      else BlockCur(Put(k, k.cur, b.(flagsPend := want, flagsMode := mode, flagsRdy := 0)), OnFlag, Entry(o), timeout, false)
    case _ => R(k, ErrObjType)
  }

  /** The end of OSFlagPend in a task that was woken by a post: consume the flags it was given. */
  function FlagConsume(k: K, o: Oid): R {
    match Object(k, o)
    case FlagGrp(flags) =>
      R(SetObj(k, o, FlagGrp(FlagConsumed(Get(k, k.cur).flagsMode, flags, Get(k, k.cur).flagsRdy))), ErrNone)
    case _ => R(k, ErrObjType)
  }

  /** OS_FlagTaskRdy. A task that is suspended while waiting with a timeout is left in the tick wheel. */
  function FlagReady(k: K, t: Tid, rdy: Flags): K {
    var b := Get(k, t);
    if b.state == PEND_TIMEOUT_SUSPENDED then
      Put(Unlink(k, t), t, Finish(b, Flagged(rdy)).(spoke := b.spoke, due := b.due))
    else Wake(k, t, Flagged(rdy))
  }

  /** The loop of OS_FlagPost over the tasks that were waiting. */
  function FlagReadyAll(k: K, ts: seq<Tid>, flags: Flags): K
    decreases |ts|
  {
    if ts == [] then k else
    var b := Get(k, ts[0]);
    var k1 := if FlagMet(b.flagsMode, flags, b.flagsPend)
      then FlagReady(k, ts[0], FlagBits(b.flagsMode, flags, b.flagsPend)) else k;
    FlagReadyAll(k1, ts[1..], flags)
  }

  /** The flags after a post. */
  function PostedFlags(flags: Flags, bits: Flags, set': bool): Flags {
    if set' then BitOr(flags, bits) else BitAnd(flags, BitNot(bits))
  }

  /** OS_FlagPost. */
  function FlagPost(k: K, o: Oid, bits: Flags, set': bool, noSched: bool): R {
    match Object(k, o)
    case FlagGrp(flags) =>
      var now := PostedFlags(flags, bits, set');
      var k1 := SetObj(k, o, FlagGrp(now));
      var w := Waiters(k, o);
      if w == [] then R(k1, ErrNone) else R(MaybeSched(FlagReadyAll(k1, w, now), noSched), ErrNone)
    case _ => R(k, ErrObjType)
  }

  // -------------------------------------------------------------------------------------- multi-pend

  /** OS_PendMultiGetRdy: take what every object in the table has. */
  function TakeReady(obj: map<Oid, Obj>, tbl: seq<PendData>): (map<Oid, Obj>, seq<PendData>, nat) {
    if tbl == [] then (obj, [], 0) else
    var o := tbl[0].obj;
    var d := PendData(o, false, NO_MSG);
    var v := if o in obj then obj[o] else Gone;
    if v.Queue? && v.msgs != [] then
      var (obj1, rest, n) := TakeReady(obj[o := v.(msgs := v.msgs[1..])], tbl[1..]);
      (obj1, [d.(rdy := true, msg := v.msgs[0])] + rest, n + 1)
    else if v.Sem? && v.ctr > 0 then
      var (obj1, rest, n) := TakeReady(obj[o := v.(ctr := v.ctr - 1)], tbl[1..]);
      (obj1, [d.(rdy := true)] + rest, n + 1)
    else
      var (obj1, rest, n) := TakeReady(obj, tbl[1..]);
      (obj1, [d] + rest, n)
  }

  /** OS_PendMultiValidate. */
  predicate MultiValid(k: K, tbl: seq<PendData>) {
    tbl == [] || ((Object(k, tbl[0].obj).Sem? || Object(k, tbl[0].obj).Queue?) && MultiValid(k, tbl[1..]))
  }

  /** OSPendMulti. */
  function MultiPend(k: K, tbl: seq<PendData>, timeout: Tick, nonBlocking: bool): R {
    if tbl == [] then R(k, ErrPtrInvalid)
    else if !MultiValid(k, tbl) then R(k, ErrObjType)
    else
      var (obj, got, n) := TakeReady(k.obj, tbl);
      if n > 0 then R(Put(k, k.cur, Get(k, k.cur).(got := got)).(obj := obj), ErrNone)
      else BlockCur(k, OnMulti, got, timeout, nonBlocking)
  }

  // ---------------------------------------------------------------------- signals and messages to a task

  /** OSTaskSemPend. */
  function TaskSemPend(k: K, timeout: Tick, nonBlocking: bool): R {
    var b := Get(k, k.cur);
    if b.semCtr > 0 then R(Put(k, k.cur, b.(semCtr := b.semCtr - 1)), ErrNone)
    else BlockCur(k, OnTaskSem, [], timeout, nonBlocking)
  }

  /** OS_TaskSemPost. */
  function TaskSemPost(k: K, t: Tid, noSched: bool): R {
    var b := Get(k, t);
    if b.state == Deleted then R(k, ErrStateInvalid)
    else if b.state.pend && b.pendOn == OnTaskSem then
      R(MaybeSched(Wake(k, t, Posted(None, NO_MSG)), noSched), ErrNone)
    else if b.semCtr == SEM_MAX then R(k, ErrSemOvf)
    else R(Put(k, t, b.(semCtr := b.semCtr + 1)), ErrNone)
  }

  /** OSTaskSemPendAbort and OSTaskQPendAbort (`on` tells which). */
  function TaskPendAbort(k: K, t: Tid, on: PendOn, noSched: bool): R {
    if t == k.cur then R(k, ErrAbortSelf)
    else if Get(k, t).pendOn != on then R(k, ErrAbortNone)
    else R(MaybeSched(Wake(k, t, Aborted(None)), noSched), ErrNone)
  }

  /** OSTaskQPend. */
  function TaskQPend(k: K, timeout: Tick, nonBlocking: bool): R {
    var b := Get(k, k.cur);
    if b.taskQ != [] then R(Put(k, k.cur, b.(taskQ := b.taskQ[1..])), ErrNone)
    else BlockCur(k, OnTaskQ, [], timeout, nonBlocking)
  }

  /** OS_TaskQPost. */
  function TaskQPost(k: K, t: Tid, m: Msg, lifo: bool, noSched: bool, poolEmpty: bool): R {
    var b := Get(k, t);
    if b.state == Deleted then R(k, ErrStateInvalid)
    else if b.state.pend && b.pendOn == OnTaskQ then
      R(MaybeSched(Wake(k, t, Posted(None, m)), noSched), ErrNone)
    else
      var (q, err) := MsgPut(b.taskQ, b.taskQMax, m, lifo, poolEmpty);
      R(Put(k, t, b.(taskQ := q)), err)
  }

  // --------------------------------------------------------------------------------------- scheduler

  /** OS_SchedRoundRobin once the quantum is used up, and OSSchedRoundRobinYield, which calls the scheduler itself. */
  function RoundRobin(k: K): R {
    if k.lock > 0 then R(k, ErrSchedLocked)
    else if k.prioCur >= |k.rdy| || |k.rdy[k.prioCur]| < 2 then R(k, ErrRoundRobin1)
    else R(Sched(k.(rdy := k.rdy[k.prioCur := Rotate(k.rdy[k.prioCur])])), ErrNone)
  }

  /** OSSchedLock. */
  function SchedLock(k: K): R {
    if k.lock >= 250 then R(k, ErrLockOvf) else R(k.(lock := k.lock + 1), ErrNone)
  }

  /** OSSchedUnlock. */
  function SchedUnlock(k: K): R {
    if k.lock == 0 then R(k, ErrNotLocked) else
    R(Sched(k.(lock := k.lock - 1)), if k.lock > 1 then ErrSchedLocked else ErrNone)
  }
}
