/** The kernel's data structures and their invariant.

    The state is one value `K`: the task control blocks, the ready list of each priority, the spokes of the
    tick wheel and the pend list of each object. Two facts about a task are recorded in more than one place:
    which state it is in (three bits of its TCB) and which lists its links are on. `Inv` says that they agree.
  */
module KernelState {
  import opened TaskLists

  type Oid = nat

  /** The eight task states, as the three bits they are made of, and the state of a TCB that is not in use. */
  datatype TaskState = Deleted | Live(susp: bool, pend: bool, dly: bool)

  const RDY := Live(false, false, false)
  const DLY := Live(false, false, true)
  const PEND := Live(false, true, false)
  const PEND_TIMEOUT := Live(false, true, true)
  const SUSPENDED := Live(true, false, false)
  const DLY_SUSPENDED := Live(true, false, true)
  const PEND_SUSPENDED := Live(true, true, false)
  const PEND_TIMEOUT_SUSPENDED := Live(true, true, true)

  datatype PendOn = OnNothing | OnFlag | OnTaskQ | OnMulti | OnMutex | OnQ | OnSem | OnTaskSem

  datatype PendStatus = StatusOk | StatusAbort | StatusDel | StatusTimeout

  /** A semaphore counter value (OS_SEM_CTR). */
  type SemCtr = n: nat | n < 0x1_0000_0000

  /** A message: pointer and size. */
  datatype Msg = Msg(ptr: nat, size: nat)

  const NO_MSG := Msg(0, 0)

  /** An OS_PEND_DATA: the object pended on, and what is reported back through `RdyObjPtr` and `RdyMsgPtr`. */
  datatype PendData = PendData(obj: Oid, rdy: bool, msg: Msg)

  type Flags = bv32

  datatype FlagMode = ClrAll | ClrAny | SetAll | SetAny

  /** A task control block. `tbl` is the table of pend data linked into pend lists (PendDataTblPtr with
      PendDataTblEntries); `got` is that table as the task finds it after it was woken. `spoke` is the tick
      spoke it is linked into, or -1. */
  datatype Tcb = Tcb(
    state: TaskState, prio: nat, pendOn: PendOn, status: PendStatus,
    tbl: seq<PendData>, got: seq<PendData>, msg: Msg,
    suspendCtr: nat, semCtr: SemCtr, taskQ: seq<Msg>, taskQMax: nat,
    due: Tick, prev: Tick, spoke: int,
    flagsPend: Flags, flagsRdy: Flags, flagsMode: FlagMode)

  /** OS_TICK_TH_INIT, and the TCB of OS_TaskInitTCB. */
  const TICK_TH_INIT: Tick := 0x8000_0000

  const NO_TCB := Tcb(Deleted, 0, OnNothing, StatusOk, [], [], NO_MSG, 0, 0, [], 0, 0, TICK_TH_INIT, -1, 0, 0, SetAll)

  datatype Option<T> = None | Some(value: T)

  /** A kernel object, apart from its pend list. `Gone` is an object that was deleted or never created. */
  datatype Obj =
    | Gone
    | Sem(ctr: SemCtr)
    | Mutex(owner: Option<Tid>, nest: nat, orig: nat)
    | Queue(msgs: seq<Msg>, max: nat)
    | FlagGrp(flags: Flags)

  datatype K = K(
    tcb: map<Tid, Tcb>, rdy: seq<seq<Tid>>, prios: set<nat>, wheel: seq<seq<Tid>>,
    wait: map<Oid, seq<Tid>>, obj: map<Oid, Obj>,
    now: Tick, cur: Tid, prioCur: nat, lock: nat, idle: Tid)

  function Get(k: K, t: Tid): Tcb {
    if t in k.tcb then k.tcb[t] else NO_TCB
  }

  function Object(k: K, o: Oid): Obj {
    if o in k.obj then k.obj[o] else Gone
  }

  function Waiters(k: K, o: Oid): seq<Tid> {
    if o in k.wait then k.wait[o] else []
  }

  /** The object o has an entry in the table. */
  predicate Listed(tbl: seq<PendData>, o: Oid) {
    tbl != [] && (tbl[0].obj == o || Listed(tbl[1..], o))
  }

  /** No object has two entries in the table. */
  predicate Distinct(tbl: seq<PendData>) {
    tbl == [] || (!Listed(tbl[1..], tbl[0].obj) && Distinct(tbl[1..]))
  }

  /** No entry is marked as the one that became ready. */
  predicate Unmarked(tbl: seq<PendData>) {
    tbl == [] || (!tbl[0].rdy && Unmarked(tbl[1..]))
  }

  function PrioOrder(tcb: map<Tid, Tcb>): Order {
    Order(map t | t in tcb :: tcb[t].prio, true)
  }

  function RemainOrder(tcb: map<Tid, Tcb>, now: Tick): Order {
    Order(map t | t in tcb :: Sub32(tcb[t].due, now), false)
  }

  /** The spoke a due time (TickCtrMatch) hashes to. */
  function SpokeOf(due: Tick, size: nat): (i: nat)
    ensures size > 0 ==> i < size
  {
    if size == 0 then 0 else due % size
  }

  // ---------------------------------------------------------------------------------------------
  // The invariant
  // ---------------------------------------------------------------------------------------------

  /** The priority a task is ready at, or -1. */
  function RdyAt(b: Tcb): int {
    if b.state == RDY then b.prio else -1
  }

  /** t is in the ready list of priority p exactly when it is ready and has that priority; the priority table names
      the non-empty ready lists. */
  ghost predicate ReadyInv(k: K) {
    && (forall p: nat, t: Tid :: p < |k.rdy| ==> Count(k.rdy[p], t) == if RdyAt(Get(k, t)) == p then 1 else 0)
    && forall p: nat :: p in k.prios <==> p < |k.rdy| && k.rdy[p] != []
  }

  /** t is in the spoke its TCB points at and in no other, and each spoke is sorted by the ticks remaining. */
  ghost predicate WheelInv(k: K) {
    && |k.wheel| > 0
    && (forall i: nat, t: Tid :: i < |k.wheel| ==> Count(k.wheel[i], t) == if Get(k, t).spoke == i then 1 else 0)
    && forall i: nat :: i < |k.wheel| ==> Sorted(k.wheel[i], RemainOrder(k.tcb, k.now))
  }

  /** What a task pends on is an object of the right kind. */
  predicate KindOk(on: PendOn, obj: Obj) {
    match on
    case OnFlag => obj.FlagGrp?
    case OnMutex => obj.Mutex?
    case OnQ => obj.Queue?
    case OnSem => obj.Sem?
    case OnMulti => obj.Sem? || obj.Queue?
    case _ => false
  }

  /** t is in the pend lists of the objects in its table and in no other; a pend list is sorted by priority unless it
      is that of an event flag group; the objects are of the kind the task pends on. */
  ghost predicate WaitInv(k: K) {
    && (forall o: Oid, t: Tid :: o in k.wait ==>
      Count(k.wait[o], t) == if Listed(Get(k, t).tbl, o) then 1 else 0)
    && (forall o: Oid :: o in k.wait && !Object(k, o).FlagGrp? ==> Sorted(k.wait[o], PrioOrder(k.tcb)))
    && forall t: Tid, o: Oid :: Listed(Get(k, t).tbl, o) ==> o in k.wait && KindOk(Get(k, t).pendOn, Object(k, o))
  }

  predicate OneObject(on: PendOn) {
    on == OnFlag || on == OnMutex || on == OnQ || on == OnSem
  }

  predicate NoObject(on: PendOn) {
    on == OnNothing || on == OnTaskQ || on == OnTaskSem
  }

  /** The three state bits say what the rest of the TCB says, and a task that waits for its own signals or messages has
      none. */
  predicate TcbOk(b: Tcb, prios: nat, size: nat, now: Tick) {
    && (b.state == Deleted ==> b.spoke == -1 && b.pendOn == OnNothing && b.suspendCtr == 0)
    && (b.state.Live? ==>
      && b.prio < prios
      && (b.state.dly <==> b.spoke >= 0)
      && (b.state.pend <==> b.pendOn != OnNothing)
      && (b.state.susp <==> b.suspendCtr > 0))
    && b.suspendCtr < 256
    && -1 <= b.spoke < size
    && (b.spoke >= 0 ==> b.spoke == SpokeOf(b.due, size) && b.due != now)
    && (NoObject(b.pendOn) ==> b.tbl == [])
    && (OneObject(b.pendOn) ==> |b.tbl| == 1)
    && (b.pendOn == OnMulti ==> b.tbl != [])
    && Distinct(b.tbl)
    && Unmarked(b.tbl)
    && (b.pendOn == OnTaskSem ==> b.semCtr == 0)
    && (b.pendOn == OnTaskQ ==> b.taskQ == [])
    && |b.taskQ| <= b.taskQMax
  }

  ghost predicate TcbInv(k: K) {
    forall t: Tid :: t in k.tcb ==> TcbOk(k.tcb[t], |k.rdy|, |k.wheel|, k.now)
  }

  /** What an object holds and who waits for it exclude each other. */
  predicate ObjOk(k: K, o: Oid, v: Obj) {
    match v
    case Gone => Waiters(k, o) == []
    case Sem(ctr) => ctr > 0 ==> Waiters(k, o) == []
    case Queue(msgs, max) => |msgs| <= max && (msgs != [] ==> Waiters(k, o) == [])
    case FlagGrp(_) => true
    case Mutex(owner, nest, orig) =>
      && (owner == None <==> nest == 0) && nest < 256
      && (owner == None ==> Waiters(k, o) == [])
      && (owner.Some? ==>
        Get(k, owner.value).state != Deleted && orig < |k.rdy| && !Listed(Get(k, owner.value).tbl, o))
  }

  ghost predicate ObjInv(k: K) {
    && k.wait.Keys == k.obj.Keys
    && forall o: Oid :: o in k.obj ==> ObjOk(k, o, k.obj[o])
  }

  /** The lists and the task control blocks agree. */
  ghost predicate CoreInv(k: K) {
    ReadyInv(k) && WheelInv(k) && WaitInv(k) && TcbInv(k)
  }

  /** The running task and the idle task are ready. */
  predicate CurOk(k: K) {
    Get(k, k.cur).state == RDY && Get(k, k.idle).state == RDY
  }

  ghost predicate Inv(k: K) {
    CoreInv(k) && ObjInv(k) && CurOk(k)
  }
}
