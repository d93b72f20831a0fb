/** What the kernel's internal routines do to the state, as functions: linking and unlinking a task, blocking it,
    waking it, moving it to another priority. Each is total; the services in `Services` are built from them.
  */
module KernelOps {
  import opened TaskLists
  import opened KernelState

  function Put(k: K, t: Tid, b: Tcb): K {
    k.(tcb := k.tcb[t := b])
  }

  // ------------------------------------------------------------------------------------- ready lists

  /** OS_PrioInsert, then OS_RdyListInsertHead or OS_RdyListInsertTail at the task's priority. */
  function RdyPut(k: K, t: Tid, atTail: bool): K {
    var p := Get(k, t).prio;
    if p >= |k.rdy| then k else
    var q := if atTail then k.rdy[p] + [t] else [t] + k.rdy[p];
    k.(rdy := k.rdy[p := q], prios := k.prios + {p})
  }

  /** OS_RdyListInsert: at the tail if the task has the priority of the current task, else at the head. */
  function RdyInsert(k: K, t: Tid): K {
    RdyPut(k, t, Get(k, t).prio == k.prioCur)
  }

  /** OS_RdyListRemove, with its OS_PrioRemove when the list becomes empty. */
  function RdyRemove(k: K, t: Tid): K {
    var p := Get(k, t).prio;
    if p >= |k.rdy| then k else
    var q := Drop(k.rdy[p], t);
    k.(rdy := k.rdy[p := q], prios := if q == [] then k.prios - {p} else k.prios)
  }

  // -------------------------------------------------------------------------------------- tick wheel

  /** The wheel without t, which is linked into spoke i (-1: into none). */
  function WheelDrop(wheel: seq<seq<Tid>>, i: int, t: Tid): seq<seq<Tid>> {
    if 0 <= i < |wheel| then wheel[i := Drop(wheel[i], t)] else wheel
  }

  /** OS_TickListRemove. */
  function WheelRemove(k: K, t: Tid): K {
    var b := Get(k, t);
    Put(k, t, b.(spoke := -1, due := if b.spoke >= 0 then 0 else b.due)).(wheel := WheelDrop(k.wheel, b.spoke, t))
  }

  datatype TimeOpt = OptDly | OptTimeout | OptMatch | OptPeriodic

  /** OS_TICK_TH_RDY for a 32-bit OS_TICK. */
  const TICK_TH_RDY: nat := 0xFFFF_0000

  /** The due time OS_TickListInsert computes, or None where it answers OS_ERR_TIME_ZERO_DLY. */
  function DueTime(now: Tick, prev: Tick, time: Tick, opt: TimeOpt): Option<Tick> {
    if opt == OptMatch then
      if Sub32(Sub32(time, now), 1) > TICK_TH_RDY then None else Some(time)
    else if time == 0 then None
    else if opt == OptPeriodic then
      var next := Add32(prev, time);
      if Sub32(Sub32(next, now), 1) < time then Some(next) else Some(Add32(now, time))
    else Some(Add32(now, time))
  }

  /** The wheel with t linked into spoke i, in order of the ticks remaining. */
  function WheelAdd(wheel: seq<seq<Tid>>, i: int, t: Tid, ord: Order): seq<seq<Tid>> {
    if 0 <= i < |wheel| then wheel[i := Insert(wheel[i], t, ord)] else wheel
  }

  /** The fields OS_TickListInsert sets in the TCB. */
  function Timed(b: Tcb, now: Tick, size: nat, time: Tick, opt: TimeOpt): Tcb {
    match DueTime(now, b.prev, time, opt)
    case None => b.(due := 0, spoke := -1)
    case Some(due) => b.(due := due, spoke := SpokeOf(due, size), prev := if opt == OptPeriodic then due else b.prev)
  }

  // -------------------------------------------------------------------------------------- pend lists

  /** Take t off the pend lists of the objects in the table (the loop of OS_PendListRemove). */
  function UnlinkAll(wait: map<Oid, seq<Tid>>, tbl: seq<PendData>, t: Tid): map<Oid, seq<Tid>> {
    if tbl == [] then wait else
    var o := tbl[0].obj;
    UnlinkAll(if o in wait then wait[o := Drop(wait[o], t)] else wait, tbl[1..], t)
  }

  /** Put t on the pend lists of the objects in the table, in order of priority (the loop of OS_PendMultiWait). */
  function LinkAll(wait: map<Oid, seq<Tid>>, tbl: seq<PendData>, t: Tid, ord: Order): map<Oid, seq<Tid>> {
    if tbl == [] then wait else
    var o := tbl[0].obj;
    LinkAll(if o in wait then wait[o := Insert(wait[o], t, ord)] else wait, tbl[1..], t, ord)
  }

  /** Move t to its place under the new priorities in every list of the table (the loop of OS_PendListChangePrio). */
  function ResortAll(wait: map<Oid, seq<Tid>>, tbl: seq<PendData>, t: Tid, ord: Order): map<Oid, seq<Tid>> {
    if tbl == [] then wait else
    var o := tbl[0].obj;
    var w := if o in wait && |wait[o]| > 1 then wait[o := Insert(Drop(wait[o], t), t, ord)] else wait;
    ResortAll(w, tbl[1..], t, ord)
  }

  /** OS_PendListRemove. */
  function Unlink(k: K, t: Tid): K {
    var b := Get(k, t);
    Put(k, t, b.(tbl := [])).(wait := UnlinkAll(k.wait, b.tbl, t))
  }

  // ---------------------------------------------------------------------------------- block and wake

  /** t goes to sleep with the given TCB: it leaves the ready list, and enters the spoke and the pend lists that the
      TCB names. */
  function Sleep(k: K, t: Tid, b: Tcb): K {
    var tcb := k.tcb[t := b];
    RdyRemove(k.(tcb := tcb, wheel := WheelAdd(k.wheel, b.spoke, t, RemainOrder(tcb, k.now)),
                 wait := LinkAll(k.wait, b.tbl, t, PrioOrder(tcb))), t)
  }

  function BlockedTcb(b: Tcb, on: PendOn, tbl: seq<PendData>, timeout: Tick, now: Tick, size: nat): Tcb {
    var b1 := b.(pendOn := on, status := StatusOk, tbl := tbl);
    if timeout > 0 then Timed(b1, now, size, timeout, OptTimeout).(state := PEND_TIMEOUT) else b1.(state := PEND)
  }

  /** OS_Pend, and OS_PendMultiWait: the task t starts to wait for the objects in the table. */
  function Block(k: K, t: Tid, on: PendOn, tbl: seq<PendData>, timeout: Tick): K {
    Sleep(k, t, BlockedTcb(Get(k, t), on, tbl, timeout, k.now, |k.wheel|))
  }

  /** Why a blocked task is woken. */
  datatype Event =
    | Posted(obj: Option<Oid>, msg: Msg)
    | Flagged(flags: Flags)
    | Aborted(obj: Option<Oid>)
    | ObjDeleted(obj: Option<Oid>)
    | TimedOut
    | DelayOver

  function EventStatus(b: Tcb, ev: Event): PendStatus {
    match ev
    case Posted(_, _) => StatusOk
    case Flagged(_) => StatusOk
    case Aborted(_) => StatusAbort
    case ObjDeleted(_) => StatusDel
    case TimedOut => StatusTimeout
    case DelayOver => b.status
  }

  function EventMsg(b: Tcb, ev: Event): Msg {
    match ev
    case Posted(_, m) => if b.pendOn == OnMulti then b.msg else m
    case Flagged(_) => b.msg
    case DelayOver => b.msg
    case _ => NO_MSG
  }

  /** Mark the entry of object o (OS_Post1, OS_PendAbort1, OS_PendObjDel1). */
  function Mark(tbl: seq<PendData>, o: Oid, m: Option<Msg>): seq<PendData> {
    if tbl == [] then []
    else if tbl[0].obj == o then
      [tbl[0].(rdy := true, msg := if m.Some? then m.value else tbl[0].msg)] + tbl[1..]
    else [tbl[0]] + Mark(tbl[1..], o, m)
  }

  /** The pend table as the task finds it afterwards. */
  function EventTbl(b: Tcb, ev: Event): seq<PendData> {
    if b.pendOn != OnMulti then b.tbl else
    match ev
    case Posted(Some(o), m) => Mark(b.tbl, o, Some(m))
    case Aborted(Some(o)) => Mark(b.tbl, o, None)
    case ObjDeleted(Some(o)) => Mark(b.tbl, o, None)
    case _ => b.tbl
  }

  /** The TCB of a task that was woken: of the three state bits only SUSPENDED survives. */
  function Finish(b: Tcb, ev: Event): Tcb {
    b.(state := if b.state.Live? then Live(b.state.susp, false, false) else b.state, pendOn := OnNothing, status := EventStatus(b, ev),
       msg := EventMsg(b, ev), tbl := [], got := if ev.DelayOver? then b.got else EventTbl(b, ev),
       spoke := -1, due := if b.spoke >= 0 then 0 else b.due,
       flagsRdy := if ev.Flagged? then ev.flags else b.flagsRdy)
  }

  /** The event ends what the task is waiting for; on other tasks it has no effect. */
  predicate Ends(ev: Event, s: TaskState) {
    s.Live? && if ev.DelayOver? then s.dly && !s.pend else s.pend
  }

  /** A blocked task stops waiting: it leaves the pend lists and the tick wheel, and becomes ready unless it is
      suspended. */
  function Wake(k: K, t: Tid, ev: Event): K {
    var b := Get(k, t);
    if !Ends(ev, b.state) then k else
    var k1 := k.(tcb := k.tcb[t := Finish(b, ev)], wait := UnlinkAll(k.wait, b.tbl, t),
                 wheel := WheelDrop(k.wheel, b.spoke, t));
    if Finish(b, ev).state == RDY then RdyInsert(k1, t) else k1
  }

  function WakeAll(k: K, ts: seq<Tid>, ev: Event): K
    decreases |ts|
  {
    if ts == [] then k else WakeAll(Wake(k, ts[0], ev), ts[1..], ev)
  }

  // ---------------------------------------------------------------------------------------- priority

  /** Move a ready task to another priority: OS_RdyListRemove, new Prio, OS_PrioInsert, insert. */
  function MoveReady(k: K, t: Tid, p: nat, atTail: bool): K {
    var k1 := RdyRemove(k, t);
    RdyPut(Put(k1, t, Get(k1, t).(prio := p)), t, atTail)
  }

  /** OS_PendListChangePrio. */
  function MovePending(k: K, t: Tid, p: nat): K {
    var k1 := Put(k, t, Get(k, t).(prio := p));
    k1.(wait := ResortAll(k.wait, Get(k, t).tbl, t, PrioOrder(k1.tcb)))
  }

  /** OS_RdyListMoveHeadToTail. */
  function Rotate(q: seq<Tid>): seq<Tid> {
    if |q| < 2 then q else q[1..] + [q[0]]
  }

  // --------------------------------------------------------------------------------------- scheduler

  /** The least priority, from p on, with a ready task. */
  function FirstReady(rdy: seq<seq<Tid>>, p: nat): nat
    decreases |rdy| - p
  {
    if p >= |rdy| || rdy[p] != [] then p else FirstReady(rdy, p + 1)
  }

  /** OSSched and the tail of OSIntExit: the head of the highest ready list becomes the current task. */
  function Sched(k: K): K {
    if k.lock > 0 then k else
    var p := FirstReady(k.rdy, 0);
    if p >= |k.rdy| || k.rdy[p] == [] || k.rdy[p][0] == k.cur then k
    else k.(cur := k.rdy[p][0], prioCur := p)
  }
}
