/** The kernel's routines as they are coded: step by step on the task control blocks and the lists, with the loops and
    the switches over the task state. Each is proved against its function in `KernelOps` or `Services`.
  */
module KernelCode {
  import opened TaskLists
  import opened KernelState
  import opened KernelOps
  import opened ListMoves
  import opened CoreKept
  import opened ObjKept
  import opened Services
  import opened Run
  import opened ListScans
  import opened Suspension

  /** The state of a TCB in which OSPrioCur and the ready lists leave it on OS_TickListInsert. */
  function TickInsert(k: K, t: Tid, time: Tick, opt: TimeOpt): K {
    var b := Timed(Get(k, t), k.now, |k.wheel|, time, opt);
    Put(k, t, b).(wheel := WheelAdd(k.wheel, b.spoke, t, RemainOrder(k.tcb[t := b], k.now)))
  }

  class Kernel {
    var tcb: map<Tid, Tcb>
    var rdy: seq<seq<Tid>>
    var prios: set<nat>
    var wheel: seq<seq<Tid>>
    var wait: map<Oid, seq<Tid>>
    var obj: map<Oid, Obj>
    var now: Tick
    var cur: Tid
    var prioCur: nat
    var lock: nat
    const idle: Tid

    function State(): K
      reads this
    {
      K(tcb, rdy, prios, wheel, wait, obj, now, cur, prioCur, lock, idle)
    }

    /** OSInit and OSStart. */
    constructor (pool: set<Tid>, idleTask: Tid, nPrios: nat, wheelSize: nat)
      requires nPrios > 0 && wheelSize > 0
      ensures State() == Booted(pool, idleTask, nPrios, wheelSize)
      ensures Inv(State())
    {
      idle := idleTask;
      tcb := (map t | t in pool :: NO_TCB)[idleTask := NO_TCB.(state := RDY, prio := nPrios - 1)];
      rdy := seq(nPrios, p => if p == nPrios - 1 then [idleTask] else []);
      prios := {nPrios - 1};
      wheel := seq(wheelSize, i => []);
      wait, obj, now := map[], map[], 0;
      cur, prioCur, lock := idleTask, nPrios - 1, 0;
      new;
      BootedInv(pool, idleTask, nPrios, wheelSize);
      assert rdy == Booted(pool, idleTask, nPrios, wheelSize).rdy;
      assert wheel == Booted(pool, idleTask, nPrios, wheelSize).wheel;
    }

    // ------------------------------------------------------------------------------------ ready lists

    /** OS_RdyListInsert. */
    method RdyListInsert(t: Tid)
      requires t in tcb && tcb[t].prio < |rdy|
      modifies this`rdy, this`prios
      ensures State() == RdyInsert(old(State()), t)
    {
      var p := tcb[t].prio;
      prios := prios + {p};
      if p == prioCur {
        rdy := rdy[p := rdy[p] + [t]];
      } else {
        rdy := rdy[p := [t] + rdy[p]];
      }
    }

    /** OS_RdyListRemove. */
    method RdyListRemove(t: Tid)
      requires t in tcb && tcb[t].prio < |rdy|
      modifies this`rdy, this`prios
      ensures State() == RdyRemove(old(State()), t)
    {
      var p := tcb[t].prio;
      rdy := rdy[p := Drop(rdy[p], t)];
      if rdy[p] == [] {
        prios := prios - {p};
      }
    }

    /** OS_PrioGetHighest. */
    method PrioGetHighest() returns (prio: nat)
      requires PriosOk(State())
      ensures prio == FirstReady(rdy, 0) && prio < |rdy| && rdy[prio] != []
    {
      prio := 0;
      ghost var p: nat :| p in prios;
      while prio !in prios
        invariant prio <= p && FirstReady(rdy, prio) == FirstReady(rdy, 0)
        decreases p - prio
      {
        prio := prio + 1;
      }
    }

    /** OSSched. */
    method Sched(intNestingCtr: nat := 0)
      requires PriosOk(State())
      modifies this`cur, this`prioCur
      ensures State() == if intNestingCtr > 0 then old(State()) else KernelOps.Sched(old(State()))
    {
      if intNestingCtr > 0 {
        return;
      }
      if lock > 0 {
        return;
      }
      var prioHighRdy := PrioGetHighest();
      var highRdy := rdy[prioHighRdy][0];
      if highRdy != cur {
        cur, prioCur := highRdy, prioHighRdy;
      }
    }

    // ------------------------------------------------------------------------------------- tick wheel

    /** OS_TickListInsert. */
    method TickListInsert(t: Tid, time: Tick, opt: TimeOpt) returns (ok: bool)
      requires t in tcb && |wheel| > 0
      requires forall i: nat, x: Tid :: i < |wheel| && Count(wheel[i], x) > 0 ==> x in tcb
      modifies this`tcb, this`wheel
      ensures State() == TickInsert(old(State()), t, time, opt)
      ensures ok == DueTime(now, old(tcb[t].prev), time, opt).Some?
    {
      var b := tcb[t];
      if opt == OptMatch {
        var tickDelta := Sub32(Sub32(time, now), 1);
        if tickDelta > TICK_TH_RDY {
          tcb := tcb[t := b.(due := 0, spoke := -1)];
          return false;
        }
        b := b.(due := time);
      } else if time > 0 {
        if opt == OptPeriodic {
          var tickNext := Add32(b.prev, time);
          var tickDelta := Sub32(Sub32(tickNext, now), 1);
          if tickDelta < time {
            b := b.(due := tickNext);
          } else {
            b := b.(due := Add32(now, time));
          }
          b := b.(prev := b.due);
        } else {
          b := b.(due := Add32(now, time));
        }
      } else {
        tcb := tcb[t := b.(due := 0, spoke := -1)];
        return false;
      }
      var spoke := b.due % |wheel|;
      b := b.(spoke := spoke);
      assert b == Timed(old(tcb)[t], now, |wheel|, time, opt);
      tcb := tcb[t := b];
      hide Timed, DueTime, RemainOrder, Insert;
      InsertInSpoke(t, spoke);
      return true;
    }

    /** The walk along the spoke in OS_TickListInsert: behind every task with fewer ticks remaining. */
    method InsertInSpoke(t: Tid, spoke: nat)
      requires t in tcb && spoke < |wheel|
      requires forall x: Tid :: Count(wheel[spoke], x) > 0 ==> x in tcb
      modifies this`wheel
      ensures wheel == old(wheel)[spoke := Insert(old(wheel)[spoke], t, RemainOrder(tcb, now))]
    {
      var remain := Sub32(tcb[t].due, now);
      var q := wheel[spoke];
      ghost var ord := RemainOrder(tcb, now);
      var i := 0;
      while i < |q|
        invariant i <= |q| && wheel == old(wheel) && forall j: nat :: j < i ==> ord.Passes(t, q[j])
      {
        CountPositive(q, i);
        if remain > Sub32(tcb[q[i]].due, now) {
          i := i + 1;
        } else {
          break;
        }
      }
      InsertStops(q, t, ord, i);
      wheel := wheel[spoke := q[..i] + [t] + q[i..]];
    }

    /** OS_TickListRemove. */
    method TickListRemove(t: Tid)
      requires t in tcb && -1 <= tcb[t].spoke < |wheel|
      modifies this`tcb, this`wheel
      ensures State() == WheelRemove(old(State()), t)
    {
      var b := tcb[t];
      if b.spoke >= 0 {
        wheel := wheel[b.spoke := Drop(wheel[b.spoke], t)];
        tcb := tcb[t := b.(spoke := -1, due := 0)];
      } else {
        assert tcb[t := b] == tcb;
      }
    }

    // ------------------------------------------------------------------------------------- pend lists

    /** OS_PendListInsertPrio. */
    method PendListInsertPrio(o: Oid, t: Tid)
      requires o in wait && t in tcb && forall x: Tid :: Count(wait[o], x) > 0 ==> x in tcb
      modifies this`wait
      ensures wait == old(wait)[o := Insert(old(wait)[o], t, PrioOrder(tcb))]
    {
      var prio := tcb[t].prio;
      var q := wait[o];
      ghost var ord := PrioOrder(tcb);
      if |q| == 0 {
        wait := wait[o := [t]];
        return;
      }
      var i := 0;
      while i < |q|
        invariant i <= |q| && wait == old(wait) && forall j: nat :: j < i ==> ord.Passes(t, q[j])
      {
        CountPositive(q, i);
        if prio < tcb[q[i]].prio {
          break;
        } else {
          i := i + 1;
        }
      }
      InsertStops(q, t, ord, i);
      wait := wait[o := q[..i] + [t] + q[i..]];
    }

    /** OS_PendListRemove. */
    method PendListRemove(t: Tid)
      requires t in tcb && forall i: nat :: i < |tcb[t].tbl| ==> tcb[t].tbl[i].obj in wait
      modifies this`tcb, this`wait
      ensures State() == Unlink(old(State()), t)
    {
      var tbl := tcb[t].tbl;
      var i := 0;
      while i < |tbl|
        invariant i <= |tbl| && tcb == old(tcb) && wait.Keys == old(wait).Keys
        invariant UnlinkAll(wait, tbl[i..], t) == UnlinkAll(old(wait), tbl, t)
      {
        var o := tbl[i].obj;
        assert tbl[i..][1..] == tbl[i + 1..];
        wait := wait[o := Drop(wait[o], t)];
        i := i + 1;
      }
      tcb := tcb[t := tcb[t].(tbl := [])];
    }

    /** OS_PendListChangePrio. */
    method PendListChangePrio(t: Tid, prio: nat)
      requires t in tcb && forall i: nat :: i < |tcb[t].tbl| ==> tcb[t].tbl[i].obj in wait
      requires ListedTasks(wait)
      modifies this`tcb, this`wait
      ensures State() == MovePending(old(State()), t, prio)
    {
      tcb := tcb[t := tcb[t].(prio := prio)];
      var tbl := tcb[t].tbl;
      ghost var ord, tcb1 := PrioOrder(tcb), tcb;
      var i := 0;
      while i < |tbl|
        invariant i <= |tbl| && tcb == tcb1 && wait.Keys == old(wait).Keys && ListedTasks(wait)
        invariant ResortAll(wait, tbl[i..], t, ord) == ResortAll(old(wait), tbl, t, ord)
      {
        hide ListedTasks;
        var o := tbl[i].obj;
        assert tbl[i..][1..] == tbl[i + 1..];
        if |wait[o]| > 1 {
          Resort(o, t);
        }
        i := i + 1;
      }
    }

    /** Everybody in a pend list has a TCB. */
    ghost predicate ListedTasks(w: map<Oid, seq<Tid>>)
      reads this`tcb
    {
      forall o: Oid, x: Tid :: o in w && Count(w[o], x) > 0 ==> x in tcb
    }

    /** One list in OS_PendListChangePrio: OS_PendListRemove1, then OS_PendListInsertPrio. */
    method Resort(o: Oid, t: Tid)
      requires o in wait && t in tcb && ListedTasks(wait)
      modifies this`wait
      ensures wait == old(wait)[o := Insert(Drop(old(wait)[o], t), t, PrioOrder(tcb))] && ListedTasks(wait)
    {
      ghost var q := wait[o];
      forall x: Tid ensures Count(Drop(q, t), x) > 0 ==> x in tcb {
        CountDrop(q, t, x);
      }
      wait := wait[o := Drop(wait[o], t)];
      PendListInsertPrio(o, t);
      forall x: Tid ensures Count(wait[o], x) > 0 ==> x in tcb {
        CountInsert(Drop(q, t), t, PrioOrder(tcb), x);
      }
    }

    // ---------------------------------------------------------------------------------- block and wake

    /** OS_TaskBlock. */
    method TaskBlock(t: Tid, timeout: Tick)
      requires t in tcb && tcb[t].prio < |rdy| && |wheel| > 0
      requires forall i: nat, x: Tid :: i < |wheel| && Count(wheel[i], x) > 0 ==> x in tcb
      modifies this`tcb, this`wheel, this`rdy, this`prios
      ensures State() == TaskBlocked(old(State()), t, timeout)
    {
      hide TickInsert, RdyRemove;
      if timeout > 0 {
        var ok := TickListInsert(t, timeout, OptTimeout);
        TickInsertKeeps(old(State()), t, timeout, OptTimeout);
        tcb := tcb[t := tcb[t].(state := if ok then PEND_TIMEOUT else PEND)];
      } else {
        tcb := tcb[t := tcb[t].(state := PEND)];
      }
      RdyListRemove(t);
    }

    /** OS_Pend, and OS_PendMultiWait, which does the same with several entries. */
    method Pend(on: PendOn, tbl: seq<PendData>, timeout: Tick)
      requires Inv(State()) && forall i: nat :: i < |tbl| ==> tbl[i].obj in wait
      modifies this`tcb, this`wheel, this`wait, this`rdy, this`prios
      ensures State() == Block(old(State()), cur, on, tbl, timeout)
    {
      hide ReadyInv, WaitInv, TaskBlocked, Block, LinkAll;
      ghost var k := State();
      TcbOkOf(k, cur);
      MembersHaveTcbs(k);
      tcb := tcb[cur := tcb[cur].(pendOn := on, status := StatusOk)];
      ghost var k0 := State();
      TaskBlock(cur, timeout);
      ghost var k1 := State();
      TaskBlockedKeeps(k0, cur, timeout);
      tcb := tcb[cur := tcb[cur].(tbl := tbl)];
      ghost var k2 := State();
      PendListsInsert(cur);
      BlockInSteps(k, cur, on, tbl, timeout, k1, k2);
    }

    /** The loop of OS_PendMultiWait over the table. */
    method PendListsInsert(t: Tid)
      requires t in tcb && forall i: nat :: i < |tcb[t].tbl| ==> tcb[t].tbl[i].obj in wait
      requires ListedTasks(wait)
      modifies this`wait
      ensures wait == LinkAll(old(wait), tcb[t].tbl, t, PrioOrder(tcb))
    {
      var tbl := tcb[t].tbl;
      ghost var ord := PrioOrder(tcb);
      var i := 0;
      while i < |tbl|
        invariant i <= |tbl| && wait.Keys == old(wait).Keys && ListedTasks(wait)
        invariant LinkAll(wait, tbl[i..], t, ord) == LinkAll(old(wait), tbl, t, ord)
      {
        assert tbl[i..][1..] == tbl[i + 1..];
        LinkOne(tbl[i].obj, t);
        i := i + 1;
      }
    }

    method LinkOne(o: Oid, t: Tid)
      requires o in wait && t in tcb && ListedTasks(wait)
      modifies this`wait
      ensures wait == old(wait)[o := Insert(old(wait)[o], t, PrioOrder(tcb))] && ListedTasks(wait)
    {
      ghost var q := wait[o];
      PendListInsertPrio(o, t);
      forall x: Tid ensures Count(wait[o], x) > 0 ==> x in tcb {
        CountInsert(q, t, PrioOrder(tcb), x);
      }
    }

    /** OS_TaskRdy. */
    method TaskRdy(t: Tid)
      requires t in tcb && tcb[t].state.Live? && -1 <= tcb[t].spoke < |wheel| && tcb[t].prio < |rdy|
      modifies this`tcb, this`wheel, this`rdy, this`prios
      ensures var k := WheelRemove(old(State()), t); State() == if old(tcb[t].state.susp) then k else RdyInsert(k, t)
    {
      TickListRemove(t);
      if !tcb[t].state.susp {
        RdyListInsert(t);
      }
    }

    /** The loop of OS_Post1, OS_PendAbort1 and OS_PendObjDel1: mark the entry of the object that woke the task. */
    method MarkEntry(t: Tid, o: Oid, m: Option<Msg>)
      requires t in tcb
      modifies this`tcb
      ensures tcb == old(tcb)[t := old(tcb)[t].(tbl := Mark(old(tcb)[t].tbl, o, m))]
    {
      var tbl := tcb[t].tbl;
      var i := 0;
      while i < |tbl| && tbl[i].obj != o
        invariant i <= |tbl| && tcb == old(tcb) && forall j: nat :: j < i ==> tbl[j].obj != o
      {
        i := i + 1;
      }
      MarkStops(tbl, o, m, i);
      if i < |tbl| {
        tbl := tbl[i := tbl[i].(rdy := true, msg := if m.Some? then m.value else tbl[i].msg)];
      }
      tcb := tcb[t := tcb[t].(tbl := tbl)];
    }

    /** Off the pend lists and the tick wheel, and into the ready list unless the task is suspended. */
    method Unblock(t: Tid, hasObj: bool)
      requires t in tcb && tcb[t].state.Live? && -1 <= tcb[t].spoke < |wheel| && tcb[t].prio < |rdy|
      requires (forall i: nat :: i < |tcb[t].tbl| ==> tcb[t].tbl[i].obj in wait) && (!hasObj ==> tcb[t].tbl == [])
      modifies this`tcb, this`wheel, this`wait, this`rdy, this`prios
      ensures State() == Unblocked(old(State()), t)
    {
      hide Unlink, WheelRemove, RdyInsert, Unblocked;
      ghost var k := State();
      UnblockSteps(k, t);
      // The table stays with the task, which will look for the marked entry.
      tcb := tcb[t := tcb[t].(got := tcb[t].tbl)];
      if !tcb[t].state.susp {
        if hasObj {
          PendListRemove(t);
        }
        TaskRdy(t);
      } else {
        TickListRemove(t);
        if hasObj {
          PendListRemove(t);
        }
      }
    }

    /** What OS_Post, OS_PendAbort and OS_PendObjDel have in common: the wait of t is over. */
    method EndWait(t: Tid, hasObj: bool, status: PendStatus, ghost k: K, ghost ev: Event)
      requires CoreInv(k) && t in k.tcb && Ends(ev, k.tcb[t].state)
      requires t in tcb && State() == Put(k, t, tcb[t]) && SameSteps(k.tcb[t], tcb[t], k.wait, t)
      requires Finish(k.tcb[t], ev) == Ended(tcb[t], status) && (!hasObj ==> k.tcb[t].tbl == [])
      modifies this`tcb, this`wheel, this`wait, this`rdy, this`prios
      ensures State() == Wake(k, t, ev)
    {
      hide CoreInv, Wake, Finish, UnlinkAll, WheelDrop, Enqueue;
      ghost var b1 := tcb[t];
      OnItsLists(k, t);
      Unblock(t, hasObj);
      tcb := tcb[t := tcb[t].(state := if tcb[t].state.susp then SUSPENDED else RDY, status := status, pendOn := OnNothing)];
      UnblockedIsWoken(k, t, ev, b1);
      assert tcb == k.tcb[t := Finish(k.tcb[t], ev)];
    }

    /** OS_Post. To a task that does not pend it does nothing. */
    method Post(o: Option<Oid>, t: Tid, m: Msg)
      requires CoreInv(State()) && t in tcb && PendsOn(tcb[t], o)
      modifies this`tcb, this`wheel, this`wait, this`rdy, this`prios
      ensures State() == Wake(old(State()), t, Posted(o, m))
    {
      hide CoreInv, Wake;
      match tcb[t].state {
        case Live(_, true, _) => PostPending(o, t, m);
        case _ => AwakeStays(State(), t, Posted(o, m));
      }
    }

    method PostPending(o: Option<Oid>, t: Tid, m: Msg)
      requires CoreInv(State()) && t in tcb && PendsOn(tcb[t], o) && tcb[t].state.Live? && tcb[t].state.pend
      modifies this`tcb, this`wheel, this`wait, this`rdy, this`prios
      ensures State() == Wake(old(State()), t, Posted(o, m))
    {
      hide CoreInv, Wake, Finish, Mark, UnlinkAll;
      ghost var k := State();
      OnItsLists(k, t);
      if tcb[t].pendOn == OnMulti {
        MarkEntry(t, o.value, Some(m));
      } else {
        tcb := tcb[t := tcb[t].(msg := m)];
      }
      MarkKeepsObjs(k.tcb[t].tbl, if o.Some? then o.value else 0, Some(m));
      PostFinish(k.tcb[t], o, m);
      EndWait(t, o.Some?, StatusOk, k, Posted(o, m));
    }

    /** OS_PendAbort. */
    method PendAbort(o: Option<Oid>, t: Tid)
      requires CoreInv(State()) && t in tcb && PendsOn(tcb[t], o)
      modifies this`tcb, this`wheel, this`wait, this`rdy, this`prios
      ensures State() == Wake(old(State()), t, Aborted(o))
    {
      hide CoreInv, Wake;
      match tcb[t].state {
        case Live(_, true, _) => AbortPending(o, t);
        case _ => AwakeStays(State(), t, Aborted(o));
      }
    }

    method AbortPending(o: Option<Oid>, t: Tid)
      requires CoreInv(State()) && t in tcb && PendsOn(tcb[t], o) && tcb[t].state.Live? && tcb[t].state.pend
      modifies this`tcb, this`wheel, this`wait, this`rdy, this`prios
      ensures State() == Wake(old(State()), t, Aborted(o))
    {
      hide CoreInv, Wake, Finish, Mark, UnlinkAll;
      ghost var k := State();
      OnItsLists(k, t);
      ClearMessage(o, t);
      MarkKeepsObjs(k.tcb[t].tbl, if o.Some? then o.value else 0, None);
      AbortFinish(k.tcb[t], o);
      EndWait(t, o.Some?, StatusAbort, k, Aborted(o));
    }

    /** The start of OS_PendAbort and OS_PendObjDel for a task that pends: it is told the object, and no message. */
    method ClearMessage(o: Option<Oid>, t: Tid)
      requires t in tcb && (tcb[t].pendOn == OnMulti ==> o.Some?)
      modifies this`tcb
      ensures var b := old(tcb)[t];
        tcb == old(tcb)[t := (if b.pendOn == OnMulti then b.(tbl := Mark(b.tbl, o.value, None)) else b).(msg := NO_MSG)]
    {
      hide Mark;
      if tcb[t].pendOn == OnMulti {
        MarkEntry(t, o.value, None);
      }
      tcb := tcb[t := tcb[t].(msg := NO_MSG)];
    }

    /** OS_PendObjDel. */
    method PendObjDel(o: Oid, t: Tid)
      requires CoreInv(State()) && t in tcb && PendsOn(tcb[t], Some(o))
      modifies this`tcb, this`wheel, this`wait, this`rdy, this`prios
      ensures State() == Wake(old(State()), t, ObjDeleted(Some(o)))
    {
      hide CoreInv, Wake;
      match tcb[t].state {
        case Live(_, true, _) => DelPending(o, t);
        case _ => AwakeStays(State(), t, ObjDeleted(Some(o)));
      }
    }

    method DelPending(o: Oid, t: Tid)
      requires CoreInv(State()) && t in tcb && PendsOn(tcb[t], Some(o)) && tcb[t].state.Live? && tcb[t].state.pend
      modifies this`tcb, this`wheel, this`wait, this`rdy, this`prios
      ensures State() == Wake(old(State()), t, ObjDeleted(Some(o)))
    {
      hide CoreInv, Wake, Finish, Mark, UnlinkAll;
      ghost var k := State();
      OnItsLists(k, t);
      ClearMessage(Some(o), t);
      MarkKeepsObjs(k.tcb[t].tbl, o, None);
      DelFinish(k.tcb[t], o);
      EndWait(t, true, StatusDel, k, ObjDeleted(Some(o)));
    }

    /** The cases of OS_TickListUpdate for a task whose time has come. */
    method Expire(t: Tid)
      requires Expirable(State(), t)
      modifies this`tcb, this`wheel, this`wait, this`rdy, this`prios
      ensures State() == Services.Expire(old(State()), t)
    {
      hide Services.Expire;
      if tcb[t].state.pend {
        ExpirePend(t);
      } else {
        ExpireDelay(t);
      }
    }

    /** OS_TASK_STATE_DLY, OS_TASK_STATE_DLY_SUSPENDED. */
    method ExpireDelay(t: Tid)
      requires Expirable(State(), t) && !tcb[t].state.pend
      modifies this`tcb, this`wheel, this`rdy, this`prios
      ensures State() == Services.Expire(old(State()), t)
    {
      hide UnlinkAll, WheelDrop, Finish, Wake, Enqueue, Services.Expire;
      ghost var k, b := State(), tcb[t];
      NoTable(k.wait, t);
      var susp := tcb[t].state.susp;
      tcb := tcb[t := tcb[t].(state := if susp then SUSPENDED else RDY)];
      TaskRdyOrNot(t, susp);
      DelayFinish(b);
      ExpiredIs(k, t, DelayOver, State());
    }

    /** OS_TASK_STATE_PEND_TIMEOUT, OS_TASK_STATE_PEND_TIMEOUT_SUSPENDED. */
    method ExpirePend(t: Tid)
      requires Expirable(State(), t) && tcb[t].state.pend
      modifies this`tcb, this`wheel, this`wait, this`rdy, this`prios
      ensures State() == Services.Expire(old(State()), t)
    {
      hide UnlinkAll, WheelDrop, Finish, Wake, Enqueue, Services.Expire;
      ghost var k, b := State(), tcb[t];
      var susp := tcb[t].state.susp;
      tcb := tcb[t := tcb[t].(msg := NO_MSG)];
      Unblock(t, true);
      tcb := tcb[t := tcb[t].(state := if susp then SUSPENDED else RDY, status := StatusTimeout, pendOn := OnNothing)];
      TimeoutFinish(b);
      assert tcb == k.tcb[t := Finish(b, TimedOut)];
      ExpiredIs(k, t, TimedOut, State());
    }

    /** OS_TaskRdy for a delayed task, OS_TickListRemove for a suspended one. */
    method TaskRdyOrNot(t: Tid, susp: bool)
      requires t in tcb && tcb[t].state == (if susp then SUSPENDED else RDY) && -1 <= tcb[t].spoke < |wheel|
      requires tcb[t].prio < |rdy|
      modifies this`tcb, this`wheel, this`rdy, this`prios
      ensures tcb == old(tcb)[t := old(tcb)[t].(spoke := -1, due := if old(tcb)[t].spoke >= 0 then 0 else old(tcb)[t].due)]
      ensures wheel == WheelDrop(old(wheel), old(tcb)[t].spoke, t)
      ensures var p := old(tcb)[t].prio; if susp then rdy == old(rdy) && prios == old(prios) else
        rdy == old(rdy)[p := Enqueue(old(rdy)[p], t, p == prioCur)] && prios == old(prios) + {p}
    {
      if susp {
        TickListRemove(t);
      } else {
        TaskRdy(t);
      }
    }

    /** OS_TickListUpdate: the tasks of one spoke, from the head, until one whose time has not come. */
    method TickListUpdate()
      requires ListsInv(State())
      modifies this`tcb, this`wheel, this`wait, this`rdy, this`prios, this`now
      ensures State() == TickUpdate(old(State()))
    {
      hide ReadyInv, WaitInv, TcbInv, ObjInv, Services.Expire;
      assert |wheel| > 0;
      SpokeExpirable(State());
      now := Add32(now, 1);
      var q := wheel[now % |wheel|];
      ghost var k1 := State();
      var i, done := 0, false;
      while !done
        invariant i <= |q|
        invariant Remainder(State(), q[i..])
        invariant if done then State() == ExpireDue(k1, q) else ExpireDue(State(), q[i..]) == ExpireDue(k1, q)
        invariant now == k1.now
        decreases |q| - i, if done then 0 else 1
      {
        if i < |q| {
          var t := q[i];
          assert q[i..][0] == t && q[i..][1..] == q[i + 1..];
          HeadExpirable(State(), q[i..]);
          if tcb[t].state.dly {
            if now == tcb[t].due {
              RemainderKept(State(), q[i..]);
              Expire(t);
              i := i + 1;
            } else {
              done := true;
            }
          } else {
            i := i + 1;
          }
        } else {
          done := true;
        }
      }
    }
  }

  /** OS_TaskBlock. */
  function TaskBlocked(k: K, t: Tid, timeout: Tick): K {
    var k1 := if timeout > 0 then TickInsert(k, t, timeout, OptTimeout) else k;
    var state := if timeout > 0 && DueTime(k.now, Get(k, t).prev, timeout, OptTimeout).Some? then PEND_TIMEOUT else PEND;
    RdyRemove(Put(k1, t, Get(k1, t).(state := state)), t)
  }

  lemma TickInsertKeeps(k: K, t: Tid, time: Tick, opt: TimeOpt)
    ensures var k' := TickInsert(k, t, time, opt); k'.tcb.Keys == k.tcb.Keys + {t} && Get(k', t).prio == Get(k, t).prio
  {
  }

  lemma TaskBlockedKeeps(k: K, t: Tid, timeout: Tick)
    ensures var k' := TaskBlocked(k, t, timeout); k'.tcb.Keys == k.tcb.Keys + {t} && k'.wait == k.wait
  {
  }

  lemma SameRemain(tcb: map<Tid, Tcb>, tcb': map<Tid, Tcb>, now: Tick)
    requires tcb.Keys == tcb'.Keys && forall x: Tid :: x in tcb ==> tcb[x].due == tcb'[x].due
    ensures RemainOrder(tcb, now) == RemainOrder(tcb', now)
  {
  }

  lemma NoSpoke(wheel: seq<seq<Tid>>, t: Tid, ord: Order)
    ensures WheelAdd(wheel, -1, t, ord) == wheel
  {
  }

  lemma TimedTbl(b: Tcb, now: Tick, size: nat, timeout: Tick, tbl: seq<PendData>, s: TaskState)
    ensures Timed(b.(tbl := tbl), now, size, timeout, OptTimeout) == Timed(b, now, size, timeout, OptTimeout).(tbl := tbl)
    ensures Timed(b, now, size, timeout, OptTimeout).prio == b.prio
    ensures timeout > 0 ==> DueTime(now, b.prev, timeout, OptTimeout).Some?
  {
  }

  lemma RdyRemoveIs(k: K, k': K, t: Tid)
    requires k'.rdy == k.rdy && k'.prios == k.prios && Get(k', t).prio == Get(k, t).prio
    ensures RdyRemove(k', t) == k'.(rdy := RdyRemove(k, t).rdy, prios := RdyRemove(k, t).prios)
  {
  }

  /** OS_TaskBlock as changes to the fields. */
  lemma TaskBlockedIs(k: K, t: Tid, timeout: Tick)
    requires t in k.tcb && k.tcb[t].spoke == -1
    ensures var b := if timeout > 0 then Timed(k.tcb[t], k.now, |k.wheel|, timeout, OptTimeout).(state := PEND_TIMEOUT)
        else k.tcb[t].(state := PEND);
      TaskBlocked(k, t, timeout) ==
        k.(tcb := k.tcb[t := b], wheel := WheelAdd(k.wheel, b.spoke, t, RemainOrder(k.tcb[t := b], k.now)),
          rdy := RdyRemove(k, t).rdy, prios := RdyRemove(k, t).prios)
  {
    hide Timed, WheelAdd, RdyRemove, RemainOrder, DueTime;
    TimedTbl(k.tcb[t], k.now, |k.wheel|, timeout, [], PEND);
    if timeout > 0 {
      var b1 := Timed(k.tcb[t], k.now, |k.wheel|, timeout, OptTimeout);
      var b := b1.(state := PEND_TIMEOUT);
      var k1 := Put(TickInsert(k, t, timeout, OptTimeout), t, b);
      assert k1.tcb == k.tcb[t := b];
      SameRemain(k.tcb[t := b1], k.tcb[t := b], k.now);
      RdyRemoveIs(k, k1, t);
    } else {
      NoSpoke(k.wheel, t, RemainOrder(k.tcb[t := k.tcb[t].(state := PEND)], k.now));
      RdyRemoveIs(k, Put(k, t, k.tcb[t].(state := PEND)), t);
    }
  }

  /** The fields of the state once t has gone to sleep with TCB b. */
  function Asleep(k: K, t: Tid, b: Tcb): K {
    k.(tcb := k.tcb[t := b], wheel := WheelAdd(k.wheel, b.spoke, t, RemainOrder(k.tcb[t := b], k.now)),
       wait := LinkAll(k.wait, b.tbl, t, PrioOrder(k.tcb[t := b])),
       rdy := RdyRemove(k, t).rdy, prios := RdyRemove(k, t).prios)
  }

  lemma SleepIs(k: K, t: Tid, b: Tcb)
    requires b.prio == Get(k, t).prio
    ensures Sleep(k, t, b) == Asleep(k, t, b)
  {
    hide LinkAll, PrioOrder, WheelAdd, RdyRemove, RemainOrder;
    RdyRemoveIs(k, k.(tcb := k.tcb[t := b], wheel := WheelAdd(k.wheel, b.spoke, t, RemainOrder(k.tcb[t := b], k.now)),
      wait := LinkAll(k.wait, b.tbl, t, PrioOrder(k.tcb[t := b]))), t);
  }

  /** The order of the steps in OS_Pend does not matter. */
  lemma BlockInSteps(k: K, t: Tid, on: PendOn, tbl: seq<PendData>, timeout: Tick, k1: K, k2: K)
    requires t in k.tcb && k.tcb[t].spoke == -1
    requires k1 == TaskBlocked(Put(k, t, k.tcb[t].(pendOn := on, status := StatusOk)), t, timeout)
    requires k2 == Put(k1, t, Get(k1, t).(tbl := tbl))
    ensures k2.(wait := LinkAll(k.wait, tbl, t, PrioOrder(k2.tcb))) == Block(k, t, on, tbl, timeout)
  {
    hide LinkAll, PrioOrder, Timed, WheelAdd, RdyRemove, RemainOrder, TaskBlocked, Sleep;
    var b0 := k.tcb[t].(pendOn := on, status := StatusOk);
    var k0 := Put(k, t, b0);
    var b := BlockedTcb(k.tcb[t], on, tbl, timeout, k.now, |k.wheel|);
    TimedTbl(b0, k.now, |k.wheel|, timeout, tbl, PEND);
    TaskBlockedIs(k0, t, timeout);
    assert k2.tcb == k.tcb[t := b];
    SameRemain(k1.tcb, k2.tcb, k.now);
    RdyRemoveIs(k, k0, t);
    SleepIs(k, t, b);
    assert k2.(wait := LinkAll(k.wait, tbl, t, PrioOrder(k2.tcb))) == Asleep(k, t, b);
  }

  /** Every task in a spoke or in a pend list has a TCB. */
  lemma MembersHaveTcbs(k: K)
    requires CoreInv(k)
    ensures forall i: nat, x: Tid :: i < |k.wheel| && Count(k.wheel[i], x) > 0 ==> x in k.tcb
    ensures forall o: Oid, x: Tid :: o in k.wait && Count(k.wait[o], x) > 0 ==> x in k.tcb
  {
    forall i: nat, x: Tid | i < |k.wheel| && Count(k.wheel[i], x) > 0 ensures x in k.tcb {
      assert Count(k.wheel[i], x) == if Get(k, x).spoke == i then 1 else 0;
    }
    forall o: Oid, x: Tid | o in k.wait && Count(k.wait[o], x) > 0 ensures x in k.tcb {
      assert Count(k.wait[o], x) == if Listed(Get(k, x).tbl, o) then 1 else 0;
    }
  }

  /** A task with a TCB that agrees with the lists can be taken off them. */
  lemma OnItsLists(k: K, t: Tid)
    requires CoreInv(k) && t in k.tcb
    ensures var b := k.tcb[t];
      && -1 <= b.spoke < |k.wheel| && (b.state.Live? ==> b.prio < |k.rdy|)
      && (forall i: nat :: i < |b.tbl| ==> b.tbl[i].obj in k.wait)
      && (NoObject(b.pendOn) ==> b.tbl == [])
  {
    hide ReadyInv, WheelInv;
    TcbOkOf(k, t);
    forall i: nat | i < |k.tcb[t].tbl| ensures k.tcb[t].tbl[i].obj in k.wait {
      EntryListed(k.tcb[t].tbl, i);
      assert Listed(Get(k, t).tbl, k.tcb[t].tbl[i].obj);
    }
  }

  lemma {:induction false} EntryListed(tbl: seq<PendData>, i: nat)
    requires i < |tbl|
    ensures Listed(tbl, tbl[i].obj)
  {
    if i > 0 {
      EntryListed(tbl[1..], i - 1);
    }
  }

  lemma AwakeStays(k: K, t: Tid, ev: Event)
    requires !Ends(ev, Get(k, t).state)
    ensures Wake(k, t, ev) == k
  {
  }

  /** The TCB of a task that was taken off all lists, but for the state. */
  function OffLists(b: Tcb): Tcb {
    b.(tbl := [], got := b.tbl, spoke := -1, due := if b.spoke >= 0 then 0 else b.due)
  }

  /** A task is off its lists and, unless it is suspended, in the ready list. */
  function Unblocked(k: K, t: Tid): K
    requires t in k.tcb && k.tcb[t].prio < |k.rdy| && k.tcb[t].state.Live?
  {
    var b := k.tcb[t];
    k.(tcb := k.tcb[t := OffLists(b)], wait := UnlinkAll(k.wait, b.tbl, t), wheel := WheelDrop(k.wheel, b.spoke, t),
       rdy := if b.state.susp then k.rdy else k.rdy[b.prio := Enqueue(k.rdy[b.prio], t, b.prio == k.prioCur)],
       prios := if b.state.susp then k.prios else k.prios + {b.prio})
  }

  /** The steps of Unblock, in either order. */
  lemma UnblockSteps(k: K, t: Tid)
    requires t in k.tcb && k.tcb[t].prio < |k.rdy| && k.tcb[t].state.Live? && -1 <= k.tcb[t].spoke < |k.wheel|
    ensures var b := k.tcb[t]; var k1 := Put(k, t, b.(got := b.tbl)); var k2 := Unlink(k1, t);
      && t in k2.tcb && k2.tcb[t] == b.(got := b.tbl, tbl := []) && |k2.wheel| == |k.wheel| && |k2.rdy| == |k.rdy|
      && (b.tbl == [] ==> k2 == k1) && k2.wait.Keys == k1.wait.Keys
      && (!b.state.susp ==> RdyInsert(WheelRemove(k2, t), t) == Unblocked(k, t))
      && (b.state.susp ==> Unlink(WheelRemove(k1, t), t) == Unblocked(k, t))
      && (b.state.susp && b.tbl == [] ==> WheelRemove(k1, t) == Unblocked(k, t))
      && t in WheelRemove(k1, t).tcb && WheelRemove(k1, t).tcb[t].tbl == b.tbl && WheelRemove(k1, t).wait == k.wait
  {
    hide RdyInsert, Unblocked, UnlinkAll, WheelDrop;
    var b := k.tcb[t];
    UnlinkAllKeys(k.wait, b.tbl, t);
    NoTable(k.wait, t);
    assert b.tbl == [] ==> Unlink(Put(k, t, b.(got := b.tbl)), t).tcb == Put(k, t, b.(got := b.tbl)).tcb;
    if b.state.susp {
      UnblockSuspended(k, t);
    } else {
      UnblockReady(k, t);
    }
  }

  lemma UnblockReady(k: K, t: Tid)
    requires t in k.tcb && k.tcb[t].prio < |k.rdy| && k.tcb[t].state.Live? && !k.tcb[t].state.susp
    requires -1 <= k.tcb[t].spoke < |k.wheel|
    ensures RdyInsert(WheelRemove(Unlink(Put(k, t, k.tcb[t].(got := k.tcb[t].tbl)), t), t), t) == Unblocked(k, t)
  {
    hide UnlinkAll, WheelDrop;
    var k2 := Unlink(Put(k, t, k.tcb[t].(got := k.tcb[t].tbl)), t);
    assert WheelRemove(k2, t).tcb == k.tcb[t := OffLists(k.tcb[t])];
  }

  lemma UnblockSuspended(k: K, t: Tid)
    requires t in k.tcb && k.tcb[t].prio < |k.rdy| && k.tcb[t].state.Live? && k.tcb[t].state.susp
    requires -1 <= k.tcb[t].spoke < |k.wheel|
    ensures var k1 := WheelRemove(Put(k, t, k.tcb[t].(got := k.tcb[t].tbl)), t);
      Unlink(k1, t) == Unblocked(k, t) && (k.tcb[t].tbl == [] ==> k1 == Unblocked(k, t))
  {
    hide UnlinkAll, WheelDrop, Enqueue;
    NoTable(k.wait, t);
    var k1 := WheelRemove(Put(k, t, k.tcb[t].(got := k.tcb[t].tbl)), t);
    assert Unlink(k1, t).tcb == k.tcb[t := OffLists(k.tcb[t])];
    assert k.tcb[t].tbl == [] ==> k1.tcb == k.tcb[t := OffLists(k.tcb[t])];
  }

  /** The TCBs name the same lists and places. */
  ghost predicate SameSteps(b: Tcb, b': Tcb, wait: map<Oid, seq<Tid>>, t: Tid) {
    && b'.state == b.state && b'.prio == b.prio && b'.spoke == b.spoke && b'.due == b.due
    && |b'.tbl| == |b.tbl| && (forall i: nat :: i < |b.tbl| ==> b'.tbl[i].obj == b.tbl[i].obj)
    && UnlinkAll(wait, b'.tbl, t) == UnlinkAll(wait, b.tbl, t)
  }

  lemma NoTable(wait: map<Oid, seq<Tid>>, t: Tid)
    ensures UnlinkAll(wait, [], t) == wait
  {
  }

  lemma {:induction false} MarkKeepsObjs(tbl: seq<PendData>, o: Oid, m: Option<Msg>)
    ensures |Mark(tbl, o, m)| == |tbl| && (forall i: nat :: i < |tbl| ==> Mark(tbl, o, m)[i].obj == tbl[i].obj)
    ensures forall w: map<Oid, seq<Tid>>, t: Tid :: UnlinkAll(w, Mark(tbl, o, m), t) == UnlinkAll(w, tbl, t)
    decreases |tbl|
  {
    if tbl != [] {
      var r := Mark(tbl, o, m);
      if tbl[0].obj == o {
        assert r[1..] == tbl[1..];
      } else {
        MarkKeepsObjs(tbl[1..], o, m);
        assert r[1..] == Mark(tbl[1..], o, m);
      }
    }
  }

  /** Taking the task off its lists and then setting the fields of its TCB is waking it. */
  lemma UnblockedIsWoken(k: K, t: Tid, ev: Event, b1: Tcb)
    requires t in k.tcb && Ends(ev, k.tcb[t].state) && k.tcb[t].prio < |k.rdy|
    requires b1.state == k.tcb[t].state && b1.prio == k.tcb[t].prio && b1.spoke == k.tcb[t].spoke
    requires UnlinkAll(k.wait, b1.tbl, t) == UnlinkAll(k.wait, k.tcb[t].tbl, t)
    ensures var k1 := Unblocked(Put(k, t, b1), t);
      k1.(tcb := k1.tcb[t := Finish(k.tcb[t], ev)]) == Wake(k, t, ev)
  {
    hide Finish, UnlinkAll, WheelDrop, Enqueue;
    WakeForm(k, t, ev);
    var k1 := Unblocked(Put(k, t, b1), t);
    assert k1.tcb[t := Finish(k.tcb[t], ev)] == k.tcb[t := Finish(k.tcb[t], ev)];
  }

  /** The TCB that OS_Post leaves. */
  lemma PostFinish(b: Tcb, o: Option<Oid>, m: Msg)
    requires b.state.Live? && b.state.pend && (b.pendOn == OnMulti ==> o.Some?)
    ensures Finish(b, Posted(o, m)) ==
      Ended(if b.pendOn == OnMulti then b.(tbl := Mark(b.tbl, o.value, Some(m))) else b.(msg := m), StatusOk)
  {
  }

  lemma AbortFinish(b: Tcb, o: Option<Oid>)
    requires b.state.Live? && b.state.pend && (b.pendOn == OnMulti ==> o.Some?)
    ensures Finish(b, Aborted(o)) ==
      Ended((if b.pendOn == OnMulti then b.(tbl := Mark(b.tbl, o.value, None)) else b).(msg := NO_MSG), StatusAbort)
  {
  }

  lemma DelFinish(b: Tcb, o: Oid)
    requires b.state.Live? && b.state.pend
    ensures Finish(b, ObjDeleted(Some(o))) ==
      Ended((if b.pendOn == OnMulti then b.(tbl := Mark(b.tbl, o, None)) else b).(msg := NO_MSG), StatusDel)
  {
  }

  /** The TCB once the wait is over. */
  function Ended(b: Tcb, status: PendStatus): Tcb
    requires b.state.Live?
  {
    OffLists(b).(state := Live(b.state.susp, false, false), status := status, pendOn := OnNothing)
  }

  /** A task that pends is one that waits for the object o, or for no object. */
  predicate PendsOn(b: Tcb, o: Option<Oid>) {
    b.state.Live? && b.state.pend ==> if o.Some? then Listed(b.tbl, o.value) else NoObject(b.pendOn)
  }

  /** What the tick needs to know of a task to take it off its lists. */
  ghost predicate Expirable(k: K, t: Tid) {
    t in k.tcb && var b := k.tcb[t];
      && b.state.Live? && b.state.dly && -1 <= b.spoke < |k.wheel| && b.prio < |k.rdy|
      && (!b.state.pend ==> b.tbl == [] && b.pendOn == OnNothing)
      && forall i: nat :: i < |b.tbl| ==> b.tbl[i].obj in k.wait
  }

  /** The tasks that the scan has not reached: each once, and in the state it was in. */
  ghost predicate Remainder(k: K, q: seq<Tid>) {
    forall x: Tid :: Count(q, x) > 0 ==> Count(q, x) == 1 && Expirable(k, x)
  }

  lemma HeadExpirable(k: K, q: seq<Tid>)
    requires Remainder(k, q) && q != []
    ensures Expirable(k, q[0]) && Remainder(k, q[1..])
  {
    hide Expirable;
    assert Count(q, q[0]) > 0;
    forall x: Tid | Count(q[1..], x) > 0 ensures Count(q[1..], x) == 1 && Expirable(k, x) {
      assert Count(q, x) > 0;
    }
  }

  lemma ExpireLeaves(k: K, t: Tid, x: Tid)
    requires Expirable(k, t) && Expirable(k, x) && x != t
    ensures Expirable(Services.Expire(k, t), x) && Services.Expire(k, t).now == k.now
  {
    hide Finish, Enqueue, WheelDrop, UnlinkAll, Wake;
    var ev := if k.tcb[t].state.pend then TimedOut else DelayOver;
    WakeForm(k, t, ev);
    UnlinkAllKeys(k.wait, k.tcb[t].tbl, t);
    WheelDropSize(k.wheel, k.tcb[t].spoke, t);
  }

  lemma {:induction false} UnlinkAllKeys(wait: map<Oid, seq<Tid>>, tbl: seq<PendData>, t: Tid)
    ensures UnlinkAll(wait, tbl, t).Keys == wait.Keys
    decreases |tbl|
  {
    if tbl != [] {
      var o := tbl[0].obj;
      UnlinkAllKeys(if o in wait then wait[o := Drop(wait[o], t)] else wait, tbl[1..], t);
    }
  }

  lemma WheelDropSize(wheel: seq<seq<Tid>>, i: int, t: Tid)
    ensures |WheelDrop(wheel, i, t)| == |wheel|
  {
  }

  lemma RemainderKept(k: K, q: seq<Tid>)
    requires Remainder(k, q) && q != []
    ensures Remainder(Services.Expire(k, q[0]), q[1..]) && Services.Expire(k, q[0]).now == k.now
  {
    hide Expirable, Services.Expire;
    HeadExpirable(k, q);
    forall x: Tid | Count(q[1..], x) > 0 ensures Count(q[1..], x) == 1 && Expirable(Services.Expire(k, q[0]), x) {
      assert Count(q, x) > 0 && Count(q, q[0]) == 1;
      ExpireLeaves(k, q[0], x);
    }
    ExpireNow(k, q[0]);
  }

  lemma ExpireNow(k: K, t: Tid)
    ensures Services.Expire(k, t).now == k.now
  {
  }

  lemma SpokeExpirable(k: K)
    requires ListsInv(k)
    ensures forall i: nat :: i < |k.wheel| ==> Remainder(k.(now := Add32(k.now, 1)), k.wheel[i])
  {
    hide ReadyInv, WaitInv, ObjInv, TcbInv;
    forall i: nat, x: Tid | i < |k.wheel| && Count(k.wheel[i], x) > 0
      ensures Count(k.wheel[i], x) == 1 && Expirable(k.(now := Add32(k.now, 1)), x)
    {
      assert Count(k.wheel[i], x) == if Get(k, x).spoke == i then 1 else 0;
      OnItsLists(k, x);
      TcbOkOf(k, x);
    }
  }

  lemma DelayFinish(b: Tcb)
    requires b.state.Live? && b.state.dly && !b.state.pend && b.tbl == [] && b.pendOn == OnNothing
    ensures Finish(b, DelayOver) ==
      b.(spoke := -1, due := if b.spoke >= 0 then 0 else b.due, state := Live(b.state.susp, false, false))
  {
  }

  lemma TimeoutFinish(b: Tcb)
    requires b.state.Live? && b.state.pend
    ensures Finish(b, TimedOut) == Ended(b.(msg := NO_MSG), StatusTimeout)
  {
  }

  /** The fields after the wake-up of a task whose time has come. */
  lemma ExpiredIs(k: K, t: Tid, ev: Event, k': K)
    requires Expirable(k, t) && ev == if k.tcb[t].state.pend then TimedOut else DelayOver
    requires k' == Unblocked(k, t).(tcb := k.tcb[t := Finish(k.tcb[t], ev)])
    ensures k' == Services.Expire(k, t)
  {
    hide Finish, UnlinkAll, WheelDrop, Enqueue, Wake;
    WakeForm(k, t, ev);
  }
}
