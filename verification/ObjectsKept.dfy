/** The services on kernel objects, and those on time, keep the invariant. */
module ObjectsKept {
  import opened TaskLists
  import opened KernelState
  import opened KernelOps
  import opened CoreKept
  import opened ObjKept
  import opened WakeMany
  import opened Services
  import opened ServicesKept
  import opened TickWheel

  // -------------------------------------------------------------------------------------------- time

  lemma TimeDlyInv(k: K, dly: Tick, opt: TimeOpt)
    requires Inv(k) && k.cur != k.idle
    requires opt == OptMatch ==> Sub32(Sub32(dly, k.now), 1) <= TICK_TH_RDY
    ensures Inv(TimeDly(k, dly, opt).k)
  {
    hide ReadyInv, WaitInv, TcbInv, ObjInv, Sched, Sleep;
    if k.lock == 0 && (dly != 0 || opt == OptMatch) {
      var b := Get(k, k.cur);
      TcbOkOf(k, k.cur);
      DueLater(k.now, b.prev, dly, opt);
      SleepInv(k, Timed(b.(state := DLY), k.now, |k.wheel|, dly, opt));
    }
  }

  lemma TimeDlyResumeInv(k: K, t: Tid)
    requires Inv(k)
    ensures Inv(TimeDlyResume(k, t).k)
  {
    hide CoreInv, ObjInv, Sched, Wake;
    WakeInv(k, t, DelayOver, false);
    SchedInv(k, false);
  }

  lemma TickInv(k: K)
    requires Inv(k)
    ensures Inv(TickUpdate(k))
  {
    TickListsInv(k);
  }

  // ---------------------------------------------------------------------------- objects without owner

  lemma ObjOkOf(k: K, o: Oid)
    requires ObjInv(k)
    ensures ObjOk(k, o, Object(k, o)) && (o in k.obj <==> o in k.wait)
  {
    assert o in k.obj ==> ObjOk(k, o, k.obj[o]);
  }

  lemma SetObjInv(k: K, o: Oid, v: Obj)
    requires Inv(k) && o in k.obj && ObjOk(k, o, v)
    requires Waiters(k, o) == [] || forall on: PendOn :: KindOk(on, k.obj[o]) ==> KindOk(on, v)
    requires k.obj[o].FlagGrp? ==> v.FlagGrp? || Waiters(k, o) == []
    ensures Inv(SetObj(k, o, v))
  {
    SetObjKept(k, o, v);
  }

  lemma SemPendInv(k: K, o: Oid, timeout: Tick, nonBlocking: bool)
    requires Inv(k) && k.cur != k.idle
    ensures Inv(SemPend(k, o, timeout, nonBlocking).k)
  {
    hide CoreInv, ObjInv, CurOk, Sched, Block;
    ObjOkOf(k, o);
    match Object(k, o)
    case Sem(ctr) =>
      if ctr > 0 {
        SetObjInv(k, o, Sem(ctr - 1));
      } else {
        EntryOk(k, OnSem, o);
        BlockInv(k, OnSem, Entry(o), timeout, nonBlocking);
      }
    case _ =>
  }

  lemma SemPostInv(k: K, o: Oid, all: bool, noSched: bool)
    requires Inv(k)
    ensures Inv(SemPost(k, o, all, noSched).k)
  {
    hide CoreInv, ObjInv, CurOk, Sched, Wake;
    ObjOkOf(k, o);
    match Object(k, o)
    case Sem(ctr) =>
      if Waiters(k, o) == [] {
        if ctr < SEM_MAX {
          SetObjInv(k, o, Sem(ctr + 1));
        }
      } else {
        WakeSomeInv(k, o, all, Posted(Some(o), NO_MSG), noSched);
      }
    case _ =>
  }

  lemma SemSetInv(k: K, o: Oid, cnt: SemCtr)
    requires Inv(k)
    ensures Inv(SemSet(k, o, cnt).k)
  {
    ObjOkOf(k, o);
    if Object(k, o).Sem? && (Object(k, o).ctr > 0 || Waiters(k, o) == []) {
      SetObjInv(k, o, Sem(cnt));
    }
  }

  lemma PendAbortInv(k: K, o: Oid, all: bool, noSched: bool)
    requires Inv(k)
    ensures Inv(PendAbort(k, o, all, noSched).k)
  {
    hide CoreInv, ObjInv, CurOk, Sched, Wake;
    if Waiters(k, o) != [] {
      WakeSomeInv(k, o, all && !noSched, Aborted(Some(o)), noSched);
    }
  }

  /** w is the pend list of o, up to order. */
  ghost predicate AllWaiters(k: K, w: seq<Tid>, o: Oid) {
    o in k.wait && forall x: Tid :: Count(w, x) == Count(k.wait[o], x)
  }

  /** Once everybody was told, nobody waits. */
  lemma WakeAllEmpties(k: K, w: seq<Tid>, o: Oid, ev: Event)
    requires ListsInv(k) && AllWaiters(k, w, o) && !ev.DelayOver?
    ensures var k' := WakeAll(k, w, ev);
      ListsInv(k') && Stable(k, k') && o in k'.wait && k'.wait[o] == []
  {
    WakeAllListsInv(k, w, o, ev);
    EmptyByCount(Waiters(WakeAll(k, w, ev), o));
  }

  /** Delete the object after its waiters were woken. */
  lemma DropObjInv(k: K, w: seq<Tid>, o: Oid)
    requires Inv(k) && AllWaiters(k, w, o)
    ensures Inv(Sched(SetObj(WakeAll(k, w, ObjDeleted(Some(o))), o, Gone)))
  {
    hide CoreInv, Sched;
    var k1 := WakeAll(k, w, ObjDeleted(Some(o)));
    WakeAllEmpties(k, w, o, ObjDeleted(Some(o)));
    SetObjKept(k1, o, Gone);
    SchedInv(SetObj(k1, o, Gone), false);
  }

  lemma ObjDelInv(k: K, o: Oid, always: bool)
    requires Inv(k)
    ensures Inv(ObjDel(k, o, always).k)
  {
    hide CoreInv, CurOk, Sched;
    ObjOkOf(k, o);
    if !Object(k, o).Gone? && !Object(k, o).Mutex? {
      if always {
        DropObjInv(k, k.wait[o], o);
      } else if Waiters(k, o) == [] {
        SetObjInv(k, o, Gone);
      }
    }
  }

  lemma QPendInv(k: K, o: Oid, timeout: Tick, nonBlocking: bool)
    requires Inv(k) && k.cur != k.idle
    ensures Inv(QPend(k, o, timeout, nonBlocking).k)
  {
    hide CoreInv, CurOk, Sched, Block;
    ObjOkOf(k, o);
    match Object(k, o)
    case Queue(msgs, max) =>
      if msgs != [] {
        SetObjInv(k, o, Queue(msgs[1..], max));
      } else {
        EntryOk(k, OnQ, o);
        BlockInv(k, OnQ, Entry(o), timeout, nonBlocking);
      }
    case _ =>
  }

  lemma QPostInv(k: K, o: Oid, m: Msg, lifo: bool, all: bool, noSched: bool, poolEmpty: bool)
    requires Inv(k)
    ensures Inv(QPost(k, o, m, lifo, all, noSched, poolEmpty).k)
  {
    hide CoreInv, CurOk, Sched;
    ObjOkOf(k, o);
    match Object(k, o)
    case Queue(msgs, max) =>
      if Waiters(k, o) == [] {
        SetObjInv(k, o, Queue(MsgPut(msgs, max, m, lifo, poolEmpty).0, max));
      } else {
        WakeSomeInv(k, o, all, Posted(Some(o), m), noSched);
      }
    case _ =>
  }

  lemma QFlushInv(k: K, o: Oid)
    requires Inv(k)
    ensures Inv(QFlush(k, o).k)
  {
    ObjOkOf(k, o);
    if Object(k, o).Queue? {
      SetObjInv(k, o, Queue([], Object(k, o).max));
    }
  }

  /** A new object: nobody waits for it, nobody owns it. */
  predicate Fresh(v: Obj) {
    v.Sem? || v.FlagGrp? || (v.Queue? && v.msgs == []) || (v.Mutex? && v.owner == None && v.nest == 0)
  }

  /** OSSemCreate, OSQCreate, OSMutexCreate, OSFlagCreate. */
  function CreateObj(k: K, o: Oid, v: Obj): K {
    k.(wait := k.wait[o := []], obj := k.obj[o := v])
  }

  /** Nobody waits for an object that does not exist. */
  lemma GoneUnlisted(k: K, o: Oid, t: Tid)
    requires ListsInv(k) && Object(k, o) == Gone
    ensures !Listed(Get(k, t).tbl, o)
  {
    assert Listed(Get(k, t).tbl, o) ==> KindOk(Get(k, t).pendOn, Object(k, o));
  }

  lemma CreateListed(k: K, o: Oid, v: Obj, t: Tid, q: Oid)
    requires ListsInv(k) && Object(k, o) == Gone && Listed(Get(k, t).tbl, q)
    ensures q in k.wait && q != o && KindOk(Get(k, t).pendOn, Object(CreateObj(k, o, v), q))
  {
    GoneUnlisted(k, o, t);
    assert q in k.wait && KindOk(Get(k, t).pendOn, Object(k, q));
  }

  lemma CreateCounts(k: K, o: Oid, v: Obj, q: Oid, t: Tid)
    requires ListsInv(k) && Object(k, o) == Gone && q in CreateObj(k, o, v).wait
    ensures Count(CreateObj(k, o, v).wait[q], t) == if Listed(Get(k, t).tbl, q) then 1 else 0
  {
    GoneUnlisted(k, o, t);
    assert q in k.wait ==> Count(k.wait[q], t) == if Listed(Get(k, t).tbl, q) then 1 else 0;
  }

  lemma CreateWait(k: K, o: Oid, v: Obj)
    requires ListsInv(k) && Object(k, o) == Gone
    ensures WaitInv(CreateObj(k, o, v))
  {
    var k' := CreateObj(k, o, v);
    assert forall t: Tid :: Get(k', t) == Get(k, t);
    forall q: Oid, t: Tid | q in k'.wait ensures Count(k'.wait[q], t) == if Listed(Get(k', t).tbl, q) then 1 else 0 {
      hide CoreInv, ObjInv;
      CreateCounts(k, o, v, q, t);
    }
    forall q: Oid | q in k'.wait && !Object(k', q).FlagGrp? ensures Sorted(k'.wait[q], PrioOrder(k'.tcb)) {
      assert q != o ==> !Object(k, q).FlagGrp?;
    }
    forall t: Tid, q: Oid | Listed(Get(k', t).tbl, q)
      ensures q in k'.wait && KindOk(Get(k', t).pendOn, Object(k', q))
    {
      hide CoreInv, ObjInv;
      CreateListed(k, o, v, t, q);
    }
  }

  lemma CreateObjInv(k: K, o: Oid, v: Obj)
    requires Inv(k) && Object(k, o) == Gone && Fresh(v)
    ensures Inv(CreateObj(k, o, v))
  {
    hide ReadyInv, WheelInv, WaitInv, TcbInv;
    var k' := CreateObj(k, o, v);
    SameTasks(k, k');
    CreateWait(k, o, v);
    forall q: Oid | q in k'.obj ensures ObjOk(k', q, k'.obj[q]) {
      assert q != o ==> ObjOk(k, q, k.obj[q]);
    }
  }

  // -------------------------------------------------------------------------------- signals to a task

  /** A step that changes a field no list depends on. */
  lemma FieldInv(k: K, t: Tid, b: Tcb)
    requires Inv(k) && t in k.tcb && TcbOk(b, |k.rdy|, |k.wheel|, k.now)
    requires var a := k.tcb[t];
      b.state == a.state && b.prio == a.prio && b.spoke == a.spoke && b.due == a.due && b.tbl == a.tbl
      && b.pendOn == a.pendOn
    ensures Inv(Put(k, t, b))
  {
    hide ReadyInv, WheelInv, WaitInv, TcbInv;
    PutKept(k, t, b);
    OneTaskInv(k, t, Put(k, t, b));
  }

  lemma TaskSemPendInv(k: K, timeout: Tick, nonBlocking: bool)
    requires Inv(k) && k.cur != k.idle
    ensures Inv(TaskSemPend(k, timeout, nonBlocking).k)
  {
    hide ReadyInv, WheelInv, WaitInv, TcbInv, ObjInv, Sched, Block;
    var b := Get(k, k.cur);
    TcbOkOf(k, k.cur);
    if b.semCtr > 0 {
      FieldInv(k, k.cur, b.(semCtr := b.semCtr - 1));
    } else {
      BlockInv(k, OnTaskSem, [], timeout, nonBlocking);
    }
  }

  lemma TaskSemPostInv(k: K, t: Tid, noSched: bool)
    requires Inv(k)
    ensures Inv(TaskSemPost(k, t, noSched).k)
  {
    hide CoreInv, ObjInv, Sched, Wake;
    var b := Get(k, t);
    if b.state != Deleted {
      if b.state.pend && b.pendOn == OnTaskSem {
        WakeInv(k, t, Posted(None, NO_MSG), noSched);
      } else if b.semCtr < SEM_MAX {
        TcbOkOf(k, t);
        FieldInv(k, t, b.(semCtr := b.semCtr + 1));
      }
    }
  }

  lemma TaskPendAbortInv(k: K, t: Tid, on: PendOn, noSched: bool)
    requires Inv(k)
    ensures Inv(TaskPendAbort(k, t, on, noSched).k)
  {
    hide CoreInv, ObjInv, Sched, Wake;
    WakeInv(k, t, Aborted(None), noSched);
  }

  lemma TaskQPendInv(k: K, timeout: Tick, nonBlocking: bool)
    requires Inv(k) && k.cur != k.idle
    ensures Inv(TaskQPend(k, timeout, nonBlocking).k)
  {
    hide ReadyInv, WheelInv, WaitInv, TcbInv, ObjInv, Sched, Block;
    var b := Get(k, k.cur);
    TcbOkOf(k, k.cur);
    if b.taskQ != [] {
      FieldInv(k, k.cur, b.(taskQ := b.taskQ[1..]));
    } else {
      BlockInv(k, OnTaskQ, [], timeout, nonBlocking);
    }
  }

  lemma TaskQPostInv(k: K, t: Tid, m: Msg, lifo: bool, noSched: bool, poolEmpty: bool)
    requires Inv(k)
    ensures Inv(TaskQPost(k, t, m, lifo, noSched, poolEmpty).k)
  {
    hide CoreInv, ObjInv, Sched, Wake;
    var b := Get(k, t);
    if b.state != Deleted {
      if b.state.pend && b.pendOn == OnTaskQ {
        WakeInv(k, t, Posted(None, m), noSched);
      } else {
        TcbOkOf(k, t);
        FieldInv(k, t, b.(taskQ := MsgPut(b.taskQ, b.taskQMax, m, lifo, poolEmpty).0));
      }
    }
  }

  // --------------------------------------------------------------------------------------- scheduler

  lemma RotateCount(q: seq<Tid>, x: Tid)
    ensures Count(Rotate(q), x) == Count(q, x) && (Rotate(q) == [] <==> q == [])
  {
    if |q| >= 2 {
      CountCat(q[1..], [q[0]], x);
    }
  }

  function Rotated(k: K): K
    requires k.prioCur < |k.rdy|
  {
    k.(rdy := k.rdy[k.prioCur := Rotate(k.rdy[k.prioCur])])
  }

  lemma RotatedWait(k: K)
    requires WheelInv(k) && WaitInv(k) && k.prioCur < |k.rdy|
    ensures WheelInv(Rotated(k)) && WaitInv(Rotated(k))
  {
    var k' := Rotated(k);
    assert forall t: Tid :: Get(k', t) == Get(k, t);
    assert WheelInv(k');
    assert forall o: Oid :: Object(k', o) == Object(k, o);
    assert WaitInv(k');
  }

  lemma RotatedCore(k: K)
    requires CoreInv(k) && k.prioCur < |k.rdy|
    ensures CoreInv(Rotated(k))
  {
    var k' := Rotated(k);
    assert forall t: Tid :: Get(k', t) == Get(k, t);
    forall p: nat, x: Tid | p < |k'.rdy|
      ensures Count(k'.rdy[p], x) == (if RdyAt(Get(k', x)) == p then 1 else 0) && (k'.rdy[p] == [] <==> k.rdy[p] == [])
    {
      RotateCount(k.rdy[p], x);
      assert Count(k.rdy[p], x) == if RdyAt(Get(k, x)) == p then 1 else 0;
    }
    assert ReadyInv(k');
    RotatedWait(k);
  }

  lemma RoundRobinInv(k: K)
    requires Inv(k)
    ensures Inv(RoundRobin(k).k)
  {
    hide ReadyInv, WheelInv, WaitInv, TcbInv, Sched;
    if k.lock == 0 && k.prioCur < |k.rdy| {
      RotatedCore(k);
      forall o: Oid | o in k.obj ensures ObjOk(Rotated(k), o, k.obj[o]) {
        assert ObjOk(k, o, k.obj[o]);
      }
      SchedInv(Rotated(k), false);
    }
  }

  lemma LockInv(k: K, n: nat)
    requires Inv(k)
    ensures Inv(k.(lock := n)) && Inv(Sched(k.(lock := n)))
  {
    SameListsInv(k, k.(lock := n));
    SchedInv(k.(lock := n), false);
  }
}
