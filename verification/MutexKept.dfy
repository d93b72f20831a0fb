/** The mutex services keep the invariant. */
module MutexKept {
  import opened TaskLists
  import opened KernelState
  import opened KernelOps
  import opened CoreKept
  import opened ObjKept
  import opened WakeMany
  import opened Services
  import opened ServicesKept
  import opened ObjectsKept

  /** The owner of a mutex is no stranger: its TCB is in use and it does not wait for the mutex. */
  lemma OwnerLive(k: K, o: Oid)
    requires ObjInv(k) && Object(k, o).Mutex? && Object(k, o).owner.Some?
    ensures var t := Object(k, o).owner.value;
      t in k.tcb && Get(k, t).state.Live? && !Listed(Get(k, t).tbl, o) && Object(k, o).orig < |k.rdy|
  {
    assert ObjOk(k, o, k.obj[o]);
  }

  /** Changing the priority of a live task changes nothing else about it. */
  lemma OwnerPrioInv(k: K, t: Tid, prio: nat, atTail: bool)
    requires Inv(k) && t in k.tcb && k.tcb[t].state.Live? && prio < |k.rdy|
    ensures var k' := SetOwnerPrio(k, t, prio, atTail);
      Inv(k') && Kept(k, t, k') && Get(k', t) == k.tcb[t].(prio := prio)
  {
    SetPrioKept(k, t, prio, atTail);
    OneTaskInv(k, t, SetOwnerPrio(k, t, prio, atTail));
  }

  lemma RaiseOwnerInv(k: K, t: Tid, prio: nat)
    requires Inv(k) && t in k.tcb && k.tcb[t].state.Live? && prio < |k.rdy| && t != k.cur
    ensures var k' := RaiseOwner(k, t, prio);
      && Inv(k') && k'.obj == k.obj && k'.cur == k.cur && k'.idle == k.idle && k'.lock == k.lock
      && Get(k', k.cur) == Get(k, k.cur)
  {
    OwnerPrioInv(k, t, prio, false);
  }

  lemma TakeMutexInv(k: K, o: Oid)
    requires Inv(k) && Object(k, o).Mutex? && Object(k, o).nest == 0
    ensures Inv(SetObj(k, o, Mutex(Some(k.cur), 1, Get(k, k.cur).prio)))
  {
    ObjOkOf(k, o);
    TcbOkOf(k, k.cur);
    SetObjInv(k, o, Mutex(Some(k.cur), 1, Get(k, k.cur).prio));
  }

  lemma NestMutexInv(k: K, o: Oid, nest: nat)
    requires Inv(k) && Object(k, o).Mutex? && Object(k, o).owner.Some? && 0 < nest < 256
    ensures Inv(SetObj(k, o, Object(k, o).(nest := nest)))
  {
    ObjOkOf(k, o);
    SetObjInv(k, o, Object(k, o).(nest := nest));
  }

  lemma MutexPendInv(k: K, o: Oid, timeout: Tick, nonBlocking: bool)
    requires Inv(k) && k.cur != k.idle && (Object(k, o).Mutex? ==> Object(k, o).nest < 255)
    ensures Inv(MutexPend(k, o, timeout, nonBlocking).k)
  {
    hide CoreInv, ObjInv, CurOk, Block, RaiseOwner, Sched;
    match Object(k, o)
    case Mutex(owner, nest, orig) =>
      if nest == 0 {
        TakeMutexInv(k, o);
      } else if owner == Some(k.cur) {
        NestMutexInv(k, o, nest + 1);
      } else if !nonBlocking && k.lock == 0 && owner.Some? {
        MutexBlockInv(k, o, timeout);
      }
    case _ =>
  }

  lemma MutexBlockInv(k: K, o: Oid, timeout: Tick)
    requires Inv(k) && k.cur != k.idle && k.lock == 0
    requires Object(k, o).Mutex? && Object(k, o).owner.Some? && Object(k, o).owner != Some(k.cur)
    ensures Inv(MutexPend(k, o, timeout, false).k)
  {
    var t := Object(k, o).owner.value;
    var k1 := RaiseOwner(k, t, Get(k, k.cur).prio);
    OwnerLive(k, o);
    ObjOkOf(k, o);
    TcbOkOf(k, k.cur);
    RaiseOwnerInv(k, t, Get(k, k.cur).prio);
    EntryOk(k1, OnMutex, o);
    BlockInv(k1, OnMutex, Entry(o), timeout, false);
  }

  lemma RestoreCurInv(k: K, orig: nat)
    requires Inv(k) && orig < |k.rdy|
    ensures var k' := RestoreCur(k, orig);
      && Inv(k') && k'.obj == k.obj && k'.cur == k.cur && k'.idle == k.idle && k'.lock == k.lock
      && |k'.rdy| == |k.rdy| && k'.wait.Keys == k.wait.Keys
      && Get(k', k.cur) == Get(k, k.cur).(prio := orig)
      && forall t: Tid :: t != k.cur ==> Get(k', t) == Get(k, t)
  {
    if Get(k, k.cur).prio != orig {
      var k1 := MoveReady(k, k.cur, orig, true);
      assert k1 == SetOwnerPrio(k, k.cur, orig, true);
      OwnerPrioInv(k, k.cur, orig, true);
      SameListsInv(k1, k1.(prioCur := orig));
    }
  }

  /** The waiters of an object do not change with the priority of a task that is not among them. */
  lemma SameWaiters(k: K, k': K, o: Oid)
    requires WaitInv(k) && WaitInv(k') && k'.wait.Keys == k.wait.Keys && o in k.wait
    requires forall t: Tid :: Get(k', t).tbl == Get(k, t).tbl
    ensures AllWaiters(k', k.wait[o], o)
  {
    forall x: Tid ensures Count(k.wait[o], x) == Count(k'.wait[o], x) {
      assert Count(k.wait[o], x) == if Listed(Get(k, x).tbl, o) then 1 else 0;
      assert Count(k'.wait[o], x) == if Listed(Get(k', x).tbl, o) then 1 else 0;
    }
  }

  /** Naming the new owner before or after it is woken comes to the same. */
  lemma HandOver(k: K, t: Tid, ev: Event, o: Oid, v: Obj)
    ensures Wake(SetObj(k, o, v), t, ev) == SetObj(Wake(k, t, ev), o, v)
  {
  }

  lemma GrantInv(k: K, o: Oid, t: Tid)
    requires Inv(k) && Object(k, o).Mutex? && o in k.wait && Count(k.wait[o], t) > 0
    ensures var k' := Wake(SetObj(k, o, Mutex(Some(t), 1, Get(k, t).prio)), t, Posted(Some(o), NO_MSG));
      ListsInv(k') && Stable(k, k'.(obj := k.obj))
  {
    var ev := Posted(Some(o), NO_MSG);
    var k1 := Wake(k, t, ev);
    var v := Mutex(Some(t), 1, Get(k, t).prio);
    WaiterPends(k, t, o);
    TcbOkOf(k, t);
    WakeListsInv(k, t, ev);
    WakeShape(k, t, ev);
    HandOver(k, t, ev, o, v);
    SetObjKept(k1, o, v);
  }

  lemma MutexPostInv(k: K, o: Oid, noSched: bool)
    requires Inv(k)
    ensures Inv(MutexPost(k, o, noSched).k)
  {
    ObjOkOf(k, o);
    match Object(k, o)
    case Mutex(owner, nest, orig) =>
      if owner == Some(k.cur) {
        if nest > 1 {
          NestMutexInv(k, o, nest - 1);
        } else if Waiters(k, o) == [] {
          SetObjInv(k, o, Mutex(None, 0, orig));
        } else {
          MutexGrantInv(k, o, noSched);
        }
      }
    case _ =>
  }

  /** The state in which the release of a mutex with waiters leaves the kernel, before the scheduler runs. */
  function Granted(k: K, o: Oid, orig: nat, t: Tid): K {
    var k1 := RestoreCur(k, orig);
    Wake(SetObj(k1, o, Mutex(Some(t), 1, Get(k1, t).prio)), t, Posted(Some(o), NO_MSG))
  }

  lemma GrantedInv(k: K, o: Oid)
    requires Inv(k) && Object(k, o).Mutex? && Object(k, o).owner == Some(k.cur) && Waiters(k, o) != []
    ensures ListsInv(Granted(k, o, Object(k, o).orig, Waiters(k, o)[0]))
    ensures Stable(RestoreCur(k, Object(k, o).orig), Granted(k, o, Object(k, o).orig, Waiters(k, o)[0]).(obj := k.obj))
    ensures Inv(RestoreCur(k, Object(k, o).orig))
  {
    OwnerLive(k, o);
    var k1 := RestoreCur(k, Object(k, o).orig);
    RestoreCurInv(k, Object(k, o).orig);
    SameWaiters(k, k1, o);
    CountPositive(k.wait[o], 0);
    GrantInv(k1, o, k.wait[o][0]);
  }

  lemma MutexGrantInv(k: K, o: Oid, noSched: bool)
    requires Inv(k) && Object(k, o).Mutex? && Object(k, o).owner == Some(k.cur) && Object(k, o).nest <= 1
    requires Waiters(k, o) != []
    ensures Inv(MutexPost(k, o, noSched).k)
  {
    hide CoreInv, ObjInv, Sched;
    GrantedInv(k, o);
    SchedInv(Granted(k, o, Object(k, o).orig, Waiters(k, o)[0]), noSched);
  }

  lemma MutexDelInv(k: K, o: Oid, always: bool)
    requires Inv(k)
    ensures Inv(MutexDel(k, o, always).k)
  {
    hide ReadyInv, WheelInv, TcbInv, WaitInv, Sched, SetOwnerPrio;
    ObjOkOf(k, o);
    match Object(k, o)
    case Mutex(owner, nest, orig) =>
      if !always {
        if Waiters(k, o) == [] {
          SetObjInv(k, o, Gone);
        }
      } else if owner.Some? && Get(k, owner.value).prio != orig {
        OwnerLive(k, o);
        var k1 := SetOwnerPrio(k, owner.value, orig, true);
        OwnerPrioInv(k, owner.value, orig, true);
        SameWaiters(k, k1, o);
        DropObjInv(k1, k.wait[o], o);
      } else {
        DropObjInv(k, k.wait[o], o);
      }
    case _ =>
  }
}
