/** os_sem.c and os_q.c as they are coded: the services on semaphores and queues, with their loops over the waiters. */
module ObjectCode {
  import opened TaskLists
  import opened KernelState
  import opened KernelOps
  import opened ObjKept
  import opened WakeMany
  import opened Services
  import opened ServicesKept
  import opened ObjectsKept
  import opened KernelCode

  /** OSSched at the end of a service, unless the option OS_OPT_POST_NO_SCHED is given. */
  method Reschedule(s: Kernel, noSched: bool)
    requires noSched || PriosOk(s.State()) || (ListsInv(s.State()) && Get(s.State(), s.idle).state == RDY)
    modifies s`cur, s`prioCur
    ensures s.State() == MaybeSched(old(s.State()), noSched)
  {
    hide CoreInv, ObjInv;
    if !noSched {
      if !PriosOk(s.State()) { SoundPrios(s.State()); }
      s.Sched();
    }
  }

  /** The loop of OS_SemPost and OS_QPost over the first waiter or over all of them; the cursor is moved on before the
      task is taken off the list. */
  method PostToWaiters(s: Kernel, o: Oid, all: bool, m: Msg)
    requires Inv(s.State()) && o in s.wait && s.wait[o] != []
    modifies s`tcb, s`wheel, s`wait, s`rdy, s`prios
    ensures s.State() ==
      WakeAll(old(s.State()), if all then old(s.wait)[o] else old(s.wait)[o][..1], Posted(Some(o), m))
    ensures Inv(s.State())
  {
    hide CoreInv, ObjInv, Wake;
    ghost var k, ev := s.State(), Posted(Some(o), m);
    var ts := s.wait[o];
    FirstAmong(k, o);
    var cnt := if all then |ts| else 1;
    ghost var todo := if all then ts else ts[..1];
    var i := 0;
    while i < cnt
      invariant i <= cnt == |todo| <= |ts| && todo == ts[..cnt]
      invariant ListsInv(s.State()) && AmongWaiters(s.State(), todo[i..], o) && Stable(k, s.State())
      invariant WakeAll(s.State(), todo[i..], ev) == WakeAll(k, todo, ev)
    {
      var t := ts[i];
      assert todo[i..][0] == t && todo[i..][1..] == todo[i + 1..];
      NextWaiter(s.State(), todo[i..], o, ev);
      WakeListsInv(s.State(), t, ev);
      s.Post(Some(o), t, m);
      i := i + 1;
    }
    assert todo[cnt..] == [];
  }

  /** The first of some waiters is in the pend list, and may be woken. */
  lemma NextWaiter(k: K, ts: seq<Tid>, o: Oid, ev: Event)
    requires ListsInv(k) && AmongWaiters(k, ts, o) && ts != [] && !ev.DelayOver?
    ensures ts[0] in k.tcb && Listed(k.tcb[ts[0]].tbl, o) && AmongWaiters(Wake(k, ts[0], ev), ts[1..], o)
  {
    hide CoreInv, ObjInv, Wake;
    CountPositive(ts, 0);
    AmongAfterFirst(k, ts, o, ev);
    WaiterPends(k, ts[0], o);
  }

  /** The loop of the delete services with OS_OPT_DEL_ALWAYS: always the head of the list. */
  method DeleteWaiters(s: Kernel, o: Oid)
    requires ListsInv(s.State()) && o in s.wait
    modifies s`tcb, s`wheel, s`wait, s`rdy, s`prios
    ensures s.State() == WakeAll(old(s.State()), old(s.wait)[o], ObjDeleted(Some(o)))
    ensures ListsInv(s.State()) && Stable(old(s.State()), s.State()) && Waiters(s.State(), o) == []
  {
    hide CoreInv, ObjInv, Wake;
    ghost var k, ts, ev := s.State(), s.wait[o], ObjDeleted(Some(o));
    var cnt := |s.wait[o]|;
    assert ts[0..] == ts;
    ghost var i := 0;
    while cnt > 0
      invariant i <= |ts| && i + cnt == |ts| && o in s.wait && s.wait[o] == ts[i..]
      invariant ListsInv(s.State()) && Stable(k, s.State())
      invariant WakeAll(s.State(), ts[i..], ev) == WakeAll(k, ts, ev)
    {
      var t := s.wait[o][0];
      assert ts[i..][0] == t && ts[i..][1..] == ts[i + 1..];
      FirstAmong(s.State(), o);
      NextWaiter(s.State(), ts[i..], o, ev);
      CountPositive(ts[i..], 0);
      WakeCounts(s.State(), t, ev, o, t);
      WakeListsInv(s.State(), t, ev);
      s.PendObjDel(o, t);
      i := i + 1;
      cnt := cnt - 1;
    }
  }

  /** The loop of the abort services: from the head, and once only unless the option is exactly OS_OPT_PEND_ABORT_ALL. */
  method AbortWaiters(s: Kernel, o: Oid, abortAll: bool) returns (nbrTasks: nat)
    requires Inv(s.State()) && o in s.wait && s.wait[o] != []
    modifies s`tcb, s`wheel, s`wait, s`rdy, s`prios
    ensures s.State() ==
      WakeAll(old(s.State()), if abortAll then old(s.wait)[o] else old(s.wait)[o][..1], Aborted(Some(o)))
    ensures Inv(s.State()) && nbrTasks == if abortAll then |old(s.wait)[o]| else 1
  {
    hide CoreInv, ObjInv, Wake;
    ghost var k, ts, ev := s.State(), s.wait[o], Aborted(Some(o));
    ghost var todo := if abortAll then ts else ts[..1];
    assert ts[0..] == ts && todo[0..] == todo;
    nbrTasks := 0;
    while |s.wait[o]| > 0
      invariant nbrTasks <= |todo| <= |ts| && todo == ts[..|todo|] && o in s.wait && s.wait[o] == ts[nbrTasks..]
      invariant nbrTasks == |todo| ==> abortAll
      invariant ListsInv(s.State()) && Stable(k, s.State())
      invariant WakeAll(s.State(), todo[nbrTasks..], ev) == WakeAll(k, todo, ev)
      decreases |s.wait[o]|
    {
      ghost var i := nbrTasks;
      var t := s.wait[o][0];
      assert todo[i..][0] == t && todo[i..][1..] == todo[i + 1..] && ts[i..][1..] == ts[i + 1..];
      FirstAmong(s.State(), o);
      NextWaiter(s.State(), ts[i..], o, ev);
      CountPositive(ts[i..], 0);
      WakeCounts(s.State(), t, ev, o, t);
      WakeListsInv(s.State(), t, ev);
      s.PendAbort(Some(o), t);
      nbrTasks := nbrTasks + 1;
      if !abortAll {
        break;
      }
    }
    assert todo[nbrTasks..] == [];
  }

  /** The part of the pend services that blocks the caller. */
  method BlockCaller(s: Kernel, on: PendOn, tbl: seq<PendData>, timeout: Tick, nonBlocking: bool) returns (err: Err)
    requires Inv(s.State()) && s.cur != s.idle && forall o: Oid :: Listed(tbl, o) ==> o in s.wait
    modifies s
    ensures R(s.State(), err) == BlockCur(old(s.State()), on, tbl, timeout, nonBlocking)
  {
    hide CoreInv, ObjInv, CurOk, Block;
    if nonBlocking {
      return ErrWouldBlock;
    }
    if s.lock > 0 {
      return ErrSchedLocked;
    }
    ghost var k := s.State();
    forall i: nat | i < |tbl| ensures tbl[i].obj in s.wait {
      EntryListed(tbl, i);
    }
    BlockPrios(k, on, tbl, timeout);
    s.Pend(on, tbl, timeout);
    Reschedule(s, false);
    return Blocked;
  }

  /** When the running task goes to sleep the idle task stays ready. */
  lemma BlockPrios(k: K, on: PendOn, tbl: seq<PendData>, timeout: Tick)
    requires Inv(k) && k.cur != k.idle
    ensures PriosOk(Block(k, k.cur, on, tbl, timeout))
  {
    hide WheelInv, WaitInv, ObjInv, BlockedTcb, TcbInv;
    var b := BlockedTcb(Get(k, k.cur), on, tbl, timeout, k.now, |k.wheel|);
    BlockedPrio(Get(k, k.cur), on, tbl, timeout, k.now, |k.wheel|);
    IdleListed(k);
    CountDrop(k.rdy[Get(k, k.idle).prio], k.cur, k.idle);
    var k' := Sleep(k, k.cur, b);
    assert k'.rdy[Get(k, k.idle).prio] != [];
    assert Get(k, k.idle).prio in k'.prios;
  }

  lemma BlockedPrio(b: Tcb, on: PendOn, tbl: seq<PendData>, timeout: Tick, now: Tick, size: nat)
    ensures BlockedTcb(b, on, tbl, timeout, now, size).prio == b.prio
  {
  }

  lemma IdleListed(k: K)
    requires Inv(k)
    ensures var p := Get(k, k.idle).prio; p < |k.rdy| && p in k.prios && Count(k.rdy[p], k.idle) == 1
  {
    hide WheelInv, WaitInv, ObjInv;
    ReadyListed(k, k.idle);
  }

  /** OSSemPend. */
  method PendSem(s: Kernel, o: Oid, timeout: Tick, nonBlocking: bool) returns (err: Err)
    requires Inv(s.State()) && s.cur != s.idle
    modifies s
    ensures R(s.State(), err) == SemPend(old(s.State()), o, timeout, nonBlocking)
  {
    hide CoreInv, CurOk, BlockCur;
    if o !in s.obj || !s.obj[o].Sem? {
      return ErrObjType;
    }
    if s.obj[o].ctr > 0 {
      s.obj := s.obj[o := Sem(s.obj[o].ctr - 1)];
      return ErrNone;
    }
    ObjOkOf(s.State(), o);
    EntryOk(s.State(), OnSem, o);
    err := BlockCaller(s, OnSem, Entry(o), timeout, nonBlocking);
  }

  /** OS_SemPost. */
  method PostSem(s: Kernel, o: Oid, all: bool, noSched: bool) returns (err: Err)
    requires Inv(s.State())
    modifies s
    ensures R(s.State(), err) == SemPost(old(s.State()), o, all, noSched)
  {
    hide CoreInv, ObjInv, WakeAll, MaybeSched;
    if o !in s.obj || !s.obj[o].Sem? {
      return ErrObjType;
    }
    SameKeys(s.State());
    if s.wait[o] == [] {
      if s.obj[o].ctr == SEM_MAX {
        return ErrSemOvf;
      }
      s.obj := s.obj[o := Sem(s.obj[o].ctr + 1)];
      return ErrNone;
    }
    PostToWaiters(s, o, all, NO_MSG);
    Reschedule(s, noSched);
    return ErrNone;
  }

  lemma SameKeys(k: K)
    requires ObjInv(k)
    ensures k.wait.Keys == k.obj.Keys
  {
  }

  /** OSSemSet. */
  method SetSem(s: Kernel, o: Oid, cnt: SemCtr) returns (err: Err)
    requires Inv(s.State())
    modifies s`obj
    ensures R(s.State(), err) == SemSet(old(s.State()), o, cnt)
  {
    hide CoreInv, ObjInv;
    if o !in s.obj || !s.obj[o].Sem? {
      return ErrObjType;
    }
    SameKeys(s.State());
    if s.obj[o].ctr > 0 {
      s.obj := s.obj[o := Sem(cnt)];
    } else if s.wait[o] == [] {
      s.obj := s.obj[o := Sem(cnt)];
    } else {
      return ErrTaskWaiting;
    }
    return ErrNone;
  }

  /** OSSemPendAbort, OSQPendAbort, OSMutexPendAbort, OSFlagPendAbort. */
  method AbortPend(s: Kernel, o: Oid, all: bool, noSched: bool) returns (err: Err, nbrTasks: nat)
    requires Inv(s.State())
    modifies s
    ensures R(s.State(), err) == Services.PendAbort(old(s.State()), o, all, noSched)
    ensures nbrTasks == if err != ErrNone then 0 else if all && !noSched then |Waiters(old(s.State()), o)| else 1
  {
    hide CoreInv, ObjInv, WakeAll, MaybeSched;
    SameKeys(s.State());
    GoneOutside(s.State(), o);
    if o !in s.obj || s.obj[o] == Gone {
      return ErrObjType, 0;
    }
    if s.wait[o] == [] {
      return ErrAbortNone, 0;
    }
    nbrTasks := AbortWaiters(s, o, all && !noSched);
    Reschedule(s, noSched);
    return ErrNone, nbrTasks;
  }

  lemma GoneOutside(k: K, o: Oid)
    ensures o !in k.obj ==> Object(k, o) == Gone
  {
  }

  /** OSSemDel, OSQDel, OSFlagDel. */
  method DeleteObj(s: Kernel, o: Oid, always: bool) returns (err: Err, nbrTasks: nat)
    requires Inv(s.State())
    modifies s
    ensures R(s.State(), err) == ObjDel(old(s.State()), o, always)
    ensures nbrTasks == if err == ErrObjType then 0 else |Waiters(old(s.State()), o)|
  {
    hide CoreInv, WakeAll;
    SameKeys(s.State());
    if o !in s.obj || s.obj[o].Gone? || s.obj[o].Mutex? {
      return ErrObjType, 0;
    }
    nbrTasks := |s.wait[o]|;
    if !always {
      if nbrTasks != 0 {
        return ErrTaskWaiting, nbrTasks;
      }
      s.obj := s.obj[o := Gone];
      return ErrNone, nbrTasks;
    }
    DeleteWaiters(s, o);
    SetObjKept(s.State(), o, Gone);
    s.obj := s.obj[o := Gone];
    Reschedule(s, false);
    return ErrNone, nbrTasks;
  }

  /** OSQPend. */
  method PendQ(s: Kernel, o: Oid, timeout: Tick, nonBlocking: bool) returns (err: Err)
    requires Inv(s.State()) && s.cur != s.idle
    modifies s
    ensures R(s.State(), err) == QPend(old(s.State()), o, timeout, nonBlocking)
  {
    hide CoreInv, CurOk, BlockCur;
    if o !in s.obj || !s.obj[o].Queue? {
      return ErrObjType;
    }
    if s.obj[o].msgs != [] {
      s.obj := s.obj[o := Queue(s.obj[o].msgs[1..], s.obj[o].max)];
      return ErrNone;
    }
    ObjOkOf(s.State(), o);
    EntryOk(s.State(), OnQ, o);
    err := BlockCaller(s, OnQ, Entry(o), timeout, nonBlocking);
  }

  /** OS_QPost. */
  method PostQ(s: Kernel, o: Oid, m: Msg, lifo: bool, all: bool, noSched: bool, poolEmpty: bool) returns (err: Err)
    requires Inv(s.State())
    modifies s
    ensures R(s.State(), err) == QPost(old(s.State()), o, m, lifo, all, noSched, poolEmpty)
  {
    hide CoreInv, ObjInv, WakeAll, MaybeSched;
    if o !in s.obj || !s.obj[o].Queue? {
      return ErrObjType;
    }
    SameKeys(s.State());
    if s.wait[o] == [] {
      var (q, e) := MsgPut(s.obj[o].msgs, s.obj[o].max, m, lifo, poolEmpty);
      s.obj := s.obj[o := Queue(q, s.obj[o].max)];
      return e;
    }
    PostToWaiters(s, o, all, m);
    Reschedule(s, noSched);
    return ErrNone;
  }

  /** OSQFlush. */
  method FlushQ(s: Kernel, o: Oid) returns (err: Err, entries: nat)
    modifies s`obj
    ensures R(s.State(), err) == QFlush(old(s.State()), o)
    ensures entries == var v := Object(old(s.State()), o); if v.Queue? then |v.msgs| else 0
  {
    if o !in s.obj || !s.obj[o].Queue? {
      return ErrObjType, 0;
    }
    entries := |s.obj[o].msgs|;
    s.obj := s.obj[o := Queue([], s.obj[o].max)];
    return ErrNone, entries;
  }
}
