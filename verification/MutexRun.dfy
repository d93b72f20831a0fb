/** Priority inheritance over runs. The owner of a mutex is never of lower priority than a task that waits for it, as
    long as no task holds a mutex while it acquires or awaits another and nobody changes the priority of a task that
    holds or awaits one. Without that rule it can fail, because only the direct owner is raised: `RaiseIsNotChained`
    says exactly when.
  */
module MutexRun {
  import opened TaskLists
  import opened KernelState
  import opened KernelOps
  import opened CoreKept
  import opened ObjKept
  import opened WakeMany
  import opened Services
  import opened ObjectsKept
  import opened MutexKept
  import opened FlagsMultiKept
  import opened Departures
  import opened Run
  import opened Effects

  /** t owns the mutex o. */
  predicate Holds(k: K, t: Tid, o: Oid) {
    Object(k, o).Mutex? && Object(k, o).owner == Some(t)
  }

  /** t waits for the mutex o. */
  predicate Awaits(k: K, t: Tid, o: Oid) {
    Object(k, o).Mutex? && Listed(Get(k, t).tbl, o)
  }

  /** No owner is of lower priority (a greater number) than a task that waits for its mutex. */
  ghost predicate Inherited(k: K) {
    forall o: Oid, w: Tid, t: Tid :: Holds(k, w, o) && Awaits(k, t, o) ==> Get(k, w).prio <= Get(k, t).prio
  }

  /** No task holds a mutex while it holds or awaits another. */
  ghost predicate OneAtATime(k: K) {
    && (forall w: Tid, o1: Oid, o2: Oid :: Holds(k, w, o1) && Holds(k, w, o2) ==> o1 == o2)
    && forall w: Tid, o1: Oid, o2: Oid :: Holds(k, w, o1) ==> !Awaits(k, w, o2)
  }

  ghost predicate Fair(k: K) {
    Inherited(k) && OneAtATime(k)
  }

  /** The rule the users of mutexes follow. */
  ghost predicate Disciplined(k: K, op: Op) {
    match op
    case OpMutexPend(o, _, _) => forall x: Oid :: Holds(k, k.cur, x) ==> x == o
    case OpChangePrio(t, _, _) => Uninvolved(k, t)
    case _ => true
  }

  ghost predicate Uninvolved(k: K, t: Tid) {
    forall o: Oid :: !Holds(k, t, o) && !Awaits(k, t, o)
  }

  /** t keeps its priority and awaits no more mutexes than before. */
  ghost predicate Tame(k: K, t: Tid, k': K) {
    Get(k', t).prio == Get(k, t).prio && forall o: Oid :: Awaits(k', t, o) ==> Awaits(k, t, o)
  }

  ghost predicate NoNewHolder(k: K, k': K) {
    forall w: Tid, o: Oid :: Holds(k', w, o) ==> Holds(k, w, o)
  }

  lemma InheritedKept(k: K, k': K)
    requires Inherited(k) && NoNewHolder(k, k') && forall t: Tid :: Tame(k, t, k') || Uninvolved(k', t)
    ensures Inherited(k')
  {
    forall o: Oid, w: Tid, t: Tid | Holds(k', w, o) && Awaits(k', t, o) ensures Get(k', w).prio <= Get(k', t).prio {
      assert Holds(k, w, o) && Tame(k, w, k') && Tame(k, t, k');
      assert Awaits(k, t, o);
    }
  }

  lemma FairKept(k: K, k': K)
    requires Fair(k) && NoNewHolder(k, k') && forall t: Tid :: Tame(k, t, k') || Uninvolved(k', t)
    ensures Fair(k')
  {
    InheritedKept(k, k');
    forall w: Tid, o1: Oid, o2: Oid | Holds(k', w, o1) ensures !Awaits(k', w, o2) {
      assert Holds(k, w, o1) && Tame(k, w, k');
    }
  }

  /** Mutexes are what they were, or new and free. */
  ghost predicate SameMutexes(k: K, k': K) {
    forall o: Oid :: Object(k', o).Mutex? ==>
      Object(k', o) == Object(k, o) || (Object(k', o).owner == None && Waiters(k', o) == [])
  }

  lemma CalmTames(k: K, S: set<Tid>, k': K, t: Tid)
    requires Inv(k') && Calm(k, S, k') && SameMutexes(k, k') && t !in S
    ensures Tame(k, t, k')
  {
    assert Eased(Get(k, t), Get(k', t));
    forall o: Oid | Awaits(k', t, o) ensures Awaits(k, t, o) {
      InList(k', o, t);
    }
  }

  lemma TameUnlessAbout(k: K, op: Op)
    requires Inv(k) && Inv(Step(k, op)) && SameMutexes(k, Step(k, op))
    requires forall t: Tid :: t in About(k, op) ==> Tame(k, t, Step(k, op)) || Uninvolved(Step(k, op), t)
    ensures NoNewHolder(k, Step(k, op))
    ensures forall t: Tid :: Tame(k, t, Step(k, op)) || Uninvolved(Step(k, op), t)
  {
    hide Inv, Step, About, Tame, Uninvolved;
    var k' := Step(k, op);
    StepCalm(k, op);
    forall t: Tid ensures Tame(k, t, k') || Uninvolved(k', t) {
      if t !in About(k, op) {
        CalmTames(k, About(k, op), k', t);
      }
    }
    SameHolders(k, k');
  }

  lemma SameHolders(k: K, k': K)
    requires SameMutexes(k, k')
    ensures NoNewHolder(k, k')
  {
    forall w: Tid, o: Oid | Holds(k', w, o) ensures Holds(k, w, o) {
      assert Object(k', o).Mutex?;
    }
  }

  predicate MutexOp(op: Op) {
    op.OpMutexPend? || op.OpMutexPost? || op.OpMutexDel?
  }

  /** Only the mutex services touch mutexes. */
  lemma MutexesStay(k: K, op: Op, o: Oid)
    requires Inv(k) && WellUsed(k, op) && !MutexOp(op) && Object(Step(k, op), o).Mutex?
    ensures Object(Step(k, op), o) == Object(k, o) || (Object(Step(k, op), o).owner == None && Waiters(Step(k, op), o) == [])
  {
    hide Inv, Step, WellUsed;
    if !Targets(op, o) {
      StepObj(k, op, o);
    } else if op.OpSemPend? || op.OpSemPost? || op.OpSemSet? {
      SemObj(k, op, o);
    } else if op.OpQPend? || op.OpQPost? || op.OpQFlush? {
      QObj(k, op, o);
    } else if op.OpFlagPend? || op.OpFlagConsume? || op.OpFlagPost? {
      FlagObj(k, op, o);
    } else if op.OpObjDel? {
      DelAbortObj(k, op, o);
    } else if op.OpMultiPend? {
      MultiMutexStays(k, op, o);
    } else {
      NewMutexFree(k, op);
    }
  }

  lemma MultiMutexStays(k: K, op: Op, o: Oid)
    requires op.OpMultiPend? && Object(Step(k, op), o).Mutex?
    ensures Object(Step(k, op), o) == Object(k, o)
  {
    hide MultiPend;
    MultiObj(k, op.tbl, op.timeout, op.nonBlocking, o);
  }

  lemma NewMutexFree(k: K, op: Op)
    requires WellUsed(k, op) && op.OpCreate? && Object(Step(k, op), op.o).Mutex?
    ensures Object(Step(k, op), op.o).owner == None && Waiters(Step(k, op), op.o) == []
  {
  }

  // ------------------------------------------------------------------- calls that are not about mutexes

  lemma CurAfterBlock(k: K, on: PendOn, tbl: seq<PendData>, timeout: Tick, nonBlocking: bool)
    ensures var b' := Get(BlockCur(k, on, tbl, timeout, nonBlocking).k, k.cur);
      && b'.prio == Get(k, k.cur).prio && SameFlags(Get(k, k.cur), b')
      && ((b'.tbl == Get(k, k.cur).tbl && b'.pendOn == Get(k, k.cur).pendOn) || (b'.tbl == tbl && b'.pendOn == on))
  {
    hide Sleep, BlockedTcb, Sched;
    var b := BlockedTcb(Get(k, k.cur), on, tbl, timeout, k.now, |k.wheel|);
    BlockedFields(Get(k, k.cur), on, tbl, timeout, k.now, |k.wheel|);
    SleepTcb(k, k.cur, b);
    SchedKeepsTcbs(Sleep(k, k.cur, b), false);
  }

  lemma TimedFields(b: Tcb, now: Tick, size: nat, time: Tick, opt: TimeOpt)
    ensures var b' := Timed(b, now, size, time, opt);
      b' == b.(due := b'.due, spoke := b'.spoke, prev := b'.prev)
  {
    hide DueTime, SpokeOf;
  }

  lemma BlockedFields(b: Tcb, on: PendOn, tbl: seq<PendData>, timeout: Tick, now: Tick, size: nat)
    ensures var b' := BlockedTcb(b, on, tbl, timeout, now, size);
      b'.prio == b.prio && b'.tbl == tbl && b'.pendOn == on && SameFlags(b, b')
  {
    hide Timed;
    TimedFields(b.(pendOn := on, status := StatusOk, tbl := tbl), now, size, timeout, OptTimeout);
  }

  predicate SameFlags(b: Tcb, b': Tcb) {
    b'.flagsPend == b.flagsPend && b'.flagsMode == b.flagsMode
  }

  /** The task waits for the same bits of the same groups, or for no flags. */
  predicate NotOnFlag(b: Tcb, b': Tcb) {
    SameFlags(b, b') && ((b'.tbl == b.tbl && b'.pendOn == b.pendOn) || b'.pendOn != OnFlag)
  }

  /** The caller keeps its priority and waits for none but the object it names. */
  ghost predicate CurPends(k: K, o: Oid, k': K) {
    && Get(k', k.cur).prio == Get(k, k.cur).prio
    && (Get(k', k.cur).tbl == Get(k, k.cur).tbl || (Get(k', k.cur).tbl == Entry(o) && !Object(k, o).Mutex?))
  }

  lemma SemQPends(k: K, op: Op)
    requires op.OpSemPend? || op.OpQPend?
    ensures CurPends(k, op.o, Step(k, op))
    ensures NotOnFlag(Get(k, k.cur), Get(Step(k, op), k.cur))
  {
    hide BlockCur;
    match op
    case OpSemPend(o, timeout, nonBlocking) => CurAfterBlock(k, OnSem, Entry(o), timeout, nonBlocking);
    case OpQPend(o, timeout, nonBlocking) => CurAfterBlock(k, OnQ, Entry(o), timeout, nonBlocking);
  }

  lemma FlagPends(k: K, op: Op)
    requires op.OpFlagPend?
    ensures CurPends(k, op.o, Step(k, op))
  {
    hide BlockCur, FlagMet, FlagBits, FlagConsumed;
    var k1 := Put(k, k.cur, Get(k, k.cur).(flagsPend := op.want, flagsMode := op.mode, flagsRdy := 0));
    CurAfterBlock(k1, OnFlag, Entry(op.o), op.timeout, false);
  }

  lemma TaskSemPends(k: K, timeout: Tick, nonBlocking: bool)
    ensures var b, b' := Get(k, k.cur), Get(TaskSemPend(k, timeout, nonBlocking).k, k.cur);
      b'.prio == b.prio && (b'.tbl == b.tbl || b'.tbl == []) && NotOnFlag(b, b')
  {
    hide BlockCur;
    CurAfterBlock(k, OnTaskSem, [], timeout, nonBlocking);
  }

  lemma TaskQPends(k: K, timeout: Tick, nonBlocking: bool)
    ensures var b, b' := Get(k, k.cur), Get(TaskQPend(k, timeout, nonBlocking).k, k.cur);
      b'.prio == b.prio && (b'.tbl == b.tbl || b'.tbl == []) && NotOnFlag(b, b')
  {
    hide BlockCur;
    CurAfterBlock(k, OnTaskQ, [], timeout, nonBlocking);
  }

  lemma TaskPends(k: K, op: Op)
    requires op.OpTaskSemPend? || op.OpTaskQPend?
    ensures Get(Step(k, op), k.cur).prio == Get(k, k.cur).prio
    ensures Get(Step(k, op), k.cur).tbl == Get(k, k.cur).tbl || Get(Step(k, op), k.cur).tbl == []
    ensures NotOnFlag(Get(k, k.cur), Get(Step(k, op), k.cur))
  {
    hide TaskSemPend, TaskQPend, NotOnFlag;
    match op
    case OpTaskSemPend(timeout, nonBlocking) => TaskSemPends(k, timeout, nonBlocking);
    case OpTaskQPend(timeout, nonBlocking) => TaskQPends(k, timeout, nonBlocking);
  }

  lemma MultiPends(k: K, op: Op)
    requires op.OpMultiPend?
    ensures Get(Step(k, op), k.cur).prio == Get(k, k.cur).prio && NotOnFlag(Get(k, k.cur), Get(Step(k, op), k.cur))
    ensures Get(Step(k, op), k.cur).tbl == Get(k, k.cur).tbl ||
      forall o: Oid :: Listed(Get(Step(k, op), k.cur).tbl, o) ==> !Object(k, o).Mutex?
  {
    hide BlockCur, TakeReady;
    var got := TakeReady(k.obj, op.tbl).1;
    CurAfterBlock(k, OnMulti, got, op.timeout, op.nonBlocking);
    if MultiValid(k, op.tbl) && TakeReady(k.obj, op.tbl).2 == 0 {
      NothingReady(k, op.tbl);
      forall o: Oid | Listed(got, o) ensures !Object(k, o).Mutex? {
        MultiValidKinds(k, op.tbl, o);
      }
    }
  }

  lemma CurTame(k: K, op: Op)
    requires SameMutexes(k, Step(k, op)) && Inv(Step(k, op))
    requires op.OpSemPend? || op.OpQPend? || op.OpFlagPend? || op.OpMultiPend? || op.OpTaskSemPend? || op.OpTaskQPend?
    ensures Tame(k, k.cur, Step(k, op))
  {
    hide Inv, Step;
    var k' := Step(k, op);
    if op.OpSemPend? || op.OpQPend? { SemQPends(k, op); }
    if op.OpFlagPend? { FlagPends(k, op); }
    if op.OpMultiPend? { MultiPends(k, op); }
    if op.OpTaskSemPend? || op.OpTaskQPend? { TaskPends(k, op); }
    forall o: Oid | Awaits(k', k.cur, o) ensures Awaits(k, k.cur, o) {
      AwaitedStays(k, k', k.cur, o);
      EntryLists(o);
    }
  }

  lemma EntryLists(x: Oid)
    ensures forall o: Oid :: Listed(Entry(o), x) <==> o == x
  {
  }

  /** A mutex that is awaited is not new. */
  lemma AwaitedStays(k: K, k': K, t: Tid, o: Oid)
    requires SameMutexes(k, k') && Inv(k') && Awaits(k', t, o)
    ensures Object(k, o) == Object(k', o)
  {
    InList(k', o, t);
  }

  lemma AboutTask(k: K, op: Op)
    requires Inv(k) && Inv(Step(k, op)) && WellUsed(k, op) && Disciplined(k, op) && SameMutexes(k, Step(k, op))
    requires op.OpTaskCreate? || op.OpTaskDel? || op.OpChangePrio?
    ensures Tame(k, op.t, Step(k, op)) || Uninvolved(Step(k, op), op.t)
  {
    hide CoreInv, Sched, Tame, Uninvolved;
    var k' := Step(k, op);
    if Get(k', op.t) == Get(k, op.t) {
      TameSelf(k, k', op.t);
    } else if op.OpChangePrio? {
      PrioTcb(k, op.t, op.prio, op.self);
      InvolvedNot(k, k', op.t);
    } else {
      CreateDelTcb(k, op);
      FreshUninvolved(k, k', op.t);
    }
  }

  lemma TameSelf(k: K, k': K, t: Tid)
    requires SameMutexes(k, k') && Inv(k') && Get(k', t) == Get(k, t)
    ensures Tame(k, t, k')
  {
    hide Inv;
    forall o: Oid | Awaits(k', t, o) ensures Awaits(k, t, o) {
      AwaitedStays(k, k', t, o);
    }
  }

  lemma PrioTcb(k: K, t: Tid, prio: nat, self: bool)
    ensures var k' := TaskChangePrio(k, t, prio, self).k;
      Get(k', t) == Get(k, t) || Get(k', t) == Get(k, t).(prio := prio)
  {
    hide MoveReady, MovePending;
    MovePrioTcb(k, t, prio, !self);
  }

  lemma InvolvedNot(k: K, k': K, t: Tid)
    requires SameMutexes(k, k') && Inv(k') && Get(k', t).tbl == Get(k, t).tbl && Uninvolved(k, t)
    ensures Uninvolved(k', t)
  {
    hide Inv;
    forall o: Oid ensures !Holds(k', t, o) && !Awaits(k', t, o) {
      assert !Holds(k, t, o) && !Awaits(k, t, o);
      if Awaits(k', t, o) {
        AwaitedStays(k, k', t, o);
      }
    }
  }

  lemma CreateDelTcb(k: K, op: Op)
    requires WellUsed(k, op) && (op.OpTaskCreate? || op.OpTaskDel?) && Get(Step(k, op), op.t) != Get(k, op.t)
    ensures Get(Step(k, op), op.t).tbl == []
    ensures Get(Step(k, op), op.t).state == Deleted || Get(k, op.t).state == Deleted
  {
    hide RdyRemove, WheelDrop, UnlinkAll;
  }

  lemma FreshUninvolved(k: K, k': K, t: Tid)
    requires Inv(k) && Inv(k') && SameMutexes(k, k') && Get(k', t).tbl == []
    requires Get(k', t).state == Deleted || Get(k, t).state == Deleted
    ensures Uninvolved(k', t)
  {
    hide CoreInv;
    forall o: Oid ensures !Holds(k', t, o) && !Awaits(k', t, o) {
      ObjOkOf(k, o);
      ObjOkOf(k', o);
    }
  }

  /** A call that is not about mutexes makes nobody an owner, and changes the priority of nobody who owns or awaits one
      unless it is told to. */
  lemma AllTame(k: K, op: Op)
    requires Inv(k) && WellUsed(k, op) && Harmless(k, op) && Disciplined(k, op) && !MutexOp(op)
    ensures NoNewHolder(k, Step(k, op))
    ensures forall t: Tid :: Tame(k, t, Step(k, op)) || Uninvolved(Step(k, op), t)
  {
    hide Inv, Step, WellUsed, Harmless, Disciplined, Tame, Uninvolved;
    StepKeeps(k, op);
    forall o: Oid | Object(Step(k, op), o).Mutex?
      ensures Object(Step(k, op), o) == Object(k, o) || (Object(Step(k, op), o).owner == None && Waiters(Step(k, op), o) == [])
    {
      MutexesStay(k, op, o);
    }
    if op.OpTaskCreate? || op.OpTaskDel? || op.OpChangePrio? {
      AboutTask(k, op);
    } else if op.OpSemPend? || op.OpQPend? || op.OpFlagPend? || op.OpMultiPend? || op.OpTaskSemPend? || op.OpTaskQPend? {
      CurTame(k, op);
    }
    TameUnlessAbout(k, op);
  }

  lemma FairNoMutex(k: K, op: Op)
    requires Inv(k) && WellUsed(k, op) && Harmless(k, op) && Disciplined(k, op) && Fair(k) && !MutexOp(op)
    ensures Fair(Step(k, op))
  {
    hide Inv, Step, WellUsed, Harmless, Disciplined, Fair, Tame, Uninvolved;
    AllTame(k, op);
    FairKept(k, Step(k, op));
  }

  // ---------------------------------------------------------------------------- calls about mutexes

  /** No TCB changes, and nobody becomes an owner. */
  lemma FairSameTcbs(k: K, k': K)
    requires Fair(k) && k'.tcb == k.tcb && NoNewHolder(k, k')
    requires forall o: Oid :: Object(k', o).Mutex? ==> Object(k, o).Mutex?
    ensures Fair(k')
  {
    hide Fair;
    assert forall t: Tid :: Get(k', t) == Get(k, t);
    assert forall t: Tid :: Tame(k, t, k');
    FairKept(k, k');
  }

  lemma ReadyAwaitsNothing(k: K, t: Tid)
    requires CoreInv(k) && Get(k, t).state == RDY
    ensures Get(k, t).tbl == []
  {
    hide ReadyInv, WheelInv, WaitInv;
    TcbOkOf(k, t);
  }

  lemma FairTake(k: K, o: Oid)
    requires Inv(k) && Fair(k) && Object(k, o).Mutex? && Object(k, o).nest == 0
    requires forall x: Oid :: Holds(k, k.cur, x) ==> x == o
    ensures Fair(SetObj(k, o, Mutex(Some(k.cur), 1, Get(k, k.cur).prio)))
  {
    hide CoreInv;
    var k' := SetObj(k, o, Mutex(Some(k.cur), 1, Get(k, k.cur).prio));
    ObjOkOf(k, o);
    ReadyAwaitsNothing(k, k.cur);
    forall t: Tid ensures !Awaits(k', t, o) {
      InList(k, o, t);
    }
    forall w: Tid, x: Oid ensures Holds(k', w, x) <==> if x == o then w == k.cur else Holds(k, w, x) {
    }
    forall w: Tid, x: Oid ensures x != o ==> (Awaits(k', w, x) <==> Awaits(k, w, x)) {
    }
  }

  /** The caller joins the waiters of a mutex whose owner has at least its priority by then. */
  lemma FairBlock(k: K, o: Oid, w: Tid, k': K, p: nat)
    requires Fair(k) && Holds(k, w, o) && w != k.cur && k'.obj == k.obj
    requires forall x: Oid :: !Holds(k, k.cur, x)
    requires p == Get(k, k.cur).prio == Get(k', k.cur).prio && Get(k', k.cur).tbl == Entry(o)
    requires Get(k', w) == (if Get(k, w).prio > p then Get(k, w).(prio := p) else Get(k, w))
    requires forall t: Tid :: t != w && t != k.cur ==> Get(k', t) == Get(k, t)
    ensures Fair(k')
  {
    EntryLists(o);
    assert forall x: Oid, v: Tid :: Holds(k', v, x) <==> Holds(k, v, x);
    forall x: Oid, v: Tid, t: Tid | Holds(k', v, x) && Awaits(k', t, x) ensures Get(k', v).prio <= Get(k', t).prio {
      assert Holds(k, v, x) && v != k.cur;
      if t == k.cur {
        EntryLists(x);
        assert v == w;
      } else {
        assert Awaits(k, t, x);
        assert t != w;
      }
    }
    forall v: Tid, x: Oid, y: Oid | Holds(k', v, x) ensures !Awaits(k', v, y) {
      assert Holds(k, v, x) && !Awaits(k, v, y) && Get(k', v).tbl == Get(k, v).tbl;
    }
  }

  lemma FairPend(k: K, o: Oid, timeout: Tick, nonBlocking: bool)
    requires Inv(k) && Fair(k) && Disciplined(k, OpMutexPend(o, timeout, nonBlocking))
    ensures Fair(MutexPend(k, o, timeout, nonBlocking).k)
  {
    hide CoreInv, Fair, RaiseOwner, Block, Sched, ObjInv;
    var k' := MutexPend(k, o, timeout, nonBlocking).k;
    match Object(k, o)
    case Mutex(owner, nest, orig) =>
      if nest == 0 {
        FairTake(k, o);
      } else if owner == Some(k.cur) {
        FairSameTcbs(k, k');
      } else if k' != k {
        MutexBlockTcbs(k, o, owner.value, timeout);
        assert forall x: Oid :: Holds(k, k.cur, x) ==> x == o;
        FairBlock(k, o, owner.value, k', Get(k, k.cur).prio);
      }
    case _ =>
  }

  /** Of the tasks that wait for a mutex the first has the highest priority. */
  lemma FirstIsHighest(k: K, o: Oid, t: Tid)
    requires ListsInv(k) && !Object(k, o).FlagGrp? && Listed(Get(k, t).tbl, o)
    ensures Waiters(k, o) != [] && Get(k, Waiters(k, o)[0]).prio <= Get(k, t).prio
  {
    InList(k, o, t);
    HeadLeast(k.wait[o], PrioOrder(k.tcb), t);
    CountPositive(k.wait[o], 0);
    WaiterPends(k, k.wait[o][0], o);
    WaiterPends(k, t, o);
  }

  /** What the release of a mutex with waiters does to the TCBs and the objects. */
  lemma GrantEffect(k: K, o: Oid, noSched: bool)
    requires Inv(k) && Holds(k, k.cur, o) && Object(k, o).nest <= 1 && Waiters(k, o) != []
    ensures var k' := MutexPost(k, o, noSched).k; var h := Waiters(k, o)[0]; var orig := Object(k, o).orig;
      && h != k.cur && Awaits(k, h, o)
      && k'.obj == k.obj[o := Mutex(Some(h), 1, Get(k, h).prio)]
      && Get(k', h) == Finish(Get(k, h), Posted(Some(o), NO_MSG))
      && Get(k', k.cur) == Get(k, k.cur).(prio := orig)
      && forall t: Tid :: t != h && t != k.cur ==> Get(k', t) == Get(k, t)
  {
    hide RestoreCur, Sched, MaybeSched, ReadyInv, WheelInv, WaitInv, TcbInv, Wake;
    var h := Waiters(k, o)[0];
    var orig := Object(k, o).orig;
    var ev := Posted(Some(o), NO_MSG);
    OwnerLive(k, o);
    CountPositive(k.wait[o], 0);
    WaiterPends(k, h, o);
    ReadyAwaitsNothing(k, k.cur);
    RestoreCurInv(k, orig);
    RestoreCurTcb(k, orig);
    var k1 := RestoreCur(k, orig);
    var k2 := SetObj(k1, o, Mutex(Some(h), 1, Get(k1, h).prio));
    WakeTcb(k2, h, ev);
    SchedKeepsTcbs(Wake(k2, h, ev), noSched);
  }

  lemma WakeTcb(k: K, t: Tid, ev: Event)
    requires Ends(ev, Get(k, t).state)
    ensures Wake(k, t, ev).tcb == k.tcb[t := Finish(Get(k, t), ev)] && Wake(k, t, ev).obj == k.obj
  {
  }

  lemma FairGrant(k: K, o: Oid, noSched: bool)
    requires Inv(k) && Fair(k) && Holds(k, k.cur, o) && Object(k, o).nest <= 1 && Waiters(k, o) != []
    ensures Fair(MutexPost(k, o, noSched).k)
  {
    hide CoreInv, ObjInv, MutexPost;
    var k' := MutexPost(k, o, noSched).k;
    var h := Waiters(k, o)[0];
    GrantEffect(k, o, noSched);
    ReadyAwaitsNothing(k, k.cur);
    forall x: Oid, w: Tid ensures Holds(k', w, x) <==> if x == o then w == h else Holds(k, w, x) && w != k.cur {
      assert Holds(k, k.cur, x) ==> x == o;
    }
    forall x: Oid, t: Tid ensures Awaits(k', t, x) <==> Awaits(k, t, x) && t != h {
    }
    forall x: Oid, w: Tid, t: Tid | Holds(k', w, x) && Awaits(k', t, x) ensures Get(k', w).prio <= Get(k', t).prio {
      assert Awaits(k, t, x);
      if x == o {
        FirstIsHighest(k, o, t);
      } else {
        assert Holds(k, w, x);
        assert !Awaits(k, w, o);
      }
    }
    forall w: Tid, x: Oid, y: Oid | Holds(k', w, x) && Holds(k', w, y) ensures x == y {
      assert Holds(k, h, x) ==> !Awaits(k, h, o);
      assert Holds(k, h, y) ==> !Awaits(k, h, o);
    }
    forall w: Tid, x: Oid, y: Oid | Holds(k', w, x) ensures !Awaits(k', w, y) {
      assert x != o ==> Holds(k, w, x);
    }
  }

  lemma FairPost(k: K, o: Oid, noSched: bool)
    requires Inv(k) && Fair(k)
    ensures Fair(MutexPost(k, o, noSched).k)
  {
    hide CoreInv, ObjInv, Fair, RestoreCur, Wake, MaybeSched;
    if Holds(k, k.cur, o) {
      if Object(k, o).nest > 1 {
        FairSameTcbs(k, MutexPost(k, o, noSched).k);
      } else if Waiters(k, o) == [] {
        FairSameTcbs(k, MutexPost(k, o, noSched).k);
      } else {
        FairGrant(k, o, noSched);
      }
    }
  }

  /** The deleted mutex is gone, and its owner holds nothing any more. */
  lemma FairAfterDel(k: K, o: Oid, k': K)
    requires Inv(k) && Fair(k) && Object(k, o).Mutex? && k'.obj == k.obj[o := Gone]
    requires Calm(k, OwnerOf(k, o), k')
    requires forall t: Tid :: t in OwnerOf(k, o) ==> Get(k', t).tbl == [] || Get(k', t).tbl == Get(k, t).tbl
    ensures Fair(k')
  {
    hide Inv;
    forall w: Tid, x: Oid ensures Holds(k', w, x) <==> x != o && Holds(k, w, x) {
    }
    forall t: Tid ensures Tame(k, t, k') || Uninvolved(k', t) {
      forall x: Oid | Awaits(k', t, x) ensures x != o && Object(k, x) == Object(k', x) {
      }
      if t in OwnerOf(k, o) {
        assert Holds(k, t, o);
        forall x: Oid ensures !Holds(k', t, x) && !Awaits(k', t, x) {
          assert !Awaits(k, t, x) && (Holds(k, t, x) ==> x == o);
        }
      } else {
        assert Eased(Get(k, t), Get(k', t));
        assert forall x: Oid :: Awaits(k', t, x) ==> Awaits(k, t, x);
      }
    }
    FairKept(k, k');
  }

  lemma {:induction false} WakeAllTbl(k: K, ts: seq<Tid>, ev: Event, t: Tid)
    ensures Get(WakeAll(k, ts, ev), t).tbl == [] || Get(WakeAll(k, ts, ev), t).tbl == Get(k, t).tbl
    decreases |ts|
  {
    WakeAllCalm(k, ts, ev);
    assert Eased(Get(k, t), Get(WakeAll(k, ts, ev), t));
  }

  lemma FairDel(k: K, o: Oid, always: bool)
    requires Inv(k) && Fair(k)
    ensures Fair(MutexDel(k, o, always).k)
  {
    hide CoreInv, ObjInv, CurOk, Fair, SetOwnerPrio, WakeAll, Sched, Calm;
    var k' := MutexDel(k, o, always).k;
    MutexDelCalm(k, o, always);
    match Object(k, o)
    case Mutex(owner, nest, orig) =>
      if always && k' != k {
        var k1 := if owner.Some? && Get(k, owner.value).prio != orig then SetOwnerPrio(k, owner.value, orig, true) else k;
        MutexDelObj(k, o, owner, orig);
        if owner.Some? {
          SetOwnerPrioTcb(k, owner.value, orig, true);
          WakeAllTbl(k1, Waiters(k, o), ObjDeleted(Some(o)), owner.value);
        }
        SchedKeepsTcbs(SetObj(WakeAll(k1, Waiters(k, o), ObjDeleted(Some(o))), o, Gone), false);
        FairAfterDel(k, o, k');
      } else if k' != k {
        FairAfterDel(k, o, k');
      }
    case _ =>
  }

  lemma FairStep(k: K, op: Op)
    requires Inv(k) && WellUsed(k, op) && Harmless(k, op) && Disciplined(k, op) && Fair(k)
    ensures Fair(Step(k, op))
  {
    hide Inv, Fair, WellUsed, Harmless, Disciplined, MutexPend, MutexPost, MutexDel;
    match op {
      case OpMutexPend(o, timeout, nonBlocking) => FairPend(k, o, timeout, nonBlocking);
      case OpMutexPost(o, noSched) => FairPost(k, o, noSched);
      case OpMutexDel(o, always) => FairDel(k, o, always);
      case _ => FairNoMutex(k, op);
    }
  }

  ghost predicate DisciplinedRun(k: K, ops: seq<Op>)
    decreases |ops|
  {
    ops == [] || (Disciplined(k, ops[0]) && DisciplinedRun(Step(k, ops[0]), ops[1..]))
  }

  /** Over every run that follows the rule, with any mixture of timeouts, aborts, deletions and ticks, no task waits
      for a mutex whose owner has a lower priority. */
  lemma {:induction false} InheritanceOverRuns(k: K, ops: seq<Op>)
    requires Inv(k) && Fair(k) && Proper(k, ops) && DisciplinedRun(k, ops)
    ensures Fair(After(k, ops))
    decreases |ops|
  {
    hide Inv, Fair, WellUsed, Harmless, Step, Disciplined;
    if ops != [] {
      StepKeeps(k, ops[0]);
      FairStep(k, ops[0]);
      InheritanceOverRuns(Step(k, ops[0]), ops[1..]);
    }
  }

  lemma BootedFair(pool: set<Tid>, idle: Tid, prios: nat, size: nat)
    requires prios > 0 && size > 0
    ensures Fair(Booted(pool, idle, prios, size))
  {
    var k := Booted(pool, idle, prios, size);
    assert forall t: Tid, o: Oid :: !Holds(k, t, o);
  }

  /** Priority inheritance from the start of multitasking. */
  lemma NoInversion(pool: set<Tid>, idle: Tid, prios: nat, size: nat, ops: seq<Op>, o: Oid, w: Tid, t: Tid)
    requires prios > 0 && size > 0
    requires Proper(Booted(pool, idle, prios, size), ops) && DisciplinedRun(Booted(pool, idle, prios, size), ops)
    ensures var k := After(Booted(pool, idle, prios, size), ops);
      Holds(k, w, o) && Awaits(k, t, o) ==> w != t && Get(k, w).prio <= Get(k, t).prio
  {
    hide Inv, Booted;
    BootedInv(pool, idle, prios, size);
    BootedFair(pool, idle, prios, size);
    InheritanceOverRuns(Booted(pool, idle, prios, size), ops);
  }

  // ----------------------------------------------------------------------------- without the discipline

  /** Only the direct owner is raised. If that owner itself waits for a mutex whose owner stays below the new waiter,
      and only then, the bound is lost. */
  lemma RaiseIsNotChained(k: K, o: Oid, w: Tid, timeout: Tick)
    requires Inv(k) && Inherited(k) && k.lock == 0 && Holds(k, w, o) && w != k.cur
    ensures Inherited(MutexPend(k, o, timeout, false).k) <==>
      Get(k, w).prio <= Get(k, k.cur).prio || NoneBelow(k, w, Get(k, k.cur).prio)
  {
    hide CoreInv, CurOk, RaiseOwner, Block, Sched;
    ObjOkOf(k, o);
    MutexBlockTcbs(k, o, w, timeout);
    var b := BlockedTcb(Get(k, k.cur), OnMutex, Entry(o), timeout, k.now, |k.wheel|);
    RaiseExactly(k, o, w, b, MutexPend(k, o, timeout, false).k);
  }

  lemma OwnerNotWaiting(k: K, v: Tid, x: Oid)
    requires ObjInv(k) && Holds(k, v, x)
    ensures !Awaits(k, v, x)
  {
    assert ObjOk(k, x, k.obj[x]);
  }

  /** k' is k with the owner w raised and the caller waiting for o with TCB b. */
  ghost predicate Raised(k: K, o: Oid, w: Tid, b: Tcb, k': K) {
    && ObjInv(k) && Inherited(k) && Holds(k, w, o) && w != k.cur && k'.obj == k.obj
    && b.prio == Get(k, k.cur).prio && b.tbl == Entry(o)
    && k'.tcb == (if Get(k, w).prio > b.prio then k.tcb[w := Get(k, w).(prio := b.prio)] else k.tcb)[k.cur := b]
  }

  /** What the owner w itself waits for is held by nobody below the priority p. */
  ghost predicate NoneBelow(k: K, w: Tid, p: nat) {
    forall v: Tid, x: Oid :: Holds(k, v, x) && Awaits(k, w, x) ==> Get(k, v).prio <= p
  }

  lemma RaiseKeeps(k: K, o: Oid, w: Tid, b: Tcb, k': K)
    requires Raised(k, o, w, b, k') && (Get(k, w).prio <= b.prio || NoneBelow(k, w, b.prio))
    ensures Inherited(k')
  {
    hide ObjInv;
    EntryLists(o);
    assert forall x: Oid, v: Tid :: Holds(k', v, x) <==> Holds(k, v, x);
    forall x: Oid, v: Tid, t: Tid | Holds(k', v, x) && Awaits(k', t, x) ensures Get(k', v).prio <= Get(k', t).prio {
      assert Holds(k, v, x);
      if t == k.cur {
        EntryLists(x);
        assert x == o && v == w;
      } else {
        assert Awaits(k, t, x);
        assert Get(k, v).prio <= Get(k, t).prio;
      }
    }
  }

  lemma RaiseLoses(k: K, o: Oid, w: Tid, b: Tcb, k': K)
    requires Raised(k, o, w, b, k') && Get(k, w).prio > b.prio && !NoneBelow(k, w, b.prio)
    ensures !Inherited(k')
  {
    hide ObjInv;
    var v: Tid, x: Oid :| Holds(k, v, x) && Awaits(k, w, x) && Get(k, v).prio > b.prio;
    OwnerNotWaiting(k, v, x);
    assert Holds(k', v, x) && Awaits(k', w, x);
  }

  lemma RaiseExactly(k: K, o: Oid, w: Tid, b: Tcb, k': K)
    requires Raised(k, o, w, b, k')
    ensures Inherited(k') <==> Get(k, w).prio <= b.prio || NoneBelow(k, w, b.prio)
  {
    hide Raised, NoneBelow, Inherited;
    if Get(k, w).prio <= b.prio || NoneBelow(k, w, b.prio) {
      RaiseKeeps(k, o, w, b, k');
    } else {
      RaiseLoses(k, o, w, b, k');
    }
  }

  /** Task 1 owns mutex 2 and was raised to the priority of task 2, which waits for it and owns mutex 1. The running
      task 3, of higher priority, is about to ask for mutex 1. */
  function ChainState(): K {
    var ready := NO_TCB.(state := RDY);
    K(map[0 := ready.(prio := 4), 1 := ready.(prio := 2),
        2 := NO_TCB.(state := PEND, prio := 2, pendOn := OnMutex, tbl := Entry(2)), 3 := ready.(prio := 1)],
      [[], [3], [1], [], [0]], {1, 2, 4}, [[]], map[1 := [], 2 := [2]],
      map[1 := Mutex(Some(2), 1, 2), 2 := Mutex(Some(1), 1, 3)], 0, 3, 1, 0, 0)
  }

  lemma ChainReady()
    ensures ReadyInv(ChainState())
  {
    hide ReadyInv;
    var k := ChainState();
    assert forall t: Tid :: RdyAt(Get(k, t)) == if t == 0 then 4 else if t == 1 then 2 else if t == 3 then 1 else -1;
    ThreeReady(k);
  }

  lemma ThreeReady(k: K)
    requires forall t: Tid :: RdyAt(Get(k, t)) == if t == 0 then 4 else if t == 1 then 2 else if t == 3 then 1 else -1
    requires k.rdy == [[], [3], [1], [], [0]] && k.prios == {1, 2, 4}
    ensures ReadyInv(k)
  {
    hide Get, RdyAt;
    assert forall x: Tid, t: Tid :: Count([x], t) == if t == x then 1 else 0;
    assert k.rdy[0] == [] && k.rdy[1] == [3] && k.rdy[2] == [1] && k.rdy[3] == [] && k.rdy[4] == [0];
  }

  lemma ChainTables()
    ensures forall t: Tid, o: Oid :: Listed(Get(ChainState(), t).tbl, o) <==> t == 2 && o == 2
  {
    var k := ChainState();
    forall t: Tid, o: Oid ensures Listed(Get(k, t).tbl, o) <==> t == 2 && o == 2 {
      EntryLists(o);
      assert Get(k, t).tbl == if t == 2 then Entry(2) else [];
    }
  }

  lemma ChainWaits()
    ensures WaitInv(ChainState())
  {
    hide Listed;
    var k := ChainState();
    ChainTables();
    assert forall t: Tid :: Count([2], t) == if t == 2 then 1 else 0;
    assert k.wait[1] == [] && k.wait[2] == [2];
  }

  lemma ChainWheelTcbs()
    ensures WheelInv(ChainState()) && TcbInv(ChainState())
  {
    hide TcbOk;
    var k := ChainState();
    assert forall t: Tid :: Get(k, t).spoke == -1;
    assert forall t: Tid :: t in k.tcb ==> t == 0 || t == 1 || t == 2 || t == 3;
    ChainTcbs(k);
  }

  lemma ChainTcbs(k: K)
    requires k == ChainState()
    ensures forall t: Tid :: t <= 3 ==> TcbOk(k.tcb[t], 5, 1, 0)
  {
    var b := k.tcb[2];
    assert b.tbl == Entry(2) && b.tbl[1..] == [];
    assert TcbOk(b, 5, 1, 0);
  }

  lemma ChainObjs()
    ensures ObjInv(ChainState()) && CurOk(ChainState()) && Inherited(ChainState())
  {
    var k := ChainState();
    ChainTables();
    assert ObjOk(k, 1, k.obj[1]);
    assert ObjOk(k, 2, k.obj[2]);
    assert forall t: Tid, o: Oid :: Awaits(k, t, o) ==> t == 2 && o == 2;
  }

  /** The bound can indeed be lost: mutex 2 is then awaited at priority 1 while its owner runs at priority 2. */
  lemma ChainBreaksInheritance()
    ensures Inv(ChainState()) && Inherited(ChainState()) && !Inherited(MutexPend(ChainState(), 1, 0, false).k)
  {
    hide ReadyInv, WheelInv, WaitInv, TcbInv, ObjInv, Inherited, MutexPend;
    var k := ChainState();
    ChainReady();
    ChainTables();
    ChainWaits();
    ChainWheelTcbs();
    ChainObjs();
    assert Holds(k, 1, 2) && Awaits(k, 2, 2) && Holds(k, 2, 1);
    RaiseIsNotChained(k, 1, 2, 0);
  }

  /** The last release gives the owner its original priority back exactly when somebody waits, or when it was never
      raised. */
  lemma ReleaseRestoresExactly(k: K, o: Oid, noSched: bool)
    requires Inv(k) && Holds(k, k.cur, o) && Object(k, o).nest == 1
    ensures Get(MutexPost(k, o, noSched).k, k.cur).prio == Object(k, o).orig <==>
      Waiters(k, o) != [] || Get(k, k.cur).prio == Object(k, o).orig
  {
    hide Inv, MaybeSched, RestoreCur, Wake;
    if Waiters(k, o) != [] {
      GrantEffect(k, o, noSched);
    }
  }

  // ------------------------------------------------------------------------------- ownership and nesting

  /** The calls of t on mutex o: +1 for an acquisition, -1 for a release. */
  function NestChange(k: K, op: Op, o: Oid, t: Tid): int {
    if k.cur != t then 0
    else if op.OpMutexPend? && op.o == o then 1
    else if op.OpMutexPost? && op.o == o then -1
    else 0
  }

  /** A mutex is lost only through the last release by its owner, or by deletion; until then the nesting counter counts
      acquisitions minus releases. */
  lemma OwnershipStep(k: K, op: Op, o: Oid, t: Tid)
    requires Inv(k) && WellUsed(k, op) && Harmless(k, op) && Holds(k, t, o) && !op.OpMutexDel?
    ensures Holds(Step(k, op), t, o) <==> Object(k, o).nest + NestChange(k, op, o, t) > 0
    ensures Holds(Step(k, op), t, o) ==>
      Object(Step(k, op), o) == Object(k, o).(nest := Object(k, o).nest + NestChange(k, op, o, t))
  {
    hide Inv, Step, WellUsed;
    OwnerNest(k, o);
    if op.OpMutexPend? && op.o == o {
      PendNest(k, op, t);
    } else if op.OpMutexPost? && op.o == o {
      PostNest(k, op, t);
    } else if !Targets(op, o) {
      StepObj(k, op, o);
    } else {
      RefusedOnMutex(k, op, o);
    }
  }

  lemma OwnerNest(k: K, o: Oid)
    requires Inv(k) && Object(k, o).Mutex? && Object(k, o).owner.Some?
    ensures 0 < Object(k, o).nest < 256
  {
    hide CoreInv;
    ObjOkOf(k, o);
  }

  lemma PendNest(k: K, op: Op, t: Tid)
    requires Inv(k) && Harmless(k, op) && op.OpMutexPend? && Holds(k, t, op.o) && 0 < Object(k, op.o).nest < 256
    ensures Object(Step(k, op), op.o) == Object(k, op.o).(nest := Object(k, op.o).nest + if k.cur == t then 1 else 0)
  {
    hide Inv, RaiseOwner, Block, BlockedTcb, Sched;
    if k.cur != t {
      MutexBlockTcbs(k, op.o, t, op.timeout);
    }
  }

  lemma PostNest(k: K, op: Op, t: Tid)
    requires Inv(k) && op.OpMutexPost? && Holds(k, t, op.o) && 0 < Object(k, op.o).nest
    ensures var n := Object(k, op.o).nest - if k.cur == t then 1 else 0;
      && (n > 0 ==> Object(Step(k, op), op.o) == Object(k, op.o).(nest := n))
      && (n == 0 ==> !Holds(Step(k, op), t, op.o))
  {
    hide Inv, RestoreCur, Wake, MaybeSched;
    if k.cur == t && Waiters(k, op.o) != [] && Object(k, op.o).nest == 1 {
      GrantEffect(k, op.o, op.noSched);
    }
  }

  /** A call on a mutex through the services of another kind of object is refused. */
  lemma RefusedOnMutex(k: K, op: Op, o: Oid)
    requires Inv(k) && WellUsed(k, op) && Object(k, o).Mutex? && Targets(op, o) && !MutexOp(op)
    ensures Object(Step(k, op), o) == Object(k, o)
  {
    hide Inv, Step;
    if op.OpSemPend? || op.OpSemPost? || op.OpSemSet? {
      SemObj(k, op, o);
    } else if op.OpQPend? || op.OpQPost? || op.OpQFlush? {
      QObj(k, op, o);
    } else if op.OpFlagPend? || op.OpFlagConsume? || op.OpFlagPost? {
      FlagObj(k, op, o);
    } else if op.OpObjDel? {
      DelAbortObj(k, op, o);
    } else if op.OpMultiPend? {
      MultiRefused(k, op, o);
    }
  }

  lemma MultiRefused(k: K, op: Op, o: Oid)
    requires op.OpMultiPend? && Object(k, o).Mutex?
    ensures Object(Step(k, op), o) == Object(k, o)
  {
    hide MultiPend;
    MultiObj(k, op.tbl, op.timeout, op.nonBlocking, o);
  }

  /** t owns o in every state of the run. */
  predicate HeldThroughout(k: K, ops: seq<Op>, o: Oid, t: Tid)
    decreases |ops|
  {
    Holds(k, t, o) && (ops == [] || HeldThroughout(Step(k, ops[0]), ops[1..], o, t))
  }

  /** Acquisitions minus releases of o by t over the run. */
  function NetNesting(k: K, ops: seq<Op>, o: Oid, t: Tid): int
    decreases |ops|
  {
    if ops == [] then 0 else NestChange(k, ops[0], o, t) + NetNesting(Step(k, ops[0]), ops[1..], o, t)
  }

  lemma {:induction false} NestingOverRuns(k: K, ops: seq<Op>, o: Oid, t: Tid)
    requires Inv(k) && Proper(k, ops) && HeldThroughout(k, ops, o, t)
    requires forall op: Op :: op in ops ==> !op.OpMutexDel?
    ensures Object(After(k, ops), o).Mutex? && Object(After(k, ops), o).nest == Object(k, o).nest + NetNesting(k, ops, o, t)
    decreases |ops|
  {
    hide Inv, Step, WellUsed, Harmless, NestChange;
    if ops != [] {
      StepKeeps(k, ops[0]);
      OwnershipStep(k, ops[0], o, t);
      NestingOverRuns(Step(k, ops[0]), ops[1..], o, t);
    }
  }
}
