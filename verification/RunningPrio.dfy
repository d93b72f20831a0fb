/** OSPrioCur, the priority of the running task. The scheduler sets it when it switches to another task; two services
    change the priority of the running task without setting it and leave it stale if no switch follows. This module says
    exactly when, and that no other call does.
  */
module RunningPrio {
  import opened TaskLists
  import opened KernelState
  import opened KernelOps
  import opened ObjKept
  import opened WakeMany
  import opened Services
  import opened ServicesKept
  import opened ObjectsKept
  import opened MutexKept
  import opened TickWheel
  import opened Departures
  import opened Run
  import opened Effects
  import opened MutexRun
  import opened Broadcast
  import opened Frames
  import opened Scheduling

  /** OSPrioCur is that of the running task. */
  predicate PrioCurRight(k: K) {
    k.prioCur == Get(k, k.cur).prio
  }

  /** Another task is ready and stands in front of priority p: above it, or at it too if the running task goes to the
      tail of its list. */
  predicate Ahead(k: K, x: Tid, p: nat, atTail: bool) {
    x != k.cur && Get(k, x).state == RDY && (Get(k, x).prio < p || (atTail && Get(k, x).prio == p))
  }

  ghost predicate Overtaken(k: K, p: nat, atTail: bool) {
    exists x: Tid :: Ahead(k, x, p, atTail)
  }

  /** A switch sets OSPrioCur. */
  lemma SchedRight(k: K)
    requires ListsInv(k) && Get(k, k.idle).state == RDY && PrioCurRight(k)
    ensures PrioCurRight(Sched(k))
  {
    hide WheelInv, WaitInv, ObjInv;
    FirstReadyHead(k);
    SchedKeepsTcbs(k, false);
  }

  /** The running task is at one end of its ready list. Afterwards OSPrioCur is right if it was, or if a task ahead of it
      takes over. */
  lemma SchedOvertakes(k: K, q: seq<Tid>, atTail: bool)
    requires ListsInv(k) && CurOk(k) && k.lock == 0 && Get(k, k.cur).prio < |k.rdy|
    requires k.rdy[Get(k, k.cur).prio] == if atTail then q + [k.cur] else [k.cur] + q
    ensures PrioCurRight(Sched(k)) <==> PrioCurRight(k) || exists x: Tid :: Ahead(k, x, Get(k, k.cur).prio, atTail)
  {
    hide ReadyInv, TcbInv, WheelInv, WaitInv, ObjInv, FirstReady;
    var p := Get(k, k.cur).prio;
    FirstReadyHead(k);
    SchedKeepsTcbs(k, false);
    var h := k.rdy[FirstReady(k.rdy, 0)][0];
    if FirstReady(k.rdy, 0) < p {
      assert Ahead(k, h, p, atTail);
    } else if atTail {
      AtTailAhead(k, q);
      assert q != [] ==> Ahead(k, h, p, atTail);
    }
  }

  lemma AtTailAhead(k: K, q: seq<Tid>)
    requires ReadyInv(k) && Get(k, k.cur).state == RDY && Get(k, k.cur).prio < |k.rdy|
    requires k.rdy[Get(k, k.cur).prio] == q + [k.cur]
    ensures q != [] ==> q[0] != k.cur
    ensures q == [] ==> forall x: Tid :: Get(k, x).state == RDY && Get(k, x).prio == Get(k, k.cur).prio ==> x == k.cur
  {
    var p := Get(k, k.cur).prio;
    forall x: Tid ensures Count(q, x) == if RdyAt(Get(k, x)) == p && x != k.cur then 1 else 0 {
      CountCat(q, [k.cur], x);
      assert Count(k.rdy[p], x) == if RdyAt(Get(k, x)) == p then 1 else 0;
    }
    if q != [] {
      CountPositive(q, 0);
    }
  }

  // --------------------------------------------------------------------------------- OSTaskChangePrio

  lemma MovedShape(k: K, t: Tid, p: nat, atTail: bool)
    requires p < |k.rdy|
    ensures var k1 := MoveReady(k, t, p, atTail);
      && |k1.rdy| == |k.rdy| && k1.lock == k.lock && k1.idle == k.idle && k1.cur == k.cur && k1.prioCur == k.prioCur
      && exists q: seq<Tid> :: k1.rdy[p] == if atTail then q + [t] else [t] + q
  {
    hide Drop;
    var q := RdyRemove(k, t).rdy[p];
    assert MoveReady(k, t, p, atTail).rdy[p] == if atTail then q + [t] else [t] + q;
  }

  lemma OwnPrioChanged(k: K, p: nat, atTail: bool)
    requires Inv(k) && p < |k.rdy| && PrioCurRight(k)
    ensures var k' := Sched(MoveReady(k, k.cur, p, atTail));
      PrioCurRight(k') <==> p == Get(k, k.cur).prio || (k.lock == 0 && exists x: Tid :: Ahead(k, x, p, atTail))
  {
    hide CoreInv, ObjInv, MoveReady, Sched, RdyAt;
    var k1 := MoveReady(k, k.cur, p, atTail);
    MovedShape(k, k.cur, p, atTail);
    MovedSound(k, p, atTail);
    assert forall x: Tid :: Ahead(k1, x, p, atTail) <==> Ahead(k, x, p, atTail);
    if k.lock == 0 {
      var q: seq<Tid> :| k1.rdy[p] == if atTail then q + [k.cur] else [k.cur] + q;
      SchedOvertakes(k1, q, atTail);
    } else {
      LockedSched(k1);
    }
  }

  lemma LockedSched(k: K)
    requires k.lock > 0
    ensures Sched(k) == k
  {
  }

  lemma MovedSound(k: K, p: nat, atTail: bool)
    requires Inv(k) && p < |k.rdy|
    ensures var k1 := MoveReady(k, k.cur, p, atTail);
      && ListsInv(k1) && CurOk(k1) && k1.tcb == k.tcb[k.cur := Get(k, k.cur).(prio := p)]
  {
    hide CoreInv, ObjInv, MoveReady;
    OwnerPrioInv(k, k.cur, p, atTail);
    MovePrioTcb(k, k.cur, p, atTail);
    assert SetOwnerPrio(k, k.cur, p, atTail) == MoveReady(k, k.cur, p, atTail);
  }

  /** Another task's priority changes: OSPrioCur stays right. */
  lemma OtherPrioChanged(k: K, t: Tid, p: nat, atTail: bool)
    requires Inv(k) && p < |k.rdy| && PrioCurRight(k) && t != k.cur && Get(k, t).state.Live?
    ensures PrioCurRight(Sched(ChangePrio(k, t, p, atTail)))
  {
    hide CoreInv, ObjInv, ChangePrio, Sched;
    var k1 := ChangePrio(k, t, p, atTail);
    ChangePrioKept(k, t, p, atTail);
    OneTaskInv(k, t, k1);
    PrioClock(k, t, p, atTail);
    SchedRight(k1);
  }

  /** OSTaskChangePrio leaves OSPrioCur right, if it was, if and only if it is not the running task whose priority
      really changes, or a task ahead of it takes over. `self` is the call that names no task; it puts the running task
      at the head of its new list, a call that names it at the tail. */
  lemma PrioCurStaleExactly(k: K, t: Tid, p: nat, self: bool)
    requires Inv(k) && PrioCurRight(k)
    ensures PrioCurRight(TaskChangePrio(k, t, p, self).k) <==>
      p + 1 >= |k.rdy| || t != k.cur || p == Get(k, k.cur).prio || (k.lock == 0 && Overtaken(k, p, !self))
  {
    hide CoreInv, ObjInv, ChangePrio, Sched, Ahead;
    if p + 1 < |k.rdy| && Get(k, t).state != Deleted {
      if t == k.cur {
        OwnPrioChanged(k, p, !self);
        OwnMoves(k, p, !self);
      } else {
        OtherPrioChanged(k, t, p, !self);
      }
    }
  }

  lemma OwnMoves(k: K, p: nat, atTail: bool)
    requires CurOk(k)
    ensures ChangePrio(k, k.cur, p, atTail) == MoveReady(k, k.cur, p, atTail)
  {
  }

  // ----------------------------------------------------------------------------------------- OSMutexDel

  /** A task that is ready once the waiters of o have been woken, and stands in front of priority p at whose tail the
      running task is put. */
  predicate AheadOnceWoken(k: K, o: Oid, x: Tid, p: nat) {
    && x != k.cur && Get(k, x).prio <= p
    && (Get(k, x).state == RDY || (Listed(Get(k, x).tbl, o) && Get(k, x).state.Live? && !Get(k, x).state.susp))
  }

  /** The state in which the deletion of a mutex of the running task leaves the kernel before the scheduler runs. */
  function AfterWakes(k: K, o: Oid, p: nat): K {
    SetObj(WakeAll(MoveReady(k, k.cur, p, true), Waiters(k, o), ObjDeleted(Some(o))), o, Gone)
  }

  lemma WakesSound(k: K, o: Oid)
    requires Inv(k) && Holds(k, k.cur, o)
    ensures Object(k, o).orig < |k.rdy|
    ensures var k1 := MoveReady(k, k.cur, Object(k, o).orig, true);
      Inv(k1) && AllWaiters(k1, Waiters(k, o), o) && |k1.rdy| == |k.rdy| && AllPend(k1, Waiters(k, o))
    ensures var k3 := AfterWakes(k, o, Object(k, o).orig);
      ListsInv(k3) && k3.cur == k.cur && k3.lock == k.lock && k3.idle == k.idle && CurOk(k3)
  {
    hide CoreInv, MoveReady, WakeAll;
    var p := Object(k, o).orig;
    OwnerLive(k, o);
    OwnerPrioInv(k, k.cur, p, true);
    assert SetOwnerPrio(k, k.cur, p, true) == MoveReady(k, k.cur, p, true);
    var k1 := MoveReady(k, k.cur, p, true);
    MovePrioTcb(k, k.cur, p, true);
    ObjOkOf(k, o);
    RepricedWaiters(k, k1, o);
    OwnedPend(k, o, k1);
    WakeAllEmpties(k1, Waiters(k, o), o, ObjDeleted(Some(o)));
    SetObjKept(WakeAll(k1, Waiters(k, o), ObjDeleted(Some(o))), o, Gone);
  }

  /** Priorities do not matter to who waits. */
  lemma RepricedWaiters(k: K, k1: K, o: Oid)
    requires CoreInv(k) && CoreInv(k1) && k1.wait.Keys == k.wait.Keys && o in k.wait
    requires forall t: Tid :: Get(k1, t).tbl == Get(k, t).tbl
    ensures AllWaiters(k1, Waiters(k, o), o)
  {
    hide ReadyInv, WheelInv, TcbInv;
    SameWaiters(k, k1, o);
  }

  /** The TCBs before the scheduler runs, and the running task's place. */
  lemma WakesShape(k: K, o: Oid)
    requires Inv(k) && Holds(k, k.cur, o) && Object(k, o).orig != k.prioCur
    ensures var p := Object(k, o).orig; var k3 := AfterWakes(k, o, p);
      && p < |k3.rdy| && k3.prioCur == k.prioCur
      && exists q: seq<Tid> :: k3.rdy[p] == q + [k.cur]
  {
    hide CoreInv, ObjInv, CurOk, MoveReady, WakeAll;
    var p := Object(k, o).orig;
    var w, ev := Waiters(k, o), ObjDeleted(Some(o));
    WakesSound(k, o);
    MovedShape(k, k.cur, p, true);
    var k1 := MoveReady(k, k.cur, p, true);
    var q: seq<Tid> :| k1.rdy[p] == q + [k.cur];
    WakeAllOrder(k1, w, ev, p);
    WakeAllClock(k1, w, ev);
    var r := Reversed(Readied(k1, w, p));
    assert r + (q + [k.cur]) == (r + q) + [k.cur];
    assert AfterWakes(k, o, p).rdy[p] == (r + q) + [k.cur];
  }

  lemma WakesTcb(k: K, o: Oid, x: Tid)
    requires Inv(k) && Holds(k, k.cur, o)
    ensures var p := Object(k, o).orig; var b := Get(k, x);
      Get(AfterWakes(k, o, p), x) == if x == k.cur then b.(prio := p)
        else if Listed(b.tbl, o) then Finish(b, ObjDeleted(Some(o))) else b
  {
    hide CoreInv, ObjInv, CurOk, MoveReady, WakeAll, Finish, AllPend, AllWaiters;
    var p := Object(k, o).orig;
    var w, ev := Waiters(k, o), ObjDeleted(Some(o));
    WakesSound(k, o);
    MovePrioTcb(k, k.cur, p, true);
    var k1 := MoveReady(k, k.cur, p, true);
    WakeAllAt(k1, w, ev, x);
    InListOf(k, o, x);
    OwnerUnlisted(k, o);
  }

  lemma InListOf(k: K, o: Oid, x: Tid)
    requires Inv(k)
    ensures Count(Waiters(k, o), x) > 0 <==> Listed(Get(k, x).tbl, o)
  {
    hide CoreInv, ObjInv;
    InList(k, o, x);
  }

  lemma OwnerUnlisted(k: K, o: Oid)
    requires Inv(k) && Holds(k, k.cur, o)
    ensures !Listed(Get(k, k.cur).tbl, o)
  {
    hide CoreInv;
    OwnerLive(k, o);
  }

  lemma AheadSame(k: K, o: Oid, x: Tid)
    requires Inv(k) && Holds(k, k.cur, o)
    ensures var p := Object(k, o).orig; var k3 := AfterWakes(k, o, p);
      k3.cur == k.cur && (Ahead(k3, x, p, true) <==> AheadOnceWoken(k, o, x, p))
  {
    hide CoreInv, ObjInv, AfterWakes;
    var p := Object(k, o).orig;
    WakesSound(k, o);
    WakesTcb(k, o, x);
    FinishOwn(Get(k, x), ObjDeleted(Some(o)));
    if Listed(Get(k, x).tbl, o) {
      InListOf(k, o, x);
      ListedBlocked(k, o, x);
    }
  }

  lemma ListedBlocked(k: K, o: Oid, x: Tid)
    requires Inv(k) && Listed(Get(k, x).tbl, o)
    ensures Get(k, x).state.Live? && Get(k, x).state.pend
  {
    hide CoreInv, ObjInv;
    InList(k, o, x);
    WaiterPends(k, x, o);
  }

  lemma DelOwnExactly(k: K, o: Oid)
    requires Inv(k) && PrioCurRight(k) && Holds(k, k.cur, o) && Object(k, o).orig != k.prioCur
    ensures PrioCurRight(Sched(AfterWakes(k, o, Object(k, o).orig))) <==>
      k.lock == 0 && exists x: Tid :: AheadOnceWoken(k, o, x, Object(k, o).orig)
  {
    hide CoreInv, ObjInv, AfterWakes, Sched, Ahead, AheadOnceWoken;
    var p := Object(k, o).orig;
    var k3 := AfterWakes(k, o, p);
    WakesSound(k, o);
    WakesShape(k, o);
    WakesTcb(k, o, k.cur);
    forall x: Tid ensures Ahead(k3, x, p, true) <==> AheadOnceWoken(k, o, x, p) {
      AheadSame(k, o, x);
    }
    if k.lock == 0 {
      var q: seq<Tid> :| k3.rdy[p] == q + [k.cur];
      SchedOvertakes(k3, q, true);
    } else {
      LockedSched(k3);
    }
  }

  /** OSMutexDel leaves OSPrioCur right, if it was, if and only if it does not change the running task's priority, or a
      task ahead of the running task takes over: one that was ready, or one that the deletion makes ready. */
  lemma PrioCurStaleAfterDel(k: K, o: Oid, always: bool)
    requires Inv(k) && PrioCurRight(k)
    ensures PrioCurRight(MutexDel(k, o, always).k) <==>
      !always || !Holds(k, k.cur, o) || Object(k, o).orig == Get(k, k.cur).prio
      || (k.lock == 0 && exists x: Tid :: AheadOnceWoken(k, o, x, Object(k, o).orig))
  {
    hide CoreInv, ObjInv, WakeAll, Sched, AheadOnceWoken, MoveReady;
    if always && Object(k, o).Mutex? {
      if Holds(k, k.cur, o) && Object(k, o).orig != Get(k, k.cur).prio {
        DelOwnExactly(k, o);
      } else {
        DelOtherRight(k, o);
      }
    }
  }

  lemma DelOtherRight(k: K, o: Oid)
    requires Inv(k) && PrioCurRight(k) && Object(k, o).Mutex?
    requires !Holds(k, k.cur, o) || Object(k, o).orig == Get(k, k.cur).prio
    ensures PrioCurRight(MutexDel(k, o, true).k)
  {
    hide CoreInv, ObjInv, WakeAll, Sched, SetOwnerPrio;
    var w, ev := Waiters(k, o), ObjDeleted(Some(o));
    var owner, orig := Object(k, o).owner, Object(k, o).orig;
    var k1 := if owner.Some? && Get(k, owner.value).prio != orig then SetOwnerPrio(k, owner.value, orig, true) else k;
    if owner.Some? {
      OwnerLive(k, o);
      OwnerPrioInv(k, owner.value, orig, true);
      PrioClock(k, owner.value, orig, true);
    }
    ObjOkOf(k, o);
    RepricedWaiters(k, k1, o);
    WakeAllEmpties(k1, w, o, ev);
    WakeAllClock(k1, w, ev);
    var k2 := WakeAll(k1, w, ev);
    SetObjKept(k2, o, Gone);
    SchedRight(SetObj(k2, o, Gone));
  }

  // ------------------------------------------------------------------------------------------ every call

  /** The head of a ready list has the priority of the list. */
  lemma SwitchedRight(k: K)
    requires CoreInv(k) && Switched(k)
    ensures PrioCurRight(k)
  {
    hide WheelInv, WaitInv, TcbInv, FirstReady;
    var p := FirstReady(k.rdy, 0);
    CountPositive(k.rdy[p], 0);
    assert Count(k.rdy[p], k.cur) == if RdyAt(Get(k, k.cur)) == p then 1 else 0;
  }

  /** What the running task keeps: unless the call is about its priority it has the same one, if it is still running. */
  lemma OwnPrioStays(k: K, op: Op)
    requires Inv(k) && WellUsed(k, op) && Harmless(k, op) && !op.OpChangePrio? && !op.OpMutexPost? && !op.OpMutexDel?
    requires Step(k, op).cur == k.cur
    ensures Get(Step(k, op), k.cur).prio == Get(k, k.cur).prio
  {
    hide Inv, WellUsed, Harmless, Call, Eased, SameOwn;
    if k.cur !in About(k, op) {
      StepCalm(k, op);
      EasedPrio(Get(k, k.cur), Get(Step(k, op), k.cur));
    } else if op.OpTaskCreate? || op.OpTaskDel? {
      StillRuns(k, op);
    } else if op.OpMutexPend? {
      MutexPendPrio(k, op);
    } else {
      PendPrio(k, op);
    }
  }

  lemma EasedPrio(b: Tcb, b': Tcb)
    requires Eased(b, b')
    ensures b'.prio == b.prio
  {
  }

  /** A task that was deleted does not run on, and a task that runs is not created. */
  lemma StillRuns(k: K, op: Op)
    requires Inv(k) && WellUsed(k, op) && Harmless(k, op) && (op.OpTaskCreate? || op.OpTaskDel?) && op.t == k.cur
    requires Step(k, op).cur == k.cur
    ensures Get(Step(k, op), k.cur) == Get(k, k.cur)
  {
    hide CoreInv, ObjInv, Harmless, Call;
    StepKeeps(k, op);
    if Get(Step(k, op), k.cur) != Get(k, k.cur) {
      CreateDelTcb(k, op);
      DeletedOrNew(k, op);
    }
  }

  lemma DeletedOrNew(k: K, op: Op)
    requires op.OpTaskDel? && Get(Step(k, op), op.t) != Get(k, op.t)
    ensures Get(Step(k, op), op.t).state == Deleted
  {
    hide RdyRemove, WheelDrop, UnlinkAll;
  }

  lemma MutexPendPrio(k: K, op: Op)
    requires op.OpMutexPend?
    ensures Get(Step(k, op), k.cur).prio == Get(k, k.cur).prio
  {
    hide RaiseOwner, Block, BlockedTcb, Sched;
    match Object(k, op.o)
    case Mutex(Some(w), nest, orig) =>
      if w != k.cur {
        MutexBlockTcbs(k, op.o, w, op.timeout);
        BlockedFields(Get(k, k.cur), OnMutex, Entry(op.o), op.timeout, k.now, |k.wheel|);
      }
    case _ =>
  }

  lemma PendPrio(k: K, op: Op)
    requires k.cur in About(k, op) && !MutexOp(op) && !op.OpTaskCreate? && !op.OpTaskDel? && !op.OpChangePrio?
    ensures Get(Step(k, op), k.cur).prio == Get(k, k.cur).prio
  {
    hide Call, NotOnFlag;
    if op.OpSemPend? || op.OpQPend? {
      SemQPends(k, op);
    } else if op.OpFlagPend? {
      FlagPends(k, op);
    } else if op.OpMultiPend? {
      MultiPends(k, op);
    } else {
      TaskPends(k, op);
    }
  }

  lemma PlainCallRight(k: K, op: Op)
    requires Inv(k) && WellUsed(k, op) && Harmless(k, op) && PrioCurRight(k)
    requires !op.OpTick? && !op.OpChangePrio? && !op.OpMutexPost? && !op.OpMutexDel?
    ensures PrioCurRight(Step(k, op))
  {
    hide CoreInv, ObjInv, CurOk, WellUsed, Harmless, Call, Switched;
    StepKeeps(k, op);
    StepOutcome(k, op);
    if Switched(Step(k, op)) {
      SwitchedRight(Step(k, op));
    } else {
      OwnPrioStays(k, op);
    }
  }

  lemma TickRight(k: K)
    requires Inv(k) && PrioCurRight(k)
    ensures PrioCurRight(TickUpdate(k))
  {
    hide CoreInv, ObjInv, TickUpdate;
    TickListsInv(k);
    TickKeepsPrioCur(k);
  }

  lemma TickKeepsPrioCur(k: K)
    ensures TickUpdate(k).prioCur == k.prioCur
  {
    var k1 := k.(now := Add32(k.now, 1));
    var i := SpokeOf(k1.now, |k.wheel|);
    if i < |k.wheel| {
      ExpireDuePrioCur(k1, k.wheel[i]);
    }
  }

  lemma {:induction false} ExpireDuePrioCur(k: K, q: seq<Tid>)
    ensures ExpireDue(k, q).prioCur == k.prioCur
    decreases |q|
  {
    hide Wake;
    if q != [] {
      var ev := if Get(k, q[0]).state.Live? && Get(k, q[0]).state.pend then TimedOut else DelayOver;
      WakeClock(k, q[0], ev);
      ExpireDuePrioCur(Expire(k, q[0]), q[1..]);
      ExpireDuePrioCur(k, q[1..]);
    }
  }

  /** A release sets OSPrioCur together with the priority. */
  lemma ReleaseRight(k: K, o: Oid, noSched: bool)
    requires Inv(k) && PrioCurRight(k)
    ensures PrioCurRight(MutexPost(k, o, noSched).k)
  {
    hide CoreInv, ObjInv, RestoreCur, Wake, MaybeSched, Switched;
    if Holds(k, k.cur, o) && Object(k, o).nest <= 1 && Waiters(k, o) != [] {
      var k1, h := RestoreCur(k, Object(k, o).orig), Waiters(k, o)[0];
      var k2 := SetObj(k1, o, Mutex(Some(h), 1, Get(k1, h).prio));
      var k3 := Wake(k2, h, Posted(Some(o), NO_MSG));
      GrantEffect(k, o, noSched);
      MutexPostInv(k, o, noSched);
      RestoreClock(k, Object(k, o).orig);
      WakeClock(k2, h, Posted(Some(o), NO_MSG));
      SchedOutcome(k3, OpMutexPost(o, noSched), k3, noSched);
      AfterRelease(k3, MaybeSched(k3, noSched), noSched);
    }
  }

  lemma AfterRelease(k: K, k': K, noSched: bool)
    requires CoreInv(k') && k' == MaybeSched(k, noSched)
    ensures k' == k || PrioCurRight(k')
  {
    hide CoreInv, FirstReady;
    if k' != k {
      FirstReadyStops(k.rdy, 0);
      SwitchedRight(k');
    }
  }

  /** The calls that keep OSPrioCur right: all but a change of the running task's priority after which it runs on. */
  ghost predicate KeepsPrioCur(k: K, op: Op) {
    match op
    case OpChangePrio(t, p, self) =>
      p + 1 >= |k.rdy| || t != k.cur || p == Get(k, k.cur).prio || (k.lock == 0 && Overtaken(k, p, !self))
    case OpMutexDel(o, always) =>
      !always || !Holds(k, k.cur, o) || Object(k, o).orig == Get(k, k.cur).prio
      || (k.lock == 0 && exists x: Tid :: AheadOnceWoken(k, o, x, Object(k, o).orig))
    case _ => true
  }

  lemma TickStep(k: K)
    ensures Step(k, OpTick) == TickUpdate(k)
  {
    hide TickUpdate;
  }

  /** The step theorem. */
  lemma PrioCurKeptExactly(k: K, op: Op)
    requires Inv(k) && WellUsed(k, op) && Harmless(k, op) && PrioCurRight(k)
    ensures PrioCurRight(Step(k, op)) <==> KeepsPrioCur(k, op)
  {
    hide Inv, WellUsed, Harmless, Call, PrioCurRight, TaskChangePrio, MutexDel, MutexPost, TickUpdate, Ahead,
      AheadOnceWoken;
    if op.OpMutexPost? || op.OpMutexDel? {
      MutexSteps(k, op);
    } else if op.OpChangePrio? {
      PrioStep(k, op);
    } else if op.OpTick? {
      TickStep(k);
    }
    match op {
      case OpChangePrio(t, p, self) => PrioCurStaleExactly(k, t, p, self);
      case OpMutexDel(o, always) => PrioCurStaleAfterDel(k, o, always);
      case OpMutexPost(o, noSched) => ReleaseRight(k, o, noSched);
      case OpTick => TickRight(k);
      case _ => PlainCallRight(k, op);
    }
  }

  ghost predicate RightThroughout(k: K, ops: seq<Op>)
    decreases |ops|
  {
    PrioCurRight(k) && (ops == [] || RightThroughout(Step(k, ops[0]), ops[1..]))
  }

  ghost predicate PrioCurKept(k: K, ops: seq<Op>)
    decreases |ops|
  {
    ops == [] || (KeepsPrioCur(k, ops[0]) && PrioCurKept(Step(k, ops[0]), ops[1..]))
  }

  /** Over every run of guarded calls OSPrioCur is right in every state if and only if every call meets its condition. */
  lemma {:induction false} PrioCurOverRunsExactly(k: K, ops: seq<Op>)
    requires Inv(k) && Proper(k, ops) && PrioCurRight(k)
    ensures RightThroughout(k, ops) <==> PrioCurKept(k, ops)
    decreases |ops|
  {
    hide Inv, WellUsed, Harmless, Step, PrioCurRight, KeepsPrioCur;
    if ops != [] {
      PrioCurKeptExactly(k, ops[0]);
      StepKeeps(k, ops[0]);
      if KeepsPrioCur(k, ops[0]) {
        PrioCurOverRunsExactly(Step(k, ops[0]), ops[1..]);
      }
    }
  }
}
