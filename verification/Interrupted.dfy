/** Interrupts between a task's going to sleep and the scheduling that follows. The source leaves the critical section in
    between, so that an interrupt may post while the running task is on no ready list any more. The data agree all the
    same, and apart from the order within the ready lists the outcome is that of posts right after the scheduling: this
    is why a call that blocks may count as one step.
  */
module Interrupted {
  import opened TaskLists
  import opened KernelState
  import opened KernelOps
  import opened ObjKept
  import opened Services
  import opened FlagsMultiKept
  import opened Departures
  import opened Run
  import opened Frames
  import opened Scheduling

  /** The calls an interrupt makes: posts, which do not schedule before the interrupt is left. */
  predicate FromIsr(op: Op) {
    (op.OpSemPost? || op.OpQPost? || op.OpFlagPost? || op.OpTaskSemPost? || op.OpTaskQPost?) && op.noSched
  }

  ghost predicate IsrRun(ops: seq<Op>) {
    forall op: Op :: op in ops ==> FromIsr(op)
  }

  /** The call takes the caller off the ready lists. */
  predicate GoesToSleep(k: K, op: Op) {
    match op
    case OpDly(_, _) => Call(k, op).err == ErrNone
    case OpSuspend(t) => t == k.cur && Call(k, op).err == ErrNone
    case OpTaskDel(t) => t == k.cur && Call(k, op).err == ErrNone
    case _ => Pends(op) && Call(k, op).err == Blocked
  }

  /** The state in which such a call leaves its critical section and has not called the scheduler yet. */
  function Asleep(k: K, op: Op): K {
    var b := Get(k, k.cur);
    match op
    case OpDly(dly, opt) => Sleep(k, k.cur, Timed(b.(state := DLY), k.now, |k.wheel|, dly, opt))
    case OpSuspend(_) => SuspendTask(k, k.cur)
    case OpTaskDel(_) => Put(RdyRemove(k, k.cur), k.cur, NO_TCB.(prio := |k.rdy|))
    case OpSemPend(o, timeout, _) => Block(k, k.cur, OnSem, Entry(o), timeout)
    case OpQPend(o, timeout, _) => Block(k, k.cur, OnQ, Entry(o), timeout)
    case OpMutexPend(o, timeout, _) =>
      var owner := if Object(k, o).Mutex? && Object(k, o).owner.Some? then Object(k, o).owner.value else k.cur;
      Block(RaiseOwner(k, owner, b.prio), k.cur, OnMutex, Entry(o), timeout)
    case OpFlagPend(o, want, mode, _, timeout, _) =>
      Block(Put(k, k.cur, b.(flagsPend := want, flagsMode := mode, flagsRdy := 0)), k.cur, OnFlag, Entry(o), timeout)
    case OpMultiPend(tbl, timeout, _) => Block(k, k.cur, OnMulti, TakeReady(k.obj, tbl).1, timeout)
    case OpTaskSemPend(timeout, _) => Block(k, k.cur, OnTaskSem, [], timeout)
    case OpTaskQPend(timeout, _) => Block(k, k.cur, OnTaskQ, [], timeout)
    case _ => k
  }

  /** The call is that state and the scheduler. */
  lemma SleepsThenSchedules(k: K, op: Op)
    requires Inv(k) && GoesToSleep(k, op)
    ensures Step(k, op) == Sched(Asleep(k, op))
    ensures Harmless(k, op) ==> k.lock == 0
  {
    hide Inv, Harmless, Call, Asleep, Sched, GoesToSleep;
    WhoSleeps(k, op);
    if op.OpDly? || op.OpSuspend? || op.OpTaskDel? {
      TaskSleeps(k, op);
    } else if op.OpMutexPend? || op.OpFlagPend? || op.OpMultiPend? {
      OtherPendSleeps(k, op);
    } else {
      PendSleeps(k, op);
    }
  }

  lemma WhoSleeps(k: K, op: Op)
    requires GoesToSleep(k, op)
    ensures Pends(op) || op.OpSuspend? || op.OpTaskDel?
  {
    hide Call;
  }

  lemma TaskSleeps(k: K, op: Op)
    requires Inv(k) && GoesToSleep(k, op) && (op.OpDly? || op.OpSuspend? || op.OpTaskDel?)
    ensures Step(k, op) == Sched(Asleep(k, op))
    ensures Harmless(k, op) ==> k.lock == 0
  {
    hide CoreInv, ObjInv, Sleep, Sched, SuspendTask, RdyRemove, WheelDrop, UnlinkAll;
  }

  lemma PendSleeps(k: K, op: Op)
    requires GoesToSleep(k, op) && (op.OpSemPend? || op.OpQPend? || op.OpTaskSemPend? || op.OpTaskQPend?)
    ensures Step(k, op) == Sched(Asleep(k, op)) && k.lock == 0
  {
    hide Block, Sched;
  }

  lemma OtherPendSleeps(k: K, op: Op)
    requires GoesToSleep(k, op) && (op.OpMutexPend? || op.OpFlagPend? || op.OpMultiPend?)
    ensures Step(k, op) == Sched(Asleep(k, op)) && k.lock == 0
  {
    hide Block, RaiseOwner, Sched, TakeReady, MultiValid, FlagMet, FlagBits, FlagConsumed;
  }

  lemma AsleepSame(k: K, op: Op)
    ensures Asleep(k, op).lock == k.lock && Asleep(k, op).idle == k.idle
  {
    hide Sleep, BlockedTcb, RaiseOwner, SuspendTask, RdyRemove, TakeReady, Timed;
    if op.OpFlagPend? {
      FlagAsleepSame(k, op);
    } else if op.OpMutexPend? {
      MutexAsleepSame(k, op);
    } else {
      forall b: Tcb ensures SameClock(k, Sleep(k, k.cur, b)) {
        SleepClock(k, k.cur, b);
      }
      RdyClock(k, k.cur, false);
      SuspendResumeClock(k, k.cur);
    }
  }

  lemma FlagAsleepSame(k: K, op: Op)
    requires op.OpFlagPend?
    ensures SameClock(k, Asleep(k, op))
  {
    hide Sleep, BlockedTcb;
    var k1 := Put(k, k.cur, Get(k, k.cur).(flagsPend := op.want, flagsMode := op.mode, flagsRdy := 0));
    SleepClock(k1, k.cur, BlockedTcb(Get(k1, k.cur), OnFlag, Entry(op.o), op.timeout, k.now, |k.wheel|));
  }

  lemma MutexAsleepSame(k: K, op: Op)
    requires op.OpMutexPend?
    ensures SameClock(k, Asleep(k, op))
  {
    hide Sleep, BlockedTcb, SetOwnerPrio;
    var v, prio := Object(k, op.o), Get(k, k.cur).prio;
    var owner := if v.Mutex? && v.owner.Some? then v.owner.value else k.cur;
    var k1 := RaiseOwner(k, owner, prio);
    PrioClock(k, owner, prio, false);
    SleepClock(k1, k.cur, BlockedTcb(Get(k1, k.cur), OnMutex, Entry(op.o), op.timeout, k1.now, |k1.wheel|));
  }

  lemma IsrSteps(k: K, op: Op)
    requires FromIsr(op)
    ensures Step(k, op) == match op
      case OpSemPost(o, all, _) => SemPost(k, o, all, true).k
      case OpQPost(o, m, lifo, all, _, poolEmpty) => QPost(k, o, m, lifo, all, true, poolEmpty).k
      case OpFlagPost(o, bits, set', _) => FlagPost(k, o, bits, set', true).k
      case OpTaskSemPost(t, _) => TaskSemPost(k, t, true).k
      case OpTaskQPost(t, m, lifo, _, poolEmpty) => TaskQPost(k, t, m, lifo, true, poolEmpty).k
  {
    hide SemPost, QPost, FlagPost, TaskSemPost, TaskQPost;
  }

  // --------------------------------------------------------------- posts do not ask who is running

  lemma WakeCur(k: K, t: Tid, ev: Event, c: Tid)
    ensures Wake(k.(cur := c), t, ev) == Wake(k, t, ev).(cur := c)
  {
    hide Finish, UnlinkAll, WheelDrop;
  }

  lemma {:induction false} WakeAllCur(k: K, ts: seq<Tid>, ev: Event, c: Tid)
    ensures WakeAll(k.(cur := c), ts, ev) == WakeAll(k, ts, ev).(cur := c)
    decreases |ts|
  {
    hide Wake;
    if ts != [] {
      WakeCur(k, ts[0], ev, c);
      WakeAllCur(Wake(k, ts[0], ev), ts[1..], ev, c);
    }
  }

  lemma FlagReadyCur(k: K, t: Tid, rdy: Flags, c: Tid)
    ensures FlagReady(k.(cur := c), t, rdy) == FlagReady(k, t, rdy).(cur := c)
  {
    hide Wake, Finish, UnlinkAll;
    WakeCur(k, t, Flagged(rdy), c);
  }

  lemma {:induction false} FlagReadyAllCur(k: K, ts: seq<Tid>, flags: Flags, c: Tid)
    ensures FlagReadyAll(k.(cur := c), ts, flags) == FlagReadyAll(k, ts, flags).(cur := c)
    decreases |ts|
  {
    hide FlagReady, FlagMet, FlagBits;
    if ts != [] {
      var b := Get(k, ts[0]);
      var rdy := FlagBits(b.flagsMode, flags, b.flagsPend);
      FlagReadyCur(k, ts[0], rdy, c);
      FlagReadyAllCur(if FlagMet(b.flagsMode, flags, b.flagsPend) then FlagReady(k, ts[0], rdy) else k, ts[1..], flags, c);
    }
  }

  lemma SemPostCur(k: K, o: Oid, all: bool, c: Tid)
    ensures SemPost(k.(cur := c), o, all, true).k == SemPost(k, o, all, true).k.(cur := c)
    ensures SameClock(k, SemPost(k, o, all, true).k)
  {
    hide WakeAll;
    var w := Waiters(k, o);
    WakeAllCur(k, if all || w == [] then w else w[..1], Posted(Some(o), NO_MSG), c);
    WakeAllClock(k, if all || w == [] then w else w[..1], Posted(Some(o), NO_MSG));
  }

  lemma QPostCur(k: K, o: Oid, m: Msg, lifo: bool, all: bool, poolEmpty: bool, c: Tid)
    ensures QPost(k.(cur := c), o, m, lifo, all, true, poolEmpty).k == QPost(k, o, m, lifo, all, true, poolEmpty).k.(cur := c)
    ensures SameClock(k, QPost(k, o, m, lifo, all, true, poolEmpty).k)
  {
    hide WakeAll, MsgPut;
    var w := Waiters(k, o);
    WakeAllCur(k, if all || w == [] then w else w[..1], Posted(Some(o), m), c);
    WakeAllClock(k, if all || w == [] then w else w[..1], Posted(Some(o), m));
  }

  lemma FlagPostCur(k: K, o: Oid, bits: Flags, set': bool, c: Tid)
    ensures FlagPost(k.(cur := c), o, bits, set', true).k == FlagPost(k, o, bits, set', true).k.(cur := c)
    ensures SameClock(k, FlagPost(k, o, bits, set', true).k)
  {
    hide FlagReadyAll, PostedFlags;
    var now := PostedFlags(if Object(k, o).FlagGrp? then Object(k, o).flags else 0, bits, set');
    FlagReadyAllCur(SetObj(k, o, FlagGrp(now)), Waiters(k, o), now, c);
    FlagReadyAllClock(SetObj(k, o, FlagGrp(now)), Waiters(k, o), now);
  }

  lemma TaskPostCur(k: K, t: Tid, m: Msg, lifo: bool, poolEmpty: bool, c: Tid)
    ensures TaskSemPost(k.(cur := c), t, true).k == TaskSemPost(k, t, true).k.(cur := c)
    ensures TaskQPost(k.(cur := c), t, m, lifo, true, poolEmpty).k == TaskQPost(k, t, m, lifo, true, poolEmpty).k.(cur := c)
    ensures SameClock(k, TaskSemPost(k, t, true).k) && SameClock(k, TaskQPost(k, t, m, lifo, true, poolEmpty).k)
  {
    hide Wake, MsgPut;
    WakeCur(k, t, Posted(None, NO_MSG), c);
    WakeCur(k, t, Posted(None, m), c);
    WakeClock(k, t, Posted(None, NO_MSG));
    WakeClock(k, t, Posted(None, m));
  }

  lemma IsrCur(k: K, op: Op, c: Tid)
    requires FromIsr(op)
    ensures Step(k.(cur := c), op) == Step(k, op).(cur := c) && SameClock(k, Step(k, op))
  {
    hide Call, SameClock, SemPost, QPost, FlagPost, TaskSemPost, TaskQPost;
    IsrSteps(k, op);
    IsrSteps(k.(cur := c), op);
    match op {
      case OpSemPost(o, all, _) => SemPostCur(k, o, all, c);
      case OpQPost(o, m, lifo, all, _, poolEmpty) => QPostCur(k, o, m, lifo, all, poolEmpty, c);
      case OpFlagPost(o, bits, set', _) => FlagPostCur(k, o, bits, set', c);
      case OpTaskSemPost(t, _) => TaskPostCur(k, t, NO_MSG, false, false, c);
      case OpTaskQPost(t, m, lifo, _, poolEmpty) => TaskPostCur(k, t, m, lifo, poolEmpty, c);
    }
  }

  // ------------------------------------------------------------------------------ the data in between

  /** The data agree, whoever is said to be running. */
  ghost predicate Between(k: K) {
    Inv(k.(cur := k.idle))
  }

  lemma IsrBetween(k: K, op: Op)
    requires Between(k) && FromIsr(op) && Harmless(k, op)
    ensures Between(Step(k, op)) && SameClock(k, Step(k, op))
  {
    hide Inv, Call, WakesClean, PostedFlags;
    IsrCur(k, op, k.idle);
    SameHarm(k, op, k.idle);
    StepKeeps(k.(cur := k.idle), op);
  }

  lemma SameHarm(k: K, op: Op, c: Tid)
    requires FromIsr(op) && Harmless(k, op)
    ensures Harmless(k.(cur := c), op) && WellUsed(k.(cur := c), op)
  {
    hide PostedFlags, FlagMet;
    if op.OpFlagPost? && Object(k, op.o).FlagGrp? {
      var ts, flags := Waiters(k, op.o), PostedFlags(Object(k, op.o).flags, op.bits, op.set');
      forall t: Tid | Count(ts, t) > 0 && MetBy(Get(k.(cur := c), t), flags)
        ensures Get(k.(cur := c), t).state != PEND_TIMEOUT_SUSPENDED
      {
        assert MetBy(Get(k, t), flags);
      }
    }
  }

  /** From a state in between the scheduler makes the data agree altogether. */
  lemma ScheduledAgrees(k: K)
    requires Between(k) && k.lock == 0
    ensures Inv(Sched(k))
  {
    hide CoreInv, ObjInv, Sched;
    SameListsInv(k.(cur := k.idle), k);
    assert Get(k, k.idle) == Get(k.(cur := k.idle), k.idle);
    SchedPicksHighest(k);
  }

  lemma AsleepBetween(k: K, op: Op)
    requires Inv(k) && WellUsed(k, op) && Harmless(k, op) && GoesToSleep(k, op)
    ensures Between(Asleep(k, op)) && Asleep(k, op).lock == 0
  {
    hide CoreInv, ObjInv, WellUsed, Harmless, GoesToSleep, Asleep, Step, Sched;
    var a := Asleep(k, op);
    StepKeeps(k, op);
    SleepsThenSchedules(k, op);
    AsleepSame(k, op);
    SchedKeepsTcbs(a, false);
    SameListsInv(Sched(a), a.(cur := a.idle));
  }

  // --------------------------------------------------------------------------------------- the outcome

  /** The states differ at most in the order within the ready lists, and in who runs. */
  predicate Alike(k: K, k': K) {
    k' == k.(rdy := k'.rdy, cur := k'.cur, prioCur := k'.prioCur) && |k'.rdy| == |k.rdy|
  }

  lemma WakeAlike(k: K, k': K, t: Tid, ev: Event)
    requires Alike(k, k')
    ensures Alike(Wake(k, t, ev), Wake(k', t, ev))
  {
    hide Finish, UnlinkAll, WheelDrop;
  }

  lemma {:induction false} WakeAllAlike(k: K, k': K, ts: seq<Tid>, ev: Event)
    requires Alike(k, k')
    ensures Alike(WakeAll(k, ts, ev), WakeAll(k', ts, ev))
    decreases |ts|
  {
    hide Wake, Alike;
    if ts != [] {
      WakeAlike(k, k', ts[0], ev);
      WakeAllAlike(Wake(k, ts[0], ev), Wake(k', ts[0], ev), ts[1..], ev);
    }
  }

  lemma {:induction false} FlagReadyAllAlike(k: K, k': K, ts: seq<Tid>, flags: Flags)
    requires Alike(k, k')
    ensures Alike(FlagReadyAll(k, ts, flags), FlagReadyAll(k', ts, flags))
    decreases |ts|
  {
    hide FlagReady, FlagMet, FlagBits;
    if ts != [] {
      var b := Get(k, ts[0]);
      assert b == Get(k', ts[0]);
      if FlagMet(b.flagsMode, flags, b.flagsPend) {
        var rdy := FlagBits(b.flagsMode, flags, b.flagsPend);
        FlagReadyAlike(k, k', ts[0], rdy);
        FlagReadyAllAlike(FlagReady(k, ts[0], rdy), FlagReady(k', ts[0], rdy), ts[1..], flags);
      } else {
        FlagReadyAllAlike(k, k', ts[1..], flags);
      }
    }
  }

  lemma FlagReadyAlike(k: K, k': K, t: Tid, rdy: Flags)
    requires Alike(k, k')
    ensures Alike(FlagReady(k, t, rdy), FlagReady(k', t, rdy))
  {
    hide Wake, Finish, UnlinkAll;
    WakeAlike(k, k', t, Flagged(rdy));
  }

  lemma IsrAlike(k: K, k': K, op: Op)
    requires Alike(k, k') && FromIsr(op)
    ensures Alike(Step(k, op), Step(k', op))
  {
    hide Call, Alike, SemPost, QPost, FlagPost, TaskSemPost, TaskQPost;
    IsrSteps(k, op);
    IsrSteps(k', op);
    match op {
      case OpSemPost(o, all, _) => SemPostAlike(k, k', o, all);
      case OpQPost(o, m, lifo, all, _, poolEmpty) => QPostAlike(k, k', o, m, lifo, all, poolEmpty);
      case OpFlagPost(o, bits, set', _) => FlagPostAlike(k, k', o, bits, set');
      case OpTaskSemPost(t, _) => TaskPostAlike(k, k', t, NO_MSG, false, false);
      case OpTaskQPost(t, m, lifo, _, poolEmpty) => TaskPostAlike(k, k', t, m, lifo, poolEmpty);
    }
  }

  lemma SemPostAlike(k: K, k': K, o: Oid, all: bool)
    requires Alike(k, k')
    ensures Alike(SemPost(k, o, all, true).k, SemPost(k', o, all, true).k)
  {
    hide WakeAll;
    var w := Waiters(k, o);
    WakeAllAlike(k, k', if all || w == [] then w else w[..1], Posted(Some(o), NO_MSG));
  }

  lemma QPostAlike(k: K, k': K, o: Oid, m: Msg, lifo: bool, all: bool, poolEmpty: bool)
    requires Alike(k, k')
    ensures Alike(QPost(k, o, m, lifo, all, true, poolEmpty).k, QPost(k', o, m, lifo, all, true, poolEmpty).k)
  {
    hide WakeAll, MsgPut;
    var w := Waiters(k, o);
    WakeAllAlike(k, k', if all || w == [] then w else w[..1], Posted(Some(o), m));
  }

  lemma FlagPostAlike(k: K, k': K, o: Oid, bits: Flags, set': bool)
    requires Alike(k, k')
    ensures Alike(FlagPost(k, o, bits, set', true).k, FlagPost(k', o, bits, set', true).k)
  {
    hide FlagReadyAll, PostedFlags;
    if Object(k, o).FlagGrp? {
      var now := PostedFlags(Object(k, o).flags, bits, set');
      FlagReadyAllAlike(SetObj(k, o, FlagGrp(now)), SetObj(k', o, FlagGrp(now)), Waiters(k, o), now);
    }
  }

  lemma TaskPostAlike(k: K, k': K, t: Tid, m: Msg, lifo: bool, poolEmpty: bool)
    requires Alike(k, k')
    ensures Alike(TaskSemPost(k, t, true).k, TaskSemPost(k', t, true).k)
    ensures Alike(TaskQPost(k, t, m, lifo, true, poolEmpty).k, TaskQPost(k', t, m, lifo, true, poolEmpty).k)
  {
    hide Wake, MsgPut;
    WakeAlike(k, k', t, Posted(None, NO_MSG));
    WakeAlike(k, k', t, Posted(None, m));
  }

  lemma AlikeHarm(k: K, k': K, op: Op)
    requires Alike(k, k') && FromIsr(op) && Harmless(k, op)
    ensures Harmless(k', op)
  {
    hide PostedFlags, FlagMet;
    if op.OpFlagPost? && Object(k, op.o).FlagGrp? {
      var ts, flags := Waiters(k, op.o), PostedFlags(Object(k, op.o).flags, op.bits, op.set');
      forall t: Tid | Count(ts, t) > 0 && MetBy(Get(k', t), flags) ensures Get(k', t).state != PEND_TIMEOUT_SUSPENDED {
        assert MetBy(Get(k, t), flags);
      }
    }
  }

  /** Posts by interrupts, from two states that are alike, the second of which may be in between. */
  lemma {:induction false} PostsAlike(k: K, a: K, posts: seq<Op>)
    requires Alike(k, a) && Between(a) && IsrRun(posts) && Proper(k, posts)
    ensures Alike(After(k, posts), After(a, posts)) && Between(After(a, posts)) && After(a, posts).lock == a.lock
    decreases |posts|
  {
    hide Alike, Between, WellUsed, Harmless, Step, FromIsr;
    if posts != [] {
      assert posts[0] in posts;
      AlikeHarm(k, a, posts[0]);
      IsrAlike(k, a, posts[0]);
      IsrBetween(a, posts[0]);
      assert IsrRun(posts[1..]) by { assert forall op: Op :: op in posts[1..] ==> op in posts; }
      PostsAlike(Step(k, posts[0]), Step(a, posts[0]), posts[1..]);
    }
  }

  lemma SchedAlike(k: K, a: K)
    requires Alike(k, a)
    ensures Alike(Sched(k), Sched(a)) && Alike(k, Sched(a))
  {
    hide FirstReady;
  }

  /** A call that puts its caller to sleep, and any posts by interrupts before the scheduler is run: the data agree, and
      every TCB, pend list, spoke and object is as if the posts had come right after the scheduling. */
  lemma InterruptsInBetween(k: K, op: Op, posts: seq<Op>)
    requires Inv(k) && WellUsed(k, op) && Harmless(k, op) && GoesToSleep(k, op)
    requires IsrRun(posts) && Proper(Step(k, op), posts)
    ensures var k' := Sched(After(Asleep(k, op), posts)); var k'' := Sched(After(Step(k, op), posts));
      Inv(k') && Inv(k'') && Alike(k'', k')
  {
    hide Inv, WellUsed, Harmless, GoesToSleep, Asleep, Step, Sched, Alike, Between, Proper, IsrRun, After;
    var a := Asleep(k, op);
    SleepsThenSchedules(k, op);
    AsleepBetween(k, op);
    AlikeScheduled(a);
    StepKeeps(k, op);
    PostsAlike(Sched(a), a, posts);
    InvariantOverRuns(Sched(a), posts);
    ScheduledAgrees(After(a, posts));
    SchedKeeps(After(Sched(a), posts));
    SchedAlike(After(Sched(a), posts), After(a, posts));
  }

  lemma AlikeScheduled(a: K)
    ensures Alike(Sched(a), a)
  {
    hide FirstReady;
  }
}
