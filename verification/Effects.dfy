/** What a call does not do: to the tasks it is not about, and to the objects it is not about. */
module Effects {
  import opened TaskLists
  import opened KernelState
  import opened KernelOps
  import opened ListMoves
  import opened CoreKept
  import opened Services
  import opened FlagsMultiKept
  import opened TickWheel
  import opened Departures
  import opened Run

  /** The task has at most stopped waiting. */
  predicate Eased(b: Tcb, b': Tcb) {
    && b'.prio == b.prio && b'.flagsPend == b.flagsPend && b'.flagsMode == b.flagsMode
    && ((b'.tbl == b.tbl && b'.pendOn == b.pendOn) || (b'.tbl == [] && b'.pendOn == OnNothing))
  }

  /** All tasks outside S have at most stopped waiting. */
  ghost predicate Calm(k: K, S: set<Tid>, k': K) {
    forall t: Tid :: t !in S ==> Eased(Get(k, t), Get(k', t))
  }

  lemma CalmTouch(k: K, t: Tid, k': K)
    requires Touches(k, t, k')
    ensures Calm(k, {t}, k') && (Eased(Get(k, t), Get(k', t)) ==> Calm(k, {}, k'))
  {
  }

  lemma CalmTrans(k: K, k1: K, k2: K, S: set<Tid>)
    requires Calm(k, {}, k1) && Calm(k1, S, k2)
    ensures Calm(k, S, k2)
  {
    forall t: Tid | t !in S ensures Eased(Get(k, t), Get(k2, t)) {
      assert Eased(Get(k, t), Get(k1, t)) && Eased(Get(k1, t), Get(k2, t));
    }
  }

  /** As after Calm, but the tables may have been replaced. */
  lemma CalmSameTcb(k: K, S: set<Tid>, k1: K, k2: K)
    requires Calm(k, S, k1) && k2.tcb == k1.tcb
    ensures Calm(k, S, k2)
  {
    forall t: Tid | t !in S ensures Eased(Get(k, t), Get(k2, t)) {
      assert Eased(Get(k, t), Get(k1, t));
    }
  }

  lemma WakeCalm(k: K, t: Tid, ev: Event)
    ensures Calm(k, {}, Wake(k, t, ev)) && Wake(k, t, ev).obj == k.obj
  {
    if Ends(ev, Get(k, t).state) {
      assert Wake(k, t, ev).tcb == k.tcb[t := Finish(Get(k, t), ev)];
      CalmTouch(k, t, Wake(k, t, ev));
    }
  }

  lemma {:induction false} WakeAllCalm(k: K, ts: seq<Tid>, ev: Event)
    ensures Calm(k, {}, WakeAll(k, ts, ev)) && WakeAll(k, ts, ev).obj == k.obj
    decreases |ts|
  {
    hide Wake, Eased;
    if ts == [] {
      EasedSelf();
    } else {
      WakeCalm(k, ts[0], ev);
      WakeAllCalm(Wake(k, ts[0], ev), ts[1..], ev);
      CalmTrans(k, Wake(k, ts[0], ev), WakeAll(k, ts, ev), {});
    }
  }

  lemma EasedSelf()
    ensures forall b: Tcb :: Eased(b, b)
  {
  }

  /** The tasks a call is about: those that are created, deleted, start to wait or get another priority. */
  function About(k: K, op: Op): set<Tid> {
    match op
    case OpTaskCreate(t, _, _) => {t}
    case OpTaskDel(t) => {t}
    case OpChangePrio(t, _, _) => {t}
    case OpSemPend(_, _, _) => {k.cur}
    case OpQPend(_, _, _) => {k.cur}
    case OpMutexPend(o, _, _) => {k.cur} + OwnerOf(k, o)
    case OpMutexPost(o, _) => {k.cur}
    case OpMutexDel(o, _) => OwnerOf(k, o)
    case OpFlagPend(_, _, _, _, _, _) => {k.cur}
    case OpMultiPend(_, _, _) => {k.cur}
    case OpTaskSemPend(_, _) => {k.cur}
    case OpTaskQPend(_, _) => {k.cur}
    case _ => {}
  }

  function OwnerOf(k: K, o: Oid): set<Tid> {
    match Object(k, o)
    case Mutex(Some(t), _, _) => {t}
    case _ => {}
  }

  /** The state after the critical section, before the scheduler, differs from k in the TCB of t only. */
  lemma OneTask(k: K, t: Tid, k1: K, k': K)
    requires k1.tcb == k.tcb[t := Get(k1, t)] && k'.tcb == k1.tcb
    ensures Calm(k, {t}, k') && (Eased(Get(k, t), Get(k1, t)) ==> Calm(k, {}, k'))
  {
  }

  lemma Nothing(k: K, k': K)
    requires k'.tcb == k.tcb
    ensures Calm(k, {}, k')
  {
  }

  lemma TaskDelCalm(k: K, t: Tid)
    ensures Calm(k, {t}, TaskDel(k, t).k)
  {
    hide RdyRemove, WheelDrop, UnlinkAll;
    var b := Get(k, t);
    RdyRemoveTcb(k, t);
    var k1 := if b.state == RDY then RdyRemove(k, t)
      else if b.state == SUSPENDED then k
      else if !b.state.Live? || !b.state.pend || NoObject(b.pendOn) then WheelRemove(k, t)
      else Unlink(WheelRemove(k, t), t);
    if t == k.idle || b.state == Deleted {
      Nothing(k, k);
    } else {
      OneTask(k, t, Put(k1, t, NO_TCB.(prio := |k.rdy|)), TaskDel(k, t).k);
    }
  }

  lemma SuspendCalm(k: K, t: Tid)
    ensures Calm(k, {}, TaskSuspend(k, t).k)
  {
    Nothing(k, k);
    if Get(k, t).state.Live? {
      var k1 := SuspendTask(k, t);
      assert k1.tcb == k.tcb[t := Get(k1, t)];
      OneTask(k, t, k1, Sched(k1));
    }
  }

  lemma ResumeCalm(k: K, t: Tid)
    ensures Calm(k, {}, TaskResume(k, t).k)
  {
    Nothing(k, k);
    Nothing(k, Sched(k));
    if Get(k, t).state.Live? && Get(k, t).state.susp {
      var k1 := ResumeTask(k, t);
      assert k1.tcb == k.tcb[t := Get(k1, t)];
      OneTask(k, t, k1, Sched(k1));
    }
  }

  lemma RdyPutTcb(k: K, t: Tid, atTail: bool)
    ensures RdyPut(k, t, atTail).tcb == k.tcb
  {
  }

  lemma MovePrioTcb(k: K, t: Tid, prio: nat, atTail: bool)
    ensures MoveReady(k, t, prio, atTail).tcb == k.tcb[t := Get(k, t).(prio := prio)]
    ensures MovePending(k, t, prio).tcb == k.tcb[t := Get(k, t).(prio := prio)]
  {
    hide RdyRemove, RdyPut, ResortAll, PrioOrder;
    RdyRemoveTcb(k, t);
    var k1 := RdyRemove(k, t);
    RdyPutTcb(Put(k1, t, Get(k1, t).(prio := prio)), t, atTail);
  }

  lemma ChangePrioCalm(k: K, t: Tid, prio: nat, self: bool)
    ensures Calm(k, {t}, TaskChangePrio(k, t, prio, self).k)
  {
    hide MoveReady, MovePending;
    Nothing(k, k);
    MovePrioTcb(k, t, prio, !self);
    var k1 := ChangePrio(k, t, prio, !self);
    assert k1.tcb == k.tcb[t := Get(k, t).(prio := prio)];
    OneTask(k, t, k1, Sched(k1));
  }

  lemma TimedEased(b: Tcb, now: Tick, size: nat, time: Tick, opt: TimeOpt)
    ensures Eased(b, Timed(b.(state := DLY), now, size, time, opt))
  {
  }

  lemma DlyCalm(k: K, dly: Tick, opt: TimeOpt)
    ensures Calm(k, {}, TimeDly(k, dly, opt).k)
  {
    hide Sleep, Timed, Sched;
    Nothing(k, k);
    TimedEased(Get(k, k.cur), k.now, |k.wheel|, dly, opt);
    var b := Timed(Get(k, k.cur).(state := DLY), k.now, |k.wheel|, dly, opt);
    SleepTcb(k, k.cur, b);
    SchedKeepsTcbs(Sleep(k, k.cur, b), false);
    OneTask(k, k.cur, Put(k, k.cur, b), Put(k, k.cur, b));
    OneTask(k, k.cur, Put(k, k.cur, b), Sched(Sleep(k, k.cur, b)));
  }

  lemma TaskCalm(k: K, op: Op)
    requires op.OpTaskCreate? || op.OpTaskDel? || op.OpSuspend? || op.OpResume? || op.OpChangePrio? || op.OpDly?
    ensures Calm(k, About(k, op), Step(k, op))
  {
    hide TaskDel, TaskSuspend, TaskResume, TaskChangePrio, TimeDly, Calm, TaskCreate;
    match op
    case OpTaskCreate(t, prio, qMax) => CreateCalm(k, t, prio, qMax);
    case OpTaskDel(t) => TaskDelCalm(k, t);
    case OpSuspend(t) => SuspendCalm(k, t);
    case OpResume(t) => ResumeCalm(k, t);
    case OpChangePrio(t, prio, self) => ChangePrioCalm(k, t, prio, self);
    case OpDly(dly, opt) => DlyCalm(k, dly, opt);
  }

  lemma CreateCalm(k: K, t: Tid, prio: nat, qMax: nat)
    ensures Calm(k, {t}, TaskCreate(k, t, prio, qMax).k)
  {
    Nothing(k, k);
    var b := NO_TCB.(state := RDY, prio := prio, taskQMax := qMax);
    OneTask(k, t, Put(k, t, b), Sched(RdyPut(Put(k, t, b), t, true)));
  }

  lemma BlockCurCalm(k: K, on: PendOn, tbl: seq<PendData>, timeout: Tick, nonBlocking: bool)
    ensures Calm(k, {k.cur}, BlockCur(k, on, tbl, timeout, nonBlocking).k)
  {
    hide Sleep, BlockedTcb;
    Nothing(k, k);
    var b := BlockedTcb(Get(k, k.cur), on, tbl, timeout, k.now, |k.wheel|);
    SleepTcb(k, k.cur, b);
    OneTask(k, k.cur, Put(k, k.cur, b), Sched(Sleep(k, k.cur, b)));
  }

  lemma WakeSchedCalm(k: K, ts: seq<Tid>, ev: Event, noSched: bool)
    ensures Calm(k, {}, MaybeSched(WakeAll(k, ts, ev), noSched))
  {
    WakeAllCalm(k, ts, ev);
    SchedKeepsTcbs(WakeAll(k, ts, ev), noSched);
    CalmSameTcb(k, {}, WakeAll(k, ts, ev), MaybeSched(WakeAll(k, ts, ev), noSched));
  }

  // ------------------------------------------------------------------------------- calls on objects

  lemma SemCalm(k: K, op: Op)
    requires op.OpSemPend? || op.OpSemPost? || op.OpSemSet?
    ensures Calm(k, About(k, op), Step(k, op))
  {
    hide Calm, BlockCur, WakeAll, MaybeSched;
    match op
    case OpSemPend(o, timeout, nonBlocking) =>
      BlockCurCalm(k, OnSem, Entry(o), timeout, nonBlocking);
      UnchangedCalm(k, Step(k, op));
    case OpSemPost(o, all, noSched) =>
      var w := Waiters(k, o);
      UnchangedCalm(k, Step(k, op));
      WakeSchedCalm(k, if all || w == [] then w else w[..1], Posted(Some(o), NO_MSG), noSched);
    case OpSemSet(o, cnt) =>
      UnchangedCalm(k, Step(k, op));
  }

  lemma UnchangedCalm(k: K, k': K)
    ensures k'.tcb == k.tcb ==> forall S: set<Tid> :: Calm(k, S, k')
  {
  }

  lemma QCalm(k: K, op: Op)
    requires op.OpQPend? || op.OpQPost? || op.OpQFlush?
    ensures Calm(k, About(k, op), Step(k, op))
  {
    hide Calm, BlockCur, WakeAll, MaybeSched, MsgPut;
    UnchangedCalm(k, Step(k, op));
    match op
    case OpQPend(o, timeout, nonBlocking) =>
      BlockCurCalm(k, OnQ, Entry(o), timeout, nonBlocking);
    case OpQPost(o, m, lifo, all, noSched, poolEmpty) =>
      var w := Waiters(k, o);
      WakeSchedCalm(k, if all || w == [] then w else w[..1], Posted(Some(o), m), noSched);
    case OpQFlush(o) =>
  }

  lemma DelAbortCalm(k: K, op: Op)
    requires op.OpObjDel? || op.OpPendAbort? || op.OpCreate?
    ensures Calm(k, About(k, op), Step(k, op))
  {
    hide Calm, WakeAll, Sched;
    UnchangedCalm(k, Step(k, op));
    match op
    case OpObjDel(o, always) =>
      var w := Waiters(k, o);
      WakeAllCalm(k, w, ObjDeleted(Some(o)));
      var k1 := SetObj(WakeAll(k, w, ObjDeleted(Some(o))), o, Gone);
      SchedKeepsTcbs(k1, false);
      CalmSameTcb(k, {}, WakeAll(k, w, ObjDeleted(Some(o))), Sched(k1));
    case OpPendAbort(o, all, noSched) =>
      var w := Waiters(k, o);
      WakeSchedCalm(k, if (all && !noSched) || w == [] then w else w[..1], Aborted(Some(o)), noSched);
    case OpCreate(o, v) =>
  }

  lemma SetOwnerPrioTcb(k: K, t: Tid, prio: nat, atTail: bool)
    ensures SetOwnerPrio(k, t, prio, atTail).tcb == k.tcb[t := Get(k, t).(prio := prio)]
    ensures var k' := SetOwnerPrio(k, t, prio, atTail);
      k'.obj == k.obj && k'.now == k.now && k'.cur == k.cur && k'.lock == k.lock && |k'.wheel| == |k.wheel|
  {
    MovePrioTcb(k, t, prio, atTail);
  }

  /** The TCBs once OSMutexPend has blocked the caller. */
  lemma MutexBlockTcbs(k: K, o: Oid, w: Tid, timeout: Tick)
    requires w != k.cur
    ensures var p := Get(k, k.cur).prio; var k1 := RaiseOwner(k, w, p);
      && k1.tcb == (if Get(k, w).prio > p then k.tcb[w := Get(k, w).(prio := p)] else k.tcb)
      && Sched(Block(k1, k.cur, OnMutex, Entry(o), timeout)).tcb
        == k1.tcb[k.cur := BlockedTcb(Get(k, k.cur), OnMutex, Entry(o), timeout, k.now, |k.wheel|)]
      && Sched(Block(k1, k.cur, OnMutex, Entry(o), timeout)).obj == k.obj
  {
    hide SetOwnerPrio, Sleep, BlockedTcb;
    var p := Get(k, k.cur).prio;
    SetOwnerPrioTcb(k, w, p, false);
    var k1 := RaiseOwner(k, w, p);
    var b := BlockedTcb(Get(k1, k.cur), OnMutex, Entry(o), timeout, k1.now, |k1.wheel|);
    SleepTcb(k1, k.cur, b);
    SleepObj(k1, k.cur, b);
  }

  lemma SleepObj(k: K, t: Tid, b: Tcb)
    ensures Sleep(k, t, b).obj == k.obj && Sleep(k, t, b).cur == k.cur && Sleep(k, t, b).lock == k.lock
  {
  }

  lemma RestoreCurTcb(k: K, orig: nat)
    ensures RestoreCur(k, orig).tcb ==
      if Get(k, k.cur).prio == orig then k.tcb else k.tcb[k.cur := Get(k, k.cur).(prio := orig)]
    ensures RestoreCur(k, orig).obj == k.obj && RestoreCur(k, orig).cur == k.cur
  {
    hide MoveReady;
    MovePrioTcb(k, k.cur, orig, true);
    MoveReadyRest(k, k.cur, orig, true);
  }

  lemma MoveReadyRest(k: K, t: Tid, prio: nat, atTail: bool)
    ensures var k' := MoveReady(k, t, prio, atTail); k'.obj == k.obj && k'.cur == k.cur && k'.prioCur == k.prioCur
  {
  }

  lemma MutexPendCalm(k: K, o: Oid, timeout: Tick, nonBlocking: bool)
    ensures Calm(k, {k.cur} + OwnerOf(k, o), MutexPend(k, o, timeout, nonBlocking).k)
  {
    hide RaiseOwner, Block, BlockedTcb, Sched;
    var k' := MutexPend(k, o, timeout, nonBlocking).k;
    UnchangedCalm(k, k');
    match Object(k, o)
    case Mutex(Some(w), nest, orig) =>
      if w != k.cur {
        MutexBlockTcbs(k, o, w, timeout);
      }
    case _ =>
  }

  lemma MutexPostCalm(k: K, o: Oid, noSched: bool)
    ensures Calm(k, {k.cur}, MutexPost(k, o, noSched).k)
  {
    hide RestoreCur, Wake, Sched, MaybeSched, Eased;
    var k' := MutexPost(k, o, noSched).k;
    UnchangedCalm(k, k');
    EasedSelf();
    match Object(k, o)
    case Mutex(owner, nest, orig) =>
      var w := Waiters(k, o);
      if w != [] {
        var k1 := RestoreCur(k, orig);
        RestoreCurTcb(k, orig);
        var k2 := SetObj(k1, o, Mutex(Some(w[0]), 1, Get(k1, w[0]).prio));
        var k3 := Wake(k2, w[0], Posted(Some(o), NO_MSG));
        WakeCalm(k2, w[0], Posted(Some(o), NO_MSG));
        SchedKeepsTcbs(k3, noSched);
        forall t: Tid | t != k.cur ensures Eased(Get(k, t), Get(MaybeSched(k3, noSched), t)) {
          assert Eased(Get(k2, t), Get(k3, t));
        }
      }
    case _ =>
  }

  lemma MutexDelCalm(k: K, o: Oid, always: bool)
    ensures Calm(k, OwnerOf(k, o), MutexDel(k, o, always).k)
  {
    hide SetOwnerPrio, WakeAll, Sched, Eased;
    var k' := MutexDel(k, o, always).k;
    UnchangedCalm(k, k');
    EasedSelf();
    match Object(k, o)
    case Mutex(owner, nest, orig) =>
      var ev := ObjDeleted(Some(o));
      var w := Waiters(k, o);
      var k1 := if owner.Some? && Get(k, owner.value).prio != orig then SetOwnerPrio(k, owner.value, orig, true) else k;
      if owner.Some? {
        SetOwnerPrioTcb(k, owner.value, orig, true);
      }
      WakeAllCalm(k1, w, ev);
      var k3 := SetObj(WakeAll(k1, w, ev), o, Gone);
      SchedKeepsTcbs(k3, false);
      forall t: Tid | t !in OwnerOf(k, o) ensures Eased(Get(k, t), Get(Sched(k3), t)) {
        assert Eased(Get(k1, t), Get(WakeAll(k1, w, ev), t));
      }
    case _ =>
  }

  // ------------------------------------------------------------------------- flags, several objects, rest

  lemma FlagReadyCalm(k: K, t: Tid, flags: Flags)
    ensures Calm(k, {}, FlagStep(k, t, flags)) && FlagStep(k, t, flags).obj == k.obj
  {
    hide FlagMet, FlagBits;
    UnchangedCalm(k, k);
    var b := Get(k, t);
    var rdy := FlagBits(b.flagsMode, flags, b.flagsPend);
    WakeCalm(k, t, Flagged(rdy));
    var k1 := Put(Unlink(k, t), t, Finish(b, Flagged(rdy)).(spoke := b.spoke, due := b.due));
    OneTask(k, t, k1, k1);
  }

  lemma {:induction false} FlagReadyAllCalm(k: K, ts: seq<Tid>, flags: Flags)
    ensures Calm(k, {}, FlagReadyAll(k, ts, flags)) && FlagReadyAll(k, ts, flags).obj == k.obj
    decreases |ts|
  {
    hide FlagReady, Eased, FlagMet, FlagBits;
    if ts == [] {
      EasedSelf();
    } else {
      FlagReadyCalm(k, ts[0], flags);
      FlagReadyAllCalm(FlagStep(k, ts[0], flags), ts[1..], flags);
      CalmTrans(k, FlagStep(k, ts[0], flags), FlagReadyAll(k, ts, flags), {});
    }
  }

  lemma FlagPendCalm(k: K, o: Oid, want: Flags, mode: FlagMode, consume: bool, timeout: Tick, nonBlocking: bool)
    ensures Calm(k, {k.cur}, FlagPend(k, o, want, mode, consume, timeout, nonBlocking).k)
  {
    hide BlockCur, FlagMet, FlagBits, FlagConsumed;
    UnchangedCalm(k, FlagPend(k, o, want, mode, consume, timeout, nonBlocking).k);
    var k1 := Put(k, k.cur, Get(k, k.cur).(flagsPend := want, flagsMode := mode, flagsRdy := 0));
    BlockCurCalm(k1, OnFlag, Entry(o), timeout, false);
    assert forall t: Tid :: t != k.cur ==> Get(k1, t) == Get(k, t);
  }

  lemma FlagCalm(k: K, op: Op)
    requires op.OpFlagPend? || op.OpFlagConsume? || op.OpFlagPost?
    ensures Calm(k, About(k, op), Step(k, op))
  {
    hide Calm, FlagReadyAll, MaybeSched, FlagPend, FlagBits, FlagConsumed, PostedFlags;
    UnchangedCalm(k, Step(k, op));
    match op
    case OpFlagPend(o, want, mode, consume, timeout, nonBlocking) =>
      FlagPendCalm(k, o, want, mode, consume, timeout, nonBlocking);
    case OpFlagConsume(o) =>
    case OpFlagPost(o, bits, set', noSched) =>
      if Object(k, o).FlagGrp? {
        FlagWakesCalm(k, o, PostedFlags(Object(k, o).flags, bits, set'), noSched);
      }
  }

  lemma FlagWakesCalm(k: K, o: Oid, now: Flags, noSched: bool)
    ensures Calm(k, {}, MaybeSched(FlagReadyAll(SetObj(k, o, FlagGrp(now)), Waiters(k, o), now), noSched))
  {
    hide FlagReadyAll, MaybeSched, Eased;
    var k1 := SetObj(k, o, FlagGrp(now));
    var k2 := FlagReadyAll(k1, Waiters(k, o), now);
    FlagReadyAllCalm(k1, Waiters(k, o), now);
    SchedKeepsTcbs(k2, noSched);
    EasedSelf();
    CalmTrans(k, k1, k2, {});
    CalmSameTcb(k, {}, k2, MaybeSched(k2, noSched));
  }

  lemma MultiCalm(k: K, tbl: seq<PendData>, timeout: Tick, nonBlocking: bool)
    ensures Calm(k, {k.cur}, MultiPend(k, tbl, timeout, nonBlocking).k)
  {
    hide BlockCur, TakeReady, MultiValid;
    UnchangedCalm(k, MultiPend(k, tbl, timeout, nonBlocking).k);
    BlockCurCalm(k, OnMulti, TakeReady(k.obj, tbl).1, timeout, nonBlocking);
  }

  lemma OneWakeCalm(k: K, t: Tid, ev: Event, noSched: bool)
    ensures Calm(k, {}, MaybeSched(Wake(k, t, ev), noSched))
  {
    WakeCalm(k, t, ev);
    SchedKeepsTcbs(Wake(k, t, ev), noSched);
    CalmSameTcb(k, {}, Wake(k, t, ev), MaybeSched(Wake(k, t, ev), noSched));
  }

  lemma DlyResumeCalm(k: K, t: Tid)
    ensures Calm(k, {}, TimeDlyResume(k, t).k)
  {
    hide Wake, Sched, Calm;
    UnchangedCalm(k, TimeDlyResume(k, t).k);
    SchedKeepsTcbs(k, false);
    OneWakeCalm(k, t, DelayOver, false);
  }

  lemma FieldCalm(k: K, t: Tid, k': K)
    ensures k'.tcb == k.tcb[t := Get(k', t)] ==> Calm(k, {t}, k')
    ensures k'.tcb == k.tcb[t := Get(k', t)] && Eased(Get(k, t), Get(k', t)) ==> Calm(k, {}, k')
  {
  }

  lemma TaskSemCalm(k: K, op: Op)
    requires op.OpTaskSemPend? || op.OpTaskSemPost?
    ensures Calm(k, About(k, op), Step(k, op))
  {
    hide BlockCur, Wake, MaybeSched, Calm;
    UnchangedCalm(k, Step(k, op));
    match op
    case OpTaskSemPend(timeout, nonBlocking) =>
      BlockCurCalm(k, OnTaskSem, [], timeout, nonBlocking);
      FieldCalm(k, k.cur, Step(k, op));
    case OpTaskSemPost(t, noSched) =>
      OneWakeCalm(k, t, Posted(None, NO_MSG), noSched);
      FieldCalm(k, t, Step(k, op));
  }

  lemma TaskQCalm(k: K, op: Op)
    requires op.OpTaskQPend? || op.OpTaskQPost?
    ensures Calm(k, About(k, op), Step(k, op))
  {
    hide BlockCur, Wake, MaybeSched, MsgPut, Calm;
    UnchangedCalm(k, Step(k, op));
    match op
    case OpTaskQPend(timeout, nonBlocking) =>
      BlockCurCalm(k, OnTaskQ, [], timeout, nonBlocking);
      FieldCalm(k, k.cur, Step(k, op));
    case OpTaskQPost(t, m, lifo, noSched, poolEmpty) =>
      OneWakeCalm(k, t, Posted(None, m), noSched);
      FieldCalm(k, t, Step(k, op));
  }

  lemma SignalCalm(k: K, op: Op)
    requires op.OpTaskSemPend? || op.OpTaskSemPost? || op.OpTaskQPend? || op.OpTaskQPost? || op.OpTaskPendAbort?
      || op.OpDlyResume?
    ensures Calm(k, About(k, op), Step(k, op))
  {
    hide Calm, TimeDlyResume, Wake, MaybeSched;
    match op {
      case OpTaskPendAbort(t, on, noSched) =>
        UnchangedCalm(k, Step(k, op));
        OneWakeCalm(k, t, Aborted(None), noSched);
      case OpDlyResume(t) => DlyResumeCalm(k, t);
      case OpTaskSemPend(_, _) => TaskSemCalm(k, op);
      case OpTaskSemPost(_, _) => TaskSemCalm(k, op);
      case _ => TaskQCalm(k, op);
    }
  }

  lemma TickCalm(k: K)
    requires Inv(k)
    ensures Calm(k, {}, TickUpdate(k))
  {
    hide CoreInv, ObjInv, CurOk, TickUpdate;
    TickExpiresExactlyTheDue(k);
    forall t: Tid ensures Eased(Get(k, t), Get(TickUpdate(k), t)) {
      assert Get(TickUpdate(k), t) == NaiveTick(k, t);
    }
  }

  lemma SchedCalm(k: K, op: Op)
    requires Inv(k) && (op.OpTick? || op.OpRoundRobin? || op.OpLock? || op.OpUnlock? || op.OpSched?)
    ensures Calm(k, About(k, op), Step(k, op))
  {
    hide Inv, TickUpdate, Calm;
    UnchangedCalm(k, Step(k, op));
    if op.OpTick? {
      TickCalm(k);
    }
  }

  /** The main effect theorem: a call changes the priority and the flags waited for of nobody but the tasks it is about,
      and makes nobody else wait. */
  lemma StepCalm(k: K, op: Op)
    requires Inv(k)
    ensures Calm(k, About(k, op), Step(k, op))
  {
    hide Inv, Calm, Step, About;
    if op.OpTick? || op.OpRoundRobin? || op.OpLock? || op.OpUnlock? || op.OpSched? {
      SchedCalm(k, op);
    } else if op.OpTaskCreate? || op.OpTaskDel? || op.OpSuspend? || op.OpResume? || op.OpChangePrio? || op.OpDly? {
      TaskCalm(k, op);
    } else if op.OpTaskSemPend? || op.OpTaskSemPost? || op.OpTaskQPend? || op.OpTaskQPost? || op.OpTaskPendAbort?
      || op.OpDlyResume? {
      SignalCalm(k, op);
    } else if op.OpSemPend? || op.OpSemPost? || op.OpSemSet? {
      SemCalm(k, op);
    } else if op.OpQPend? || op.OpQPost? || op.OpQFlush? {
      QCalm(k, op);
    } else if op.OpObjDel? || op.OpPendAbort? || op.OpCreate? {
      DelAbortCalm(k, op);
    } else if op.OpFlagPend? || op.OpFlagConsume? || op.OpFlagPost? {
      FlagCalm(k, op);
    } else {
      MutexMultiCalm(k, op);
    }
  }

  lemma MutexMultiCalm(k: K, op: Op)
    requires op.OpMutexPend? || op.OpMutexPost? || op.OpMutexDel? || op.OpMultiPend?
    ensures Calm(k, About(k, op), Step(k, op))
  {
    hide Calm, MutexPend, MutexPost, MutexDel, MultiPend, OwnerOf;
    match op
    case OpMutexPend(o, timeout, nonBlocking) => MutexPendCalm(k, o, timeout, nonBlocking);
    case OpMutexPost(o, noSched) => MutexPostCalm(k, o, noSched);
    case OpMutexDel(o, always) => MutexDelCalm(k, o, always);
    case OpMultiPend(tbl, timeout, nonBlocking) => MultiCalm(k, tbl, timeout, nonBlocking);
  }

  // ------------------------------------------------------------------------------------ other objects

  /** The call is about object o. */
  predicate Targets(op: Op, o: Oid) {
    match op
    case OpCreate(x, _) => x == o
    case OpObjDel(x, _) => x == o
    case OpSemPend(x, _, _) => x == o
    case OpSemPost(x, _, _) => x == o
    case OpSemSet(x, _) => x == o
    case OpQPend(x, _, _) => x == o
    case OpQPost(x, _, _, _, _, _) => x == o
    case OpQFlush(x) => x == o
    case OpMutexPend(x, _, _) => x == o
    case OpMutexPost(x, _) => x == o
    case OpMutexDel(x, _) => x == o
    case OpFlagPend(x, _, _, _, _, _) => x == o
    case OpFlagConsume(x) => x == o
    case OpFlagPost(x, _, _, _) => x == o
    case OpMultiPend(tbl, _, _) => Listed(tbl, o)
    case _ => false
  }

  lemma {:induction false} TakeReadyObj(obj: map<Oid, Obj>, tbl: seq<PendData>, o: Oid)
    ensures var obj' := TakeReady(obj, tbl).0;
      && (o in obj' <==> o in obj)
      && (o in obj && (!Listed(tbl, o) || (!obj[o].Sem? && !obj[o].Queue?)) ==> obj'[o] == obj[o])
      && (o in obj && (obj[o].Sem? || obj[o].Queue?) ==> !obj'[o].Mutex?)
    decreases |tbl|
  {
    if tbl != [] {
      var x := tbl[0].obj;
      var v := if x in obj then obj[x] else Gone;
      if v.Queue? && v.msgs != [] {
        TakeReadyObj(obj[x := v.(msgs := v.msgs[1..])], tbl[1..], o);
      } else if v.Sem? && v.ctr > 0 {
        TakeReadyObj(obj[x := v.(ctr := v.ctr - 1)], tbl[1..], o);
      } else {
        TakeReadyObj(obj, tbl[1..], o);
      }
    }
  }

  lemma BlockCurObj(k: K, on: PendOn, tbl: seq<PendData>, timeout: Tick, nonBlocking: bool)
    ensures BlockCur(k, on, tbl, timeout, nonBlocking).k.obj == k.obj
  {
    hide Sleep, BlockedTcb;
    SleepObj(k, k.cur, BlockedTcb(Get(k, k.cur), on, tbl, timeout, k.now, |k.wheel|));
  }

  lemma WakeSchedObj(k: K, ts: seq<Tid>, ev: Event, noSched: bool)
    ensures MaybeSched(WakeAll(k, ts, ev), noSched).obj == k.obj
  {
    WakeAllCalm(k, ts, ev);
  }

  lemma SemObj(k: K, op: Op, o: Oid)
    requires op.OpSemPend? || op.OpSemPost? || op.OpSemSet?
    ensures !Targets(op, o) || Object(k, o).Mutex? || Object(Step(k, op), o).Mutex? ==> Object(Step(k, op), o) == Object(k, o)
  {
    hide BlockCur, WakeAll, MaybeSched;
    match op
    case OpSemPend(x, timeout, nonBlocking) => BlockCurObj(k, OnSem, Entry(x), timeout, nonBlocking);
    case OpSemPost(x, all, noSched) =>
      var w := Waiters(k, x);
      WakeSchedObj(k, if all || w == [] then w else w[..1], Posted(Some(x), NO_MSG), noSched);
    case OpSemSet(x, cnt) =>
  }

  lemma QObj(k: K, op: Op, o: Oid)
    requires op.OpQPend? || op.OpQPost? || op.OpQFlush?
    ensures !Targets(op, o) || Object(k, o).Mutex? || Object(Step(k, op), o).Mutex? ==> Object(Step(k, op), o) == Object(k, o)
  {
    hide BlockCur, WakeAll, MaybeSched, MsgPut;
    match op
    case OpQPend(x, timeout, nonBlocking) => BlockCurObj(k, OnQ, Entry(x), timeout, nonBlocking);
    case OpQPost(x, m, lifo, all, noSched, poolEmpty) =>
      var w := Waiters(k, x);
      WakeSchedObj(k, if all || w == [] then w else w[..1], Posted(Some(x), m), noSched);
    case OpQFlush(x) =>
  }

  lemma DelAbortObj(k: K, op: Op, o: Oid)
    requires op.OpObjDel? || op.OpPendAbort? || op.OpCreate?
    ensures !Targets(op, o) ==> Object(Step(k, op), o) == Object(k, o)
    ensures !op.OpCreate? && (Object(k, o).Mutex? || Object(Step(k, op), o).Mutex?) ==> Object(Step(k, op), o) == Object(k, o)
  {
    hide WakeAll, Sched;
    match op
    case OpObjDel(x, always) =>
      var ev := ObjDeleted(Some(x));
      WakeAllCalm(k, Waiters(k, x), ev);
      SchedKeepsTcbs(SetObj(WakeAll(k, Waiters(k, x), ev), x, Gone), false);
    case OpPendAbort(x, all, noSched) =>
      var w := Waiters(k, x);
      WakeSchedObj(k, if (all && !noSched) || w == [] then w else w[..1], Aborted(Some(x)), noSched);
    case OpCreate(x, v) =>
  }

  lemma MutexPendObj(k: K, x: Oid, timeout: Tick, nonBlocking: bool, o: Oid)
    ensures x != o ==> Object(MutexPend(k, x, timeout, nonBlocking).k, o) == Object(k, o)
  {
    hide RaiseOwner, Block, BlockedTcb, Sched;
    if Object(k, x).Mutex? && Object(k, x).owner.Some? && Object(k, x).owner != Some(k.cur) {
      MutexBlockTcbs(k, x, Object(k, x).owner.value, timeout);
    }
  }

  lemma MutexPostObj(k: K, x: Oid, noSched: bool, o: Oid)
    ensures x != o ==> Object(MutexPost(k, x, noSched).k, o) == Object(k, o)
  {
    hide RestoreCur, Wake, MaybeSched;
    if Object(k, x).Mutex? && Waiters(k, x) != [] {
      var k1 := RestoreCur(k, Object(k, x).orig);
      var t := Waiters(k, x)[0];
      RestoreCurTcb(k, Object(k, x).orig);
      var k2 := SetObj(k1, x, Mutex(Some(t), 1, Get(k1, t).prio));
      WakeCalm(k2, t, Posted(Some(x), NO_MSG));
      SchedKeepsTcbs(Wake(k2, t, Posted(Some(x), NO_MSG)), noSched);
    }
  }

  lemma MutexDelObj(k: K, x: Oid, owner: Option<Tid>, orig: nat)
    ensures var k1 := if owner.Some? && Get(k, owner.value).prio != orig then SetOwnerPrio(k, owner.value, orig, true) else k;
      Sched(SetObj(WakeAll(k1, Waiters(k, x), ObjDeleted(Some(x))), x, Gone)).obj == k.obj[x := Gone]
  {
    hide SetOwnerPrio, WakeAll, Sched;
    var k1 := if owner.Some? && Get(k, owner.value).prio != orig then SetOwnerPrio(k, owner.value, orig, true) else k;
    if owner.Some? {
      SetOwnerPrioTcb(k, owner.value, orig, true);
    }
    WakeAllCalm(k1, Waiters(k, x), ObjDeleted(Some(x)));
    SchedKeepsTcbs(SetObj(WakeAll(k1, Waiters(k, x), ObjDeleted(Some(x))), x, Gone), false);
  }

  lemma MutexObj(k: K, op: Op, o: Oid)
    requires op.OpMutexPend? || op.OpMutexPost? || op.OpMutexDel?
    ensures !Targets(op, o) ==> Object(Step(k, op), o) == Object(k, o)
  {
    hide WakeAll, Sched, SetOwnerPrio, MutexPend, MutexPost;
    match op
    case OpMutexPend(x, timeout, nonBlocking) => MutexPendObj(k, x, timeout, nonBlocking, o);
    case OpMutexPost(x, noSched) => MutexPostObj(k, x, noSched, o);
    case OpMutexDel(x, always) =>
      if Object(k, x).Mutex? {
        MutexDelObj(k, x, Object(k, x).owner, Object(k, x).orig);
      }
  }

  lemma FlagPendObj(k: K, x: Oid, want: Flags, mode: FlagMode, consume: bool, timeout: Tick, nonBlocking: bool, o: Oid)
    ensures x != o || Object(k, o).Mutex? ==> Object(FlagPend(k, x, want, mode, consume, timeout, nonBlocking).k, o) == Object(k, o)
    ensures Object(FlagPend(k, x, want, mode, consume, timeout, nonBlocking).k, o).Mutex? ==> Object(k, o).Mutex?
  {
    hide BlockCur, FlagMet, FlagBits, FlagConsumed;
    var k1 := Put(k, k.cur, Get(k, k.cur).(flagsPend := want, flagsMode := mode, flagsRdy := 0));
    BlockCurObj(k1, OnFlag, Entry(x), timeout, false);
  }

  lemma FlagPostObj(k: K, x: Oid, bits: Flags, set': bool, noSched: bool, o: Oid)
    ensures x != o || Object(k, o).Mutex? ==> Object(FlagPost(k, x, bits, set', noSched).k, o) == Object(k, o)
    ensures Object(FlagPost(k, x, bits, set', noSched).k, o).Mutex? ==> Object(k, o).Mutex?
  {
    hide FlagReadyAll, MaybeSched, PostedFlags;
    if Object(k, x).FlagGrp? {
      FlagWakesObj(k, x, PostedFlags(Object(k, x).flags, bits, set'), noSched);
    }
  }

  lemma FlagObj(k: K, op: Op, o: Oid)
    requires op.OpFlagPend? || op.OpFlagConsume? || op.OpFlagPost?
    ensures !Targets(op, o) || Object(k, o).Mutex? || Object(Step(k, op), o).Mutex? ==> Object(Step(k, op), o) == Object(k, o)
  {
    hide FlagPend, FlagPost, FlagConsumed;
    match op
    case OpFlagPend(x, want, mode, consume, timeout, nonBlocking) =>
      FlagPendObj(k, x, want, mode, consume, timeout, nonBlocking, o);
    case OpFlagConsume(x) =>
    case OpFlagPost(x, bits, set', noSched) =>
      FlagPostObj(k, x, bits, set', noSched, o);
  }

  lemma FlagWakesObj(k: K, x: Oid, now: Flags, noSched: bool)
    ensures MaybeSched(FlagReadyAll(SetObj(k, x, FlagGrp(now)), Waiters(k, x), now), noSched).obj == k.obj[x := FlagGrp(now)]
  {
    hide FlagReadyAll, MaybeSched;
    var k1 := SetObj(k, x, FlagGrp(now));
    FlagReadyAllCalm(k1, Waiters(k, x), now);
    SchedKeepsTcbs(FlagReadyAll(k1, Waiters(k, x), now), noSched);
  }

  lemma MultiObj(k: K, tbl: seq<PendData>, timeout: Tick, nonBlocking: bool, o: Oid)
    ensures !Listed(tbl, o) || Object(k, o).Mutex? || Object(k, o).FlagGrp? ==>
      Object(MultiPend(k, tbl, timeout, nonBlocking).k, o) == Object(k, o)
    ensures Object(MultiPend(k, tbl, timeout, nonBlocking).k, o).Mutex? ==> Object(k, o).Mutex?
  {
    hide BlockCur, TakeReady, MultiValid, Listed;
    TakeReadyObj(k.obj, tbl, o);
    BlockCurObj(k, OnMulti, TakeReady(k.obj, tbl).1, timeout, nonBlocking);
  }

  lemma TaskObj(k: K, op: Op)
    requires op.OpTaskCreate? || op.OpTaskDel? || op.OpSuspend? || op.OpResume? || op.OpChangePrio? || op.OpDly?
    ensures Step(k, op).obj == k.obj
  {
    hide RdyRemove, WheelDrop, UnlinkAll, MoveReady, MovePending, SuspendTask, ResumeTask, Sleep, Timed;
    match op
    case OpTaskCreate(t, prio, qMax) =>
    case OpTaskDel(t) => RdyRemoveObj(k, t);
    case OpSuspend(t) => SuspendObj(k, t);
    case OpResume(t) => ResumeObj(k, t);
    case OpChangePrio(t, prio, self) => MovePrioObj(k, t, prio, !self);
    case OpDly(dly, opt) =>
      SleepObj(k, k.cur, Timed(Get(k, k.cur).(state := DLY), k.now, |k.wheel|, dly, opt));
  }

  lemma ResumeObj(k: K, t: Tid)
    ensures ResumeTask(k, t).obj == k.obj
  {
  }

  lemma SuspendObj(k: K, t: Tid)
    ensures SuspendTask(k, t).obj == k.obj
  {
  }

  lemma RdyRemoveObj(k: K, t: Tid)
    ensures RdyRemove(k, t).obj == k.obj
  {
  }

  lemma MovePrioObj(k: K, t: Tid, prio: nat, atTail: bool)
    ensures MoveReady(k, t, prio, atTail).obj == k.obj && MovePending(k, t, prio).obj == k.obj
  {
  }

  lemma TaskSemObj(k: K, op: Op)
    requires op.OpTaskSemPend? || op.OpTaskSemPost? || op.OpTaskPendAbort?
    ensures Step(k, op).obj == k.obj
  {
    hide BlockCur, Wake, MaybeSched;
    match op
    case OpTaskSemPend(timeout, nonBlocking) => BlockCurObj(k, OnTaskSem, [], timeout, nonBlocking);
    case OpTaskSemPost(t, noSched) => WokenObj(k, t, Posted(None, NO_MSG), noSched);
    case OpTaskPendAbort(t, on, noSched) => WokenObj(k, t, Aborted(None), noSched);
  }

  lemma WokenObj(k: K, t: Tid, ev: Event, noSched: bool)
    ensures MaybeSched(Wake(k, t, ev), noSched).obj == k.obj
  {
    hide Wake, Sched;
    WakeCalm(k, t, ev);
    SchedKeepsTcbs(Wake(k, t, ev), noSched);
  }

  lemma TaskQObj(k: K, op: Op)
    requires op.OpTaskQPend? || op.OpTaskQPost? || op.OpDlyResume?
    ensures Step(k, op).obj == k.obj
  {
    hide BlockCur, Wake, MsgPut;
    match op
    case OpTaskQPend(timeout, nonBlocking) => BlockCurObj(k, OnTaskQ, [], timeout, nonBlocking);
    case OpTaskQPost(t, m, lifo, noSched, poolEmpty) => WakeCalm(k, t, Posted(None, m));
    case OpDlyResume(t) => WakeCalm(k, t, DelayOver);
  }

  lemma SchedObj(k: K, op: Op)
    requires Inv(k) && (op.OpTick? || op.OpRoundRobin? || op.OpLock? || op.OpUnlock? || op.OpSched?)
    ensures Step(k, op).obj == k.obj
  {
    hide CoreInv, ObjInv, CurOk, TickUpdate;
    if op.OpTick? {
      TickListsInv(k);
    }
  }

  /** A call changes no object but the one it is about; several objects at once, only in OSPendMulti. */
  lemma StepObj(k: K, op: Op, o: Oid)
    requires Inv(k) && !Targets(op, o)
    ensures Object(Step(k, op), o) == Object(k, o)
  {
    hide Inv, Step;
    if op.OpTick? || op.OpRoundRobin? || op.OpLock? || op.OpUnlock? || op.OpSched? {
      SchedObj(k, op);
    } else if op.OpTaskCreate? || op.OpTaskDel? || op.OpSuspend? || op.OpResume? || op.OpChangePrio? || op.OpDly? {
      TaskObj(k, op);
    } else if op.OpTaskSemPend? || op.OpTaskSemPost? || op.OpTaskPendAbort? {
      TaskSemObj(k, op);
    } else if op.OpTaskQPend? || op.OpTaskQPost? || op.OpDlyResume? {
      TaskQObj(k, op);
    } else if op.OpSemPend? || op.OpSemPost? || op.OpSemSet? {
      SemObj(k, op, o);
    } else if op.OpQPend? || op.OpQPost? || op.OpQFlush? {
      QObj(k, op, o);
    } else if op.OpObjDel? || op.OpPendAbort? || op.OpCreate? {
      DelAbortObj(k, op, o);
    } else if op.OpFlagPend? || op.OpFlagConsume? || op.OpFlagPost? {
      FlagObj(k, op, o);
    } else if op.OpMultiPend? {
      MultiStepObj(k, op, o);
    } else {
      MutexObj(k, op, o);
    }
  }

  lemma MultiStepObj(k: K, op: Op, o: Oid)
    requires op.OpMultiPend? && !Targets(op, o)
    ensures Object(Step(k, op), o) == Object(k, o)
  {
    hide MultiPend;
    MultiObj(k, op.tbl, op.timeout, op.nonBlocking, o);
  }
}
