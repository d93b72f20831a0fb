/** Event flags over runs. For every call: exactly when no task waits afterwards whose condition holds, if none did
    before. Only consuming can leave a task asleep that way, and if all tasks wait for bits to be set nothing can.
  */
module FlagRun {
  import opened TaskLists
  import opened KernelState
  import opened KernelOps
  import opened Services
  import opened FlagsMultiKept
  import opened Departures
  import opened Run
  import opened Effects
  import opened MutexRun

  predicate ForSet(mode: FlagMode) {
    mode.SetAll? || mode.SetAny?
  }

  ghost predicate AllForSet(k: K) {
    forall t: Tid :: ForSet(Get(k, t).flagsMode)
  }

  /** t waits for the flags of o. */
  predicate WaitsFor(k: K, t: Tid, o: Oid) {
    Object(k, o).FlagGrp? && Listed(Get(k, t).tbl, o)
  }

  /** Whoever waits for flags has reason to. */
  ghost predicate NobodyMissed(k: K) {
    forall o: Oid, t: Tid :: WaitsFor(k, t, o) ==> !MetBy(Get(k, t), Object(k, o).flags)
  }

  /** Nobody who waits for the flags of o would be met by these. */
  ghost predicate NoneMet(k: K, o: Oid, flags: Flags) {
    forall t: Tid :: WaitsFor(k, t, o) ==> !MetBy(Get(k, t), flags)
  }

  /** Consuming must not bring about what somebody waits for; no other call can do harm. */
  ghost predicate KeepsWaiters(k: K, op: Op) {
    match op
    case OpFlagPend(o, want, mode, consume, _, _) =>
      Object(k, o).FlagGrp? && FlagMet(mode, Object(k, o).flags, want) && consume ==>
        NoneMet(k, o, FlagConsumed(mode, Object(k, o).flags, FlagBits(mode, Object(k, o).flags, want)))
    case OpFlagConsume(o) =>
      Object(k, o).FlagGrp? ==>
        NoneMet(k, o, FlagConsumed(Get(k, k.cur).flagsMode, Object(k, o).flags, Get(k, k.cur).flagsRdy))
    case _ => true
  }

  ghost predicate Quiet(k: K) {
    AllForSet(k) && NobodyMissed(k)
  }

  predicate SetOnly(op: Op) {
    op.OpFlagPend? ==> ForSet(op.mode)
  }

  /** t waits for no flags it did not wait for, and for the same bits. */
  ghost predicate Still(k: K, t: Tid, k': K) {
    SameFlags(Get(k, t), Get(k', t)) && forall o: Oid :: WaitsFor(k', t, o) ==> WaitsFor(k, t, o)
  }

  ghost predicate Idle(k: K, t: Tid) {
    forall o: Oid :: !WaitsFor(k, t, o)
  }

  predicate SubsetOf(f: Flags, g: Flags) {
    f & g == f
  }

  lemma FewerBits(f: Flags, f': Flags, want: Flags)
    requires f' & f == f'
    ensures f' & want == want ==> f & want == want
    ensures f' & want != 0 ==> f & want != 0
  {
  }

  /** A condition for set bits that does not hold does not come to hold when bits are cleared. */
  lemma ClearingMeetsNobody(b: Tcb, flags: Flags, flags': Flags)
    requires ForSet(b.flagsMode) && SubsetOf(flags', flags) && !MetBy(b, flags)
    ensures !MetBy(b, flags')
  {
    hide FlagMet, FlagBits;
    var want := b.flagsPend;
    MetForSet(b.flagsMode, flags, want);
    MetForSet(b.flagsMode, flags', want);
    FewerBits(flags, flags', want);
  }

  lemma MetForSet(mode: FlagMode, flags: Flags, want: Flags)
    requires ForSet(mode)
    ensures FlagMet(mode, flags, want) <==> if mode.SetAll? then flags & want == want else flags & want != 0
  {
  }

  lemma ClearedIsSubset(flags: Flags, rdy: Flags)
    ensures SubsetOf(BitAnd(flags, BitNot(rdy)), flags) && SubsetOf(flags, flags)
  {
  }

  lemma MetBySame(b: Tcb, b': Tcb, flags: Flags)
    requires SameFlags(b, b')
    ensures MetBy(b, flags) == MetBy(b', flags)
  {
  }

  /** Groups have the flags they had, and nobody starts to wait. */
  lemma SameGroupsKeep(k: K, k': K)
    requires NobodyMissed(k) && forall t: Tid :: Still(k, t, k') || Idle(k', t)
    requires forall o: Oid :: Object(k, o).FlagGrp? && Object(k', o).FlagGrp? ==> Object(k', o) == Object(k, o)
    ensures NobodyMissed(k')
  {
    hide FlagMet, FlagBits, MetBy;
    forall o: Oid, t: Tid | WaitsFor(k', t, o) ensures !MetBy(Get(k', t), Object(k', o).flags) {
      assert Still(k, t, k');
      assert WaitsFor(k, t, o);
      MetBySame(Get(k, t), Get(k', t), Object(k', o).flags);
    }
  }

  // --------------------------------------------------------------------- calls that are not about flags

  predicate FlagOp(op: Op) {
    op.OpFlagPend? || op.OpFlagConsume? || op.OpFlagPost?
  }

  /** Through the services of other objects a group is not reached. */
  lemma GroupRefuses(k: K, op: Op, o: Oid)
    requires Object(k, o).FlagGrp? && Targets(op, o)
    requires op.OpSemPend? || op.OpSemPost? || op.OpSemSet? || op.OpQPend? || op.OpQPost? || op.OpQFlush?
      || op.OpMutexPend? || op.OpMutexPost? || op.OpMutexDel?
    ensures Step(k, op) == k
  {
  }

  lemma GroupDel(k: K, op: Op)
    requires op.OpObjDel? && Object(k, op.o).FlagGrp? && Object(Step(k, op), op.o).FlagGrp?
    ensures Object(Step(k, op), op.o) == Object(k, op.o)
  {
    hide WakeAll, Sched;
    var k1 := WakeAll(k, Waiters(k, op.o), ObjDeleted(Some(op.o)));
    SchedKeepsTcbs(SetObj(k1, op.o, Gone), false);
  }

  lemma MultiGroup(k: K, op: Op, o: Oid)
    requires op.OpMultiPend? && Object(k, o).FlagGrp?
    ensures Object(Step(k, op), o) == Object(k, o)
  {
    hide MultiPend;
    MultiObj(k, op.tbl, op.timeout, op.nonBlocking, o);
  }

  lemma GroupStays(k: K, op: Op, o: Oid)
    requires Inv(k) && WellUsed(k, op) && !FlagOp(op) && Object(k, o).FlagGrp? && Object(Step(k, op), o).FlagGrp?
    ensures Object(Step(k, op), o) == Object(k, o)
  {
    hide Inv, Step;
    if !Targets(op, o) {
      StepObj(k, op, o);
    } else if op.OpObjDel? {
      GroupDel(k, op);
    } else if op.OpMultiPend? {
      MultiGroup(k, op, o);
    } else {
      GroupRefuses(k, op, o);
    }
  }

  lemma NotOnFlagStill(k: K, t: Tid, k': K)
    requires Inv(k) && Inv(k') && NotOnFlag(Get(k, t), Get(k', t))
    ensures Still(k, t, k')
  {
    hide ReadyInv, WheelInv, TcbInv, ObjInv;
    forall o: Oid | WaitsFor(k', t, o) ensures WaitsFor(k, t, o) {
      assert KindOk(Get(k', t).pendOn, Object(k', o));
      assert Listed(Get(k, t).tbl, o) ==> KindOk(Get(k, t).pendOn, Object(k, o));
    }
  }

  /** What the tasks that a call is about wait for afterwards. */
  lemma AboutFlags(k: K, op: Op, t: Tid)
    requires Inv(k) && WellUsed(k, op) && !FlagOp(op) && t in About(k, op)
    ensures NotOnFlag(Get(k, t), Get(Step(k, op), t)) || (Get(Step(k, op), t).tbl == [] && ForSet(Get(Step(k, op), t).flagsMode))
  {
    hide Inv, Step, NotOnFlag;
    if op.OpTaskCreate? || op.OpTaskDel? {
      NewTcbFlags(k, op);
    } else if op.OpChangePrio? {
      PrioFlags(k, op);
    } else if op.OpSemPend? || op.OpQPend? {
      SemQPends(k, op);
    } else if op.OpTaskSemPend? || op.OpTaskQPend? {
      TaskPends(k, op);
    } else if op.OpMultiPend? {
      MultiPends(k, op);
    } else {
      MutexFlags(k, op, t);
    }
  }

  lemma MutexFlags(k: K, op: Op, t: Tid)
    requires Inv(k) && MutexOp(op) && t in About(k, op)
    ensures NotOnFlag(Get(k, t), Get(Step(k, op), t))
  {
    hide Inv, MutexPend, MutexPost, MutexDel, NotOnFlag;
    match op
    case OpMutexPend(o, timeout, nonBlocking) => MutexPendFlags(k, o, timeout, nonBlocking, t);
    case OpMutexPost(o, noSched) => MutexPostFlags(k, o, noSched);
    case OpMutexDel(o, always) => MutexDelFlags(k, o, always, t);
  }

  lemma NewTcbFlags(k: K, op: Op)
    requires op.OpTaskCreate? || op.OpTaskDel?
    ensures Get(Step(k, op), op.t) == Get(k, op.t) ||
      (Get(Step(k, op), op.t).tbl == [] && Get(Step(k, op), op.t).flagsMode == SetAll)
    ensures NotOnFlag(Get(k, op.t), Get(k, op.t))
  {
    hide RdyRemove, WheelDrop, UnlinkAll;
  }

  lemma PrioFlags(k: K, op: Op)
    requires op.OpChangePrio?
    ensures NotOnFlag(Get(k, op.t), Get(Step(k, op), op.t))
  {
    hide TaskChangePrio;
    PrioTcb(k, op.t, op.prio, op.self);
  }

  lemma MutexPendFlags(k: K, o: Oid, timeout: Tick, nonBlocking: bool, t: Tid)
    requires t in {k.cur} + OwnerOf(k, o)
    ensures NotOnFlag(Get(k, t), Get(MutexPend(k, o, timeout, nonBlocking).k, t))
  {
    hide RaiseOwner, Block, BlockedTcb, Sched;
    match Object(k, o)
    case Mutex(Some(w), nest, orig) =>
      if w != k.cur {
        MutexBlockTcbs(k, o, w, timeout);
        BlockedFields(Get(k, k.cur), OnMutex, Entry(o), timeout, k.now, |k.wheel|);
      }
    case _ =>
  }

  lemma MutexPostFlags(k: K, o: Oid, noSched: bool)
    requires Inv(k)
    ensures NotOnFlag(Get(k, k.cur), Get(MutexPost(k, o, noSched).k, k.cur))
  {
    hide Inv, RestoreCur, Wake, MaybeSched;
    if Holds(k, k.cur, o) && Object(k, o).nest <= 1 && Waiters(k, o) != [] {
      GrantEffect(k, o, noSched);
    }
  }

  lemma MutexDelFlags(k: K, o: Oid, always: bool, t: Tid)
    requires t in OwnerOf(k, o)
    ensures NotOnFlag(Get(k, t), Get(MutexDel(k, o, always).k, t))
  {
    hide SetOwnerPrio, WakeAll, Sched, Calm;
    var w, orig, ev := Waiters(k, o), Object(k, o).orig, ObjDeleted(Some(o));
    var k1 := if Get(k, t).prio != orig then SetOwnerPrio(k, t, orig, true) else k;
    SetOwnerPrioTcb(k, t, orig, true);
    WakeAllEased(k1, w, ev, t);
    SchedKeepsTcbs(SetObj(WakeAll(k1, w, ev), o, Gone), false);
  }

  lemma WakeAllEased(k: K, ts: seq<Tid>, ev: Event, t: Tid)
    ensures Eased(Get(k, t), Get(WakeAll(k, ts, ev), t))
  {
    WakeAllCalm(k, ts, ev);
  }

  lemma NoFlagKeeps(k: K, op: Op)
    requires Inv(k) && WellUsed(k, op) && Harmless(k, op) && NobodyMissed(k) && !FlagOp(op)
    ensures NobodyMissed(Step(k, op))
  {
    hide Inv, Step, WellUsed, Harmless, About, MetBy;
    var k' := Step(k, op);
    StepKeeps(k, op);
    StepCalm(k, op);
    forall o: Oid | Object(k, o).FlagGrp? && Object(k', o).FlagGrp? ensures Object(k', o) == Object(k, o) {
      GroupStays(k, op, o);
    }
    forall t: Tid ensures Still(k, t, k') || Idle(k', t) {
      if t in About(k, op) {
        AboutFlags(k, op, t);
      } else {
        assert Eased(Get(k, t), Get(k', t));
      }
      if NotOnFlag(Get(k, t), Get(k', t)) {
        NotOnFlagStill(k, t, k');
      }
    }
    SameGroupsKeep(k, k');
  }

  // ------------------------------------------------------------------------------- calls about flags

  /** One group has other flags; everybody waits as before. */
  lemma NewFlagsExactly(k: K, o: Oid, flags: Flags, k': K)
    requires NobodyMissed(k) && Object(k, o).FlagGrp? && k'.obj == k.obj[o := FlagGrp(flags)]
    requires forall t: Tid :: Get(k', t).tbl == Get(k, t).tbl && SameFlags(Get(k, t), Get(k', t))
    ensures NobodyMissed(k') <==> NoneMet(k, o, flags)
  {
    hide MetBy;
    forall x: Oid, t: Tid ensures WaitsFor(k', t, x) <==> WaitsFor(k, t, x) {
    }
    forall t: Tid, f: Flags ensures MetBy(Get(k', t), f) == MetBy(Get(k, t), f) {
      MetBySame(Get(k, t), Get(k', t), f);
    }
    if NoneMet(k, o, flags) {
      forall x: Oid, t: Tid | WaitsFor(k', t, x) ensures !MetBy(Get(k', t), Object(k', x).flags) {
        assert WaitsFor(k, t, x);
      }
    } else {
      var t: Tid :| WaitsFor(k, t, o) && MetBy(Get(k, t), flags);
      assert WaitsFor(k', t, o) && MetBy(Get(k', t), Object(k', o).flags);
    }
  }

  lemma ConsumeExactly(k: K, o: Oid)
    requires NobodyMissed(k)
    ensures NobodyMissed(FlagConsume(k, o).k) <==> KeepsWaiters(k, OpFlagConsume(o))
  {
    hide MetBy, NobodyMissed, NoneMet, FlagConsumed;
    if Object(k, o).FlagGrp? {
      var b := Get(k, k.cur);
      NewFlagsExactly(k, o, FlagConsumed(b.flagsMode, Object(k, o).flags, b.flagsRdy), FlagConsume(k, o).k);
    }
  }

  /** A post leaves in the list only tasks whose condition does not hold on the new flags. */
  lemma FlagPostKeeps(k: K, o: Oid, bits: Flags, set': bool, noSched: bool)
    requires Inv(k) && NobodyMissed(k)
    ensures NobodyMissed(FlagPost(k, o, bits, set', noSched).k)
  {
    hide CoreInv, ObjInv, CurOk, MetBy, PostedFlags, FlagReadyAll, MaybeSched, FlagPost;
    if Object(k, o).FlagGrp? {
      var k' := FlagPost(k, o, bits, set', noSched).k;
      PostedGroups(k, o, bits, set', noSched);
      forall x: Oid, t: Tid | WaitsFor(k', t, x) ensures !MetBy(Get(k', t), Object(k', x).flags) {
        FlagPostWakesExactlyTheMet(k, o, bits, set', noSched, t);
        assert Get(k', t) == Get(k, t);
        assert x != o ==> WaitsFor(k, t, x);
      }
    } else {
      NotAGroup(k, o, bits, set', noSched);
    }
  }

  lemma PostedGroups(k: K, o: Oid, bits: Flags, set': bool, noSched: bool)
    requires Object(k, o).FlagGrp?
    ensures FlagPost(k, o, bits, set', noSched).k.obj == k.obj[o := FlagGrp(PostedFlags(Object(k, o).flags, bits, set'))]
  {
    hide FlagReadyAll, MaybeSched, PostedFlags;
    FlagWakesObj(k, o, PostedFlags(Object(k, o).flags, bits, set'), noSched);
  }

  lemma NotAGroup(k: K, o: Oid, bits: Flags, set': bool, noSched: bool)
    requires !Object(k, o).FlagGrp?
    ensures FlagPost(k, o, bits, set', noSched).k == k
  {
  }

  /** The caller, whose condition does not hold, joins the waiters. */
  lemma BlockKeeps(k: K, o: Oid, want: Flags, mode: FlagMode, k': K)
    requires NobodyMissed(k) && k'.obj == k.obj && Object(k, o).FlagGrp? && !FlagMet(mode, Object(k, o).flags, want)
    requires forall t: Tid :: t != k.cur ==> Get(k', t) == Get(k, t)
    requires var b := Get(k', k.cur); b.flagsMode == mode && b.flagsPend == want && b.tbl == Entry(o)
    ensures NobodyMissed(k')
  {
    hide FlagMet, FlagBits;
    forall x: Oid, t: Tid | WaitsFor(k', t, x) ensures !MetBy(Get(k', t), Object(k', x).flags) {
      if t == k.cur {
        EntryLists(x);
      } else {
        assert WaitsFor(k, t, x);
      }
    }
  }

  lemma FlagPendBlocks(k: K, o: Oid, want: Flags, mode: FlagMode, consume: bool, timeout: Tick, nonBlocking: bool)
    requires Inv(k) && Object(k, o).FlagGrp? && !FlagMet(mode, Object(k, o).flags, want)
    ensures var k' := FlagPend(k, o, want, mode, consume, timeout, nonBlocking).k;
      k' == k || (k'.obj == k.obj && (forall t: Tid :: t != k.cur ==> Get(k', t) == Get(k, t)) &&
        Get(k', k.cur).flagsMode == mode && Get(k', k.cur).flagsPend == want && Get(k', k.cur).tbl == Entry(o))
  {
    hide Inv, FlagMet, Sleep, BlockedTcb, Sched;
    var k1 := Put(k, k.cur, Get(k, k.cur).(flagsPend := want, flagsMode := mode, flagsRdy := 0));
    var b := BlockedTcb(Get(k1, k.cur), OnFlag, Entry(o), timeout, k.now, |k.wheel|);
    BlockedFields(Get(k1, k.cur), OnFlag, Entry(o), timeout, k.now, |k.wheel|);
    SleepTcb(k1, k.cur, b);
    SleepObj(k1, k.cur, b);
    SchedKeepsTcbs(Sleep(k1, k.cur, b), false);
  }

  lemma FlagPendExactly(k: K, op: Op)
    requires Inv(k) && NobodyMissed(k) && op.OpFlagPend?
    ensures NobodyMissed(FlagPend(k, op.o, op.want, op.mode, op.consume, op.timeout, op.nonBlocking).k) <==> KeepsWaiters(k, op)
  {
    hide Inv, NobodyMissed, NoneMet, FlagMet, FlagBits, BlockCur, Sched, FlagConsumed;
    var o := op.o;
    var k' := FlagPend(k, o, op.want, op.mode, op.consume, op.timeout, op.nonBlocking).k;
    if Object(k, o).FlagGrp? {
      var flags := Object(k, o).flags;
      if !FlagMet(op.mode, flags, op.want) {
        FlagPendBlocks(k, o, op.want, op.mode, op.consume, op.timeout, op.nonBlocking);
        if k' != k {
          BlockKeeps(k, o, op.want, op.mode, k');
        }
      } else if op.consume {
        NewFlagsExactly(k, o, FlagConsumed(op.mode, flags, FlagBits(op.mode, flags, op.want)), k');
      } else {
        OwnResultKeeps(k, k');
      }
    }
  }

  /** Only what was reported to the caller changes. */
  lemma OwnResultKeeps(k: K, k': K)
    requires NobodyMissed(k) && k'.obj == k.obj
    requires forall t: Tid :: Get(k', t).tbl == Get(k, t).tbl && SameFlags(Get(k, t), Get(k', t))
    ensures NobodyMissed(k')
  {
    hide MetBy;
    assert forall t: Tid :: Still(k, t, k');
    SameGroupsKeep(k, k');
  }

  /** The step theorem: a call leaves nobody asleep whose condition holds if and only if it does not consume flags in a
      way that brings about what a task waits for. */
  lemma NobodyMissedExactly(k: K, op: Op)
    requires Inv(k) && WellUsed(k, op) && Harmless(k, op) && NobodyMissed(k)
    ensures NobodyMissed(Step(k, op)) <==> KeepsWaiters(k, op)
  {
    hide Inv, WellUsed, Call, NobodyMissed, NoneMet, FlagPend, FlagPost, FlagConsume, FlagMet, FlagBits, FlagConsumed;
    if FlagOp(op) {
      hide KeepsWaiters;
      FlagSteps(k, op);
      match op {
        case OpFlagPend(_, _, _, _, _, _) => FlagPendExactly(k, op);
        case OpFlagConsume(o) => ConsumeExactly(k, o);
        case OpFlagPost(o, bits, set', noSched) => FlagPostKeeps(k, o, bits, set', noSched);
      }
    } else {
      NoFlagKeeps(k, op);
    }
  }

  /** Nobody is missed in any state of the run. */
  ghost predicate NeverMissed(k: K, ops: seq<Op>)
    decreases |ops|
  {
    NobodyMissed(k) && (ops == [] || NeverMissed(Step(k, ops[0]), ops[1..]))
  }

  ghost predicate WaitersKept(k: K, ops: seq<Op>)
    decreases |ops|
  {
    ops == [] || (KeepsWaiters(k, ops[0]) && WaitersKept(Step(k, ops[0]), ops[1..]))
  }

  /** Over every run of guarded calls: nobody ever waits in vain if and only if every call meets its condition. */
  lemma {:induction false} NeverMissedExactly(k: K, ops: seq<Op>)
    requires Inv(k) && Proper(k, ops) && NobodyMissed(k)
    ensures NeverMissed(k, ops) <==> WaitersKept(k, ops)
    decreases |ops|
  {
    hide Inv, WellUsed, Harmless, Step, NobodyMissed, KeepsWaiters;
    if ops != [] {
      NobodyMissedExactly(k, ops[0]);
      StepKeeps(k, ops[0]);
      if KeepsWaiters(k, ops[0]) {
        NeverMissedExactly(Step(k, ops[0]), ops[1..]);
      }
    }
  }

  // --------------------------------------------------------------------- everybody waits for set bits

  lemma ConsumedForSet(mode: FlagMode, flags: Flags, rdy: Flags)
    requires ForSet(mode)
    ensures FlagConsumed(mode, flags, rdy) == BitAnd(flags, BitNot(rdy))
  {
    hide BitAnd, BitOr, BitNot;
  }

  lemma ConsumedIsSubset(mode: FlagMode, flags: Flags, rdy: Flags)
    requires ForSet(mode)
    ensures SubsetOf(FlagConsumed(mode, flags, rdy), flags)
  {
    hide SubsetOf, FlagConsumed, BitAnd, BitOr, BitNot;
    ConsumedForSet(mode, flags, rdy);
    ClearedIsSubset(flags, rdy);
  }

  /** Clearing bits meets nobody who waits for set bits. */
  lemma ClearingKeeps(k: K, o: Oid, flags: Flags)
    requires Quiet(k) && Object(k, o).FlagGrp? && SubsetOf(flags, Object(k, o).flags)
    ensures NoneMet(k, o, flags)
  {
    hide MetBy, SubsetOf;
    forall t: Tid | WaitsFor(k, t, o) ensures !MetBy(Get(k, t), flags) {
      ClearingMeetsNobody(Get(k, t), Object(k, o).flags, flags);
    }
  }

  lemma SetOnlyKeepsWaiters(k: K, op: Op)
    requires Quiet(k) && SetOnly(op)
    ensures KeepsWaiters(k, op)
  {
    hide NobodyMissed, NoneMet, FlagMet, FlagBits, FlagConsumed, SubsetOf;
    match op {
      case OpFlagPend(o, want, mode, consume, _, _) =>
        if Object(k, o).FlagGrp? {
          var flags := Object(k, o).flags;
          ConsumedIsSubset(mode, flags, FlagBits(mode, flags, want));
          ClearingKeeps(k, o, FlagConsumed(mode, flags, FlagBits(mode, flags, want)));
        }
      case OpFlagConsume(o) =>
        if Object(k, o).FlagGrp? {
          var b := Get(k, k.cur);
          ConsumedIsSubset(b.flagsMode, Object(k, o).flags, b.flagsRdy);
          ClearingKeeps(k, o, FlagConsumed(b.flagsMode, Object(k, o).flags, b.flagsRdy));
        }
      case _ =>
    }
  }

  lemma ForSetNoFlag(k: K, op: Op)
    requires Inv(k) && WellUsed(k, op) && AllForSet(k) && !FlagOp(op)
    ensures AllForSet(Step(k, op))
  {
    hide Inv, Step, WellUsed, About;
    StepCalm(k, op);
    forall t: Tid ensures ForSet(Get(Step(k, op), t).flagsMode) {
      if t in About(k, op) {
        AboutFlags(k, op, t);
      } else {
        assert Eased(Get(k, t), Get(Step(k, op), t));
      }
    }
  }

  lemma ForSetPost(k: K, o: Oid, bits: Flags, set': bool, noSched: bool)
    requires Inv(k) && AllForSet(k)
    ensures AllForSet(FlagPost(k, o, bits, set', noSched).k)
  {
    hide CoreInv, ObjInv, CurOk, MetBy, PostedFlags, FlagPost;
    forall t: Tid ensures ForSet(Get(FlagPost(k, o, bits, set', noSched).k, t).flagsMode) {
      if Object(k, o).FlagGrp? {
        FlagPostWakesExactlyTheMet(k, o, bits, set', noSched, t);
      } else {
        NotAGroup(k, o, bits, set', noSched);
      }
    }
  }

  lemma ForSetPend(k: K, op: Op)
    requires Inv(k) && AllForSet(k) && op.OpFlagPend? && ForSet(op.mode)
    ensures AllForSet(FlagPend(k, op.o, op.want, op.mode, op.consume, op.timeout, op.nonBlocking).k)
  {
    hide Inv, FlagMet, FlagBits, BlockCur, Sched, FlagConsumed;
    var k' := FlagPend(k, op.o, op.want, op.mode, op.consume, op.timeout, op.nonBlocking).k;
    if Object(k, op.o).FlagGrp? && !FlagMet(op.mode, Object(k, op.o).flags, op.want) {
      FlagPendBlocks(k, op.o, op.want, op.mode, op.consume, op.timeout, op.nonBlocking);
    }
    forall t: Tid ensures ForSet(Get(k', t).flagsMode) {
      assert ForSet(Get(k, t).flagsMode);
      assert t != k.cur ==> k' == k || Get(k', t) == Get(k, t);
    }
  }

  lemma ForSetStep(k: K, op: Op)
    requires Inv(k) && WellUsed(k, op) && AllForSet(k) && SetOnly(op)
    ensures AllForSet(Step(k, op))
  {
    hide Inv, WellUsed, AllForSet, Call, FlagPend, FlagPost, FlagConsumed;
    if FlagOp(op) {
      FlagSteps(k, op);
      match op {
        case OpFlagPend(_, _, _, _, _, _) => ForSetPend(k, op);
        case OpFlagConsume(o) => ForSetSame(k, FlagConsume(k, o).k);
        case OpFlagPost(o, bits, set', noSched) => ForSetPost(k, o, bits, set', noSched);
      }
    } else {
      ForSetNoFlag(k, op);
    }
  }

  lemma ForSetSame(k: K, k': K)
    requires AllForSet(k) && k'.tcb == k.tcb
    ensures AllForSet(k')
  {
    assert forall t: Tid :: Get(k', t) == Get(k, t);
  }

  /** Over every run in which tasks wait for bits to be set, no task waits whose condition holds. */
  lemma {:induction false} NobodyMissedOverRuns(k: K, ops: seq<Op>)
    requires Inv(k) && Quiet(k) && Proper(k, ops) && forall op: Op :: op in ops ==> SetOnly(op)
    ensures Quiet(After(k, ops)) && WaitersKept(k, ops)
    decreases |ops|
  {
    hide Inv, AllForSet, NobodyMissed, KeepsWaiters, WellUsed, Harmless, Step, SetOnly;
    if ops != [] {
      StepKeeps(k, ops[0]);
      SetOnlyKeepsWaiters(k, ops[0]);
      NobodyMissedExactly(k, ops[0]);
      ForSetStep(k, ops[0]);
      NobodyMissedOverRuns(Step(k, ops[0]), ops[1..]);
    }
  }

  lemma BootedQuiet(pool: set<Tid>, idle: Tid, prios: nat, size: nat)
    requires prios > 0 && size > 0
    ensures Quiet(Booted(pool, idle, prios, size))
  {
    var k := Booted(pool, idle, prios, size);
    assert forall t: Tid :: Get(k, t).flagsMode == SetAll && Get(k, t).tbl == [];
  }

  /** From the start of multitasking: whoever waits for flags has reason to. */
  lemma NobodyWaitsInVain(pool: set<Tid>, idle: Tid, prios: nat, size: nat, ops: seq<Op>, o: Oid, t: Tid)
    requires prios > 0 && size > 0 && Proper(Booted(pool, idle, prios, size), ops)
    requires forall op: Op :: op in ops ==> SetOnly(op)
    ensures var k := After(Booted(pool, idle, prios, size), ops);
      WaitsFor(k, t, o) ==> !FlagMet(Get(k, t).flagsMode, Object(k, o).flags, Get(k, t).flagsPend)
  {
    hide Inv, Booted, FlagMet, SetOnly;
    BootedInv(pool, idle, prios, size);
    BootedQuiet(pool, idle, prios, size);
    NobodyMissedOverRuns(Booted(pool, idle, prios, size), ops);
  }

  /** The restriction is needed: a caller that waits for bits to be clear and consumes them sets them, and a task that
      waits for these bits to be set sleeps on although its condition now holds. */
  lemma ClearConsumerMissesSetWaiter(k: K, o: Oid, t: Tid, want: Flags, timeout: Tick)
    requires Inv(k) && Object(k, o) == FlagGrp(0) && Listed(Get(k, t).tbl, o)
    requires Get(k, t).flagsMode == SetAll && Get(k, t).flagsPend == want
    ensures var k' := FlagPend(k, o, want, ClrAll, true, timeout, false).k;
      WaitsFor(k', t, o) && MetBy(Get(k', t), Object(k', o).flags) && Get(k', t) == Get(k, t)
  {
    hide CoreInv, ObjInv, BlockCur;
    NotTheCaller(k, o, t);
    ClearedBits(want);
  }

  lemma NotTheCaller(k: K, o: Oid, t: Tid)
    requires Inv(k) && Listed(Get(k, t).tbl, o)
    ensures t != k.cur
  {
    hide CoreInv;
    ReadyAwaitsNothing(k, k.cur);
  }

  lemma ClearedBits(want: Flags)
    ensures FlagMet(ClrAll, 0, want) && FlagBits(ClrAll, 0, want) == want
    ensures FlagConsumed(ClrAll, 0, want) == want && FlagMet(SetAll, want, want)
  {
  }
}
