/** What a task finds when its wait is over: what its call answers, the message, the flags, and which of several objects
    it was. Everything else about the task is as it was when it fell asleep.
  */
module WaitAnswers {
  import opened TaskLists
  import opened KernelState
  import opened KernelOps
  import opened ListMoves
  import opened CoreKept
  import opened Services
  import opened FlagsMultiKept
  import opened TickWheel
  import opened SingleFlags
  import opened Departures
  import opened Run
  import opened Effects
  import opened MutexRun
  import opened Frames
  import opened Broadcast
  import opened FallingAsleep
  import opened PendAnswers
  import opened ReadyOrder

  /** The wait is over, with this answer and this message. */
  predicate Finds(b: Tcb, b': Tcb, answer: Err, m: Msg) {
    && PendResult(b'.status) == answer
    && b' == b.(state := Live(b.state.Live? && b.state.susp, false, false), pendOn := OnNothing, status := b'.status, msg := m,
         tbl := [], got := b'.got, spoke := -1, due := if b.spoke >= 0 then 0 else b.due)
  }

  /** Of the objects a multi-pend waited for, o is marked, with this message if one is given, and no other. */
  predicate MarksOnly(b: Tcb, b': Tcb, o: Oid, m: Option<Msg>) {
    b.pendOn == OnMulti ==>
      && |b'.got| == |b.tbl|
      && forall i: nat :: i < |b.tbl| ==> b'.got[i] == Marked1(b.tbl[i], o, m)
  }

  function Marked1(d: PendData, o: Oid, m: Option<Msg>): PendData {
    if d.obj == o then PendData(o, true, if m.Some? then m.value else d.msg) else d
  }

  lemma {:induction false} MarkIs(tbl: seq<PendData>, o: Oid, m: Option<Msg>, i: nat)
    requires i < |tbl| && Distinct(tbl)
    ensures |Mark(tbl, o, m)| == |tbl|
    ensures Mark(tbl, o, m)[i] == Marked1(tbl[i], o, m)
  {
    if tbl[0].obj == o {
      if i > 0 {
        AtListed(tbl[1..], i - 1);
      }
    } else if i > 0 {
      MarkIs(tbl[1..], o, m, i - 1);
    } else {
      MarkLength(tbl[1..], o, m);
    }
  }

  lemma {:induction false} MarkLength(tbl: seq<PendData>, o: Oid, m: Option<Msg>)
    ensures |Mark(tbl, o, m)| == |tbl|
  {
    if tbl != [] {
      MarkLength(tbl[1..], o, m);
    }
  }

  lemma {:induction false} AtListed(tbl: seq<PendData>, i: nat)
    requires i < |tbl|
    ensures Listed(tbl, tbl[i].obj)
  {
    if i > 0 {
      AtListed(tbl[1..], i - 1);
    }
  }

  lemma MarksFound(b: Tcb, o: Oid, m: Option<Msg>, got: seq<PendData>)
    requires Distinct(b.tbl) && (b.pendOn == OnMulti ==> got == Mark(b.tbl, o, m))
    ensures MarksOnly(b, b.(got := got), o, m)
  {
    hide Mark, Marked1;
    MarkLength(b.tbl, o, m);
    forall i: nat | i < |b.tbl| ensures Mark(b.tbl, o, m)[i] == Marked1(b.tbl[i], o, m) {
      MarkIs(b.tbl, o, m, i);
    }
  }

  lemma PostFinds(b: Tcb, o: Oid, m: Msg)
    requires b.state.Live? && Distinct(b.tbl)
    ensures var b' := Finish(b, Posted(Some(o), m));
      Finds(b, b', ErrNone, if b.pendOn == OnMulti then b.msg else m) && MarksOnly(b, b', o, Some(m))
  {
    hide Mark, Marked1;
    MarksFound(b, o, Some(m), Finish(b, Posted(Some(o), m)).got);
  }

  lemma AbortFinds(b: Tcb, o: Oid)
    requires b.state.Live? && Distinct(b.tbl)
    ensures var b' := Finish(b, Aborted(Some(o))); Finds(b, b', ErrPendAbort, Msg(0, 0)) && MarksOnly(b, b', o, None)
  {
    hide Mark, Marked1;
    MarksFound(b, o, None, Finish(b, Aborted(Some(o))).got);
  }

  lemma DelFinds(b: Tcb, o: Oid)
    requires b.state.Live? && Distinct(b.tbl)
    ensures var b' := Finish(b, ObjDeleted(Some(o))); Finds(b, b', ErrObjDel, Msg(0, 0)) && MarksOnly(b, b', o, None)
  {
    hide Mark, Marked1;
    MarksFound(b, o, None, Finish(b, ObjDeleted(Some(o))).got);
  }

  /** A task that is woken with its object: a post brings success, and the message if it is one to a queue; an abort and
      a deletion bring their own answers and no message. */
  lemma WokenFinds(k: K, op: Op, t: Tid)
    requires Inv(k) && Wakes(k, op, t) && !op.OpFlagPost?
    ensures var b, b' := Get(k, t), Get(Step(k, op), t);
      match op
      case OpSemPost(o, _, _) =>
        Finds(b, b', ErrNone, if b.pendOn == OnMulti then b.msg else Msg(0, 0)) && MarksOnly(b, b', o, Some(Msg(0, 0)))
      case OpQPost(o, m, _, _, _, _) =>
        Finds(b, b', ErrNone, if b.pendOn == OnMulti then b.msg else m) && MarksOnly(b, b', o, Some(m))
      case OpMutexPost(_, _) => Finds(b, b', ErrNone, Msg(0, 0))
      case OpPendAbort(o, _, _) => Finds(b, b', ErrPendAbort, Msg(0, 0)) && MarksOnly(b, b', o, None)
      case OpObjDel(o, _) => Finds(b, b', ErrObjDel, Msg(0, 0)) && MarksOnly(b, b', o, None)
      case OpMutexDel(_, _) => Finds(b, b', ErrObjDel, Msg(0, 0))
      case _ => false
  {
    hide Inv, Call, Names, Wakes, Finish, Finds, MarksOnly;
    WokenAlone(k, op, t);
    OthersStay(k, op, t);
    match op {
      case OpSemPost(o, _, _) => PostFinds(Get(k, t), o, Msg(0, 0));
      case OpQPost(o, m, _, _, _, _) => PostFinds(Get(k, t), o, m);
      case OpMutexPost(o, _) => PostFinds(Get(k, t), o, Msg(0, 0));
      case OpPendAbort(o, _, _) => AbortFinds(Get(k, t), o);
      case OpObjDel(o, _) => DelFinds(Get(k, t), o);
      case OpMutexDel(o, _) => DelFinds(Get(k, t), o);
      case _ => NoWaker(k, op, t);
    }
  }

  lemma NoWaker(k: K, op: Op, t: Tid)
    requires Wakes(k, op, t) && !op.OpFlagPost?
    ensures op.OpSemPost? || op.OpQPost? || op.OpMutexPost? || op.OpPendAbort? || op.OpObjDel? || op.OpMutexDel?
  {
  }

  /** Who is woken with an object is not a parameter of the call. */
  lemma WokenAlone(k: K, op: Op, t: Tid)
    requires Inv(k) && Wakes(k, op, t)
    ensures !op.OpTick? && !Names(k, op, t) && Get(k, t).state.Live? && Get(k, t).state.pend && Distinct(Get(k, t).tbl)
    ensures op.OpMutexPost? ==> Get(k, t).pendOn != OnMulti
  {
    hide CurOk, ReadyInv, WheelInv, MetBy, PostedFlags;
    WokenPends(k, op, t);
    TcbOkOf(k, t);
    if op.OpMutexDel? && Holds(k, t, op.o) {
      OwnerNotWoken(k, op, t);
    }
    if op.OpMutexPost? {
      assert Listed(Get(k, t).tbl, op.o) && KindOk(Get(k, t).pendOn, Object(k, op.o));
      CurNotListed(k, op.o);
    }
  }

  lemma CurNotListed(k: K, o: Oid)
    requires Inv(k)
    ensures !Listed(Get(k, k.cur).tbl, o)
  {
    hide ReadyInv, WheelInv, WaitInv, ObjInv;
    TcbOkOf(k, k.cur);
  }

  /** A task that waits for its own signals or messages. */
  lemma OwnWaitFinds(k: K, op: Op, t: Tid)
    requires Inv(k) && Get(k, t).state.Live? && Get(k, t).state.pend
    ensures var b, b' := Get(k, t), Get(Step(k, op), t);
      match op
      case OpTaskSemPost(x, _) => x == t && b.pendOn == OnTaskSem ==> Finds(b, b', ErrNone, Msg(0, 0))
      case OpTaskQPost(x, m, _, _, _) => x == t && b.pendOn == OnTaskQ ==> Finds(b, b', ErrNone, m)
      case OpTaskPendAbort(x, on, _) => x == t && t != k.cur && b.pendOn == on ==> Finds(b, b', ErrPendAbort, Msg(0, 0))
      case _ => true
  {
    hide Inv, Wake, MaybeSched, Finish, Finds;
    var b := Get(k, t);
    OwnFinish(b);
    match op {
      case OpTaskSemPost(x, noSched) =>
        WakeOnly(k, t, Posted(None, Msg(0, 0)), noSched);
      case OpTaskQPost(x, m, _, noSched, _) =>
        hide MsgPut;
        WakeOnly(k, t, Posted(None, m), noSched);
      case OpTaskPendAbort(x, on, noSched) =>
        WakeOnly(k, t, Aborted(None), noSched);
      case _ =>
    }
  }

  lemma OwnFinish(b: Tcb)
    requires b.state.Live?
    ensures forall m: Msg :: b.pendOn != OnMulti ==> Finds(b, Finish(b, Posted(None, m)), ErrNone, m)
    ensures Finds(b, Finish(b, Aborted(None)), ErrPendAbort, Msg(0, 0))
  {
  }

  lemma TimeoutFinish(b: Tcb)
    requires b.state.Live?
    ensures Finds(b, Finish(b, TimedOut), ErrTimeout, Msg(0, 0)) && Finish(b, TimedOut).got == b.tbl
  {
  }

  lemma DelayFinish(b: Tcb)
    requires b.state.Live? && b.tbl == [] && b.pendOn == OnNothing && b.spoke >= 0
    ensures Finish(b, DelayOver) == b.(state := Live(b.state.susp, false, false), spoke := -1, due := 0)
  {
    hide EventTbl;
  }

  /** At the tick: a wait whose time is up ends with a timeout and no message; a delay just ends. */
  lemma TimeUpFinds(k: K, t: Tid)
    requires Inv(k) && Get(k, t).state.Live? && Get(k, t).state.dly
    ensures var b := Get(k, t); var k' := Step(k, OpTick); var b' := Get(k', t);
      && k'.now == (k.now + 1) % 0x1_0000_0000
      && if b.due != k'.now then b' == b
         else if b.state.pend then Finds(b, b', ErrTimeout, Msg(0, 0)) && b'.got == b.tbl
         else b' == b.(state := Live(b.state.susp, false, false), spoke := -1, due := 0)
  {
    hide CoreInv, ObjInv, CurOk, TickUpdate, Expired, Finds;
    TickExpiresExactlyTheDue(k);
    TickCounts(k);
    assert Get(TickUpdate(k), t) == NaiveTick(k, t);
    ExpiredFinds(k, t);
  }

  lemma ExpiredFinds(k: K, t: Tid)
    requires Inv(k) && Get(k, t).state.Live? && Get(k, t).state.dly
    ensures var b := Get(k, t); var b' := Expired(b);
      if b.state.pend then Finds(b, b', ErrTimeout, Msg(0, 0)) && b'.got == b.tbl
      else b' == b.(state := Live(b.state.susp, false, false), spoke := -1, due := 0)
  {
    hide ReadyInv, WheelInv, WaitInv, ObjInv, CurOk, Finish, Finds;
    TcbOkOf(k, t);
    if Get(k, t).state.pend {
      TimeoutFinish(Get(k, t));
    } else {
      DelayFinish(Get(k, t));
    }
  }

  lemma TickCounts(k: K)
    ensures TickUpdate(k).now == (k.now + 1) % 0x1_0000_0000
  {
    hide ExpireDue;
    ExpireNow(k.(now := Add32(k.now, 1)), if SpokeOf(Add32(k.now, 1), |k.wheel|) < |k.wheel|
      then k.wheel[SpokeOf(Add32(k.now, 1), |k.wheel|)] else []);
  }

  lemma {:induction false} ExpireNow(k: K, q: seq<Tid>)
    ensures ExpireDue(k, q).now == k.now
    decreases |q|
  {
    if q != [] {
      var b := Get(k, q[0]);
      if !b.state.Live? || !b.state.dly {
        ExpireNow(k, q[1..]);
      } else if b.due == k.now {
        hide Wake;
        WakeCalm(k, q[0], if b.state.pend then TimedOut else DelayOver);
        ExpireNow(Expire(k, q[0]), q[1..]);
      }
    }
  }

  /** OSTimeDlyResume ends a delay, and nothing else changes. */
  lemma DelayResumed(k: K, t: Tid)
    requires Inv(k) && t != k.cur && Get(k, t).state.Live? && Get(k, t).state.dly && !Get(k, t).state.pend
    ensures var b := Get(k, t);
      Get(Step(k, OpDlyResume(t)), t) == b.(state := Live(b.state.susp, false, false), spoke := -1, due := 0)
  {
    hide ReadyInv, WheelInv, WaitInv, ObjInv, CurOk, Wake, Sched;
    TcbOkOf(k, t);
    WakeOnly(k, t, DelayOver, false);
    SchedNow(Wake(k, t, DelayOver));
  }

  /** A task that is woken is taken off every pend list and spoke it was on; the others on them keep their order. */
  ghost predicate LeavesItsLists(k: K, t: Tid, k': K) {
    && |k'.wheel| == |k.wheel| && (forall i: nat :: i < |k.wheel| ==> Without(k.wheel[i], k'.wheel[i], t))
    && k'.wait.Keys == k.wait.Keys && forall o: Oid :: o in k.wait ==> Without(k.wait[o], k'.wait[o], t)
  }

  lemma WakeLeavesLists(k: K, t: Tid, ev: Event)
    requires Inv(k) && Ends(ev, Get(k, t).state)
    ensures LeavesItsLists(k, t, Wake(k, t, ev))
  {
    hide CoreInv, ObjInv, CurOk, Drop, TakenOff, UnlinkAll, Finish, TcbOk, Without;
    var b, k' := Get(k, t), Wake(k, t, ev);
    NotThere(k, t);
    TableDistinct(k, t);
    WokenLists(k, t, ev);
    UnlinkAllAt(k.wait, b.tbl, t, 0);
    forall o: Oid | o in k.wait ensures Without(k.wait[o], k'.wait[o], t) {
      UnlinkAllAt(k.wait, b.tbl, t, o);
      DropWithout(k.wait[o], t);
    }
    forall i: nat | i < |k.wheel| ensures Without(k.wheel[i], k'.wheel[i], t) {
      DropWithout(k.wheel[i], t);
    }
  }

  lemma TableDistinct(k: K, t: Tid)
    requires Inv(k) && t in k.tcb
    ensures Distinct(Get(k, t).tbl)
  {
    hide ReadyInv, WheelInv, WaitInv, ObjInv, CurOk;
    TcbOkOf(k, t);
  }

  lemma WokenLists(k: K, t: Tid, ev: Event)
    requires Ends(ev, Get(k, t).state)
    ensures var k' := Wake(k, t, ev); var b := Get(k, t);
      k'.wait == UnlinkAll(k.wait, b.tbl, t) && k'.wheel == WheelDrop(k.wheel, b.spoke, t)
  {
    hide UnlinkAll, WheelDrop, Finish;
  }

  /** A task whose own wait ends, by its signal, its message or an abort. */
  lemma OwnWaitLeaves(k: K, op: Op, t: Tid)
    requires Inv(k) && Get(k, t).state.Live? && Get(k, t).state.pend
    ensures match op
      case OpTaskSemPost(x, _) => x == t && Get(k, t).pendOn == OnTaskSem ==> LeavesItsLists(k, t, Step(k, op))
      case OpTaskQPost(x, _, _, _, _) => x == t && Get(k, t).pendOn == OnTaskQ ==> LeavesItsLists(k, t, Step(k, op))
      case OpTaskPendAbort(x, on, _) =>
        x == t && t != k.cur && Get(k, t).pendOn == on ==> LeavesItsLists(k, t, Step(k, op))
      case _ => true
  {
    hide Inv, Wake, MaybeSched, LeavesItsLists;
    match op {
      case OpTaskSemPost(_, noSched) => OwnLeaves(k, t, Posted(None, NO_MSG), noSched);
      case OpTaskQPost(_, m, _, noSched, _) => OwnLeaves(k, t, Posted(None, m), noSched);
      case OpTaskPendAbort(_, _, noSched) => OwnLeaves(k, t, Aborted(None), noSched);
      case _ =>
    }
  }

  lemma OwnLeaves(k: K, t: Tid, ev: Event, noSched: bool)
    requires Inv(k) && Ends(ev, Get(k, t).state)
    ensures LeavesItsLists(k, t, MaybeSched(Wake(k, t, ev), noSched))
  {
    hide Inv, Wake, Sched, Without;
    WakeLeavesLists(k, t, ev);
    SchedKeepsTcbs(Wake(k, t, ev), noSched);
  }

  // ------------------------------------------------------------------------------------- event flags

  /** The flags named are set, or cleared, and no other changes. */
  ghost predicate ArePosted(flags: Flags, bits: Flags, set': bool, flags': Flags) {
    forall m: Flags :: OneBit(m) ==> (Has(flags', m) <==> if Has(bits, m) then set' else Has(flags, m))
  }

  lemma PostedAre(flags: Flags, bits: Flags, set': bool)
    ensures ArePosted(flags, bits, set', PostedFlags(flags, bits, set'))
  {
    hide PostedFlags, OneBit, Has;
    forall m: Flags | OneBit(m)
      ensures Has(PostedFlags(flags, bits, set'), m) <==> if Has(bits, m) then set' else Has(flags, m)
    {
      PostedMeans(flags, bits, set', m);
    }
  }

  /** What a waiter finds after a post of flags that meets its condition. Suspended with its timeout running, it stays in
      the wheel. */
  ghost predicate FindsFlags(b: Tcb, b': Tcb, flags: Flags) {
    && PendResult(b'.status) == ErrNone && AreFound(b'.flagsRdy, b.flagsMode, flags, b.flagsPend)
    && var stuck := b.state == Live(true, true, true);
      b' == b.(state := Live(b.state.Live? && b.state.susp, false, false), pendOn := OnNothing, status := b'.status, tbl := [],
        got := b'.got, flagsRdy := b'.flagsRdy, spoke := if stuck then b.spoke else -1,
        due := if !stuck && b.spoke >= 0 then 0 else b.due)
  }

  /** OSFlagPost: the group has the flags as posted; the tasks that wait for it and whose condition holds on them become
      ready, in order, and find their flags; every other task is untouched. */
  lemma FlagPostAnswers(k: K, o: Oid, bits: Flags, set': bool, noSched: bool)
    requires Inv(k)
    ensures var r := Call(k, OpFlagPost(o, bits, set', noSched)); var v, v' := Object(k, o), Object(r.k, o);
      if !v.FlagGrp? then r == R(k, ErrObjType) else
      && r.err == ErrNone && v'.FlagGrp? && ArePosted(v.flags, bits, set', v'.flags)
      && GetReady(k, TheMet(k, Waiters(k, o), v'.flags), r.k)
      && forall t: Tid ::
        if Listed(Get(k, t).tbl, o) && Fulfilled(Get(k, t).flagsMode, v'.flags, Get(k, t).flagsPend)
        then FindsFlags(Get(k, t), Get(r.k, t), v'.flags) else Get(r.k, t) == Get(k, t)
  {
    hide Inv, ArePosted, Fulfilled, FindsFlags, FlagPost, PostedFlags, FlagWoken, GetReady, TheMet;
    var r := FlagPost(k, o, bits, set', noSched);
    FlagPostGroup(k, o, bits, set', noSched);
    if Object(k, o).FlagGrp? {
      var flags := PostedFlags(Object(k, o).flags, bits, set');
      PostedAre(Object(k, o).flags, bits, set');
      FlagPostReadies(k, o, bits, set', noSched);
      forall t: Tid
        ensures if Listed(Get(k, t).tbl, o) && Fulfilled(Get(k, t).flagsMode, flags, Get(k, t).flagsPend)
          then FindsFlags(Get(k, t), Get(r.k, t), flags) else Get(r.k, t) == Get(k, t)
      {
        FlagPostOne(k, o, bits, set', noSched, t);
      }
    }
  }

  lemma FlagPostReadies(k: K, o: Oid, bits: Flags, set': bool, noSched: bool)
    requires Inv(k) && Object(k, o).FlagGrp?
    ensures var flags := PostedFlags(Object(k, o).flags, bits, set');
      GetReady(k, TheMet(k, Waiters(k, o), flags), FlagPost(k, o, bits, set', noSched).k)
  {
    hide CoreInv, ObjInv, CurOk, PostedFlags, FlagReadyAll, Sched, TheMet, Readied, Joined, Pending;
    var flags := PostedFlags(Object(k, o).flags, bits, set');
    var k1 := SetObj(k, o, FlagGrp(flags));
    var w := Waiters(k, o);
    WaitersPend(k, o);
    SamePending(k, k1, w, flags);
    FlagReadyAllReadies(k1, w, flags);
    SchedKeepsTcbs(FlagReadyAll(k1, w, flags), noSched);
    forall p: nat ensures Readied(k1, TheMet(k, w, flags), p) == Readied(k, TheMet(k, w, flags), p) {
      SameReadied(k, k1, TheMet(k, w, flags), p);
    }
    if w == [] {
      NoFlagReady(k1, flags);
    }
  }

  lemma NoFlagReady(k: K, flags: Flags)
    ensures FlagReadyAll(k, [], flags) == k
  {
  }

  lemma SamePending(k: K, k1: K, w: seq<Tid>, flags: Flags)
    requires AllPend(k, w) && k1.tcb == k.tcb && k1.rdy == k.rdy
    ensures AllPend(k1, w) && TheMet(k1, w, flags) == TheMet(k, w, flags)
    ensures forall x: Tid :: Get(k1, x) == Get(k, x)
  {
    SameMet(k, k1, w, flags);
    assert forall x: Tid :: Pending(k, x) ==> Pending(k1, x);
  }

  lemma FlagPostOne(k: K, o: Oid, bits: Flags, set': bool, noSched: bool, t: Tid)
    requires Inv(k) && Object(k, o).FlagGrp?
    ensures var k' := FlagPost(k, o, bits, set', noSched).k; var flags := PostedFlags(Object(k, o).flags, bits, set');
      if Listed(Get(k, t).tbl, o) && Fulfilled(Get(k, t).flagsMode, flags, Get(k, t).flagsPend)
      then FindsFlags(Get(k, t), Get(k', t), flags) else Get(k', t) == Get(k, t)
  {
    hide CoreInv, ObjInv, CurOk, FlagPost, PostedFlags, Fulfilled, FlagWoken, FindsFlags, FlagMet;
    var flags := PostedFlags(Object(k, o).flags, bits, set');
    FlagPostWakesExactlyTheMet(k, o, bits, set', noSched, t);
    MetMeans(Get(k, t).flagsMode, flags, Get(k, t).flagsPend);
    if Listed(Get(k, t).tbl, o) {
      ListedLive(k, t);
      FlagWokenFinds(Get(k, t), flags);
    }
  }

  lemma ListedLive(k: K, t: Tid)
    requires Inv(k) && Get(k, t).tbl != []
    ensures Get(k, t).state.Live?
  {
    hide ReadyInv, WheelInv, WaitInv, ObjInv, CurOk;
    TcbOkOf(k, t);
  }

  lemma FlagWokenFinds(b: Tcb, flags: Flags)
    ensures b.state.Live? ==> FindsFlags(b, FlagWoken(b, flags), flags)
  {
    hide FlagBits, AreFound;
    FoundAre(b.flagsMode, flags, b.flagsPend);
  }

  lemma FlagPostGroup(k: K, o: Oid, bits: Flags, set': bool, noSched: bool)
    ensures var r := FlagPost(k, o, bits, set', noSched);
      if Object(k, o).FlagGrp?
      then r.err == ErrNone && Object(r.k, o) == FlagGrp(PostedFlags(Object(k, o).flags, bits, set'))
      else r == R(k, ErrObjType)
  {
    hide PostedFlags, FlagReadyAll, Sched;
    if Object(k, o).FlagGrp? {
      var flags := PostedFlags(Object(k, o).flags, bits, set');
      var k1 := SetObj(k, o, FlagGrp(flags));
      FlagReadyAllCalm(k1, Waiters(k, o), flags);
      SchedKeepsTcbs(FlagReadyAll(k1, Waiters(k, o), flags), noSched);
    }
  }
}
