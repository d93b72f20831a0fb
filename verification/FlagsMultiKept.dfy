/** Event flags and the pend on several objects keep the invariant. */
module FlagsMultiKept {
  import opened TaskLists
  import opened KernelState
  import opened KernelOps
  import opened ListMoves
  import opened CoreKept
  import opened ObjKept
  import opened WakeMany
  import opened Services
  import opened ServicesKept
  import opened ObjectsKept

  // ------------------------------------------------------------------------------------- event flags

  lemma CurFieldInv(k: K, want: Flags, mode: FlagMode, rdy: Flags)
    requires Inv(k)
    ensures Inv(Put(k, k.cur, Get(k, k.cur).(flagsPend := want, flagsMode := mode, flagsRdy := rdy)))
  {
    TcbOkOf(k, k.cur);
    FieldInv(k, k.cur, Get(k, k.cur).(flagsPend := want, flagsMode := mode, flagsRdy := rdy));
  }

  lemma SetFlagsInv(k: K, o: Oid, flags: Flags)
    requires ListsInv(k) && Object(k, o).FlagGrp?
    ensures ListsInv(SetObj(k, o, FlagGrp(flags)))
  {
    SetObjKept(k, o, FlagGrp(flags));
  }

  lemma FlagPendInv(k: K, o: Oid, want: Flags, mode: FlagMode, consume: bool, timeout: Tick, nonBlocking: bool)
    requires Inv(k) && k.cur != k.idle
    ensures Inv(FlagPend(k, o, want, mode, consume, timeout, nonBlocking).k)
  {
    match Object(k, o)
    case FlagGrp(flags) =>
      var b := Get(k, k.cur);
      if FlagMet(mode, flags, want) {
        var rdy := FlagBits(mode, flags, want);
        CurFieldInv(k, b.flagsPend, b.flagsMode, rdy);
        var k1 := Put(k, k.cur, b.(flagsRdy := rdy));
        assert b.(flagsPend := b.flagsPend, flagsMode := b.flagsMode, flagsRdy := rdy) == b.(flagsRdy := rdy);
        SetFlagsInv(k1, o, FlagConsumed(mode, flags, rdy));
      } else if !nonBlocking && k.lock == 0 {
        CurFieldInv(k, want, mode, 0);
        var k1 := Put(k, k.cur, b.(flagsPend := want, flagsMode := mode, flagsRdy := 0));
        EntryOk(k1, OnFlag, o);
        BlockInv(k1, OnFlag, Entry(o), timeout, false);
      }
    case _ =>
  }

  lemma FlagConsumeInv(k: K, o: Oid)
    requires Inv(k)
    ensures Inv(FlagConsume(k, o).k)
  {
    match Object(k, o)
    case FlagGrp(flags) =>
      SetFlagsInv(k, o, FlagConsumed(Get(k, k.cur).flagsMode, flags, Get(k, k.cur).flagsRdy));
    case _ =>
  }

  predicate MetBy(b: Tcb, flags: Flags) {
    FlagMet(b.flagsMode, flags, b.flagsPend)
  }

  /** None of the tasks that the post will wake is suspended with its timeout still running. */
  ghost predicate WakesClean(k: K, ts: seq<Tid>, flags: Flags) {
    forall t: Tid :: Count(ts, t) > 0 && MetBy(Get(k, t), flags) ==> Get(k, t).state != PEND_TIMEOUT_SUSPENDED
  }

  /** One step of the loop of OS_FlagPost. */
  function FlagStep(k: K, t: Tid, flags: Flags): K {
    var b := Get(k, t);
    if FlagMet(b.flagsMode, flags, b.flagsPend) then FlagReady(k, t, FlagBits(b.flagsMode, flags, b.flagsPend)) else k
  }

  lemma FlagStepInv(k: K, ts: seq<Tid>, o: Oid, flags: Flags)
    requires ListsInv(k) && AmongWaiters(k, ts, o) && WakesClean(k, ts, flags) && ts != []
    ensures var k' := FlagStep(k, ts[0], flags);
      && ListsInv(k') && Stable(k, k') && AmongWaiters(k', ts[1..], o) && WakesClean(k', ts[1..], flags)
      && Touches(k, ts[0], k')
  {
    var t := ts[0];
    CountPositive(ts, 0);
    forall x: Tid ensures Count(ts[1..], x) <= Count(ts, x) {}
    WaiterPends(k, t, o);
    if MetBy(Get(k, t), flags) {
      var ev := Flagged(FlagBits(Get(k, t).flagsMode, flags, Get(k, t).flagsPend));
      WakeShape(k, t, ev);
      WakeListsInv(k, t, ev);
      AmongAfterFirst(k, ts, o, ev);
      StillClean(k, ts, o, flags, ev);
    }
  }

  lemma StillClean(k: K, ts: seq<Tid>, o: Oid, flags: Flags, ev: Event)
    requires ListsInv(k) && AmongWaiters(k, ts, o) && WakesClean(k, ts, flags) && ts != [] && ev.Flagged?
    ensures WakesClean(Wake(k, ts[0], ev), ts[1..], flags)
  {
    var k' := Wake(k, ts[0], ev);
    forall t: Tid | Count(ts[1..], t) > 0 && MetBy(Get(k', t), flags)
      ensures Get(k', t).state != PEND_TIMEOUT_SUSPENDED
    {
      assert Count(ts, t) <= Count(k.wait[o], t);
      WaiterPends(k, t, o);
      assert Count(k.wait[o], t) == if Listed(Get(k, t).tbl, o) then 1 else 0;
      assert t != ts[0];
      assert Get(k', t) == Get(k, t);
    }
  }

  lemma {:induction false} FlagReadyAllInv(k: K, ts: seq<Tid>, o: Oid, flags: Flags)
    requires ListsInv(k) && AmongWaiters(k, ts, o) && WakesClean(k, ts, flags)
    ensures ListsInv(FlagReadyAll(k, ts, flags)) && Stable(k, FlagReadyAll(k, ts, flags))
    decreases |ts|
  {
    if ts != [] {
      FlagStepInv(k, ts, o, flags);
      FlagReadyAllInv(FlagStep(k, ts[0], flags), ts[1..], o, flags);
    }
  }

  lemma FlagWakesInv(k: K, o: Oid, now: Flags, noSched: bool)
    requires Inv(k) && Object(k, o).FlagGrp? && Waiters(k, o) != [] && WakesClean(k, Waiters(k, o), now)
    ensures Inv(MaybeSched(FlagReadyAll(SetObj(k, o, FlagGrp(now)), Waiters(k, o), now), noSched))
  {
    var k1 := SetObj(k, o, FlagGrp(now));
    SetFlagsInv(k, o, now);
    assert forall t: Tid :: Get(k1, t) == Get(k, t);
    FlagReadyAllInv(k1, k.wait[o], o, now);
    SchedInv(FlagReadyAll(k1, k.wait[o], now), noSched);
  }

  lemma FlagPostInv(k: K, o: Oid, bits: Flags, set': bool, noSched: bool)
    requires Inv(k)
    requires Object(k, o).FlagGrp? ==> WakesClean(k, Waiters(k, o), PostedFlags(Object(k, o).flags, bits, set'))
    ensures Inv(FlagPost(k, o, bits, set', noSched).k)
  {
    hide CoreInv, ObjInv, Sched, MaybeSched, WakesClean, FlagReadyAll, PostedFlags;
    match Object(k, o)
    case FlagGrp(flags) =>
      var now := PostedFlags(flags, bits, set');
      SetFlagsInv(k, o, now);
      if Waiters(k, o) != [] {
        FlagWakesInv(k, o, now, noSched);
      }
    case _ =>
  }

  // -------------------------------------------------------------------------------------- multi-pend

  /** Taking from the objects keeps the invariant. */
  lemma {:induction false} TakeReadyInv(k: K, tbl: seq<PendData>)
    requires ListsInv(k)
    ensures ListsInv(k.(obj := TakeReady(k.obj, tbl).0))
    decreases |tbl|
  {
    if tbl != [] {
      var o := tbl[0].obj;
      var v := Object(k, o);
      ObjOkOf(k, o);
      if v.Queue? && v.msgs != [] {
        SetObjKept(k, o, v.(msgs := v.msgs[1..]));
        TakeReadyInv(SetObj(k, o, v.(msgs := v.msgs[1..])), tbl[1..]);
      } else if v.Sem? && v.ctr > 0 {
        SetObjKept(k, o, v.(ctr := v.ctr - 1));
        TakeReadyInv(SetObj(k, o, v.(ctr := v.ctr - 1)), tbl[1..]);
      } else {
        TakeReadyInv(k, tbl[1..]);
      }
    }
  }

  /** The object has a unit to give. */
  predicate HasUnit(v: Obj) {
    (v.Queue? && v.msgs != []) || (v.Sem? && v.ctr > 0)
  }

  /** Nothing was taken exactly when no object had anything; then the table is the caller's, with the marks cleared. */
  lemma {:induction false} NothingReady(k: K, tbl: seq<PendData>)
    requires TakeReady(k.obj, tbl).2 == 0
    ensures var (obj, got, n) := TakeReady(k.obj, tbl);
      && obj == k.obj && |got| == |tbl| && Unmarked(got) && (Distinct(tbl) <==> Distinct(got))
      && (forall o: Oid :: Listed(got, o) <==> Listed(tbl, o))
      && forall o: Oid :: Listed(tbl, o) ==> !HasUnit(Object(k, o))
    decreases |tbl|
  {
    if tbl != [] {
      NothingReady(k, tbl[1..]);
      var got := TakeReady(k.obj, tbl).1;
      assert got[1..] == TakeReady(k.obj, tbl[1..]).1;
    }
  }

  /** The guards of OSPendMulti after which the caller blocks: a table of semaphores and queues none of which has
      anything, a blocking call, and an unlocked scheduler. */
  ghost predicate MultiBlocks(k: K, tbl: seq<PendData>, nonBlocking: bool) {
    && tbl != [] && MultiValid(k, tbl) && !nonBlocking && k.lock == 0
    && forall o: Oid :: Listed(tbl, o) ==> !HasUnit(Object(k, o))
  }

  lemma MultiBlocksWhen(k: K, tbl: seq<PendData>, timeout: Tick, nonBlocking: bool)
    ensures MultiBlocks(k, tbl, nonBlocking) <==> MultiPend(k, tbl, timeout, nonBlocking).err == Blocked
  {
    hide TakeReady, MultiValid, Block, Sched, Listed, HasUnit;
    if TakeReady(k.obj, tbl).2 == 0 {
      NothingReady(k, tbl);
    } else if forall o: Oid :: Listed(tbl, o) ==> !HasUnit(Object(k, o)) {
      NoneReady(k, tbl);
    }
  }

  lemma {:induction false} NoneReady(k: K, tbl: seq<PendData>)
    requires forall o: Oid :: Listed(tbl, o) ==> !HasUnit(Object(k, o))
    ensures TakeReady(k.obj, tbl).2 == 0
    decreases |tbl|
  {
    if tbl != [] {
      assert Listed(tbl, tbl[0].obj);
      forall o: Oid | Listed(tbl[1..], o) ensures !HasUnit(Object(k, o)) {
        assert Listed(tbl, o);
      }
      NoneReady(k, tbl[1..]);
    }
  }

  lemma {:induction false} MultiValidKinds(k: K, tbl: seq<PendData>, o: Oid)
    requires MultiValid(k, tbl) && Listed(tbl, o)
    ensures o in k.obj && KindOk(OnMulti, Object(k, o))
    decreases |tbl|
  {
    if tbl[0].obj != o {
      MultiValidKinds(k, tbl[1..], o);
    }
  }

  /** Something is available: the call takes it and returns. No entry need be distinct from the others. */
  lemma MultiTakeInv(k: K, tbl: seq<PendData>, timeout: Tick, nonBlocking: bool)
    requires Inv(k) && tbl != [] && MultiValid(k, tbl) && TakeReady(k.obj, tbl).2 > 0
    ensures Inv(MultiPend(k, tbl, timeout, nonBlocking).k)
  {
    hide ReadyInv, WheelInv, WaitInv, TcbInv, Sched, Block;
    var (obj, got, n) := TakeReady(k.obj, tbl);
    TakeReadyInv(k, tbl);
    var k1 := k.(obj := obj);
    var b := Get(k, k.cur).(got := got);
    TcbOkOf(k, k.cur);
    FieldInv(k1, k.cur, b);
    assert Put(k1, k.cur, b) == Put(k, k.cur, b).(obj := obj);
  }

  lemma MultiPendInv(k: K, tbl: seq<PendData>, timeout: Tick, nonBlocking: bool)
    requires Inv(k) && k.cur != k.idle && Distinct(tbl)
    ensures Inv(MultiPend(k, tbl, timeout, nonBlocking).k)
  {
    hide CoreInv, ObjInv, Sched, Block;
    if tbl != [] && MultiValid(k, tbl) {
      var (obj, got, n) := TakeReady(k.obj, tbl);
      if n > 0 {
        MultiTakeInv(k, tbl, timeout, nonBlocking);
      } else {
        NothingReady(k, tbl);
        MultiTableOk(k, tbl);
        BlockInv(k, OnMulti, got, timeout, nonBlocking);
      }
    }
  }

  lemma MultiTableOk(k: K, tbl: seq<PendData>)
    requires Inv(k) && tbl != [] && MultiValid(k, tbl) && TakeReady(k.obj, tbl).2 == 0
    ensures forall o: Oid :: Listed(TakeReady(k.obj, tbl).1, o) ==>
      o in k.wait && KindOk(OnMulti, Object(k, o)) && MayWait(k, o, k.cur)
  {
    NothingReady(k, tbl);
    forall o: Oid | Listed(tbl, o) ensures o in k.wait && KindOk(OnMulti, Object(k, o)) && MayWait(k, o, k.cur) {
      MultiValidKinds(k, tbl, o);
    }
  }
}
