/** Which calls end a wait for a semaphore or a queue with success: the posts to it, and no other call. */
module Grants {
  import opened TaskLists
  import opened KernelState
  import opened KernelOps
  import opened CoreKept
  import opened Services
  import opened TickWheel
  import opened FlagsMultiKept
  import opened Departures
  import opened Run
  import opened Frames

  /** The table entries of o that a multi-pend reports as ready. */
  function Marked(tbl: seq<PendData>, o: Oid): nat {
    if tbl == [] then 0 else (if tbl[0].obj == o && tbl[0].rdy then 1 else 0) + Marked(tbl[1..], o)
  }

  lemma {:induction false} UnmarkedNone(tbl: seq<PendData>, o: Oid)
    requires Unmarked(tbl)
    ensures Marked(tbl, o) == 0
  {
    if tbl != [] {
      UnmarkedNone(tbl[1..], o);
    }
  }

  /** Only the object that became ready is marked. */
  lemma {:induction false} MarksOne(tbl: seq<PendData>, x: Oid, m: Option<Msg>, o: Oid)
    requires Unmarked(tbl)
    ensures Marked(Mark(tbl, x, m), o) == if o == x && Listed(tbl, x) then 1 else 0
  {
    if tbl != [] {
      var r := Mark(tbl, x, m);
      if tbl[0].obj == x {
        assert r[1..] == tbl[1..];
        UnmarkedNone(tbl[1..], o);
      } else {
        assert r[1..] == Mark(tbl[1..], x, m);
        MarksOne(tbl[1..], x, m, o);
      }
    }
  }

  /** The wait for o ends with success, and of several objects waited for it is o that became ready. */
  predicate Granted(b: Tcb, b': Tcb, o: Oid) {
    Listed(b.tbl, o) && !Listed(b'.tbl, o) && b'.state != Deleted && PendResult(b'.status) == ErrNone
    && (b.pendOn == OnMulti ==> Marked(b'.got, o) > 0)
  }

  predicate Counted(v: Obj) {
    v.Sem? || v.Queue?
  }

  /** The call posts to o through the service for its kind. */
  predicate PostsTo(k: K, op: Op, o: Oid) {
    (op.OpSemPost? && op.o == o && Object(k, o).Sem?) || (op.OpQPost? && op.o == o && Object(k, o).Queue?)
  }

  /** It does so, and t is the first that waits for o or all are meant. */
  predicate PostsFor(k: K, op: Op, t: Tid, o: Oid) {
    PostsTo(k, op, o) && FirstOrAll(k, o, t, op.all)
  }

  /** A wait for a semaphore or a queue ends with success if and only if the call posts to it, and the task is the first
      that waits for it or all are meant. */
  lemma GrantedExactly(k: K, op: Op, t: Tid, o: Oid)
    requires Inv(k) && WellUsed(k, op) && Counted(Object(k, o))
    ensures Granted(Get(k, t), Get(Step(k, op), t), o) <==> PostsFor(k, op, t, o)
  {
    hide Inv, WellUsed, Call, Granted, Names, Interrupts, Wakes, PostsFor;
    if !Listed(Get(k, t).tbl, o) {
      NoWait(k, op, t, o);
    } else {
      ListedWaits(k, t, o);
      PostWakes(k, op, t, o);
      if op.OpTick? {
        TickGrantsNobody(k, t, o);
      } else if !Interrupts(k, op, t) {
        WaitEndsExactly(k, op, t);
        StillListed(Get(k, t), Get(Step(k, op), t), o);
      } else if Names(k, op, t) {
        NamedNotGranted(k, op, t, o);
      } else {
        OthersStay(k, op, t);
        UnnamedInterrupt(k, op, t);
        WokenGrants(k, op, t, o);
      }
    }
  }

  lemma NoWait(k: K, op: Op, t: Tid, o: Oid)
    requires !Listed(Get(k, t).tbl, o)
    ensures !Granted(Get(k, t), Get(Step(k, op), t), o) && !PostsFor(k, op, t, o)
  {
    hide Call;
  }

  lemma ListedWaits(k: K, t: Tid, o: Oid)
    requires Inv(k) && Counted(Object(k, o)) && Listed(Get(k, t).tbl, o)
    ensures t != k.cur && t != k.idle && Waits(Get(k, t)) && Get(k, t).state.pend && Get(k, t).pendOn != OnNothing
    ensures TcbOk(Get(k, t), |k.rdy|, |k.wheel|, k.now) && KindOk(Get(k, t).pendOn, Object(k, o))
  {
    hide ReadyInv, WheelInv, ObjInv;
    TcbOkOf(k, t);
  }

  lemma PostWakes(k: K, op: Op, t: Tid, o: Oid)
    ensures PostsFor(k, op, t, o) ==> !op.OpTick? && Interrupts(k, op, t) && !Names(k, op, t)
  {
    hide Call, FirstOrAll;
  }

  lemma TickGrantsNobody(k: K, t: Tid, o: Oid)
    requires Inv(k) && Waits(Get(k, t)) && Get(k, t).state.pend
    ensures !Granted(Get(k, t), Get(Step(k, OpTick), t), o)
  {
    hide CoreInv, ObjInv, CurOk, TickUpdate, Marked;
    TickExpiresExactlyTheDue(k);
    assert Get(TickUpdate(k), t) == NaiveTick(k, t);
  }

  lemma StillListed(b: Tcb, b': Tcb, o: Oid)
    requires SameWait(b, b')
    ensures !Granted(b, b', o)
  {
  }

  /** A task that the call names is deleted, or its wait is aborted. */
  lemma NamedNotGranted(k: K, op: Op, t: Tid, o: Oid)
    requires Inv(k) && WellUsed(k, op) && Names(k, op, t) && Interrupts(k, op, t) && t != k.cur && t != k.idle
    requires Waits(Get(k, t)) && Get(k, t).state.pend && Get(k, t).pendOn != OnNothing
    requires KindOk(Get(k, t).pendOn, Object(k, o)) && Counted(Object(k, o))
    ensures !Granted(Get(k, t), Get(Step(k, op), t), o) && !PostsTo(k, op, o)
  {
    hide Inv, WellUsed, Names, Interrupts, Wakes, Waits, Call, Granted;
    WhoIsNamed(k, op, t);
    if op.OpTaskDel? {
      DeletedNotGranted(k, t, o);
    } else if op.OpMutexPend? || op.OpMutexDel? {
      OwnerNotWoken(k, op, t);
    } else if op.OpTaskPendAbort? || op.OpDlyResume? || op.OpTaskSemPost? || op.OpTaskQPost? {
      SignalInterrupts(k, op, t);
      AbortedNotGranted(k, t, op.on, op.noSched, o);
    }
  }

  lemma DeletedNotGranted(k: K, t: Tid, o: Oid)
    requires Waits(Get(k, t)) && t != k.idle
    ensures !Granted(Get(k, t), Get(Step(k, OpTaskDel(t)), t), o)
  {
    hide RdyRemove, WheelDrop, UnlinkAll;
  }

  lemma AbortedNotGranted(k: K, t: Tid, on: PendOn, noSched: bool, o: Oid)
    requires t != k.cur && Waits(Get(k, t)) && Get(k, t).state.pend && Get(k, t).pendOn == on
    ensures !Granted(Get(k, t), Get(Step(k, OpTaskPendAbort(t, on, noSched)), t), o)
  {
    hide Wake, MaybeSched, EventTbl, EventMsg;
    WakeOnly(k, t, Aborted(None), noSched);
  }

  /** Of the calls that wake it, those that post to o, and only those, end the wait for o with success. */
  lemma WokenGrants(k: K, op: Op, t: Tid, o: Oid)
    requires Inv(k) && Wakes(k, op, t) && Waits(Get(k, t)) && TcbOk(Get(k, t), |k.rdy|, |k.wheel|, k.now)
    requires Listed(Get(k, t).tbl, o) && Counted(Object(k, o)) && KindOk(Get(k, t).pendOn, Object(k, o))
    ensures Granted(Get(k, t), WokenTcb(k, op, Get(k, t)), o) <==> PostsFor(k, op, t, o)
  {
    hide Inv, KindOk, TcbOk, Sorted, Object, FirstOrAll, MetBy, PostedFlags, Granted, FlagWoken, Finish;
    var b := Get(k, t);
    match op {
      case OpSemPost(x, all, _) => PostGrants(k, t, x, NO_MSG, all, o);
      case OpQPost(x, m, _, all, _, _) => PostGrants(k, t, x, m, all, o);
      case OpMutexPost(x, _) => OtherKind(k, t, x, false, o);
      case OpFlagPost(x, _, _, _) => OtherKind(k, t, x, true, o);
      case OpObjDel(x, _) => NotGranted(b, ObjDeleted(Some(x)), o);
      case OpMutexDel(x, _) => NotGranted(b, ObjDeleted(Some(x)), o);
      case OpPendAbort(x, _, _) => NotGranted(b, Aborted(Some(x)), o);
    }
  }

  lemma NotGranted(b: Tcb, ev: Event, o: Oid)
    requires ev.ObjDeleted? || ev.Aborted?
    ensures !Granted(b, Finish(b, ev), o)
  {
    hide EventTbl, EventMsg, Marked;
  }

  /** A task does not wait for objects of two kinds. */
  lemma OtherKind(k: K, t: Tid, x: Oid, all: bool, o: Oid)
    requires Inv(k) && FirstOrAll(k, x, t, all) && KindOk(Get(k, t).pendOn, Object(k, o)) && Counted(Object(k, o))
    ensures !Object(k, x).Mutex? && !Object(k, x).FlagGrp?
  {
    hide ReadyInv, WheelInv, TcbInv, ObjInv, CurOk;
    assert KindOk(Get(k, t).pendOn, Object(k, x));
  }

  /** Posting to x grants the wait for x, and no other wait. */
  lemma PostGrants(k: K, t: Tid, x: Oid, m: Msg, all: bool, o: Oid)
    requires FirstOrAll(k, x, t, all) && Listed(Get(k, t).tbl, o) && Waits(Get(k, t))
    requires TcbOk(Get(k, t), |k.rdy|, |k.wheel|, k.now) && KindOk(Get(k, t).pendOn, Object(k, o)) && Counted(Object(k, o))
    ensures Granted(Get(k, t), Finish(Get(k, t), Posted(Some(x), m)), o) <==> x == o
  {
    hide Mark, Marked;
    var b := Get(k, t);
    MarksOne(b.tbl, x, Some(m), o);
    if b.pendOn == OnMulti {
      assert EventTbl(b, Posted(Some(x), m)) == Mark(b.tbl, x, Some(m));
    } else {
      assert |b.tbl| == 1 && b.tbl[1..] == [] && !Listed(b.tbl[1..], x) && !Listed(b.tbl[1..], o);
    }
  }

  // ---------------------------------------------------------------------------------------- how many

  /** How many of the tasks have their wait for o end with success. */
  function GrantCount(k: K, k': K, ts: seq<Tid>, o: Oid): nat {
    if ts == [] then 0
    else (if Granted(Get(k, ts[0]), Get(k', ts[0]), o) then 1 else 0) + GrantCount(k, k', ts[1..], o)
  }

  lemma {:induction false} GrantsAll(k: K, k': K, ts: seq<Tid>, o: Oid, all: bool)
    requires forall t: Tid :: Count(ts, t) > 0 ==> (Granted(Get(k, t), Get(k', t), o) <==> all)
    ensures GrantCount(k, k', ts, o) == if all then |ts| else 0
  {
    hide Granted;
    if ts != [] {
      assert Count(ts, ts[0]) > 0;
      forall t: Tid | Count(ts[1..], t) > 0 ensures Granted(Get(k, t), Get(k', t), o) <==> all {
        assert Count(ts, t) > 0;
      }
      GrantsAll(k, k', ts[1..], o, all);
    }
  }

  /** A post grants the waits of all that wait for o, or of the first, and any other call grants none. */
  lemma GrantsExactly(k: K, op: Op, o: Oid)
    requires Inv(k) && WellUsed(k, op) && Counted(Object(k, o))
    ensures var w := Waiters(k, o);
      GrantCount(k, Step(k, op), w, o) == if !PostsTo(k, op, o) || w == [] then 0 else if op.all then |w| else 1
  {
    hide Inv, WellUsed, Step, Granted;
    var w := Waiters(k, o);
    forall t: Tid | Count(w, t) > 0 ensures Count(w, t) == 1 && Listed(Get(k, t).tbl, o)
      && (Granted(Get(k, t), Get(Step(k, op), t), o) <==> PostsFor(k, op, t, o))
    {
      OnceInList(k, o, t);
      GrantedExactly(k, op, t, o);
    }
    if w == [] {
    } else if !PostsTo(k, op, o) || op.all {
      GrantsAll(k, Step(k, op), w, o, PostsTo(k, op, o));
    } else {
      assert Count(w, w[0]) == 1;
      forall t: Tid | Count(w[1..], t) > 0 ensures !Granted(Get(k, t), Get(Step(k, op), t), o) {
        assert Count(w, t) > 0 && t != w[0];
      }
      GrantsAll(k, Step(k, op), w[1..], o, false);
    }
  }

  lemma OnceInList(k: K, o: Oid, t: Tid)
    requires Inv(k) && Count(Waiters(k, o), t) > 0
    ensures Count(Waiters(k, o), t) == 1 && Listed(Get(k, t).tbl, o)
  {
    hide ReadyInv, WheelInv, TcbInv, ObjInv, CurOk;
  }
}
