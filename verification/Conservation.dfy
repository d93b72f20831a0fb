/** No signal and no message is lost or duplicated. Over any run, what was in a semaphore or a queue and what was posted
    to it equals what was taken from it and what is still in it; a queue that is posted to at its tail gives its messages
    out in the order in which they came.
  */
module Conservation {
  import opened TaskLists
  import opened KernelState
  import opened KernelOps
  import opened CoreKept
  import opened ObjKept
  import opened Services
  import opened ObjectsKept
  import opened Departures
  import opened Run
  import opened Effects
  import opened Broadcast
  import opened Frames
  import opened Grants

  // -------------------------------------------------------------------------------------- semaphores

  function Units(v: Obj): nat {
    if v.Sem? then v.ctr else 0
  }

  /** Signals the call adds: one for a post, one per waiter for a post to all; none if it was refused. */
  function Signalled(k: K, op: Op, o: Oid): nat {
    if op.OpSemPost? && op.o == o && Call(k, op).err == ErrNone
    then if op.all && Waiters(k, o) != [] then |Waiters(k, o)| else 1 else 0
  }

  /** What the caller itself obtains, without waiting. */
  function Taken(k: K, op: Op, o: Oid): nat {
    if op.OpSemPend? && op.o == o && Call(k, op).err == ErrNone then 1
    else if op.OpMultiPend? && Call(k, op).err == ErrNone then Marked(Get(Step(k, op), k.cur).got, o)
    else 0
  }

  /** The units that tasks obtain through the call: what the caller takes at once, and one for each task whose wait for o
      ends with success. */
  function Obtained(k: K, op: Op, o: Oid): nat {
    Taken(k, op, o) + GrantCount(k, Step(k, op), Waiters(k, o), o)
  }

  /** The calls that set the contents of o. */
  predicate Resets(op: Op, o: Oid) {
    match op
    case OpCreate(x, _) => x == o
    case OpObjDel(x, _) => x == o
    case OpSemSet(x, _) => x == o
    case OpQFlush(x) => x == o
    case _ => false
  }

  lemma {:induction false} TakeMarks(obj: map<Oid, Obj>, tbl: seq<PendData>, o: Oid)
    requires o in obj && obj[o].Sem?
    ensures var (obj', got, n) := TakeReady(obj, tbl);
      o in obj' && obj'[o].Sem? && obj'[o].ctr + Marked(got, o) == obj[o].ctr && |got| == |tbl|
    decreases |tbl|
  {
    if tbl != [] {
      var x := tbl[0].obj;
      var v := if x in obj then obj[x] else Gone;
      var got := TakeReady(obj, tbl).1;
      if v.Queue? && v.msgs != [] {
        TakeMarks(obj[x := v.(msgs := v.msgs[1..])], tbl[1..], o);
        assert got[1..] == TakeReady(obj[x := v.(msgs := v.msgs[1..])], tbl[1..]).1;
      } else if v.Sem? && v.ctr > 0 {
        TakeMarks(obj[x := v.(ctr := v.ctr - 1)], tbl[1..], o);
        assert got[1..] == TakeReady(obj[x := v.(ctr := v.ctr - 1)], tbl[1..]).1;
      } else {
        TakeMarks(obj, tbl[1..], o);
        assert got[1..] == TakeReady(obj, tbl[1..]).1;
      }
    }
  }

  lemma PostLeaves(k: K, o: Oid, ev: Event, all: bool)
    requires ListsInv(k) && Waiters(k, o) != [] && !ev.DelayOver?
    ensures var w := Waiters(k, o); var k' := WakeAll(k, if all then w else w[..1], ev);
      Waiters(k', o) == (if all then [] else w[1..]) && k'.obj == k.obj
  {
    hide CoreInv, ObjInv, WakeAll, Finish;
    ObjOkOf(k, o);
    FirstWoken(k, o, ev);
    BroadcastWakesEachOnce(k, o, ev);
    WakeAllCalm(k, if all then Waiters(k, o) else Waiters(k, o)[..1], ev);
  }

  lemma SemPostBalance(k: K, op: Op)
    requires Inv(k) && op.OpSemPost? && Object(k, op.o).Sem?
    ensures Object(Step(k, op), op.o).Sem?
    ensures Units(Object(Step(k, op), op.o)) + Obtained(k, op, op.o) == Units(Object(k, op.o)) + Signalled(k, op, op.o)
  {
    hide CoreInv, ObjInv, CurOk, WakeAll, Sched, GrantCount;
    var w := Waiters(k, op.o);
    GrantsExactly(k, op, op.o);
    if w != [] {
      var ev := Posted(Some(op.o), NO_MSG);
      PostLeaves(k, op.o, ev, op.all);
      SchedKeepsTcbs(WakeAll(k, if op.all then w else w[..1], ev), op.noSched);
    }
  }

  lemma SemPendBalance(k: K, op: Op)
    requires op.OpSemPend? && Object(k, op.o).Sem?
    ensures Object(Step(k, op), op.o).Sem?
    ensures Units(Object(Step(k, op), op.o)) + Taken(k, op, op.o) == Units(Object(k, op.o)) + Signalled(k, op, op.o)
  {
    hide BlockCur;
    BlockCurObj(k, OnSem, Entry(op.o), op.timeout, op.nonBlocking);
    BlockCurErr(k, OnSem, Entry(op.o), op.timeout, op.nonBlocking);
  }

  lemma BlockCurErr(k: K, on: PendOn, tbl: seq<PendData>, timeout: Tick, nonBlocking: bool)
    ensures BlockCur(k, on, tbl, timeout, nonBlocking).err != ErrNone
  {
  }

  lemma MultiBalance(k: K, op: Op, o: Oid)
    requires op.OpMultiPend? && Object(k, o).Sem?
    ensures Object(Step(k, op), o).Sem?
    ensures Units(Object(Step(k, op), o)) + Taken(k, op, o) == Units(Object(k, o)) + Signalled(k, op, o)
  {
    hide BlockCur, TakeReady, MultiValid;
    var got := TakeReady(k.obj, op.tbl).1;
    TakeMarks(k.obj, op.tbl, o);
    BlockCurObj(k, OnMulti, got, op.timeout, op.nonBlocking);
    BlockCurErr(k, OnMulti, got, op.timeout, op.nonBlocking);
  }

  lemma Uncounted(k: K, op: Op, o: Oid)
    requires !op.OpMultiPend? && !((op.OpSemPend? || op.OpSemPost?) && op.o == o)
    ensures Taken(k, op, o) == 0 && Signalled(k, op, o) == 0
  {
  }

  lemma SemBalance(k: K, op: Op, o: Oid)
    requires Inv(k) && WellUsed(k, op) && Object(k, o).Sem? && !Resets(op, o)
    ensures Object(Step(k, op), o).Sem?
    ensures Units(Object(Step(k, op), o)) + Obtained(k, op, o) == Units(Object(k, o)) + Signalled(k, op, o)
  {
    hide Inv, WellUsed, Step, Taken, Signalled, GrantCount;
    if op.OpSemPost? && op.o == o {
      SemPostBalance(k, op);
    } else {
      GrantsExactly(k, op, o);
      if op.OpSemPend? && op.o == o {
        SemPendBalance(k, op);
      } else if op.OpMultiPend? {
        MultiBalance(k, op, o);
      } else {
        Uncounted(k, op, o);
        SemUntouched(k, op, o);
      }
    }
  }

  lemma SemUntouched(k: K, op: Op, o: Oid)
    requires Inv(k) && Object(k, o).Sem? && !Resets(op, o) && !op.OpMultiPend?
    requires !((op.OpSemPend? || op.OpSemPost?) && op.o == o)
    ensures Object(Step(k, op), o) == Object(k, o)
  {
    hide Inv, Step;
    if !Targets(op, o) {
      StepObj(k, op, o);
    } else {
      OtherKindRefused(k, op, o);
    }
  }

  /** A call on an object through the services of another kind is refused, but for the abort, which wakes waiters. */
  lemma OtherKindRefused(k: K, op: Op, o: Oid)
    requires Inv(k) && Object(k, o).Sem? && Targets(op, o)
    requires op.OpQPend? || op.OpQPost? || op.OpMutexPend? || op.OpMutexPost? || op.OpMutexDel? || op.OpFlagPend?
      || op.OpFlagConsume? || op.OpFlagPost?
    ensures Step(k, op) == k
  {
    hide Inv, BlockCur, WakeAll, MaybeSched, RaiseOwner, Block, RestoreCur, Wake, SetOwnerPrio, Sched, FlagReadyAll;
  }

  function TotalSignalled(k: K, ops: seq<Op>, o: Oid): nat
    decreases |ops|
  {
    if ops == [] then 0 else Signalled(k, ops[0], o) + TotalSignalled(Step(k, ops[0]), ops[1..], o)
  }

  function TotalObtained(k: K, ops: seq<Op>, o: Oid): nat
    decreases |ops|
  {
    if ops == [] then 0 else Obtained(k, ops[0], o) + TotalObtained(Step(k, ops[0]), ops[1..], o)
  }

  /** Over every run: initial count and signals posted equal the present count and the units obtained, by whichever call
      a wait ends. */
  lemma {:induction false} SignalsConserved(k: K, ops: seq<Op>, o: Oid)
    requires Inv(k) && Proper(k, ops) && Object(k, o).Sem? && forall op: Op :: op in ops ==> !Resets(op, o)
    ensures Object(After(k, ops), o).Sem?
    ensures Units(Object(k, o)) + TotalSignalled(k, ops, o) == Units(Object(After(k, ops), o)) + TotalObtained(k, ops, o)
    decreases |ops|
  {
    hide Inv, Step, WellUsed, Harmless, Obtained, Signalled, Resets;
    if ops != [] {
      StepKeeps(k, ops[0]);
      SemBalance(k, ops[0], o);
      SignalsConserved(Step(k, ops[0]), ops[1..], o);
    }
  }

  // ------------------------------------------------------------------------------------------ queues

  function Messages(v: Obj): seq<Msg> {
    if v.Queue? then v.msgs else []
  }

  /** The messages of o in the table of a multi-pend, in order. */
  function MarkedMsgs(tbl: seq<PendData>, o: Oid): seq<Msg> {
    if tbl == [] then [] else (if tbl[0].obj == o && tbl[0].rdy then [tbl[0].msg] else []) + MarkedMsgs(tbl[1..], o)
  }

  function Copies(m: Msg, n: nat): seq<Msg> {
    if n == 0 then [] else [m] + Copies(m, n - 1)
  }

  /** The messages the call adds to the stream of o, if it was accepted: one copy for each task it wakes, or one for the
      queue. */
  function Sent(k: K, op: Op, o: Oid): seq<Msg> {
    if op.OpQPost? && op.o == o && Call(k, op).err == ErrNone
    then Copies(op.m, if op.all && Waiters(k, o) != [] then |Waiters(k, o)| else 1) else []
  }

  /** The message the caller takes, or the messages, without waiting. */
  function TakenMsgs(k: K, op: Op, o: Oid): seq<Msg> {
    if op.OpQPend? && op.o == o && Call(k, op).err == ErrNone then
      if Messages(Object(k, o)) == [] then [] else [Messages(Object(k, o))[0]]
    else if op.OpMultiPend? && Call(k, op).err == ErrNone then MarkedMsgs(Get(Step(k, op), k.cur).got, o)
    else []
  }

  /** The messages that reach a task through the call: what the caller takes at once, and what each task finds whose wait
      for o ends with success. */
  function Received(k: K, op: Op, o: Oid): seq<Msg> {
    TakenMsgs(k, op, o) + Handed(k, Step(k, op), Waiters(k, o), o)
  }

  /** The message a task that was woken by a post finds: in its TCB, or in its table for o after a multi-pend. */
  function HandedTo(b: Tcb, o: Oid): seq<Msg> {
    if MarkedMsgs(b.got, o) != [] then MarkedMsgs(b.got, o) else [b.msg]
  }

  /** What those of the tasks find whose wait for o ends with success, in order. */
  function Handed(k: K, k': K, ts: seq<Tid>, o: Oid): seq<Msg> {
    if ts == [] then []
    else (if Granted(Get(k, ts[0]), Get(k', ts[0]), o) then HandedTo(Get(k', ts[0]), o) else []) + Handed(k, k', ts[1..], o)
  }

  lemma {:induction false} EachACopy(k: K, k': K, ts: seq<Tid>, o: Oid, m: Msg)
    requires forall t: Tid :: Count(ts, t) > 0 && Granted(Get(k, t), Get(k', t), o) ==> HandedTo(Get(k', t), o) == [m]
    ensures Handed(k, k', ts, o) == Copies(m, GrantCount(k, k', ts, o))
  {
    hide HandedTo, Granted;
    if ts != [] {
      assert Count(ts, ts[0]) > 0;
      forall t: Tid | Count(ts[1..], t) > 0 && Granted(Get(k, t), Get(k', t), o) ensures HandedTo(Get(k', t), o) == [m] {
        assert Count(ts, t) > 0;
      }
      EachACopy(k, k', ts[1..], o, m);
    }
  }

  lemma {:induction false} NoneHanded(k: K, k': K, ts: seq<Tid>, o: Oid)
    requires GrantCount(k, k', ts, o) == 0
    ensures Handed(k, k', ts, o) == []
  {
    hide HandedTo, Granted;
    if ts != [] {
      NoneHanded(k, k', ts[1..], o);
    }
  }

  predicate AtTail(op: Op, o: Oid) {
    op.OpQPost? && op.o == o ==> !op.lifo
  }

  lemma {:induction false} TakeMsgs(obj: map<Oid, Obj>, tbl: seq<PendData>, o: Oid)
    requires o in obj && obj[o].Queue?
    ensures var (obj', got, n) := TakeReady(obj, tbl);
      o in obj' && obj'[o].Queue? && MarkedMsgs(got, o) + obj'[o].msgs == obj[o].msgs && |got| == |tbl|
    decreases |tbl|
  {
    if tbl != [] {
      var x := tbl[0].obj;
      var v := if x in obj then obj[x] else Gone;
      var got := TakeReady(obj, tbl).1;
      if v.Queue? && v.msgs != [] {
        TakeMsgs(obj[x := v.(msgs := v.msgs[1..])], tbl[1..], o);
        assert got[1..] == TakeReady(obj[x := v.(msgs := v.msgs[1..])], tbl[1..]).1;
        assert v.msgs == [v.msgs[0]] + v.msgs[1..];
      } else if v.Sem? && v.ctr > 0 {
        TakeMsgs(obj[x := v.(ctr := v.ctr - 1)], tbl[1..], o);
        assert got[1..] == TakeReady(obj[x := v.(ctr := v.ctr - 1)], tbl[1..]).1;
      } else {
        TakeMsgs(obj, tbl[1..], o);
        assert got[1..] == TakeReady(obj, tbl[1..]).1;
      }
    }
  }

  lemma {:induction false} MarkGives(tbl: seq<PendData>, o: Oid, m: Msg)
    requires Unmarked(tbl)
    ensures MarkedMsgs(Mark(tbl, o, Some(m)), o) == if Listed(tbl, o) then [m] else []
  {
    if tbl != [] {
      var r := Mark(tbl, o, Some(m));
      if tbl[0].obj == o {
        assert r[1..] == tbl[1..];
        NoMarks(tbl[1..], o);
      } else {
        assert r[1..] == Mark(tbl[1..], o, Some(m));
        MarkGives(tbl[1..], o, m);
      }
    }
  }

  lemma {:induction false} NoMarks(tbl: seq<PendData>, o: Oid)
    requires Unmarked(tbl)
    ensures MarkedMsgs(tbl, o) == []
  {
    if tbl != [] {
      NoMarks(tbl[1..], o);
    }
  }

  /** The waiter that a post wakes finds the message posted. */
  lemma PostDelivers(k: K, t: Tid, o: Oid, m: Msg)
    requires CoreInv(k) && Listed(Get(k, t).tbl, o) && Object(k, o).Queue?
    ensures HandedTo(Finish(Get(k, t), Posted(Some(o), m)), o) == [m]
  {
    hide ReadyInv, WheelInv, TcbInv;
    TcbOkOf(k, t);
    var b := Get(k, t);
    assert KindOk(b.pendOn, Object(k, o));
    MarkGives(b.tbl, o, m);
    NoMarks(b.tbl, o);
  }

  /** Each of the tasks that a post wakes finds a copy of the message. */
  lemma PostHands(k: K, op: Op)
    requires Inv(k) && op.OpQPost? && Object(k, op.o).Queue?
    ensures var w := Waiters(k, op.o);
      Handed(k, Step(k, op), w, op.o) == Copies(op.m, if w == [] then 0 else if op.all then |w| else 1)
  {
    hide Inv, Call, Granted, HandedTo, FirstOrAll;
    var w := Waiters(k, op.o);
    forall t: Tid | Count(w, t) > 0 && Granted(Get(k, t), Get(Step(k, op), t), op.o)
      ensures HandedTo(Get(Step(k, op), t), op.o) == [op.m]
    {
      GrantedExactly(k, op, t, op.o);
      OthersStay(k, op, t);
      OnceInList(k, op.o, t);
      Delivered(k, op, t);
    }
    EachACopy(k, Step(k, op), w, op.o, op.m);
    GrantsExactly(k, op, op.o);
  }

  lemma Delivered(k: K, op: Op, t: Tid)
    requires Inv(k) && op.OpQPost? && Object(k, op.o).Queue? && Listed(Get(k, t).tbl, op.o)
    ensures HandedTo(WokenTcb(k, op, Get(k, t)), op.o) == [op.m]
  {
    hide CoreInv, ObjInv, CurOk, Finish, HandedTo;
    PostDelivers(k, t, op.o, op.m);
  }

  lemma QPostBalance(k: K, op: Op)
    requires Inv(k) && op.OpQPost? && Object(k, op.o).Queue?
    ensures Object(Step(k, op), op.o).Queue?
    ensures var r := Received(k, op, op.o) + Messages(Object(Step(k, op), op.o)); var sent := Sent(k, op, op.o);
      r == if op.lifo && Waiters(k, op.o) == [] then sent + Messages(Object(k, op.o)) else Messages(Object(k, op.o)) + sent
  {
    hide CoreInv, ObjInv, CurOk, WakeAll, Sched, Handed;
    var w := Waiters(k, op.o);
    PostHands(k, op);
    if w == [] {
      assert Copies(op.m, 1) == [op.m] + Copies(op.m, 0) == [op.m];
    } else {
      var ev := Posted(Some(op.o), op.m);
      ObjOkOf(k, op.o);
      PostLeaves(k, op.o, ev, op.all);
      SchedKeepsTcbs(WakeAll(k, if op.all then w else w[..1], ev), op.noSched);
    }
  }

  lemma QPendBalance(k: K, op: Op)
    requires op.OpQPend? && Object(k, op.o).Queue?
    ensures Object(Step(k, op), op.o).Queue?
    ensures Messages(Object(k, op.o)) + Sent(k, op, op.o) == TakenMsgs(k, op, op.o) + Messages(Object(Step(k, op), op.o))
  {
    hide BlockCur;
    BlockCurObj(k, OnQ, Entry(op.o), op.timeout, op.nonBlocking);
    BlockCurErr(k, OnQ, Entry(op.o), op.timeout, op.nonBlocking);
  }

  /** A multi-pend either takes from the objects and returns, or leaves them alone. */
  lemma MultiOutcome(k: K, op: Op)
    requires op.OpMultiPend?
    ensures var r := Call(k, op); var (obj, got, n) := TakeReady(k.obj, op.tbl);
      if r.err == ErrNone then r.k.obj == obj && Get(r.k, k.cur).got == got else r.k.obj == k.obj
  {
    hide BlockCur, TakeReady, MultiValid;
    var got := TakeReady(k.obj, op.tbl).1;
    BlockCurObj(k, OnMulti, got, op.timeout, op.nonBlocking);
    BlockCurErr(k, OnMulti, got, op.timeout, op.nonBlocking);
  }

  lemma MultiMsgBalance(k: K, op: Op, o: Oid)
    requires op.OpMultiPend? && Object(k, o).Queue?
    ensures Object(Step(k, op), o).Queue?
    ensures Messages(Object(k, o)) + Sent(k, op, o) == TakenMsgs(k, op, o) + Messages(Object(Step(k, op), o))
  {
    hide Call, TakeReady, MarkedMsgs;
    MultiOutcome(k, op);
    TakeMsgs(k.obj, op.tbl, o);
  }

  lemma Silent(k: K, op: Op, o: Oid)
    requires !op.OpMultiPend? && !((op.OpQPend? || op.OpQPost?) && op.o == o)
    ensures Sent(k, op, o) == [] && TakenMsgs(k, op, o) == []
  {
  }

  lemma QueueUntouched(k: K, op: Op, o: Oid)
    requires Inv(k) && Object(k, o).Queue? && !Resets(op, o) && !op.OpMultiPend?
    requires !((op.OpQPend? || op.OpQPost?) && op.o == o)
    ensures Object(Step(k, op), o) == Object(k, o)
  {
    hide Inv, Step;
    if !Targets(op, o) {
      StepObj(k, op, o);
    } else {
      NotForQueues(k, op, o);
    }
  }

  lemma NotForQueues(k: K, op: Op, o: Oid)
    requires Object(k, o).Queue? && Targets(op, o)
    requires op.OpSemPend? || op.OpSemPost? || op.OpMutexPend? || op.OpMutexPost? || op.OpMutexDel? || op.OpFlagPend?
      || op.OpFlagConsume? || op.OpFlagPost?
    ensures Step(k, op) == k
  {
    hide BlockCur, WakeAll, MaybeSched, RaiseOwner, Block, RestoreCur, Wake, SetOwnerPrio, Sched, FlagReadyAll;
  }

  lemma QueueBalance(k: K, op: Op, o: Oid)
    requires Inv(k) && WellUsed(k, op) && Object(k, o).Queue? && !Resets(op, o)
    ensures Object(Step(k, op), o).Queue?
    ensures var r := Received(k, op, o) + Messages(Object(Step(k, op), o)); var sent := Sent(k, op, o);
      r == if AtTail(op, o) || Waiters(k, o) != [] then Messages(Object(k, o)) + sent else sent + Messages(Object(k, o))
  {
    hide Inv, WellUsed, Step, Sent, TakenMsgs, Handed;
    if op.OpQPost? && op.o == o {
      QPostBalance(k, op);
    } else {
      GrantsExactly(k, op, o);
      NoneHanded(k, Step(k, op), Waiters(k, o), o);
      if op.OpQPend? && op.o == o {
        QPendBalance(k, op);
      } else if op.OpMultiPend? {
        MultiMsgBalance(k, op, o);
      } else {
        Silent(k, op, o);
        QueueUntouched(k, op, o);
      }
    }
  }

  function AllSent(k: K, ops: seq<Op>, o: Oid): seq<Msg>
    decreases |ops|
  {
    if ops == [] then [] else Sent(k, ops[0], o) + AllSent(Step(k, ops[0]), ops[1..], o)
  }

  function AllReceived(k: K, ops: seq<Op>, o: Oid): seq<Msg>
    decreases |ops|
  {
    if ops == [] then [] else Received(k, ops[0], o) + AllReceived(Step(k, ops[0]), ops[1..], o)
  }

  /** Over every run that posts to o at its tail, or to all that wait for it: the messages received, followed by those
      still queued, are the messages queued at first followed by those sent, in order, a post to all sending one copy to
      each waiter. Nothing is lost, duplicated or overtaken. */
  lemma {:induction false} MessagesInOrder(k: K, ops: seq<Op>, o: Oid)
    requires Inv(k) && Proper(k, ops) && Object(k, o).Queue?
    requires forall op: Op :: op in ops ==> !Resets(op, o) && AtTail(op, o)
    ensures Object(After(k, ops), o).Queue?
    ensures AllReceived(k, ops, o) + Messages(Object(After(k, ops), o)) == Messages(Object(k, o)) + AllSent(k, ops, o)
    decreases |ops|
  {
    hide Inv, Step, WellUsed, Harmless, Sent, Received, Resets, AtTail, Messages;
    if ops != [] {
      var k1 := Step(k, ops[0]);
      StepKeeps(k, ops[0]);
      QueueBalance(k, ops[0], o);
      MessagesInOrder(k1, ops[1..], o);
      Regroup(Messages(Object(k, o)), Sent(k, ops[0], o), AllSent(k1, ops[1..], o), Received(k, ops[0], o),
        Messages(Object(k1, o)), AllReceived(k1, ops[1..], o), Messages(Object(After(k, ops), o)));
    }
  }

  /** Over every run, whichever end the posts go to: the messages received and those still queued are, each as often as
      it was sent, the messages queued at first and those sent. */
  lemma {:induction false} MessagesConserved(k: K, ops: seq<Op>, o: Oid)
    requires Inv(k) && Proper(k, ops) && Object(k, o).Queue? && forall op: Op :: op in ops ==> !Resets(op, o)
    ensures Object(After(k, ops), o).Queue?
    ensures multiset(AllReceived(k, ops, o)) + multiset(Messages(Object(After(k, ops), o))) ==
      multiset(Messages(Object(k, o))) + multiset(AllSent(k, ops, o))
    decreases |ops|
  {
    hide Inv, Step, WellUsed, Harmless, Sent, Received, Resets, AtTail, Messages;
    if ops != [] {
      var k1 := Step(k, ops[0]);
      StepKeeps(k, ops[0]);
      QueueBalance(k, ops[0], o);
      MessagesConserved(k1, ops[1..], o);
      BagStep(Messages(Object(k, o)), Sent(k, ops[0], o), AllSent(k1, ops[1..], o), Received(k, ops[0], o),
        Messages(Object(k1, o)), AllReceived(k1, ops[1..], o), Messages(Object(After(k, ops), o)));
    }
  }

  lemma BagStep(q: seq<Msg>, s: seq<Msg>, s': seq<Msg>, r: seq<Msg>, q1: seq<Msg>, r': seq<Msg>, q2: seq<Msg>)
    requires r + q1 == q + s || r + q1 == s + q
    requires multiset(r') + multiset(q2) == multiset(q1) + multiset(s')
    ensures multiset(r + r') + multiset(q2) == multiset(q) + multiset(s + s')
  {
    assert multiset(r) + multiset(q1) == multiset(q) + multiset(s) by {
      assert multiset(r + q1) == multiset(r) + multiset(q1);
      assert multiset(q + s) == multiset(s + q) == multiset(q) + multiset(s);
    }
    assert multiset(r + r') + multiset(q2) == multiset(r) + (multiset(r') + multiset(q2));
    assert multiset(q) + multiset(s + s') == (multiset(q) + multiset(s)) + multiset(s');
  }

  lemma Regroup(q: seq<Msg>, s: seq<Msg>, s': seq<Msg>, r: seq<Msg>, q1: seq<Msg>, r': seq<Msg>, q2: seq<Msg>)
    requires q + s == r + q1 && r' + q2 == q1 + s'
    ensures (r + r') + q2 == q + (s + s')
  {
    assert (r + r') + q2 == r + (r' + q2);
    assert r + (q1 + s') == (r + q1) + s';
  }
}
