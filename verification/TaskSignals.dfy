/** Signals and messages sent to tasks. None is lost or duplicated over any run: what was signalled to a task, and what it
    had, is what it took and what it has; its messages come in order. The tick task is such a task: the ticks signalled
    by the interrupt are the updates of the tick list and the signals still pending.
  */
module TaskSignals {
  import opened TaskLists
  import opened KernelState
  import opened KernelOps
  import opened CoreKept
  import opened Services
  import opened TickWheel
  import opened Run
  import opened Effects
  import opened MutexRun
  import opened Conservation
  import opened Frames
  import opened Delays

  /** The wait of a task for its own signals or messages ends with success. */
  predicate Served(b: Tcb, b': Tcb, on: PendOn) {
    b.pendOn == on && b'.pendOn != on && PendResult(b'.status) == ErrNone
  }

  /** Only the post that belongs to it serves a wait for the task's own signals or messages. */
  lemma OnlyPostServes(k: K, op: Op, t: Tid, on: PendOn)
    requires Inv(k) && WellUsed(k, op) && Spares(op, t) && (on == OnTaskSem || on == OnTaskQ)
    requires !(op.OpTaskSemPost? && op.t == t && on == OnTaskSem) && !(op.OpTaskQPost? && op.t == t && on == OnTaskQ)
    ensures !Served(Get(k, t), Get(Step(k, op), t), on)
  {
    hide Inv, Call, WellUsed;
    if Get(k, t).pendOn == on {
      OwnWaiter(k, t, on);
      if op.OpTick? {
        TickServesNobody(k, t);
      } else if !Interrupts(k, op, t) {
        WaitEndsExactly(k, op, t);
      } else {
        OwnNotWoken(k, op, t);
        AbortServesNobody(k, op, t);
      }
    }
  }

  lemma OwnWaiter(k: K, t: Tid, on: PendOn)
    requires Inv(k) && Get(k, t).pendOn == on && (on == OnTaskSem || on == OnTaskQ)
    ensures Waits(Get(k, t)) && Get(k, t).state.pend && Get(k, t).tbl == []
    ensures on == OnTaskSem ==> Get(k, t).semCtr == 0
    ensures on == OnTaskQ ==> Get(k, t).taskQ == []
  {
    hide ReadyInv, WheelInv, WaitInv, ObjInv;
    TcbOkOf(k, t);
  }

  /** A task that waits for its own signals or messages is on no list. */
  lemma OwnNotWoken(k: K, op: Op, t: Tid)
    requires Get(k, t).tbl == []
    ensures !Wakes(k, op, t)
  {
  }

  lemma TickServesNobody(k: K, t: Tid)
    requires Inv(k) && Get(k, t).state.Live? && Get(k, t).state.pend
    ensures var b' := Get(Step(k, OpTick), t); b' == Get(k, t) || b'.status == StatusTimeout
  {
    hide CoreInv, ObjInv, CurOk, TickUpdate;
    TickExpiresExactlyTheDue(k);
    assert Get(TickUpdate(k), t) == NaiveTick(k, t);
  }

  lemma AbortServesNobody(k: K, op: Op, t: Tid)
    requires op.OpTaskPendAbort? && op.t == t && Get(k, t).state.Live? && Get(k, t).state.pend
    ensures var b' := Get(Step(k, op), t); b'.pendOn == Get(k, t).pendOn || b'.status == StatusAbort
  {
    hide Wake, MaybeSched;
    WakeOnly(k, t, Aborted(None), op.noSched);
  }

  // ------------------------------------------------------------------------------------------- signals

  /** A signal to t that is accepted. */
  function SignalTo(k: K, op: Op, t: Tid): nat {
    if op.OpTaskSemPost? && op.t == t && Call(k, op).err == ErrNone then 1 else 0
  }

  /** t takes a signal: its own call returns one, or its wait is served. */
  function SignalTaken(k: K, op: Op, t: Tid): nat {
    if op.OpTaskSemPend? && k.cur == t then if Call(k, op).err == ErrNone then 1 else 0
    else if Served(Get(k, t), Get(Step(k, op), t), OnTaskSem) then 1 else 0
  }

  lemma PendTakes(k: K, op: Op, t: Tid)
    requires Inv(k) && op.OpTaskSemPend? && k.cur == t
    ensures Get(k, t).semCtr + SignalTo(k, op, t) == Get(Step(k, op), t).semCtr + SignalTaken(k, op, t)
  {
    hide Inv, BlockCur;
    BlockCurOnly(k, OnTaskSem, [], op.timeout, op.nonBlocking);
    BlockCurErr(k, OnTaskSem, [], op.timeout, op.nonBlocking);
  }

  lemma PostGives(k: K, op: Op, t: Tid)
    requires Inv(k) && op.OpTaskSemPost? && op.t == t
    ensures Get(k, t).semCtr + SignalTo(k, op, t) == Get(Step(k, op), t).semCtr + SignalTaken(k, op, t)
  {
    hide CoreInv, ObjInv, CurOk, Wake, MaybeSched;
    var ev := Posted(None, NO_MSG);
    WakeOnly(k, t, ev, op.noSched);
    if Get(k, t).pendOn == OnTaskSem {
      OwnWaiter(k, t, OnTaskSem);
    }
  }

  /** The calls about t's messages and period leave its signals alone. */
  lemma OtherOwnCalls(k: K, op: Op, t: Tid)
    requires (op.OpTaskQPost? && op.t == t) || ((op.OpTaskQPend? || op.OpDly?) && k.cur == t)
    ensures Get(Step(k, op), t).semCtr == Get(k, t).semCtr
  {
    hide TaskQPost, TaskQPend, TimeDly;
    match op
    case OpTaskQPost(_, m, lifo, noSched, poolEmpty) => QPostFields(k, t, m, lifo, noSched, poolEmpty);
    case OpTaskQPend(timeout, nonBlocking) => QPendFields(k, timeout, nonBlocking);
    case OpDly(dly, opt) => DlyFields(k, dly, opt);
  }

  lemma SignalBalance(k: K, op: Op, t: Tid)
    requires Inv(k) && WellUsed(k, op) && Spares(op, t)
    ensures Get(k, t).semCtr + SignalTo(k, op, t) == Get(Step(k, op), t).semCtr + SignalTaken(k, op, t)
  {
    hide Inv, Call, Served, WellUsed;
    if op.OpTaskSemPend? && k.cur == t {
      PendTakes(k, op, t);
    } else if op.OpTaskSemPost? && op.t == t {
      PostGives(k, op, t);
    } else {
      OnlyPostServes(k, op, t, OnTaskSem);
      if AboutOwn(k, op, t) {
        OtherOwnCalls(k, op, t);
      } else {
        OwnStays(k, op, t);
      }
    }
  }

  function SignalsTo(k: K, ops: seq<Op>, t: Tid): nat
    decreases |ops|
  {
    if ops == [] then 0 else SignalTo(k, ops[0], t) + SignalsTo(Step(k, ops[0]), ops[1..], t)
  }

  function SignalsTaken(k: K, ops: seq<Op>, t: Tid): nat
    decreases |ops|
  {
    if ops == [] then 0 else SignalTaken(k, ops[0], t) + SignalsTaken(Step(k, ops[0]), ops[1..], t)
  }

  /** Over every run in which t is not created or deleted: the signals it had and those sent to it are the signals it
      took and those it has. */
  lemma {:induction false} TaskSignalsConserved(k: K, ops: seq<Op>, t: Tid)
    requires Inv(k) && Proper(k, ops) && forall op: Op :: op in ops ==> Spares(op, t)
    ensures Get(k, t).semCtr + SignalsTo(k, ops, t) == Get(After(k, ops), t).semCtr + SignalsTaken(k, ops, t)
    decreases |ops|
  {
    hide Inv, Step, WellUsed, Harmless, SignalTo, SignalTaken, Spares;
    if ops != [] {
      StepKeeps(k, ops[0]);
      SignalBalance(k, ops[0], t);
      TaskSignalsConserved(Step(k, ops[0]), ops[1..], t);
    }
  }

  // ------------------------------------------------------------------------------------------ messages

  /** A message to t that is accepted. */
  function MsgTo(k: K, op: Op, t: Tid): seq<Msg> {
    if op.OpTaskQPost? && op.t == t && Call(k, op).err == ErrNone then [op.m] else []
  }

  /** The message t receives: the one its own call returns, or the one it finds in its TCB when its wait is served. */
  function MsgTaken(k: K, op: Op, t: Tid): seq<Msg> {
    if op.OpTaskQPend? && k.cur == t then
      if Call(k, op).err == ErrNone && Get(k, t).taskQ != [] then [Get(k, t).taskQ[0]] else []
    else if Served(Get(k, t), Get(Step(k, op), t), OnTaskQ) then [Get(Step(k, op), t).msg] else []
  }

  predicate ToTail(op: Op, t: Tid) {
    op.OpTaskQPost? && op.t == t ==> !op.lifo
  }

  lemma PendReceives(k: K, op: Op, t: Tid)
    requires Inv(k) && op.OpTaskQPend? && k.cur == t
    ensures Get(k, t).taskQ + MsgTo(k, op, t) == MsgTaken(k, op, t) + Get(Step(k, op), t).taskQ
  {
    hide Inv, BlockCur;
    BlockCurOnly(k, OnTaskQ, [], op.timeout, op.nonBlocking);
    BlockCurErr(k, OnTaskQ, [], op.timeout, op.nonBlocking);
  }

  lemma PostSends(k: K, op: Op, t: Tid)
    requires Inv(k) && op.OpTaskQPost? && op.t == t
    ensures var r := MsgTaken(k, op, t) + Get(Step(k, op), t).taskQ; var sent := MsgTo(k, op, t);
      r == if op.lifo && Get(k, t).pendOn != OnTaskQ then sent + Get(k, t).taskQ else Get(k, t).taskQ + sent
  {
    hide CoreInv, ObjInv, CurOk, Wake, MaybeSched;
    WakeOnly(k, t, Posted(None, op.m), op.noSched);
    if Get(k, t).pendOn == OnTaskQ {
      OwnWaiter(k, t, OnTaskQ);
    }
  }

  /** The calls about t's signals and period leave its messages alone. */
  lemma OtherQCalls(k: K, op: Op, t: Tid)
    requires (op.OpTaskSemPost? && op.t == t) || ((op.OpTaskSemPend? || op.OpDly?) && k.cur == t)
    ensures Get(Step(k, op), t).taskQ == Get(k, t).taskQ
  {
    hide TaskSemPost, TaskSemPend, TimeDly;
    match op
    case OpTaskSemPost(_, noSched) => SemPostFields(k, t, noSched);
    case OpTaskSemPend(timeout, nonBlocking) => SemPendFields(k, timeout, nonBlocking);
    case OpDly(dly, opt) => DlyFields(k, dly, opt);
  }

  lemma MsgBalance(k: K, op: Op, t: Tid)
    requires Inv(k) && WellUsed(k, op) && Spares(op, t)
    ensures var r := MsgTaken(k, op, t) + Get(Step(k, op), t).taskQ; var sent := MsgTo(k, op, t);
      r == if ToTail(op, t) || Get(k, t).pendOn == OnTaskQ then Get(k, t).taskQ + sent else sent + Get(k, t).taskQ
  {
    hide Inv, Call, Served, WellUsed;
    if op.OpTaskQPend? && k.cur == t {
      PendReceives(k, op, t);
    } else if op.OpTaskQPost? && op.t == t {
      PostSends(k, op, t);
    } else {
      OnlyPostServes(k, op, t, OnTaskQ);
      if AboutOwn(k, op, t) {
        OtherQCalls(k, op, t);
      } else {
        OwnStays(k, op, t);
      }
    }
  }

  function MsgsTo(k: K, ops: seq<Op>, t: Tid): seq<Msg>
    decreases |ops|
  {
    if ops == [] then [] else MsgTo(k, ops[0], t) + MsgsTo(Step(k, ops[0]), ops[1..], t)
  }

  function MsgsTaken(k: K, ops: seq<Op>, t: Tid): seq<Msg>
    decreases |ops|
  {
    if ops == [] then [] else MsgTaken(k, ops[0], t) + MsgsTaken(Step(k, ops[0]), ops[1..], t)
  }

  /** Over every run that posts to the tail of t's queue: the messages it received and then those it has are those it
      had and then those sent to it, in order. */
  lemma {:induction false} TaskMessagesInOrder(k: K, ops: seq<Op>, t: Tid)
    requires Inv(k) && Proper(k, ops) && forall op: Op :: op in ops ==> Spares(op, t) && ToTail(op, t)
    ensures MsgsTaken(k, ops, t) + Get(After(k, ops), t).taskQ == Get(k, t).taskQ + MsgsTo(k, ops, t)
    decreases |ops|
  {
    hide Inv, Step, WellUsed, Harmless, MsgTo, MsgTaken, Spares, ToTail;
    if ops != [] {
      var k1 := Step(k, ops[0]);
      StepKeeps(k, ops[0]);
      MsgBalance(k, ops[0], t);
      TaskMessagesInOrder(k1, ops[1..], t);
      Regroup(Get(k, t).taskQ, MsgTo(k, ops[0], t), MsgsTo(k1, ops[1..], t), MsgTaken(k, ops[0], t),
        Get(k1, t).taskQ, MsgsTaken(k1, ops[1..], t), Get(After(k, ops), t).taskQ);
    }
  }

  /** Over every run, whichever end the posts go to: the messages it received and those it has are, each as often as it
      was sent, those it had and those sent to it. */
  lemma {:induction false} TaskMessagesConserved(k: K, ops: seq<Op>, t: Tid)
    requires Inv(k) && Proper(k, ops) && forall op: Op :: op in ops ==> Spares(op, t)
    ensures multiset(MsgsTaken(k, ops, t)) + multiset(Get(After(k, ops), t).taskQ) ==
      multiset(Get(k, t).taskQ) + multiset(MsgsTo(k, ops, t))
    decreases |ops|
  {
    hide Inv, Step, WellUsed, Harmless, MsgTo, MsgTaken, Spares, ToTail;
    if ops != [] {
      var k1 := Step(k, ops[0]);
      StepKeeps(k, ops[0]);
      MsgBalance(k, ops[0], t);
      TaskMessagesConserved(k1, ops[1..], t);
      BagStep(Get(k, t).taskQ, MsgTo(k, ops[0], t), MsgsTo(k1, ops[1..], t), MsgTaken(k, ops[0], t),
        Get(k1, t).taskQ, MsgsTaken(k1, ops[1..], t), Get(After(k, ops), t).taskQ);
    }
  }

  // ------------------------------------------------------------------------------------ the tick task

  /** Signals the tick task has taken and not yet turned into an update of the tick list. */
  function Owed(k: K, op: Op, t: Tid, owed: int): int {
    owed + SignalTaken(k, op, t) - if op.OpTick? then 1 else 0
  }

  /** OS_TickTask: the one call it blocks in is to wait for a signal, when none is left to turn into an update; and
      nothing else updates the tick list. */
  predicate AsTickTask(k: K, op: Op, t: Tid, owed: int) {
    && (Pends(op) && k.cur == t ==> op.OpTaskSemPend? && owed == 0)
    && (op.OpTick? ==> k.cur == t && owed > 0)
  }

  predicate TickTaskRun(k: K, ops: seq<Op>, t: Tid, owed: int)
    decreases |ops|
  {
    ops == [] || (AsTickTask(k, ops[0], t, owed) && TickTaskRun(Step(k, ops[0]), ops[1..], t, Owed(k, ops[0], t, owed)))
  }

  function OwedAfter(k: K, ops: seq<Op>, t: Tid, owed: int): int
    decreases |ops|
  {
    if ops == [] then owed else OwedAfter(Step(k, ops[0]), ops[1..], t, Owed(k, ops[0], t, owed))
  }

  /** The tick task owes at most one update, and none while it waits. */
  predicate OwesOne(k: K, t: Tid, owed: int) {
    0 <= owed <= 1 && (Get(k, t).pendOn == OnTaskSem ==> owed == 0)
  }

  /** Only its own call makes the tick task wait. */
  lemma StartsNoWait(k: K, op: Op, t: Tid)
    requires Inv(k) && Spares(op, t) && Get(k, t).pendOn != OnTaskSem && (Pends(op) ==> k.cur != t)
    ensures Get(Step(k, op), t).pendOn != OnTaskSem
  {
    hide Inv, Call, Eased, SameWait;
    if t !in About(k, op) {
      StepCalm(k, op);
      EasedOn(Get(k, t), Get(Step(k, op), t));
    } else {
      AboutTickTask(k, op, t);
      SameOn(Get(k, t), Get(Step(k, op), t));
    }
  }

  lemma EasedOn(b: Tcb, b': Tcb)
    requires Eased(b, b')
    ensures b'.pendOn == b.pendOn || b'.pendOn == OnNothing
  {
  }

  lemma SameOn(b: Tcb, b': Tcb)
    requires SameWait(b, b')
    ensures b'.pendOn == b.pendOn
  {
  }

  lemma AboutTickTask(k: K, op: Op, t: Tid)
    requires Inv(k) && Spares(op, t) && t in About(k, op) && (Pends(op) ==> k.cur != t)
    ensures SameWait(Get(k, t), Get(Step(k, op), t))
  {
    hide Inv, Call, SameWait;
    match op {
      case OpChangePrio(_, _, _) => PrioWait(k, op);
      case OpMutexPend(_, _, _) | OpMutexDel(_, _) => OwnerWait(k, op, t);
      case OpMutexPost(o, noSched) => PostWait(k, o, noSched);
    }
  }

  lemma PostWait(k: K, o: Oid, noSched: bool)
    requires Inv(k)
    ensures SameWait(Get(k, k.cur), Get(Step(k, OpMutexPost(o, noSched)), k.cur))
  {
    hide Inv, RestoreCur, Wake, MaybeSched, Finish;
    if Holds(k, k.cur, o) && Object(k, o).nest <= 1 && Waiters(k, o) != [] {
      GrantEffect(k, o, noSched);
    }
  }

  lemma CurNotWaiting(k: K)
    requires Inv(k)
    ensures Get(k, k.cur).pendOn == OnNothing
  {
    hide ReadyInv, WheelInv, WaitInv, ObjInv;
    TcbOkOf(k, k.cur);
  }

  lemma PendKeepsOn(k: K, op: Op)
    requires op.OpTaskSemPend? && Get(k, k.cur).pendOn == OnNothing && Call(k, op).err == ErrNone
    ensures Get(Step(k, op), k.cur).pendOn == OnNothing
  {
    hide BlockCur;
    BlockCurErr(k, OnTaskSem, [], op.timeout, op.nonBlocking);
  }

  lemma OwesStep(k: K, op: Op, t: Tid, owed: int)
    requires Inv(k) && Spares(op, t) && AsTickTask(k, op, t, owed) && OwesOne(k, t, owed)
    ensures OwesOne(Step(k, op), t, Owed(k, op, t, owed))
  {
    hide Inv, Call, Spares;
    CurNotWaiting(k);
    if op.OpTaskSemPend? && k.cur == t {
      if Call(k, op).err == ErrNone {
        PendKeepsOn(k, op);
      }
    } else if Get(k, t).pendOn != OnTaskSem {
      StartsNoWait(k, op, t);
    }
  }

  lemma {:induction false} TicksAddUp(k: K, ops: seq<Op>, t: Tid, owed: int)
    requires Inv(k) && Proper(k, ops) && TickTaskRun(k, ops, t, owed) && OwesOne(k, t, owed)
    requires forall op: Op :: op in ops ==> Spares(op, t)
    ensures owed + SignalsTaken(k, ops, t) == TickCount(ops) + OwedAfter(k, ops, t, owed)
    ensures 0 <= OwedAfter(k, ops, t, owed) <= 1
    decreases |ops|
  {
    hide Inv, Step, SignalTaken, AsTickTask, WellUsed, Harmless, Spares;
    if ops != [] {
      StepKeeps(k, ops[0]);
      OwesStep(k, ops[0], t, owed);
      TicksAddUp(Step(k, ops[0]), ops[1..], t, Owed(k, ops[0], t, owed));
    }
  }

  /** Ticks signalled, and signals pending at first, are the updates done, the signals still pending, and at most one
      update about to be done. */
  lemma TicksNotLost(k: K, ops: seq<Op>, t: Tid)
    requires Inv(k) && Proper(k, ops) && TickTaskRun(k, ops, t, 0) && forall op: Op :: op in ops ==> Spares(op, t)
    ensures Get(k, t).semCtr + SignalsTo(k, ops, t) ==
      TickCount(ops) + Get(After(k, ops), t).semCtr + OwedAfter(k, ops, t, 0)
    ensures 0 <= OwedAfter(k, ops, t, 0) <= 1
  {
    hide Inv, Proper, Spares, TickTaskRun, Step, After;
    TicksAddUp(k, ops, t, 0);
    TaskSignalsConserved(k, ops, t);
  }
}
