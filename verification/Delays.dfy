/** Delays are exact and periodic delays do not drift, for all values of the 32-bit tick counter and over all runs. */
module Delays {
  import opened TaskLists
  import opened KernelState
  import opened KernelOps
  import opened CoreKept
  import opened Services
  import opened TickWheel
  import opened Departures
  import opened Run
  import opened Frames
  import opened Scheduling

  /** How far ahead the due time lies. */
  lemma DueTimeAhead(now: Tick, prev: Tick, time: Tick, opt: TimeOpt)
    requires DueTime(now, prev, time, opt).Some?
    ensures var left := Sub32(DueTime(now, prev, time, opt).value, now);
      && left > 0
      && (opt == OptDly || opt == OptTimeout ==> left == time)
      && (opt == OptPeriodic ==> left <= time)
      && (opt == OptMatch ==> DueTime(now, prev, time, opt).value == time && left <= 0xFFFF_0001)
  {
  }

  /** A periodic call made before the next deadline gets that deadline, however late in the period it is made; a later
      one starts a new series. */
  lemma PeriodicDue(now: Tick, prev: Tick, time: Tick)
    requires time > 0
    ensures DueTime(now, prev, time, OptPeriodic) ==
      Some(if Sub32(now, prev) < time then Add32(prev, time) else Add32(now, time))
  {
  }

  // -------------------------------------------------------------------------------- delays over runs

  function TickCount(ops: seq<Op>): nat {
    if ops == [] then 0 else (if ops[0].OpTick? then 1 else 0) + TickCount(ops[1..])
  }

  /** The ticks a waiting task still has to wait. */
  function Remaining(k: K, t: Tid): nat {
    Sub32(Get(k, t).due, k.now)
  }

  /** No call of the run, the ticks apart, interrupts the wait of t. */
  predicate Undisturbed(k: K, ops: seq<Op>, t: Tid)
    decreases |ops|
  {
    ops == [] || ((ops[0].OpTick? || !Interrupts(k, ops[0], t)) && Undisturbed(Step(k, ops[0]), ops[1..], t))
  }

  predicate Delayed(b: Tcb) {
    b.state.Live? && b.state.dly
  }

  lemma OneTick(k: K, t: Tid)
    requires Inv(k) && Delayed(Get(k, t))
    ensures Remaining(k, t) >= 1
    ensures var k' := TickUpdate(k);
      if Remaining(k, t) == 1 then Get(k', t) == Expired(Get(k, t))
      else Get(k', t) == Get(k, t) && Remaining(k', t) == Remaining(k, t) - 1
  {
    hide ReadyInv, WheelInv, WaitInv, ObjInv;
    TcbOkOf(k, t);
    TickExpiresExactlyTheDue(k);
    assert Get(TickUpdate(k), t) == NaiveTick(k, t);
  }

  /** Of the calls that do not interrupt it only a tick brings the end of a delay nearer. */
  lemma DelayStep(k: K, op: Op, t: Tid)
    requires Inv(k) && WellUsed(k, op) && Delayed(Get(k, t)) && (op.OpTick? || !Interrupts(k, op, t))
    requires op.OpTick? ==> Remaining(k, t) > 1
    ensures SameWait(Get(k, t), Get(Step(k, op), t)) && Delayed(Get(Step(k, op), t))
    ensures Remaining(Step(k, op), t) == Remaining(k, t) - if op.OpTick? then 1 else 0
  {
    hide Inv, TickUpdate, Interrupts, WellUsed;
    if op.OpTick? {
      OneTick(k, t);
    } else {
      hide Call;
      WaitEndsExactly(k, op, t);
      NowStays(k, op);
    }
  }

  lemma WaitTwice(b: Tcb, b1: Tcb, b2: Tcb)
    requires SameWait(b, b1) && SameWait(b1, b2)
    ensures SameWait(b, b2)
  {
  }

  lemma {:induction false} StillDelayed(k: K, ops: seq<Op>, t: Tid)
    requires Inv(k) && Proper(k, ops) && Delayed(Get(k, t)) && Undisturbed(k, ops, t)
    requires TickCount(ops) < Remaining(k, t)
    ensures SameWait(Get(k, t), Get(After(k, ops), t)) && Remaining(After(k, ops), t) == Remaining(k, t) - TickCount(ops)
    decreases |ops|
  {
    hide Inv, WellUsed, Harmless, Step, SameWait, Interrupts, Remaining;
    if ops == [] {
      WaitSelf(Get(k, t));
    } else {
      var k1 := Step(k, ops[0]);
      StepKeeps(k, ops[0]);
      DelayStep(k, ops[0], t);
      StillDelayed(k1, ops[1..], t);
      WaitTwice(Get(k, t), Get(k1, t), Get(After(k, ops), t));
    }
  }

  /** The task waits no more, and knows whether it was for lack of time. */
  predicate TimeUp(b: Tcb, b': Tcb) {
    b.state.Live? && b'.state == Live(b.state.susp, false, false) && b'.pendOn == OnNothing && b'.spoke == -1
    && (b.state.pend ==> b'.status == StatusTimeout)
  }

  lemma ExpiredIsUp(b: Tcb)
    requires Delayed(b)
    ensures TimeUp(b, Expired(b))
  {
  }

  /** A delay or timeout with r ticks to go ends at the r-th tick, not before and not after, whatever calls are made in
      between that do not interrupt the wait. */
  lemma DelayIsExact(k: K, ops: seq<Op>, t: Tid)
    requires Inv(k) && Proper(k, ops) && Delayed(Get(k, t)) && Undisturbed(k, ops, t)
    requires TickCount(ops) < Remaining(k, t)
    ensures var k1 := After(k, ops); var b, b' := Get(k1, t), Get(TickUpdate(k1), t);
      && SameWait(Get(k, t), b) && Delayed(b)
      && if TickCount(ops) + 1 == Remaining(k, t) then TimeUp(b, b') else b' == b
  {
    hide Inv, Proper, TickUpdate, Remaining, Expired, TimeUp;
    var k1 := After(k, ops);
    StillDelayed(k, ops, t);
    InvariantOverRuns(k, ops);
    OneTick(k1, t);
    ExpiredIsUp(Get(k1, t));
  }

  // --------------------------------------------------------------------------------- the calls that delay

  /** OSTimeDly puts the caller to sleep for the number of ticks it asked for; a periodic call, until the next deadline,
      which it remembers. */
  lemma DlySleeps(k: K, dly: Tick, opt: TimeOpt)
    requires Inv(k) && k.lock == 0 && dly > 0 && opt != OptMatch
    ensures var k' := TimeDly(k, dly, opt).k; var b, b' := Get(k, k.cur), Get(k', k.cur);
      && b'.state == DLY && k'.now == k.now && 0 < Remaining(k', k.cur) <= dly
      && (opt == OptDly || opt == OptTimeout ==> Remaining(k', k.cur) == dly && b'.prev == b.prev)
      && (opt == OptPeriodic ==>
        b'.prev == b'.due == if Sub32(k.now, b.prev) < dly then Add32(b.prev, dly) else Add32(k.now, dly))
  {
    hide ReadyInv, WaitInv, TcbInv, ObjInv, Sleep, Sched;
    var b := Timed(Get(k, k.cur).(state := DLY), k.now, |k.wheel|, dly, opt);
    DueTimeAhead(k.now, Get(k, k.cur).prev, dly, opt);
    if opt == OptPeriodic {
      PeriodicDue(k.now, Get(k, k.cur).prev, dly);
    }
    SleepTcb(k, k.cur, b);
    SchedKeepsTcbs(Sleep(k, k.cur, b), false);
  }

  // ------------------------------------------------------------------------------------------- no drift

  /** prev + n * period, modulo the width of the counter. */
  function Multiple(prev: Tick, period: Tick, n: nat): Tick
    decreases n
  {
    if n == 0 then prev else Multiple(Add32(prev, period), period, n - 1)
  }

  lemma {:induction false} MultipleIs(prev: Tick, period: Tick, n: nat)
    ensures Multiple(prev, period, n) == (prev + n * period) % 0x1_0000_0000
    decreases n
  {
    if n > 0 {
      MultipleIs(Add32(prev, period), period, n - 1);
      var rest := (n - 1) * period;
      assert prev + n * period == prev + period + rest;
      WrapOnce(prev + period, rest);
    }
  }

  lemma WrapOnce(a: nat, b: nat)
    requires a < 2 * TICKS
    ensures ((if a < TICKS then a else a - TICKS) + b) % TICKS == (a + b) % TICKS
  {
  }

  lemma {:induction false} OneMoreMultiple(prev: Tick, period: Tick, n: nat)
    ensures Multiple(prev, period, n + 1) == Add32(Multiple(prev, period, n), period)
    decreases n
  {
    if n > 0 {
      OneMoreMultiple(Add32(prev, period), period, n - 1);
    }
  }

  /** The call is a periodic delay of t. */
  predicate PeriodicCall(k: K, op: Op, t: Tid) {
    op.OpDly? && op.opt == OptPeriodic && k.cur == t
  }

  /** A periodic delay of t is one of the given period, made with the scheduler unlocked and before the deadline that
      follows the last one. */
  predicate InTime(k: K, op: Op, t: Tid, period: Tick) {
    PeriodicCall(k, op, t) ==> op.dly == period && k.lock == 0 && Sub32(k.now, Get(k, t).prev) < period
  }

  /** t is neither created nor deleted, and keeps its period. */
  predicate PeriodicRun(k: K, ops: seq<Op>, t: Tid, period: Tick)
    decreases |ops|
  {
    ops == [] || (Spares(ops[0], t) && InTime(k, ops[0], t, period)
      && PeriodicRun(Step(k, ops[0]), ops[1..], t, period))
  }

  predicate Spares(op: Op, t: Tid) {
    !(op.OpTaskCreate? && op.t == t) && !(op.OpTaskDel? && op.t == t)
  }

  function PeriodicCalls(k: K, ops: seq<Op>, t: Tid): nat
    decreases |ops|
  {
    if ops == [] then 0 else (if PeriodicCall(k, ops[0], t) then 1 else 0) + PeriodicCalls(Step(k, ops[0]), ops[1..], t)
  }

  lemma OwnCallsPrev(k: K, op: Op, t: Tid)
    requires AboutOwn(k, op, t) && Spares(op, t) && !PeriodicCall(k, op, t)
    ensures Get(Step(k, op), t).prev == Get(k, t).prev
  {
    hide TaskSemPost, TaskQPost, TaskSemPend, TaskQPend;
    match op
    case OpTaskSemPost(_, noSched) => SemPostFields(k, t, noSched);
    case OpTaskQPost(_, m, lifo, noSched, poolEmpty) => QPostFields(k, t, m, lifo, noSched, poolEmpty);
    case OpTaskSemPend(timeout, nonBlocking) => SemPendFields(k, timeout, nonBlocking);
    case OpTaskQPend(timeout, nonBlocking) => QPendFields(k, timeout, nonBlocking);
  }

  /** Only its periodic calls move a task's deadline, each by one period. */
  lemma DeadlineStep(k: K, op: Op, t: Tid, period: Tick)
    requires Inv(k) && period > 0 && Spares(op, t) && InTime(k, op, t, period)
    ensures Get(Step(k, op), t).prev ==
      if PeriodicCall(k, op, t) then Add32(Get(k, t).prev, period) else Get(k, t).prev
  {
    hide Inv, TimeDly, Call, Spares;
    if PeriodicCall(k, op, t) {
      DlySleeps(k, op.dly, op.opt);
      DlyStep(k, op);
    } else if AboutOwn(k, op, t) {
      OwnCallsPrev(k, op, t);
    } else {
      OwnStays(k, op, t);
    }
  }

  lemma {:induction false} DeadlineAfter(k: K, ops: seq<Op>, t: Tid, period: Tick)
    requires Inv(k) && Proper(k, ops) && period > 0 && PeriodicRun(k, ops, t, period)
    ensures Get(After(k, ops), t).prev == Multiple(Get(k, t).prev, period, PeriodicCalls(k, ops, t))
    decreases |ops|
  {
    hide Inv, WellUsed, Harmless, Step, Spares, InTime, PeriodicCall;
    if ops != [] {
      StepKeeps(k, ops[0]);
      DeadlineStep(k, ops[0], t, period);
      DeadlineAfter(Step(k, ops[0]), ops[1..], t, period);
    }
  }

  /** No drift. A task has made n - 1 periodic calls, all in time, among any other calls, and now makes the n-th. It
      sleeps on through `rest`, and the next tick wakes it if and only if that is the tick at which the counter reaches
      the first deadline plus n periods, modulo 2^32. */
  lemma PeriodicDoesNotDrift(k: K, ops: seq<Op>, rest: seq<Op>, t: Tid, period: Tick)
    requires Inv(k) && Proper(k, ops) && period > 0 && PeriodicRun(k, ops, t, period)
    requires var k1 := After(k, ops); var op := OpDly(period, OptPeriodic);
      && k1.cur == t && t != k1.idle && InTime(k1, op, t, period)
      && var k2 := Step(k1, op);
        Proper(k2, rest) && Undisturbed(k2, rest, t) && TickCount(rest) < Remaining(k2, t)
    ensures var n := PeriodicCalls(k, ops, t) + 1; var due := (Get(k, t).prev + n * period) % 0x1_0000_0000;
      var k2 := Step(After(k, ops), OpDly(period, OptPeriodic)); var k3 := After(k2, rest); var k4 := TickUpdate(k3);
      && Get(k2, t).state == DLY && Get(k2, t).due == due
      && Delayed(Get(k3, t)) && (Delayed(Get(k4, t)) <==> k4.now != due)
  {
    hide Inv, Proper, PeriodicRun, InTime, Undisturbed, TickUpdate, Step, Remaining, After, PeriodicCalls, TickCount;
    NextDeadline(k, ops, t, period);
    LastPeriod(Step(After(k, ops), OpDly(period, OptPeriodic)), rest, t);
  }

  /** The due time of the n-th call. */
  lemma NextDeadline(k: K, ops: seq<Op>, t: Tid, period: Tick)
    requires Inv(k) && Proper(k, ops) && period > 0 && PeriodicRun(k, ops, t, period)
    requires var k1 := After(k, ops); k1.cur == t && t != k1.idle && InTime(k1, OpDly(period, OptPeriodic), t, period)
    ensures var k2 := Step(After(k, ops), OpDly(period, OptPeriodic));
      && Inv(k2) && Get(k2, t).state == DLY
      && Get(k2, t).due == (Get(k, t).prev + (PeriodicCalls(k, ops, t) + 1) * period) % 0x1_0000_0000
  {
    hide Inv, Proper, PeriodicRun, TimeDly, Call, Remaining;
    var op := OpDly(period, OptPeriodic);
    var k1 := After(k, ops);
    var n := PeriodicCalls(k, ops, t);
    DeadlineAfter(k, ops, t, period);
    OneMoreMultiple(Get(k, t).prev, period, n);
    MultipleIs(Get(k, t).prev, period, n + 1);
    InvariantOverRuns(k, ops);
    DlySleeps(k1, period, OptPeriodic);
    DlyStep(k1, op);
    StepKeeps(k1, op);
  }

  /** A delayed task is woken by the next tick exactly if this makes the counter reach its due time. */
  lemma LastPeriod(k: K, ops: seq<Op>, t: Tid)
    requires Inv(k) && Proper(k, ops) && Get(k, t).state == DLY && Undisturbed(k, ops, t)
    requires TickCount(ops) < Remaining(k, t)
    ensures var k3 := After(k, ops); var k4 := TickUpdate(k3);
      Delayed(Get(k3, t)) && (Delayed(Get(k4, t)) <==> k4.now != Get(k, t).due)
  {
    hide CoreInv, ObjInv, CurOk, Proper, Undisturbed, TickUpdate;
    var k3 := After(k, ops);
    DelayIsExact(k, ops, t);
    StillDelayed(k, ops, t);
    InvariantOverRuns(k, ops);
    TickExpiresExactlyTheDue(k3);
    OneTick(k3, t);
  }
}
