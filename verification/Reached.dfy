/** The unguarded calls do happen: for each of them a run from the start of multitasking, proper up to that call, after
    which the kernel's data no longer agree. The system has the idle task 0 and the application tasks 1
    and 2, of which 2 is not created.
  */
module Reached {
  import opened TaskLists
  import opened KernelState
  import opened KernelOps
  import opened Services
  import opened ObjectsKept
  import opened FlagsMultiKept
  import opened Run

  function Boot(): K {
    Booted({1, 2}, 0, 3, 1)
  }

  /** The run is proper, the call after it breaks the agreement. */
  ghost predicate Departs(ops: seq<Op>, op: Op) {
    var k := After(Boot(), ops);
    Proper(Boot(), ops) && WellUsed(k, op) && Inv(k) && !Inv(Step(k, op))
  }

  lemma DepartsIf(ops: seq<Op>, op: Op)
    requires Proper(Boot(), ops) && WellUsed(After(Boot(), ops), op) && !Harmless(After(Boot(), ops), op)
    ensures Departs(ops, op)
  {
    hide Inv, Proper, WellUsed, Harmless, Step, Booted;
    KernelInvariant({1, 2}, 0, 3, 1, ops);
    InvariantKeptExactly(After(Boot(), ops), op);
  }

  const CREATE := OpTaskCreate(1, 1, 0)

  /** Task 1 runs, with the given TCB, objects and pend lists. */
  function Running(lock: nat, wait: map<Oid, seq<Tid>>, obj: map<Oid, Obj>): K {
    K(map[0 := NO_TCB.(state := RDY, prio := 2), 1 := NO_TCB.(state := RDY, prio := 1), 2 := NO_TCB],
      [[], [1], [0]], {1, 2}, [[]], wait, obj, 0, 1, 1, lock, 0)
  }

  lemma Created()
    ensures WellUsed(Boot(), CREATE) && Harmless(Boot(), CREATE)
    ensures Step(Boot(), CREATE) == Running(0, map[], map[])
  {
    var k := Boot();
    assert k.rdy == [[], [], [0]] && k.wheel == [[]];
    var k1 := Put(k, 1, NO_TCB.(state := RDY, prio := 1));
    assert k1.tcb == Running(0, map[], map[]).tcb;
    var k2 := RdyPut(k1, 1, true);
    var none: seq<Tid> := [];
    assert none + [1] == [1];
    assert k2.rdy == [[], [1], [0]];
    assert k2.prios == {1, 2};
    assert FirstReady(k2.rdy, 0) == 1;
    assert Step(k, CREATE) == Sched(k2);
  }

  lemma OneStep(k: K, op: Op)
    ensures After(k, [op]) == Step(k, op) && (Proper(k, [op]) <==> WellUsed(k, op) && Harmless(k, op))
  {
    hide WellUsed, Harmless, Step;
    assert [op][1..] == [];
  }

  lemma {:induction false} AfterCat(k: K, a: seq<Op>, b: seq<Op>)
    ensures After(k, a + b) == After(After(k, a), b)
    ensures Proper(k, a + b) <==> Proper(k, a) && Proper(After(k, a), b)
    decreases |a|
  {
    hide Step, WellUsed, Harmless;
    if a == [] {
      assert a + b == b;
    } else {
      assert (a + b)[1..] == a[1..] + b;
      AfterCat(Step(k, a[0]), a[1..], b);
    }
  }

  lemma OneCall(op: Op)
    ensures After(Boot(), [CREATE]) == Running(0, map[], map[]) && Proper(Boot(), [CREATE])
    ensures var k := Running(0, map[], map[]);
      && After(Boot(), [CREATE, op]) == Step(k, op)
      && (Proper(Boot(), [CREATE, op]) <==> WellUsed(k, op) && Harmless(k, op))
  {
    hide WellUsed, Harmless, Step, Running, Booted;
    Created();
    OneStep(Boot(), CREATE);
    OneStep(Running(0, map[], map[]), op);
    AfterCat(Boot(), [CREATE], [op]);
    assert [CREATE] + [op] == [CREATE, op];
  }

  /** A delay until a tick count that has passed. */
  lemma DelayDeparts()
    ensures Departs([CREATE], OpDly(0, OptMatch))
  {
    hide Inv, Step, Booted;
    OneCall(OpTick);
    DepartsIf([CREATE], OpDly(0, OptMatch));
  }

  /** Deleting oneself while the scheduler is locked. */
  lemma LockedDeleteDeparts()
    ensures Departs([CREATE, OpLock], OpTaskDel(1))
  {
    hide Inv, Booted, Step, WellUsed, Harmless, Running;
    OneCall(OpLock);
    Locks();
    DepartsIf([CREATE, OpLock], OpTaskDel(1));
  }

  lemma Locks()
    ensures var k := Running(0, map[], map[]); WellUsed(k, OpLock) && Harmless(k, OpLock)
    ensures Step(Running(0, map[], map[]), OpLock) == Running(1, map[], map[])
    ensures var k := Running(1, map[], map[]); WellUsed(k, OpTaskDel(1)) && !Harmless(k, OpTaskDel(1))
  {
  }

  lemma WithObject(o: Oid, v: Obj)
    requires Fresh(v)
    ensures var op := OpCreate(o, v); var k := Running(0, map[], map[]);
      && WellUsed(k, op) && Harmless(k, op)
      && Step(k, op) == Running(0, map[o := []], map[o := v])
  {
  }

  /** Blocking on one object through two entries of the table. */
  lemma MultiPendDeparts()
    ensures var e := PendData(0, false, NO_MSG); Departs([CREATE, OpCreate(0, Sem(0))], OpMultiPend([e, e], 0, false))
  {
    hide Inv, Step, Booted;
    var e := PendData(0, false, NO_MSG);
    var ops := [CREATE, OpCreate(0, Sem(0))];
    OneCall(ops[1]);
    WithObject(0, Sem(0));
    assert After(Boot(), ops) == Running(0, map[0 := []], map[0 := Sem(0)]);
    TwiceInTable(e);
    DepartsIf(ops, OpMultiPend([e, e], 0, false));
  }

  lemma TwiceInTable(e: PendData)
    requires e == PendData(0, false, NO_MSG)
    ensures var k := Running(0, map[0 := []], map[0 := Sem(0)]); var op := OpMultiPend([e, e], 0, false);
      WellUsed(k, op) && !Harmless(k, op)
  {
    var k := Running(0, map[0 := []], map[0 := Sem(0)]);
    assert [e, e][1..] == [e] && [e][1..] == [];
    assert forall o: Oid :: Listed([e], o) <==> o == 0;
    assert forall o: Oid :: Listed([e, e], o) <==> o == 0;
    assert MultiValid(k, [e]) && MultiValid(k, [e, e]);
    assert !Distinct([e, e]);
  }

  // ------------------------------------------------------------------------------- counters that wrap

  function Times(op: Op, n: nat): seq<Op> {
    if n == 0 then [] else [op] + Times(op, n - 1)
  }

  /** Task 1 runs and owns mutex 0. */
  function Owner(nest: nat): K {
    Running(0, map[0 := []], map[0 := Mutex(Some(1), nest, 1)])
  }

  /** n more acquisitions by the owner. */
  lemma {:induction false} Acquires(nest: nat, n: nat)
    requires 0 < nest && nest + n <= 255
    ensures var ops := Times(OpMutexPend(0, 0, true), n);
      After(Owner(nest), ops) == Owner(nest + n) && Proper(Owner(nest), ops)
    decreases n
  {
    hide Owner, WellUsed, Harmless, Step;
    if n > 0 {
      var op := OpMutexPend(0, 0, true);
      assert Times(op, n)[1..] == Times(op, n - 1);
      AcquiresOne(nest);
      Acquires(nest + 1, n - 1);
    }
  }

  lemma AcquiresOne(nest: nat)
    requires 0 < nest < 255
    ensures var k := Owner(nest); var op := OpMutexPend(0, 0, true);
      WellUsed(k, op) && Harmless(k, op) && Step(k, op) == Owner(nest + 1)
  {
    assert Owner(nest).obj[0 := Mutex(Some(1), nest + 1, 1)] == Owner(nest + 1).obj;
  }

  lemma FirstAcquire()
    ensures var k := Running(0, map[0 := []], map[0 := Mutex(None, 0, 0)]); var op := OpMutexPend(0, 0, true);
      WellUsed(k, op) && Harmless(k, op) && Step(k, op) == Owner(1)
  {
    var k := Running(0, map[0 := []], map[0 := Mutex(None, 0, 0)]);
    assert k.obj[0 := Mutex(Some(1), 1, 1)] == Owner(1).obj;
  }

  const OWNING := [CREATE, OpCreate(0, Mutex(None, 0, 0)), OpMutexPend(0, 0, true)]

  lemma Owns()
    ensures Proper(Boot(), OWNING) && After(Boot(), OWNING) == Owner(1)
  {
    hide WellUsed, Harmless, Step, Running, Owner, Booted;
    var v := Mutex(None, 0, 0);
    var op := OpMutexPend(0, 0, true);
    OneCall(OpCreate(0, v));
    WithObject(0, v);
    FirstAcquire();
    OneStep(Running(0, map[0 := []], map[0 := v]), op);
    AfterCat(Boot(), [CREATE, OpCreate(0, v)], [op]);
    assert OWNING == [CREATE, OpCreate(0, v)] + [op];
  }

  /** Deleting the owner of a mutex. */
  lemma OwnerDeleteDeparts()
    ensures Departs(OWNING, OpTaskDel(1))
  {
    hide Inv, Step, Booted;
    Owns();
    var k := After(Boot(), OWNING);
    assert 0 in k.obj && k.obj[0].Mutex? && k.obj[0].owner == Some(1);
    DepartsIf(OWNING, OpTaskDel(1));
  }

  /** The 256th acquisition of a mutex by its owner. */
  lemma AcquisitionDeparts()
    ensures Departs(OWNING + Times(OpMutexPend(0, 0, true), 254), OpMutexPend(0, 0, true))
  {
    hide Inv, Step, Booted, Times;
    var op := OpMutexPend(0, 0, true);
    Owns();
    Acquires(1, 254);
    AfterCat(Boot(), OWNING, Times(op, 254));
    DepartsIf(OWNING + Times(op, 254), op);
  }

  /** Task 1 is suspended n times, the idle task runs. */
  function Suspended(n: nat): K {
    K(map[0 := NO_TCB.(state := RDY, prio := 2), 1 := NO_TCB.(state := SUSPENDED, prio := 1, suspendCtr := n),
        2 := NO_TCB],
      [[], [], [0]], {2}, [[]], map[], map[], 0, 0, 2, 0, 0)
  }

  lemma {:induction false} Suspends(ctr: nat, n: nat)
    requires 0 < ctr && ctr + n <= 255
    ensures var ops := Times(OpSuspend(1), n);
      After(Suspended(ctr), ops) == Suspended(ctr + n) && Proper(Suspended(ctr), ops)
    decreases n
  {
    hide Suspended, WellUsed, Harmless, Step;
    if n > 0 {
      assert Times(OpSuspend(1), n)[1..] == Times(OpSuspend(1), n - 1);
      SuspendsOne(ctr);
      Suspends(ctr + 1, n - 1);
    }
  }

  lemma SuspendsOne(ctr: nat)
    requires 0 < ctr < 255
    ensures WellUsed(Suspended(ctr), OpSuspend(1)) && Harmless(Suspended(ctr), OpSuspend(1))
    ensures Step(Suspended(ctr), OpSuspend(1)) == Suspended(ctr + 1)
  {
    var k := Suspended(ctr);
    assert SuspendTask(k, 1).tcb == Suspended(ctr + 1).tcb;
    assert FirstReady(k.rdy, 0) == 2;
    assert Step(k, OpSuspend(1)) == Sched(SuspendTask(k, 1));
  }

  lemma FirstSuspend()
    ensures var k := Running(0, map[], map[]);
      && WellUsed(k, OpSuspend(1)) && Harmless(k, OpSuspend(1)) && Step(k, OpSuspend(1)) == Suspended(1)
  {
    var k := Running(0, map[], map[]);
    var k1 := SuspendTask(k, 1);
    assert k1.tcb == Suspended(1).tcb;
    assert k1.rdy == [[], [], [0]];
    assert k1.prios == {2};
    assert FirstReady(k1.rdy, 0) == 2;
    assert Step(k, OpSuspend(1)) == Sched(k1);
  }

  /** The 256th nested suspension. */
  lemma SuspensionDeparts()
    ensures Departs([CREATE, OpSuspend(1)] + Times(OpSuspend(1), 254), OpSuspend(1))
  {
    hide Inv, Step, Booted, Times;
    var ops := [CREATE, OpSuspend(1)];
    OneCall(OpSuspend(1));
    FirstSuspend();
    Suspends(1, 254);
    AfterCat(Boot(), ops, Times(OpSuspend(1), 254));
    DepartsIf(ops + Times(OpSuspend(1), 254), OpSuspend(1));
  }

  // ------------------------------------------------------------------------------------- event flags

  const PEND_FLAGS := OpFlagPend(0, 1, SetAny, false, 5, false)

  /** Task 1 waits for flag 1 of group 0 until tick 5, suspended or not; the idle task runs. */
  function FlagWaiting(susp: bool): K {
    K(map[0 := NO_TCB.(state := RDY, prio := 2),
        1 := NO_TCB.(state := Live(susp, true, true), prio := 1, pendOn := OnFlag, tbl := Entry(0), due := 5, spoke := 0,
          suspendCtr := if susp then 1 else 0, flagsPend := 1, flagsMode := SetAny),
        2 := NO_TCB],
      [[], [], [0]], {2}, [[1]], map[0 := [1]], map[0 := FlagGrp(0)], 0, 0, 2, 0, 0)
  }

  lemma NoFlagYet()
    ensures !FlagMet(SetAny, 0, 1) && FlagMet(SetAny, PostedFlags(0, 1, true), 1)
  {
  }

  lemma WaitsForFlag()
    ensures var k := Running(0, map[0 := []], map[0 := FlagGrp(0)]);
      && WellUsed(k, PEND_FLAGS) && Harmless(k, PEND_FLAGS) && Step(k, PEND_FLAGS) == FlagWaiting(false)
  {
    hide FlagPend;
    FlagPendBlocks();
  }

  lemma FlagPendBlocks()
    ensures FlagPend(Running(0, map[0 := []], map[0 := FlagGrp(0)]), 0, 1, SetAny, false, 5, false).k == FlagWaiting(false)
  {
    hide FlagMet, FlagBits, FlagConsumed, BlockCur, FlagWaiting;
    var k := Running(0, map[0 := []], map[0 := FlagGrp(0)]);
    var k1 := Put(k, 1, Get(k, 1).(flagsPend := 1, flagsMode := SetAny, flagsRdy := 0));
    NoFlagYet();
    BlocksOnFlag(k1);
  }

  lemma BlocksOnFlag(k1: K)
    requires var k := Running(0, map[0 := []], map[0 := FlagGrp(0)]);
      k1 == Put(k, 1, Get(k, 1).(flagsPend := 1, flagsMode := SetAny, flagsRdy := 0))
    ensures BlockCur(k1, OnFlag, Entry(0), 5, false).k == FlagWaiting(false)
  {
    var b := FlagWaiting(false).tcb[1];
    assert b == BlockedTcb(Get(k1, 1), OnFlag, Entry(0), 5, 0, 1);
    SleepsOnFlag(k1, b);
    var k2 := Sleep(k1, 1, b);
    assert FirstReady(k2.rdy, 0) == 2;
  }

  lemma SleepsOnFlag(k1: K, b: Tcb)
    requires var k := Running(0, map[0 := []], map[0 := FlagGrp(0)]);
      k1 == Put(k, 1, Get(k, 1).(flagsPend := 1, flagsMode := SetAny, flagsRdy := 0))
    requires b == FlagWaiting(false).tcb[1]
    ensures Sleep(k1, 1, b) == FlagWaiting(false).(cur := 1, prioCur := 1)
  {
    var k2 := Sleep(k1, 1, b);
    var tcb := k1.tcb[1 := b];
    assert b.tbl == Entry(0) && b.tbl[1..] == [];
    assert k1.wait[0 := Insert([], 1, PrioOrder(tcb))] == map[0 := [1]];
    assert LinkAll(k1.wait, b.tbl, 1, PrioOrder(tcb)) == LinkAll(map[0 := [1]], [], 1, PrioOrder(tcb));
    assert k2.tcb == FlagWaiting(false).tcb;
    assert k2.wheel == [[1]];
    assert k2.rdy == [[], [], [0]];
    assert k2.prios == {2};
  }

  lemma SuspendedWaiting()
    ensures var k := FlagWaiting(false);
      && WellUsed(k, OpSuspend(1)) && Harmless(k, OpSuspend(1)) && Step(k, OpSuspend(1)) == FlagWaiting(true)
  {
    var k := FlagWaiting(false);
    assert SuspendTask(k, 1).tcb == FlagWaiting(true).tcb;
    assert FirstReady(k.rdy, 0) == 2;
    assert Step(k, OpSuspend(1)) == Sched(SuspendTask(k, 1));
  }

  lemma StuckPost()
    ensures WellUsed(FlagWaiting(true), OpFlagPost(0, 1, true, false))
    ensures !Harmless(FlagWaiting(true), OpFlagPost(0, 1, true, false))
  {
    var k := FlagWaiting(true);
    NoFlagYet();
    hide FlagMet, FlagBits, PostedFlags;
    assert Waiters(k, 0) == [1] && Count([1], 1) == 1;
    assert MetBy(Get(k, 1), PostedFlags(0, 1, true)) && Get(k, 1).state == PEND_TIMEOUT_SUSPENDED;
  }

  /** A post of flags to a task suspended with its timeout running. */
  lemma FlagPostDeparts()
    ensures Departs([CREATE, OpCreate(0, FlagGrp(0)), PEND_FLAGS, OpSuspend(1)], OpFlagPost(0, 1, true, false))
  {
    hide Inv, Step, Booted, WellUsed, Harmless, Running, FlagWaiting;
    var a, b := [CREATE, OpCreate(0, FlagGrp(0))], [PEND_FLAGS, OpSuspend(1)];
    OneCall(OpCreate(0, FlagGrp(0)));
    WithObject(0, FlagGrp(0));
    WaitsForFlag();
    SuspendedWaiting();
    StuckPost();
    assert a + b == [CREATE, OpCreate(0, FlagGrp(0)), PEND_FLAGS, OpSuspend(1)];
    assert [PEND_FLAGS] + [OpSuspend(1)] == b;
    OneStep(Running(0, map[0 := []], map[0 := FlagGrp(0)]), PEND_FLAGS);
    OneStep(FlagWaiting(false), OpSuspend(1));
    AfterCat(Running(0, map[0 := []], map[0 := FlagGrp(0)]), [PEND_FLAGS], [OpSuspend(1)]);
    AfterCat(Boot(), a, b);
    DepartsIf(a + b, OpFlagPost(0, 1, true, false));
  }
}
