/** Three properties that the kernel keeps only under conditions are lost in runs from the start of multitasking, by calls
    that keep the data in agreement: the inherited priority, OSPrioCur, and that nobody waits for flags in vain.
  */
module ReachedLosses {
  import opened TaskLists
  import opened KernelState
  import opened KernelOps
  import opened Services
  import opened FlagsMultiKept
  import opened Run
  import opened MutexRun
  import opened FlagRun
  import opened RunningPrio
  import opened Reached

  // ---------------------------------------------------------------------------------------- OSPrioCur

  /** The only task raises itself: it goes on running, and OSPrioCur keeps its old priority. */
  lemma PrioCurGetsStale()
    ensures var op := OpChangePrio(1, 0, true); var k := After(Boot(), [CREATE]);
      && Proper(Boot(), [CREATE, op]) && PrioCurRight(k) && !PrioCurRight(After(Boot(), [CREATE, op]))
  {
    hide Inv, Booted, Step;
    var op := OpChangePrio(1, 0, true);
    OneCall(op);
    KernelInvariant({1, 2}, 0, 3, 1, [CREATE]);
    RaisesItself();
  }

  lemma RaisesItself()
    requires Inv(Running(0, map[], map[]))
    ensures var k := Running(0, map[], map[]); PrioCurRight(k) && !PrioCurRight(Step(k, OpChangePrio(1, 0, true)))
  {
    hide Inv, TaskChangePrio;
    var k := Running(0, map[], map[]);
    PrioCurStaleExactly(k, 1, 0, true);
    assert forall x: Tid :: !Ahead(k, x, 0, false);
  }

  // -------------------------------------------------------------------------------------- event flags

  const CREATE2 := OpTaskCreate(2, 1, 0)

  /** Task 1 waits for flag 1 to be set, task 2 runs. */
  const WAITING := [CREATE, OpCreate(0, FlagGrp(0)), PEND_FLAGS, CREATE2]

  /** Task 2 waits for the same flag to be clear, which it is, and consumes it, which sets it. */
  const CONSUME := OpFlagPend(0, 1, ClrAll, true, 0, false)

  lemma Task2Runs()
    ensures var k := FlagWaiting(false); var k' := Step(k, CREATE2);
      && WellUsed(k, CREATE2) && Harmless(k, CREATE2)
      && k'.cur == 2 && k'.idle == 0 && Get(k', 1) == Get(k, 1) && Object(k', 0) == FlagGrp(0)
  {
    var k := FlagWaiting(false);
    var k1 := Put(k, 2, NO_TCB.(state := RDY, prio := 1));
    var k2 := RdyPut(k1, 2, true);
    var none: seq<Tid> := [];
    assert none + [2] == [2];
    assert k2.rdy == [[], [2], [0]];
    assert FirstReady(k2.rdy, 0) == 1;
    assert Step(k, CREATE2) == Sched(k2);
  }

  lemma WaitingRun()
    ensures Proper(Boot(), WAITING) && After(Boot(), WAITING) == Step(FlagWaiting(false), CREATE2)
  {
    hide Step, Booted, WellUsed, Harmless, Running, FlagWaiting;
    var a, b := [CREATE, OpCreate(0, FlagGrp(0))], [PEND_FLAGS, CREATE2];
    var k := Running(0, map[0 := []], map[0 := FlagGrp(0)]);
    OneCall(OpCreate(0, FlagGrp(0)));
    WithObject(0, FlagGrp(0));
    WaitsForFlag();
    Task2Runs();
    assert a + b == WAITING;
    assert [PEND_FLAGS] + [CREATE2] == b;
    OneStep(k, PEND_FLAGS);
    OneStep(FlagWaiting(false), CREATE2);
    AfterCat(k, [PEND_FLAGS], [CREATE2]);
    AfterCat(Boot(), a, b);
  }

  /** Consuming sets the flag that task 1 waits for, and task 1 sleeps on. */
  lemma WaiterGetsMissed()
    ensures var k := After(Boot(), WAITING);
      && Proper(Boot(), WAITING) && NobodyMissed(k)
      && WellUsed(k, CONSUME) && Harmless(k, CONSUME) && !NobodyMissed(Step(k, CONSUME))
  {
    hide Inv, Booted, Step, Proper, NobodyMissed, NoneMet, AllForSet;
    var k := After(Boot(), WAITING);
    WaitingRun();
    Task2Runs();
    KernelInvariant({1, 2}, 0, 3, 1, WAITING);
    BootedInv({1, 2}, 0, 3, 1);
    BootedQuiet({1, 2}, 0, 3, 1);
    NobodyMissedOverRuns(Boot(), WAITING);
    ConsumedMeets();
    EntryLists(0);
    SomeMet(k, 0, 1, 1);
    NobodyMissedExactly(k, CONSUME);
  }

  lemma ConsumedMeets()
    ensures FlagMet(ClrAll, 0, 1) && FlagConsumed(ClrAll, 0, FlagBits(ClrAll, 0, 1)) == 1 && FlagMet(SetAny, 1, 1)
  {
  }

  lemma SomeMet(k: K, o: Oid, t: Tid, flags: Flags)
    requires WaitsFor(k, t, o) && MetBy(Get(k, t), flags)
    ensures !NoneMet(k, o, flags)
  {
  }

  // ------------------------------------------------------------------------- inheritance through a chain

  function Ready(p: nat): Tcb {
    NO_TCB.(state := RDY, prio := p)
  }

  /** Three tasks of priority 3, 2 and 1 next to the idle task; the running one is at the head of its list. */
  function Three(b1: Tcb, b2: Tcb, b3: Tcb, rdy: seq<seq<Tid>>, prios: set<nat>, wait2: seq<Tid>, m1: Obj, m2: Obj,
                 cur: Tid, prioCur: nat): K
  {
    K(map[0 := Ready(4), 1 := b1, 2 := b2, 3 := b3], rdy, prios, [[]], map[1 := [], 2 := wait2], map[1 := m1, 2 := m2],
      0, cur, prioCur, 0, 0)
  }

  const FREE := Mutex(None, 0, 0)

  const CHAIN := [OpTaskCreate(1, 3, 0), OpCreate(1, FREE), OpCreate(2, FREE), OpMutexPend(2, 0, false),
                  OpTaskCreate(2, 2, 0), OpMutexPend(1, 0, false), OpMutexPend(2, 0, false), OpTaskCreate(3, 1, 0)]

  /** The states of the run, from the creation of the mutexes on. */
  function ChainAt(i: nat): K {
    match i
    case 0 => Three(Ready(3), NO_TCB, NO_TCB, [[], [], [], [1], [0]], {3, 4}, [], FREE, FREE, 1, 3)
    case 1 => Three(Ready(3), NO_TCB, NO_TCB, [[], [], [], [1], [0]], {3, 4}, [], FREE, Mutex(Some(1), 1, 3), 1, 3)
    case 2 =>
      Three(Ready(3), Ready(2), NO_TCB, [[], [], [2], [1], [0]], {2, 3, 4}, [], FREE, Mutex(Some(1), 1, 3), 2, 2)
    case 3 =>
      Three(Ready(3), Ready(2), NO_TCB, [[], [], [2], [1], [0]], {2, 3, 4}, [], Mutex(Some(2), 1, 2),
        Mutex(Some(1), 1, 3), 2, 2)
    case 4 =>
      Three(Ready(2), NO_TCB.(state := PEND, prio := 2, pendOn := OnMutex, tbl := Entry(2)), NO_TCB,
        [[], [], [1], [], [0]], {2, 4}, [2], Mutex(Some(2), 1, 2), Mutex(Some(1), 1, 3), 1, 2)
    case _ => ChainState()
  }

  /** The call is proper in k and leads to k'. */
  ghost predicate Leads(k: K, op: Op, k': K) {
    WellUsed(k, op) && Harmless(k, op) && Step(k, op) == k'
  }

  lemma Starts()
    ensures Leads(Booted({1, 2, 3}, 0, 5, 1), CHAIN[0], ChainAt(0).(wait := map[], obj := map[]))
  {
    var k := Booted({1, 2, 3}, 0, 5, 1);
    assert k.rdy == [[], [], [], [], [0]] && k.wheel == [[]];
    var k1 := Put(k, 1, Ready(3));
    assert k1.tcb == ChainAt(0).tcb;
    var k2 := RdyPut(k1, 1, true);
    var none: seq<Tid> := [];
    assert none + [1] == [1];
    assert k2.rdy == [[], [], [], [1], [0]];
    assert k2.prios == {3, 4};
    assert FirstReady(k2.rdy, 0) == 3;
    assert Step(k, CHAIN[0]) == Sched(k2);
  }

  lemma CreatesFirst()
    ensures Leads(ChainAt(0).(wait := map[], obj := map[]), CHAIN[1], ChainAt(0).(wait := map[1 := []], obj := map[1 := FREE]))
  {
  }

  lemma CreatesSecond()
    ensures Leads(ChainAt(0).(wait := map[1 := []], obj := map[1 := FREE]), CHAIN[2], ChainAt(0))
  {
    var k := ChainAt(0).(wait := map[1 := []], obj := map[1 := FREE]);
    assert k.wait[2 := []] == ChainAt(0).wait;
    assert k.obj[2 := FREE] == ChainAt(0).obj;
  }

  lemma AcquiresSecond()
    ensures Leads(ChainAt(0), CHAIN[3], ChainAt(1))
  {
    assert ChainAt(0).obj[2 := Mutex(Some(1), 1, 3)] == ChainAt(1).obj;
  }

  lemma Preempts()
    ensures Leads(ChainAt(1), CHAIN[4], ChainAt(2))
  {
    var k := ChainAt(1);
    var k1 := Put(k, 2, Ready(2));
    assert k1.tcb == ChainAt(2).tcb;
    var k2 := RdyPut(k1, 2, true);
    var none: seq<Tid> := [];
    assert none + [2] == [2];
    assert k2.rdy == ChainAt(2).rdy;
    assert k2.prios == {2, 3, 4};
    assert FirstReady(k2.rdy, 0) == 2;
    assert Step(k, CHAIN[4]) == Sched(k2);
  }

  lemma AcquiresFirst()
    ensures Leads(ChainAt(2), CHAIN[5], ChainAt(3))
  {
    assert ChainAt(2).obj[1 := Mutex(Some(2), 1, 2)] == ChainAt(3).obj;
  }

  /** Task 2 waits for mutex 2, whose owner, task 1, is raised to its priority. */
  lemma Waits2()
    ensures Leads(ChainAt(3), CHAIN[6], ChainAt(4))
  {
    hide MutexPend;
    PendsOn2();
  }

  lemma PendsOn2()
    ensures MutexPend(ChainAt(3), 2, 0, false).k == ChainAt(4)
  {
    hide RaiseOwner, Block, Sched;
    var k := ChainAt(3);
    Raised();
    Blocked2(RaiseOwner(k, 1, 2));
    assert Object(k, 2) == Mutex(Some(1), 1, 3);
  }

  lemma Raised()
    ensures RaiseOwner(ChainAt(3), 1, 2) == ChainAt(3).(tcb := map[0 := Ready(4), 1 := Ready(2), 2 := Ready(2), 3 := NO_TCB],
      rdy := [[], [], [1, 2], [], [0]], prios := {2, 4})
  {
    var k := ChainAt(3);
    var k1 := RdyRemove(k, 1);
    assert k1.rdy == [[], [], [2], [], [0]];
    assert k1.prios == {2, 4};
    var k2 := Put(k1, 1, Ready(2));
    assert k2.tcb == map[0 := Ready(4), 1 := Ready(2), 2 := Ready(2), 3 := NO_TCB];
    assert [1] + [2] == [1, 2];
    assert RdyPut(k2, 1, false).rdy == [[], [], [1, 2], [], [0]];
    assert RdyPut(k2, 1, false).prios == {2, 4};
  }

  lemma Blocked2(k1: K)
    requires k1 == ChainAt(3).(tcb := map[0 := Ready(4), 1 := Ready(2), 2 := Ready(2), 3 := NO_TCB],
      rdy := [[], [], [1, 2], [], [0]], prios := {2, 4})
    ensures Sched(Block(k1, 2, OnMutex, Entry(2), 0)) == ChainAt(4)
  {
    var b := ChainAt(4).tcb[2];
    assert b == BlockedTcb(Get(k1, 2), OnMutex, Entry(2), 0, 0, 1);
    var k2 := Sleep(k1, 2, b);
    var tcb := k1.tcb[2 := b];
    assert tcb == ChainAt(4).tcb;
    assert b.tbl[1..] == [];
    assert k1.wait[2 := Insert([], 2, PrioOrder(tcb))] == ChainAt(4).wait;
    assert LinkAll(k1.wait, b.tbl, 2, PrioOrder(tcb)) == LinkAll(ChainAt(4).wait, [], 2, PrioOrder(tcb));
    assert Drop([1, 2], 2) == [1];
    assert k2.rdy == ChainAt(4).rdy;
    assert k2.prios == {2, 4};
    assert FirstReady(k2.rdy, 0) == 2;
  }

  lemma PreemptsAgain()
    ensures Leads(ChainAt(4), CHAIN[7], ChainAt(5))
  {
    var k := ChainAt(4);
    var k1 := Put(k, 3, Ready(1));
    assert k1.tcb == ChainState().tcb;
    var k2 := RdyPut(k1, 3, true);
    var none: seq<Tid> := [];
    assert none + [3] == [3];
    assert k2.rdy == ChainState().rdy;
    assert k2.prios == {1, 2, 4};
    assert FirstReady(k2.rdy, 0) == 1;
    assert Step(k, CHAIN[7]) == Sched(k2);
  }

  lemma Follow(k: K, op: Op, k': K, ops: seq<Op>)
    requires Leads(k, op, k')
    ensures After(k, [op] + ops) == After(k', ops) && (Proper(k, [op] + ops) <==> Proper(k', ops))
  {
    hide WellUsed, Harmless, Step;
    assert ([op] + ops)[0] == op && ([op] + ops)[1..] == ops;
  }

  lemma NoMore(k: K)
    ensures k == ChainAt(5) ==> After(k, CHAIN[8..]) == ChainState() && Proper(k, CHAIN[8..])
  {
    hide ChainState;
  }

  lemma {:induction false} ChainRun(i: nat)
    requires i <= 5
    ensures var ops := CHAIN[i + 3..]; After(ChainAt(i), ops) == ChainState() && Proper(ChainAt(i), ops)
    decreases 5 - i
  {
    hide ChainState, ChainAt, Leads, After, Proper;
    if i == 5 {
      NoMore(ChainAt(5));
    }
    if i < 5 {
      match i {
        case 0 => AcquiresSecond();
        case 1 => Preempts();
        case 2 => AcquiresFirst();
        case 3 => Waits2();
        case 4 => PreemptsAgain();
      }
      Follow(ChainAt(i), CHAIN[i + 3], ChainAt(i + 1), CHAIN[i + 4..]);
      assert [CHAIN[i + 3]] + CHAIN[i + 4..] == CHAIN[i + 3..];
      ChainRun(i + 1);
    }
  }

  lemma AsksForFirst()
    ensures var k := ChainState(); var op := OpMutexPend(1, 0, false);
      WellUsed(k, op) && Harmless(k, op) && Step(k, op) == MutexPend(k, 1, 0, false).k
  {
    hide MutexPend;
  }

  /** The state in which the bound is about to be lost is reached: task 2, which waits for mutex 2, owns mutex 1, and
      task 3 now asks for mutex 1. */
  lemma ChainIsReached()
    ensures var k := Booted({1, 2, 3}, 0, 5, 1); var op := OpMutexPend(1, 0, false);
      && Proper(k, CHAIN) && After(k, CHAIN) == ChainState()
      && WellUsed(ChainState(), op) && Harmless(ChainState(), op)
      && Inherited(ChainState()) && !Inherited(Step(ChainState(), op))
  {
    hide Booted, Inherited, Leads, Inv, ChainAt, ChainState, After, Proper, Harmless, Step, MutexPend;
    var k := Booted({1, 2, 3}, 0, 5, 1);
    var k0 := ChainAt(0).(wait := map[], obj := map[]);
    var k1 := ChainAt(0).(wait := map[1 := []], obj := map[1 := FREE]);
    Starts();
    CreatesFirst();
    CreatesSecond();
    Follow(k, CHAIN[0], k0, CHAIN[1..]);
    Follow(k0, CHAIN[1], k1, CHAIN[2..]);
    Follow(k1, CHAIN[2], ChainAt(0), CHAIN[3..]);
    assert [CHAIN[0]] + CHAIN[1..] == CHAIN && [CHAIN[1]] + CHAIN[2..] == CHAIN[1..];
    assert [CHAIN[2]] + CHAIN[3..] == CHAIN[2..];
    ChainRun(0);
    ChainBreaksInheritance();
    AsksForFirst();
  }
}
