/** What the pend services answer, and what they do. A pend succeeds exactly when what it asks for is there, whether or not
    it may block and whether or not the scheduler is locked; it then takes one unit, or the first message, or the flags
    found. Otherwise it says why it does not wait, and changes nothing, or it waits.
  */
module PendAnswers {
  import opened TaskLists
  import opened KernelState
  import opened KernelOps
  import opened Services
  import opened FlagsMultiKept
  import opened SingleFlags
  import opened Run
  import opened FallingAsleep

  /** The answer is decided by whether something was there, and a refusal changes nothing. */
  predicate AnswersPend(k: K, there: bool, nonBlocking: bool, r: R) {
    && (r.err == ErrNone <==> there)
    && (r.err == ErrWouldBlock <==> !there && nonBlocking)
    && (r.err == ErrSchedLocked <==> !there && !nonBlocking && k.lock > 0)
    && (r.err == Blocked <==> !there && !nonBlocking && k.lock == 0)
    && (r.err == ErrWouldBlock || r.err == ErrSchedLocked ==> r.k == k)
  }

  lemma BlockAnswers(k: K, on: PendOn, tbl: seq<PendData>, timeout: Tick, nonBlocking: bool)
    requires Inv(k) && Distinct(tbl)
    ensures AnswersPend(k, false, nonBlocking, BlockCur(k, on, tbl, timeout, nonBlocking))
    ensures !nonBlocking && k.lock == 0 ==>
      StartsWaiting(k, Get(k, k.cur), on, tbl, timeout, BlockCur(k, on, tbl, timeout, nonBlocking).k)
  {
    hide Inv, Sched, Block, StartsWaiting;
    BlockWaits(k, on, tbl, timeout);
  }

  lemma OneEntry(o: Oid)
    ensures Entry(o) == [PendData(o, false, Msg(0, 0))] && Distinct(Entry(o))
  {
    assert Entry(o)[1..] == [];
  }

  /** OSSemPend. */
  lemma SemPendAnswers(k: K, o: Oid, timeout: Tick, nonBlocking: bool)
    requires Inv(k)
    ensures var r := Call(k, OpSemPend(o, timeout, nonBlocking)); var v := Object(k, o);
      if !v.Sem? then r == R(k, ErrObjType) else
      && AnswersPend(k, v.ctr > 0, nonBlocking, r)
      && (r.err == ErrNone ==> v.ctr > 0 && r.k == k.(obj := k.obj[o := Sem(v.ctr - 1)]))
      && (r.err == Blocked ==> StartsWaiting(k, Get(k, k.cur), OnSem, [PendData(o, false, Msg(0, 0))], timeout, r.k))
  {
    hide Inv, BlockCur, StartsWaiting;
    OneEntry(o);
    BlockAnswers(k, OnSem, Entry(o), timeout, nonBlocking);
  }

  /** OSQPend. */
  lemma QPendAnswers(k: K, o: Oid, timeout: Tick, nonBlocking: bool)
    requires Inv(k)
    ensures var r := Call(k, OpQPend(o, timeout, nonBlocking)); var v := Object(k, o);
      if !v.Queue? then r == R(k, ErrObjType) else
      && AnswersPend(k, v.msgs != [], nonBlocking, r)
      && (r.err == ErrNone ==> v.msgs != [] && r.k == k.(obj := k.obj[o := Queue(v.msgs[1..], v.max)]))
      && (r.err == Blocked ==> StartsWaiting(k, Get(k, k.cur), OnQ, [PendData(o, false, Msg(0, 0))], timeout, r.k))
  {
    hide Inv, BlockCur, StartsWaiting;
    OneEntry(o);
    BlockAnswers(k, OnQ, Entry(o), timeout, nonBlocking);
  }

  /** OSTaskSemPend. */
  lemma TaskSemPendAnswers(k: K, timeout: Tick, nonBlocking: bool)
    requires Inv(k)
    ensures var r := Call(k, OpTaskSemPend(timeout, nonBlocking)); var b := Get(k, k.cur);
      && AnswersPend(k, b.semCtr > 0, nonBlocking, r)
      && (r.err == ErrNone ==> b.semCtr > 0 && r.k == k.(tcb := k.tcb[k.cur := b.(semCtr := b.semCtr - 1)]))
      && (r.err == Blocked ==> StartsWaiting(k, b, OnTaskSem, [], timeout, r.k))
  {
    hide Inv, BlockCur, StartsWaiting;
    BlockAnswers(k, OnTaskSem, [], timeout, nonBlocking);
  }

  /** OSTaskQPend. */
  lemma TaskQPendAnswers(k: K, timeout: Tick, nonBlocking: bool)
    requires Inv(k)
    ensures var r := Call(k, OpTaskQPend(timeout, nonBlocking)); var b := Get(k, k.cur);
      && AnswersPend(k, b.taskQ != [], nonBlocking, r)
      && (r.err == ErrNone ==> b.taskQ != [] && r.k == k.(tcb := k.tcb[k.cur := b.(taskQ := b.taskQ[1..])]))
      && (r.err == Blocked ==> StartsWaiting(k, b, OnTaskQ, [], timeout, r.k))
  {
    hide Inv, BlockCur, StartsWaiting;
    BlockAnswers(k, OnTaskQ, [], timeout, nonBlocking);
  }

  // ------------------------------------------------------------------------------------- event flags

  /** The flags found: of the wanted ones those that are as the mode asks. */
  ghost predicate AreFound(found: Flags, mode: FlagMode, flags: Flags, want: Flags) {
    forall m: Flags :: OneBit(m) ==> (Has(found, m) <==> Has(want, m) && AsAsked(mode, flags, m))
  }

  /** Exactly the flags found are turned over. */
  ghost predicate TurnedOver(flags: Flags, found: Flags, flags': Flags) {
    forall m: Flags :: OneBit(m) ==> (Has(flags', m) <==> (Has(flags, m) != Has(found, m)))
  }

  /** OSFlagPend up to the point where the task waits. A call that succeeds reports the flags found, in the caller's TCB,
      and consumes these and no others if it is to. */
  lemma FlagPendAnswers(k: K, o: Oid, want: Flags, mode: FlagMode, consume: bool, timeout: Tick, nonBlocking: bool)
    requires Inv(k)
    ensures var r := Call(k, OpFlagPend(o, want, mode, consume, timeout, nonBlocking)); var v := Object(k, o);
      var b, b' := Get(k, k.cur), Get(r.k, k.cur);
      if !v.FlagGrp? then r == R(k, ErrObjType) else
      && AnswersPend(k, Fulfilled(mode, v.flags, want), nonBlocking, r)
      && (r.err == ErrNone ==>
        && AreFound(b'.flagsRdy, mode, v.flags, want) && Object(r.k, o).FlagGrp?
        && (if consume then TurnedOver(v.flags, b'.flagsRdy, Object(r.k, o).flags) else Object(r.k, o) == v)
        && r.k == k.(tcb := k.tcb[k.cur := b.(flagsRdy := b'.flagsRdy)], obj := k.obj[o := Object(r.k, o)]))
      && (r.err == Blocked ==>
        StartsWaiting(k, b.(flagsPend := want, flagsMode := mode, flagsRdy := 0), OnFlag, [PendData(o, false, Msg(0, 0))],
          timeout, r.k))
  {
    hide Inv, FlagMet, FlagBits, FlagConsumed, Fulfilled, BlockCur, StartsWaiting, AreFound, TurnedOver;
    OneEntry(o);
    if Object(k, o).FlagGrp? {
      var flags := Object(k, o).flags;
      MetMeans(mode, flags, want);
      FoundAre(mode, flags, want);
      FlagBlockWaits(k, o, want, mode, timeout);
    }
  }

  lemma FoundAre(mode: FlagMode, flags: Flags, want: Flags)
    ensures AreFound(FlagBits(mode, flags, want), mode, flags, want)
    ensures TurnedOver(flags, FlagBits(mode, flags, want), FlagConsumed(mode, flags, FlagBits(mode, flags, want)))
  {
    hide FlagBits, FlagConsumed, OneBit, Has;
    var rdy := FlagBits(mode, flags, want);
    forall m: Flags | OneBit(m)
      ensures Has(rdy, m) <==> Has(want, m) && AsAsked(mode, flags, m)
      ensures Has(FlagConsumed(mode, flags, rdy), m) <==> (Has(flags, m) != Has(rdy, m))
    {
      BitsMean(mode, flags, want, m);
      ConsumedMeans(mode, flags, rdy, m);
    }
  }

  /** What the task waits for is recorded before it goes to sleep. */
  lemma FlagBlockWaits(k: K, o: Oid, want: Flags, mode: FlagMode, timeout: Tick)
    requires Inv(k)
    ensures var b := Get(k, k.cur).(flagsPend := want, flagsMode := mode, flagsRdy := 0);
      var r := BlockCur(Put(k, k.cur, b), OnFlag, Entry(o), timeout, false);
      && (r.err == ErrSchedLocked <==> k.lock > 0) && (r.err == Blocked <==> k.lock == 0)
      && (k.lock == 0 ==> StartsWaiting(k, b, OnFlag, Entry(o), timeout, r.k))
  {
    hide Inv, Block, Sched;
    var b := Get(k, k.cur).(flagsPend := want, flagsMode := mode, flagsRdy := 0);
    var k1 := Put(k, k.cur, b);
    CurFacts(k);
    CurFieldInv(k, want, mode, 0);
    OneEntry(o);
    BlockWaits(k1, OnFlag, Entry(o), timeout);
    SameSleep(k, b, WaitingTcb(k1, b, OnFlag, Entry(o), timeout), Sched(Block(k1, k.cur, OnFlag, Entry(o), timeout)));
  }

  lemma SameSleep(k: K, b: Tcb, b': Tcb, k': K)
    requires k.cur in k.tcb && b.prio == Get(k, k.cur).prio && b.due == Get(k, k.cur).due && Sleeps(Put(k, k.cur, b), b', k')
    ensures Sleeps(k, b', k')
  {
    hide TakenOff, Listed;
    var k1 := Put(k, k.cur, b);
    assert forall x: Tid :: Get(k1, x).prio == Get(k, x).prio && Get(k1, x).due == Get(k, x).due;
    assert k1.tcb[k.cur := b'] == k.tcb[k.cur := b'];
    forall o: Oid | o in k.wait && Listed(b'.tbl, o)
      ensures QueuedByPrio(k, k.wait[o], k'.wait[o], k.cur, Get(k, k.cur).prio)
    {
      assert QueuedByPrio(k1, k1.wait[o], k'.wait[o], k.cur, Get(k1, k.cur).prio);
    }
    forall i: nat | i < |k.wheel| && b'.state.Live? && b'.state.dly && i == b'.due % |k.wheel|
      ensures QueuedByTime(k, k.wheel[i], k'.wheel[i], k.cur, Sub32(b'.due, k.now))
    {
      assert QueuedByTime(k1, k1.wheel[i], k'.wheel[i], k.cur, Sub32(b'.due, k.now));
    }
  }
}
