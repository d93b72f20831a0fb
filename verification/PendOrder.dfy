/** The order of the pend lists, those of event flag groups included. The invariant claims it for the others only, because
    OSTaskChangePrio leaves a task that waits for flags where it is. This module says exactly when that puts a list out of
    order, and that no other call does.
  */
module PendOrder {
  import opened TaskLists
  import opened KernelState
  import opened KernelOps
  import opened CoreKept
  import opened Services
  import opened ObjectsKept
  import opened MutexKept
  import opened FlagsMultiKept
  import opened ListMoves
  import opened TickWheel
  import opened Departures
  import opened Run
  import opened Effects
  import opened MutexRun
  import opened Frames

  /** Every list is sorted. */
  ghost predicate Sound(wait: map<Oid, seq<Tid>>, ord: Order) {
    forall o: Oid :: o in wait ==> Sorted(wait[o], ord)
  }

  ghost predicate Lined(k: K) {
    Sound(k.wait, PrioOrder(k.tcb))
  }

  /** The pend lists of event flag groups are sorted by priority. */
  ghost predicate FlagListsSorted(k: K) {
    forall o: Oid :: o in k.wait && Object(k, o).FlagGrp? ==> Sorted(k.wait[o], PrioOrder(k.tcb))
  }

  lemma LinedIs(k: K)
    requires Inv(k)
    ensures Lined(k) <==> FlagListsSorted(k)
  {
    hide ReadyInv, WheelInv, TcbInv, ObjInv, CurOk;
  }

  lemma KeyIs(k: K, t: Tid)
    ensures PrioOrder(k.tcb).Key(t) == Get(k, t).prio
  {
  }

  /** Everybody has the priority they had. */
  ghost predicate SamePrios(k: K, k': K) {
    forall t: Tid :: Get(k', t).prio == Get(k, t).prio
  }

  lemma SameOrder(k: K, k': K, q: seq<Tid>)
    requires Sorted(q, PrioOrder(k.tcb)) && forall t: Tid :: Count(q, t) > 0 ==> Get(k', t).prio == Get(k, t).prio
    ensures Sorted(q, PrioOrder(k'.tcb))
  {
    hide Sorted;
    forall t: Tid | Count(q, t) > 0 ensures PrioOrder(k'.tcb).Key(t) == PrioOrder(k.tcb).Key(t) {
      KeyIs(k, t);
      KeyIs(k', t);
    }
    SortedShift(q, PrioOrder(k.tcb), PrioOrder(k'.tcb), 0);
  }

  lemma SoundUnder(k: K, k': K, wait: map<Oid, seq<Tid>>)
    requires Sound(wait, PrioOrder(k.tcb)) && SamePrios(k, k')
    ensures Sound(wait, PrioOrder(k'.tcb))
  {
    hide PrioOrder;
    forall o: Oid | o in wait ensures Sorted(wait[o], PrioOrder(k'.tcb)) {
      SameOrder(k, k', wait[o]);
    }
  }

  lemma LinedSame(k: K, k': K)
    requires Lined(k) && k'.wait == k.wait && SamePrios(k, k')
    ensures Lined(k')
  {
    hide Sound, PrioOrder;
    SoundUnder(k, k', k.wait);
  }

  // ------------------------------------------------------------------------------------ leave and enter

  lemma {:induction false} UnlinkSound(wait: map<Oid, seq<Tid>>, tbl: seq<PendData>, t: Tid, ord: Order)
    requires Sound(wait, ord)
    ensures Sound(UnlinkAll(wait, tbl, t), ord)
  {
    hide Sorted;
    if tbl != [] {
      var o := tbl[0].obj;
      if o in wait {
        SortedDrop(wait[o], t, ord);
        UnlinkSound(wait[o := Drop(wait[o], t)], tbl[1..], t, ord);
      } else {
        UnlinkSound(wait, tbl[1..], t, ord);
      }
    }
  }

  lemma {:induction false} LinkSound(wait: map<Oid, seq<Tid>>, tbl: seq<PendData>, t: Tid, ord: Order)
    requires Sound(wait, ord)
    ensures Sound(LinkAll(wait, tbl, t, ord), ord)
  {
    hide Sorted;
    if tbl != [] {
      var o := tbl[0].obj;
      if o in wait {
        SortedInsert(wait[o], t, ord);
        LinkSound(wait[o := Insert(wait[o], t, ord)], tbl[1..], t, ord);
      } else {
        LinkSound(wait, tbl[1..], t, ord);
      }
    }
  }

  lemma WakeLined(k: K, t: Tid, ev: Event)
    requires Lined(k)
    ensures Lined(Wake(k, t, ev)) && SamePrios(k, Wake(k, t, ev))
  {
    hide Sound, PrioOrder, UnlinkAll, WheelDrop;
    if Ends(ev, Get(k, t).state) {
      var k' := Wake(k, t, ev);
      FinishOwn(Get(k, t), ev);
      assert k'.tcb == k.tcb[t := Finish(Get(k, t), ev)];
      UnlinkSound(k.wait, Get(k, t).tbl, t, PrioOrder(k.tcb));
      SoundUnder(k, k', UnlinkAll(k.wait, Get(k, t).tbl, t));
    }
  }

  lemma {:induction false} WakeAllLined(k: K, ts: seq<Tid>, ev: Event)
    requires Lined(k)
    ensures Lined(WakeAll(k, ts, ev))
    decreases |ts|
  {
    hide Lined, Wake;
    if ts != [] {
      WakeLined(k, ts[0], ev);
      WakeAllLined(Wake(k, ts[0], ev), ts[1..], ev);
    }
  }

  lemma FlagStepLined(k: K, t: Tid, flags: Flags)
    requires Lined(k)
    ensures Lined(FlagStep(k, t, flags))
  {
    hide Sound, PrioOrder, UnlinkAll, Wake, FlagMet, FlagBits;
    var b := Get(k, t);
    var ev := Flagged(FlagBits(b.flagsMode, flags, b.flagsPend));
    WakeLined(k, t, ev);
    FinishOwn(b, ev);
    var k' := Put(Unlink(k, t), t, Finish(b, ev).(spoke := b.spoke, due := b.due));
    UnlinkSound(k.wait, b.tbl, t, PrioOrder(k.tcb));
    assert SamePrios(k, k');
    SoundUnder(k, k', k'.wait);
  }

  lemma {:induction false} FlagReadyAllLined(k: K, ts: seq<Tid>, flags: Flags)
    requires Lined(k)
    ensures Lined(FlagReadyAll(k, ts, flags))
    decreases |ts|
  {
    hide Lined, FlagReady, FlagMet, FlagBits;
    if ts != [] {
      FlagStepLined(k, ts[0], flags);
      FlagReadyAllLined(FlagStep(k, ts[0], flags), ts[1..], flags);
    }
  }

  lemma {:induction false} ExpireAllLined(k: K, ts: seq<Tid>)
    requires Lined(k)
    ensures Lined(ExpireAll(k, ts))
    decreases |ts|
  {
    hide Lined, Wake;
    if ts != [] {
      WakeLined(k, ts[0], if Get(k, ts[0]).state.Live? && Get(k, ts[0]).state.pend then TimedOut else DelayOver);
      ExpireAllLined(Expire(k, ts[0]), ts[1..]);
    }
  }

  lemma SleepLined(k: K, t: Tid, b: Tcb)
    requires Lined(k) && b.prio == Get(k, t).prio
    ensures Lined(Sleep(k, t, b))
  {
    hide Sound, PrioOrder, LinkAll, WheelAdd;
    var k1 := Put(k, t, b);
    assert SamePrios(k, k1);
    SoundUnder(k, k1, k.wait);
    LinkSound(k.wait, b.tbl, t, PrioOrder(k1.tcb));
    SleepTcb(k, t, b);
    SleepWait(k, t, b);
  }

  lemma SleepWait(k: K, t: Tid, b: Tcb)
    ensures Sleep(k, t, b).wait == LinkAll(k.wait, b.tbl, t, PrioOrder(k.tcb[t := b]))
  {
    hide PrioOrder, LinkAll, WheelAdd;
  }

  // ------------------------------------------------------------------------------------ new priorities

  /** t is on no list. */
  ghost predicate Absent(wait: map<Oid, seq<Tid>>, t: Tid) {
    forall o: Oid :: o in wait ==> Count(wait[o], t) == 0
  }

  lemma AbsentPrio(k: K, t: Tid, k': K, wait: map<Oid, seq<Tid>>)
    requires Sound(wait, PrioOrder(k.tcb)) && Absent(wait, t) && forall x: Tid :: x != t ==> Get(k', x) == Get(k, x)
    ensures Sound(wait, PrioOrder(k'.tcb))
  {
    hide PrioOrder;
    forall o: Oid | o in wait ensures Sorted(wait[o], PrioOrder(k'.tcb)) {
      SameOrder(k, k', wait[o]);
    }
  }

  lemma NotListed(k: K, t: Tid)
    requires CoreInv(k) && Get(k, t).tbl == []
    ensures Absent(k.wait, t)
  {
    hide ReadyInv, WheelInv, TcbInv;
    forall o: Oid | o in k.wait ensures Count(k.wait[o], t) == 0 {
      assert Count(k.wait[o], t) == if Listed(Get(k, t).tbl, o) then 1 else 0;
    }
  }

  /** A task that waits for nothing gets another priority. */
  lemma FreePrioLined(k: K, t: Tid, p: nat, k': K)
    requires CoreInv(k) && Lined(k) && Get(k, t).tbl == []
    requires k'.tcb == k.tcb[t := Get(k, t).(prio := p)] && k'.wait == k.wait
    ensures Lined(k')
  {
    hide ReadyInv, WheelInv, TcbInv, Sound, PrioOrder;
    NotListed(k, t);
    AbsentPrio(k, t, k', k.wait);
  }

  lemma ResortLined(k: K, t: Tid, p: nat)
    requires CoreInv(k) && Lined(k) && t in k.tcb
    ensures Lined(MovePending(k, t, p))
  {
    hide ReadyInv, WheelInv, TcbInv, PrioOrder, Sorted, ResortAll;
    var k' := MovePending(k, t, p);
    TcbOkOf(k, t);
    MovePrioTcb(k, t, p, true);
    forall o: Oid | o in k'.wait ensures Sorted(k'.wait[o], PrioOrder(k'.tcb)) {
      ResortAllAt(k.wait, Get(k, t).tbl, t, PrioOrder(k'.tcb), o);
      ResortOne(k, t, p, o);
    }
  }

  lemma ResortOne(k: K, t: Tid, p: nat, o: Oid)
    requires CoreInv(k) && Lined(k) && t in k.tcb && o in k.wait
    ensures var ord := PrioOrder(MovePending(k, t, p).tcb); var q := k.wait[o];
      Sorted(if Listed(Get(k, t).tbl, o) && |q| > 1 then Insert(Drop(q, t), t, ord) else q, ord)
  {
    hide ReadyInv, WheelInv, TcbInv, PrioOrder, ResortAll;
    var k' := MovePending(k, t, p);
    var q := k.wait[o];
    MovePrioTcb(k, t, p, true);
    assert Count(q, t) == if Listed(Get(k, t).tbl, o) then 1 else 0;
    if !Listed(Get(k, t).tbl, o) {
      SameOrder(k, k', q);
    } else if |q| > 1 {
      SortedDrop(q, t, PrioOrder(k.tcb));
      CountDrop(q, t, t);
      SameOrder(k, k', Drop(q, t));
      SortedInsert(Drop(q, t), t, PrioOrder(k'.tcb));
    }
  }

  lemma FreeUnlessPending(k: K, t: Tid)
    requires CoreInv(k) && t in k.tcb && (k.tcb[t].state == Deleted || !k.tcb[t].state.pend || NoObject(k.tcb[t].pendOn))
    ensures k.tcb[t].tbl == []
  {
    hide ReadyInv, WheelInv, WaitInv;
    TcbOkOf(k, t);
  }

  lemma MoveReadyWait(k: K, t: Tid, p: nat, atTail: bool)
    ensures MoveReady(k, t, p, atTail).wait == k.wait
  {
    hide Drop;
  }

  lemma SetPrioLined(k: K, t: Tid, p: nat, atTail: bool)
    requires CoreInv(k) && Lined(k) && t in k.tcb && k.tcb[t].state.Live?
    ensures Lined(SetOwnerPrio(k, t, p, atTail))
  {
    hide CoreInv, Lined, MoveReady, MovePending;
    MovePrioTcb(k, t, p, atTail);
    MoveReadyWait(k, t, p, atTail);
    if k.tcb[t].state.pend {
      ResortLined(k, t, p);
    } else {
      FreeUnlessPending(k, t);
      FreePrioLined(k, t, p, SetOwnerPrio(k, t, p, atTail));
    }
  }

  // ------------------------------------------------------------------------ a flag waiter's new priority

  /** Priority p fits between those of the neighbours of place i. */
  predicate FitsAt(k: K, q: seq<Tid>, i: nat, p: nat) {
    && (0 < i <= |q| ==> Get(k, q[i - 1]).prio <= p)
    && (i + 1 < |q| ==> p <= Get(k, q[i + 1]).prio)
  }

  /** The new priority fits between those of t's neighbours in its list. */
  ghost predicate Fits(k: K, t: Tid, p: nat) {
    forall o: Oid, i: nat :: o in k.wait && i < |k.wait[o]| && k.wait[o][i] == t ==> FitsAt(k, k.wait[o], i, p)
  }

  lemma {:induction false} SortedPairs(q: seq<Tid>, ord: Order)
    ensures Sorted(q, ord) <==> forall i: nat :: i + 1 < |q| ==> ord.Key(q[i]) <= ord.Key(q[i + 1])
  {
    if |q| > 1 {
      SortedPairs(q[1..], ord);
      if forall i: nat :: i + 1 < |q| ==> ord.Key(q[i]) <= ord.Key(q[i + 1]) {
        forall i: nat | i + 1 < |q[1..]| ensures ord.Key(q[1..][i]) <= ord.Key(q[1..][i + 1]) {
          assert ord.Key(q[i + 1]) <= ord.Key(q[i + 2]);
        }
        assert ord.Key(q[0]) <= ord.Key(q[0 + 1]);
      } else {
        var i: nat :| i + 1 < |q| && ord.Key(q[i]) > ord.Key(q[i + 1]);
        assert i > 0 ==> ord.Key(q[1..][i - 1]) > ord.Key(q[1..][i]);
      }
    }
  }

  /** Two places of a task that occurs once are the same. */
  lemma {:induction false} OncePlace(q: seq<Tid>, t: Tid, i: nat, j: nat)
    requires i < j < |q| && q[i] == t && q[j] == t
    ensures Count(q, t) > 1
  {
    if i == 0 {
      CountPositive(q[1..], j - 1);
    } else {
      OncePlace(q[1..], t, i - 1, j - 1);
    }
  }

  lemma PutPrioExactly(k: K, t: Tid, p: nat)
    requires CoreInv(k) && Lined(k)
    ensures Lined(Put(k, t, Get(k, t).(prio := p))) <==> Fits(k, t, p)
  {
    hide ReadyInv, WheelInv, TcbInv, WaitInv, Sorted, PrioOrder, FitsAt;
    var k' := Put(k, t, Get(k, t).(prio := p));
    if Fits(k, t, p) {
      forall o: Oid | o in k'.wait ensures Sorted(k'.wait[o], PrioOrder(k'.tcb)) {
        OneListFits(k, t, p, o);
      }
    } else {
      var o: Oid, i: nat :| o in k.wait && i < |k.wait[o]| && k.wait[o][i] == t && !FitsAt(k, k.wait[o], i, p);
      OneListMisfits(k, t, p, o, i);
      assert !Sorted(k'.wait[o], PrioOrder(k'.tcb));
    }
  }

  lemma OneListFits(k: K, t: Tid, p: nat, o: Oid)
    requires WaitInv(k) && Lined(k) && Fits(k, t, p) && o in k.wait
    ensures Sorted(k.wait[o], PrioOrder(Put(k, t, Get(k, t).(prio := p)).tcb))
  {
    hide PrioOrder, WaitInv;
    var k' := Put(k, t, Get(k, t).(prio := p));
    var q, ord, ord' := k.wait[o], PrioOrder(k.tcb), PrioOrder(k'.tcb);
    SortedPairs(q, ord);
    SortedPairs(q, ord');
    Once(k, t, o);
    forall i: nat | i + 1 < |q| ensures ord'.Key(q[i]) <= ord'.Key(q[i + 1]) {
      KeyIs(k, q[i]);
      KeyIs(k, q[i + 1]);
      KeyIs(k', q[i]);
      KeyIs(k', q[i + 1]);
      assert ord.Key(q[i]) <= ord.Key(q[i + 1]);
      if q[i] == t && q[i + 1] == t {
        OncePlace(q, t, i, i + 1);
      }
    }
  }

  lemma Once(k: K, t: Tid, o: Oid)
    requires WaitInv(k) && o in k.wait
    ensures Count(k.wait[o], t) <= 1
  {
    assert Count(k.wait[o], t) == if Listed(Get(k, t).tbl, o) then 1 else 0;
  }

  lemma OneListMisfits(k: K, t: Tid, p: nat, o: Oid, i: nat)
    requires WaitInv(k) && o in k.wait && i < |k.wait[o]| && k.wait[o][i] == t && !FitsAt(k, k.wait[o], i, p)
    ensures !Sorted(k.wait[o], PrioOrder(Put(k, t, Get(k, t).(prio := p)).tcb))
  {
    hide PrioOrder, WaitInv, Sorted;
    var k' := Put(k, t, Get(k, t).(prio := p));
    var q, ord' := k.wait[o], PrioOrder(k'.tcb);
    SortedPairs(q, ord');
    Once(k, t, o);
    KeyIs(k', t);
    if i > 0 && Get(k, q[i - 1]).prio > p {
      if q[i - 1] == t {
        OncePlace(q, t, i - 1, i);
      }
      KeyIs(k', q[i - 1]);
      assert ord'.Key(q[i - 1]) > ord'.Key(q[(i - 1) + 1]);
    } else {
      if q[i + 1] == t {
        OncePlace(q, t, i, i + 1);
      }
      KeyIs(k', q[i + 1]);
      assert ord'.Key(q[i]) > ord'.Key(q[i + 1]);
    }
  }

  // ---------------------------------------------------------------------------------------- every call

  /** The call puts no pend list out of order: it does not give a task that waits for flags a priority that does not fit
      its place. */
  ghost predicate KeepsOrder(k: K, op: Op) {
    op.OpChangePrio? && op.prio + 1 < |k.rdy| && Get(k, op.t).state.Live? && Get(k, op.t).pendOn == OnFlag ==>
      Fits(k, op.t, op.prio)
  }

  lemma SchedLined(k: K, noSched: bool)
    requires Lined(k)
    ensures Lined(MaybeSched(k, noSched)) && Lined(Sched(k))
  {
  }

  lemma PendsFlag(k: K, t: Tid)
    requires CoreInv(k) && Get(k, t).pendOn == OnFlag
    ensures Get(k, t).state.Live? && Get(k, t).state.pend
  {
    hide ReadyInv, WheelInv, WaitInv;
    TcbOkOf(k, t);
  }

  lemma PrioLined(k: K, t: Tid, p: nat, self: bool)
    requires Inv(k) && Lined(k)
    ensures Lined(TaskChangePrio(k, t, p, self).k) <==> KeepsOrder(k, OpChangePrio(t, p, self))
  {
    hide CoreInv, ObjInv, CurOk, Lined, Fits, MoveReady, MovePending, Sched;
    if p + 1 < |k.rdy| && Get(k, t).state != Deleted {
      var b := Get(k, t);
      var k1 := ChangePrio(k, t, p, !self);
      SchedKeepsTcbs(k1, false);
      SchedNow(k1);
      SameLined(k1, Sched(k1));
      if b.pendOn == OnFlag {
        PendsFlag(k, t);
        PutPrioExactly(k, t, p);
      } else if b.state.pend && !NoObject(b.pendOn) {
        ResortLined(k, t, p);
      } else {
        MovePrioTcb(k, t, p, !self);
        MoveReadyWait(k, t, p, !self);
        FreeUnlessPending(k, t);
        FreePrioLined(k, t, p, k1);
      }
    }
  }

  lemma SameLined(k: K, k': K)
    ensures k'.wait == k.wait && k'.tcb == k.tcb ==> (Lined(k') <==> Lined(k))
  {
  }

  lemma DelWait(k: K, t: Tid)
    ensures var k' := TaskDel(k, t).k; k'.wait == k.wait || k'.wait == UnlinkAll(k.wait, Get(k, t).tbl, t)
  {
    hide RdyRemove, WheelDrop, UnlinkAll;
    RdyRemoveTcb(k, t);
    RdyRemoveWait(k, t);
  }

  lemma RdyRemoveWait(k: K, t: Tid)
    ensures RdyRemove(k, t).wait == k.wait
  {
  }

  lemma DelLined(k: K, t: Tid)
    requires Inv(k) && Lined(k) && Harmless(k, OpTaskDel(t))
    ensures Lined(TaskDel(k, t).k)
  {
    hide CoreInv, ObjInv, CurOk, Harmless, Sound, PrioOrder, TaskDel, UnlinkAll;
    var k' := TaskDel(k, t).k;
    DelWait(k, t);
    DelOnly(k, t);
    TaskDelKeeps(k, t);
    UnlinkSound(k.wait, Get(k, t).tbl, t, PrioOrder(k.tcb));
    if Get(k', t) == Get(k, t) {
      SoundUnder(k, k', k'.wait);
    } else {
      DelTbl(k, t);
      NotListed(k', t);
      AbsentPrio(k, t, k', k'.wait);
    }
  }

  lemma DelTbl(k: K, t: Tid)
    requires Get(TaskDel(k, t).k, t) != Get(k, t)
    ensures Get(TaskDel(k, t).k, t).tbl == []
  {
    hide RdyRemove, WheelDrop, UnlinkAll;
  }

  lemma CreateLined(k: K, t: Tid, prio: nat, qMax: nat)
    requires Inv(k) && Lined(k) && Get(k, t).state == Deleted
    ensures Lined(TaskCreate(k, t, prio, qMax).k)
  {
    hide ReadyInv, WheelInv, TcbInv, ObjInv, CurOk, Sound, PrioOrder, Sched;
    var b := NO_TCB.(state := RDY, prio := prio, taskQMax := qMax);
    var k1 := RdyPut(Put(k, t, b), t, true);
    RdyPutTcb(Put(k, t, b), t, true);
    DeletedTbl(k, t);
    NotListed(k, t);
    AbsentPrio(k, t, k1, k.wait);
    SchedKeepsTcbs(k1, false);
    SchedNow(k1);
  }

  lemma DeletedTbl(k: K, t: Tid)
    requires CoreInv(k) && Get(k, t).state == Deleted
    ensures Get(k, t).tbl == []
  {
    hide ReadyInv, WheelInv, WaitInv;
    if t in k.tcb {
      TcbOkOf(k, t);
    }
  }

  lemma TaskOpsLined(k: K, op: Op)
    requires Inv(k) && Lined(k) && WellUsed(k, op) && Harmless(k, op)
    requires op.OpTaskCreate? || op.OpTaskDel? || op.OpSuspend? || op.OpResume? || op.OpDly?
    ensures Lined(Step(k, op))
  {
    hide Inv, Lined, Harmless, TaskCreate, TaskDel, SuspendTask, ResumeTask, Sched, Sleep, Timed;
    match op
    case OpTaskCreate(t, prio, qMax) => CreateLined(k, t, prio, qMax);
    case OpTaskDel(t) => DelLined(k, t);
    case OpSuspend(t) =>
      SuspendLined(k, t);
      SchedLined(SuspendTask(k, t), false);
    case OpResume(t) =>
      SuspendLined(k, t);
      SchedLined(k, false);
      SchedLined(ResumeTask(k, t), false);
    case OpDly(dly, opt) => DlyLined(k, dly, opt);
  }

  lemma SuspendLined(k: K, t: Tid)
    requires Lined(k)
    ensures Lined(SuspendTask(k, t)) && Lined(ResumeTask(k, t))
  {
    hide Sound, PrioOrder;
    SuspendKeepsWait(k, t);
    LinedSame(k, SuspendTask(k, t));
    LinedSame(k, ResumeTask(k, t));
  }

  lemma SuspendKeepsWait(k: K, t: Tid)
    ensures SuspendTask(k, t).wait == k.wait && SamePrios(k, SuspendTask(k, t))
    ensures ResumeTask(k, t).wait == k.wait && SamePrios(k, ResumeTask(k, t))
  {
    hide Drop, WheelDrop;
  }

  lemma DlyLined(k: K, dly: Tick, opt: TimeOpt)
    requires Lined(k)
    ensures Lined(TimeDly(k, dly, opt).k)
  {
    hide Lined, Sleep, Sched, Timed;
    var b := Timed(Get(k, k.cur).(state := DLY), k.now, |k.wheel|, dly, opt);
    TimedPrio(Get(k, k.cur).(state := DLY), k.now, |k.wheel|, dly, opt);
    SleepLined(k, k.cur, b);
    SchedLined(Sleep(k, k.cur, b), false);
    PutLined(k, k.cur, b);
  }

  lemma TimedPrio(b: Tcb, now: Tick, size: nat, time: Tick, opt: TimeOpt)
    ensures Timed(b, now, size, time, opt).prio == b.prio
  {
  }

  lemma PutLined(k: K, t: Tid, b: Tcb)
    requires Lined(k) && b.prio == Get(k, t).prio
    ensures Lined(Put(k, t, b))
  {
    hide Sound, PrioOrder;
    LinedSame(k, Put(k, t, b));
  }

  lemma BlockLined(k: K, on: PendOn, tbl: seq<PendData>, timeout: Tick, nonBlocking: bool)
    requires Lined(k)
    ensures Lined(BlockCur(k, on, tbl, timeout, nonBlocking).k)
  {
    hide Lined, Sleep, BlockedTcb, Sched;
    var b := BlockedTcb(Get(k, k.cur), on, tbl, timeout, k.now, |k.wheel|);
    BlockedFields(Get(k, k.cur), on, tbl, timeout, k.now, |k.wheel|);
    SleepLined(k, k.cur, b);
    SchedLined(Sleep(k, k.cur, b), false);
  }

  lemma SemPendLined(k: K, o: Oid, timeout: Tick, nonBlocking: bool)
    requires Lined(k)
    ensures Lined(SemPend(k, o, timeout, nonBlocking).k) && Lined(QPend(k, o, timeout, nonBlocking).k)
  {
    hide Lined, BlockCur;
    SameLined(k, SemPend(k, o, timeout, nonBlocking).k);
    SameLined(k, QPend(k, o, timeout, nonBlocking).k);
    BlockLined(k, OnSem, Entry(o), timeout, nonBlocking);
    BlockLined(k, OnQ, Entry(o), timeout, nonBlocking);
  }

  lemma TaskPendLined(k: K, timeout: Tick, nonBlocking: bool)
    requires Lined(k)
    ensures Lined(TaskSemPend(k, timeout, nonBlocking).k) && Lined(TaskQPend(k, timeout, nonBlocking).k)
  {
    hide Lined, BlockCur;
    var b := Get(k, k.cur);
    BlockLined(k, OnTaskSem, [], timeout, nonBlocking);
    BlockLined(k, OnTaskQ, [], timeout, nonBlocking);
    if b.semCtr > 0 {
      PutLined(k, k.cur, b.(semCtr := b.semCtr - 1));
    }
    if b.taskQ != [] {
      PutLined(k, k.cur, b.(taskQ := b.taskQ[1..]));
    }
  }

  lemma FlagPendLined(k: K, o: Oid, want: Flags, mode: FlagMode, consume: bool, timeout: Tick, nonBlocking: bool)
    requires Lined(k)
    ensures Lined(FlagPend(k, o, want, mode, consume, timeout, nonBlocking).k)
  {
    hide Lined, BlockCur, FlagMet, FlagBits, FlagConsumed;
    match Object(k, o)
    case FlagGrp(flags) =>
      var b := Get(k, k.cur);
      var rdy := FlagBits(mode, flags, want);
      var k1 := Put(k, k.cur, b.(flagsRdy := rdy));
      PutLined(k, k.cur, b.(flagsRdy := rdy));
      SameLined(k1, SetObj(k1, o, FlagGrp(FlagConsumed(mode, flags, rdy))));
      PutLined(k, k.cur, b.(flagsPend := want, flagsMode := mode, flagsRdy := 0));
      BlockLined(Put(k, k.cur, b.(flagsPend := want, flagsMode := mode, flagsRdy := 0)), OnFlag, Entry(o), timeout, false);
    case _ =>
  }

  lemma MultiPendLined(k: K, tbl: seq<PendData>, timeout: Tick, nonBlocking: bool)
    requires Lined(k)
    ensures Lined(MultiPend(k, tbl, timeout, nonBlocking).k)
  {
    hide Lined, BlockCur, TakeReady, MultiValid;
    var (obj, got, n) := TakeReady(k.obj, tbl);
    var k1 := Put(k, k.cur, Get(k, k.cur).(got := got));
    PutLined(k, k.cur, Get(k, k.cur).(got := got));
    SameLined(k1, k1.(obj := obj));
    BlockLined(k, OnMulti, got, timeout, nonBlocking);
  }

  lemma PendOpsLined(k: K, op: Op)
    requires Lined(k)
    requires op.OpSemPend? || op.OpQPend? || op.OpTaskSemPend? || op.OpTaskQPend? || op.OpFlagPend? || op.OpMultiPend?
    ensures Lined(Step(k, op))
  {
    hide Lined, SemPend, QPend, TaskSemPend, TaskQPend, FlagPend, MultiPend;
    match op
    case OpSemPend(o, timeout, nonBlocking) => SemPendLined(k, o, timeout, nonBlocking);
    case OpQPend(o, timeout, nonBlocking) => SemPendLined(k, o, timeout, nonBlocking);
    case OpTaskSemPend(timeout, nonBlocking) => TaskPendLined(k, timeout, nonBlocking);
    case OpTaskQPend(timeout, nonBlocking) => TaskPendLined(k, timeout, nonBlocking);
    case OpFlagPend(o, want, mode, consume, timeout, nonBlocking) =>
      FlagPendLined(k, o, want, mode, consume, timeout, nonBlocking);
    case OpMultiPend(tbl, timeout, nonBlocking) => MultiPendLined(k, tbl, timeout, nonBlocking);
  }

  lemma WakesLined(k: K, ts: seq<Tid>, ev: Event, noSched: bool)
    requires Lined(k)
    ensures Lined(MaybeSched(WakeAll(k, ts, ev), noSched))
  {
    hide Lined, WakeAll, MaybeSched;
    WakeAllLined(k, ts, ev);
    SchedLined(WakeAll(k, ts, ev), noSched);
  }

  lemma PostsLined(k: K, op: Op)
    requires Lined(k) && (op.OpSemPost? || op.OpQPost? || op.OpPendAbort? || op.OpFlagPost?)
    ensures Lined(Step(k, op))
  {
    hide Lined, WakeAll, MaybeSched, MsgPut, FlagReadyAll, PostedFlags;
    SameLined(k, Step(k, op));
    match op
    case OpSemPost(o, all, noSched) =>
      var w := Waiters(k, o);
      WakesLined(k, if all || w == [] then w else w[..1], Posted(Some(o), NO_MSG), noSched);
    case OpQPost(o, m, lifo, all, noSched, poolEmpty) =>
      var w := Waiters(k, o);
      WakesLined(k, if all || w == [] then w else w[..1], Posted(Some(o), m), noSched);
    case OpPendAbort(o, all, noSched) =>
      var w := Waiters(k, o);
      WakesLined(k, if (all && !noSched) || w == [] then w else w[..1], Aborted(Some(o)), noSched);
    case OpFlagPost(o, bits, set', noSched) =>
      if Object(k, o).FlagGrp? {
        var flags := PostedFlags(Object(k, o).flags, bits, set');
        SameLined(k, SetObj(k, o, FlagGrp(flags)));
        FlagReadyAllLined(SetObj(k, o, FlagGrp(flags)), Waiters(k, o), flags);
        SchedLined(FlagReadyAll(SetObj(k, o, FlagGrp(flags)), Waiters(k, o), flags), noSched);
      }
  }

  lemma ObjDelLined(k: K, o: Oid, always: bool)
    requires Lined(k)
    ensures Lined(ObjDel(k, o, always).k)
  {
    hide Lined, WakeAll, Sched;
    var k1 := WakeAll(k, Waiters(k, o), ObjDeleted(Some(o)));
    SameLined(k, SetObj(k, o, Gone));
    WakeAllLined(k, Waiters(k, o), ObjDeleted(Some(o)));
    SameLined(k1, SetObj(k1, o, Gone));
    SchedLined(SetObj(k1, o, Gone), false);
  }

  lemma CreateObjLined(k: K, o: Oid, v: Obj)
    requires Lined(k)
    ensures Lined(CreateObj(k, o, v))
  {
  }

  lemma OwnPostsLined(k: K, op: Op)
    requires Lined(k) && (op.OpTaskSemPost? || op.OpTaskQPost? || op.OpTaskPendAbort? || op.OpDlyResume?)
    ensures Lined(Step(k, op))
  {
    hide Lined, TaskSemPost, TaskQPost, TaskPendAbort, TimeDlyResume;
    match op
    case OpTaskSemPost(t, noSched) => TaskSemPostLined(k, t, noSched);
    case OpTaskQPost(t, m, lifo, noSched, poolEmpty) => TaskQPostLined(k, t, m, lifo, noSched, poolEmpty);
    case OpTaskPendAbort(t, on, noSched) =>
      OneWakeLined(k, t, Aborted(None), noSched);
      AbortIs(k, t, on, noSched);
    case OpDlyResume(t) => DlyResumeLined(k, t);
  }

  lemma OneWakeLined(k: K, t: Tid, ev: Event, noSched: bool)
    requires Lined(k)
    ensures Lined(MaybeSched(Wake(k, t, ev), noSched))
  {
    hide Lined, Wake, MaybeSched;
    WakeLined(k, t, ev);
    SchedLined(Wake(k, t, ev), noSched);
  }

  lemma AbortIs(k: K, t: Tid, on: PendOn, noSched: bool)
    ensures var k' := TaskPendAbort(k, t, on, noSched).k; k' == k || k' == MaybeSched(Wake(k, t, Aborted(None)), noSched)
  {
    hide Wake, MaybeSched;
  }

  lemma TaskSemPostLined(k: K, t: Tid, noSched: bool)
    requires Lined(k)
    ensures Lined(TaskSemPost(k, t, noSched).k)
  {
    hide Lined, Wake, MaybeSched;
    OneWakeLined(k, t, Posted(None, NO_MSG), noSched);
    if Get(k, t).semCtr < SEM_MAX {
      PutLined(k, t, Get(k, t).(semCtr := Get(k, t).semCtr + 1));
    }
  }

  lemma TaskQPostLined(k: K, t: Tid, m: Msg, lifo: bool, noSched: bool, poolEmpty: bool)
    requires Lined(k)
    ensures Lined(TaskQPost(k, t, m, lifo, noSched, poolEmpty).k)
  {
    hide Lined, Wake, MaybeSched, MsgPut;
    OneWakeLined(k, t, Posted(None, m), noSched);
    PutLined(k, t, Get(k, t).(taskQ := MsgPut(Get(k, t).taskQ, Get(k, t).taskQMax, m, lifo, poolEmpty).0));
  }

  lemma DlyResumeLined(k: K, t: Tid)
    requires Lined(k)
    ensures Lined(TimeDlyResume(k, t).k)
  {
    hide Lined, Wake, Sched;
    WakeLined(k, t, DelayOver);
    SchedLined(k, false);
    SchedLined(Wake(k, t, DelayOver), false);
  }

  lemma MutexPendLined(k: K, o: Oid, timeout: Tick, nonBlocking: bool)
    requires Inv(k) && Lined(k)
    ensures Lined(MutexPend(k, o, timeout, nonBlocking).k)
  {
    hide CoreInv, ObjInv, CurOk, Lined, SetOwnerPrio, Sleep, BlockedTcb, Sched;
    var k' := MutexPend(k, o, timeout, nonBlocking).k;
    SameLined(k, k');
    match Object(k, o)
    case Mutex(Some(w), _, _) =>
      OwnerLive(k, o);
      SetPrioLined(k, w, Get(k, k.cur).prio, false);
      var k1 := RaiseOwner(k, w, Get(k, k.cur).prio);
      var b := BlockedTcb(Get(k1, k.cur), OnMutex, Entry(o), timeout, k1.now, |k1.wheel|);
      BlockedFields(Get(k1, k.cur), OnMutex, Entry(o), timeout, k1.now, |k1.wheel|);
      SleepLined(k1, k.cur, b);
      SchedLined(Sleep(k1, k.cur, b), false);
    case _ =>
  }

  lemma MutexPostLined(k: K, o: Oid, noSched: bool)
    requires Inv(k) && Lined(k)
    ensures Lined(MutexPost(k, o, noSched).k)
  {
    hide CoreInv, ObjInv, CurOk, Lined, RestoreCur, Wake, MaybeSched;
    SameLined(k, MutexPost(k, o, noSched).k);
    if Object(k, o).Mutex? && Waiters(k, o) != [] {
      var k1, h := RestoreCur(k, Object(k, o).orig), Waiters(k, o)[0];
      RestoreLined(k, Object(k, o).orig);
      var k2 := SetObj(k1, o, Mutex(Some(h), 1, Get(k1, h).prio));
      SameLined(k1, k2);
      OneWakeLined(k2, h, Posted(Some(o), NO_MSG), noSched);
    }
  }

  lemma RestoreLined(k: K, orig: nat)
    requires Inv(k) && Lined(k)
    ensures Lined(RestoreCur(k, orig))
  {
    hide CoreInv, ObjInv, Lined, MoveReady;
    var k1 := MoveReady(k, k.cur, orig, true);
    ReadyAwaitsNothing(k, k.cur);
    MovePrioTcb(k, k.cur, orig, true);
    MoveReadyWait(k, k.cur, orig, true);
    FreePrioLined(k, k.cur, orig, k1);
    SameLined(k1, k1.(prioCur := orig));
  }

  lemma MutexDelLined(k: K, o: Oid, always: bool)
    requires Inv(k) && Lined(k)
    ensures Lined(MutexDel(k, o, always).k)
  {
    hide CoreInv, ObjInv, CurOk, Lined, SetOwnerPrio, WakeAll, Sched;
    SameLined(k, MutexDel(k, o, always).k);
    match Object(k, o)
    case Mutex(owner, _, orig) =>
      if owner.Some? {
        OwnerLive(k, o);
        SetPrioLined(k, owner.value, orig, true);
      }
      var k1 := if owner.Some? && Get(k, owner.value).prio != orig then SetOwnerPrio(k, owner.value, orig, true) else k;
      var k2 := WakeAll(k1, Waiters(k, o), ObjDeleted(Some(o)));
      WakeAllLined(k1, Waiters(k, o), ObjDeleted(Some(o)));
      SameLined(k2, SetObj(k2, o, Gone));
      SchedLined(SetObj(k2, o, Gone), false);
    case _ =>
  }

  lemma MutexOpsLined(k: K, op: Op)
    requires Inv(k) && Lined(k) && (op.OpMutexPend? || op.OpMutexPost? || op.OpMutexDel?)
    ensures Lined(Step(k, op))
  {
    hide Inv, Lined, MutexPend, MutexPost, MutexDel;
    match op
    case OpMutexPend(o, timeout, nonBlocking) => MutexPendLined(k, o, timeout, nonBlocking);
    case OpMutexPost(o, noSched) => MutexPostLined(k, o, noSched);
    case OpMutexDel(o, always) => MutexDelLined(k, o, always);
  }

  lemma TickLined(k: K)
    requires Inv(k) && Lined(k)
    ensures Lined(TickUpdate(k))
  {
    hide ReadyInv, WaitInv, ObjInv, CurOk, Lined, TickUpdate, ExpireAll, DuePrefix;
    TickUpdateIs(k);
    var n := Add32(k.now, 1);
    var ts := DuePrefix(k.tcb, k.wheel[SpokeOf(n, |k.wheel|)], n);
    ExpireAllLined(k, ts);
    SameLined(ExpireAll(k, ts), ExpireAll(k, ts).(now := n));
  }

  /** Calls that change no list and no TCB. */
  lemma PlainLined(k: K, op: Op)
    requires Lined(k)
    requires op.OpSemSet? || op.OpQFlush? || op.OpFlagConsume? || op.OpRoundRobin? || op.OpLock? || op.OpUnlock?
      || op.OpSched?
    ensures Lined(Step(k, op))
  {
    hide Lined, FlagConsumed;
    SameLined(k, Step(k, op));
  }

  lemma StepLined(k: K, op: Op)
    requires Inv(k) && Lined(k) && WellUsed(k, op) && Harmless(k, op)
    ensures Lined(Step(k, op)) <==> KeepsOrder(k, op)
  {
    hide Inv, Lined, WellUsed, Harmless, Fits, Call;
    if op.OpChangePrio? {
      PrioLined(k, op.t, op.prio, op.self);
      ChangePrioStep(k, op);
    } else if op.OpTaskCreate? || op.OpTaskDel? || op.OpSuspend? || op.OpResume? || op.OpDly? {
      TaskOpsLined(k, op);
    } else if Pends(op) && !op.OpMutexPend? {
      PendOpsLined(k, op);
    } else if op.OpSemPost? || op.OpQPost? || op.OpPendAbort? || op.OpFlagPost? {
      PostsLined(k, op);
    } else if op.OpTaskSemPost? || op.OpTaskQPost? || op.OpTaskPendAbort? || op.OpDlyResume? {
      OwnPostsLined(k, op);
    } else if op.OpMutexPend? || op.OpMutexPost? || op.OpMutexDel? {
      MutexOpsLined(k, op);
    } else {
      RestLined(k, op);
    }
  }

  lemma ChangePrioStep(k: K, op: Op)
    requires op.OpChangePrio?
    ensures Step(k, op) == TaskChangePrio(k, op.t, op.prio, op.self).k
  {
  }

  lemma RestLined(k: K, op: Op)
    requires Inv(k) && Lined(k)
    requires op.OpTick? || op.OpCreate? || op.OpObjDel? || op.OpSemSet? || op.OpQFlush? || op.OpFlagConsume?
      || op.OpRoundRobin? || op.OpLock? || op.OpUnlock? || op.OpSched?
    ensures Lined(Step(k, op))
  {
    hide Inv, Lined, TickUpdate, CreateObj, ObjDel, SemSet, QFlush, FlagConsume, RoundRobin, SchedLock, SchedUnlock, Sched;
    match op {
      case OpTick => TickLined(k);
      case OpCreate(o, v) => CreateObjLined(k, o, v);
      case OpObjDel(o, always) => ObjDelLined(k, o, always);
      case _ => PlainLined(k, op);
    }
  }

  /** The step theorem: sorted lists of flag waiters stay sorted if and only if the call does not give one of them a
      priority that does not fit its place. */
  lemma OrderKeptExactly(k: K, op: Op)
    requires Inv(k) && FlagListsSorted(k) && WellUsed(k, op) && Harmless(k, op)
    ensures FlagListsSorted(Step(k, op)) <==> KeepsOrder(k, op)
  {
    hide Inv, Lined, FlagListsSorted, WellUsed, Harmless, Step, KeepsOrder;
    StepKeeps(k, op);
    LinedIs(k);
    LinedIs(Step(k, op));
    StepLined(k, op);
  }

  ghost predicate SortedThroughout(k: K, ops: seq<Op>)
    decreases |ops|
  {
    FlagListsSorted(k) && (ops == [] || SortedThroughout(Step(k, ops[0]), ops[1..]))
  }

  ghost predicate OrderKept(k: K, ops: seq<Op>)
    decreases |ops|
  {
    ops == [] || (KeepsOrder(k, ops[0]) && OrderKept(Step(k, ops[0]), ops[1..]))
  }

  /** Over every run of guarded calls the pend lists of flag groups are sorted in every state if and only if every change
      of priority of a task in one fits its place. */
  lemma {:induction false} OrderOverRunsExactly(k: K, ops: seq<Op>)
    requires Inv(k) && Proper(k, ops) && FlagListsSorted(k)
    ensures SortedThroughout(k, ops) <==> OrderKept(k, ops)
    decreases |ops|
  {
    hide Inv, WellUsed, Harmless, Step, FlagListsSorted, KeepsOrder;
    if ops != [] {
      OrderKeptExactly(k, ops[0]);
      StepKeeps(k, ops[0]);
      if KeepsOrder(k, ops[0]) {
        OrderOverRunsExactly(Step(k, ops[0]), ops[1..]);
      }
    }
  }
}
