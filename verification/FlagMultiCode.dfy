/** os_flag.c and os_pend_multi.c as they are coded: the walk over the waiters of an event flag group, and the passes
    over the table of a pend on several objects.
  */
module FlagMultiCode {
  import opened TaskLists
  import opened KernelState
  import opened KernelOps
  import opened ListMoves
  import opened CoreKept
  import opened ObjKept
  import opened WakeMany
  import opened Services
  import opened ServicesKept
  import opened FlagsMultiKept
  import opened Departures
  import opened Suspension
  import opened SingleFlags
  import opened KernelCode
  import opened ObjectCode

  /** What OS_FlagTaskRdy needs to know of a waiter. */
  ghost predicate Wakeable(k: K, t: Tid) {
    t in k.tcb && var b := k.tcb[t];
      && b.state.Live? && b.state.pend && -1 <= b.spoke < |k.wheel| && b.prio < |k.rdy|
      && (b.state.dly || b.spoke == -1) && b.pendOn == OnFlag
      && forall i: nat :: i < |b.tbl| ==> b.tbl[i].obj in k.wait
  }

  /** OS_FlagTaskRdy. */
  method FlagTaskRdy(s: Kernel, t: Tid, flagsRdy: Flags)
    requires Wakeable(s.State(), t)
    modifies s`tcb, s`wheel, s`wait, s`rdy, s`prios
    ensures s.State() == FlagReady(old(s.State()), t, flagsRdy)
  {
    hide UnlinkAll, WheelDrop, FlagReady;
    ghost var k, b := s.State(), s.tcb[t];
    s.tcb := s.tcb[t := s.tcb[t].(flagsRdy := flagsRdy, status := StatusOk, pendOn := OnNothing, got := s.tcb[t].tbl)];
    if s.tcb[t].state == PEND || s.tcb[t].state == PEND_TIMEOUT {
      s.TaskRdy(t);
      s.tcb := s.tcb[t := s.tcb[t].(state := RDY)];
    } else {
      s.tcb := s.tcb[t := s.tcb[t].(state := SUSPENDED)];
    }
    s.PendListRemove(t);
    FlagReadyIs(k, t, flagsRdy);
    assert s.tcb == k.tcb[t := FlagTcb(b, flagsRdy)];
  }

  /** The TCB that OS_FlagTaskRdy leaves. */
  function FlagTcb(b: Tcb, flagsRdy: Flags): Tcb
    requires b.state.Live?
  {
    b.(flagsRdy := flagsRdy, status := StatusOk, pendOn := OnNothing, got := b.tbl, tbl := [],
       state := Live(b.state.susp, false, false),
       spoke := if b.state.susp then b.spoke else -1, due := if b.state.susp || b.spoke < 0 then b.due else 0)
  }

  lemma FlagReadyIs(k: K, t: Tid, flagsRdy: Flags)
    requires Wakeable(k, t)
    ensures var b := k.tcb[t];
      FlagReady(k, t, flagsRdy) == k.(tcb := k.tcb[t := FlagTcb(b, flagsRdy)], wait := UnlinkAll(k.wait, b.tbl, t),
        wheel := if b.state.susp then k.wheel else WheelDrop(k.wheel, b.spoke, t),
        rdy := if b.state.susp then k.rdy else k.rdy[b.prio := Enqueue(k.rdy[b.prio], t, b.prio == k.prioCur)],
        prios := if b.state.susp then k.prios else k.prios + {b.prio})
  {
    hide UnlinkAll, Enqueue, Wake;
    var b := k.tcb[t];
    if b.state == PEND_TIMEOUT_SUSPENDED {
      assert Put(Unlink(k, t), t, FlagTcb(b, flagsRdy)).tcb == k.tcb[t := FlagTcb(b, flagsRdy)];
    } else {
      WakeForm(k, t, Flagged(flagsRdy));
    }
  }

  /** The waiters that the walk has not reached: each once, and still waiting. */
  ghost predicate WaitersAhead(k: K, ts: seq<Tid>) {
    forall x: Tid :: Count(ts, x) > 0 ==> Count(ts, x) == 1 && Wakeable(k, x)
  }

  lemma NextAhead(k: K, ts: seq<Tid>, flags: Flags)
    requires WaitersAhead(k, ts) && ts != []
    ensures Wakeable(k, ts[0]) && WaitersAhead(FlagStep(k, ts[0], flags), ts[1..])
  {
    hide Wakeable, FlagStep;
    assert Count(ts, ts[0]) > 0;
    forall x: Tid | Count(ts[1..], x) > 0
      ensures Count(ts[1..], x) == 1 && Wakeable(FlagStep(k, ts[0], flags), x)
    {
      assert Count(ts, x) > 0 && Count(ts, ts[0]) == 1;
      StaysWakeable(k, ts[0], flags, x);
    }
  }

  lemma StaysWakeable(k: K, t: Tid, flags: Flags, x: Tid)
    requires Wakeable(k, t) && Wakeable(k, x) && x != t
    ensures Wakeable(FlagStep(k, t, flags), x)
  {
    hide FlagMet, FlagBits, FlagReady, UnlinkAll, Enqueue, WheelDrop;
    var b := k.tcb[t];
    FlagReadyIs(k, t, FlagBits(b.flagsMode, flags, b.flagsPend));
    UnlinkAllKeys(k.wait, b.tbl, t);
    WheelDropSize(k.wheel, b.spoke, t);
  }

  lemma AllAhead(k: K, o: Oid)
    requires ListsInv(k) && Object(k, o).FlagGrp?
    ensures WaitersAhead(k, Waiters(k, o))
  {
    hide ReadyInv, WheelInv, WaitInv, ObjInv;
    forall x: Tid | Count(Waiters(k, o), x) > 0 ensures Count(Waiters(k, o), x) == 1 && Wakeable(k, x) {
      WaiterPends(k, x, o);
      InList(k, o, x);
      OnItsLists(k, x);
      TcbOkOf(k, x);
    }
  }

  /** The loop of OS_FlagPost: every waiter is looked at once, in list order. */
  method FlagPostWalk(s: Kernel, ts: seq<Tid>, flags: Flags)
    requires WaitersAhead(s.State(), ts)
    modifies s`tcb, s`wheel, s`wait, s`rdy, s`prios
    ensures s.State() == FlagReadyAll(old(s.State()), ts, flags)
  {
    hide FlagReady, Wakeable, WaitersAhead;
    ghost var k := s.State();
    var i := 0;
    assert ts[0..] == ts;
    while i < |ts|
      invariant i <= |ts| && WaitersAhead(s.State(), ts[i..])
      invariant FlagReadyAll(s.State(), ts[i..], flags) == FlagReadyAll(k, ts, flags)
    {
      var t := ts[i];
      assert ts[i..][0] == t && ts[i..][1..] == ts[i + 1..];
      NextAhead(s.State(), ts[i..], flags);
      FlagPostOne(s, t, flags);
      i := i + 1;
    }
  }

  /** The switch over the mode, in OSFlagPend and in OS_FlagPost: whether the condition holds, flag by flag, and which
      of the wanted flags are as the mode asks. */
  method FlagsReady(mode: FlagMode, flags: Flags, want: Flags) returns (met: bool, flagsRdy: Flags)
    ensures met <==> Fulfilled(mode, flags, want)
    ensures forall m: Flags :: OneBit(m) ==> (Has(flagsRdy, m) <==> Has(want, m) && AsAsked(mode, flags, m))
  {
    match mode {
      case SetAll =>
        flagsRdy := BitAnd(flags, want);
        met := flagsRdy == want;
      case SetAny =>
        flagsRdy := BitAnd(flags, want);
        met := flagsRdy != 0;
      case ClrAll =>
        flagsRdy := BitAnd(BitNot(flags), want);
        met := flagsRdy == want;
      case ClrAny =>
        flagsRdy := BitAnd(BitNot(flags), want);
        met := flagsRdy != 0;
    }
    hide BitAnd, BitNot, Has, OneBit, Fulfilled, AsAsked;
    MetMeans(mode, flags, want);
    forall m: Flags | OneBit(m) ensures Has(flagsRdy, m) <==> Has(want, m) && AsAsked(mode, flags, m) {
      BitsMean(mode, flags, want, m);
    }
  }

  /** That fixes the result. */
  lemma ReadyIs(mode: FlagMode, flags: Flags, want: Flags, met: bool, flagsRdy: Flags)
    requires met <==> Fulfilled(mode, flags, want)
    requires forall m: Flags :: OneBit(m) ==> (Has(flagsRdy, m) <==> Has(want, m) && AsAsked(mode, flags, m))
    ensures met == FlagMet(mode, flags, want) && flagsRdy == FlagBits(mode, flags, want)
  {
    hide FlagMet, FlagBits, Has, OneBit, Fulfilled, AsAsked;
    MetMeans(mode, flags, want);
    forall m: Flags | OneBit(m) ensures Has(flagsRdy, m) <==> Has(FlagBits(mode, flags, want), m) {
      BitsMean(mode, flags, want, m);
    }
    SameFlagsSame(flagsRdy, FlagBits(mode, flags, want));
  }

  /** The switch over the mode that consumes the flags that were found: they are turned over, no other is. */
  method ConsumeFlags(mode: FlagMode, flags: Flags, flagsRdy: Flags) returns (r: Flags)
    ensures forall m: Flags :: OneBit(m) ==> (Has(r, m) <==> if Has(flagsRdy, m) then !Sets(mode) else Has(flags, m))
    ensures r == FlagConsumed(mode, flags, flagsRdy)
  {
    if mode == SetAll || mode == SetAny {
      r := BitAnd(flags, BitNot(flagsRdy));
    } else {
      r := BitOr(flags, flagsRdy);
    }
    hide BitAnd, BitNot, BitOr, Has, OneBit, Sets;
    forall m: Flags | OneBit(m) ensures Has(r, m) <==> if Has(flagsRdy, m) then !Sets(mode) else Has(flags, m) {
      ConsumedMeans(mode, flags, flagsRdy, m);
    }
  }

  method FlagPostOne(s: Kernel, t: Tid, flags: Flags)
    requires Wakeable(s.State(), t)
    modifies s`tcb, s`wheel, s`wait, s`rdy, s`prios
    ensures s.State() == FlagStep(old(s.State()), t, flags)
  {
    hide FlagReady, FlagMet, FlagBits;
    var met, flagsRdy := FlagsReady(s.tcb[t].flagsMode, flags, s.tcb[t].flagsPend);
    ReadyIs(s.tcb[t].flagsMode, flags, s.tcb[t].flagsPend, met, flagsRdy);
    if met {
      FlagTaskRdy(s, t, flagsRdy);
    }
  }

  /** The switch over the option at the head of OS_FlagPost: the named flags are set or cleared, no other is touched. */
  method ChangeFlags(flags: Flags, bits: Flags, set': bool) returns (r: Flags)
    ensures forall m: Flags :: OneBit(m) ==> (Has(r, m) <==> if Has(bits, m) then set' else Has(flags, m))
    ensures r == PostedFlags(flags, bits, set')
  {
    if set' {
      r := BitOr(flags, bits);
    } else {
      r := BitAnd(flags, BitNot(bits));
    }
    hide BitAnd, BitNot, BitOr, Has, OneBit;
    forall m: Flags | OneBit(m) ensures Has(r, m) <==> if Has(bits, m) then set' else Has(flags, m) {
      PostedMeans(flags, bits, set', m);
    }
  }

  /** OS_FlagPost. */
  method PostFlags(s: Kernel, o: Oid, bits: Flags, set': bool, noSched: bool) returns (err: Err)
    requires Inv(s.State())
    modifies s
    ensures R(s.State(), err) == FlagPost(old(s.State()), o, bits, set', noSched)
  {
    hide CoreInv, ObjInv, FlagReadyAll, WakesClean, Sched, PostedFlags;
    if o !in s.obj || !s.obj[o].FlagGrp? {
      return ErrObjType;
    }
    ghost var k := s.State();
    SameKeys(k);
    var flags := ChangeFlags(s.obj[o].flags, bits, set');
    s.obj := s.obj[o := FlagGrp(flags)];
    ghost var k1 := s.State();
    if s.wait[o] == [] {
      return ErrNone;
    }
    SetFlagsInv(k, o, flags);
    AllAhead(k1, o);
    SoundPrios(k1);
    WalkPrios(k1, s.wait[o], flags);
    FlagPostWalk(s, s.wait[o], flags);
    Reschedule(s, noSched);
    return ErrNone;
  }

  /** The walk leaves the ready lists fit for the scheduler, whatever tasks it wakes. */
  lemma {:induction false} WalkPrios(k: K, ts: seq<Tid>, flags: Flags)
    requires PriosOk(k) && WaitersAhead(k, ts)
    ensures PriosOk(FlagReadyAll(k, ts, flags))
    decreases |ts|
  {
    hide PriosOk, WaitersAhead, Wakeable, FlagReady, FlagMet, FlagBits;
    if ts != [] {
      NextAhead(k, ts, flags);
      StepPrios(k, ts[0], flags);
      WalkPrios(FlagStep(k, ts[0], flags), ts[1..], flags);
    }
  }

  lemma StepPrios(k: K, t: Tid, flags: Flags)
    requires PriosOk(k) && Wakeable(k, t)
    ensures PriosOk(FlagStep(k, t, flags))
  {
    hide FlagReady, FlagMet, FlagBits, UnlinkAll, WheelDrop;
    var b := k.tcb[t];
    FlagReadyIs(k, t, FlagBits(b.flagsMode, flags, b.flagsPend));
    EnqueueNonEmpty(k.rdy[b.prio], t, b.prio == k.prioCur);
  }

  // -------------------------------------------------------------------------------------- multi-pend

  /** OS_PendMultiGetRdy: one pass over the table. */
  method PendMultiGetRdy(s: Kernel, tbl: seq<PendData>) returns (got: seq<PendData>, nbrObjRdy: nat)
    requires forall i: nat :: i < |tbl| ==> tbl[i].obj in s.obj
    modifies s`obj
    ensures var (obj, taken, n) := TakeReady(old(s.obj), tbl); s.obj == obj && got == taken && nbrObjRdy == n
  {
    got, nbrObjRdy := [], 0;
    var i := 0;
    assert tbl[0..] == tbl && [] + TakeReady(s.obj, tbl).1 == TakeReady(s.obj, tbl).1;
    while i < |tbl|
      invariant i <= |tbl| && s.obj.Keys == old(s.obj).Keys
      invariant TakeReady(s.obj, tbl[i..]).0 == TakeReady(old(s.obj), tbl).0
      invariant got + TakeReady(s.obj, tbl[i..]).1 == TakeReady(old(s.obj), tbl).1
      invariant nbrObjRdy + TakeReady(s.obj, tbl[i..]).2 == TakeReady(old(s.obj), tbl).2
    {
      assert tbl[i..][1..] == tbl[i + 1..];
      var o := tbl[i].obj;
      var d := PendData(o, false, NO_MSG);
      if s.obj[o].Queue? && s.obj[o].msgs != [] {
        d := d.(rdy := true, msg := s.obj[o].msgs[0]);
        s.obj := s.obj[o := s.obj[o].(msgs := s.obj[o].msgs[1..])];
        nbrObjRdy := nbrObjRdy + 1;
      } else if s.obj[o].Sem? && s.obj[o].ctr > 0 {
        d := d.(rdy := true);
        s.obj := s.obj[o := s.obj[o].(ctr := s.obj[o].ctr - 1)];
        nbrObjRdy := nbrObjRdy + 1;
      }
      ghost var rest := TakeReady(s.obj, tbl[i + 1..]).1;
      assert (got + [d]) + rest == got + ([d] + rest);
      got := got + [d];
      i := i + 1;
    }
  }

  /** OS_PendMultiValidate. */
  method PendMultiValidate(s: Kernel, tbl: seq<PendData>) returns (ok: bool)
    ensures ok == MultiValid(s.State(), tbl)
  {
    var i := 0;
    assert tbl[0..] == tbl;
    while i < |tbl|
      invariant i <= |tbl| && MultiValid(s.State(), tbl[i..]) == MultiValid(s.State(), tbl)
    {
      assert tbl[i..][1..] == tbl[i + 1..];
      var o := tbl[i].obj;
      if o !in s.obj || (!s.obj[o].Sem? && !s.obj[o].Queue?) {
        return false;
      }
      i := i + 1;
    }
    return true;
  }

  lemma {:induction false} ValidInObj(k: K, tbl: seq<PendData>)
    requires MultiValid(k, tbl)
    ensures forall i: nat :: i < |tbl| ==> tbl[i].obj in k.obj
  {
    if tbl != [] {
      ValidInObj(k, tbl[1..]);
    }
  }

  /** OSPendMulti, also with an object that has two entries in the table. */
  method PendMulti(s: Kernel, tbl: seq<PendData>, timeout: Tick, nonBlocking: bool) returns (err: Err)
    requires Inv(s.State()) && s.cur != s.idle
    modifies s
    ensures R(s.State(), err) == MultiPend(old(s.State()), tbl, timeout, nonBlocking)
  {
    hide CoreInv, ObjInv, BlockCur, TakeReady, MultiValid;
    ghost var k := s.State();
    if tbl == [] {
      return ErrPtrInvalid;
    }
    var ok := PendMultiValidate(s, tbl);
    if !ok {
      return ErrObjType;
    }
    ValidInObj(k, tbl);
    var got, nbrObjRdy := PendMultiGetRdy(s, tbl);
    if nbrObjRdy > 0 {
      s.tcb := s.tcb[s.cur := s.tcb[s.cur].(got := got)];
      return ErrNone;
    }
    NothingReady(k, tbl);
    MultiTableOk(k, tbl);
    err := BlockCaller(s, OnMulti, got, timeout, nonBlocking);
  }

  /** OSFlagPend up to the point where the caller blocks. */
  method PendFlags(s: Kernel, o: Oid, want: Flags, mode: FlagMode, consume: bool, timeout: Tick, nonBlocking: bool)
    returns (err: Err)
    requires Inv(s.State()) && s.cur != s.idle
    modifies s
    ensures R(s.State(), err) == FlagPend(old(s.State()), o, want, mode, consume, timeout, nonBlocking)
  {
    hide CoreInv, ObjInv, BlockCur, FlagMet, FlagBits, FlagConsumed;
    if o !in s.obj || !s.obj[o].FlagGrp? {
      return ErrObjType;
    }
    var flags := s.obj[o].flags;
    var met, flagsRdy := FlagsReady(mode, flags, want);
    ReadyIs(mode, flags, want, met, flagsRdy);
    if met {
      s.tcb := s.tcb[s.cur := s.tcb[s.cur].(flagsRdy := flagsRdy)];
      if consume {
        flags := ConsumeFlags(mode, flags, flagsRdy);
        s.obj := s.obj[o := FlagGrp(flags)];
      }
      return ErrNone;
    }
    if nonBlocking {
      return ErrWouldBlock;
    }
    if s.lock > 0 {
      return ErrSchedLocked;
    }
    CurFieldInv(s.State(), want, mode, 0);
    s.tcb := s.tcb[s.cur := s.tcb[s.cur].(flagsPend := want, flagsMode := mode, flagsRdy := 0)];
    EntryOk(s.State(), OnFlag, o);
    err := BlockCaller(s, OnFlag, Entry(o), timeout, false);
  }
}
