/** Every routine of `KernelOps` keeps the lists and the task control blocks in agreement. */
module CoreKept {
  import opened TaskLists
  import opened KernelState
  import opened KernelOps
  import opened ListMoves

  /** What the services rely on: the step changes one task, and no one else's list entries. */
  ghost predicate Kept(k: K, t: Tid, k': K) {
    && CoreInv(k') && Touches(k, t, k')
    && k'.wait.Keys == k.wait.Keys && |k'.rdy| == |k.rdy| && |k'.wheel| == |k.wheel|
    && k'.cur == k.cur && k'.idle == k.idle && k'.lock == k.lock
  }

  lemma TcbOkOf(k: K, t: Tid)
    requires CoreInv(k) && t in k.tcb
    ensures TcbOk(k.tcb[t], |k.rdy|, |k.wheel|, k.now)
  {
  }

  /** The lists after waking, and the TCB. */
  lemma WakeShape(k: K, t: Tid, ev: Event)
    requires TcbInv(k) && Ends(ev, Get(k, t).state)
    ensures var k' := Wake(k, t, ev); var b := k.tcb[t]; var b' := Get(k', t);
      && Touches(k, t, k')
      && k'.wait == UnlinkAll(k.wait, b.tbl, t)
      && k'.wheel == (if b.spoke >= 0 then k.wheel[b.spoke := Drop(k.wheel[b.spoke], t)] else k.wheel)
      && b' == Finish(b, ev)
      && (if b.state.susp then k'.rdy == k.rdy && k'.prios == k.prios else
        && k'.rdy == k.rdy[b.prio := Enqueue(k.rdy[b.prio], t, b.prio == k.prioCur)]
        && k'.prios == k.prios + {b.prio})
      && k'.cur == k.cur && k'.idle == k.idle && k'.lock == k.lock && k'.prioCur == k.prioCur
  {
    var b := Get(k, t);
    assert TcbOk(b, |k.rdy|, |k.wheel|, k.now);
    var k1 := k.(tcb := k.tcb[t := Finish(b, ev)], wait := UnlinkAll(k.wait, b.tbl, t), wheel := WheelDrop(k.wheel, b.spoke, t));
    assert Wake(k, t, ev) == if b.state.susp then k1 else RdyPut(k1, t, b.prio == k.prioCur);
  }

  lemma WakeKept(k: K, t: Tid, ev: Event)
    requires CoreInv(k) && Ends(ev, Get(k, t).state)
    ensures Kept(k, t, Wake(k, t, ev))
  {
    hide ReadyInv, WheelInv, WaitInv, TcbInv;
    var k' := Wake(k, t, ev);
    var b := k.tcb[t];
    WakeShape(k, t, ev);
    TcbOkOf(k, t);
    UnlinkAllAt(k.wait, b.tbl, t, 0);
    if b.state.susp {
      ReadyStays(k, t, k');
    } else {
      ReadyEnters(k, t, k', b.prio, b.prio == k.prioCur);
    }
    if b.spoke >= 0 {
      WheelLeaves(k, t, k', b.spoke);
    } else {
      WheelStays(k, t, k');
    }
    WaitLeaves(k, t, k');
    TcbStays(k, t, k');
  }

  /** A ready task may go to sleep with a TCB that is sound and not ready. */
  ghost predicate CanSleep(k: K, t: Tid, b: Tcb) {
    && t in k.tcb && k.tcb[t].state == RDY
    && b.state.Live? && b.state != RDY && b.prio == k.tcb[t].prio
    && TcbOk(b, |k.rdy|, |k.wheel|, k.now) && KindsOf(k, b)
  }

  lemma SleepKept(k: K, t: Tid, b: Tcb)
    requires CoreInv(k) && CanSleep(k, t, b)
    ensures Kept(k, t, Sleep(k, t, b)) && Get(Sleep(k, t, b), t) == b
  {
    hide ReadyInv, WheelInv, WaitInv, TcbInv;
    var k' := Sleep(k, t, b);
    var tcb := k.tcb[t := b];
    TcbOkOf(k, t);
    assert k'.tcb == tcb;
    LinkAllAt(k.wait, b.tbl, t, PrioOrder(tcb), 0);
    ReadyLeaves(k, t, k', b.prio);
    if b.spoke >= 0 {
      WheelEnters(k, t, k', b.spoke);
    } else {
      WheelStays(k, t, k');
    }
    WaitEnters(k, t, k');
    TcbStays(k, t, k');
  }

  /** A step that changes neither lists nor any field the lists depend on. */
  lemma PutKept(k: K, t: Tid, b: Tcb)
    requires CoreInv(k) && t in k.tcb && TcbOk(b, |k.rdy|, |k.wheel|, k.now)
    requires var a := k.tcb[t];
      RdyAt(b) == RdyAt(a) && b.spoke == a.spoke && (a.spoke == -1 || b.due == a.due) && b.tbl == a.tbl
    requires b.tbl == [] || (b.prio == k.tcb[t].prio && b.pendOn == k.tcb[t].pendOn)
    ensures Kept(k, t, Put(k, t, b))
  {
    hide ReadyInv, WheelInv, WaitInv, TcbInv;
    var k' := Put(k, t, b);
    ReadyStays(k, t, k');
    WheelStays(k, t, k');
    WaitStays(k, t, k');
    TcbStays(k, t, k');
  }

  lemma RdyRemoveTcb(k: K, t: Tid)
    ensures RdyRemove(k, t).tcb == k.tcb
  {
  }

  /** A ready task leaves the ready list for a state in which it is on no list. */
  lemma RdyRemoveKept(k: K, t: Tid, b: Tcb)
    requires CoreInv(k) && t in k.tcb && k.tcb[t].state == RDY
    requires b.state != RDY && b.spoke == -1 && b.tbl == [] && TcbOk(b, |k.rdy|, |k.wheel|, k.now)
    ensures Kept(k, t, Put(RdyRemove(k, t), t, b))
  {
    hide ReadyInv, WheelInv, WaitInv, TcbInv;
    var k' := Put(RdyRemove(k, t), t, b);
    TcbOkOf(k, t);
    ReadyLeaves(k, t, k', k.tcb[t].prio);
    WheelStays(k, t, k');
    WaitStays(k, t, k');
    TcbStays(k, t, k');
  }

  /** A task on no list becomes ready. */
  lemma RdyPutKept(k: K, t: Tid, b: Tcb, atTail: bool)
    requires CoreInv(k) && t in k.tcb
    requires k.tcb[t].state != RDY && k.tcb[t].spoke == -1 && k.tcb[t].tbl == []
    requires b.state == RDY && b.spoke == -1 && b.tbl == [] && TcbOk(b, |k.rdy|, |k.wheel|, k.now)
    ensures Kept(k, t, RdyPut(Put(k, t, b), t, atTail))
  {
    hide ReadyInv, WheelInv, WaitInv, TcbInv;
    var k' := RdyPut(Put(k, t, b), t, atTail);
    ReadyEnters(k, t, k', b.prio, atTail);
    WheelStays(k, t, k');
    WaitStays(k, t, k');
    TcbStays(k, t, k');
  }

  lemma KeptTwice(k: K, t: Tid, k1: K, k2: K)
    requires Kept(k, t, k1) && Kept(k1, t, k2)
    ensures Kept(k, t, k2)
  {
    assert k2.tcb == k.tcb[t := Get(k1, t)][t := Get(k2, t)];
  }

  /** The task between its two ready lists, as if suspended for a moment. */
  function Moving(k: K, t: Tid): K {
    Put(RdyRemove(k, t), t, Get(k, t).(state := SUSPENDED, suspendCtr := 1))
  }

  lemma MoveReadyInTwo(k: K, t: Tid, p: nat, atTail: bool)
    requires t in k.tcb
    ensures MoveReady(k, t, p, atTail) == RdyPut(Put(Moving(k, t), t, k.tcb[t].(prio := p)), t, atTail)
  {
    var b := k.tcb[t].(prio := p);
    assert Put(Moving(k, t), t, b).tcb == k.tcb[t := b];
    assert Put(Moving(k, t), t, b) == Put(RdyRemove(k, t), t, b);
  }

  lemma MoveReadyKept(k: K, t: Tid, p: nat, atTail: bool)
    requires CoreInv(k) && t in k.tcb && k.tcb[t].state == RDY && p < |k.rdy|
    ensures Kept(k, t, MoveReady(k, t, p, atTail))
  {
    hide ReadyInv, WheelInv, WaitInv, TcbInv;
    var b := k.tcb[t];
    TcbOkOf(k, t);
    RdyRemoveKept(k, t, b.(state := SUSPENDED, suspendCtr := 1));
    RdyPutKept(Moving(k, t), t, b.(prio := p), atTail);
    MoveReadyInTwo(k, t, p, atTail);
    KeptTwice(k, t, Moving(k, t), MoveReady(k, t, p, atTail));
  }

  lemma MovePendingKept(k: K, t: Tid, p: nat)
    requires CoreInv(k) && t in k.tcb && k.tcb[t].state.Live? && k.tcb[t].state != RDY && p < |k.rdy|
    ensures Kept(k, t, MovePending(k, t, p))
  {
    hide ReadyInv, WheelInv, WaitInv, TcbInv;
    var k' := MovePending(k, t, p);
    TcbOkOf(k, t);
    ResortAllAt(k.wait, k.tcb[t].tbl, t, PrioOrder(k'.tcb), 0);
    ReadyStays(k, t, k');
    WheelStays(k, t, k');
    WaitResorts(k, t, k');
    TcbStays(k, t, k');
  }
}
