/** What it means for a call to put its caller to sleep, told by places in lists: which list it leaves, behind whom it
    queues, when its time is up, and that nothing else changes but the choice of the next task.
  */
module FallingAsleep {
  import opened TaskLists
  import opened KernelState
  import opened KernelOps
  import opened ListMoves
  import opened ListScans
  import opened CoreKept
  import opened Departures

  /** q' is q with t put in at place i. */
  predicate PutAt(q: seq<Tid>, q': seq<Tid>, t: Tid, i: nat) {
    i <= |q| && q' == q[..i] + [t] + q[i..]
  }

  /** q' is q without t. */
  ghost predicate TakenOff(q: seq<Tid>, q': seq<Tid>, t: Tid) {
    exists i: nat :: PutAt(q', q, t, i)
  }

  /** t queues behind those in front that have priority p or a higher one, and before the next. */
  ghost predicate QueuedByPrio(k: K, q: seq<Tid>, q': seq<Tid>, t: Tid, p: nat) {
    exists i: nat :: PutAt(q, q', t, i) && (forall j: nat :: j < i ==> Get(k, q[j]).prio <= p)
      && (i < |q| ==> Get(k, q[i]).prio > p)
  }

  /** t queues behind those in front that are due sooner, and before the next. */
  ghost predicate QueuedByTime(k: K, q: seq<Tid>, q': seq<Tid>, t: Tid, left: nat) {
    exists i: nat :: PutAt(q, q', t, i) && (forall j: nat :: j < i ==> Sub32(Get(k, q[j]).due, k.now) < left)
      && (i < |q| ==> Sub32(Get(k, q[i]).due, k.now) >= left)
  }

  /** The task is off the ready list of its priority; all other ready lists are the same. */
  ghost predicate LeavesReady(k: K, t: Tid, k': K) {
    var p := Get(k, t).prio;
    && p < |k.rdy| == |k'.rdy| && TakenOff(k.rdy[p], k'.rdy[p], t)
    && forall q: nat :: q < |k.rdy| && q != p ==> k'.rdy[q] == k.rdy[q]
  }

  /** It waits for the objects in the table, in order of priority, and for no other. */
  ghost predicate QueuesFor(k: K, t: Tid, tbl: seq<PendData>, k': K) {
    && k'.wait.Keys == k.wait.Keys
    && forall o: Oid :: o in k.wait ==>
      if Listed(tbl, o) then QueuedByPrio(k, k.wait[o], k'.wait[o], t, Get(k, t).prio) else k'.wait[o] == k.wait[o]
  }

  /** It is in the spoke that its due time hashes to, or in none. */
  ghost predicate EntersWheel(k: K, t: Tid, delayed: bool, due: Tick, k': K) {
    && |k'.wheel| == |k.wheel| > 0
    && forall i: nat :: i < |k.wheel| ==>
      if delayed && i == due % |k.wheel| then QueuedByTime(k, k.wheel[i], k'.wheel[i], t, Sub32(due, k.now))
      else k'.wheel[i] == k.wheel[i]
  }

  /** The running task goes to sleep with the TCB b, and the scheduler runs. */
  ghost predicate Sleeps(k: K, b: Tcb, k': K) {
    var t := k.cur;
    && k'.tcb == k.tcb[t := b]
    && LeavesReady(k, t, k') && QueuesFor(k, t, b.tbl, k') && EntersWheel(k, t, b.state.Live? && b.state.dly, b.due, k')
    && k'.obj == k.obj && k'.now == k.now && k'.lock == k.lock && k'.idle == k.idle
  }

  /** The TCB b of a task that starts to wait: with a timeout it is due that many ticks from now, without one it is not
      in the wheel; nothing else in it changes. */
  function WaitingTcb(k: K, b: Tcb, on: PendOn, tbl: seq<PendData>, timeout: Tick): Tcb
    requires |k.wheel| > 0
  {
    var b1 := b.(pendOn := on, status := StatusOk, tbl := tbl);
    var due := (k.now + timeout) % 0x1_0000_0000;
    if timeout == 0 then b1.(state := Live(false, true, false))
    else b1.(state := Live(false, true, true), due := due, spoke := due % |k.wheel|)
  }

  /** The running task, whose TCB is b, waits for the objects in the table. */
  ghost predicate StartsWaiting(k: K, b: Tcb, on: PendOn, tbl: seq<PendData>, timeout: Tick, k': K) {
    |k.wheel| > 0 && Sleeps(k, WaitingTcb(k, b, on, tbl, timeout), k')
  }

  // ------------------------------------------------------------------------------------------- places

  lemma InsertAt(q: seq<Tid>, t: Tid, ord: Order) returns (i: nat)
    ensures PutAt(q, Insert(q, t, ord), t, i)
    ensures (forall j: nat :: j < i ==> ord.Passes(t, q[j])) && (i < |q| ==> !ord.Passes(t, q[i]))
  {
    i := 0;
    while i < |q| && ord.Passes(t, q[i])
      invariant i <= |q| && forall j: nat :: j < i ==> ord.Passes(t, q[j])
    {
      i := i + 1;
    }
    InsertStops(q, t, ord, i);
  }

  lemma Ahead(x: Tid, q: seq<Tid>, q': seq<Tid>, t: Tid, i: nat)
    requires PutAt(q, q', t, i)
    ensures PutAt([x] + q, [x] + q', t, i + 1)
  {
    assert ([x] + q)[..i + 1] == [x] + q[..i] && ([x] + q)[i + 1..] == q[i..];
  }

  lemma {:induction false} DropAt(q: seq<Tid>, t: Tid)
    requires Count(q, t) > 0
    ensures TakenOff(q, Drop(q, t), t)
  {
    if q[0] == t {
      assert PutAt(q[1..], q, t, 0);
    } else {
      var r := Drop(q[1..], t);
      DropAt(q[1..], t);
      var i: nat :| PutAt(r, q[1..], t, i);
      Ahead(q[0], r, q[1..], t, i);
      assert q == [q[0]] + q[1..];
    }
  }

  lemma PrioKeys(tcb: map<Tid, Tcb>, k: K, t: Tid, x: Tid)
    requires t in tcb && tcb == k.tcb[t := tcb[t]] && tcb[t].prio == Get(k, t).prio
    ensures PrioOrder(tcb).Passes(t, x) <==> Get(k, x).prio <= Get(k, t).prio
  {
  }

  lemma RemainKeys(tcb: map<Tid, Tcb>, k: K, t: Tid, x: Tid)
    requires t in tcb && tcb == k.tcb[t := tcb[t]] && x != t && x in k.tcb
    ensures RemainOrder(tcb, k.now).Passes(t, x) <==> Sub32(Get(k, x).due, k.now) < Sub32(tcb[t].due, k.now)
  {
  }

  lemma InsertByPrio(k: K, b: Tcb, q: seq<Tid>)
    requires b.prio == Get(k, k.cur).prio
    ensures QueuedByPrio(k, q, Insert(q, k.cur, PrioOrder(k.tcb[k.cur := b])), k.cur, b.prio)
  {
    var tcb := k.tcb[k.cur := b];
    var i := InsertAt(q, k.cur, PrioOrder(tcb));
    forall j: nat | j < |q| ensures PrioOrder(tcb).Passes(k.cur, q[j]) <==> Get(k, q[j]).prio <= b.prio {
      PrioKeys(tcb, k, k.cur, q[j]);
    }
  }

  lemma InsertByTime(k: K, b: Tcb, i: nat)
    requires WheelInv(k) && i < |k.wheel| && Get(k, k.cur).spoke == -1
    ensures var q := k.wheel[i];
      QueuedByTime(k, q, Insert(q, k.cur, RemainOrder(k.tcb[k.cur := b], k.now)), k.cur, Sub32(b.due, k.now))
  {
    var tcb, q := k.tcb[k.cur := b], k.wheel[i];
    var n := InsertAt(q, k.cur, RemainOrder(tcb, k.now));
    forall j: nat | j < |q|
      ensures RemainOrder(tcb, k.now).Passes(k.cur, q[j]) <==> Sub32(Get(k, q[j]).due, k.now) < Sub32(b.due, k.now)
    {
      CountPositive(q, j);
      assert Count(q, q[j]) == if Get(k, q[j]).spoke == i then 1 else 0;
      RemainKeys(tcb, k, k.cur, q[j]);
    }
  }

  // ---------------------------------------------------------------------------------- going to sleep

  lemma SleepShape(k: K, b: Tcb)
    requires b.prio < |k.rdy|
    ensures var k' := Sleep(k, k.cur, b); var tcb := k.tcb[k.cur := b];
      && k' == k.(tcb := tcb, rdy := k.rdy[b.prio := Drop(k.rdy[b.prio], k.cur)], prios := k'.prios,
           wheel := WheelAdd(k.wheel, b.spoke, k.cur, RemainOrder(tcb, k.now)),
           wait := LinkAll(k.wait, b.tbl, k.cur, PrioOrder(tcb)))
  {
    hide Drop, WheelAdd, LinkAll;
  }

  /** The routine that puts the running task to sleep does this. */
  lemma SleepSleeps(k: K, b: Tcb)
    requires Inv(k) && b.prio == Get(k, k.cur).prio && Distinct(b.tbl) && b.state.Live?
    requires if b.state.dly then b.spoke == b.due % |k.wheel| else b.spoke == -1
    ensures Sleeps(k, b, Sched(Sleep(k, k.cur, b)))
  {
    hide ReadyInv, WheelInv, WaitInv, TcbInv, ObjInv, Sched, Insert, Drop, QueuedByPrio, QueuedByTime, TakenOff, LinkAll;
    var tcb := k.tcb[k.cur := b];
    var k' := Sleep(k, k.cur, b);
    CurFacts(k);
    SleepShape(k, b);
    SchedKeepsTcbs(k', false);
    DropAt(k.rdy[b.prio], k.cur);
    LinkAllAt(k.wait, b.tbl, k.cur, PrioOrder(tcb), 0);
    forall o: Oid | o in k.wait
      ensures if Listed(b.tbl, o) then QueuedByPrio(k, k.wait[o], k'.wait[o], k.cur, b.prio) else k'.wait[o] == k.wait[o]
    {
      LinkAllAt(k.wait, b.tbl, k.cur, PrioOrder(tcb), o);
      InsertByPrio(k, b, k.wait[o]);
    }
    if b.state.dly {
      InsertByTime(k, b, b.due % |k.wheel|);
    }
  }

  /** The running task is ready, once, and in no spoke. */
  lemma CurFacts(k: K)
    requires Inv(k)
    ensures k.cur in k.tcb && Get(k, k.cur).state == RDY && Get(k, k.cur).spoke == -1 && |k.wheel| > 0
    ensures Get(k, k.cur).prio < |k.rdy| && Count(k.rdy[Get(k, k.cur).prio], k.cur) == 1
    ensures Get(k, k.cur).tbl == [] && Get(k, k.cur).pendOn == OnNothing && Get(k, k.cur).suspendCtr == 0
  {
    hide WaitInv, ObjInv;
    TcbOkOf(k, k.cur);
  }

  /** The TCB of a blocked task is the one described. */
  lemma BlockedIs(k: K, b: Tcb, on: PendOn, tbl: seq<PendData>, timeout: Tick)
    requires |k.wheel| > 0
    ensures BlockedTcb(b, on, tbl, timeout, k.now, |k.wheel|) == WaitingTcb(k, b, on, tbl, timeout)
  {
  }

  /** A call that finds nothing and may block does. */
  lemma BlockWaits(k: K, on: PendOn, tbl: seq<PendData>, timeout: Tick)
    requires Inv(k) && Distinct(tbl)
    ensures StartsWaiting(k, Get(k, k.cur), on, tbl, timeout, Sched(Block(k, k.cur, on, tbl, timeout)))
  {
    hide Inv, Sleep, Sched, Sleeps, BlockedTcb;
    CurFacts(k);
    BlockedIs(k, Get(k, k.cur), on, tbl, timeout);
    SleepSleeps(k, WaitingTcb(k, Get(k, k.cur), on, tbl, timeout));
  }

  // ----------------------------------------------------------------------------------- leaving lists

  /** t is taken off the list if it is on it. */
  ghost predicate Without(q: seq<Tid>, q': seq<Tid>, t: Tid) {
    if Count(q, t) == 0 then q' == q else TakenOff(q, q', t)
  }

  /** t is off every list; nothing else about the lists changes. */
  ghost predicate OffEveryList(k: K, t: Tid, k': K) {
    && |k'.rdy| == |k.rdy| && (forall p: nat :: p < |k.rdy| ==> Without(k.rdy[p], k'.rdy[p], t))
    && |k'.wheel| == |k.wheel| && (forall i: nat :: i < |k.wheel| ==> Without(k.wheel[i], k'.wheel[i], t))
    && k'.wait.Keys == k.wait.Keys && forall o: Oid :: o in k.wait ==> Without(k.wait[o], k'.wait[o], t)
  }

  lemma DropWithout(q: seq<Tid>, t: Tid)
    ensures Count(q, t) == 0 ==> Drop(q, t) == q
    ensures Without(q, Drop(q, t), t)
  {
    if Count(q, t) > 0 {
      DropAt(q, t);
    } else {
      DropNothing(q, t);
    }
  }

  lemma {:induction false} DropNothing(q: seq<Tid>, t: Tid)
    requires Count(q, t) == 0
    ensures Drop(q, t) == q
  {
    if q != [] {
      DropNothing(q[1..], t);
    }
  }

  /** Where t is not. */
  lemma NotThere(k: K, t: Tid)
    requires Inv(k) && t in k.tcb
    ensures forall p: nat :: p < |k.rdy| && RdyAt(Get(k, t)) != p ==> Count(k.rdy[p], t) == 0
    ensures forall i: nat :: i < |k.wheel| && Get(k, t).spoke != i ==> Count(k.wheel[i], t) == 0
    ensures forall o: Oid :: o in k.wait && !Listed(Get(k, t).tbl, o) ==> Count(k.wait[o], t) == 0
    ensures TcbOk(Get(k, t), |k.rdy|, |k.wheel|, k.now)
  {
    hide Sorted, ObjInv, TcbOk, RdyAt;
    TcbOkOf(k, t);
  }
}
