/** What a new priority does to the lists, told by places: a ready task goes to the tail, or to the head, of the ready
    list of its new priority; a task that waits for objects queues again in each pend list.
  */
module Repricing {
  import opened TaskLists
  import opened KernelState
  import opened KernelOps
  import opened ListMoves
  import opened CoreKept
  import opened Services
  import opened Suspension
  import opened FallingAsleep

  /** t moves from the ready list of priority `from` to the tail, or the head, of that of priority p. */
  ghost predicate MovesTo(rdy: seq<seq<Tid>>, from: nat, t: Tid, p: nat, atTail: bool, rdy': seq<seq<Tid>>) {
    && from < |rdy| && p < |rdy|
    && exists rest: seq<Tid> ::
      TakenOff(rdy[from], rest, t) && rdy' == JoinedBy(rdy[from := rest], t, p, atTail)
  }

  function JoinedBy(rdy: seq<seq<Tid>>, t: Tid, p: nat, atTail: bool): seq<seq<Tid>>
    requires p < |rdy|
  {
    rdy[p := if atTail then rdy[p] + [t] else [t] + rdy[p]]
  }

  /** t leaves the pend list and queues again at priority p. */
  ghost predicate QueuesAgain(k: K, q: seq<Tid>, q': seq<Tid>, t: Tid, p: nat) {
    exists rest: seq<Tid> :: TakenOff(q, rest, t) && QueuedByPrio(k, rest, q', t, p)
  }

  /** t has the new priority p; with `requeue` it queues again for the objects in its table. Nothing else changes. */
  ghost predicate GetsPrio(k: K, t: Tid, p: nat, atTail: bool, requeue: bool, k': K) {
    var b := Get(k, t);
    && k' == k.(tcb := k.tcb[t := b.(prio := p)], rdy := k'.rdy, prios := k'.prios, wait := k'.wait)
    && (if b.state == RDY then MovesTo(k.rdy, b.prio, t, p, atTail, k'.rdy) else k'.rdy == k.rdy)
    && k'.wait.Keys == k.wait.Keys
    && forall o: Oid :: o in k.wait ==>
      if requeue && Listed(b.tbl, o) then QueuesAgain(k, k.wait[o], k'.wait[o], t, p) else k'.wait[o] == k.wait[o]
  }

  lemma MoveReadyGets(k: K, t: Tid, p: nat, atTail: bool, requeue: bool)
    requires Inv(k) && Get(k, t).state == RDY && p < |k.rdy|
    ensures GetsPrio(k, t, p, atTail, requeue, MoveReady(k, t, p, atTail))
  {
    hide WheelInv, WaitInv, ObjInv, Drop, TakenOff, QueuesAgain;
    var b := Get(k, t);
    TcbOkOf(k, t);
    assert Count(k.rdy[b.prio], t) == 1;
    DropAt(k.rdy[b.prio], t);
    MoveReadyTcbs(k, t, p, atTail);
    assert b.tbl == [];
  }

  lemma MoveReadyTcbs(k: K, t: Tid, p: nat, atTail: bool)
    requires Get(k, t).prio < |k.rdy| && p < |k.rdy|
    ensures var k' := MoveReady(k, t, p, atTail); var b := Get(k, t);
      k' == k.(tcb := k.tcb[t := b.(prio := p)], prios := k'.prios,
               rdy := JoinedBy(k.rdy[b.prio := Drop(k.rdy[b.prio], t)], t, p, atTail))
  {
    hide Drop;
  }

  lemma RequeuedAgain(k: K, t: Tid, p: nat, q: seq<Tid>)
    requires Count(q, t) == 1
    ensures QueuesAgain(k, q, Insert(Drop(q, t), t, PrioOrder(k.tcb[t := Get(k, t).(prio := p)])), t, p)
    ensures |q| == 1 ==> QueuesAgain(k, q, q, t, p)
  {
    hide Insert, TakenOff, QueuedByPrio;
    DropAt(q, t);
    RequeuedByPrio(k, t, p, q);
    if |q| == 1 {
      AloneByPrio(k, t, p, q);
    }
  }

  lemma RequeuedByPrio(k: K, t: Tid, p: nat, q: seq<Tid>)
    requires Count(q, t) == 1
    ensures QueuedByPrio(k, Drop(q, t), Insert(Drop(q, t), t, PrioOrder(k.tcb[t := Get(k, t).(prio := p)])), t, p)
  {
    hide Insert;
    var tcb := k.tcb[t := Get(k, t).(prio := p)];
    var rest := Drop(q, t);
    var i := InsertAt(rest, t, PrioOrder(tcb));
    forall j: nat | j < |rest| ensures PrioOrder(tcb).Passes(t, rest[j]) <==> Get(k, rest[j]).prio <= p {
      CountDrop(q, t, t);
      CountPositive(rest, j);
    }
  }

  lemma AloneByPrio(k: K, t: Tid, p: nat, q: seq<Tid>)
    requires |q| == 1 && Count(q, t) == 1
    ensures QueuedByPrio(k, Drop(q, t), q, t, p)
  {
    CountPositive(q, 0);
    Alone(q, t);
    assert PutAt([], q, t, 0);
  }

  lemma Alone(q: seq<Tid>, t: Tid)
    requires |q| == 1 && Count(q, t) == 1
    ensures q == [t] && Drop(q, t) == []
  {
    assert q[1..] == [];
  }

  lemma MovePendingGets(k: K, t: Tid, p: nat, atTail: bool)
    requires Inv(k) && Get(k, t).state.Live? && Get(k, t).state.pend
    ensures GetsPrio(k, t, p, atTail, true, MovePending(k, t, p))
  {
    hide ReadyInv, WheelInv, ObjInv, CurOk, Drop, Insert, QueuesAgain, PrioOrder, MovesTo;
    var k' := MovePending(k, t, p);
    var b := Get(k, t);
    var ord := PrioOrder(k'.tcb);
    TcbOkOf(k, t);
    ResortAllAt(k.wait, b.tbl, t, ord, 0);
    forall o: Oid | o in k.wait
      ensures if Listed(b.tbl, o) then QueuesAgain(k, k.wait[o], k'.wait[o], t, p) else k'.wait[o] == k.wait[o]
    {
      ResortAllAt(k.wait, b.tbl, t, ord, o);
      if Listed(b.tbl, o) {
        assert Count(k.wait[o], t) == 1;
        RequeuedAgain(k, t, p, k.wait[o]);
        CountNone(k.wait[o], t);
      }
    }
  }

  lemma CountNone(q: seq<Tid>, t: Tid)
    ensures Count(q, t) > 0 ==> |q| >= 1
  {
  }

  /** What OSTaskChangePrio does to the task: a task that waits for flags, or for something of its own, stays where it
      is. */
  lemma ChangePrioGets(k: K, t: Tid, p: nat, atTail: bool)
    requires Inv(k) && Get(k, t).state.Live? && p < |k.rdy|
    ensures GetsPrio(k, t, p, atTail, Get(k, t).pendOn != OnFlag, ChangePrio(k, t, p, atTail))
  {
    hide CoreInv, ObjInv, CurOk, MoveReady, MovePending, MovesTo, QueuesAgain;
    var b := Get(k, t);
    NoTable(k, t);
    if b.state == RDY {
      MoveReadyGets(k, t, p, atTail, b.pendOn != OnFlag);
    } else if b.state.pend && !NoObject(b.pendOn) && b.pendOn != OnFlag {
      MovePendingGets(k, t, p, atTail);
    }
  }

  lemma NoTable(k: K, t: Tid)
    requires Inv(k) && Get(k, t).state.Live?
    ensures (!Get(k, t).state.pend || NoObject(Get(k, t).pendOn)) ==> Get(k, t).tbl == []
  {
    hide ReadyInv, WheelInv, WaitInv, ObjInv, CurOk;
    TcbOkOf(k, t);
  }

  /** What happens to the owner of a mutex: it queues again in whatever pend lists it is on. */
  lemma OwnerGets(k: K, t: Tid, p: nat, atTail: bool)
    requires Inv(k) && Get(k, t).state.Live? && p < |k.rdy|
    ensures GetsPrio(k, t, p, atTail, true, SetOwnerPrio(k, t, p, atTail))
  {
    hide CoreInv, ObjInv, CurOk, MoveReady, MovePending, MovesTo, QueuesAgain;
    NoTable(k, t);
    if Get(k, t).state == RDY {
      MoveReadyGets(k, t, p, atTail, true);
    } else if Get(k, t).state.pend {
      MovePendingGets(k, t, p, atTail);
    }
  }

  // ------------------------------------------------------------------------------------ getting ready

  /** A task that is woken is ready, unless suspended: at the tail of its ready list if it has the running priority, at
      the head otherwise. */
  predicate BecomesReady(k: K, t: Tid, k': K) {
    var b := Get(k, t);
    && b.prio < |k.rdy|
    && k'.rdy == if b.state.Live? && b.state.susp then k.rdy else JoinedBy(k.rdy, t, b.prio, b.prio == k.prioCur)
  }

  lemma WokenReady(k1: K, k: K, h: Tid, ev: Event)
    requires k.rdy == k1.rdy && k.prioCur == k1.prioCur && Get(k1, h) == Get(k, h) && h in k.tcb
    requires Ends(ev, Get(k, h).state) && Get(k, h).prio < |k.rdy|
    ensures BecomesReady(k1, h, Wake(k, h, ev))
  {
    hide Wake, Finish, UnlinkAll, WheelDrop;
    WakeForm(k, h, ev);
  }
}
