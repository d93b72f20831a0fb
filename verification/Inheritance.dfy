/** Priority inheritance without any rule for its users. For every call: the exact condition, on the state before it,
    under which no owner of a mutex is of lower priority than a task that waits for it afterwards, if none was before.
  */
module Inheritance {
  import opened TaskLists
  import opened KernelState
  import opened KernelOps
  import opened CoreKept
  import opened Services
  import opened ObjectsKept
  import opened MutexKept
  import opened Departures
  import opened Run
  import opened Effects
  import opened MutexRun
  import opened Frames

  /** At priority p the task t is not below anybody who waits for a mutex of t's other than `but`. */
  ghost predicate NotBelowWaiters(k: K, t: Tid, p: nat, but: Option<Oid>) {
    forall x: Oid, u: Tid :: but != Some(x) && Holds(k, t, x) && Awaits(k, u, x) ==> p <= Get(k, u).prio
  }

  /** The calls that keep the bound. A blocking pend must not raise an owner that itself waits for a lower one; a
      release, a deletion and a change of priority must not put an owner below a waiter, nor a waiter above an owner. */
  ghost predicate KeepsBound(k: K, op: Op) {
    match op
    case OpMutexPend(o, _, nonBlocking) =>
      Object(k, o).Mutex? && Object(k, o).owner.Some? && !nonBlocking && k.lock == 0 ==>
        var w, p := Object(k, o).owner.value, Get(k, k.cur).prio;
        w == k.cur || Get(k, w).prio <= p || NoneBelow(k, w, p)
    case OpMutexPost(o, _) =>
      Holds(k, k.cur, o) && Object(k, o).nest == 1 && Waiters(k, o) != [] ==>
        NotBelowWaiters(k, k.cur, Object(k, o).orig, Some(o))
    case OpMutexDel(o, always) =>
      Object(k, o).Mutex? && Object(k, o).owner.Some? && always ==>
        var w, p := Object(k, o).owner.value, Object(k, o).orig;
        NotBelowWaiters(k, w, p, Some(o)) && NoneBelow(k, w, p)
    case OpChangePrio(t, p, _) =>
      p + 1 < |k.rdy| && Get(k, t).state != Deleted ==> NotBelowWaiters(k, t, p, None) && NoneBelow(k, t, p)
    case _ => true
  }

  // -------------------------------------------------------------------------------- one new priority

  /** k' differs from k, as far as mutexes are concerned, in that t has priority p and the mutex `but` is gone. */
  ghost predicate Repriced(k: K, t: Tid, p: nat, but: Option<Oid>, k': K) {
    && (forall v: Tid, x: Oid :: Holds(k', v, x) <==> Holds(k, v, x) && but != Some(x))
    && (forall u: Tid, x: Oid :: Awaits(k', u, x) <==> Awaits(k, u, x) && but != Some(x))
    && forall u: Tid :: Get(k', u).prio == if u == t then p else Get(k, u).prio
  }

  /** An owner waits neither for its mutex nor, thereby, for the one that is gone. */
  lemma RepricedKeeps(k: K, t: Tid, p: nat, but: Option<Oid>, k': K)
    requires ObjInv(k) && Inherited(k) && Repriced(k, t, p, but, k')
    requires NotBelowWaiters(k, t, p, but) && NoneBelow(k, t, p)
    ensures Inherited(k')
  {
    hide ObjInv;
    forall x: Oid, v: Tid, u: Tid | Holds(k', v, x) && Awaits(k', u, x) ensures Get(k', v).prio <= Get(k', u).prio {
      assert Holds(k, v, x) && Awaits(k, u, x) && but != Some(x);
      OwnerNotWaiting(k, v, x);
      assert Get(k, v).prio <= Get(k, u).prio;
    }
  }

  lemma RepricedLoses(k: K, t: Tid, p: nat, but: Option<Oid>, k': K)
    requires ObjInv(k) && Repriced(k, t, p, but, k') && (but.Some? ==> !Awaits(k, t, but.value)) && Inherited(k')
    ensures NotBelowWaiters(k, t, p, but) && NoneBelow(k, t, p)
  {
    hide ObjInv;
    forall x: Oid, u: Tid | but != Some(x) && Holds(k, t, x) && Awaits(k, u, x) ensures p <= Get(k, u).prio {
      OwnerNotWaiting(k, t, x);
      assert Holds(k', t, x) && Awaits(k', u, x);
    }
    forall v: Tid, x: Oid | Holds(k, v, x) && Awaits(k, t, x) ensures Get(k, v).prio <= p {
      OwnerNotWaiting(k, v, x);
      assert Holds(k', v, x) && Awaits(k', t, x);
    }
  }

  lemma RepricedExactly(k: K, t: Tid, p: nat, but: Option<Oid>, k': K)
    requires ObjInv(k) && Inherited(k) && Repriced(k, t, p, but, k') && (but.Some? ==> !Awaits(k, t, but.value))
    ensures Inherited(k') <==> NotBelowWaiters(k, t, p, but) && NoneBelow(k, t, p)
  {
    hide ObjInv, Repriced, Inherited, NotBelowWaiters, NoneBelow;
    if NotBelowWaiters(k, t, p, but) && NoneBelow(k, t, p) {
      RepricedKeeps(k, t, p, but, k');
    } else if Inherited(k') {
      RepricedLoses(k, t, p, but, k');
    }
  }

  /** OSTaskChangePrio. */
  lemma ChangePrioExactly(k: K, t: Tid, p: nat, self: bool)
    requires Inv(k) && Inherited(k)
    ensures Inherited(TaskChangePrio(k, t, p, self).k) <==> KeepsBound(k, OpChangePrio(t, p, self))
  {
    hide CoreInv, ObjInv, CurOk, Inherited, NotBelowWaiters, NoneBelow, MoveReady, MovePending, Sched;
    var k' := TaskChangePrio(k, t, p, self).k;
    if p + 1 < |k.rdy| && Get(k, t).state != Deleted {
      var k1 := ChangePrio(k, t, p, !self);
      MovePrioTcb(k, t, p, !self);
      MovePrioObj(k, t, p, !self);
      SchedKeepsTcbs(k1, false);
      SchedNow(k1);
      assert k'.tcb == k.tcb[t := Get(k, t).(prio := p)] && k'.obj == k.obj;
      RepricedExactly(k, t, p, None, k');
    }
  }

  // ------------------------------------------------------------------------------------------- release

  /** A task that waits for a mutex waits for nothing else. */
  lemma AwaitsOne(k: K, t: Tid, x: Oid, y: Oid)
    requires CoreInv(k) && Awaits(k, t, x) && Awaits(k, t, y)
    ensures x == y
  {
    hide ReadyInv, WheelInv;
    assert KindOk(Get(k, t).pendOn, Object(k, x));
    TcbOkOf(k, t);
    var tbl := Get(k, t).tbl;
    assert Get(k, t).pendOn == OnMutex && |tbl| == 1;
    assert tbl[1..] == [] && !Listed(tbl[1..], x) && !Listed(tbl[1..], y);
  }

  lemma GrantKeeps(k: K, o: Oid, noSched: bool)
    requires Inv(k) && Inherited(k) && Holds(k, k.cur, o) && Object(k, o).nest <= 1 && Waiters(k, o) != []
    requires NotBelowWaiters(k, k.cur, Object(k, o).orig, Some(o))
    ensures Inherited(MutexPost(k, o, noSched).k)
  {
    hide CoreInv, ObjInv, MutexPost;
    var k' := MutexPost(k, o, noSched).k;
    var h := Waiters(k, o)[0];
    GrantEffect(k, o, noSched);
    ReadyAwaitsNothing(k, k.cur);
    forall x: Oid, v: Tid, u: Tid | Holds(k', v, x) && Awaits(k', u, x) ensures Get(k', v).prio <= Get(k', u).prio {
      assert Awaits(k, u, x) && u != h && u != k.cur;
      if x == o {
        FirstIsHighest(k, o, u);
      } else {
        assert Holds(k, v, x);
      }
    }
  }

  lemma GrantLoses(k: K, o: Oid, noSched: bool)
    requires Inv(k) && Holds(k, k.cur, o) && Object(k, o).nest <= 1 && Waiters(k, o) != []
    requires Inherited(MutexPost(k, o, noSched).k)
    ensures NotBelowWaiters(k, k.cur, Object(k, o).orig, Some(o))
  {
    hide CoreInv, ObjInv, MutexPost;
    var k' := MutexPost(k, o, noSched).k;
    var h := Waiters(k, o)[0];
    GrantEffect(k, o, noSched);
    ReadyAwaitsNothing(k, k.cur);
    forall x: Oid, u: Tid | x != o && Holds(k, k.cur, x) && Awaits(k, u, x) ensures Object(k, o).orig <= Get(k, u).prio {
      if u == h {
        AwaitsOne(k, h, o, x);
      }
      assert Holds(k', k.cur, x) && Awaits(k', u, x);
    }
  }

  /** OSMutexPost. */
  lemma PostExactly(k: K, o: Oid, noSched: bool)
    requires Inv(k) && Inherited(k)
    ensures Inherited(MutexPost(k, o, noSched).k) <==> KeepsBound(k, OpMutexPost(o, noSched))
  {
    hide CoreInv, ObjInv, CurOk, Inherited, NotBelowWaiters, RestoreCur, Wake, MaybeSched;
    if Holds(k, k.cur, o) {
      OwnerNest(k, o);
      if Object(k, o).nest > 1 || Waiters(k, o) == [] {
        SameTcbsKeep(k, MutexPost(k, o, noSched).k);
      } else if NotBelowWaiters(k, k.cur, Object(k, o).orig, Some(o)) {
        GrantKeeps(k, o, noSched);
      } else if Inherited(MutexPost(k, o, noSched).k) {
        GrantLoses(k, o, noSched);
      }
    }
  }

  lemma SameTcbsKeep(k: K, k': K)
    requires Inherited(k) && k'.tcb == k.tcb && NoNewHolder(k, k')
    requires forall o: Oid :: Object(k', o).Mutex? ==> Object(k, o).Mutex?
    ensures Inherited(k')
  {
    assert forall t: Tid :: Get(k', t) == Get(k, t);
    forall x: Oid, v: Tid, u: Tid | Holds(k', v, x) && Awaits(k', u, x) ensures Get(k', v).prio <= Get(k', u).prio {
      assert Holds(k, v, x) && Awaits(k, u, x);
    }
  }

  // ------------------------------------------------------------------------------------------ deletion

  lemma DelRepriced(k: K, o: Oid, w: Tid)
    requires Inv(k) && Holds(k, w, o)
    ensures Repriced(k, w, Object(k, o).orig, Some(o), MutexDel(k, o, true).k)
  {
    hide CoreInv, ObjInv, CurOk, MutexDel;
    var k' := MutexDel(k, o, true).k;
    DelObjs(k, o);
    OwnerNotAwaits(k, o, w);
    forall u: Tid ensures Get(k', u).prio == if u == w then Object(k, o).orig else Get(k, u).prio {
      MutexDelTcb(k, o, u);
      FinishOwn(Get(k, u), ObjDeleted(Some(o)));
    }
    forall u: Tid, x: Oid ensures Awaits(k', u, x) <==> Awaits(k, u, x) && o != x {
      MutexDelTcb(k, o, u);
      if x != o && Awaits(k, u, x) && Listed(Get(k, u).tbl, o) {
        AwaitsOne(k, u, x, o);
      }
    }
    assert forall v: Tid, x: Oid :: Holds(k', v, x) <==> Holds(k, v, x) && o != x;
  }

  lemma OwnerNotAwaits(k: K, o: Oid, w: Tid)
    requires Inv(k) && Holds(k, w, o)
    ensures !Awaits(k, w, o)
  {
    hide CoreInv, ObjInv;
    OwnerNotWaiting(k, w, o);
  }

  lemma DelObjs(k: K, o: Oid)
    requires Inv(k) && Object(k, o).Mutex?
    ensures MutexDel(k, o, true).k.obj == k.obj[o := Gone]
  {
    hide CoreInv, ObjInv, SetOwnerPrio, WakeAll, Sched;
    MutexDelObj(k, o, Object(k, o).owner, Object(k, o).orig);
    if Object(k, o).owner.Some? {
      OwnerLive(k, o);
    }
  }

  /** OSMutexDel. */
  lemma DelExactly(k: K, o: Oid, always: bool)
    requires Inv(k) && Inherited(k)
    ensures Inherited(MutexDel(k, o, always).k) <==> KeepsBound(k, OpMutexDel(o, always))
  {
    hide CoreInv, ObjInv, CurOk, Inherited, NotBelowWaiters, NoneBelow, Repriced, SetOwnerPrio, WakeAll, Sched;
    if Object(k, o).Mutex? {
      if !always {
        SameTcbsKeep(k, MutexDel(k, o, always).k);
      } else if Object(k, o).owner.Some? {
        var w := Object(k, o).owner.value;
        DelRepriced(k, o, w);
        OwnerNotAwaits(k, o, w);
        RepricedExactly(k, w, Object(k, o).orig, Some(o), MutexDel(k, o, true).k);
      } else {
        DelFree(k, o);
      }
    }
  }

  lemma DelFree(k: K, o: Oid)
    requires Inv(k) && Inherited(k) && Object(k, o).Mutex? && Object(k, o).owner == None
    ensures Inherited(MutexDel(k, o, true).k)
  {
    hide CoreInv, ObjInv, SetOwnerPrio, Sched;
    ObjOkOf(k, o);
    SchedKeepsTcbs(SetObj(k, o, Gone), false);
    SchedNow(SetObj(k, o, Gone));
    SameTcbsKeep(k, MutexDel(k, o, true).k);
  }

  // ----------------------------------------------------------------------------------------------- pend

  lemma TakeKeeps(k: K, o: Oid)
    requires Inv(k) && Inherited(k) && Object(k, o).Mutex? && Object(k, o).nest == 0
    ensures Inherited(SetObj(k, o, Mutex(Some(k.cur), 1, Get(k, k.cur).prio)))
  {
    hide CoreInv;
    var k' := SetObj(k, o, Mutex(Some(k.cur), 1, Get(k, k.cur).prio));
    ObjOkOf(k, o);
    forall x: Oid, v: Tid, u: Tid | Holds(k', v, x) && Awaits(k', u, x) ensures Get(k', v).prio <= Get(k', u).prio {
      InList(k, o, u);
      assert x != o;
      assert Holds(k, v, x) && Awaits(k, u, x);
    }
  }

  /** OSMutexPend. */
  lemma PendExactly(k: K, o: Oid, timeout: Tick, nonBlocking: bool)
    requires Inv(k) && Inherited(k)
    ensures Inherited(MutexPend(k, o, timeout, nonBlocking).k) <==> KeepsBound(k, OpMutexPend(o, timeout, nonBlocking))
  {
    hide CoreInv, ObjInv, CurOk, Inherited, NoneBelow, RaiseOwner, Block, Sched;
    var k' := MutexPend(k, o, timeout, nonBlocking).k;
    ObjOkOf(k, o);
    match Object(k, o)
    case Mutex(owner, nest, orig) =>
      if nest == 0 {
        TakeKeeps(k, o);
      } else if owner == Some(k.cur) {
        SameTcbsKeep(k, k');
      } else if !nonBlocking && k.lock == 0 {
        RaiseIsNotChained(k, o, owner.value, timeout);
      }
    case _ =>
  }

  // ---------------------------------------------------------------------------------------- every call

  lemma OtherCallsKeep(k: K, op: Op)
    requires Inv(k) && WellUsed(k, op) && Harmless(k, op) && Inherited(k) && !MutexOp(op) && !op.OpChangePrio?
    ensures Inherited(Step(k, op))
  {
    hide Inv, WellUsed, Harmless, Step, Tame, Uninvolved, Inherited;
    AllTame(k, op);
    InheritedKept(k, Step(k, op));
  }

  lemma NoCondition(k: K, op: Op)
    requires !MutexOp(op) && !op.OpChangePrio?
    ensures KeepsBound(k, op)
  {
    hide NoneBelow, NotBelowWaiters;
  }

  /** The step theorem: a call keeps every owner at or above its waiters if and only if the condition holds before it. */
  lemma BoundKeptExactly(k: K, op: Op)
    requires Inv(k) && WellUsed(k, op) && Harmless(k, op) && Inherited(k)
    ensures Inherited(Step(k, op)) <==> KeepsBound(k, op)
  {
    hide Inv, WellUsed, Harmless, Call, Inherited, KeepsBound, MutexPend, MutexPost, MutexDel, TaskChangePrio;
    if MutexOp(op) {
      MutexSteps(k, op);
      match op {
        case OpMutexPend(o, timeout, nonBlocking) => PendExactly(k, o, timeout, nonBlocking);
        case OpMutexPost(o, noSched) => PostExactly(k, o, noSched);
        case OpMutexDel(o, always) => DelExactly(k, o, always);
      }
    } else if op.OpChangePrio? {
      PrioStep(k, op);
      ChangePrioExactly(k, op.t, op.prio, op.self);
    } else {
      OtherCallsKeep(k, op);
      NoCondition(k, op);
    }
  }

  /** The bound holds in every state of the run. */
  ghost predicate BoundThroughout(k: K, ops: seq<Op>)
    decreases |ops|
  {
    Inherited(k) && (ops == [] || BoundThroughout(Step(k, ops[0]), ops[1..]))
  }

  /** Every call of the run keeps the bound where it is made. */
  ghost predicate KeptThroughout(k: K, ops: seq<Op>)
    decreases |ops|
  {
    ops == [] || (KeepsBound(k, ops[0]) && KeptThroughout(Step(k, ops[0]), ops[1..]))
  }

  /** Over every run of guarded calls no task ever waits for a mutex whose owner is below it, if and only if each call
      meets its condition. */
  lemma {:induction false} BoundOverRunsExactly(k: K, ops: seq<Op>)
    requires Inv(k) && Proper(k, ops) && Inherited(k)
    ensures BoundThroughout(k, ops) <==> KeptThroughout(k, ops)
    decreases |ops|
  {
    hide Inv, WellUsed, Harmless, Step, Inherited, KeepsBound;
    if ops != [] {
      BoundKeptExactly(k, ops[0]);
      StepKeeps(k, ops[0]);
      if KeepsBound(k, ops[0]) {
        BoundOverRunsExactly(Step(k, ops[0]), ops[1..]);
      }
    }
  }
}
