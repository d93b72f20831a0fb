/** What the post services answer, and what they do. A post is refused exactly when nobody waits and there is no room: the
    count is at the end of its 32 bits, the queue holds as many messages as it may, or no message node is left.
  */
module PostAnswers {
  import opened TaskLists
  import opened KernelState
  import opened KernelOps
  import opened CoreKept
  import opened Services
  import opened ObjectsKept
  import opened Departures
  import opened Run
  import opened Conservation
  import opened Repricing
  import opened ReadyOrder

  /** Somebody waited: the post is accepted, the object keeps what it holds, and the first waiter, or all of them, leave
      the list and become ready. What they find says `WaitAnswers`. */
  ghost predicate WakesSome(k: K, o: Oid, all: bool, r: R) {
    var w := Waiters(k, o);
    && w != [] && r.err == ErrNone && r.k.obj == k.obj && Waiters(r.k, o) == (if all then [] else w[1..])
    && GetReady(k, if all then w else w[..1], r.k)
  }

  lemma WakingWakes(k: K, o: Oid, all: bool, ev: Event, noSched: bool)
    requires Inv(k) && Waiters(k, o) != [] && !ev.DelayOver?
    ensures var w := Waiters(k, o);
      WakesSome(k, o, all, R(MaybeSched(WakeAll(k, if all then w else w[..1], ev), noSched), ErrNone))
  {
    hide CoreInv, ObjInv, CurOk, WakeAll, Sched, GetReady;
    var w := Waiters(k, o);
    var ts := if all then w else w[..1];
    PostLeaves(k, o, ev, all);
    SomePend(k, o, all);
    WakeAllReadies(k, ts, ev);
    SchedKeepsTcbs(WakeAll(k, ts, ev), noSched);
    SameGetReady(k, ts, WakeAll(k, ts, ev), MaybeSched(WakeAll(k, ts, ev), noSched));
  }

  lemma SameGetReady(k: K, ts: seq<Tid>, k1: K, k': K)
    requires GetReady(k, ts, k1) && k'.rdy == k1.rdy
    ensures GetReady(k, ts, k')
  {
    hide Joined;
  }

  /** OSSemPost. */
  lemma SemPostAnswers(k: K, o: Oid, all: bool, noSched: bool)
    requires Inv(k)
    ensures var r := Call(k, OpSemPost(o, all, noSched)); var v := Object(k, o);
      && (!v.Sem? ==> r == R(k, ErrObjType))
      && (v.Sem? && Waiters(k, o) != [] ==> WakesSome(k, o, all, r))
      && (v.Sem? && Waiters(k, o) == [] && v.ctr < 0xFFFF_FFFF ==>
        r == R(k.(obj := k.obj[o := Sem(v.ctr + 1)]), ErrNone))
      && (v.Sem? && Waiters(k, o) == [] && v.ctr == 0xFFFF_FFFF ==> r == R(k, ErrSemOvf))
  {
    hide Inv, WakeAll, MaybeSched, WakesSome;
    if Waiters(k, o) != [] {
      WakingWakes(k, o, all, Posted(Some(o), NO_MSG), noSched);
    }
  }

  /** OSQPost. */
  lemma QPostAnswers(k: K, o: Oid, m: Msg, lifo: bool, all: bool, noSched: bool, poolEmpty: bool)
    requires Inv(k)
    ensures var r := Call(k, OpQPost(o, m, lifo, all, noSched, poolEmpty)); var v := Object(k, o);
      && (!v.Queue? ==> r == R(k, ErrObjType))
      && (v.Queue? && Waiters(k, o) != [] ==> WakesSome(k, o, all, r))
      && (v.Queue? && Waiters(k, o) == [] && |v.msgs| == v.max ==> r == R(k, ErrQMax))
      && (v.Queue? && Waiters(k, o) == [] && |v.msgs| < v.max && poolEmpty ==> r == R(k, ErrPoolEmpty))
      && (v.Queue? && Waiters(k, o) == [] && |v.msgs| < v.max && !poolEmpty ==>
        r == R(k.(obj := k.obj[o := Queue(if lifo then [m] + v.msgs else v.msgs + [m], v.max)]), ErrNone))
    ensures Object(k, o).Queue? ==> |Object(k, o).msgs| <= Object(k, o).max
  {
    hide CoreInv, CurOk, WakeAll, MaybeSched, WakesSome;
    ObjOkOf(k, o);
    if Waiters(k, o) != [] {
      WakingWakes(k, o, all, Posted(Some(o), m), noSched);
    } else if Object(k, o).Queue? {
      assert k.obj[o := Object(k, o)] == k.obj;
    }
  }

  lemma PendingOn(k: K, t: Tid)
    requires Inv(k)
    ensures Get(k, t).state.Live? ==> (Get(k, t).state.pend <==> Get(k, t).pendOn != OnNothing)
    ensures !Get(k, t).state.Live? ==> Get(k, t).pendOn == OnNothing
    ensures Get(k, t).state.Live? ==> (Get(k, t).state.susp <==> Get(k, t).suspendCtr > 0)
    ensures |Get(k, t).taskQ| <= Get(k, t).taskQMax
  {
    hide ReadyInv, WheelInv, WaitInv, ObjInv, CurOk;
    if t in k.tcb {
      TcbOkOf(k, t);
    }
  }

  /** OSTaskSemPost. */
  lemma TaskSemPostAnswers(k: K, t: Tid, noSched: bool)
    requires Inv(k)
    ensures var r := Call(k, OpTaskSemPost(t, noSched)); var b := Get(k, t);
      && (b.state == Deleted ==> r == R(k, ErrStateInvalid))
      && (b.state.Live? && b.pendOn == OnTaskSem ==> r.err == ErrNone && BecomesReady(k, t, r.k))
      && (b.state.Live? && b.pendOn != OnTaskSem && b.semCtr < 0xFFFF_FFFF ==>
        r == R(k.(tcb := k.tcb[t := b.(semCtr := b.semCtr + 1)]), ErrNone))
      && (b.state.Live? && b.pendOn != OnTaskSem && b.semCtr == 0xFFFF_FFFF ==> r == R(k, ErrSemOvf))
  {
    hide Inv, Wake, MaybeSched, BecomesReady;
    PendingOn(k, t);
    OwnReady(k, t, Posted(None, NO_MSG), noSched);
  }

  /** A task whose own wait ends becomes ready. */
  lemma OwnReady(k: K, t: Tid, ev: Event, noSched: bool)
    requires Inv(k) && !ev.DelayOver?
    ensures Get(k, t).state.Live? && Get(k, t).state.pend ==> BecomesReady(k, t, MaybeSched(Wake(k, t, ev), noSched))
  {
    hide ReadyInv, WheelInv, WaitInv, ObjInv, CurOk, Wake, Sched;
    if Get(k, t).state.Live? && Get(k, t).state.pend {
      TcbOkOf(k, t);
      WokenReady(k, k, t, ev);
      SchedKeepsTcbs(Wake(k, t, ev), noSched);
    }
  }

  /** OSTaskQPost. */
  lemma TaskQPostAnswers(k: K, t: Tid, m: Msg, lifo: bool, noSched: bool, poolEmpty: bool)
    requires Inv(k)
    ensures var r := Call(k, OpTaskQPost(t, m, lifo, noSched, poolEmpty)); var b := Get(k, t);
      && (b.state == Deleted ==> r == R(k, ErrStateInvalid))
      && (b.state.Live? && b.pendOn == OnTaskQ ==> r.err == ErrNone && BecomesReady(k, t, r.k))
      && (b.state.Live? && b.pendOn != OnTaskQ && |b.taskQ| == b.taskQMax ==> r == R(k, ErrQMax))
      && (b.state.Live? && b.pendOn != OnTaskQ && |b.taskQ| < b.taskQMax && poolEmpty ==> r == R(k, ErrPoolEmpty))
      && (b.state.Live? && b.pendOn != OnTaskQ && |b.taskQ| < b.taskQMax && !poolEmpty ==>
        r == R(k.(tcb := k.tcb[t := b.(taskQ := if lifo then [m] + b.taskQ else b.taskQ + [m])]), ErrNone))
    ensures |Get(k, t).taskQ| <= Get(k, t).taskQMax
  {
    hide Inv, Wake, MaybeSched, BecomesReady;
    PendingOn(k, t);
    OwnReady(k, t, Posted(None, m), noSched);
    if t in k.tcb {
      assert k.tcb[t := k.tcb[t]] == k.tcb;
    }
  }
}
