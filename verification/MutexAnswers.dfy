/** What the mutex services answer, and what they do. */
module MutexAnswers {
  import opened TaskLists
  import opened KernelState
  import opened KernelOps
  import opened CoreKept
  import opened WakeMany
  import opened Services
  import opened ObjectsKept
  import opened MutexKept
  import opened Departures
  import opened Run
  import opened Effects
  import opened MutexRun
  import opened Broadcast
  import opened Frames
  import opened FallingAsleep
  import opened Repricing
  import opened PendAnswers
  import opened ReadyOrder
  import opened PostAnswers

  /** The owner w has the caller's priority if that is higher, at the head of its ready list; or nothing changes. */
  ghost predicate OwnerRaised(k: K, w: Tid, k': K) {
    var p := Get(k, k.cur).prio;
    if Get(k, w).prio > p then GetsPrio(k, w, p, false, true, k') else k' == k
  }

  /** The caller waits for mutex o, whose owner w has been raised. */
  ghost predicate WaitsForOwner(k: K, o: Oid, w: Tid, timeout: Tick, k': K) {
    exists k1: K ::
      OwnerRaised(k, w, k1) && StartsWaiting(k1, Get(k, k.cur), OnMutex, [PendData(o, false, Msg(0, 0))], timeout, k')
  }

  /** OSMutexPend. */
  lemma MutexPendAnswers(k: K, o: Oid, timeout: Tick, nonBlocking: bool)
    requires Inv(k)
    ensures var r := Call(k, OpMutexPend(o, timeout, nonBlocking)); var v := Object(k, o);
      && (!v.Mutex? ==> r == R(k, ErrObjType))
      && (v.Mutex? && v.owner == None ==>
        r == R(k.(obj := k.obj[o := Mutex(Some(k.cur), 1, Get(k, k.cur).prio)]), ErrNone))
      && (v.Mutex? && v.owner == Some(k.cur) ==>
        r == R(k.(obj := k.obj[o := v.(nest := (v.nest + 1) % 256)]), ErrMutexOwner))
      && (v.Mutex? && v.owner.Some? && v.owner != Some(k.cur) ==>
        && AnswersPend(k, false, nonBlocking, r)
        && (r.err == Blocked ==> WaitsForOwner(k, o, v.owner.value, timeout, r.k)))
  {
    hide CoreInv, CurOk, RaiseOwner, Block, Sched, WaitsForOwner;
    ObjOkOf(k, o);
    var v := Object(k, o);
    if v.Mutex? && v.owner.Some? && v.owner != Some(k.cur) && k.lock == 0 {
      OwnerLive(k, o);
      BlocksOnOwner(k, o, v.owner.value, timeout);
    }
  }

  lemma BlocksOnOwner(k: K, o: Oid, w: Tid, timeout: Tick)
    requires Inv(k) && w != k.cur && Get(k, w).state.Live?
    ensures WaitsForOwner(k, o, w, timeout,
      Sched(Block(RaiseOwner(k, w, Get(k, k.cur).prio), k.cur, OnMutex, Entry(o), timeout)))
  {
    hide CoreInv, ObjInv, CurOk, Block, Sched, StartsWaiting, SetOwnerPrio, GetsPrio;
    var p := Get(k, k.cur).prio;
    var k1 := RaiseOwner(k, w, p);
    CurFacts(k);
    RaiseOwnerInv(k, w, p);
    OwnerGets(k, w, p, false);
    RaiseTcb(k, w, p);
    OneEntry(o);
    BlockWaits(k1, OnMutex, Entry(o), timeout);
    assert OwnerRaised(k, w, k1);
  }

  lemma RaiseTcb(k: K, w: Tid, p: nat)
    requires w != k.cur
    ensures Get(RaiseOwner(k, w, p), k.cur) == Get(k, k.cur) && RaiseOwner(k, w, p).cur == k.cur
  {
    hide SetOwnerPrio;
    SetOwnerPrioTcb(k, w, p, false);
  }

  // ------------------------------------------------------------------------------------------ release

  /** The caller has its original priority back, at the tail of its ready list, and OSPrioCur follows. */
  ghost predicate PrioGivenBack(k: K, orig: nat, k': K) {
    if Get(k, k.cur).prio == orig then k' == k
    else k'.prioCur == orig && GetsPrio(k, k.cur, orig, true, false, k'.(prioCur := k.prioCur))
  }

  /** The release with waiters: the caller gets its priority back, the first waiter becomes ready. */
  ghost predicate HandsOver(k: K, h: Tid, orig: nat, k': K) {
    exists k1: K :: PrioGivenBack(k, orig, k1) && BecomesReady(k1, h, k')
  }

  /** OSMutexPost. What the TCBs and the objects are after a hand-over says `GrantEffect`. */
  lemma MutexPostAnswers(k: K, o: Oid, noSched: bool)
    requires Inv(k)
    ensures var r := Call(k, OpMutexPost(o, noSched)); var v := Object(k, o);
      && (!v.Mutex? ==> r == R(k, ErrObjType))
      && (v.Mutex? && v.owner != Some(k.cur) ==> r == R(k, ErrMutexNotOwner))
      && (v.Mutex? && v.owner == Some(k.cur) && v.nest > 1 ==>
        r == R(k.(obj := k.obj[o := v.(nest := v.nest - 1)]), ErrMutexNesting))
      && (v.Mutex? && v.owner == Some(k.cur) && v.nest == 1 ==>
        && r.err == ErrNone
        && if Waiters(k, o) == [] then r.k == k.(obj := k.obj[o := v.(owner := None, nest := 0)])
           else HandsOver(k, Waiters(k, o)[0], v.orig, r.k))
    ensures Object(k, o).Mutex? && Object(k, o).owner == Some(k.cur) ==> Object(k, o).nest >= 1
  {
    hide CoreInv, CurOk, RestoreCur, Wake, MaybeSched, HandsOver;
    ObjOkOf(k, o);
    if Holds(k, k.cur, o) && Object(k, o).nest == 1 && Waiters(k, o) != [] {
      HandOver(k, o, noSched);
    }
  }

  lemma HandOver(k: K, o: Oid, noSched: bool)
    requires Inv(k) && Holds(k, k.cur, o) && Object(k, o).nest == 1 && Waiters(k, o) != []
    ensures HandsOver(k, Waiters(k, o)[0], Object(k, o).orig, MutexPost(k, o, noSched).k)
  {
    hide CoreInv, ObjInv, RestoreCur, Wake, Sched, PrioGivenBack, BecomesReady;
    var h, orig := Waiters(k, o)[0], Object(k, o).orig;
    var k1 := RestoreCur(k, orig);
    var k2 := SetObj(k1, o, Mutex(Some(h), 1, Get(k1, h).prio));
    var k3 := Wake(k2, h, Posted(Some(o), NO_MSG));
    OwnerLive(k, o);
    RestoreGives(k, orig);
    RestoreCurInv(k, orig);
    FirstAmong(k, o);
    CountPositive(Waiters(k, o), 0);
    WaiterPends(k, h, o);
    ReadyAwaitsNothing(k, k.cur);
    PrioFits(k, h);
    assert Get(k2, h) == Get(k, h);
    WokenReady(k1, k2, h, Posted(Some(o), NO_MSG));
    SchedKeepsTcbs(k3, noSched);
    SameReady(k1, h, k3, MaybeSched(k3, noSched));
  }

  lemma PrioFits(k: K, t: Tid)
    requires CoreInv(k) && Get(k, t).state.Live?
    ensures Get(k, t).prio < |k.rdy|
  {
    hide ReadyInv, WheelInv, WaitInv;
    TcbOkOf(k, t);
  }

  lemma SameReady(k: K, h: Tid, k3: K, k': K)
    requires BecomesReady(k, h, k3) && k'.rdy == k3.rdy
    ensures BecomesReady(k, h, k')
  {
  }

  lemma RestoreGives(k: K, orig: nat)
    requires Inv(k) && orig < |k.rdy|
    ensures PrioGivenBack(k, orig, RestoreCur(k, orig))
  {
    hide CoreInv, ObjInv, MoveReady, MovesTo, QueuesAgain;
    if Get(k, k.cur).prio != orig {
      MoveReadyGets(k, k.cur, orig, true, false);
    }
  }

  // ----------------------------------------------------------------------------------------- deletion

  /** The owner, if any, has its original priority back, at the tail of its ready list. */
  ghost predicate OwnerRestored(k: K, owner: Option<Tid>, orig: nat, k': K) {
    if owner.Some? && Get(k, owner.value).prio != orig then GetsPrio(k, owner.value, orig, true, true, k') else k' == k
  }

  /** Then the waiters become ready. */
  ghost predicate RestoresAndWakes(k: K, owner: Option<Tid>, orig: nat, w: seq<Tid>, k': K) {
    exists k1: K :: OwnerRestored(k, owner, orig, k1) && GetReady(k1, w, k')
  }

  /** OSMutexDel. With waiters it takes the option to delete always; afterwards the mutex does not exist and nobody waits
      for it. */
  lemma MutexDelAnswers(k: K, o: Oid, always: bool)
    requires Inv(k)
    ensures var r := Call(k, OpMutexDel(o, always)); var v := Object(k, o);
      && (!v.Mutex? ==> r == R(k, ErrObjType))
      && (v.Mutex? && !always && Waiters(k, o) != [] ==> r == R(k, ErrTaskWaiting))
      && (v.Mutex? && !always && Waiters(k, o) == [] ==> r == R(k.(obj := k.obj[o := Gone]), ErrNone))
      && (v.Mutex? && always ==>
        && r.err == ErrNone && Object(r.k, o) == Gone && Waiters(r.k, o) == []
        && RestoresAndWakes(k, v.owner, v.orig, Waiters(k, o), r.k))
  {
    hide CoreInv, ObjInv, CurOk, SetOwnerPrio, WakeAll, Sched, RestoresAndWakes;
    var v := Object(k, o);
    if v.Mutex? && always {
      if v.owner.Some? {
        OwnerLive(k, o);
      }
      MutexDelKeeps(k, o);
      MutexDelReady(k, o);
      GoneEmpty(Call(k, OpMutexDel(o, true)).k, o);
    }
  }

  lemma MutexDelReady(k: K, o: Oid)
    requires Inv(k) && Object(k, o).Mutex?
    ensures var v := Object(k, o); RestoresAndWakes(k, v.owner, v.orig, Waiters(k, o), MutexDel(k, o, true).k)
  {
    hide CoreInv, ObjInv, CurOk, SetOwnerPrio, WakeAll, Sched, GetReady, GetsPrio, Pending;
    var v, w := Object(k, o), Waiters(k, o);
    var k1 := k;
    if v.owner.Some? {
      OwnerLive(k, o);
      if Get(k, v.owner.value).prio != v.orig {
        k1 := SetOwnerPrio(k, v.owner.value, v.orig, true);
        OwnerGets(k, v.owner.value, v.orig, true);
        SetOwnerPrioTcb(k, v.owner.value, v.orig, true);
        OwnerPrioInv(k, v.owner.value, v.orig, true);
      }
    }
    SameLength(k, o, k1);
    var k2 := WakeAll(k1, w, ObjDeleted(Some(o)));
    OwnedPend(k, o, k1);
    WakeAllReadies(k1, w, ObjDeleted(Some(o)));
    SchedKeepsTcbs(SetObj(k2, o, Gone), false);
    SameGetReady(k1, w, k2, MutexDel(k, o, true).k);
  }

  lemma SameLength(k: K, o: Oid, k1: K)
    requires Object(k, o).Mutex? && (k1 == k || (Object(k, o).owner.Some? &&
      k1 == SetOwnerPrio(k, Object(k, o).owner.value, Object(k, o).orig, true)))
    ensures |k1.rdy| == |k.rdy|
  {
    hide Drop, ResortAll;
  }

  lemma MutexDelKeeps(k: K, o: Oid)
    requires Inv(k) && Object(k, o).Mutex?
    ensures var k' := MutexDel(k, o, true).k; Inv(k') && Object(k', o) == Gone
  {
    hide CoreInv, CurOk, SetOwnerPrio, WakeAll;
    MutexDelInv(k, o, true);
    DelGone(k, o);
  }

  lemma DelGone(k: K, o: Oid)
    requires Inv(k) && Object(k, o).Mutex?
    ensures Object(MutexDel(k, o, true).k, o) == Gone
  {
    hide CoreInv, ObjInv, CurOk, SetOwnerPrio, WakeAll, FirstReady;
    if Object(k, o).owner.Some? {
      OwnerLive(k, o);
    }
  }

  /** Nobody waits for an object that does not exist. */
  lemma GoneEmpty(k: K, o: Oid)
    requires Inv(k) && Object(k, o) == Gone
    ensures Waiters(k, o) == []
  {
    hide CoreInv, CurOk;
    ObjOkOf(k, o);
  }
}
