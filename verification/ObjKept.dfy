/** What an object holds excludes waiters: no routine that moves one task breaks this. */
module ObjKept {
  import opened TaskLists
  import opened KernelState
  import opened KernelOps
  import opened ListMoves
  import opened CoreKept
  import opened Services

  /** The invariant without the claim that the current task is ready. */
  ghost predicate ListsInv(k: K) {
    CoreInv(k) && ObjInv(k)
  }

  /** Object o has nothing to give, and t does not own it: t may wait for it. */
  predicate MayWait(k: K, o: Oid, t: Tid) {
    match Object(k, o)
    case Gone => false
    case Sem(ctr) => ctr == 0
    case Queue(msgs, _) => msgs == []
    case FlagGrp(_) => true
    case Mutex(owner, _, _) => owner != None && owner != Some(t)
  }

  lemma EmptyByCount(q: seq<Tid>)
    requires forall x: Tid :: Count(q, x) == 0
    ensures q == []
  {
    if q != [] {
      CountPositive(q, 0);
    }
  }

  /** The pend list of o stays empty unless t enters it. */
  lemma StaysEmpty(k: K, t: Tid, k': K, o: Oid)
    requires WaitInv(k) && WaitInv(k') && Touches(k, t, k') && k'.wait.Keys == k.wait.Keys && o in k.wait
    requires k.wait[o] == [] && !Listed(Get(k', t).tbl, o)
    ensures k'.wait[o] == []
  {
    forall x: Tid ensures Count(k'.wait[o], x) == 0 {
      assert Count(k.wait[o], x) == if Listed(Get(k, x).tbl, o) then 1 else 0;
      assert Count(k'.wait[o], x) == if Listed(Get(k', x).tbl, o) then 1 else 0;
    }
    EmptyByCount(k'.wait[o]);
  }

  /** Who waits for o is in its pend list. */
  lemma ListedWaits(k: K, t: Tid, o: Oid)
    requires WaitInv(k) && Listed(Get(k, t).tbl, o)
    ensures o in k.wait && Count(k.wait[o], t) == 1 && k.wait[o] != []
  {
    assert o in k.wait;
    assert Count(k.wait[o], t) == if Listed(Get(k, t).tbl, o) then 1 else 0;
  }

  ghost predicate IsOwner(k: K, t: Tid) {
    exists o: Oid :: o in k.obj && k.obj[o].Mutex? && k.obj[o].owner == Some(t)
  }

  /** t enters only pend lists it may wait in. */
  ghost predicate EntersAllowed(k: K, t: Tid, b: Tcb) {
    forall o: Oid :: Listed(b.tbl, o) ==> Listed(Get(k, t).tbl, o) || MayWait(k, o, t)
  }

  lemma ObjStays(k: K, t: Tid, k': K)
    requires ListsInv(k) && Kept(k, t, k') && EntersAllowed(k, t, Get(k', t))
    requires Get(k', t).state != Deleted || !IsOwner(k, t)
    ensures ListsInv(k')
  {
    forall o: Oid | o in k'.obj ensures ObjOk(k', o, k'.obj[o]) {
      assert ObjOk(k, o, k.obj[o]);
      if k.wait[o] == [] && !Listed(Get(k', t).tbl, o) {
        StaysEmpty(k, t, k', o);
      } else if k.wait[o] == [] && Listed(Get(k, t).tbl, o) {
        ListedWaits(k, t, o);
      }
    }
  }

  /** What is said about the ready lists, the wheel and the TCBs does not depend on the objects. */
  lemma SameTasks(k: K, k': K)
    requires ReadyInv(k) && WheelInv(k) && TcbInv(k)
    requires k'.tcb == k.tcb && k'.rdy == k.rdy && k'.prios == k.prios && k'.wheel == k.wheel && k'.now == k.now
    ensures ReadyInv(k') && WheelInv(k') && TcbInv(k')
  {
    assert forall t: Tid :: Get(k', t) == Get(k, t);
    assert ReadyInv(k');
    assert WheelInv(k');
  }

  lemma SetObjListed(k: K, o: Oid, v: Obj, t: Tid, q: Oid)
    requires WaitInv(k) && o in k.obj && Listed(Get(k, t).tbl, q)
    requires Waiters(k, o) == [] || forall on: PendOn :: KindOk(on, k.obj[o]) ==> KindOk(on, v)
    ensures q in k.wait && KindOk(Get(k, t).pendOn, Object(SetObj(k, o, v), q))
  {
    ListedWaits(k, t, q);
    assert q in k.wait && KindOk(Get(k, t).pendOn, Object(k, q));
  }

  lemma SetObjWait(k: K, o: Oid, v: Obj)
    requires WaitInv(k) && o in k.obj
    requires Waiters(k, o) == [] || forall on: PendOn :: KindOk(on, k.obj[o]) ==> KindOk(on, v)
    requires k.obj[o].FlagGrp? ==> v.FlagGrp? || Waiters(k, o) == []
    ensures WaitInv(SetObj(k, o, v))
  {
    var k' := SetObj(k, o, v);
    assert forall t: Tid :: Get(k', t) == Get(k, t);
    forall t: Tid, q: Oid | Listed(Get(k', t).tbl, q)
      ensures q in k'.wait && KindOk(Get(k', t).pendOn, Object(k', q))
    {
      SetObjListed(k, o, v, t, q);
    }
    forall q: Oid | q in k'.wait && !Object(k', q).FlagGrp? ensures Sorted(k'.wait[q], PrioOrder(k'.tcb)) {
      assert q != o ==> Object(k', q) == Object(k, q);
    }
  }

  /** An object changes what it holds. */
  lemma SetObjKept(k: K, o: Oid, v: Obj)
    requires ListsInv(k) && o in k.obj && ObjOk(k, o, v)
    requires Waiters(k, o) == [] || forall on: PendOn :: KindOk(on, k.obj[o]) ==> KindOk(on, v)
    requires k.obj[o].FlagGrp? ==> v.FlagGrp? || Waiters(k, o) == []
    ensures ListsInv(SetObj(k, o, v))
  {
    var k' := SetObj(k, o, v);
    SameTasks(k, k');
    SetObjWait(k, o, v);
    forall q: Oid | q in k'.obj ensures ObjOk(k', q, k'.obj[q]) {
      assert q != o ==> ObjOk(k, q, k.obj[q]);
    }
  }

  // --------------------------------------------------------------------------------------- scheduler

  lemma {:induction false} FirstReadyIs(rdy: seq<seq<Tid>>, p: nat)
    requires p <= |rdy|
    ensures var f := FirstReady(rdy, p);
      p <= f <= |rdy| && (f < |rdy| ==> rdy[f] != []) && forall q: nat :: p <= q < f ==> rdy[q] == []
    decreases |rdy| - p
  {
    if p < |rdy| && rdy[p] == [] {
      FirstReadyIs(rdy, p + 1);
    }
  }

  lemma ReadyListed(k: K, t: Tid)
    requires ReadyInv(k) && TcbInv(k) && Get(k, t).state == RDY
    ensures Get(k, t).prio < |k.rdy| && Count(k.rdy[Get(k, t).prio], t) == 1 && k.rdy[Get(k, t).prio] != []
  {
    assert TcbOk(k.tcb[t], |k.rdy|, |k.wheel|, k.now);
  }

  /** What the scheduler needs: some task is ready, and the priority table names the non-empty ready lists. */
  ghost predicate PriosOk(k: K) {
    (exists p: nat :: p in k.prios) && forall p: nat :: p in k.prios <==> p < |k.rdy| && k.rdy[p] != []
  }

  lemma SoundPrios(k: K)
    requires CoreInv(k) && Get(k, k.idle).state == RDY
    ensures PriosOk(k)
  {
    hide WheelInv, WaitInv;
    ReadyListed(k, k.idle);
    assert Get(k, k.idle).prio in k.prios;
  }

  /** The scheduler finds the highest priority at which a task is ready, and the head of its list is ready. */
  lemma FirstReadyHead(k: K)
    requires ReadyInv(k) && TcbInv(k) && Get(k, k.idle).state == RDY
    ensures var p := FirstReady(k.rdy, 0);
      && p < |k.rdy| && k.rdy[p] != [] && p in k.prios
      && Get(k, k.rdy[p][0]).state == RDY && Get(k, k.rdy[p][0]).prio == p
      && forall t: Tid :: Get(k, t).state == RDY ==> p <= Get(k, t).prio
  {
    var p := FirstReady(k.rdy, 0);
    FirstReadyIs(k.rdy, 0);
    ReadyListed(k, k.idle);
    CountPositive(k.rdy[p], 0);
    var h := k.rdy[p][0];
    assert Count(k.rdy[p], h) == if RdyAt(Get(k, h)) == p then 1 else 0;
    forall t: Tid | Get(k, t).state == RDY ensures p <= Get(k, t).prio {
      ReadyListed(k, t);
    }
  }

  /** The states differ only in the scheduler's own variables. */
  predicate SameLists(k: K, k': K) {
    k'.tcb == k.tcb && k'.rdy == k.rdy && k'.prios == k.prios && k'.wheel == k.wheel && k'.wait == k.wait
    && k'.obj == k.obj && k'.now == k.now
  }

  lemma SameCoreInv(k: K, k': K)
    requires CoreInv(k) && SameLists(k, k')
    ensures CoreInv(k')
  {
    hide ReadyInv, WheelInv, WaitInv, TcbInv;
    SameTasks(k, k');
    SameWaitInv(k, k');
  }

  lemma SameWaitInv(k: K, k': K)
    requires WaitInv(k) && k'.tcb == k.tcb && k'.wait == k.wait && k'.obj == k.obj
    ensures WaitInv(k')
  {
    hide Sorted, Listed, KindOk;
    assert forall t: Tid :: Get(k', t) == Get(k, t);
    assert forall o: Oid :: Object(k', o) == Object(k, o);
  }

  lemma SameListsInv(k: K, k': K)
    requires ListsInv(k) && SameLists(k, k')
    ensures ListsInv(k')
  {
    SameCoreInv(k, k');
    forall o: Oid | o in k'.obj ensures ObjOk(k', o, k'.obj[o]) {
      assert ObjOk(k, o, k.obj[o]);
    }
  }

  /** After an unlocked scheduling the current task is the head of the highest ready list; the lists are untouched. */
  lemma SchedPicksHighest(k: K)
    requires ListsInv(k) && Get(k, k.idle).state == RDY
    requires k.lock == 0 || Get(k, k.cur).state == RDY
    ensures Inv(Sched(k))
    ensures k.lock == 0 ==> var k' := Sched(k); var p := Get(k', k'.cur).prio;
      && p < |k'.rdy| && k'.rdy[p] != [] && k'.rdy[p][0] == k'.cur
      && forall t: Tid :: Get(k', t).state == RDY ==> p <= Get(k', t).prio
    ensures Sched(k).tcb == k.tcb && Sched(k).rdy == k.rdy && Sched(k).wheel == k.wheel && Sched(k).wait == k.wait
      && Sched(k).obj == k.obj
  {
    FirstReadyHead(k);
    SameListsInv(k, Sched(k));
    assert forall t: Tid :: Get(Sched(k), t) == Get(k, t);
    assert k.lock == 0 ==> Sched(k).cur == k.rdy[FirstReady(k.rdy, 0)][0];
  }
}
