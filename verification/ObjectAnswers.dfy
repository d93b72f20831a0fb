/** What the services that make, set, abort and delete objects answer, and what they do. */
module ObjectAnswers {
  import opened KernelState
  import opened KernelOps
  import opened Services
  import opened ObjectsKept
  import opened SingleFlags
  import opened Departures
  import opened Run
  import opened Broadcast
  import opened ReadyOrder
  import opened PostAnswers
  import opened MutexAnswers

  /** The create services: the object is there as given, and nobody waits for it. */
  lemma CreateAnswers(k: K, o: Oid, v: Obj)
    ensures Call(k, OpCreate(o, v)) == R(k.(obj := k.obj[o := v], wait := k.wait[o := []]), ErrNone)
  {
  }

  /** OSSemDel, OSQDel and OSFlagDel. A deletion is refused if tasks wait and the option does not say to delete always;
      afterwards the object does not exist and nobody waits for it. */
  lemma ObjDelAnswers(k: K, o: Oid, always: bool)
    requires Inv(k)
    ensures var r := Call(k, OpObjDel(o, always)); var v := Object(k, o); var refused := Waiters(k, o) != [] && !always;
      && (v.Gone? || v.Mutex? ==> r == R(k, ErrObjType))
      && (!v.Gone? && !v.Mutex? && refused ==> r == R(k, ErrTaskWaiting))
      && (!v.Gone? && !v.Mutex? && !refused ==>
        && r.err == ErrNone && Object(r.k, o) == Gone && Waiters(r.k, o) == [] && GetReady(k, Waiters(k, o), r.k)
        && (Waiters(k, o) == [] ==> r.k.tcb == k.tcb && r.k.obj == k.obj[o := Gone] && r.k.wait == k.wait))
  {
    hide CoreInv, ObjInv, CurOk, WakeAll, Sched, GetReady;
    var v, w := Object(k, o), Waiters(k, o);
    if !v.Gone? && !v.Mutex? && (always || w == []) {
      ObjDelInv(k, o, always);
      DeletedGone(k, o, always);
      DeletedReady(k, o, always);
      GoneEmpty(ObjDel(k, o, always).k, o);
    }
  }

  lemma DeletedGone(k: K, o: Oid, always: bool)
    requires !Object(k, o).Gone? && !Object(k, o).Mutex? && (always || Waiters(k, o) == [])
    ensures var k' := ObjDel(k, o, always).k;
      && Object(k', o) == Gone
      && (Waiters(k, o) == [] ==> k'.tcb == k.tcb && k'.obj == k.obj[o := Gone] && k'.wait == k.wait)
  {
    hide Sched;
    var k1 := WakeAll(k, Waiters(k, o), ObjDeleted(Some(o)));
    SchedKeepsTcbs(SetObj(k1, o, Gone), false);
  }

  lemma DeletedReady(k: K, o: Oid, always: bool)
    requires Inv(k) && !Object(k, o).Gone? && !Object(k, o).Mutex? && (always || Waiters(k, o) == [])
    ensures GetReady(k, Waiters(k, o), ObjDel(k, o, always).k)
  {
    hide CoreInv, ObjInv, CurOk, WakeAll, Sched, GetReady;
    var w := Waiters(k, o);
    if always {
      var k1 := WakeAll(k, w, ObjDeleted(Some(o)));
      WaitersPend(k, o);
      WakeAllReadies(k, w, ObjDeleted(Some(o)));
      SchedKeepsTcbs(SetObj(k1, o, Gone), false);
      SameGetReady(k, w, k1, ObjDel(k, o, always).k);
    } else {
      NoneReady(k);
      SameGetReady(k, w, k, ObjDel(k, o, always).k);
    }
  }

  /** OSSemSet. */
  lemma SemSetAnswers(k: K, o: Oid, cnt: SemCtr)
    requires Inv(k)
    ensures var r := Call(k, OpSemSet(o, cnt)); var v := Object(k, o);
      && (!v.Sem? ==> r == R(k, ErrObjType))
      && (v.Sem? && Waiters(k, o) != [] ==> r == R(k, ErrTaskWaiting))
      && (v.Sem? && Waiters(k, o) == [] ==> r == R(k.(obj := k.obj[o := Sem(cnt)]), ErrNone))
  {
    hide CoreInv, CurOk;
    ObjOkOf(k, o);
  }

  /** OSQFlush. */
  lemma QFlushAnswers(k: K, o: Oid)
    ensures var r := Call(k, OpQFlush(o)); var v := Object(k, o);
      && (!v.Queue? ==> r == R(k, ErrObjType))
      && (v.Queue? ==> r == R(k.(obj := k.obj[o := Queue([], v.max)]), ErrNone))
  {
  }

  /** The abort services. All waiters are aborted only if the option asks for that and not also to leave the scheduler
      out; the object keeps what it holds. */
  lemma PendAbortAnswers(k: K, o: Oid, all: bool, noSched: bool)
    requires Inv(k)
    ensures var r := Call(k, OpPendAbort(o, all, noSched)); var v := Object(k, o);
      && (v.Gone? ==> r == R(k, ErrObjType))
      && (!v.Gone? && Waiters(k, o) == [] ==> r == R(k, ErrAbortNone))
      && (!v.Gone? && Waiters(k, o) != [] ==> WakesSome(k, o, all && !noSched, r))
  {
    hide Inv, WakeAll, MaybeSched, WakesSome;
    if Waiters(k, o) != [] {
      WakingWakes(k, o, all && !noSched, Aborted(Some(o)), noSched);
    }
  }

  /** The end of OSFlagPend in a task that was woken: the flags it was given are turned to what it did not wait for, and
      no other. */
  lemma FlagConsumeAnswers(k: K, o: Oid)
    ensures var r := Call(k, OpFlagConsume(o)); var v, v' := Object(k, o), Object(r.k, o); var b := Get(k, k.cur);
      && (!v.FlagGrp? ==> r == R(k, ErrObjType))
      && (v.FlagGrp? ==> r == R(k.(obj := k.obj[o := v']), ErrNone) && v'.FlagGrp?)
      && (v.FlagGrp? && v'.FlagGrp? ==>
        forall m: Flags :: OneBit(m) ==>
          (Has(v'.flags, m) <==> if Has(b.flagsRdy, m) then !Sets(b.flagsMode) else Has(v.flags, m)))
  {
    hide FlagConsumed, Has, OneBit;
    var b := Get(k, k.cur);
    if Object(k, o).FlagGrp? {
      var flags := Object(k, o).flags;
      forall m: Flags | OneBit(m) ensures Has(FlagConsumed(b.flagsMode, flags, b.flagsRdy), m) <==>
        if Has(b.flagsRdy, m) then !Sets(b.flagsMode) else Has(flags, m)
      {
        ConsumedMeans(b.flagsMode, flags, b.flagsRdy, m);
      }
    }
  }
}
