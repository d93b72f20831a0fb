/** Pending on several objects. A call that finds something takes one unit from each object that has one and does not
    block; a call that blocked is woken by one object, which alone is marked, and the task is off every list.
  */
module MultiPends {
  import opened TaskLists
  import opened KernelState
  import opened KernelOps
  import opened CoreKept
  import opened ObjKept
  import opened WakeMany
  import opened Services
  import opened FlagsMultiKept
  import opened Departures
  import opened Run
  import opened FallingAsleep
  import opened PendAnswers
  import opened WaitAnswers
  import opened Conservation
  import opened Grants

  /** How many entries are marked as ready. */
  function Marks(tbl: seq<PendData>): nat {
    if tbl == [] then 0 else (if tbl[0].rdy then 1 else 0) + Marks(tbl[1..])
  }

  /** The object with one unit less. */
  function OneLess(v: Obj): Obj {
    match v
    case Sem(ctr) => if ctr > 0 then Sem(ctr - 1) else v
    case Queue(msgs, max) => if msgs != [] then Queue(msgs[1..], max) else v
    case _ => v
  }

  function ObjOf(obj: map<Oid, Obj>, o: Oid): Obj {
    if o in obj then obj[o] else Gone
  }

  /** For distinct objects, each ready one gives exactly one unit and has its entry marked; the others are untouched. */
  lemma {:induction false} TakesOneFromEach(obj: map<Oid, Obj>, tbl: seq<PendData>, o: Oid)
    requires Distinct(tbl)
    ensures var (obj', got, n) := TakeReady(obj, tbl);
      && ObjOf(obj', o) == (if Listed(tbl, o) then OneLess(ObjOf(obj, o)) else ObjOf(obj, o))
      && Marked(got, o) == (if Listed(tbl, o) && HasUnit(ObjOf(obj, o)) then 1 else 0)
      && |got| == |tbl| && n == Marks(got) && (forall i: nat :: i < |tbl| ==> got[i].obj == tbl[i].obj)
    decreases |tbl|
  {
    if tbl != [] {
      var x := tbl[0].obj;
      var v := ObjOf(obj, x);
      var obj1 := if HasUnit(v) then obj[x := OneLess(v)] else obj;
      var (obj', got, n) := TakeReady(obj, tbl);
      TakesOneFromEach(obj1, tbl[1..], o);
      assert got[1..] == TakeReady(obj1, tbl[1..]).1;
      forall i: nat | i < |tbl| ensures got[i].obj == tbl[i].obj {
        assert i > 0 ==> got[i] == got[1..][i - 1] && tbl[i] == tbl[1..][i - 1];
      }
    }
  }

  /** The marks are there exactly when some object had something. */
  lemma {:induction false} SomeReady(obj: map<Oid, Obj>, tbl: seq<PendData>)
    ensures TakeReady(obj, tbl).2 > 0 <==> exists o: Oid :: Listed(tbl, o) && HasUnit(ObjOf(obj, o))
    decreases |tbl|
  {
    if tbl != [] {
      var x := tbl[0].obj;
      var v := ObjOf(obj, x);
      if HasUnit(v) {
        assert Listed(tbl, x) && HasUnit(ObjOf(obj, x));
      } else {
        SomeReady(obj, tbl[1..]);
        assert forall o: Oid :: Listed(tbl, o) <==> o == x || Listed(tbl[1..], o);
      }
    }
  }

  /** A multi-pend on distinct objects returns at once exactly when one of them has something; it then has taken one
      unit from each that had, and nothing else of the kernel's state has changed but the caller's table. */
  lemma MultiPendTakes(k: K, tbl: seq<PendData>, timeout: Tick, nonBlocking: bool)
    requires tbl != [] && MultiValid(k, tbl) && Distinct(tbl)
    ensures var r := MultiPend(k, tbl, timeout, nonBlocking);
      && (r.err == ErrNone <==> exists o: Oid :: Listed(tbl, o) && HasUnit(Object(k, o)))
      && (r.err == ErrNone ==> forall o: Oid ::
        && Object(r.k, o) == (if Listed(tbl, o) then OneLess(Object(k, o)) else Object(k, o))
        && Marked(Get(r.k, k.cur).got, o) == if Listed(tbl, o) && HasUnit(Object(k, o)) then 1 else 0)
      && (r.err == ErrNone ==> r.k == Put(k, k.cur, Get(k, k.cur).(got := Get(r.k, k.cur).got)).(obj := r.k.obj))
  {
    hide BlockCur, TakeReady, HasUnit, OneLess, Listed;
    SomeReady(k.obj, tbl);
    assert forall o: Oid :: ObjOf(k.obj, o) == Object(k, o);
    forall o: Oid ensures
      && ObjOf(TakeReady(k.obj, tbl).0, o) == (if Listed(tbl, o) then OneLess(Object(k, o)) else Object(k, o))
      && Marked(TakeReady(k.obj, tbl).1, o) == if Listed(tbl, o) && HasUnit(Object(k, o)) then 1 else 0
    {
      TakesOneFromEach(k.obj, tbl, o);
    }
    BlockCurErr(k, OnMulti, TakeReady(k.obj, tbl).1, timeout, nonBlocking);
  }

  /** What the caller finds in the table for an object: marked if it had something, and with a queue's first message. */
  function GotFrom(v: Obj, o: Oid): PendData {
    match v
    case Sem(ctr) => PendData(o, ctr > 0, Msg(0, 0))
    case Queue(msgs, _) => if msgs == [] then PendData(o, false, Msg(0, 0)) else PendData(o, true, msgs[0])
    case _ => PendData(o, false, Msg(0, 0))
  }

  ghost predicate FindsReady(k: K, tbl: seq<PendData>, got: seq<PendData>) {
    |got| == |tbl| && forall i: nat :: i < |tbl| ==> got[i] == GotFrom(Object(k, tbl[i].obj), tbl[i].obj)
  }

  lemma {:induction false} GotIs(obj: map<Oid, Obj>, tbl: seq<PendData>, i: nat)
    requires Distinct(tbl) && i < |tbl|
    ensures var got := TakeReady(obj, tbl).1; |got| == |tbl| && got[i] == GotFrom(ObjOf(obj, tbl[i].obj), tbl[i].obj)
    decreases |tbl|
  {
    var x := tbl[0].obj;
    var obj1 := if HasUnit(ObjOf(obj, x)) then obj[x := OneLess(ObjOf(obj, x))] else obj;
    var got := TakeReady(obj, tbl).1;
    assert got == [GotFrom(ObjOf(obj, x), x)] + TakeReady(obj1, tbl[1..]).1;
    TakenLength(obj1, tbl[1..]);
    if i > 0 {
      AtListed(tbl[1..], i - 1);
      GotIs(obj1, tbl[1..], i - 1);
    }
  }

  lemma {:induction false} TakenLength(obj: map<Oid, Obj>, tbl: seq<PendData>)
    ensures |TakeReady(obj, tbl).1| == |tbl|
    decreases |tbl|
  {
    if tbl != [] {
      var x := tbl[0].obj;
      TakenLength(if HasUnit(ObjOf(obj, x)) then obj[x := OneLess(ObjOf(obj, x))] else obj, tbl[1..]);
    }
  }

  lemma {:induction false} ValidIs(k: K, tbl: seq<PendData>)
    ensures MultiValid(k, tbl) <==> forall o: Oid :: Listed(tbl, o) ==> Object(k, o).Sem? || Object(k, o).Queue?
  {
    if tbl != [] {
      ValidIs(k, tbl[1..]);
      assert Listed(tbl, tbl[0].obj);
      assert forall o: Oid :: Listed(tbl, o) <==> o == tbl[0].obj || Listed(tbl[1..], o);
    }
  }

  /** The table with its marks cleared. */
  function Cleared(tbl: seq<PendData>): seq<PendData> {
    seq(|tbl|, i requires 0 <= i < |tbl| => PendData(tbl[i].obj, false, Msg(0, 0)))
  }

  /** Some object in the table is not of a kind that can be waited for together with others. */
  ghost predicate WrongKind(k: K, tbl: seq<PendData>) {
    exists o: Oid :: Listed(tbl, o) && !Object(k, o).Sem? && !Object(k, o).Queue?
  }

  ghost predicate SomethingThere(k: K, tbl: seq<PendData>) {
    exists o: Oid :: Listed(tbl, o) && HasUnit(Object(k, o))
  }

  /** OSPendMulti: it takes what there is, or waits for all the objects. */
  lemma MultiPendAnswers(k: K, tbl: seq<PendData>, timeout: Tick, nonBlocking: bool)
    requires Inv(k) && Distinct(tbl)
    ensures var r := Call(k, OpMultiPend(tbl, timeout, nonBlocking));
      && (tbl == [] ==> r == R(k, ErrPtrInvalid))
      && (tbl != [] && WrongKind(k, tbl) ==> r == R(k, ErrObjType))
      && (tbl != [] && !WrongKind(k, tbl) ==> AnswersPend(k, SomethingThere(k, tbl), nonBlocking, r))
      && (r.err == ErrNone ==> FindsReady(k, tbl, Get(r.k, k.cur).got))
      && (r.err == Blocked ==> StartsWaiting(k, Get(k, k.cur), OnMulti, Cleared(tbl), timeout, r.k))
  {
    hide Inv, BlockCur, TakeReady, HasUnit, Listed, Distinct, StartsWaiting;
    var got := TakeReady(k.obj, tbl).1;
    ValidIs(k, tbl);
    SomeReady(k.obj, tbl);
    assert forall o: Oid :: ObjOf(k.obj, o) == Object(k, o);
    TakenLength(k.obj, tbl);
    forall i: nat | i < |tbl| ensures got[i] == GotFrom(Object(k, tbl[i].obj), tbl[i].obj) {
      GotIs(k.obj, tbl, i);
    }
    if TakeReady(k.obj, tbl).2 == 0 {
      NothingReady(k, tbl);
      ClearedIs(k, tbl, got);
      BlockAnswers(k, OnMulti, got, timeout, nonBlocking);
    } else {
      BlockCurErr(k, OnMulti, got, timeout, nonBlocking);
    }
  }

  lemma ClearedIs(k: K, tbl: seq<PendData>, got: seq<PendData>)
    requires FindsReady(k, tbl, got) && forall o: Oid :: Listed(tbl, o) ==> !HasUnit(Object(k, o))
    ensures got == Cleared(tbl)
  {
    forall i: nat | i < |tbl| ensures got[i] == Cleared(tbl)[i] {
      AtListed(tbl, i);
    }
  }

  // ------------------------------------------------------------------------------------------ woken

  lemma {:induction false} MarkOne(tbl: seq<PendData>, o: Oid, m: Option<Msg>)
    requires Unmarked(tbl) && Listed(tbl, o)
    ensures Marks(Mark(tbl, o, m)) == 1 && Marked(Mark(tbl, o, m), o) == 1
    ensures |Mark(tbl, o, m)| == |tbl|
  {
    var r := Mark(tbl, o, m);
    if tbl[0].obj == o {
      assert r[1..] == tbl[1..];
      NoneMarked(tbl[1..]);
      UnmarkedNone(tbl[1..], o);
    } else {
      assert r[1..] == Mark(tbl[1..], o, m);
      MarkOne(tbl[1..], o, m);
    }
  }

  lemma {:induction false} NoneMarked(tbl: seq<PendData>)
    requires Unmarked(tbl)
    ensures Marks(tbl) == 0
  {
    if tbl != [] {
      NoneMarked(tbl[1..]);
    }
  }

  /** The object that ended the wait: the one posted to, aborted or deleted. */
  function Trigger(ev: Event): Option<Oid> {
    match ev
    case Posted(o, _) => o
    case Aborted(o) => o
    case ObjDeleted(o) => o
    case _ => None
  }

  /** A task that waited for several objects and is woken finds exactly one entry marked, that of the object which woke
      it, or none after a timeout; and it is on no pend list any more. */
  lemma WokenByOne(k: K, t: Tid, ev: Event)
    requires ListsInv(k) && Get(k, t).pendOn == OnMulti && !ev.DelayOver?
    requires Trigger(ev).Some? ==> Listed(Get(k, t).tbl, Trigger(ev).value)
    ensures var b := Get(Wake(k, t, ev), t);
      && b.pendOn == OnNothing && b.tbl == [] && |b.got| == |Get(k, t).tbl|
      && Marks(b.got) == (if Trigger(ev).Some? then 1 else 0)
      && (Trigger(ev).Some? ==> Marked(b.got, Trigger(ev).value) == 1)
    ensures forall o: Oid :: o in k.wait ==> o in Wake(k, t, ev).wait && Count(Wake(k, t, ev).wait[o], t) == 0
  {
    hide ReadyInv, WheelInv, WaitInv, ObjInv, Mark;
    TcbOkOf(k, t);
    WakeShape(k, t, ev);
    WakeListsInv(k, t, ev);
    var b := Get(k, t);
    NoneMarked(b.tbl);
    match ev {
      case Posted(Some(o), m) => MarkOne(b.tbl, o, Some(m));
      case Aborted(Some(o)) => MarkOne(b.tbl, o, None);
      case ObjDeleted(Some(o)) => MarkOne(b.tbl, o, None);
      case _ =>
    }
    forall o: Oid | o in k.wait ensures o in Wake(k, t, ev).wait && Count(Wake(k, t, ev).wait[o], t) == 0 {
      OffTheList(Wake(k, t, ev), t, o);
    }
  }

  lemma OffTheList(k: K, t: Tid, o: Oid)
    requires ListsInv(k) && Get(k, t).tbl == [] && o in k.wait
    ensures Count(k.wait[o], t) == 0
  {
    InList(k, o, t);
  }
}
