/** What a pend gets after any run. The next pend for a semaphore succeeds exactly if more signals were accepted than were
    obtained; the next pend for a queue gets the message that follows those received so far in the stream of those sent;
    and a signal is refused exactly if 0xFFFFFFFF are there to be obtained.
  */
module Delivery {
  import opened TaskLists
  import opened KernelState
  import opened Services
  import opened Run
  import opened Conservation
  import opened Delays
  import opened TaskSignals
  import opened FallingAsleep
  import opened PendAnswers
  import opened PostAnswers

  /** The signals in o after the run: those at first and those accepted, less those obtained. */
  function Left(k: K, ops: seq<Op>, o: Oid): int {
    Units(Object(k, o)) + TotalSignalled(k, ops, o) - TotalObtained(k, ops, o)
  }

  /** Semaphores, over every run that does not set the count or delete o. */
  lemma NextSignal(k: K, ops: seq<Op>, o: Oid, timeout: Tick, nonBlocking: bool)
    requires Inv(k) && Proper(k, ops) && Object(k, o).Sem? && forall op: Op :: op in ops ==> !Resets(op, o)
    ensures var k1 := After(k, ops); var n := Left(k, ops, o);
      && 0 <= n <= 0xFFFF_FFFF
      && (Call(k1, OpSemPend(o, timeout, nonBlocking)).err == ErrNone <==> n > 0)
      && forall all: bool, noSched: bool ::
        Call(k1, OpSemPost(o, all, noSched)).err == ErrSemOvf <==> n == 0xFFFF_FFFF
  {
    hide Inv, Proper, Call, Resets, After, TotalSignalled, TotalObtained, StartsWaiting, WakesSome;
    var k1 := After(k, ops);
    SignalsConserved(k, ops, o);
    InvariantOverRuns(k, ops);
    SemPendAnswers(k1, o, timeout, nonBlocking);
    SemHoldsNone(k1, o);
    forall all: bool, noSched: bool
      ensures Call(k1, OpSemPost(o, all, noSched)).err == ErrSemOvf <==> Left(k, ops, o) == 0xFFFF_FFFF
    {
      SemPostAnswers(k1, o, all, noSched);
      WakesNoError(k1, o, all, Call(k1, OpSemPost(o, all, noSched)));
    }
  }

  lemma WakesNoError(k: K, o: Oid, all: bool, r: R)
    ensures WakesSome(k, o, all, r) ==> r.err == ErrNone
  {
  }

  lemma SemHoldsNone(k: K, o: Oid)
    requires Inv(k) && Object(k, o).Sem?
    ensures Waiters(k, o) != [] ==> Object(k, o).ctr == 0
  {
    hide CoreInv, CurOk;
    assert ObjOk(k, o, k.obj[o]);
  }

  /** The stream of messages of o: those queued at first, then those sent. */
  function Stream(k: K, ops: seq<Op>, o: Oid): seq<Msg> {
    Messages(Object(k, o)) + AllSent(k, ops, o)
  }

  /** Queues, over every run that posts at the tail and does not flush or delete o: the n-th message received was the n-th
      of the stream, and the next pend takes the next one. */
  lemma NextMessage(k: K, ops: seq<Op>, o: Oid, timeout: Tick, nonBlocking: bool)
    requires Inv(k) && Proper(k, ops) && Object(k, o).Queue?
    requires forall op: Op :: op in ops ==> !Resets(op, o) && AtTail(op, o)
    ensures var k1 := After(k, ops); var s := Stream(k, ops, o); var n := |AllReceived(k, ops, o)|;
      var r := Call(k1, OpQPend(o, timeout, nonBlocking));
      && n <= |s| && AllReceived(k, ops, o) == s[..n]
      && (r.err == ErrNone <==> n < |s|)
      && (n < |s| ==> Object(k1, o).Queue? && Object(k1, o).msgs == [s[n]] + Messages(Object(r.k, o)))
  {
    hide Inv, Proper, Call, Resets, AtTail, After, AllSent, AllReceived, StartsWaiting;
    var k1 := After(k, ops);
    MessagesInOrder(k, ops, o);
    InvariantOverRuns(k, ops);
    QPendAnswers(k1, o, timeout, nonBlocking);
    var s, n := Stream(k, ops, o), |AllReceived(k, ops, o)|;
    assert AllReceived(k, ops, o) + Object(k1, o).msgs == s;
    assert s[..n] == AllReceived(k, ops, o) && s[n..] == Object(k1, o).msgs;
  }

  /** A task's own signals. */
  lemma NextTaskSignal(k: K, ops: seq<Op>, t: Tid, timeout: Tick, nonBlocking: bool)
    requires Inv(k) && Proper(k, ops) && forall op: Op :: op in ops ==> Spares(op, t)
    ensures var k1 := After(k, ops); var n := Get(k, t).semCtr + SignalsTo(k, ops, t) - SignalsTaken(k, ops, t);
      && 0 <= n <= 0xFFFF_FFFF
      && (k1.cur == t ==> (Call(k1, OpTaskSemPend(timeout, nonBlocking)).err == ErrNone <==> n > 0))
      && (Get(k1, t).state.Live? ==> forall noSched: bool ::
        Call(k1, OpTaskSemPost(t, noSched)).err == ErrSemOvf <==> n == 0xFFFF_FFFF)
  {
    hide Inv, Proper, Call, Spares, After, SignalsTo, SignalsTaken, StartsWaiting;
    var k1 := After(k, ops);
    TaskSignalsConserved(k, ops, t);
    InvariantOverRuns(k, ops);
    TaskSemPendAnswers(k1, timeout, nonBlocking);
    NoneWhileWaiting(k1, t);
    forall noSched: bool | Get(k1, t).state.Live?
      ensures Call(k1, OpTaskSemPost(t, noSched)).err == ErrSemOvf <==> Get(k1, t).semCtr == 0xFFFF_FFFF
    {
      TaskSemPostAnswers(k1, t, noSched);
    }
  }

  lemma NoneWhileWaiting(k: K, t: Tid)
    requires Inv(k)
    ensures Get(k, t).pendOn == OnTaskSem ==> Get(k, t).semCtr == 0
  {
    hide Inv;
    if Get(k, t).pendOn == OnTaskSem {
      OwnWaiter(k, t, OnTaskSem);
    }
  }

  /** A task's own messages: the n-th it received was the n-th sent to it, and its next pend takes the next one. */
  lemma NextTaskMessage(k: K, ops: seq<Op>, t: Tid, timeout: Tick, nonBlocking: bool)
    requires Inv(k) && Proper(k, ops) && forall op: Op :: op in ops ==> Spares(op, t) && ToTail(op, t)
    ensures var k1 := After(k, ops); var s := Get(k, t).taskQ + MsgsTo(k, ops, t); var n := |MsgsTaken(k, ops, t)|;
      var r := Call(k1, OpTaskQPend(timeout, nonBlocking));
      && n <= |s| && MsgsTaken(k, ops, t) == s[..n]
      && (k1.cur == t ==> (r.err == ErrNone <==> n < |s|))
      && (k1.cur == t && n < |s| ==> Get(k1, t).taskQ == [s[n]] + Get(r.k, t).taskQ)
  {
    hide Inv, Proper, Call, Spares, ToTail, After, MsgsTo, MsgsTaken, StartsWaiting;
    var k1 := After(k, ops);
    TaskMessagesInOrder(k, ops, t);
    InvariantOverRuns(k, ops);
    TaskQPendAnswers(k1, timeout, nonBlocking);
    var s, n := Get(k, t).taskQ + MsgsTo(k, ops, t), |MsgsTaken(k, ops, t)|;
    assert MsgsTaken(k, ops, t) + Get(k1, t).taskQ == s;
    assert s[..n] == MsgsTaken(k, ops, t) && s[n..] == Get(k1, t).taskQ;
  }
}
