/** A spoke of the tick wheel, pointer by pointer (OS_TICK_SPOKE and the tick links of OS_TCB). Unlike the other lists it
    has no tail pointer, and the walk of OS_TickListInsert refreshes the ticks remaining of the tasks it passes.
  */
module TickSpokes {
  import opened TaskLists
  import ListScans

  class Timer {
    const tid: Tid
    var due: Tick
    var remain: Tick
    var next: Timer?
    var prev: Timer?

    constructor (t: Tid, d: Tick)
      ensures tid == t && due == d && next == null && prev == null
    {
      tid, due, remain, next, prev := t, d, 0, null, null;
    }
  }

  class Spoke {
    var first: Timer?
    var nbrEntries: nat
    ghost var timers: seq<Timer>

    ghost predicate Valid()
      reads this, timers
    {
      && nbrEntries == |timers| && first == At(timers, 0) && Distinct(timers)
      && forall i: nat :: i < |timers| ==> LinkedAt(timers, i)
    }

    constructor ()
      ensures Valid() && timers == []
    {
      first, nbrEntries, timers := null, 0, [];
    }

    /** The linking part of OS_TickListInsert, once the match time of p is known. */
    method Insert(p: Timer, now: Tick, ghost ord: Order)
      requires Valid() && p !in timers && !ord.fifo
      requires ord.Key(p.tid) == Sub32(p.due, now) && Keyed(timers, ord, now)
      modifies this, p, timers
      ensures Valid() && Ids(timers) == TaskLists.Insert(old(Ids(timers)), p.tid, ord)
      ensures p.due == old(p.due) && forall q: Timer :: q in old(timers) ==> q.due == old(q.due)
    {
      p.remain := Sub32(p.due, now);
      if nbrEntries == 0 {
        p.next := null;
        p.prev := null;
        first := p;
        nbrEntries := 1;
        timers := [p];
        assert LinkedAt(timers, 0);
      } else {
        InsertInto(p, p.remain, now, ord);
      }
    }

    method InsertInto(p: Timer, remain: Tick, now: Tick, ghost ord: Order)
      requires Valid() && p !in timers && !ord.fifo && timers != []
      requires ord.Key(p.tid) == remain && Keyed(timers, ord, now)
      modifies this, p, timers
      ensures Valid() && Ids(timers) == TaskLists.Insert(old(Ids(timers)), p.tid, ord)
      ensures p.due == old(p.due) && forall q: Timer :: q in old(timers) ==> q.due == old(q.due)
    {
      hide Ids, TaskLists.Insert, LinkedAt, Distinct, At;
      var t1, atEnd, i := FindPlace(remain, now);
      PlaceIs(timers, p, ord, now, i);
      if atEnd {
        LinkAfter(p, t1);
      } else {
        LinkBefore(p, t1, i);
      }
    }

    /** The walk of OS_TickListInsert: t1 is the first task that has no fewer ticks remaining, or the last task of the
        spoke if all have fewer. */
    method FindPlace(remain: Tick, now: Tick) returns (t1: Timer, atEnd: bool, ghost i: nat)
      requires Valid() && timers != []
      modifies timers
      ensures Valid() && forall q: Timer :: q in timers ==> q.due == old(q.due)
      ensures forall j: nat :: j < i <= |timers| ==> Sub32(timers[j].due, now) < remain
      ensures if atEnd then i == |timers| && t1 == timers[|timers| - 1]
        else i < |timers| && t1 == timers[i] && remain <= Sub32(t1.due, now)
    {
      t1, atEnd, i := first, false, 0;
      while true
        invariant i < |timers| && t1 == timers[i] && Valid()
        invariant forall q: Timer :: q in timers ==> q.due == old(q.due)
        invariant forall j: nat :: j < i ==> Sub32(timers[j].due, now) < remain
        decreases |timers| - i
      {
        Refresh(t1, now);
        assert LinkedAt(timers, i);
        if remain > t1.remain {
          if t1.next != null {
            t1 := t1.next;
            i := i + 1;
          } else {
            atEnd := true;
            i := i + 1;
            return;
          }
        } else {
          return;
        }
      }
    }

    /** The ticks that a task in the spoke still has to wait are recomputed; nothing else changes. */
    method Refresh(t1: Timer, now: Tick)
      requires Valid() && t1 in timers
      modifies t1`remain
      ensures Valid() && t1.remain == Sub32(t1.due, now)
    {
      ghost var was := timers;
      t1.remain := Sub32(t1.due, now);
      forall j: nat | j < |timers| ensures LinkedAt(timers, j) {
        assert old(LinkedAt(was, j));
      }
    }

    /** The new timer goes behind the last one. */
    method LinkAfter(p: Timer, last: Timer)
      requires Valid() && p !in timers && timers != [] && last == timers[|timers| - 1]
      modifies this, p, timers
      ensures Valid() && timers == old(timers)[..|old(timers)|] + [p] + old(timers)[|old(timers)|..]
      ensures p.due == old(p.due) && forall q: Timer :: q in old(timers) ==> q.due == old(q.due)
    {
      ghost var was := timers;
      p.next := null;
      p.prev := last;
      last.next := p;
      nbrEntries := nbrEntries + 1;
      timers := was[..|was|] + [p] + was[|was|..];
      forall j: nat | j < |timers| ensures LinkedAt(timers, j) {
        assert j < |was| ==> old(LinkedAt(was, j)) && timers[j] == was[j];
      }
    }

    method LinkBefore(p: Timer, t1: Timer, ghost i: nat)
      requires Valid() && p !in timers && i < |timers| && t1 == timers[i]
      modifies this, p, timers
      ensures Valid() && timers == old(timers)[..i] + [p] + old(timers)[i..]
      ensures p.due == old(p.due) && forall q: Timer :: q in old(timers) ==> q.due == old(q.due)
    {
      ghost var was := timers;
      assert LinkedAt(was, i);
      if t1.prev == null {
        p.prev := null;
        p.next := t1;
        t1.prev := p;
        first := p;
      } else {
        var t0 := t1.prev;
        p.prev := t0;
        p.next := t1;
        t0.next := p;
        t1.prev := p;
      }
      nbrEntries := nbrEntries + 1;
      timers := was[..i] + [p] + was[i..];
      forall j: nat | j < |timers| ensures LinkedAt(timers, j) {
        if j < i {
          assert old(LinkedAt(was, j)) && timers[j] == was[j];
        } else if j > i {
          assert old(LinkedAt(was, j - 1)) && timers[j] == was[j - 1];
        }
      }
    }

    /** OS_TickListRemove for a task that is in the spoke. */
    method Remove(p: Timer, ghost i: nat)
      requires Valid() && i < |timers| && timers[i] == p
      modifies this, timers
      ensures Valid() && timers == old(timers)[..i] + old(timers)[i + 1..]
      ensures p.next == null && p.prev == null && p.due == 0 && p.remain == 0
    {
      ghost var was := timers;
      assert LinkedAt(was, i) && (i > 0 ==> LinkedAt(was, i - 1)) && (i + 1 < |was| ==> LinkedAt(was, i + 1));
      p.remain := 0;
      if first == p {
        var next := p.next;
        first := next;
        if next != null {
          next.prev := null;
        }
      } else {
        var prev := p.prev;
        var next := p.next;
        prev.next := next;
        if next != null {
          next.prev := prev;
        }
      }
      p.next := null;
      p.prev := null;
      p.due := 0;
      nbrEntries := nbrEntries - 1;
      timers := was[..i] + was[i + 1..];
      forall j: nat | j < |timers| ensures LinkedAt(timers, j) {
        if j < i {
          assert old(LinkedAt(was, j)) && timers[j] == was[j];
        } else {
          assert old(LinkedAt(was, j + 1)) && timers[j] == was[j + 1];
        }
      }
    }
  }

  function At(timers: seq<Timer>, i: int): Timer? {
    if 0 <= i < |timers| then timers[i] else null
  }

  ghost predicate Distinct(timers: seq<Timer>) {
    forall i: nat, j: nat :: i < j < |timers| ==> timers[i] != timers[j]
  }

  predicate LinkedAt(timers: seq<Timer>, i: nat)
    reads timers
  {
    i < |timers| && timers[i].next == At(timers, i + 1) && timers[i].prev == At(timers, i - 1)
  }

  /** The order gives each task the ticks that it still has to wait. */
  ghost predicate Keyed(timers: seq<Timer>, ord: Order, now: Tick)
    reads timers
  {
    forall i: nat :: i < |timers| ==> ord.Key(timers[i].tid) == Sub32(timers[i].due, now)
  }

  function Ids(timers: seq<Timer>): seq<Tid> {
    if timers == [] then [] else [timers[0].tid] + Ids(timers[1..])
  }

  lemma {:induction false} IdsAll(timers: seq<Timer>)
    ensures |Ids(timers)| == |timers| && forall i: nat :: i < |timers| ==> Ids(timers)[i] == timers[i].tid
  {
    if timers != [] {
      IdsAll(timers[1..]);
    }
  }

  lemma IdsSplice(timers: seq<Timer>, p: Timer, i: nat)
    requires i <= |timers| && i <= |Ids(timers)|
    ensures Ids(timers[..i] + [p] + timers[i..]) == Ids(timers)[..i] + [p.tid] + Ids(timers)[i..]
  {
    var r := timers[..i] + [p] + timers[i..];
    IdsAll(timers);
    IdsAll(r);
    assert Ids(r) == Ids(timers)[..i] + [p.tid] + Ids(timers)[i..];
  }

  /** Linking the timer at the place found is inserting the task in order. */
  lemma PlaceIs(timers: seq<Timer>, p: Timer, ord: Order, now: Tick, i: nat)
    requires !ord.fifo && Keyed(timers, ord, now) && i <= |timers|
    requires forall j: nat :: j < i ==> Sub32(timers[j].due, now) < ord.Key(p.tid)
    requires i < |timers| ==> ord.Key(p.tid) <= Sub32(timers[i].due, now)
    ensures Ids(timers[..i] + [p] + timers[i..]) == Insert(Ids(timers), p.tid, ord)
  {
    IdsAll(timers);
    forall j: nat | j < i ensures ord.Passes(p.tid, Ids(timers)[j]) {
      assert ord.Key(timers[j].tid) == Sub32(timers[j].due, now);
    }
    ListScans.InsertStops(Ids(timers), p.tid, ord, i);
    IdsSplice(timers, p, i);
  }
}
