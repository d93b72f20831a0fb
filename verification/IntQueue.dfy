/** os_int.c: the queue of posts that interrupt handlers leave to the interrupt-queue task. The task reads the entry it
    replays outside the critical section, so that posts may arrive in the meantime; it gives the slot back only
    afterwards.
  */
module IntQueue {

  /** An OS_INT_Q entry without its link: the kind of post, its object, message, flags and options. */
  datatype Entry = Entry(kind: nat, obj: nat, msg: nat, size: nat, flags: nat, opt: nat)

  const NO_ENTRY := Entry(0, 0, 0, 0, 0, 0)

  /** Where OS_IntQTask is between its two critical sections. */
  datatype Phase = Looking | Replaying | Replayed

  /** A critical section: a post from an interrupt handler, or the next one of OS_IntQTask. */
  datatype Event = Arrives(e: Entry) | TaskRuns

  /** The posts among the events that were accepted, in order. */
  function Accepted(events: seq<Event>, oks: seq<bool>): seq<Entry>
    requires |events| == |oks|
  {
    if events == [] then [] else
    var n := |events| - 1;
    Accepted(events[..n], oks[..n]) + if events[n].Arrives? && oks[n] then [events[n].e] else []
  }

  /** How many were refused. */
  function Refused(events: seq<Event>, oks: seq<bool>): nat
    requires |events| == |oks|
  {
    if events == [] then 0 else
    var n := |events| - 1;
    Refused(events[..n], oks[..n]) + if events[n].Arrives? && !oks[n] then 1 else 0
  }

  /** The turns of OS_IntQTask among the events. */
  function Turns(events: seq<Event>): nat {
    if events == [] then 0 else
    var n := |events| - 1;
    Turns(events[..n]) + if events[n].TaskRuns? then 1 else 0
  }

  lemma OneMoreEvent(events: seq<Event>, oks: seq<bool>, i: nat, ok: bool)
    requires i == |oks| < |events|
    ensures var es := events[..i + 1]; var o := oks + [ok];
      && Accepted(es, o) == Accepted(events[..i], oks) + (if events[i].Arrives? && ok then [events[i].e] else [])
      && Refused(es, o) == Refused(events[..i], oks) + (if events[i].Arrives? && !ok then 1 else 0)
      && Turns(es) == Turns(events[..i]) + if events[i].TaskRuns? then 1 else 0
  {
    assert events[..i + 1][..i] == events[..i] && (oks + [ok])[..i] == oks;
  }

  class IntQ {
    const slot: array<Entry>
    var inIx: nat
    var outIx: nat
    var nbrEntries: nat
    var ovfCtr: nat
    var prio0Ready: bool
    var prioCur: nat
    var prioSaved: nat
    var phase: Phase
    // The history: what was accepted, and what was replayed.
    ghost var accepted: seq<Entry>
    ghost var replayed: seq<Entry>

    /** The entries in the queue, oldest first. */
    function Queue(): seq<Entry>
      reads this, slot
      requires outIx < slot.Length && nbrEntries <= slot.Length
    {
      Ring(slot[..], outIx, nbrEntries)
    }

    /** The entries that have not been replayed yet. */
    function Waiting(): seq<Entry>
      reads this, slot
      requires outIx < slot.Length && nbrEntries <= slot.Length && (phase == Replayed ==> nbrEntries > 0)
    {
      if phase == Replayed then Queue()[1..] else Queue()
    }

    /** What was accepted is what was replayed, in order and each once, and then what waits; and priority 0 is ready as
        long as there is an entry. */
    ghost predicate Valid()
      reads this, slot
    {
      && slot.Length >= 2 && outIx < slot.Length && nbrEntries <= slot.Length
      && inIx == Ix(outIx, nbrEntries, slot.Length)
      && (phase != Looking ==> nbrEntries > 0)
      && accepted == replayed + Waiting()
      && (nbrEntries > 0 ==> prio0Ready)
    }

    /** OS_IntQTaskInit. */
    constructor (size: nat)
      requires size >= 2
      ensures Valid() && slot.Length == size && Queue() == [] && phase == Looking && ovfCtr == 0
      ensures accepted == [] && replayed == []
    {
      slot := new Entry[size](i => NO_ENTRY);
      inIx, outIx, nbrEntries, ovfCtr, prio0Ready, prioCur, prioSaved := 0, 0, 0, 0, false, 0, 0;
      phase, accepted, replayed := Looking, [], [];
    }

    /** OS_IntQPost: at any time, also while an entry is being replayed. */
    method Post(e: Entry) returns (ok: bool)
      requires Valid()
      modifies this, slot
      ensures Valid() && phase == old(phase) && replayed == old(replayed) && outIx == old(outIx)
      ensures ok == (old(nbrEntries) < slot.Length)
      ensures if ok then Queue() == old(Queue()) + [e] && accepted == old(accepted) + [e] && ovfCtr == old(ovfCtr)
        else Queue() == old(Queue()) && accepted == old(accepted) && ovfCtr == old(ovfCtr) + 1
      ensures old(nbrEntries) > 0 ==> slot[outIx] == old(slot[outIx])
      ensures ok && prioCur != 0 ==> prioSaved == prioCur
    {
      if nbrEntries < slot.Length {
        ghost var q := Queue();
        Store(e);
        prio0Ready := true;
        if prioCur != 0 {
          prioSaved := prioCur;
        }
        accepted := accepted + [e];
        Grows(replayed, q, e);
        ok := true;
      } else {
        ovfCtr := ovfCtr + 1;
        ok := false;
      }
    }

    /** The entry goes into the slot at InPtr, which is not the one at OutPtr unless the queue is empty. */
    method Store(e: Entry)
      requires outIx < slot.Length && nbrEntries < slot.Length && inIx == Ix(outIx, nbrEntries, slot.Length)
      modifies this`nbrEntries, this`inIx, slot
      ensures nbrEntries == old(nbrEntries) + 1 && inIx == Ix(outIx, nbrEntries, slot.Length)
      ensures Queue() == old(Queue()) + [e] && (old(nbrEntries) > 0 ==> slot[outIx] == old(slot[outIx]))
    {
      RingStore(slot[..], outIx, nbrEntries, e);
      nbrEntries := nbrEntries + 1;
      slot[inIx] := e;
      assert slot[..] == old(slot[..])[inIx := e];
      inIx := Succ(inIx);
    }

    /** The slot after the given one: NextPtr closes the ring. */
    function Succ(i: nat): (j: nat)
      reads this
      requires i < slot.Length
      ensures j < slot.Length
    {
      if i + 1 == slot.Length then 0 else i + 1
    }

    lemma SuccIs(i: nat)
      requires i < slot.Length
      ensures Succ(i) == Ix(i, 1, slot.Length)
    {
    }

    /** OS_IntQTask, first critical section: with nothing queued, priority 0 stops being ready and the task is done. */
    method Look() returns (done: bool)
      requires Valid() && phase == Looking
      modifies this
      ensures Valid() && accepted == old(accepted) && replayed == old(replayed) && Queue() == old(Queue())
      ensures ovfCtr == old(ovfCtr)
      ensures done == (Queue() == []) && phase == (if done then Looking else Replaying)
      ensures done ==> !prio0Ready && replayed == accepted
    {
      ghost var q := Queue();
      if nbrEntries == 0 {
        prio0Ready := false;
        done := true;
      } else {
        phase := Replaying;
        done := false;
      }
      assert Queue() == q;
    }

    /** OS_IntQRePost: the oldest entry is replayed, outside the critical section. */
    method RePost() returns (e: Entry)
      requires Valid() && phase == Replaying
      modifies this
      ensures Valid() && phase == Replayed && accepted == old(accepted) && Queue() == old(Queue())
      ensures ovfCtr == old(ovfCtr)
      ensures e == Queue()[0] && replayed == old(replayed) + [e]
    {
      hide Ring, Ix;
      ghost var q := Queue();
      RingDrop(slot[..], outIx, nbrEntries);
      e := slot[outIx];
      phase := Replayed;
      Moves(replayed, q);
      replayed := replayed + [e];
    }

    /** OS_IntQTask, second critical section: the slot is given back. */
    method Release()
      requires Valid() && phase == Replayed
      modifies this
      ensures Valid() && phase == Looking && accepted == old(accepted) && replayed == old(replayed)
      ensures ovfCtr == old(ovfCtr)
      ensures Queue() == old(Queue())[1..] && Queue() == Waiting()
    {
      hide Ring, Ix;
      RingDrop(slot[..], outIx, nbrEntries);
      SuccIs(outIx);
      outIx := Succ(outIx);
      nbrEntries := nbrEntries - 1;
      phase := Looking;
    }

    /** What OS_IntQTask has done, in turns: three for each entry. */
    ghost function Work(): int
      reads this
    {
      3 * |replayed| + match phase case Looking => 0 case Replaying => 1 case Replayed => -1
    }

    /** The next critical section of OS_IntQTask, or the replay between two of them. */
    method TaskTurn()
      requires Valid()
      modifies this
      ensures Valid() && accepted == old(accepted) && ovfCtr == old(ovfCtr) && old(replayed) <= replayed
      ensures Work() == old(Work()) + 1 || (replayed == accepted && phase == Looking && !prio0Ready)
    {
      match phase
      case Looking => var done := Look();
      case Replaying => var e := RePost();
      case Replayed => Release();
    }

    method OneEvent(e: Event) returns (ok: bool)
      requires Valid()
      modifies this, slot
      ensures Valid() && old(replayed) <= replayed
      ensures accepted == old(accepted) + if e.Arrives? && ok then [e.e] else []
      ensures ovfCtr == old(ovfCtr) + if e.Arrives? && !ok then 1 else 0
      ensures replayed == accepted || Work() == old(Work()) + if e.TaskRuns? then 1 else 0
    {
      match e
      case Arrives(entry) => ok := Post(entry);
      case TaskRuns =>
        ok := false;
        TaskTurn();
    }

    /** Posts that arrive at any time, between any two turns of OS_IntQTask. Those for which a slot was free are
        accepted, the others are counted; what was accepted is replayed in order and each once (`Valid`); and every entry
        that was queued at the start is replayed after three turns for each, however many posts arrive. */
    method Interleave(events: seq<Event>) returns (oks: seq<bool>)
      requires Valid()
      modifies this, slot
      ensures Valid() && |oks| == |events| && old(replayed) <= replayed
      ensures accepted == old(accepted) + Accepted(events, oks) && ovfCtr == old(ovfCtr) + Refused(events, oks)
      ensures Turns(events) >= 3 * |old(Waiting())| + 1 ==> old(accepted) <= replayed
    {
      hide Valid, Work, Accepted, Refused, Turns;
      WorkToDo();
      ghost var waiting := |Waiting()|;
      oks := [];
      var i := 0;
      ghost var sum := Sum([], 0, 0);
      NoEvents(events);
      assert accepted == accepted + [];
      while i < |events|
        invariant Valid() && i == |oks| <= |events| && old(replayed) <= replayed
        invariant sum == Sum(Accepted(events[..i], oks), Refused(events[..i], oks), Turns(events[..i]))
        invariant accepted == old(accepted) + sum.kept && ovfCtr == old(ovfCtr) + sum.refused
        invariant old(accepted) <= replayed || Work() == old(Work()) + sum.turns
      {
        var ok := OneEvent(events[i]);
        OneMoreEvent(events, oks, i, ok);
        ghost var more: seq<Entry> := if events[i].Arrives? && ok then [events[i].e] else [];
        Joins(old(accepted), sum.kept, more);
        sum := Sum(sum.kept + more, sum.refused + (if events[i].Arrives? && !ok then 1 else 0),
                   sum.turns + if events[i].TaskRuns? then 1 else 0);
        oks := oks + [ok];
        i := i + 1;
      }
      assert events[..|events|] == events;
      if Turns(events) >= 3 * waiting + 1 && Work() == old(Work()) + Turns(events) {
        CaughtUp(old(accepted), waiting, Turns(events));
      }
    }

    /** The entries replayed so far are those accepted that do not wait. */
    lemma WorkToDo()
      requires Valid()
      ensures outIx < slot.Length && nbrEntries <= slot.Length && (phase == Replayed ==> nbrEntries > 0)
      ensures Work() >= 3 * (|accepted| - |Waiting()|) - 1
    {
    }

    lemma CaughtUp(was: seq<Entry>, waiting: nat, turns: nat)
      requires Valid() && was <= accepted && turns >= 3 * waiting + 1 && Work() >= 3 * (|was| - waiting) - 1 + turns
      ensures was <= replayed
    {
    }

    /** The loop of OS_IntQTask when no post arrives meanwhile: everything queued is replayed, in order. */
    method Drain() returns (done: bool)
      requires Valid() && phase == Looking
      modifies this
      ensures Valid() && Queue() == [] && replayed == accepted && accepted == old(accepted) && !prio0Ready
    {
      done := Look();
      while !done
        invariant Valid() && accepted == old(accepted)
        invariant if done then Queue() == [] && !prio0Ready && phase == Looking else phase == Replaying
        decreases nbrEntries, if done then 0 else 1
      {
        var e := RePost();
        Release();
        done := Look();
      }
    }
  }

  /** What the events so far amount to. */
  datatype Sum = Sum(kept: seq<Entry>, refused: nat, turns: nat)

  lemma NoEvents(events: seq<Event>)
    ensures Accepted(events[..0], []) == [] && Refused(events[..0], []) == 0 && Turns(events[..0]) == 0
  {
  }

  lemma Joins(a: seq<Entry>, b: seq<Entry>, c: seq<Entry>)
    ensures (a + b) + c == a + (b + c) && a <= a + (b + c)
  {
  }

  lemma Grows(done: seq<Entry>, q: seq<Entry>, e: Entry)
    ensures done + (q + [e]) == (done + q) + [e]
    ensures q != [] ==> (q + [e])[1..] == q[1..] + [e] && done + (q + [e])[1..] == (done + q[1..]) + [e]
  {
  }

  lemma Moves(done: seq<Entry>, q: seq<Entry>)
    requires q != []
    ensures done + q == (done + [q[0]]) + q[1..]
  {
  }

  /** i slots after the one at out, in a ring. */
  function Ix(out: nat, i: nat, size: nat): nat {
    if out + i < size then out + i else out + i - size
  }

  /** The n entries from out on, around the ring. */
  function Ring(slots: seq<Entry>, out: nat, n: nat): (q: seq<Entry>)
    requires out < |slots| && n <= |slots|
    ensures |q| == n && forall i: nat :: i < n ==> q[i] == slots[Ix(out, i, |slots|)]
  {
    seq(n, i requires 0 <= i < n => slots[Ix(out, i, |slots|)])
  }

  lemma RingStore(slots: seq<Entry>, out: nat, n: nat, e: Entry)
    requires out < |slots| && n < |slots|
    ensures Ix(out, n, |slots|) < |slots|
    ensures Ring(slots[Ix(out, n, |slots|) := e], out, n + 1) == Ring(slots, out, n) + [e]
    ensures n > 0 ==> Ix(out, n, |slots|) != out
    ensures Ix(out, n + 1, |slots|) == if Ix(out, n, |slots|) + 1 == |slots| then 0 else Ix(out, n, |slots|) + 1
  {
  }

  lemma RingDrop(slots: seq<Entry>, out: nat, n: nat)
    requires out < |slots| && 0 < n <= |slots|
    ensures Ring(slots, out, n)[0] == slots[out]
    ensures Ix(out, 1, |slots|) < |slots|
    ensures Ring(slots, Ix(out, 1, |slots|), n - 1) == Ring(slots, out, n)[1..]
    ensures Ix(out, n, |slots|) == Ix(Ix(out, 1, |slots|), n - 1, |slots|)
  {
  }
}
