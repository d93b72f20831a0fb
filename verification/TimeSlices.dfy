/** Round-robin scheduling of the tasks of one priority (OS_SchedRoundRobin, once per tick): how long a task waits for
    its turn.
  */
module TimeSlices {

  type Tid = nat

  /** A ready task: its TimeQuanta (0: the default) and its TimeQuantaCtr. */
  datatype Slot = Slot(tid: Tid, quanta: nat, ctr: nat)

  /** OS_RdyListMoveHeadToTail, and the new head's counter. */
  function Rotated(q: seq<Slot>, dflt: nat): seq<Slot>
    requires |q| >= 2
  {
    [q[1].(ctr := if q[1].quanta == 0 then dflt else q[1].quanta)] + q[2..] + [q[0]]
  }

  /** One tick: the head uses up one unit, and goes to the tail when none is left, somebody else is ready and the
      scheduler is not locked. */
  function TickOf(q: seq<Slot>, dflt: nat, locked: bool): seq<Slot> {
    if q == [] then q else
    var q1 := if q[0].ctr > 0 then q[0 := q[0].(ctr := q[0].ctr - 1)] else q;
    if q1[0].ctr > 0 || |q| < 2 || locked then q1 else Rotated(q1, dflt)
  }

  class ReadyList {
    var tasks: seq<Slot>
    var enabled: bool
    const dflt: nat
    const idle: Tid

    constructor (t: seq<Slot>, d: nat, i: Tid)
      ensures tasks == t && dflt == d && idle == i && enabled
    {
      tasks, dflt, idle, enabled := t, d, i, true;
    }

    /** OS_SchedRoundRobin. */
    method SchedRoundRobin(locked: bool)
      modifies this`tasks
      ensures tasks == var q := old(tasks);
        if !enabled || (q != [] && q[0].tid == idle) then q else TickOf(q, dflt, locked)
    {
      if !enabled {
        return;
      }
      if tasks == [] {
        return;
      }
      if tasks[0].tid == idle {
        return;
      }
      if tasks[0].ctr > 0 {
        tasks := tasks[0 := tasks[0].(ctr := tasks[0].ctr - 1)];
      }
      if tasks[0].ctr > 0 {
        return;
      }
      if |tasks| < 2 {
        return;
      }
      if locked {
        return;
      }
      tasks := tasks[1..] + [tasks[0]];
      if tasks[0].quanta == 0 {
        tasks := tasks[0 := tasks[0].(ctr := dflt)];
      } else {
        tasks := tasks[0 := tasks[0].(ctr := tasks[0].quanta)];
      }
    }
  }

  function Ticks(q: seq<Slot>, dflt: nat, n: nat): seq<Slot>
    decreases n
  {
    if n == 0 then q else Ticks(TickOf(q, dflt, false), dflt, n - 1)
  }

  function AtLeastOne(n: nat): nat {
    if n == 0 then 1 else n
  }

  lemma {:induction false} TicksAdd(q: seq<Slot>, dflt: nat, m: nat, n: nat)
    ensures Ticks(q, dflt, m + n) == Ticks(Ticks(q, dflt, m), dflt, n)
    decreases m
  {
    if m > 0 {
      TicksAdd(TickOf(q, dflt, false), dflt, m - 1, n);
    }
  }

  /** The head stays for max(1, counter) ticks; then it is at the tail, and the second task is head with its full
      quantum. */
  lemma {:induction false} OneTurn(q: seq<Slot>, dflt: nat, n: nat)
    requires |q| >= 2 && n <= AtLeastOne(q[0].ctr)
    ensures |Ticks(q, dflt, n)| == |q|
    ensures n < AtLeastOne(q[0].ctr) ==> Ticks(q, dflt, n)[0] == q[0].(ctr := q[0].ctr - n) && Ticks(q, dflt, n)[1..] == q[1..]
    ensures n == AtLeastOne(q[0].ctr) ==> Ticks(q, dflt, n) == Rotated(q[0 := q[0].(ctr := 0)], dflt)
    decreases n
  {
    if n > 0 {
      var q1 := TickOf(q, dflt, false);
      if q[0].ctr > 1 {
        OneTurn(q1, dflt, n - 1);
        assert q1[0 := q1[0].(ctr := 0)] == q[0 := q[0].(ctr := 0)];
      }
    }
  }

  /** Ticks at which the scheduler may be locked. */
  function TicksWhile(q: seq<Slot>, dflt: nat, locks: seq<bool>): seq<Slot>
    decreases |locks|
  {
    if locks == [] then q else TicksWhile(TickOf(q, dflt, locks[0]), dflt, locks[1..])
  }

  /** All ticks from the one on that ends the head's slice find the scheduler locked. */
  predicate LockedFrom(ctr: nat, locks: seq<bool>) {
    locks == [] || ((ctr <= 1 ==> locks[0]) && LockedFrom(if ctr == 0 then 0 else ctr - 1, locks[1..]))
  }

  /** With a lock the head's slice ends at the first tick that finds its counter used up and the scheduler unlocked, and
      at no tick before. */
  lemma {:induction false} TurnUnderLocks(q: seq<Slot>, dflt: nat, locks: seq<bool>, last: bool)
    requires |q| >= 2 && LockedFrom(q[0].ctr, locks)
    ensures var ctr := if q[0].ctr < |locks| then 0 else q[0].ctr - |locks|; var q' := q[0 := q[0].(ctr := ctr)];
      && TicksWhile(q, dflt, locks) == q'
      && TicksWhile(q, dflt, locks + [last]) ==
        if ctr <= 1 && !last then Rotated(q[0 := q[0].(ctr := 0)], dflt)
        else q[0 := q[0].(ctr := if ctr == 0 then 0 else ctr - 1)]
    decreases |locks|
  {
    if locks == [] {
      assert ([] + [last])[1..] == [];
    } else {
      assert (locks + [last])[1..] == locks[1..] + [last];
      var q1 := TickOf(q, dflt, locks[0]);
      assert forall n: nat :: q1[0 := q1[0].(ctr := n)] == q[0 := q[0].(ctr := n)];
      TurnUnderLocks(q1, dflt, locks[1..], last);
    }
  }

  /** The ticks until the task at index k is head: what is left of the head's slice, and the slices in between. */
  function WaitFor(q: seq<Slot>, dflt: nat, k: nat): nat
    requires 0 < k < |q|
  {
    AtLeastOne(q[0].ctr) + Between(q, dflt, k)
  }

  function Between(q: seq<Slot>, dflt: nat, k: nat): nat
    requires 0 < k < |q|
  {
    if k == 1 then 0 else Between(q, dflt, k - 1) + AtLeastOne(if q[k - 1].quanta == 0 then dflt else q[k - 1].quanta)
  }

  predicate SameTask(s: Slot, s': Slot) {
    s'.tid == s.tid && s'.quanta == s.quanta
  }

  lemma {:induction false} BetweenShifts(q: seq<Slot>, r: seq<Slot>, dflt: nat, k: nat)
    requires 1 < k < |q| == |r| && forall i: nat :: i < |r| - 1 ==> SameTask(q[i + 1], r[i])
    ensures Between(q, dflt, k) == AtLeastOne(if q[1].quanta == 0 then dflt else q[1].quanta) + Between(r, dflt, k - 1)
  {
    if k > 2 {
      BetweenShifts(q, r, dflt, k - 1);
      assert SameTask(q[k - 2 + 1], r[k - 2]);
    }
  }

  ghost predicate OncePerTask(q: seq<Slot>) {
    forall i: nat, j: nat :: i < j < |q| ==> q[i].tid != q[j].tid
  }

  lemma TurnShifts(q: seq<Slot>, dflt: nat)
    requires |q| >= 2
    ensures var r := Rotated(q[0 := q[0].(ctr := 0)], dflt);
      && |r| == |q| && r[0].ctr == (if q[1].quanta == 0 then dflt else q[1].quanta)
      && (forall i: nat :: i < |r| - 1 ==> SameTask(q[i + 1], r[i])) && SameTask(q[0], r[|r| - 1])
  {
  }

  lemma TurnOnce(q: seq<Slot>, r: seq<Slot>)
    requires OncePerTask(q) && |r| == |q| > 0
    requires (forall i: nat :: i < |r| - 1 ==> SameTask(q[i + 1], r[i])) && SameTask(q[0], r[|r| - 1])
    ensures OncePerTask(r)
  {
    forall i: nat, j: nat | i < j < |r| ensures r[i].tid != r[j].tid {
      assert SameTask(q[i + 1], r[i]);
      if j < |r| - 1 {
        assert SameTask(q[j + 1], r[j]);
      }
    }
  }

  /** The round-robin bound, exactly: the task at index k becomes head after WaitFor ticks, and at no tick before. */
  lemma {:induction false} TurnComesExactlyThen(q: seq<Slot>, dflt: nat, k: nat, n: nat)
    requires 0 < k < |q| && OncePerTask(q) && n <= WaitFor(q, dflt, k)
    ensures |Ticks(q, dflt, n)| == |q|
    ensures Ticks(q, dflt, n)[0].tid == q[k].tid <==> n == WaitFor(q, dflt, k)
    decreases k
  {
    hide TickOf, Rotated, AtLeastOne, OncePerTask;
    var first := AtLeastOne(q[0].ctr);
    if n < first {
      OneTurn(q, dflt, n);
      TwoTasks(q, k);
    } else {
      var r := Rotated(q[0 := q[0].(ctr := 0)], dflt);
      OneTurn(q, dflt, first);
      TurnShifts(q, dflt);
      TicksAdd(q, dflt, first, n - first);
      assert Ticks(r, dflt, n - first) == Ticks(q, dflt, n);
      assert SameTask(q[k - 1 + 1], r[k - 1]);
      if k > 1 {
        BetweenShifts(q, r, dflt, k);
        TurnOnce(q, r);
        TurnComesExactlyThen(r, dflt, k - 1, n - first);
      }
    }
  }

  lemma TwoTasks(q: seq<Slot>, k: nat)
    requires OncePerTask(q) && 0 < k < |q|
    ensures q[0].tid != q[k].tid
  {
  }
}
