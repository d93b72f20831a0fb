/** What is left to do while a loop of the kernel walks a list or a table, in terms of the recursive definitions. */
module ListScans {
  import opened TaskLists
  import opened KernelState
  import opened KernelOps

  /** Walking past the first i entries, all of which t passes, leaves the insertion into the rest. */
  lemma {:induction false} InsertSkips(q: seq<Tid>, t: Tid, ord: Order, i: nat)
    requires i <= |q| && forall j: nat :: j < i ==> ord.Passes(t, q[j])
    ensures Insert(q, t, ord) == q[..i] + Insert(q[i..], t, ord)
  {
    if i == 0 {
      assert q[..0] == [] && q[0..] == q;
    } else {
      InsertSkips(q[1..], t, ord, i - 1);
      assert q[..i] == [q[0]] + q[1..][..i - 1];
      assert q[1..][i - 1..] == q[i..];
    }
  }

  lemma InsertStops(q: seq<Tid>, t: Tid, ord: Order, i: nat)
    requires i <= |q| && (forall j: nat :: j < i ==> ord.Passes(t, q[j])) && (i == |q| || !ord.Passes(t, q[i]))
    ensures Insert(q, t, ord) == q[..i] + [t] + q[i..]
  {
    InsertSkips(q, t, ord, i);
    if i == |q| {
      assert q[i..] == [];
    } else {
      assert q[..i] + ([t] + q[i..]) == q[..i] + [t] + q[i..];
    }
  }

  lemma {:induction false} MarkSkips(tbl: seq<PendData>, o: Oid, m: Option<Msg>, i: nat)
    requires i <= |tbl| && forall j: nat :: j < i ==> tbl[j].obj != o
    ensures Mark(tbl, o, m) == tbl[..i] + Mark(tbl[i..], o, m)
  {
    if i == 0 {
      assert tbl[..0] == [] && tbl[0..] == tbl;
    } else {
      assert tbl[0].obj != o;
      MarkSkips(tbl[1..], o, m, i - 1);
      assert tbl[..i] == [tbl[0]] + tbl[1..][..i - 1];
      assert tbl[1..][i - 1..] == tbl[i..];
    }
  }

  /** The walk over the table ends at the first entry of o, which alone is marked. */
  lemma MarkStops(tbl: seq<PendData>, o: Oid, m: Option<Msg>, i: nat)
    requires i <= |tbl| && (forall j: nat :: j < i ==> tbl[j].obj != o) && (i < |tbl| ==> tbl[i].obj == o)
    ensures Mark(tbl, o, m) ==
      if i == |tbl| then tbl else tbl[i := tbl[i].(rdy := true, msg := if m.Some? then m.value else tbl[i].msg)]
  {
    MarkSkips(tbl, o, m, i);
    if i == |tbl| {
      assert tbl[i..] == [] && tbl[..i] == tbl;
    } else {
      var d := tbl[i].(rdy := true, msg := if m.Some? then m.value else tbl[i].msg);
      assert tbl[i..][1..] == tbl[i + 1..];
      assert Mark(tbl[i..], o, m) == [d] + tbl[i + 1..];
      assert tbl[..i] + ([d] + tbl[i + 1..]) == tbl[i := d];
    }
  }
}
