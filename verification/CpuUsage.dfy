/** The scaling of OS_StatTask: CPU usage in hundredths of a percent, computed in 32-bit arithmetic. */
module CpuUsage {

  /** The multiplier and the divisor for a total. */
  function Scale(total: nat): (nat, nat) {
    if total < 400000 then (10000, 1)
    else if total < 4000000 then (1000, 10)
    else if total < 40000000 then (100, 100)
    else if total < 400000000 then (10, 1000)
    else (1, 10000)
  }

  function Sum(a: seq<nat>): nat {
    if a == [] then 0 else Sum(a[..|a| - 1]) + a[|a| - 1]
  }

  /** Unsigned division. */
  function Div(a: nat, m: nat): (q: nat)
    requires m > 0
    ensures q * m <= a < q * m + m
  {
    a / m
  }

  /** The scaled total, by which every share is divided. */
  function Divisor(total: nat): (d: nat)
    requires total > 0
    ensures d > 0
  {
    total / Scale(total).1
  }

  /** A share of a total, scaled. */
  function Share(part: nat, total: nat): nat
    requires total > 0
  {
    Div(Scale(total).0 * part, Divisor(total))
  }

  /** The divisor is large enough for the division to be accurate. */
  lemma ScaledTotal(total: nat)
    requires total > 0
    ensures Scale(total).0 * Scale(total).1 == 10000 && Scale(total).0 * total < 10001 * Divisor(total)
  {
    var (mult, div) := Scale(total);
    var m := total / div;
    assert total == m * div + total % div;
    if total >= 400000 {
      assert m >= 40000;
    }
  }

  /** No product overflows 32 bits. */
  lemma NoOverflow(part: nat, total: nat)
    requires part <= total < 0x1_0000_0000
    ensures Scale(total).0 * part < 0x1_0000_0000
  {
  }

  lemma MulMono(x: nat, y: nat, m: nat)
    requires x <= y
    ensures x * m <= y * m
  {
    assert y * m == x * m + (y - x) * m;
  }

  lemma Cancel(q: nat, r: nat, m: nat)
    requires m > 0 && q * m < (r + 1) * m
    ensures q <= r
  {
    if r + 1 <= q {
      MulMono(r + 1, q, m);
    }
  }

  /** A quotient below n + 1. */
  lemma DivBelow(a: nat, n: nat, m: nat)
    requires m > 0 && a < (n + 1) * m
    ensures Div(a, m) <= n
  {
    Cancel(Div(a, m), n, m);
  }

  /** The quotients of the parts are at most the quotient of the sum. */
  lemma SharesAdd(a: nat, b: nat, m: nat)
    requires m > 0
    ensures Div(a, m) + Div(b, m) <= Div(a + b, m)
  {
    hide Div;
    var qa, qb, q := Div(a, m), Div(b, m), Div(a + b, m);
    assert (qa + qb) * m == qa * m + qb * m;
    assert (q + 1) * m == q * m + m;
    Cancel(qa + qb, q, m);
  }

  /** A share of the total is at most 100 percent: the subtraction of the overall usage does not go below zero. */
  lemma ShareBound(part: nat, total: nat)
    requires part <= total && total > 0
    ensures Share(part, total) <= 10000
  {
    hide Div, Divisor;
    var mult := Scale(total).0;
    ScaledTotal(total);
    MulMono(part, total, mult);
    DivBelow(mult * part, 10000, Divisor(total));
  }

  /** The usage is the true share in hundredths of a percent, less than one of them too small and at most a quarter too
      large. */
  predicate Accurate(usage: nat, part: nat, total: nat) {
    10000 * part < (usage + 1) * total && 4 * (usage * total) <= 40000 * part + total
  }

  /** q is the quotient of x by y, rounded down. */
  predicate IsQuotient(q: nat, x: nat, y: nat) {
    q * y <= x < (q + 1) * y
  }

  lemma QuotientIs(x: nat, y: nat)
    requires y > 0
    ensures IsQuotient(x / y, x, y)
  {
  }

  lemma ShareAccurate(part: nat, total: nat)
    requires part <= total && total > 0
    ensures Accurate(Share(part, total), part, total)
  {
    hide IsQuotient;
    var (mult, div) := Scale(total);
    var d, q := total / div, Share(part, total);
    ScaledTotal(total);
    ShareBound(part, total);
    QuotientIs(total, div);
    QuotientIs(mult * part, d);
    NotTooSmall(mult, div, d, q, part, total);
    DivisorLarge(total);
    NotTooLarge(mult, div, d, q, part, total);
  }

  lemma DivisorLarge(total: nat)
    requires total > 0
    ensures var div := Scale(total).1; div == 1 || 40000 * div <= total
    ensures Scale(total).1 == 1 ==> total / 1 == total
  {
  }

  lemma NotTooSmall(mult: nat, div: nat, d: nat, q: nat, part: nat, total: nat)
    requires IsQuotient(q, mult * part, d) && IsQuotient(d, total, div) && mult * div == 10000 && div > 0
    ensures 10000 * part < (q + 1) * total
  {
    MulMono(mult * part + 1, (q + 1) * d, div);
    assert (mult * part + 1) * div == 10000 * part + div by {
      assert mult * part * div == (mult * div) * part;
    }
    assert ((q + 1) * d) * div == (q + 1) * (d * div);
    MulMono(d * div, total, q + 1);
  }

  lemma NotTooLarge(mult: nat, div: nat, d: nat, q: nat, part: nat, total: nat)
    requires IsQuotient(q, mult * part, d) && IsQuotient(d, total, div) && mult * div == 10000 && q <= 10000
    requires div == 1 || 40000 * div <= total
    ensures 4 * (q * total) <= 40000 * part + total
  {
    hide IsQuotient;
    Scaled(mult, div, d, q, part);
    Rounded(div, d, q, total);
    Together(q * total, q * d * div, part, total);
  }

  lemma Together(x: nat, y: nat, part: nat, total: nat)
    requires 4 * x <= 4 * y + total && y <= 10000 * part
    ensures 4 * x <= 40000 * part + total
  {
  }

  lemma Scaled(mult: nat, div: nat, d: nat, q: nat, part: nat)
    requires IsQuotient(q, mult * part, d) && mult * div == 10000
    ensures q * d * div <= 10000 * part
  {
    MulMono(q * d, mult * part, div);
    assert mult * part * div == (mult * div) * part;
  }

  /** What is lost by scaling the total down: nothing if it is not scaled. */
  lemma Rounded(div: nat, d: nat, q: nat, total: nat)
    requires IsQuotient(d, total, div) && (div == 1 || 40000 * div <= total) && q <= 10000
    ensures 4 * (q * total) <= 4 * (q * d * div) + total
  {
    if div == 1 {
      MulMono(total, d, q);
    } else {
      MulMono(total, (d + 1) * div, q);
      assert ((d + 1) * div) * q == q * d * div + q * div;
      MulMono(q, 10000, div);
    }
  }

  function Shares(cycles: seq<nat>, total: nat): seq<nat>
    requires total > 0
  {
    if cycles == [] then [] else Shares(cycles[..|cycles| - 1], total) + [Share(cycles[|cycles| - 1], total)]
  }

  lemma {:induction false} SharesSum(cycles: seq<nat>, total: nat)
    requires total > 0
    ensures Sum(Shares(cycles, total)) <= Share(Sum(cycles), total)
  {
    hide Share;
    if cycles != [] {
      var rest, last := cycles[..|cycles| - 1], cycles[|cycles| - 1];
      SharesSum(rest, total);
      var s := Shares(cycles, total);
      assert s[..|s| - 1] == Shares(rest, total);
      ShareAdds(Sum(rest), last, total);
    }
  }

  lemma ShareAdds(x: nat, y: nat, total: nat)
    requires total > 0
    ensures Share(x, total) + Share(y, total) <= Share(x + y, total)
  {
    hide Div, Divisor, Scale;
    var mult := Scale(total).0;
    SharesAdd(mult * x, mult * y, Divisor(total));
    assert mult * x + mult * y == mult * (x + y);
  }

  /** The usages of all tasks together are at most 100 percent. */
  lemma UsagesBounded(cycles: seq<nat>)
    requires Sum(cycles) > 0
    ensures Sum(Shares(cycles, Sum(cycles))) <= 10000
  {
    SharesSum(cycles, Sum(cycles));
    ShareBound(Sum(cycles), Sum(cycles));
  }

  lemma {:induction false} PartOfSum(cycles: seq<nat>, i: nat)
    requires i < |cycles|
    ensures cycles[i] <= Sum(cycles)
  {
    if i < |cycles| - 1 {
      PartOfSum(cycles[..|cycles| - 1], i);
    }
  }

  /** The overall usage: 10000 less the share of the idle counter in its maximum. */
  method OverallUsage(ctrMax: nat, ctrRun: nat) returns (usage: nat)
    requires ctrMax < 0x1_0000_0000 && ctrRun < 0x1_0000_0000
    ensures usage <= 10000
    ensures ctrRun < ctrMax ==> Accurate(10000 - usage, ctrRun, ctrMax)
    ensures ctrRun >= ctrMax ==> usage == 10000
  {
    if ctrMax > ctrRun {
      var mult, div;
      if ctrMax < 400000 {
        mult, div := 10000, 1;
      } else if ctrMax < 4000000 {
        mult, div := 1000, 10;
      } else if ctrMax < 40000000 {
        mult, div := 100, 100;
      } else if ctrMax < 400000000 {
        mult, div := 10, 1000;
      } else {
        mult, div := 1, 10000;
      }
      ScaledTotal(ctrMax);
      NoOverflow(ctrRun, ctrMax);
      assert mult * ctrRun < 0x1_0000_0000;
      ShareBound(ctrRun, ctrMax);
      ShareAccurate(ctrRun, ctrMax);
      usage := 10000 - mult * ctrRun / (ctrMax / div);
    } else {
      usage := 10000;
    }
  }

  /** The two loops over the task list: the cycles are added up, then each task gets its share. No product exceeds 32
      bits, the cap at 10000 never bites, and the usages add up to no more than 100 percent. */
  method TaskUsages(cycles: array<nat>) returns (usages: array<nat>)
    requires Sum(cycles[..]) < 0x1_0000_0000
    ensures fresh(usages) && usages.Length == cycles.Length
    ensures Sum(usages[..]) <= 10000
    ensures Sum(cycles[..]) > 0 ==>
      forall i: nat :: i < usages.Length ==> Accurate(usages[i], cycles[i], Sum(cycles[..]))
    ensures Sum(cycles[..]) == 0 ==> forall i: nat :: i < usages.Length ==> usages[i] == 0
  {
    usages := new nat[cycles.Length](i => 0);
    var total := 0;
    var i := 0;
    while i < cycles.Length
      invariant 0 <= i <= cycles.Length && total == Sum(cycles[..i])
    {
      assert cycles[..i + 1][..i] == cycles[..i];
      total := total + cycles[i];
      i := i + 1;
    }
    assert cycles[..i] == cycles[..];
    if total == 0 {
      ZeroSum(usages[..]);
      return;
    }
    var (mult, div) := Scale(total);
    ScaledTotal(total);
    var cyclesMax := total / div;
    assert cyclesMax == Divisor(total);
    i := 0;
    while i < cycles.Length
      invariant 0 <= i <= cycles.Length && cyclesMax > 0 && cyclesMax == Divisor(total)
      invariant total == Sum(cycles[..]) && usages[..i] == Shares(cycles[..i], total)
      invariant forall j: nat :: j < i ==> Accurate(usages[j], cycles[j], total)
    {
      PartOfSum(cycles[..], i);
      NoOverflow(cycles[i], total);
      ShareBound(cycles[i], total);
      ShareAccurate(cycles[i], total);
      var usage := mult * cycles[i] / cyclesMax;
      if usage > 10000 {
        usage := 10000;
      }
      assert cycles[..i + 1][..i] == cycles[..i];
      usages[i] := usage;
      assert usages[..i + 1] == usages[..i] + [usage];
      i := i + 1;
    }
    assert usages[..i] == usages[..] && cycles[..i] == cycles[..];
    UsagesBounded(cycles[..]);
  }

  lemma {:induction false} ZeroSum(a: seq<nat>)
    requires forall i: nat :: i < |a| ==> a[i] == 0
    ensures Sum(a) == 0
  {
    if a != [] {
      ZeroSum(a[..|a| - 1]);
    }
  }
}
