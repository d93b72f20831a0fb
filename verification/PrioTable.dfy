/** os_prio.c: the priority table, an array of machine words in which the bit of priority p tells that a task is ready at
    p. A word of `bits` bits is a sequence of bits, bit 0 first; within a word a higher priority is a more significant
    bit. Everything is proved for any number of priorities and any word size.
  */
module PrioTable {

  type Word = seq<bool>

  function ZeroWord(bits: nat): Word {
    seq(bits, i => false)
  }

  predicate IsZero(w: Word) {
    forall i: nat :: i < |w| ==> !w[i]
  }

  /** CPU_CntLeadZeros: the number of zero bits above the most significant one. */
  method CntLeadZeros(w: Word) returns (n: nat)
    ensures n <= |w| && (n == |w| <==> IsZero(w))
    ensures n < |w| ==> w[|w| - 1 - n] && forall i: nat :: |w| - 1 - n < i < |w| ==> !w[i]
  {
    n := 0;
    while n < |w| && !w[|w| - 1 - n]
      invariant n <= |w| && forall i: nat :: |w| - n <= i < |w| ==> !w[i]
    {
      n := n + 1;
    }
  }

  /** The word and the place in it, counted from the most significant bit, of a priority. */
  function WordOf(p: nat, bits: nat): nat
    requires bits > 0
  {
    p / bits
  }

  function PlaceOf(p: nat, bits: nat): (n: nat)
    requires bits > 0
    ensures n < bits
  {
    p % bits
  }

  class Table {
    const bits: nat
    const tbl: array<Word>

    ghost predicate Valid()
      reads this, tbl
    {
      bits > 0 && forall i: nat :: i < tbl.Length ==> |tbl[i]| == bits
    }

    /** The bit of priority p is set. */
    predicate Has(p: nat)
      reads this, tbl
    {
      && bits > 0 && WordOf(p, bits) < tbl.Length && |tbl[WordOf(p, bits)]| == bits
      && tbl[WordOf(p, bits)][bits - 1 - PlaceOf(p, bits)]
    }

    /** OS_PrioInit. */
    constructor (nbrBits: nat, words: nat)
      requires nbrBits > 0
      ensures Valid() && bits == nbrBits && tbl.Length == words && forall p: nat :: !Has(p)
    {
      bits := nbrBits;
      tbl := new Word[words](i => ZeroWord(nbrBits));
    }

    /** OS_PrioInsert. */
    method Insert(prio: nat)
      requires Valid() && prio < bits * tbl.Length
      modifies tbl
      ensures Valid() && forall p: nat :: Has(p) <==> p == prio || old(Has(p))
    {
      InRange(prio, bits, tbl.Length);
      var ix := prio / bits;
      var bitNbr := prio % bits;
      tbl[ix] := tbl[ix][bits - 1 - bitNbr := true];
      forall p: nat ensures Has(p) <==> p == prio || old(Has(p)) {
        SamePlace(p, prio, bits);
      }
    }

    /** OS_PrioRemove. */
    method Remove(prio: nat)
      requires Valid() && prio < bits * tbl.Length
      modifies tbl
      ensures Valid() && forall p: nat :: Has(p) <==> p != prio && old(Has(p))
    {
      InRange(prio, bits, tbl.Length);
      var ix := prio / bits;
      var bitNbr := prio % bits;
      tbl[ix] := tbl[ix][bits - 1 - bitNbr := false];
      forall p: nat ensures Has(p) <==> p != prio && old(Has(p)) {
        SamePlace(p, prio, bits);
      }
    }

    /** OS_PrioGetHighest: the least priority whose bit is set. That there is one, because the idle task is always
        ready, is what makes the search end. */
    method GetHighest() returns (prio: nat)
      requires Valid() && exists p: nat :: Has(p)
      ensures Has(prio) && forall p: nat :: Has(p) ==> prio <= p
    {
      ghost var top: nat :| Has(top);
      ghost var last := WordOf(top, bits);
      hide WordOf, PlaceOf, Times;
      TimesStep(bits);
      assert !IsZero(tbl[last]);
      var i := 0;
      prio := 0;
      while IsZero(tbl[i])
        invariant 0 <= i <= last < tbl.Length && prio == Times(i, bits)
        invariant forall j: nat :: j < i ==> IsZero(tbl[j])
        decreases last - i
      {
        prio := prio + bits;
        i := i + 1;
      }
      var n := CntLeadZeros(tbl[i]);
      prio := prio + n;
      InWord(i, n, bits);
      forall p: nat | Has(p) ensures prio <= p {
        if WordOf(p, bits) >= i {
          Ordered(p, i, n, bits);
        }
      }
    }
  }

  function Times(i: nat, bits: nat): nat {
    if i == 0 then 0 else Times(i - 1, bits) + bits
  }

  lemma TimesStep(bits: nat)
    ensures Times(0, bits) == 0 && forall i: nat :: Times(i + 1, bits) == Times(i, bits) + bits
  {
  }

  lemma InRange(p: nat, bits: nat, words: nat)
    requires bits > 0 && p < bits * words
    ensures p / bits < words
  {
    DivLess(p, bits, words);
  }

  lemma DivLess(p: nat, bits: nat, words: nat)
    requires bits > 0
    ensures p / bits >= words ==> p >= bits * words
  {
    var d := p / bits;
    assert p >= bits * d;
    if d >= words {
      assert bits * d == bits * words + bits * (d - words);
    }
  }

  /** Two priorities share a bit only if they are equal. */
  lemma SamePlace(p: nat, q: nat, bits: nat)
    requires bits > 0
    ensures p / bits == q / bits && p % bits == q % bits ==> p == q
  {
  }

  lemma MulAtLeast(k: nat, b: nat)
    requires k >= 1
    ensures k * b >= b
  {
    assert k * b == (k - 1) * b + b;
  }

  lemma DivUnique(x: nat, q: nat, r: nat, b: nat)
    requires r < b && x == q * b + r
    ensures x / b == q && x % b == r
  {
    var d, m := x / b, x % b;
    assert x == d * b + m;
    if d > q {
      assert d * b == q * b + (d - q) * b;
      MulAtLeast(d - q, b);
    } else if d < q {
      assert q * b == d * b + (q - d) * b;
      MulAtLeast(q - d, b);
    }
  }

  lemma {:induction false} TimesIs(i: nat, bits: nat)
    ensures Times(i, bits) == i * bits
  {
    if i > 0 {
      TimesIs(i - 1, bits);
      assert i * bits == (i - 1) * bits + bits;
    }
  }

  lemma InWord(i: nat, n: nat, bits: nat)
    requires n < bits
    ensures WordOf(Times(i, bits) + n, bits) == i && PlaceOf(Times(i, bits) + n, bits) == n
  {
    TimesIs(i, bits);
    DivUnique(Times(i, bits) + n, i, n, bits);
  }

  lemma Ordered(p: nat, i: nat, n: nat, bits: nat)
    requires n < bits && (WordOf(p, bits) > i || (WordOf(p, bits) == i && PlaceOf(p, bits) >= n))
    ensures Times(i, bits) + n <= p
  {
    TimesIs(i, bits);
    var d := p / bits;
    assert p == d * bits + p % bits;
    if d > i {
      assert d * bits == i * bits + (d - i) * bits;
      MulAtLeast(d - i, bits);
    }
  }
}
