/** Event flags bit by bit: what the words computed by os_flag.c say about each single flag. A flag is named by its mask,
    a word with one bit set.
  */
module SingleFlags {
  import opened KernelState
  import opened Services

  predicate OneBit(m: Flags) {
    m != 0 && m & (m - 1) == 0
  }

  /** The flag m is set in f. */
  predicate Has(f: Flags, m: Flags) {
    f & m != 0
  }

  /** The mode waits for flags that are set. */
  predicate Sets(mode: FlagMode) {
    mode == SetAll || mode == SetAny
  }

  /** The flag is as the mode asks. */
  predicate AsAsked(mode: FlagMode, flags: Flags, m: Flags) {
    Has(flags, m) <==> Sets(mode)
  }

  /** What a task waits for, flag by flag: all of the wanted flags, or one of them, set or clear. */
  ghost predicate Fulfilled(mode: FlagMode, flags: Flags, want: Flags) {
    if mode == SetAll || mode == ClrAll
    then forall m: Flags :: OneBit(m) && Has(want, m) ==> AsAsked(mode, flags, m)
    else exists m: Flags :: OneBit(m) && Has(want, m) && AsAsked(mode, flags, m)
  }

  /** The lowest flag of a word. */
  function LowBit(x: Flags): Flags {
    x & (!x + 1)
  }

  lemma LowBitIs(x: Flags)
    requires x != 0
    ensures OneBit(LowBit(x)) && x & LowBit(x) == LowBit(x)
  {
  }

  lemma WholeBit(f: Flags, m: Flags)
    requires OneBit(m)
    ensures f & m == 0 || f & m == m
  {
  }

  lemma BitOfAnd(f: Flags, g: Flags, m: Flags)
    requires OneBit(m)
    ensures Has(BitAnd(f, g), m) <==> Has(f, m) && Has(g, m)
  {
    WholeBit(f, m);
    WholeBit(g, m);
    hide OneBit;
    AndIs(f, g, m);
  }

  lemma AndIs(f: Flags, g: Flags, m: Flags)
    ensures (f & g) & m == (f & m) & (g & m)
  {
  }

  lemma BitOfOr(f: Flags, g: Flags, m: Flags)
    ensures Has(BitOr(f, g), m) <==> Has(f, m) || Has(g, m)
  {
    assert (f | g) & m == (f & m) | (g & m);
  }

  lemma BitOfNot(f: Flags, m: Flags)
    requires OneBit(m)
    ensures Has(BitNot(f), m) <==> !Has(f, m)
  {
    WholeBit(f, m);
    hide OneBit;
    NotIs(f, m);
  }

  lemma NotIs(f: Flags, m: Flags)
    ensures (!f) & m == m & !(f & m)
  {
  }

  /** Two words with the same flags are the same. */
  lemma SameFlagsSame(f: Flags, g: Flags)
    requires forall m: Flags :: OneBit(m) ==> (Has(f, m) <==> Has(g, m))
    ensures f == g
  {
    var x := f ^ g;
    if x != 0 {
      LowBitIs(x);
      DifferAt(f, g, LowBit(x));
    }
  }

  lemma DifferAt(f: Flags, g: Flags, m: Flags)
    requires OneBit(m) && (f ^ g) & m == m
    ensures Has(f, m) != Has(g, m)
  {
  }

  lemma NoFlags(m: Flags)
    ensures !Has(0, m)
  {
  }

  /** The bits that the code extracts are the wanted flags that are as asked. */
  lemma BitsMean(mode: FlagMode, flags: Flags, want: Flags, m: Flags)
    requires OneBit(m)
    ensures Has(FlagBits(mode, flags, want), m) <==> Has(want, m) && AsAsked(mode, flags, m)
  {
    hide BitAnd, BitNot, Has, OneBit;
    BitOfAnd(flags, want, m);
    BitOfAnd(BitNot(flags), want, m);
    BitOfNot(flags, m);
  }

  /** The comparison that the code makes decides what the task waits for. */
  lemma MetMeans(mode: FlagMode, flags: Flags, want: Flags)
    ensures FlagMet(mode, flags, want) <==> Fulfilled(mode, flags, want)
  {
    hide FlagBits, Has, OneBit, AsAsked, LowBit;
    var rdy := FlagBits(mode, flags, want);
    forall m: Flags | OneBit(m) ensures Has(rdy, m) <==> Has(want, m) && AsAsked(mode, flags, m) {
      BitsMean(mode, flags, want, m);
    }
    if mode == SetAll || mode == ClrAll {
      if Fulfilled(mode, flags, want) {
        SameFlagsSame(rdy, want);
      }
    } else if rdy != 0 {
      LowBitIs(rdy);
      LowBitHas(rdy);
      assert OneBit(LowBit(rdy)) && Has(want, LowBit(rdy));
    } else {
      forall m: Flags ensures !Has(rdy, m) {
        NoFlags(m);
      }
    }
  }

  lemma LowBitHas(x: Flags)
    requires x != 0
    ensures Has(x, LowBit(x))
  {
    LowBitIs(x);
  }

  /** Consuming turns over the flags that were found and no other. */
  lemma ConsumedMeans(mode: FlagMode, flags: Flags, rdy: Flags, m: Flags)
    requires OneBit(m)
    ensures Has(FlagConsumed(mode, flags, rdy), m) <==> if Has(rdy, m) then !Sets(mode) else Has(flags, m)
  {
    hide BitAnd, BitNot, BitOr, Has, OneBit;
    BitOfOr(flags, rdy, m);
    BitOfAnd(flags, BitNot(rdy), m);
    BitOfNot(rdy, m);
  }

  /** A post sets, or clears, the flags it names and no other. */
  lemma PostedMeans(flags: Flags, bits: Flags, set': bool, m: Flags)
    requires OneBit(m)
    ensures Has(PostedFlags(flags, bits, set'), m) <==> if Has(bits, m) then set' else Has(flags, m)
  {
    hide BitAnd, BitNot, BitOr, Has, OneBit;
    BitOfOr(flags, bits, m);
    BitOfAnd(flags, BitNot(bits), m);
    BitOfNot(bits, m);
  }
}
