/** Channel masks: one bit per channel in a 16-bit word. */
module Masks {
  import opened Bits

  /** The mask bit of channel `i`: `1 << i`. */
  function Bit(i: Chan): Word
  {
    (1 as Word) << i
  }

  predicate Has(w: Word, i: Chan)
  {
    w & Bit(i) != 0
  }

  // Small word identities, one per lemma, that the per-bit lemmas combine.

  lemma OneBit(i: Chan, j: Chan)
    ensures Bit(i) != 0 && (Bit(i) & Bit(j) != 0 <==> i == j)
  {
  }

  lemma OrAt(a: Word, b: Word, m: Word)
    ensures (a | b) & m == (a & m) | (b & m)
  {
  }

  lemma AndNotAt(a: Word, b: Word, m: Word)
    ensures (a & !b) & m == (a & m) & !(b & m)
  {
  }

  lemma NonZeroOr(x: Word, y: Word)
    ensures x | y != 0 <==> x != 0 || y != 0
  {
  }

  lemma AndNotSelf(x: Word, m: Word)
    ensures (x & m) & !m == 0
  {
  }

  lemma AndNotZero(x: Word)
    ensures x & !(0 as Word) == x
  {
  }

  lemma SetAt(w: Word, i: Chan, j: Chan)
    ensures Has(w | Bit(i), j) <==> i == j || Has(w, j)
  {
    OneBit(i, j);
    OrAt(w, Bit(i), Bit(j));
    NonZeroOr(w & Bit(j), Bit(i) & Bit(j));
  }

  lemma ClearAt(w: Word, i: Chan, j: Chan)
    ensures Has(w & !Bit(i), j) <==> i != j && Has(w, j)
  {
    OneBit(i, j);
    AndNotAt(w, Bit(i), Bit(j));
    if i == j {
      AndNotSelf(w, Bit(j));
    } else {
      AndNotZero(w & Bit(j));
    }
  }

  lemma XorAnd(a: Word, b: Word, m: Word)
    ensures (a ^ b) & m == (a & m) ^ (b & m)
  {
  }

  lemma TwoValued(x: Word, i: Chan)
    ensures x & Bit(i) == 0 || x & Bit(i) == Bit(i)
  {
  }

  lemma XorSelf(x: Word)
    ensures x ^ x == 0 && x ^ 0 == x && 0 ^ x == x
  {
  }

  /** A bit of `a ^ b` is set exactly where `a` and `b` differ. */
  lemma XorAt(a: Word, b: Word, i: Chan)
    ensures Has(a ^ b, i) <==> Has(a, i) != Has(b, i)
  {
    XorAnd(a, b, Bit(i));
    TwoValued(a, i);
    TwoValued(b, i);
    OneBit(i, i);
    XorSelf(Bit(i));
  }

  lemma AndNotCases(x: Word, y: Word)
    ensures x & !(0 as Word) == x && x & !x == 0 && (0 as Word) & !y == 0
  {
  }

  /** `a & ~b`: the bits of `a` that a write-one-to-clear of `b` keeps. */
  function AndNot(a: Word, b: Word): Word
  {
    a & !b
  }

  /** A bit of `a & ~b` is set exactly where `a` has it and `b` does not. */
  lemma AndNotBit(a: Word, b: Word, i: Chan)
    ensures Has(AndNot(a, b), i) <==> Has(a, i) && !Has(b, i)
  {
    AndNotAt(a, b, Bit(i));
    TwoValued(a, i);
    TwoValued(b, i);
    OneBit(i, i);
    AndNotCases(Bit(i), a & Bit(i));
  }

  /** `w |= 1 << i` */
  function Set(w: Word, i: Chan): Word
  {
    w | Bit(i)
  }

  /** Setting bit `i` sets it and no other. */
  lemma SetBits(w: Word, i: Chan)
    ensures forall j: Chan :: Has(Set(w, i), j) <==> j == i || Has(w, j)
  {
    forall j: Chan ensures Has(w | Bit(i), j) <==> j == i || Has(w, j) {
      SetAt(w, i, j);
    }
  }

  /** `w &= ~(1 << i)` */
  function Clear(w: Word, i: Chan): Word
  {
    w & !Bit(i)
  }

  /** Clearing bit `i` clears it and no other. */
  lemma ClearBits(w: Word, i: Chan)
    ensures forall j: Chan :: Has(Clear(w, i), j) <==> j != i && Has(w, j)
  {
    forall j: Chan ensures Has(w & !Bit(i), j) <==> j != i && Has(w, j) {
      ClearAt(w, i, j);
    }
  }

  /** Clearing a bit that is already clear changes nothing. */
  lemma ClearTwice(w: Word, i: Chan)
    ensures Clear(Clear(w, i), i) == Clear(w, i)
  {
  }
}
