/** The three byte operations the generated decoder uses, and how they act on
    single bits. */
module Bits {
  /** The byte `1 << i`. */
  function Single(i: nat): bv8
    requires i < 8
  {
    match i
    case 0 => 1 case 1 => 2 case 2 => 4 case 3 => 8
    case 4 => 16 case 5 => 32 case 6 => 64 case _ => 128
  }

  predicate Bit(b: bv8, i: nat)
    requires i < 8
  {
    b & Single(i) != 0
  }

  /** The bits set below `n`. */
  function OnesBelow(b: bv8, n: nat): nat
    requires n <= 8
  {
    if n == 0 then 0 else OnesBelow(b, n - 1) + if Bit(b, n - 1) then 1 else 0
  }

  /** `bits.OnesCount8`. */
  function OnesCount8(b: bv8): nat { OnesBelow(b, 8) }

  function FirstFrom(b: bv8, i: nat): (r: nat)
    requires i <= 8
    ensures i <= r <= 8
    ensures r < 8 ==> Bit(b, r)
    ensures forall j :: i <= j < r ==> !Bit(b, j)
    decreases 8 - i
  {
    if i == 8 || Bit(b, i) then i else FirstFrom(b, i + 1)
  }

  /** `bits.TrailingZeros8`. */
  function TrailingZeros8(b: bv8): nat { FirstFrom(b, 0) }

  lemma NonzeroHasABit(b: bv8)
    requires b != 0
    ensures exists j :: 0 <= j < 8 && Bit(b, j)
  {
    assert Bit(b, 0) || Bit(b, 1) || Bit(b, 2) || Bit(b, 3) || Bit(b, 4) || Bit(b, 5) || Bit(b, 6) || Bit(b, 7);
  }

  lemma {:induction false} OnesBelowZero(b: bv8, n: nat)
    requires n <= 8
    ensures OnesBelow(b, n) == 0 <==> forall j :: 0 <= j < n ==> !Bit(b, j)
  {
    if n > 0 {
      OnesBelowZero(b, n - 1);
      if forall j :: 0 <= j < n - 1 ==> !Bit(b, j) {
        assert OnesBelow(b, n) == 0 ==> !Bit(b, n - 1);
      } else {
        assert OnesBelow(b, n) != 0;
      }
    }
  }

  lemma ZeroHasNoBits(b: bv8)
    ensures b == 0 <==> OnesCount8(b) == 0
    ensures b == 0 ==> forall j :: 0 <= j < 8 ==> !Bit(b, j)
  {
    OnesBelowZero(b, 8);
    if b != 0 { NonzeroHasABit(b); }
  }

  lemma LowestBit(b: bv8)
    requires b != 0
    ensures TrailingZeros8(b) < 8 && Bit(b, TrailingZeros8(b))
    ensures forall j :: 0 <= j < TrailingZeros8(b) ==> !Bit(b, j)
  {
    NonzeroHasABit(b);
  }

  lemma AfterSet(b: bv8, i: nat, j: nat)
    requires i < 8 && j < 8
    ensures Bit(b | Single(i), j) <==> Bit(b, j) || i == j
  {
  }

  lemma AfterClear(b: bv8, i: nat, j: nat)
    requires i < 8 && j < 8
    ensures Bit(b & !Single(i), j) <==> Bit(b, j) && i != j
  {
  }

  lemma {:induction false} ClearBelow(b: bv8, i: nat, n: nat)
    requires i < 8 && n <= 8 && Bit(b, i)
    ensures OnesBelow(b & !Single(i), n) == OnesBelow(b, n) - if i < n then 1 else 0
  {
    if n > 0 {
      ClearBelow(b, i, n - 1);
      AfterClear(b, i, n - 1);
    }
  }

  lemma ClearCountsDown(b: bv8, i: nat)
    requires i < 8 && Bit(b, i)
    ensures OnesCount8(b & !Single(i)) == OnesCount8(b) - 1
  {
    ClearBelow(b, i, 8);
  }

  /** The bits of the mask that are not set. */
  lemma MaskedComplement(b: bv8, mask: bv8, j: nat)
    requires j < 8
    ensures Bit((b & mask) ^ mask, j) <==> Bit(mask, j) && !Bit(b, j)
  {
  }
}
