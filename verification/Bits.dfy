/** Bits of a 32-bit register, the way the drivers change and test them. */
module Bits {

  // reg |= bits
  function Set(reg: bv32, bits: bv32): bv32 {
    reg | bits
  }

  // reg &= ~bits
  function Clear(reg: bv32, bits: bv32): bv32 {
    reg & !bits
  }

  // (reg & bits) != 0
  predicate Any(reg: bv32, bits: bv32) {
    reg & bits != 0
  }

  // reg &= mask
  function Keep(reg: bv32, mask: bv32): bv32 {
    reg & mask
  }

  // (reg & bits) == bits
  predicate All(reg: bv32, bits: bv32) {
    reg & bits == bits
  }

  // ----- the same in terms of the operators

  lemma OrElsewhere(v: bv32, bits: bv32, other: bv32)
    requires bits & other == 0
    ensures (v | bits) & other == v & other
  {
  }

  lemma AndNotElsewhere(v: bv32, bits: bv32, other: bv32)
    requires bits & other == 0
    ensures (v & !bits) & other == v & other
  {
  }

  lemma AndNotThere(v: bv32, bits: bv32)
    ensures (v & !bits) & bits == 0
  {
  }

  lemma OrThere(v: bv32, bits: bv32)
    ensures (v | bits) & bits == bits
  {
  }

  lemma AndNotOr(v: bv32, bits: bv32)
    requires v & bits == 0
    ensures (v | bits) & !bits == v
    ensures v & !bits == v
  {
  }

  lemma AndMoves(v: bv32, mask: bv32, flag: bv32)
    ensures (v & mask) & flag == v & (flag & mask)
  {
  }

  lemma AndOverOr(v: bv32, w: bv32, bits: bv32)
    ensures (v | w) & bits == (v & bits) | (w & bits)
  {
  }

  lemma NothingOrNothing(x: bv32, y: bv32)
    ensures x | y != 0 <==> x != 0 || y != 0
  {
  }

  lemma AllOrNothing(bits: bv32, b: bv32)
    requires b & (b - 1) == 0 && bits & b != 0
    ensures bits & b == b
  {
  }

  lemma AndNotAll(v: bv32, bits: bv32, b: bv32)
    requires bits & b == b
    ensures (v & !bits) & b == 0
  {
  }

  // ----- a test of what the operators give

  lemma AnyOfOr(v: bv32, bits: bv32, other: bv32)
    requires bits & other == 0
    ensures Any(v | bits, other) == Any(v, other)
  {
    OrElsewhere(v, bits, other);
  }

  lemma AnyOfAndNot(v: bv32, bits: bv32, other: bv32)
    requires bits & other == 0
    ensures Any(v & !bits, other) == Any(v, other)
  {
    AndNotElsewhere(v, bits, other);
  }

  lemma KeepOfOr(v: bv32, bits: bv32, other: bv32)
    requires bits & other == 0
    ensures Keep(v | bits, other) == Keep(v, other)
  {
    OrElsewhere(v, bits, other);
  }

  lemma KeepOfAndNot(v: bv32, bits: bv32, other: bv32)
    requires bits & other == 0
    ensures Keep(v & !bits, other) == Keep(v, other)
  {
    AndNotElsewhere(v, bits, other);
  }

  lemma AnyOfEither(v: bv32, w: bv32, b: bv32)
    ensures Any(v | w, b) == (Any(v, b) || Any(w, b))
  {
    AndOverOr(v, w, b);
    NothingOrNothing(v & b, w & b);
  }

  lemma AnyOfAnd(v: bv32, mask: bv32, flag: bv32)
    ensures Any(v & mask, flag) == Any(v, flag & mask)
  {
    AndMoves(v, mask, flag);
  }

  // ----- one change, one test

  // Changing bits does not affect a test of other bits
  lemma SetOther(reg: bv32, bits: bv32, other: bv32)
    requires bits & other == 0
    ensures Any(Set(reg, bits), other) == Any(reg, other)
  {
    hide Any;
    AnyOfOr(reg, bits, other);
  }

  lemma ClearOther(reg: bv32, bits: bv32, other: bv32)
    requires bits & other == 0
    ensures Any(Clear(reg, bits), other) == Any(reg, other)
  {
    hide Any;
    AnyOfAndNot(reg, bits, other);
  }

  lemma SetKeeps(reg: bv32, bits: bv32, other: bv32)
    requires bits & other == 0
    ensures Keep(Set(reg, bits), other) == Keep(reg, other)
  {
    hide Keep;
    KeepOfOr(reg, bits, other);
  }

  lemma ClearKeeps(reg: bv32, bits: bv32, other: bv32)
    requires bits & other == 0
    ensures Keep(Clear(reg, bits), other) == Keep(reg, other)
  {
    hide Keep;
    KeepOfAndNot(reg, bits, other);
  }

  // Clearing what is clear
  lemma ClearAgain(reg: bv32, bits: bv32)
    requires !Any(reg, bits)
    ensures Clear(reg, bits) == reg
  {
    AndNotOr(reg, bits);
  }

  lemma ClearAfterSet(reg: bv32, bits: bv32)
    requires !Any(reg, bits)
    ensures Clear(Set(reg, bits), bits) == reg
  {
    AndNotOr(reg, bits);
  }

  lemma SetSets(reg: bv32, bits: bv32)
    requires bits != 0
    ensures Any(Set(reg, bits), bits)
  {
    OrThere(reg, bits);
  }

  lemma ClearClears(reg: bv32, bits: bv32)
    ensures !Any(Clear(reg, bits), bits)
  {
    AndNotThere(reg, bits);
  }

  lemma AnyOfSet(v: bv32, w: bv32, b: bv32)
    ensures Any(Set(v, w), b) == (Any(v, b) || Any(w, b))
  {
    hide Any;
    AnyOfEither(v, w, b);
  }

  lemma AnyOfItself(b: bv32)
    requires b != 0
    ensures Any(b, b)
  {
  }

  lemma NoneOfOther(a: bv32, b: bv32)
    requires a & b == 0
    ensures !Any(a, b)
  {
  }

  lemma MaskMoves(v: bv32, mask: bv32, flag: bv32)
    ensures Any(Keep(v, mask), flag) == Any(v, Keep(flag, mask))
  {
    hide Any;
    AnyOfAnd(v, mask, flag);
  }

  lemma KeepTwice(v: bv32, mask: bv32)
    ensures Keep(Keep(v, mask), mask) == Keep(v, mask)
  {
  }

  lemma KeepLess(v: bv32, mask: bv32, part: bv32)
    requires mask & part == part
    ensures Keep(v, part) == Keep(Keep(v, mask), part)
  {
    assert (v & mask) & part == v & part;
  }

  lemma KeepIsAny(v: bv32, b: bv32)
    ensures Keep(v, b) != 0 <==> Any(v, b)
  {
  }

  // ----- fields: bits under a mask that are cleared and set again

  lemma OrOfUnder(v: bv32, mask: bv32, bits: bv32)
    requires bits & mask == bits
    ensures ((v & !mask) | bits) & mask == bits
  {
  }

  lemma OrOfElsewhere(v: bv32, mask: bv32, bits: bv32, other: bv32)
    requires bits & mask == bits && mask & other == 0
    ensures ((v & !mask) | bits) & other == v & other
  {
  }

  lemma FieldThere(v: bv32, mask: bv32, bits: bv32)
    requires Keep(bits, mask) == bits
    ensures Keep(Set(Clear(v, mask), bits), mask) == bits
  {
    OrOfUnder(v, mask, bits);
  }

  lemma FieldElsewhere(v: bv32, mask: bv32, bits: bv32, other: bv32)
    requires mask & other == 0 && Keep(bits, mask) == bits
    ensures Keep(Set(Clear(v, mask), bits), other) == Keep(v, other)
  {
    OrOfElsewhere(v, mask, bits, other);
  }

  // ----- single bits

  predicate SingleBit(b: bv32) {
    b != 0 && b & (b - 1) == 0
  }

  lemma SingleIsSome(b: bv32)
    requires SingleBit(b)
    ensures b != 0
  {
  }

  lemma SingleBitsApart(a: bv32, b: bv32)
    requires SingleBit(a) && SingleBit(b) && a != b
    ensures a & b == 0
  {
  }

  lemma ClearSingle(v: bv32, bits: bv32, b: bv32)
    requires SingleBit(b)
    ensures Any(Clear(v, bits), b) == (Any(v, b) && !Any(bits, b))
  {
    if bits & b == 0 {
      AnyOfAndNot(v, bits, b);
    } else {
      AllOrNothing(bits, b);
      AndNotAll(v, bits, b);
    }
  }

  // One bit of a register after bits were switched on or off
  lemma SwitchedBit(v: bv32, bits: bv32, on: bool, b: bv32)
    requires SingleBit(b)
    ensures Any(if on then Set(v, bits) else Clear(v, bits), b) == if Any(bits, b) then on else Any(v, b)
  {
    hide Any, Set, Clear;
    AnyOfSet(v, bits, b);
    ClearSingle(v, bits, b);
  }
}
