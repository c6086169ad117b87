/** The 64-bit word that packs a reader's nesting count (low half) and its grace-period
    phase (bit 32), and the bit tests that the scan of `src/rcu/rcu.c` applies to it. */
module RcuWord {

  const GP_COUNT: bv64 := 0x1
  const PHASE: bv64 := 0x1_0000_0000
  const NEST_MASK: bv64 := 0xffff_ffff
  const MAX_DEPTH: nat := 0xffff_ffff

  /** First test of the scan: is the owner of this word inside a critical section? */
  predicate Active(w: bv64) {
    w & NEST_MASK != 0
  }

  /** Second test of the scan: does the word differ from `gp` in the phase bit? */
  predicate OtherPhase(w: bv64, gp: bv64) {
    (w ^ gp) & PHASE != 0
  }

  /** The phase bit as a boolean. */
  predicate Bit(w: bv64) {
    w & PHASE != 0
  }

  /** `data->gp_seq` after `n` flips, by its parity. */
  function GpWord(n: nat): bv64 {
    if n % 2 == 0 then GP_COUNT else PHASE | GP_COUNT
  }

  function Flip(gp: bv64): bv64 {
    gp ^ PHASE
  }

  function Inc(w: bv64): bv64 {
    w + GP_COUNT
  }

  function Dec(w: bv64): bv64 {
    w - GP_COUNT
  }

  /** The number that a word denotes, bit by bit. */
  function Value(x: bv64): nat {
    if x == 0 then 0 else 2 * Value(x >> 1) + (if x & 1 == 1 then 1 else 0)
  }

  /** The nesting depth: the number in the low half. */
  function Depth(w: bv64): nat {
    Value(w & NEST_MASK)
  }

  function Half(x: bv64): bv64 {
    x >> 1
  }

  predicate Odd(x: bv64) {
    x & 1 == 1
  }

  lemma ValueByHalf(x: bv64)
    ensures Value(x) == 2 * Value(Half(x)) + (if Odd(x) then 1 else 0)
  {
  }

  lemma SuccessorHalf(x: bv64)
    requires x != 0xffff_ffff_ffff_ffff
    ensures Odd(Inc(x)) <==> !Odd(x)
    ensures Half(Inc(x)) == if Odd(x) then Inc(Half(x)) else Half(x)
    ensures Half(x) != 0xffff_ffff_ffff_ffff
  {
  }

  lemma {:induction false} ValueOfSuccessor(x: bv64)
    requires x != 0xffff_ffff_ffff_ffff
    ensures Value(Inc(x)) == Value(x) + 1
    decreases Value(x)
  {
    hide Value, Inc, Half, Odd;
    ValueByHalf(x);
    ValueByHalf(Inc(x));
    SuccessorHalf(x);
    if Odd(x) {
      ValueOfSuccessor(Half(x));
    }
  }

  lemma ValueIsPositive(x: bv64)
    requires x != 0
    ensures Value(x) > 0
  {
    hide Value;
    assert x - 1 != 0xffff_ffff_ffff_ffff && Inc(x - 1) == x;
    ValueOfSuccessor(x - 1);
  }

  lemma ValueAppendOne(x: bv64)
    requires x < 0x1000_0000_0000_0000
    ensures Value(2 * x + 1) == 2 * Value(x) + 1
  {
    assert (2 * x + 1) >> 1 == x && (2 * x + 1) & 1 == 1 && 2 * x + 1 != 0;
  }

  lemma ValueAppendNibble(x: bv64)
    requires x < 0x1_0000_0000
    ensures Value(2 * (2 * (2 * (2 * x + 1) + 1) + 1) + 1) == 16 * Value(x) + 15
  {
    var y := 2 * x + 1;
    var z := 2 * y + 1;
    ValueAppendOne(x);
    ValueAppendOne(y);
    ValueAppendOne(z);
    ValueAppendOne(2 * z + 1);
  }

  lemma ValueOfMask()
    ensures Value(NEST_MASK) == MAX_DEPTH
  {
    ValueAppendNibble(0);
    ValueAppendNibble(0xf);
    ValueAppendNibble(0xff);
    ValueAppendNibble(0xfff);
    ValueAppendNibble(0xffff);
    ValueAppendNibble(0xf_ffff);
    ValueAppendNibble(0xff_ffff);
    ValueAppendNibble(0xfff_ffff);
  }

  lemma NotFull(w: bv64)
    requires Depth(w) < MAX_DEPTH
    ensures w & NEST_MASK != NEST_MASK
  {
    ValueOfMask();
  }

  lemma LowHalfUp(w: bv64)
    requires w & NEST_MASK != NEST_MASK
    ensures Inc(w) & NEST_MASK == Inc(w & NEST_MASK)
    ensures Bit(Inc(w)) == Bit(w) && Active(Inc(w))
    ensures w & NEST_MASK != 0xffff_ffff_ffff_ffff
  {
  }

  lemma LowHalfDown(w: bv64)
    requires Active(w)
    ensures Dec(w) & NEST_MASK != NEST_MASK && Inc(Dec(w)) == w
  {
  }

  /** A word is active exactly when its depth is positive. */
  lemma ActiveIsDepth(w: bv64)
    ensures Active(w) <==> Depth(w) > 0
  {
    if Active(w) {
      ValueIsPositive(w & NEST_MASK);
    }
  }

  /** The scan's exclusive-or test decides equality of phases. */
  lemma OtherPhaseIsBit(w: bv64, gp: bv64)
    ensures OtherPhase(w, gp) <==> Bit(w) != Bit(gp)
  {
  }

  lemma DepthUp(w: bv64)
    requires w & NEST_MASK != NEST_MASK
    ensures Depth(Inc(w)) == Depth(w) + 1
    ensures Bit(Inc(w)) == Bit(w) && Active(Inc(w))
  {
    hide Value, Inc, Bit, Active;
    LowHalfUp(w);
    ValueOfSuccessor(w & NEST_MASK);
  }

  /** A nested lock below the maximal depth adds one to the depth and keeps the phase. */
  lemma IncWord(w: bv64)
    requires Depth(w) < MAX_DEPTH
    ensures Depth(Inc(w)) == Depth(w) + 1
    ensures Bit(Inc(w)) == Bit(w) && Active(Inc(w))
  {
    NotFull(w);
    DepthUp(w);
  }

  /** An unlock takes one from the depth and keeps the phase, also in a word that it empties. */
  lemma DecWord(w: bv64)
    requires Active(w)
    ensures Depth(Dec(w)) + 1 == Depth(w)
    ensures Bit(Dec(w)) == Bit(w)
  {
    LowHalfDown(w);
    DepthUp(Dec(w));
  }

  /** Flipping the global word moves it to the next parity; both of its values are active
      words of depth one, which is what an outermost lock stores. */
  lemma GpWords(n: nat)
    ensures GpWord(0) == GP_COUNT
    ensures Flip(GpWord(n)) == GpWord(n + 1)
    ensures Active(GpWord(n)) && Depth(GpWord(n)) == 1
    ensures Bit(GpWord(n)) <==> n % 2 == 1
  {
    assert n % 2 == 0 <==> (n + 1) % 2 == 1;
    ValueAppendOne(0);
    assert GpWord(n) & NEST_MASK == 1 by {
      assert (PHASE | GP_COUNT) & NEST_MASK == 1;
    }
    assert (PHASE | GP_COUNT) ^ PHASE == GP_COUNT && GP_COUNT ^ PHASE == PHASE | GP_COUNT;
  }
}
