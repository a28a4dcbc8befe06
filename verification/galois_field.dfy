/**
  Multiplication of bytes as elements of GF(2^8), as done by `gfMultiply` in AES128.java:
  the shift-and-reduce loop, with the reduction constant 0x1b standing for the AES modulus
  m(x) = x^8 + x^4 + x^3 + x + 1.

  The loop is checked against an independent reference: the product of the two polynomials
  over GF(2), distributed over the bits of the second factor, each partial product a * x^i
  reduced modulo m(x) by long division.
*/
module GaloisField {
  import opened XorSums

  /** One iteration's update of `a`: multiply by x and reduce (`a <<= 1; if (highBit != 0) a ^= modulo`). */
  function XTime(a: bv8): bv8 {
    if a & 0x80 != 0 then (a << 1) ^ 0x1b else a << 1
  }

  /** Java's `b >>= 1` on a signed byte: an arithmetic shift that copies the sign bit. */
  function ShiftRightSigned(b: bv8): bv8 {
    (b >> 1) | (b & 0x80)
  }

  /** The accumulation step `if ((b & 1) != 0) result ^= a`. */
  function Accumulate(acc: bv8, a: bv8, b: bv8): bv8 {
    if b & 1 != 0 then acc ^ a else acc
  }

  /** The `for` loop of `gfMultiply` with `rounds` iterations left to run. */
  function GfLoop(a: bv8, b: bv8, acc: bv8, rounds: nat): bv8
    decreases rounds
  {
    if rounds == 0 then acc
    else GfLoop(XTime(a), ShiftRightSigned(b), Accumulate(acc, a, b), rounds - 1)
  }

  /** `gfMultiply(a, b)`: eight iterations starting from `result = 0`. */
  function GfMultiply(a: bv8, b: bv8): bv8 {
    GfLoop(a, b, 0, 8)
  }

  // ---------------------------------------------------------------------------
  // Reference definition: polynomial product modulo m(x)

  predicate BitAt(b: bv8, i: nat)
    requires i < 8
  {
    (b >> i) & 1 != 0
  }

  function Pick(c: bool, v: bv8): bv8 {
    if c then v else 0
  }

  /** One long-division step: if the coefficient selected by `bit` is set, subtract (XOR) the
      modulus shifted so that its leading term lines up with it. */
  function Cancel(p: bv16, bit: bv16, shiftedModulus: bv16): bv16 {
    if p & bit != 0 then p ^ shiftedModulus else p
  }

  /** The remainder of a polynomial of degree at most 15 modulo m(x) = 0x11b, by long division
      from x^15 down to x^8. */
  function PolyMod(p: bv16): bv8 {
    var q := Cancel(Cancel(Cancel(Cancel(Cancel(Cancel(Cancel(Cancel(p,
      0x8000, 0x8d80), 0x4000, 0x46c0), 0x2000, 0x2360), 0x1000, 0x11b0),
      0x0800, 0x08d8), 0x0400, 0x046c), 0x0200, 0x0236), 0x0100, 0x011b);
    (q & 0xff) as bv8
  }

  /** a * x^i as a polynomial of degree at most 14. */
  function ShiftedPoly(a: bv8, i: nat): bv16
    requires i < 8
  {
    (a as bv16) << i
  }

  /** The terms i..7 of the product a * b: the sum, over the set bits i of b, of a * x^i mod m(x). */
  function FieldSum(a: bv8, b: bv8, i: nat): bv8
    requires i <= 8
    decreases 8 - i
  {
    if i == 8 then 0
    else Pick(BitAt(b, i), PolyMod(ShiftedPoly(a, i))) ^ FieldSum(a, b, i + 1)
  }

  /** The product a * b in GF(2^8) = GF(2)[x] / m(x). */
  function FieldProduct(a: bv8, b: bv8): bv8 {
    FieldSum(a, b, 0)
  }

  // ---------------------------------------------------------------------------
  // The loop computes the xtime expansion of the product

  /** x^i * a computed by i applications of XTime. */
  function XTimes(a: bv8, i: nat): bv8 {
    if i == 0 then a else XTime(XTimes(a, i - 1))
  }

  /** `b` after i executions of `b >>= 1`. */
  function ShiftsRightSigned(b: bv8, i: nat): bv8 {
    if i == 0 then b else ShiftRightSigned(ShiftsRightSigned(b, i - 1))
  }

  /** The terms i..7 of the product, with x^i * a computed by XTime. */
  function Expansion(a: bv8, b: bv8, i: nat): bv8
    requires i <= 8
    decreases 8 - i
  {
    if i == 8 then 0
    else Pick(BitAt(b, i), XTimes(a, i)) ^ Expansion(a, b, i + 1)
  }

  lemma ShiftRightSignedBit(b: bv8, j: nat)
    requires j < 7
    ensures BitAt(ShiftRightSigned(b), j) == BitAt(b, j + 1)
  {
  }

  /** After i arithmetic shifts, bit j is bit i + j of the original as long as i + j < 8:
      the copies of the sign bit only ever fill positions that the loop never tests. */
  lemma {:induction false} ShiftsRightSignedBit(b: bv8, i: nat, j: nat)
    requires i + j < 8
    ensures BitAt(ShiftsRightSigned(b, i), j) == BitAt(b, i + j)
    decreases i
  {
    if i > 0 {
      ShiftRightSignedBit(ShiftsRightSigned(b, i - 1), j);
      ShiftsRightSignedBit(b, i - 1, j + 1);
    }
  }

  lemma LoopUnfold(a: bv8, b: bv8, acc: bv8, i: nat)
    requires i < 8
    ensures GfLoop(XTimes(a, i), ShiftsRightSigned(b, i), acc, 8 - i)
         == GfLoop(XTimes(a, i + 1), ShiftsRightSigned(b, i + 1),
                   Accumulate(acc, XTimes(a, i), ShiftsRightSigned(b, i)), 8 - (i + 1))
  {
  }

  lemma AccumulateStep(a: bv8, b: bv8, acc: bv8, i: nat)
    requires i < 8
    ensures Accumulate(acc, XTimes(a, i), ShiftsRightSigned(b, i)) ^ Expansion(a, b, i + 1)
         == acc ^ Expansion(a, b, i)
  {
    ShiftsRightSignedBit(b, i, 0);
  }

  /** The loop invariant of `gfMultiply`: before iteration i, `a` holds x^i * a0, `b` holds b0
      shifted i times, and `result` XOR the remaining terms is the whole expansion. */
  lemma {:induction false} GfLoopInvariant(a: bv8, b: bv8, acc: bv8, i: nat)
    requires i <= 8
    ensures GfLoop(XTimes(a, i), ShiftsRightSigned(b, i), acc, 8 - i) == acc ^ Expansion(a, b, i)
    decreases 8 - i
  {
    if i < 8 {
      var acc' := Accumulate(acc, XTimes(a, i), ShiftsRightSigned(b, i));
      LoopUnfold(a, b, acc, i);
      GfLoopInvariant(a, b, acc', i + 1);
      AccumulateStep(a, b, acc, i);
    }
  }

  lemma GfMultiplyExpansion(a: bv8, b: bv8)
    ensures GfMultiply(a, b) == Expansion(a, b, 0)
  {
    GfLoopInvariant(a, b, 0, 0);
  }

  // ---------------------------------------------------------------------------
  // The expansion agrees with the reference

  // One lemma per exponent: the bit-level comparison is cheap for the solver only when each
  // exponent is checked on its own.

  lemma XTimesIsReducedShift1(a: bv8)
    ensures XTimes(a, 1) == PolyMod(ShiftedPoly(a, 1))
  {
    assert XTimes(a, 1) == XTime(a);
  }

  lemma XTimesIsReducedShift2(a: bv8)
    ensures XTimes(a, 2) == PolyMod(ShiftedPoly(a, 2))
  {
    assert XTimes(a, 2) == XTime(XTime(a)) by {
      assert XTimes(a, 1) == XTime(a);
    }
  }

  lemma XTimesIsReducedShift3(a: bv8)
    ensures XTimes(a, 3) == PolyMod(ShiftedPoly(a, 3))
  {
    assert XTimes(a, 3) == XTime(XTime(XTime(a))) by {
      assert XTimes(a, 1) == XTime(a);
      assert XTimes(a, 2) == XTime(XTime(a));
    }
  }

  lemma XTimesIsReducedShift4(a: bv8)
    ensures XTimes(a, 4) == PolyMod(ShiftedPoly(a, 4))
  {
    assert XTimes(a, 4) == XTime(XTime(XTime(XTime(a)))) by {
      assert XTimes(a, 1) == XTime(a);
      assert XTimes(a, 2) == XTime(XTime(a));
      assert XTimes(a, 3) == XTime(XTime(XTime(a)));
    }
  }

  lemma XTimesIsReducedShift5(a: bv8)
    ensures XTimes(a, 5) == PolyMod(ShiftedPoly(a, 5))
  {
    assert XTimes(a, 5) == XTime(XTime(XTime(XTime(XTime(a))))) by {
      assert XTimes(a, 1) == XTime(a);
      assert XTimes(a, 2) == XTime(XTime(a));
      assert XTimes(a, 3) == XTime(XTime(XTime(a)));
      assert XTimes(a, 4) == XTime(XTime(XTime(XTime(a))));
    }
  }

  lemma XTimesIsReducedShift6(a: bv8)
    ensures XTimes(a, 6) == PolyMod(ShiftedPoly(a, 6))
  {
    assert XTimes(a, 6) == XTime(XTime(XTime(XTime(XTime(XTime(a)))))) by {
      assert XTimes(a, 1) == XTime(a);
      assert XTimes(a, 2) == XTime(XTime(a));
      assert XTimes(a, 3) == XTime(XTime(XTime(a)));
      assert XTimes(a, 4) == XTime(XTime(XTime(XTime(a))));
      assert XTimes(a, 5) == XTime(XTime(XTime(XTime(XTime(a)))));
    }
  }

  lemma XTimesIsReducedShift7(a: bv8)
    ensures XTimes(a, 7) == PolyMod(ShiftedPoly(a, 7))
  {
    assert XTimes(a, 7) == XTime(XTime(XTime(XTime(XTime(XTime(XTime(a))))))) by {
      assert XTimes(a, 1) == XTime(a);
      assert XTimes(a, 2) == XTime(XTime(a));
      assert XTimes(a, 3) == XTime(XTime(XTime(a)));
      assert XTimes(a, 4) == XTime(XTime(XTime(XTime(a))));
      assert XTimes(a, 5) == XTime(XTime(XTime(XTime(XTime(a)))));
      assert XTimes(a, 6) == XTime(XTime(XTime(XTime(XTime(XTime(a))))));
    }
  }

  /** x^k * a computed by XTime is the shifted polynomial reduced modulo m(x). */
  lemma XTimesIsReducedShift(a: bv8, k: nat)
    requires k < 8
    ensures XTimes(a, k) == PolyMod(ShiftedPoly(a, k))
  {
    match k
    case 0 =>
    case 1 => XTimesIsReducedShift1(a);
    case 2 => XTimesIsReducedShift2(a);
    case 3 => XTimesIsReducedShift3(a);
    case 4 => XTimesIsReducedShift4(a);
    case 5 => XTimesIsReducedShift5(a);
    case 6 => XTimesIsReducedShift6(a);
    case 7 => XTimesIsReducedShift7(a);
  }

  lemma {:induction false} ExpansionIsFieldSum(a: bv8, b: bv8, i: nat)
    requires i <= 8
    ensures Expansion(a, b, i) == FieldSum(a, b, i)
    decreases 8 - i
  {
    if i < 8 {
      XTimesIsReducedShift(a, i);
      ExpansionIsFieldSum(a, b, i + 1);
    }
  }

  /** `gfMultiply` is multiplication in GF(2^8) for every pair of bytes. This holds for
      b >= 0x80 as well: the arithmetic shift only changes bits the loop never tests. */
  lemma GfMultiplyIsFieldProduct(a: bv8, b: bv8)
    ensures GfMultiply(a, b) == FieldProduct(a, b)
  {
    GfMultiplyExpansion(a, b);
    ExpansionIsFieldSum(a, b, 0);
  }

  // ---------------------------------------------------------------------------
  // The multipliers used by MixColumns and InvMixColumns, as sums of powers of x

  function Mul02(x: bv8): bv8 { XTime(x) }
  function Mul03(x: bv8): bv8 { XTime(x) ^ x }
  function Mul09(x: bv8): bv8 { XTime(XTime(XTime(x))) ^ x }
  function Mul0b(x: bv8): bv8 { XTime(XTime(XTime(x))) ^ XTime(x) ^ x }
  function Mul0d(x: bv8): bv8 { XTime(XTime(XTime(x))) ^ XTime(XTime(x)) ^ x }
  function Mul0e(x: bv8): bv8 { XTime(XTime(XTime(x))) ^ XTime(XTime(x)) ^ XTime(x) }

  /** Once the bits of b from position i upwards are all clear, the remaining terms vanish. */
  lemma {:induction false} ExpansionTail(a: bv8, b: bv8, i: nat)
    requires i <= 8
    requires forall j :: i <= j < 8 ==> !BitAt(b, j)
    ensures Expansion(a, b, i) == 0
    decreases 8 - i
  {
    if i < 8 {
      ExpansionTail(a, b, i + 1);
    }
  }

  lemma ExpansionStep(a: bv8, b: bv8, i: nat)
    requires i < 8
    ensures Expansion(a, b, i) == Pick(BitAt(b, i), XTimes(a, i)) ^ Expansion(a, b, i + 1)
  {
  }

  /** Two consecutive terms of the expansion, unrolled. Unrolling more per lemma makes the
      solver bit-blast the shifts of all the `BitAt` terms together. */
  lemma ExpansionTwo(a: bv8, b: bv8, i: nat)
    requires i <= 6
    ensures Expansion(a, b, i) == Pick(BitAt(b, i), XTimes(a, i)) ^ (Pick(BitAt(b, i + 1), XTimes(a, i + 1)) ^ Expansion(a, b, i + 2))
  {
    ExpansionStep(a, b, i);
    ExpansionStep(a, b, i + 1);
  }

  lemma XTimesSmall(x: bv8)
    ensures XTimes(x, 1) == XTime(x)
    ensures XTimes(x, 2) == XTime(XTime(x))
    ensures XTimes(x, 3) == XTime(XTime(XTime(x)))
  {
    assert XTimes(x, 1) == XTime(x);
    assert XTimes(x, 2) == XTime(XTime(x));
  }

  lemma Bits02()
    ensures !BitAt(0x02, 0) && BitAt(0x02, 1) && !BitAt(0x02, 2) && !BitAt(0x02, 3)
    ensures forall j :: 4 <= j < 8 ==> !BitAt(0x02, j)
  {
  }

  /** gfMultiply(x, 0x02) in closed form. */
  lemma GfMultiply02(x: bv8)
    ensures GfMultiply(x, 0x02) == Mul02(x)
  {
    GfMultiplyExpansion(x, 0x02);
    ExpansionTwo(x, 0x02, 0);
    ExpansionTwo(x, 0x02, 2);
    Bits02();
    ExpansionTail(x, 0x02, 4);
    XTimesSmall(x);
  }

  lemma Bits03()
    ensures BitAt(0x03, 0) && BitAt(0x03, 1) && !BitAt(0x03, 2) && !BitAt(0x03, 3)
    ensures forall j :: 4 <= j < 8 ==> !BitAt(0x03, j)
  {
  }

  /** gfMultiply(x, 0x03) in closed form. */
  lemma GfMultiply03(x: bv8)
    ensures GfMultiply(x, 0x03) == Mul03(x)
  {
    GfMultiplyExpansion(x, 0x03);
    ExpansionTwo(x, 0x03, 0);
    ExpansionTwo(x, 0x03, 2);
    Bits03();
    ExpansionTail(x, 0x03, 4);
    XTimesSmall(x);
  }

  lemma Bits09()
    ensures BitAt(0x09, 0) && !BitAt(0x09, 1) && !BitAt(0x09, 2) && BitAt(0x09, 3)
    ensures forall j :: 4 <= j < 8 ==> !BitAt(0x09, j)
  {
  }

  /** gfMultiply(x, 0x09) in closed form. */
  lemma GfMultiply09(x: bv8)
    ensures GfMultiply(x, 0x09) == Mul09(x)
  {
    GfMultiplyExpansion(x, 0x09);
    ExpansionTwo(x, 0x09, 0);
    ExpansionTwo(x, 0x09, 2);
    Bits09();
    ExpansionTail(x, 0x09, 4);
    XTimesSmall(x);
  }

  lemma Bits0b()
    ensures BitAt(0x0b, 0) && BitAt(0x0b, 1) && !BitAt(0x0b, 2) && BitAt(0x0b, 3)
    ensures forall j :: 4 <= j < 8 ==> !BitAt(0x0b, j)
  {
  }

  /** gfMultiply(x, 0x0b) in closed form. */
  lemma GfMultiply0b(x: bv8)
    ensures GfMultiply(x, 0x0b) == Mul0b(x)
  {
    GfMultiplyExpansion(x, 0x0b);
    ExpansionTwo(x, 0x0b, 0);
    ExpansionTwo(x, 0x0b, 2);
    Bits0b();
    ExpansionTail(x, 0x0b, 4);
    XTimesSmall(x);
  }

  lemma Bits0d()
    ensures BitAt(0x0d, 0) && !BitAt(0x0d, 1) && BitAt(0x0d, 2) && BitAt(0x0d, 3)
    ensures forall j :: 4 <= j < 8 ==> !BitAt(0x0d, j)
  {
  }

  /** gfMultiply(x, 0x0d) in closed form. */
  lemma GfMultiply0d(x: bv8)
    ensures GfMultiply(x, 0x0d) == Mul0d(x)
  {
    GfMultiplyExpansion(x, 0x0d);
    ExpansionTwo(x, 0x0d, 0);
    ExpansionTwo(x, 0x0d, 2);
    Bits0d();
    ExpansionTail(x, 0x0d, 4);
    XTimesSmall(x);
  }

  lemma Bits0e()
    ensures !BitAt(0x0e, 0) && BitAt(0x0e, 1) && BitAt(0x0e, 2) && BitAt(0x0e, 3)
    ensures forall j :: 4 <= j < 8 ==> !BitAt(0x0e, j)
  {
  }

  /** gfMultiply(x, 0x0e) in closed form. */
  lemma GfMultiply0e(x: bv8)
    ensures GfMultiply(x, 0x0e) == Mul0e(x)
  {
    GfMultiplyExpansion(x, 0x0e);
    ExpansionTwo(x, 0x0e, 0);
    ExpansionTwo(x, 0x0e, 2);
    Bits0e();
    ExpansionTail(x, 0x0e, 4);
    XTimesSmall(x);
  }

  // ---------------------------------------------------------------------------
  // The field identities behind the inverse of MixColumns

  /** Multiplication by x distributes over addition. */
  lemma XTimeLinear(u: bv8, v: bv8)
    ensures XTime(u ^ v) == XTime(u) ^ XTime(v)
  {
    ShiftLeftLinear(u, v);
    if u & 0x80 != 0 {
      if v & 0x80 != 0 {
        assert (u ^ v) & 0x80 == 0;
      } else {
        assert (u ^ v) & 0x80 != 0;
      }
    } else if v & 0x80 != 0 {
      assert (u ^ v) & 0x80 != 0;
    } else {
      assert (u ^ v) & 0x80 == 0;
    }
  }

  lemma ShiftLeftLinear(u: bv8, v: bv8)
    ensures (u ^ v) << 1 == (u << 1) ^ (v << 1)
  {
  }

  lemma AccumulateLinear(acc1: bv8, acc2: bv8, u: bv8, v: bv8, b: bv8)
    ensures Accumulate(acc1 ^ acc2, u ^ v, b) == Accumulate(acc1, u, b) ^ Accumulate(acc2, v, b)
  {
  }

  lemma LoopStep(a: bv8, b: bv8, acc: bv8, rounds: nat)
    requires rounds > 0
    ensures GfLoop(a, b, acc, rounds) == GfLoop(XTime(a), ShiftRightSigned(b), Accumulate(acc, a, b), rounds - 1)
  {
  }

  /** Running the loop on u ^ v (from accumulator acc1 ^ acc2) gives the XOR of the two runs. */
  predicate LoopIsLinear(u: bv8, v: bv8, b: bv8, acc1: bv8, acc2: bv8, rounds: nat) {
    GfLoop(u ^ v, b, acc1 ^ acc2, rounds) == GfLoop(u, b, acc1, rounds) ^ GfLoop(v, b, acc2, rounds)
  }

  lemma LoopIsLinearBase(u: bv8, v: bv8, b: bv8, acc1: bv8, acc2: bv8)
    ensures LoopIsLinear(u, v, b, acc1, acc2, 0)
  {
  }

  lemma LoopIsLinearStep(u: bv8, v: bv8, b: bv8, acc1: bv8, acc2: bv8, rounds: nat)
    requires rounds > 0
    requires LoopIsLinear(XTime(u), XTime(v), ShiftRightSigned(b), Accumulate(acc1, u, b), Accumulate(acc2, v, b), rounds - 1)
    ensures LoopIsLinear(u, v, b, acc1, acc2, rounds)
  {
    LoopStep(u ^ v, b, acc1 ^ acc2, rounds);
    XTimeLinear(u, v);
    AccumulateLinear(acc1, acc2, u, v, b);
    LoopStep(u, b, acc1, rounds);
    LoopStep(v, b, acc2, rounds);
  }

  lemma {:induction false} GfLoopLinear(u: bv8, v: bv8, b: bv8, acc1: bv8, acc2: bv8, rounds: nat)
    ensures LoopIsLinear(u, v, b, acc1, acc2, rounds)
    decreases rounds
  {
    if rounds == 0 {
      LoopIsLinearBase(u, v, b, acc1, acc2);
    } else {
      GfLoopLinear(XTime(u), XTime(v), ShiftRightSigned(b), Accumulate(acc1, u, b), Accumulate(acc2, v, b), rounds - 1);
      LoopIsLinearStep(u, v, b, acc1, acc2, rounds);
    }
  }

  /** gfMultiply distributes over XOR in its first argument, for every multiplier. */
  lemma GfMultiplyLinear(u: bv8, v: bv8, b: bv8)
    ensures GfMultiply(u ^ v, b) == GfMultiply(u, b) ^ GfMultiply(v, b)
  {
    GfLoopLinear(u, v, b, 0, 0, 8);
  }

  /** `GfMultiplyLinear`, for a split byte. */
  lemma GfMultiplySplits(x: bv8, u: bv8, v: bv8, b: bv8)
    requires SplitsAs(x, u, v)
    ensures SplitsAs(GfMultiply(x, b), GfMultiply(u, b), GfMultiply(v, b))
  {
    GfMultiplyLinear(u, v, b);
  }

  /** Multiplying a XOR of four bytes multiplies each of them. */
  lemma GfMultiplySum4(x: bv8, t0: bv8, t1: bv8, t2: bv8, t3: bv8, b: bv8)
    requires Sum4(x, t0, t1, t2, t3)
    ensures Sum4(GfMultiply(x, b), GfMultiply(t0, b), GfMultiply(t1, b), GfMultiply(t2, b), GfMultiply(t3, b))
  {
    SplitsOfSum4(x, t0, t1, t2, t3);
    GfMultiplySplits(x, t0 ^ t1 ^ t2, t3, b);
    GfMultiplySplits(t0 ^ t1 ^ t2, t0 ^ t1, t2, b);
    GfMultiplySplits(t0 ^ t1, t0, t1, b);
    Sum4OfSplits(GfMultiply(x, b), GfMultiply(t0 ^ t1 ^ t2, b), GfMultiply(t0 ^ t1, b),
      GfMultiply(t0, b), GfMultiply(t1, b), GfMultiply(t2, b), GfMultiply(t3, b));
  }

  // ---------------------------------------------------------------------------
  // Multipliers as sums of repeated doublings

  /** gfMultiply(y, 0x03) as a sum of repeated gfMultiply(_, 0x02). */
  lemma GfMultiply03ByDoubling(y: bv8)
    ensures SplitsAs(GfMultiply(y, 0x03), GfMultiply(y, 0x02), y)
  {
    GfMultiply03(y);
    GfMultiply02(y);
  }

  /** gfMultiply(y, 0x09) as a sum of repeated gfMultiply(_, 0x02). */
  lemma GfMultiply09ByDoubling(y: bv8)
    ensures SplitsAs(GfMultiply(y, 0x09), GfMultiply(GfMultiply(GfMultiply(y, 0x02), 0x02), 0x02), y)
  {
    GfMultiply09(y);
    GfMultiply02(y);
    GfMultiply02(GfMultiply(y, 0x02));
    GfMultiply02(GfMultiply(GfMultiply(y, 0x02), 0x02));
  }

  /** gfMultiply(y, 0x0b) as a sum of repeated gfMultiply(_, 0x02). */
  lemma GfMultiply0bByDoubling(y: bv8)
    ensures Sum3(GfMultiply(y, 0x0b), GfMultiply(GfMultiply(GfMultiply(y, 0x02), 0x02), 0x02), GfMultiply(y, 0x02), y)
  {
    GfMultiply0b(y);
    GfMultiply02(y);
    GfMultiply02(GfMultiply(y, 0x02));
    GfMultiply02(GfMultiply(GfMultiply(y, 0x02), 0x02));
  }

  /** gfMultiply(y, 0x0d) as a sum of repeated gfMultiply(_, 0x02). */
  lemma GfMultiply0dByDoubling(y: bv8)
    ensures Sum3(GfMultiply(y, 0x0d), GfMultiply(GfMultiply(GfMultiply(y, 0x02), 0x02), 0x02), GfMultiply(GfMultiply(y, 0x02), 0x02), y)
  {
    GfMultiply0d(y);
    GfMultiply02(y);
    GfMultiply02(GfMultiply(y, 0x02));
    GfMultiply02(GfMultiply(GfMultiply(y, 0x02), 0x02));
  }

  /** gfMultiply(y, 0x0e) as a sum of repeated gfMultiply(_, 0x02). */
  lemma GfMultiply0eByDoubling(y: bv8)
    ensures Sum3(GfMultiply(y, 0x0e), GfMultiply(GfMultiply(GfMultiply(y, 0x02), 0x02), 0x02), GfMultiply(GfMultiply(y, 0x02), 0x02), GfMultiply(y, 0x02))
  {
    GfMultiply0e(y);
    GfMultiply02(y);
    GfMultiply02(GfMultiply(y, 0x02));
    GfMultiply02(GfMultiply(GfMultiply(y, 0x02), 0x02));
  }

  // ---------------------------------------------------------------------------
  // The matrices {0e,0b,0d,09} and {02,03,01,01} of InvMixColumns and MixColumns are inverse
  // circulants. Each identity below is one entry of their product, for one byte at distance d from
  // the diagonal, stated as a Sum4 fact; with tk the k-fold doubling of x, each is a parity fact
  // about x, t1 .. t4 and the doublings of the inner products.

  lemma InvMixMixParity0(x: bv8, t1: bv8, t2: bv8, t3: bv8, t4: bv8, p0: bv8, p1: bv8, p2: bv8, p3: bv8, a0: bv8, a1: bv8, a2: bv8, a3: bv8)
    requires Sum3(p0, t4, t3, t2)
    requires Sum3(p1, t3, t1, x)
    requires Sum3(p2, t3, t2, x)
    requires SplitsAs(p3, a3, a0)
    requires SplitsAs(a0, t1, x)
    requires SplitsAs(a1, t2, t1)
    requires SplitsAs(a2, t3, t2)
    requires SplitsAs(a3, t4, t3)
    ensures Sum4(x, p0, p1, p2, p3)
  {
  }

  lemma GfMultiplyInvMixMix0(x: bv8)
    ensures Sum4(x, GfMultiply(GfMultiply(x, 0x02), 0x0e), GfMultiply(x, 0x0b), GfMultiply(x, 0x0d), GfMultiply(GfMultiply(x, 0x03), 0x09))
  {
    var t1 := GfMultiply(x, 0x02);
    var t2 := GfMultiply(t1, 0x02);
    var t3 := GfMultiply(t2, 0x02);
    var t4 := GfMultiply(t3, 0x02);
    var a0 := GfMultiply(x, 0x03);
    var a1 := GfMultiply(a0, 0x02);
    var a2 := GfMultiply(a1, 0x02);
    var a3 := GfMultiply(a2, 0x02);
    GfMultiply0eByDoubling(t1);
    GfMultiply0bByDoubling(x);
    GfMultiply0dByDoubling(x);
    GfMultiply03ByDoubling(x);
    GfMultiplySplits(a0, t1, x, 0x02);
    GfMultiplySplits(a1, t2, t1, 0x02);
    GfMultiplySplits(a2, t3, t2, 0x02);
    GfMultiply09ByDoubling(a0);
    InvMixMixParity0(x, t1, t2, t3, t4, GfMultiply(GfMultiply(x, 0x02), 0x0e), GfMultiply(x, 0x0b), GfMultiply(x, 0x0d), GfMultiply(GfMultiply(x, 0x03), 0x09), a0, a1, a2, a3);
  }

  lemma InvMixMixParity1(x: bv8, t1: bv8, t2: bv8, t3: bv8, t4: bv8, p0: bv8, p1: bv8, p2: bv8, p3: bv8, a0: bv8, a1: bv8, a2: bv8, a3: bv8)
    requires Sum3(p0, a3, a2, a1)
    requires Sum3(p1, t4, t2, t1)
    requires Sum3(p2, t3, t2, x)
    requires SplitsAs(p3, t3, x)
    requires SplitsAs(a0, t1, x)
    requires SplitsAs(a1, t2, t1)
    requires SplitsAs(a2, t3, t2)
    requires SplitsAs(a3, t4, t3)
    ensures Sum4(0, p0, p1, p2, p3)
  {
  }

  lemma GfMultiplyInvMixMix1(x: bv8)
    ensures Sum4(0, GfMultiply(GfMultiply(x, 0x03), 0x0e), GfMultiply(GfMultiply(x, 0x02), 0x0b), GfMultiply(x, 0x0d), GfMultiply(x, 0x09))
  {
    var t1 := GfMultiply(x, 0x02);
    var t2 := GfMultiply(t1, 0x02);
    var t3 := GfMultiply(t2, 0x02);
    var t4 := GfMultiply(t3, 0x02);
    var a0 := GfMultiply(x, 0x03);
    var a1 := GfMultiply(a0, 0x02);
    var a2 := GfMultiply(a1, 0x02);
    var a3 := GfMultiply(a2, 0x02);
    GfMultiply03ByDoubling(x);
    GfMultiplySplits(a0, t1, x, 0x02);
    GfMultiplySplits(a1, t2, t1, 0x02);
    GfMultiplySplits(a2, t3, t2, 0x02);
    GfMultiply0eByDoubling(a0);
    GfMultiply0bByDoubling(t1);
    GfMultiply0dByDoubling(x);
    GfMultiply09ByDoubling(x);
    InvMixMixParity1(x, t1, t2, t3, t4, GfMultiply(GfMultiply(x, 0x03), 0x0e), GfMultiply(GfMultiply(x, 0x02), 0x0b), GfMultiply(x, 0x0d), GfMultiply(x, 0x09), a0, a1, a2, a3);
  }

  lemma InvMixMixParity2(x: bv8, t1: bv8, t2: bv8, t3: bv8, t4: bv8, p0: bv8, p1: bv8, p2: bv8, p3: bv8, a0: bv8, a1: bv8, a2: bv8, a3: bv8)
    requires Sum3(p0, t3, t2, t1)
    requires Sum3(p1, a3, a1, a0)
    requires Sum3(p2, t4, t3, t1)
    requires SplitsAs(p3, t3, x)
    requires SplitsAs(a0, t1, x)
    requires SplitsAs(a1, t2, t1)
    requires SplitsAs(a2, t3, t2)
    requires SplitsAs(a3, t4, t3)
    ensures Sum4(0, p0, p1, p2, p3)
  {
  }

  lemma GfMultiplyInvMixMix2(x: bv8)
    ensures Sum4(0, GfMultiply(x, 0x0e), GfMultiply(GfMultiply(x, 0x03), 0x0b), GfMultiply(GfMultiply(x, 0x02), 0x0d), GfMultiply(x, 0x09))
  {
    var t1 := GfMultiply(x, 0x02);
    var t2 := GfMultiply(t1, 0x02);
    var t3 := GfMultiply(t2, 0x02);
    var t4 := GfMultiply(t3, 0x02);
    var a0 := GfMultiply(x, 0x03);
    var a1 := GfMultiply(a0, 0x02);
    var a2 := GfMultiply(a1, 0x02);
    var a3 := GfMultiply(a2, 0x02);
    GfMultiply0eByDoubling(x);
    GfMultiply03ByDoubling(x);
    GfMultiplySplits(a0, t1, x, 0x02);
    GfMultiplySplits(a1, t2, t1, 0x02);
    GfMultiplySplits(a2, t3, t2, 0x02);
    GfMultiply0bByDoubling(a0);
    GfMultiply0dByDoubling(t1);
    GfMultiply09ByDoubling(x);
    InvMixMixParity2(x, t1, t2, t3, t4, GfMultiply(x, 0x0e), GfMultiply(GfMultiply(x, 0x03), 0x0b), GfMultiply(GfMultiply(x, 0x02), 0x0d), GfMultiply(x, 0x09), a0, a1, a2, a3);
  }

  lemma InvMixMixParity3(x: bv8, t1: bv8, t2: bv8, t3: bv8, t4: bv8, p0: bv8, p1: bv8, p2: bv8, p3: bv8, a0: bv8, a1: bv8, a2: bv8, a3: bv8)
    requires Sum3(p0, t3, t2, t1)
    requires Sum3(p1, t3, t1, x)
    requires Sum3(p2, a3, a2, a0)
    requires SplitsAs(p3, t4, t1)
    requires SplitsAs(a0, t1, x)
    requires SplitsAs(a1, t2, t1)
    requires SplitsAs(a2, t3, t2)
    requires SplitsAs(a3, t4, t3)
    ensures Sum4(0, p0, p1, p2, p3)
  {
  }

  lemma GfMultiplyInvMixMix3(x: bv8)
    ensures Sum4(0, GfMultiply(x, 0x0e), GfMultiply(x, 0x0b), GfMultiply(GfMultiply(x, 0x03), 0x0d), GfMultiply(GfMultiply(x, 0x02), 0x09))
  {
    var t1 := GfMultiply(x, 0x02);
    var t2 := GfMultiply(t1, 0x02);
    var t3 := GfMultiply(t2, 0x02);
    var t4 := GfMultiply(t3, 0x02);
    var a0 := GfMultiply(x, 0x03);
    var a1 := GfMultiply(a0, 0x02);
    var a2 := GfMultiply(a1, 0x02);
    var a3 := GfMultiply(a2, 0x02);
    GfMultiply0eByDoubling(x);
    GfMultiply0bByDoubling(x);
    GfMultiply03ByDoubling(x);
    GfMultiplySplits(a0, t1, x, 0x02);
    GfMultiplySplits(a1, t2, t1, 0x02);
    GfMultiplySplits(a2, t3, t2, 0x02);
    GfMultiply0dByDoubling(a0);
    GfMultiply09ByDoubling(t1);
    InvMixMixParity3(x, t1, t2, t3, t4, GfMultiply(x, 0x0e), GfMultiply(x, 0x0b), GfMultiply(GfMultiply(x, 0x03), 0x0d), GfMultiply(GfMultiply(x, 0x02), 0x09), a0, a1, a2, a3);
  }

  lemma MixInvMixParity0(x: bv8, t1: bv8, t2: bv8, t3: bv8, t4: bv8, p0: bv8, p1: bv8, p2: bv8, p3: bv8, a0: bv8, aq0: bv8, aq1: bv8, a1: bv8, b0: bv8, b1: bv8)
    requires p0 == a1
    requires SplitsAs(p1, b1, b0)
    requires Sum3(p2, t3, t2, x)
    requires Sum3(p3, t3, t1, x)
    requires SplitsAs(a0, aq0, t1)
    requires SplitsAs(aq0, t3, t2)
    requires SplitsAs(aq1, t4, t3)
    requires SplitsAs(a1, aq1, t2)
    requires SplitsAs(b0, t3, x)
    requires SplitsAs(b1, t4, t1)
    ensures Sum4(x, p0, p1, p2, p3)
  {
  }

  lemma GfMultiplyMixInvMix0(x: bv8)
    ensures Sum4(x, GfMultiply(GfMultiply(x, 0x0e), 0x02), GfMultiply(GfMultiply(x, 0x09), 0x03), GfMultiply(x, 0x0d), GfMultiply(x, 0x0b))
  {
    var t1 := GfMultiply(x, 0x02);
    var t2 := GfMultiply(t1, 0x02);
    var t3 := GfMultiply(t2, 0x02);
    var t4 := GfMultiply(t3, 0x02);
    var a0 := GfMultiply(x, 0x0e);
    var aq0 := t3 ^ t2;
    var aq1 := GfMultiply(aq0, 0x02);
    var a1 := GfMultiply(a0, 0x02);
    var b0 := GfMultiply(x, 0x09);
    var b1 := GfMultiply(b0, 0x02);
    GfMultiply0eByDoubling(x);
    SplitsOfSum3(a0, t3, t2, t1);
    GfMultiplySplits(aq0, t3, t2, 0x02);
    GfMultiplySplits(a0, aq0, t1, 0x02);
    GfMultiply09ByDoubling(x);
    GfMultiplySplits(b0, t3, x, 0x02);
    GfMultiply03ByDoubling(b0);
    GfMultiply0dByDoubling(x);
    GfMultiply0bByDoubling(x);
    MixInvMixParity0(x, t1, t2, t3, t4, GfMultiply(GfMultiply(x, 0x0e), 0x02), GfMultiply(GfMultiply(x, 0x09), 0x03), GfMultiply(x, 0x0d), GfMultiply(x, 0x0b), a0, aq0, aq1, a1, b0, b1);
  }

  lemma MixInvMixParity1(x: bv8, t1: bv8, t2: bv8, t3: bv8, t4: bv8, p0: bv8, p1: bv8, p2: bv8, p3: bv8, a0: bv8, aq0: bv8, aq1: bv8, a1: bv8, b0: bv8, bq0: bv8, bq1: bv8, b1: bv8)
    requires p0 == a1
    requires SplitsAs(p1, b1, b0)
    requires SplitsAs(p2, t3, x)
    requires Sum3(p3, t3, t2, x)
    requires SplitsAs(a0, aq0, x)
    requires SplitsAs(aq0, t3, t1)
    requires SplitsAs(aq1, t4, t2)
    requires SplitsAs(a1, aq1, t1)
    requires SplitsAs(b0, bq0, t1)
    requires SplitsAs(bq0, t3, t2)
    requires SplitsAs(bq1, t4, t3)
    requires SplitsAs(b1, bq1, t2)
    ensures Sum4(0, p0, p1, p2, p3)
  {
  }

  lemma GfMultiplyMixInvMix1(x: bv8)
    ensures Sum4(0, GfMultiply(GfMultiply(x, 0x0b), 0x02), GfMultiply(GfMultiply(x, 0x0e), 0x03), GfMultiply(x, 0x09), GfMultiply(x, 0x0d))
  {
    var t1 := GfMultiply(x, 0x02);
    var t2 := GfMultiply(t1, 0x02);
    var t3 := GfMultiply(t2, 0x02);
    var t4 := GfMultiply(t3, 0x02);
    var a0 := GfMultiply(x, 0x0b);
    var aq0 := t3 ^ t1;
    var aq1 := GfMultiply(aq0, 0x02);
    var a1 := GfMultiply(a0, 0x02);
    var b0 := GfMultiply(x, 0x0e);
    var bq0 := t3 ^ t2;
    var bq1 := GfMultiply(bq0, 0x02);
    var b1 := GfMultiply(b0, 0x02);
    GfMultiply0bByDoubling(x);
    SplitsOfSum3(a0, t3, t1, x);
    GfMultiplySplits(aq0, t3, t1, 0x02);
    GfMultiplySplits(a0, aq0, x, 0x02);
    GfMultiply0eByDoubling(x);
    SplitsOfSum3(b0, t3, t2, t1);
    GfMultiplySplits(bq0, t3, t2, 0x02);
    GfMultiplySplits(b0, bq0, t1, 0x02);
    GfMultiply03ByDoubling(b0);
    GfMultiply09ByDoubling(x);
    GfMultiply0dByDoubling(x);
    MixInvMixParity1(x, t1, t2, t3, t4, GfMultiply(GfMultiply(x, 0x0b), 0x02), GfMultiply(GfMultiply(x, 0x0e), 0x03), GfMultiply(x, 0x09), GfMultiply(x, 0x0d), a0, aq0, aq1, a1, b0, bq0, bq1, b1);
  }

  lemma MixInvMixParity2(x: bv8, t1: bv8, t2: bv8, t3: bv8, t4: bv8, p0: bv8, p1: bv8, p2: bv8, p3: bv8, a0: bv8, aq0: bv8, aq1: bv8, a1: bv8, b0: bv8, bq0: bv8, bq1: bv8, b1: bv8)
    requires p0 == a1
    requires SplitsAs(p1, b1, b0)
    requires Sum3(p2, t3, t2, t1)
    requires SplitsAs(p3, t3, x)
    requires SplitsAs(a0, aq0, x)
    requires SplitsAs(aq0, t3, t2)
    requires SplitsAs(aq1, t4, t3)
    requires SplitsAs(a1, aq1, t1)
    requires SplitsAs(b0, bq0, x)
    requires SplitsAs(bq0, t3, t1)
    requires SplitsAs(bq1, t4, t2)
    requires SplitsAs(b1, bq1, t1)
    ensures Sum4(0, p0, p1, p2, p3)
  {
  }

  lemma GfMultiplyMixInvMix2(x: bv8)
    ensures Sum4(0, GfMultiply(GfMultiply(x, 0x0d), 0x02), GfMultiply(GfMultiply(x, 0x0b), 0x03), GfMultiply(x, 0x0e), GfMultiply(x, 0x09))
  {
    var t1 := GfMultiply(x, 0x02);
    var t2 := GfMultiply(t1, 0x02);
    var t3 := GfMultiply(t2, 0x02);
    var t4 := GfMultiply(t3, 0x02);
    var a0 := GfMultiply(x, 0x0d);
    var aq0 := t3 ^ t2;
    var aq1 := GfMultiply(aq0, 0x02);
    var a1 := GfMultiply(a0, 0x02);
    var b0 := GfMultiply(x, 0x0b);
    var bq0 := t3 ^ t1;
    var bq1 := GfMultiply(bq0, 0x02);
    var b1 := GfMultiply(b0, 0x02);
    GfMultiply0dByDoubling(x);
    SplitsOfSum3(a0, t3, t2, x);
    GfMultiplySplits(aq0, t3, t2, 0x02);
    GfMultiplySplits(a0, aq0, x, 0x02);
    GfMultiply0bByDoubling(x);
    SplitsOfSum3(b0, t3, t1, x);
    GfMultiplySplits(bq0, t3, t1, 0x02);
    GfMultiplySplits(b0, bq0, x, 0x02);
    GfMultiply03ByDoubling(b0);
    GfMultiply0eByDoubling(x);
    GfMultiply09ByDoubling(x);
    MixInvMixParity2(x, t1, t2, t3, t4, GfMultiply(GfMultiply(x, 0x0d), 0x02), GfMultiply(GfMultiply(x, 0x0b), 0x03), GfMultiply(x, 0x0e), GfMultiply(x, 0x09), a0, aq0, aq1, a1, b0, bq0, bq1, b1);
  }

  lemma MixInvMixParity3(x: bv8, t1: bv8, t2: bv8, t3: bv8, t4: bv8, p0: bv8, p1: bv8, p2: bv8, p3: bv8, a0: bv8, a1: bv8, b0: bv8, bq0: bv8, bq1: bv8, b1: bv8)
    requires p0 == a1
    requires SplitsAs(p1, b1, b0)
    requires Sum3(p2, t3, t1, x)
    requires Sum3(p3, t3, t2, t1)
    requires SplitsAs(a0, t3, x)
    requires SplitsAs(a1, t4, t1)
    requires SplitsAs(b0, bq0, x)
    requires SplitsAs(bq0, t3, t2)
    requires SplitsAs(bq1, t4, t3)
    requires SplitsAs(b1, bq1, t1)
    ensures Sum4(0, p0, p1, p2, p3)
  {
  }

  lemma GfMultiplyMixInvMix3(x: bv8)
    ensures Sum4(0, GfMultiply(GfMultiply(x, 0x09), 0x02), GfMultiply(GfMultiply(x, 0x0d), 0x03), GfMultiply(x, 0x0b), GfMultiply(x, 0x0e))
  {
    var t1 := GfMultiply(x, 0x02);
    var t2 := GfMultiply(t1, 0x02);
    var t3 := GfMultiply(t2, 0x02);
    var t4 := GfMultiply(t3, 0x02);
    var a0 := GfMultiply(x, 0x09);
    var a1 := GfMultiply(a0, 0x02);
    var b0 := GfMultiply(x, 0x0d);
    var bq0 := t3 ^ t2;
    var bq1 := GfMultiply(bq0, 0x02);
    var b1 := GfMultiply(b0, 0x02);
    GfMultiply09ByDoubling(x);
    GfMultiplySplits(a0, t3, x, 0x02);
    GfMultiply0dByDoubling(x);
    SplitsOfSum3(b0, t3, t2, x);
    GfMultiplySplits(bq0, t3, t2, 0x02);
    GfMultiplySplits(b0, bq0, x, 0x02);
    GfMultiply03ByDoubling(b0);
    GfMultiply0bByDoubling(x);
    GfMultiply0eByDoubling(x);
    MixInvMixParity3(x, t1, t2, t3, t4, GfMultiply(GfMultiply(x, 0x09), 0x02), GfMultiply(GfMultiply(x, 0x0d), 0x03), GfMultiply(x, 0x0b), GfMultiply(x, 0x0e), a0, a1, b0, bq0, bq1, b1);
  }
}
