/** Sums of bytes under XOR, as facts that lemmas hand to one another. Facts about products in
    GF(2^8) are passed in this form so that the solver matches them as atoms instead of
    bit-blasting the products, and every regrouping below moves at most four bytes in one step:
    a sum of many bytes regrouped at once is a parity problem the solver handles badly. */
module XorSums {
  /** x splits as y ^ w. */
  predicate SplitsAs(x: bv8, y: bv8, w: bv8) {
    x == y ^ w
  }

  /** x is the XOR of the three bytes w0 .. w2. */
  predicate Sum3(x: bv8, w0: bv8, w1: bv8, w2: bv8) {
    x == w0 ^ w1 ^ w2
  }

  /** x is the XOR of the four bytes w0 .. w3. */
  predicate Sum4(x: bv8, w0: bv8, w1: bv8, w2: bv8, w3: bv8) {
    x == w0 ^ w1 ^ w2 ^ w3
  }

  lemma SplitsOfSum3(x: bv8, t0: bv8, t1: bv8, t2: bv8)
    requires Sum3(x, t0, t1, t2)
    ensures SplitsAs(x, t0 ^ t1, t2) && SplitsAs(t0 ^ t1, t0, t1)
  {
  }

  lemma SplitsOfSum4(x: bv8, t0: bv8, t1: bv8, t2: bv8, t3: bv8)
    requires Sum4(x, t0, t1, t2, t3)
    ensures SplitsAs(x, t0 ^ t1 ^ t2, t3) && SplitsAs(t0 ^ t1 ^ t2, t0 ^ t1, t2) && SplitsAs(t0 ^ t1, t0, t1)
  {
  }

  lemma Sum4OfSplits(x: bv8, y: bv8, z: bv8, w0: bv8, w1: bv8, w2: bv8, w3: bv8)
    requires SplitsAs(x, y, w3) && SplitsAs(y, z, w2) && SplitsAs(z, w0, w1)
    ensures Sum4(x, w0, w1, w2, w3)
  {
  }

  lemma Halves(x: bv8, w0: bv8, w1: bv8, w2: bv8, w3: bv8)
    requires Sum4(x, w0, w1, w2, w3)
    ensures SplitsAs(x, w0 ^ w1, w2 ^ w3)
  {
  }

  /** A sum of four bytes does not depend on where the list of terms starts. */
  lemma Sum4Rotations(x: bv8, w0: bv8, w1: bv8, w2: bv8, w3: bv8)
    requires Sum4(x, w0, w1, w2, w3)
    ensures Sum4(x, w3, w0, w1, w2) && Sum4(x, w2, w3, w0, w1) && Sum4(x, w1, w2, w3, w0)
  {
  }

  /** The step behind `Merge`, on plain equalities: the solver proves it faster in this form. */
  lemma MergeSums(r: bv8, s: bv8, a0: bv8, a1: bv8, a2: bv8, a3: bv8, b0: bv8, b1: bv8, b2: bv8, b3: bv8)
    requires r == a0 ^ a1 ^ a2 ^ a3 && s == b0 ^ b1 ^ b2 ^ b3
    ensures r ^ s == (a0 ^ b0) ^ (a1 ^ b1) ^ (a2 ^ b2) ^ (a3 ^ b3)
  {
  }

  /** Two sums of four, added term by term. */
  lemma Merge(r: bv8, s: bv8, a0: bv8, a1: bv8, a2: bv8, a3: bv8, b0: bv8, b1: bv8, b2: bv8, b3: bv8)
    requires Sum4(r, a0, a1, a2, a3) && Sum4(s, b0, b1, b2, b3)
    ensures Sum4(r ^ s, a0 ^ b0, a1 ^ b1, a2 ^ b2, a3 ^ b3)
  {
    MergeSums(r, s, a0, a1, a2, a3, b0, b1, b2, b3);
  }

  lemma Rename(out: bv8, t: bv8, c0: bv8, c1: bv8, c2: bv8, c3: bv8, v0: bv8, v1: bv8, v2: bv8, v3: bv8)
    requires out == t && Sum4(t, c0, c1, c2, c3)
    requires c0 == v0 && c1 == v1 && c2 == v2 && c3 == v3
    ensures out == v0 ^ v1 ^ v2 ^ v3
  {
  }

  /** Sixteen bytes x[r][c] summed row by row (the g's, then out) equal the same bytes summed
      column by column (the v's). */
  lemma Regroup(out: bv8, g0: bv8, g1: bv8, g2: bv8, g3: bv8,
    x00: bv8, x01: bv8, x02: bv8, x03: bv8, x10: bv8, x11: bv8, x12: bv8, x13: bv8,
    x20: bv8, x21: bv8, x22: bv8, x23: bv8, x30: bv8, x31: bv8, x32: bv8, x33: bv8,
    v0: bv8, v1: bv8, v2: bv8, v3: bv8)
    requires Sum4(out, g0, g1, g2, g3)
    requires Sum4(g0, x00, x01, x02, x03)
    requires Sum4(g1, x10, x11, x12, x13)
    requires Sum4(g2, x20, x21, x22, x23)
    requires Sum4(g3, x30, x31, x32, x33)
    requires Sum4(v0, x00, x10, x20, x30)
    requires Sum4(v1, x01, x11, x21, x31)
    requires Sum4(v2, x02, x12, x22, x32)
    requires Sum4(v3, x03, x13, x23, x33)
    ensures out == v0 ^ v1 ^ v2 ^ v3
  {
    Merge(g0, g1, x00, x01, x02, x03, x10, x11, x12, x13);
    Merge(g2, g3, x20, x21, x22, x23, x30, x31, x32, x33);
    Merge(g0 ^ g1, g2 ^ g3, x00 ^ x10, x01 ^ x11, x02 ^ x12, x03 ^ x13, x20 ^ x30, x21 ^ x31, x22 ^ x32, x23 ^ x33);
    Halves(out, g0, g1, g2, g3);
    Halves(v0, x00, x10, x20, x30);
    Halves(v1, x01, x11, x21, x31);
    Halves(v2, x02, x12, x22, x32);
    Halves(v3, x03, x13, x23, x33);
    Rename(out, (g0 ^ g1) ^ (g2 ^ g3), (x00 ^ x10) ^ (x20 ^ x30), (x01 ^ x11) ^ (x21 ^ x31),
      (x02 ^ x12) ^ (x22 ^ x32), (x03 ^ x13) ^ (x23 ^ x33), v0, v1, v2, v3);
  }
}
