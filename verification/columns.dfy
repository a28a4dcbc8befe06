/** MixColumns and InvMixColumns on one column, and the proof that each undoes the other. */
module Columns {
  import opened Blocks
  import opened GaloisField
  import opened XorSums

  /** The body of the `mixColumns` loop for one column: the column times the circulant matrix with
      first row {02, 03, 01, 01}, multiplications by 01 written as the byte itself. */
  function MixColumn(col: Word): Word
  {
    [ GfMultiply(col[0], 0x02) ^ GfMultiply(col[1], 0x03) ^ col[2] ^ col[3],
      col[0] ^ GfMultiply(col[1], 0x02) ^ GfMultiply(col[2], 0x03) ^ col[3],
      col[0] ^ col[1] ^ GfMultiply(col[2], 0x02) ^ GfMultiply(col[3], 0x03),
      GfMultiply(col[0], 0x03) ^ col[1] ^ col[2] ^ GfMultiply(col[3], 0x02) ]
  }

  /** The body of the `invMixColumns` loop for one column: the circulant matrix with first row
      {0e, 0b, 0d, 09}. */
  function InvMixColumn(col: Word): Word
  {
    [ GfMultiply(col[0], 0x0e) ^ GfMultiply(col[1], 0x0b) ^ GfMultiply(col[2], 0x0d) ^ GfMultiply(col[3], 0x09),
      GfMultiply(col[0], 0x09) ^ GfMultiply(col[1], 0x0e) ^ GfMultiply(col[2], 0x0b) ^ GfMultiply(col[3], 0x0d),
      GfMultiply(col[0], 0x0d) ^ GfMultiply(col[1], 0x09) ^ GfMultiply(col[2], 0x0e) ^ GfMultiply(col[3], 0x0b),
      GfMultiply(col[0], 0x0b) ^ GfMultiply(col[1], 0x0d) ^ GfMultiply(col[2], 0x09) ^ GfMultiply(col[3], 0x0e) ]
  }

  /** Each byte of `MixColumn` as a `Sum4` of four terms. */
  lemma MixColumnRows(col: Word)
    ensures Sum4(MixColumn(col)[0], GfMultiply(col[0], 0x02), GfMultiply(col[1], 0x03), col[2], col[3])
    ensures Sum4(MixColumn(col)[1], col[0], GfMultiply(col[1], 0x02), GfMultiply(col[2], 0x03), col[3])
    ensures Sum4(MixColumn(col)[2], col[0], col[1], GfMultiply(col[2], 0x02), GfMultiply(col[3], 0x03))
    ensures Sum4(MixColumn(col)[3], GfMultiply(col[0], 0x03), col[1], col[2], GfMultiply(col[3], 0x02))
  {
  }

  /** Each byte of `InvMixColumn` as a `Sum4` of four terms. */
  lemma InvMixColumnRows(col: Word)
    ensures Sum4(InvMixColumn(col)[0], GfMultiply(col[0], 0x0e), GfMultiply(col[1], 0x0b), GfMultiply(col[2], 0x0d), GfMultiply(col[3], 0x09))
    ensures Sum4(InvMixColumn(col)[1], GfMultiply(col[0], 0x09), GfMultiply(col[1], 0x0e), GfMultiply(col[2], 0x0b), GfMultiply(col[3], 0x0d))
    ensures Sum4(InvMixColumn(col)[2], GfMultiply(col[0], 0x0d), GfMultiply(col[1], 0x09), GfMultiply(col[2], 0x0e), GfMultiply(col[3], 0x0b))
    ensures Sum4(InvMixColumn(col)[3], GfMultiply(col[0], 0x0b), GfMultiply(col[1], 0x0d), GfMultiply(col[2], 0x09), GfMultiply(col[3], 0x0e))
  {
  }

  /** Byte 0 of a mixed column, unmixed, is byte 0 of the column. */
  lemma InvMixColumnMixColumnByte0(col: Word)
    ensures InvMixColumn(MixColumn(col))[0] == col[0]
  {
    var m := MixColumn(col);
    MixColumnRows(col);
    GfMultiplySum4(m[0], GfMultiply(col[0], 0x02), GfMultiply(col[1], 0x03), col[2], col[3], 0x0e);
    GfMultiplySum4(m[1], col[0], GfMultiply(col[1], 0x02), GfMultiply(col[2], 0x03), col[3], 0x0b);
    GfMultiplySum4(m[2], col[0], col[1], GfMultiply(col[2], 0x02), GfMultiply(col[3], 0x03), 0x0d);
    GfMultiplySum4(m[3], GfMultiply(col[0], 0x03), col[1], col[2], GfMultiply(col[3], 0x02), 0x09);
    InvMixColumnRows(m);
    GfMultiplyInvMixMix0(col[0]);
    GfMultiplyInvMixMix1(col[1]);
    GfMultiplyInvMixMix2(col[2]);
    GfMultiplyInvMixMix3(col[3]);
    Regroup(InvMixColumn(m)[0], GfMultiply(m[0], 0x0e), GfMultiply(m[1], 0x0b), GfMultiply(m[2], 0x0d), GfMultiply(m[3], 0x09),
      GfMultiply(GfMultiply(col[0], 0x02), 0x0e), GfMultiply(GfMultiply(col[1], 0x03), 0x0e), GfMultiply(col[2], 0x0e), GfMultiply(col[3], 0x0e),
      GfMultiply(col[0], 0x0b), GfMultiply(GfMultiply(col[1], 0x02), 0x0b), GfMultiply(GfMultiply(col[2], 0x03), 0x0b), GfMultiply(col[3], 0x0b),
      GfMultiply(col[0], 0x0d), GfMultiply(col[1], 0x0d), GfMultiply(GfMultiply(col[2], 0x02), 0x0d), GfMultiply(GfMultiply(col[3], 0x03), 0x0d),
      GfMultiply(GfMultiply(col[0], 0x03), 0x09), GfMultiply(col[1], 0x09), GfMultiply(col[2], 0x09), GfMultiply(GfMultiply(col[3], 0x02), 0x09),
      col[0], 0, 0, 0);
  }

  /** Byte 1 of a mixed column, unmixed, is byte 1 of the column. */
  lemma InvMixColumnMixColumnByte1(col: Word)
    ensures InvMixColumn(MixColumn(col))[1] == col[1]
  {
    var m := MixColumn(col);
    MixColumnRows(col);
    GfMultiplySum4(m[0], GfMultiply(col[0], 0x02), GfMultiply(col[1], 0x03), col[2], col[3], 0x09);
    GfMultiplySum4(m[1], col[0], GfMultiply(col[1], 0x02), GfMultiply(col[2], 0x03), col[3], 0x0e);
    GfMultiplySum4(m[2], col[0], col[1], GfMultiply(col[2], 0x02), GfMultiply(col[3], 0x03), 0x0b);
    GfMultiplySum4(m[3], GfMultiply(col[0], 0x03), col[1], col[2], GfMultiply(col[3], 0x02), 0x0d);
    InvMixColumnRows(m);
    GfMultiplyInvMixMix3(col[0]);
    Sum4Rotations(0, GfMultiply(col[0], 0x0e), GfMultiply(col[0], 0x0b), GfMultiply(GfMultiply(col[0], 0x03), 0x0d), GfMultiply(GfMultiply(col[0], 0x02), 0x09));
    GfMultiplyInvMixMix0(col[1]);
    Sum4Rotations(col[1], GfMultiply(GfMultiply(col[1], 0x02), 0x0e), GfMultiply(col[1], 0x0b), GfMultiply(col[1], 0x0d), GfMultiply(GfMultiply(col[1], 0x03), 0x09));
    GfMultiplyInvMixMix1(col[2]);
    Sum4Rotations(0, GfMultiply(GfMultiply(col[2], 0x03), 0x0e), GfMultiply(GfMultiply(col[2], 0x02), 0x0b), GfMultiply(col[2], 0x0d), GfMultiply(col[2], 0x09));
    GfMultiplyInvMixMix2(col[3]);
    Sum4Rotations(0, GfMultiply(col[3], 0x0e), GfMultiply(GfMultiply(col[3], 0x03), 0x0b), GfMultiply(GfMultiply(col[3], 0x02), 0x0d), GfMultiply(col[3], 0x09));
    Regroup(InvMixColumn(m)[1], GfMultiply(m[0], 0x09), GfMultiply(m[1], 0x0e), GfMultiply(m[2], 0x0b), GfMultiply(m[3], 0x0d),
      GfMultiply(GfMultiply(col[0], 0x02), 0x09), GfMultiply(GfMultiply(col[1], 0x03), 0x09), GfMultiply(col[2], 0x09), GfMultiply(col[3], 0x09),
      GfMultiply(col[0], 0x0e), GfMultiply(GfMultiply(col[1], 0x02), 0x0e), GfMultiply(GfMultiply(col[2], 0x03), 0x0e), GfMultiply(col[3], 0x0e),
      GfMultiply(col[0], 0x0b), GfMultiply(col[1], 0x0b), GfMultiply(GfMultiply(col[2], 0x02), 0x0b), GfMultiply(GfMultiply(col[3], 0x03), 0x0b),
      GfMultiply(GfMultiply(col[0], 0x03), 0x0d), GfMultiply(col[1], 0x0d), GfMultiply(col[2], 0x0d), GfMultiply(GfMultiply(col[3], 0x02), 0x0d),
      0, col[1], 0, 0);
  }

  /** Byte 2 of a mixed column, unmixed, is byte 2 of the column. */
  lemma InvMixColumnMixColumnByte2(col: Word)
    ensures InvMixColumn(MixColumn(col))[2] == col[2]
  {
    var m := MixColumn(col);
    MixColumnRows(col);
    GfMultiplySum4(m[0], GfMultiply(col[0], 0x02), GfMultiply(col[1], 0x03), col[2], col[3], 0x0d);
    GfMultiplySum4(m[1], col[0], GfMultiply(col[1], 0x02), GfMultiply(col[2], 0x03), col[3], 0x09);
    GfMultiplySum4(m[2], col[0], col[1], GfMultiply(col[2], 0x02), GfMultiply(col[3], 0x03), 0x0e);
    GfMultiplySum4(m[3], GfMultiply(col[0], 0x03), col[1], col[2], GfMultiply(col[3], 0x02), 0x0b);
    InvMixColumnRows(m);
    GfMultiplyInvMixMix2(col[0]);
    Sum4Rotations(0, GfMultiply(col[0], 0x0e), GfMultiply(GfMultiply(col[0], 0x03), 0x0b), GfMultiply(GfMultiply(col[0], 0x02), 0x0d), GfMultiply(col[0], 0x09));
    GfMultiplyInvMixMix3(col[1]);
    Sum4Rotations(0, GfMultiply(col[1], 0x0e), GfMultiply(col[1], 0x0b), GfMultiply(GfMultiply(col[1], 0x03), 0x0d), GfMultiply(GfMultiply(col[1], 0x02), 0x09));
    GfMultiplyInvMixMix0(col[2]);
    Sum4Rotations(col[2], GfMultiply(GfMultiply(col[2], 0x02), 0x0e), GfMultiply(col[2], 0x0b), GfMultiply(col[2], 0x0d), GfMultiply(GfMultiply(col[2], 0x03), 0x09));
    GfMultiplyInvMixMix1(col[3]);
    Sum4Rotations(0, GfMultiply(GfMultiply(col[3], 0x03), 0x0e), GfMultiply(GfMultiply(col[3], 0x02), 0x0b), GfMultiply(col[3], 0x0d), GfMultiply(col[3], 0x09));
    Regroup(InvMixColumn(m)[2], GfMultiply(m[0], 0x0d), GfMultiply(m[1], 0x09), GfMultiply(m[2], 0x0e), GfMultiply(m[3], 0x0b),
      GfMultiply(GfMultiply(col[0], 0x02), 0x0d), GfMultiply(GfMultiply(col[1], 0x03), 0x0d), GfMultiply(col[2], 0x0d), GfMultiply(col[3], 0x0d),
      GfMultiply(col[0], 0x09), GfMultiply(GfMultiply(col[1], 0x02), 0x09), GfMultiply(GfMultiply(col[2], 0x03), 0x09), GfMultiply(col[3], 0x09),
      GfMultiply(col[0], 0x0e), GfMultiply(col[1], 0x0e), GfMultiply(GfMultiply(col[2], 0x02), 0x0e), GfMultiply(GfMultiply(col[3], 0x03), 0x0e),
      GfMultiply(GfMultiply(col[0], 0x03), 0x0b), GfMultiply(col[1], 0x0b), GfMultiply(col[2], 0x0b), GfMultiply(GfMultiply(col[3], 0x02), 0x0b),
      0, 0, col[2], 0);
  }

  /** Byte 3 of a mixed column, unmixed, is byte 3 of the column. */
  lemma InvMixColumnMixColumnByte3(col: Word)
    ensures InvMixColumn(MixColumn(col))[3] == col[3]
  {
    var m := MixColumn(col);
    MixColumnRows(col);
    GfMultiplySum4(m[0], GfMultiply(col[0], 0x02), GfMultiply(col[1], 0x03), col[2], col[3], 0x0b);
    GfMultiplySum4(m[1], col[0], GfMultiply(col[1], 0x02), GfMultiply(col[2], 0x03), col[3], 0x0d);
    GfMultiplySum4(m[2], col[0], col[1], GfMultiply(col[2], 0x02), GfMultiply(col[3], 0x03), 0x09);
    GfMultiplySum4(m[3], GfMultiply(col[0], 0x03), col[1], col[2], GfMultiply(col[3], 0x02), 0x0e);
    InvMixColumnRows(m);
    GfMultiplyInvMixMix1(col[0]);
    Sum4Rotations(0, GfMultiply(GfMultiply(col[0], 0x03), 0x0e), GfMultiply(GfMultiply(col[0], 0x02), 0x0b), GfMultiply(col[0], 0x0d), GfMultiply(col[0], 0x09));
    GfMultiplyInvMixMix2(col[1]);
    Sum4Rotations(0, GfMultiply(col[1], 0x0e), GfMultiply(GfMultiply(col[1], 0x03), 0x0b), GfMultiply(GfMultiply(col[1], 0x02), 0x0d), GfMultiply(col[1], 0x09));
    GfMultiplyInvMixMix3(col[2]);
    Sum4Rotations(0, GfMultiply(col[2], 0x0e), GfMultiply(col[2], 0x0b), GfMultiply(GfMultiply(col[2], 0x03), 0x0d), GfMultiply(GfMultiply(col[2], 0x02), 0x09));
    GfMultiplyInvMixMix0(col[3]);
    Sum4Rotations(col[3], GfMultiply(GfMultiply(col[3], 0x02), 0x0e), GfMultiply(col[3], 0x0b), GfMultiply(col[3], 0x0d), GfMultiply(GfMultiply(col[3], 0x03), 0x09));
    Regroup(InvMixColumn(m)[3], GfMultiply(m[0], 0x0b), GfMultiply(m[1], 0x0d), GfMultiply(m[2], 0x09), GfMultiply(m[3], 0x0e),
      GfMultiply(GfMultiply(col[0], 0x02), 0x0b), GfMultiply(GfMultiply(col[1], 0x03), 0x0b), GfMultiply(col[2], 0x0b), GfMultiply(col[3], 0x0b),
      GfMultiply(col[0], 0x0d), GfMultiply(GfMultiply(col[1], 0x02), 0x0d), GfMultiply(GfMultiply(col[2], 0x03), 0x0d), GfMultiply(col[3], 0x0d),
      GfMultiply(col[0], 0x09), GfMultiply(col[1], 0x09), GfMultiply(GfMultiply(col[2], 0x02), 0x09), GfMultiply(GfMultiply(col[3], 0x03), 0x09),
      GfMultiply(GfMultiply(col[0], 0x03), 0x0e), GfMultiply(col[1], 0x0e), GfMultiply(col[2], 0x0e), GfMultiply(GfMultiply(col[3], 0x02), 0x0e),
      0, 0, 0, col[3]);
  }

  /** Byte 0 of an unmixed column, mixed again, is byte 0 of the column. */
  lemma MixColumnInvMixColumnByte0(col: Word)
    ensures MixColumn(InvMixColumn(col))[0] == col[0]
  {
    var m := InvMixColumn(col);
    InvMixColumnRows(col);
    GfMultiplySum4(m[0], GfMultiply(col[0], 0x0e), GfMultiply(col[1], 0x0b), GfMultiply(col[2], 0x0d), GfMultiply(col[3], 0x09), 0x02);
    GfMultiplySum4(m[1], GfMultiply(col[0], 0x09), GfMultiply(col[1], 0x0e), GfMultiply(col[2], 0x0b), GfMultiply(col[3], 0x0d), 0x03);
    MixColumnRows(m);
    GfMultiplyMixInvMix0(col[0]);
    GfMultiplyMixInvMix1(col[1]);
    GfMultiplyMixInvMix2(col[2]);
    GfMultiplyMixInvMix3(col[3]);
    Regroup(MixColumn(m)[0], GfMultiply(m[0], 0x02), GfMultiply(m[1], 0x03), m[2], m[3],
      GfMultiply(GfMultiply(col[0], 0x0e), 0x02), GfMultiply(GfMultiply(col[1], 0x0b), 0x02), GfMultiply(GfMultiply(col[2], 0x0d), 0x02), GfMultiply(GfMultiply(col[3], 0x09), 0x02),
      GfMultiply(GfMultiply(col[0], 0x09), 0x03), GfMultiply(GfMultiply(col[1], 0x0e), 0x03), GfMultiply(GfMultiply(col[2], 0x0b), 0x03), GfMultiply(GfMultiply(col[3], 0x0d), 0x03),
      GfMultiply(col[0], 0x0d), GfMultiply(col[1], 0x09), GfMultiply(col[2], 0x0e), GfMultiply(col[3], 0x0b),
      GfMultiply(col[0], 0x0b), GfMultiply(col[1], 0x0d), GfMultiply(col[2], 0x09), GfMultiply(col[3], 0x0e),
      col[0], 0, 0, 0);
  }

  /** Byte 1 of an unmixed column, mixed again, is byte 1 of the column. */
  lemma MixColumnInvMixColumnByte1(col: Word)
    ensures MixColumn(InvMixColumn(col))[1] == col[1]
  {
    var m := InvMixColumn(col);
    InvMixColumnRows(col);
    GfMultiplySum4(m[1], GfMultiply(col[0], 0x09), GfMultiply(col[1], 0x0e), GfMultiply(col[2], 0x0b), GfMultiply(col[3], 0x0d), 0x02);
    GfMultiplySum4(m[2], GfMultiply(col[0], 0x0d), GfMultiply(col[1], 0x09), GfMultiply(col[2], 0x0e), GfMultiply(col[3], 0x0b), 0x03);
    MixColumnRows(m);
    GfMultiplyMixInvMix3(col[0]);
    Sum4Rotations(0, GfMultiply(GfMultiply(col[0], 0x09), 0x02), GfMultiply(GfMultiply(col[0], 0x0d), 0x03), GfMultiply(col[0], 0x0b), GfMultiply(col[0], 0x0e));
    GfMultiplyMixInvMix0(col[1]);
    Sum4Rotations(col[1], GfMultiply(GfMultiply(col[1], 0x0e), 0x02), GfMultiply(GfMultiply(col[1], 0x09), 0x03), GfMultiply(col[1], 0x0d), GfMultiply(col[1], 0x0b));
    GfMultiplyMixInvMix1(col[2]);
    Sum4Rotations(0, GfMultiply(GfMultiply(col[2], 0x0b), 0x02), GfMultiply(GfMultiply(col[2], 0x0e), 0x03), GfMultiply(col[2], 0x09), GfMultiply(col[2], 0x0d));
    GfMultiplyMixInvMix2(col[3]);
    Sum4Rotations(0, GfMultiply(GfMultiply(col[3], 0x0d), 0x02), GfMultiply(GfMultiply(col[3], 0x0b), 0x03), GfMultiply(col[3], 0x0e), GfMultiply(col[3], 0x09));
    Regroup(MixColumn(m)[1], m[0], GfMultiply(m[1], 0x02), GfMultiply(m[2], 0x03), m[3],
      GfMultiply(col[0], 0x0e), GfMultiply(col[1], 0x0b), GfMultiply(col[2], 0x0d), GfMultiply(col[3], 0x09),
      GfMultiply(GfMultiply(col[0], 0x09), 0x02), GfMultiply(GfMultiply(col[1], 0x0e), 0x02), GfMultiply(GfMultiply(col[2], 0x0b), 0x02), GfMultiply(GfMultiply(col[3], 0x0d), 0x02),
      GfMultiply(GfMultiply(col[0], 0x0d), 0x03), GfMultiply(GfMultiply(col[1], 0x09), 0x03), GfMultiply(GfMultiply(col[2], 0x0e), 0x03), GfMultiply(GfMultiply(col[3], 0x0b), 0x03),
      GfMultiply(col[0], 0x0b), GfMultiply(col[1], 0x0d), GfMultiply(col[2], 0x09), GfMultiply(col[3], 0x0e),
      0, col[1], 0, 0);
  }

  /** Byte 2 of an unmixed column, mixed again, is byte 2 of the column. */
  lemma MixColumnInvMixColumnByte2(col: Word)
    ensures MixColumn(InvMixColumn(col))[2] == col[2]
  {
    var m := InvMixColumn(col);
    InvMixColumnRows(col);
    GfMultiplySum4(m[2], GfMultiply(col[0], 0x0d), GfMultiply(col[1], 0x09), GfMultiply(col[2], 0x0e), GfMultiply(col[3], 0x0b), 0x02);
    GfMultiplySum4(m[3], GfMultiply(col[0], 0x0b), GfMultiply(col[1], 0x0d), GfMultiply(col[2], 0x09), GfMultiply(col[3], 0x0e), 0x03);
    MixColumnRows(m);
    GfMultiplyMixInvMix2(col[0]);
    Sum4Rotations(0, GfMultiply(GfMultiply(col[0], 0x0d), 0x02), GfMultiply(GfMultiply(col[0], 0x0b), 0x03), GfMultiply(col[0], 0x0e), GfMultiply(col[0], 0x09));
    GfMultiplyMixInvMix3(col[1]);
    Sum4Rotations(0, GfMultiply(GfMultiply(col[1], 0x09), 0x02), GfMultiply(GfMultiply(col[1], 0x0d), 0x03), GfMultiply(col[1], 0x0b), GfMultiply(col[1], 0x0e));
    GfMultiplyMixInvMix0(col[2]);
    Sum4Rotations(col[2], GfMultiply(GfMultiply(col[2], 0x0e), 0x02), GfMultiply(GfMultiply(col[2], 0x09), 0x03), GfMultiply(col[2], 0x0d), GfMultiply(col[2], 0x0b));
    GfMultiplyMixInvMix1(col[3]);
    Sum4Rotations(0, GfMultiply(GfMultiply(col[3], 0x0b), 0x02), GfMultiply(GfMultiply(col[3], 0x0e), 0x03), GfMultiply(col[3], 0x09), GfMultiply(col[3], 0x0d));
    Regroup(MixColumn(m)[2], m[0], m[1], GfMultiply(m[2], 0x02), GfMultiply(m[3], 0x03),
      GfMultiply(col[0], 0x0e), GfMultiply(col[1], 0x0b), GfMultiply(col[2], 0x0d), GfMultiply(col[3], 0x09),
      GfMultiply(col[0], 0x09), GfMultiply(col[1], 0x0e), GfMultiply(col[2], 0x0b), GfMultiply(col[3], 0x0d),
      GfMultiply(GfMultiply(col[0], 0x0d), 0x02), GfMultiply(GfMultiply(col[1], 0x09), 0x02), GfMultiply(GfMultiply(col[2], 0x0e), 0x02), GfMultiply(GfMultiply(col[3], 0x0b), 0x02),
      GfMultiply(GfMultiply(col[0], 0x0b), 0x03), GfMultiply(GfMultiply(col[1], 0x0d), 0x03), GfMultiply(GfMultiply(col[2], 0x09), 0x03), GfMultiply(GfMultiply(col[3], 0x0e), 0x03),
      0, 0, col[2], 0);
  }

  /** Byte 3 of an unmixed column, mixed again, is byte 3 of the column. */
  lemma MixColumnInvMixColumnByte3(col: Word)
    ensures MixColumn(InvMixColumn(col))[3] == col[3]
  {
    var m := InvMixColumn(col);
    InvMixColumnRows(col);
    GfMultiplySum4(m[0], GfMultiply(col[0], 0x0e), GfMultiply(col[1], 0x0b), GfMultiply(col[2], 0x0d), GfMultiply(col[3], 0x09), 0x03);
    GfMultiplySum4(m[3], GfMultiply(col[0], 0x0b), GfMultiply(col[1], 0x0d), GfMultiply(col[2], 0x09), GfMultiply(col[3], 0x0e), 0x02);
    MixColumnRows(m);
    GfMultiplyMixInvMix1(col[0]);
    Sum4Rotations(0, GfMultiply(GfMultiply(col[0], 0x0b), 0x02), GfMultiply(GfMultiply(col[0], 0x0e), 0x03), GfMultiply(col[0], 0x09), GfMultiply(col[0], 0x0d));
    GfMultiplyMixInvMix2(col[1]);
    Sum4Rotations(0, GfMultiply(GfMultiply(col[1], 0x0d), 0x02), GfMultiply(GfMultiply(col[1], 0x0b), 0x03), GfMultiply(col[1], 0x0e), GfMultiply(col[1], 0x09));
    GfMultiplyMixInvMix3(col[2]);
    Sum4Rotations(0, GfMultiply(GfMultiply(col[2], 0x09), 0x02), GfMultiply(GfMultiply(col[2], 0x0d), 0x03), GfMultiply(col[2], 0x0b), GfMultiply(col[2], 0x0e));
    GfMultiplyMixInvMix0(col[3]);
    Sum4Rotations(col[3], GfMultiply(GfMultiply(col[3], 0x0e), 0x02), GfMultiply(GfMultiply(col[3], 0x09), 0x03), GfMultiply(col[3], 0x0d), GfMultiply(col[3], 0x0b));
    Regroup(MixColumn(m)[3], GfMultiply(m[0], 0x03), m[1], m[2], GfMultiply(m[3], 0x02),
      GfMultiply(GfMultiply(col[0], 0x0e), 0x03), GfMultiply(GfMultiply(col[1], 0x0b), 0x03), GfMultiply(GfMultiply(col[2], 0x0d), 0x03), GfMultiply(GfMultiply(col[3], 0x09), 0x03),
      GfMultiply(col[0], 0x09), GfMultiply(col[1], 0x0e), GfMultiply(col[2], 0x0b), GfMultiply(col[3], 0x0d),
      GfMultiply(col[0], 0x0d), GfMultiply(col[1], 0x09), GfMultiply(col[2], 0x0e), GfMultiply(col[3], 0x0b),
      GfMultiply(GfMultiply(col[0], 0x0b), 0x02), GfMultiply(GfMultiply(col[1], 0x0d), 0x02), GfMultiply(GfMultiply(col[2], 0x09), 0x02), GfMultiply(GfMultiply(col[3], 0x0e), 0x02),
      0, 0, 0, col[3]);
  }

  /** `invMixColumns` undoes `mixColumns` on every column. */
  lemma InvMixColumnUndoesMixColumn(col: Word)
    ensures InvMixColumn(MixColumn(col)) == col
  {
    InvMixColumnMixColumnByte0(col);
    InvMixColumnMixColumnByte1(col);
    InvMixColumnMixColumnByte2(col);
    InvMixColumnMixColumnByte3(col);
  }

  /** `mixColumns` undoes `invMixColumns` on every column. */
  lemma MixColumnUndoesInvMixColumn(col: Word)
    ensures MixColumn(InvMixColumn(col)) == col
  {
    MixColumnInvMixColumnByte0(col);
    MixColumnInvMixColumnByte1(col);
    MixColumnInvMixColumnByte2(col);
    MixColumnInvMixColumnByte3(col);
  }
}
