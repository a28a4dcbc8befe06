/** The round transformations of AES128 on the 4x4 state, and the inverse of each. The state is
    held as four rows of four bytes, filled row-major from the block (`state[i / 4][i % 4]`), so
    the "rows" that `shiftRows` rotates are the four-byte words of the block and the "columns" that
    `mixColumns` mixes are the bytes at one position of each word. */
module Rounds {
  import opened Blocks
  import opened Tables
  import opened Columns

  // ---------------------------------------------------------------------------
  // SubBytes

  /** `subBytes(state)`: the S-box on every byte. */
  function SubBytes(s: State): (r: State)
    ensures forall i, j :: 0 <= i < 4 && 0 <= j < 4 ==> r[i][j] == SBoxTransform(s[i][j])
  {
    seq(4, i requires 0 <= i < 4 => SubRow(s[i]))
  }

  function SubRow(w: Word): (r: Word)
    ensures forall j :: 0 <= j < 4 ==> r[j] == SBoxTransform(w[j])
  {
    seq(4, j requires 0 <= j < 4 => SBoxTransform(w[j]))
  }

  /** `invSubBytes(state)`: the inverse S-box on every byte. */
  function InvSubBytes(s: State): (r: State)
    ensures forall i, j :: 0 <= i < 4 && 0 <= j < 4 ==> r[i][j] == InvSBoxTransform(s[i][j])
  {
    seq(4, i requires 0 <= i < 4 => InvSubRow(s[i]))
  }

  function InvSubRow(w: Word): (r: Word)
    ensures forall j :: 0 <= j < 4 ==> r[j] == InvSBoxTransform(w[j])
  {
    seq(4, j requires 0 <= j < 4 => InvSBoxTransform(w[j]))
  }

  /** Two states are equal when they agree on every byte. */
  lemma StatesEqual(a: State, b: State)
    requires forall i, j :: 0 <= i < 4 && 0 <= j < 4 ==> a[i][j] == b[i][j]
    ensures a == b
  {
    forall i | 0 <= i < 4
      ensures a[i] == b[i]
    {
      assert a[i][0] == b[i][0] && a[i][1] == b[i][1] && a[i][2] == b[i][2] && a[i][3] == b[i][3];
    }
  }

  lemma InvSubBytesUndoesSubBytes(s: State)
    ensures InvSubBytes(SubBytes(s)) == s
  {
    forall i, j | 0 <= i < 4 && 0 <= j < 4
      ensures InvSubBytes(SubBytes(s))[i][j] == s[i][j]
    {
      InvSBoxUndoesSBox(s[i][j]);
    }
    StatesEqual(InvSubBytes(SubBytes(s)), s);
  }

  lemma SubBytesUndoesInvSubBytes(s: State)
    ensures SubBytes(InvSubBytes(s)) == s
  {
    forall i, j | 0 <= i < 4 && 0 <= j < 4
      ensures SubBytes(InvSubBytes(s))[i][j] == s[i][j]
    {
      SBoxUndoesInvSBox(s[i][j]);
    }
    StatesEqual(SubBytes(InvSubBytes(s)), s);
  }

  // ---------------------------------------------------------------------------
  // ShiftRows

  lemma ModBelow(a: int, m: int)
    requires 0 <= a < m
    ensures a % m == a
  {
  }

  lemma ModOnce(a: int, m: int)
    requires 0 < m <= a < 2 * m
    ensures a % m == a - m
  {
  }

  /** `leftRotate(row, n)`: byte i of the result is byte (i + n) mod length of the row. For n no
      larger than the length, that is the row rotated n places to the left. */
  function LeftRotate(row: seq<bv8>, n: nat): (r: seq<bv8>)
    ensures |r| == |row|
    ensures n <= |row| ==> r == row[n..] + row[..n]
  {
    var r := seq(|row|, i requires 0 <= i < |row| => row[(i + n) % |row|]);
    assert n <= |row| ==> r == row[n..] + row[..n] by {
      if n <= |row| {
        forall i | 0 <= i < |row|
          ensures r[i] == (row[n..] + row[..n])[i]
        {
          if i + n < |row| {
            ModBelow(i + n, |row|);
          } else {
            ModOnce(i + n, |row|);
          }
        }
      }
    }
    r
  }

  /** `rightRotate(row, n)`: byte i of the result is byte (i - n + length) mod length of the row,
      the row rotated n places to the right. */
  function RightRotate(row: seq<bv8>, n: nat): (r: seq<bv8>)
    requires n <= |row|
    ensures r == row[|row| - n..] + row[..|row| - n]
  {
    var k := |row| - n;
    var r := seq(|row|, i requires 0 <= i < |row| => row[(i - n + |row|) % |row|]);
    assert r == row[k..] + row[..k] by {
      forall i | 0 <= i < |row|
        ensures r[i] == (row[k..] + row[..k])[i]
      {
        if i < n {
          ModBelow(i - n + |row|, |row|);
        } else {
          ModOnce(i - n + |row|, |row|);
        }
      }
    }
    r
  }

  lemma RightRotateUndoesLeftRotate(row: seq<bv8>, n: nat)
    requires n <= |row|
    ensures RightRotate(LeftRotate(row, n), n) == row
  {
    var l := LeftRotate(row, n);
    assert l[|l| - n..] == row[..n];
    assert l[..|l| - n] == row[n..];
  }

  lemma LeftRotateUndoesRightRotate(row: seq<bv8>, n: nat)
    requires n <= |row|
    ensures LeftRotate(RightRotate(row, n), n) == row
  {
    var k := |row| - n;
    var rr := RightRotate(row, n);
    assert rr[n..] == row[..k];
    assert rr[..n] == row[k..];
  }

  /** `shiftRows(state)`: row i is rotated i places to the left, for i = 1, 2, 3; row 0 stays. */
  function ShiftRows(s: State): (r: State)
    ensures r[0] == s[0]
    ensures forall i :: 1 <= i < 4 ==> r[i] == s[i][i..] + s[i][..i]
  {
    [s[0], LeftRotate(s[1], 1), LeftRotate(s[2], 2), LeftRotate(s[3], 3)]
  }

  /** `invShiftRows(state)`: row i is rotated i places to the right, for i = 1, 2, 3. */
  function InvShiftRows(s: State): (r: State)
    ensures r[0] == s[0]
    ensures forall i :: 1 <= i < 4 ==> r[i] == s[i][4 - i..] + s[i][..4 - i]
  {
    [s[0], RightRotate(s[1], 1), RightRotate(s[2], 2), RightRotate(s[3], 3)]
  }

  lemma InvShiftRowsUndoesShiftRows(s: State)
    ensures InvShiftRows(ShiftRows(s)) == s
  {
    RightRotateUndoesLeftRotate(s[1], 1);
    RightRotateUndoesLeftRotate(s[2], 2);
    RightRotateUndoesLeftRotate(s[3], 3);
  }

  lemma ShiftRowsUndoesInvShiftRows(s: State)
    ensures ShiftRows(InvShiftRows(s)) == s
  {
    LeftRotateUndoesRightRotate(s[1], 1);
    LeftRotateUndoesRightRotate(s[2], 2);
    LeftRotateUndoesRightRotate(s[3], 3);
  }

  // ---------------------------------------------------------------------------
  // MixColumns

  /** Column c of the state: byte c of each row. */
  function Column(s: State, c: nat): Word
    requires c < 4
  {
    [s[0][c], s[1][c], s[2][c], s[3][c]]
  }

  /** Two states with the same four columns are equal. */
  lemma ColumnsEqual(a: State, b: State)
    requires forall c :: 0 <= c < 4 ==> Column(a, c) == Column(b, c)
    ensures a == b
  {
    forall i, j | 0 <= i < 4 && 0 <= j < 4
      ensures a[i][j] == b[i][j]
    {
      assert Column(a, j)[i] == Column(b, j)[i];
    }
    StatesEqual(a, b);
  }

  /** `mixColumns(state)`: column c of the result is the mix of column c; the columns do not
      interact. */
  function MixColumns(s: State): (r: State)
    ensures forall i, c :: 0 <= i < 4 && 0 <= c < 4 ==> r[i][c] == MixColumn(Column(s, c))[i]
  {
    seq(4, i requires 0 <= i < 4 => seq(4, c requires 0 <= c < 4 => MixColumn(Column(s, c))[i]))
  }

  /** `invMixColumns(state)`: column c of the result is the inverse mix of column c. */
  function InvMixColumns(s: State): (r: State)
    ensures forall i, c :: 0 <= i < 4 && 0 <= c < 4 ==> r[i][c] == InvMixColumn(Column(s, c))[i]
  {
    seq(4, i requires 0 <= i < 4 => seq(4, c requires 0 <= c < 4 => InvMixColumn(Column(s, c))[i]))
  }

  lemma MixColumnsColumn(s: State, c: nat)
    requires c < 4
    ensures Column(MixColumns(s), c) == MixColumn(Column(s, c))
  {
  }

  lemma InvMixColumnsColumn(s: State, c: nat)
    requires c < 4
    ensures Column(InvMixColumns(s), c) == InvMixColumn(Column(s, c))
  {
  }

  lemma InvMixColumnsUndoesMixColumns(s: State)
    ensures InvMixColumns(MixColumns(s)) == s
  {
    forall c | 0 <= c < 4
      ensures Column(InvMixColumns(MixColumns(s)), c) == Column(s, c)
    {
      InvMixColumnsColumn(MixColumns(s), c);
      MixColumnsColumn(s, c);
      InvMixColumnUndoesMixColumn(Column(s, c));
    }
    ColumnsEqual(InvMixColumns(MixColumns(s)), s);
  }

  lemma MixColumnsUndoesInvMixColumns(s: State)
    ensures MixColumns(InvMixColumns(s)) == s
  {
    forall c | 0 <= c < 4
      ensures Column(MixColumns(InvMixColumns(s)), c) == Column(s, c)
    {
      MixColumnsColumn(InvMixColumns(s), c);
      InvMixColumnsColumn(s, c);
      MixColumnUndoesInvMixColumn(Column(s, c));
    }
    ColumnsEqual(MixColumns(InvMixColumns(s)), s);
  }

  // ---------------------------------------------------------------------------
  // AddRoundKey

  /** `addRoundKey(state, roundKey)`: each byte XORed with the byte of the round key at the same
      place. */
  function AddRoundKey(s: State, rk: State): (r: State)
    ensures forall i, j :: 0 <= i < 4 && 0 <= j < 4 ==> r[i][j] == s[i][j] ^ rk[i][j]
  {
    seq(4, i requires 0 <= i < 4 => AddRow(s[i], rk[i]))
  }

  function AddRow(w: Word, k: Word): (r: Word)
    ensures forall j :: 0 <= j < 4 ==> r[j] == w[j] ^ k[j]
  {
    seq(4, j requires 0 <= j < 4 => w[j] ^ k[j])
  }

  /** Adding the same round key twice gives the state back. */
  lemma AddRoundKeyInvolution(s: State, rk: State)
    ensures AddRoundKey(AddRoundKey(s, rk), rk) == s
  {
    StatesEqual(AddRoundKey(AddRoundKey(s, rk), rk), s);
  }
}
