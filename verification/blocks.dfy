/** The shapes the cipher works on: four-byte words, the 16-byte key, and the 4 x 4 state, together
    with the loops that move a 16-byte block into the state and back out. */
module Blocks {
  /** A word: one row of the state, or one entry of the expanded key. */
  type Word = w: seq<bv8> | |w| == 4 witness [0, 0, 0, 0]

  /** An AES-128 key. */
  type Key = k: seq<bv8> | |k| == 16 witness seq(16, _ => 0)

  /** The state `byte[4][Nb]`: four rows of four bytes. A round key, four consecutive words of the
      expanded key, has the same shape and is XORed row by row. */
  type State = s: seq<Word> | |s| == 4 witness [ZeroWord, ZeroWord, ZeroWord, ZeroWord]

  const ZeroWord: Word := [0, 0, 0, 0]

  /** The loop `state[i / 4][i % 4] = block[i]` for i < 16: byte i of the block goes to row i / 4,
      so the block fills the state row by row (FIPS-197 fills it column by column). */
  function LoadState(block: seq<bv8>): (s: State)
    requires |block| >= 16
    ensures forall i :: 0 <= i < 16 ==> s[i / 4][i % 4] == block[i]
  {
    [block[0..4], block[4..8], block[8..12], block[12..16]]
  }

  /** The loop `out[i] = state[i / 4][i % 4]` for i < 16: the rows one after another. */
  function StoreState(s: State): (block: seq<bv8>)
    ensures |block| == 16
    ensures forall i :: 0 <= i < 16 ==> block[i] == s[i / 4][i % 4]
  {
    var first: seq<bv8> := s[0];
    first + s[1] + s[2] + s[3]
  }

  /** Storing a loaded state gives back the first 16 bytes of the block. */
  lemma StoreLoad(block: seq<bv8>)
    requires |block| >= 16
    ensures StoreState(LoadState(block)) == block[..16]
  {
  }

  /** Loading a stored state gives back the state. */
  lemma LoadStore(s: State)
    ensures LoadState(StoreState(s)) == s
  {
    var block := StoreState(s);
    assert block[0..4] == s[0] && block[4..8] == s[1] && block[8..12] == s[2] && block[12..16] == s[3];
  }

  /** Loading reads the first 16 bytes of the block and nothing after them. */
  lemma LoadStateFirstBlock(a: seq<bv8>, b: seq<bv8>)
    requires |a| >= 16 && |b| >= 16 && a[..16] == b[..16]
    ensures LoadState(a) == LoadState(b)
  {
    assert a[0..4] == a[..16][0..4] && b[0..4] == b[..16][0..4];
    assert a[4..8] == a[..16][4..8] && b[4..8] == b[..16][4..8];
    assert a[8..12] == a[..16][8..12] && b[8..12] == b[..16][8..12];
    assert a[12..16] == a[..16][12..16] && b[12..16] == b[..16][12..16];
  }
}
