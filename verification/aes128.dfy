/** The AES128 cipher object: a 16-byte key, `encrypt`, which turns the first block of the
    (padded) plaintext into one 16-byte block, and `decrypt`, which runs the rounds backwards on
    the first block and strips the padding. */
module AES128 {
  import opened Errors
  import opened Blocks
  import opened KeySchedule
  import opened Rounds
  import opened Padding

  /** The cipher object: the key it was built with. The Java object also owns a scratch `state`
      array that every call overwrites before reading, so it carries nothing between calls. */
  datatype Cipher = Cipher(key: Key)

  /** The constructor `AES128(key)`: a key that is not 16 bytes is rejected. */
  function NewCipher(key: seq<bv8>): (r: Result<Cipher>)
    ensures r.Success? <==> |key| == 16
    ensures r.Success? ==> r.value.key == key
    ensures r.Failure? ==> r.error == InvalidKeyLength
  {
    if |key| != 16 then Failure(InvalidKeyLength) else Success(Cipher(key))
  }

  /** `Arrays.copyOfRange(expandedKeys, 4 * round, 4 * round + 4)`: the round key of a round. */
  function RoundKey(w: seq<Word>, round: nat): (rk: State)
    requires |w| == 44 && round <= 10
    ensures forall i :: 0 <= i < 4 ==> rk[i] == w[4 * round + i]
  {
    w[4 * round .. 4 * round + 4]
  }

  /** Round key 0, which `encrypt` adds first and `decrypt` adds last, is the cipher key laid out
      like a block: byte i of the key sits at row i / 4, position i % 4. */
  lemma RoundKeyZeroIsKey(key: Key)
    ensures RoundKey(KeyExpansion(key), 0) == LoadState(key)
  {
  }

  /** The round keys of rounds 1 .. 9, in order. */
  function MiddleKeys(w: seq<Word>): (keys: seq<State>)
    requires |w| == 44
    ensures |keys| == 9
    ensures forall i :: 0 <= i < 9 ==> keys[i] == RoundKey(w, i + 1)
  {
    seq(9, i requires 0 <= i < 9 => RoundKey(w, i + 1))
  }

  /** One middle round of `encrypt`: subBytes, shiftRows, mixColumns, addRoundKey. */
  function Round(s: State, rk: State): State
  {
    AddRoundKey(MixColumns(ShiftRows(SubBytes(s))), rk)
  }

  /** One middle round of `decrypt`: invShiftRows, invSubBytes, addRoundKey, invMixColumns. */
  function InvRound(s: State, rk: State): State
  {
    InvMixColumns(AddRoundKey(InvSubBytes(InvShiftRows(s)), rk))
  }

  /** The loop `for (round = 1; round < Nr; round++)` of `encrypt`: the rounds applied with the
      keys in order, the first key first. */
  function MiddleRounds(s: State, keys: seq<State>): State
    decreases |keys|
  {
    if |keys| == 0 then s else Round(MiddleRounds(s, keys[..|keys| - 1]), keys[|keys| - 1])
  }

  /** The loop `for (round = Nr - 1; round > 0; round--)` of `decrypt`: the inverse rounds applied
      with the keys in reverse order, the last key first. */
  function InvMiddleRounds(s: State, keys: seq<State>): State
    decreases |keys|
  {
    if |keys| == 0 then s else InvMiddleRounds(InvRound(s, keys[|keys| - 1]), keys[..|keys| - 1])
  }

  /** The steps of a round before its key, subBytes then shiftRows, and their inverse. */
  function Substitute(s: State): State
  {
    ShiftRows(SubBytes(s))
  }

  function InvSubstitute(s: State): State
  {
    InvSubBytes(InvShiftRows(s))
  }

  lemma InvSubstituteUndoesSubstitute(s: State)
    ensures InvSubstitute(Substitute(s)) == s
  {
    InvShiftRowsUndoesShiftRows(SubBytes(s));
    InvSubBytesUndoesSubBytes(s);
  }

  lemma SubstituteUndoesInvSubstitute(s: State)
    ensures Substitute(InvSubstitute(s)) == s
  {
    SubBytesUndoesInvSubBytes(InvShiftRows(s));
    ShiftRowsUndoesInvShiftRows(s);
  }

  /** An inverse round undoes a round, up to the substitution step of the round before: it takes
      the substituted output of a round back to the substituted input. */
  lemma InvRoundUndoesRound(s: State, rk: State)
    ensures InvRound(Substitute(Round(s, rk)), rk) == Substitute(s)
  {
    var t := MixColumns(Substitute(s));
    InvSubstituteUndoesSubstitute(AddRoundKey(t, rk));
    AddRoundKeyInvolution(t, rk);
    InvMixColumnsUndoesMixColumns(Substitute(s));
  }

  /** A round undoes an inverse round, with the substitution step in between. */
  lemma RoundUndoesInvRound(s: State, rk: State)
    ensures Round(InvSubstitute(InvRound(s, rk)), rk) == InvSubstitute(s)
  {
    var t := AddRoundKey(InvSubstitute(s), rk);
    SubstituteUndoesInvSubstitute(InvMixColumns(t));
    MixColumnsUndoesInvMixColumns(t);
    AddRoundKeyInvolution(InvSubstitute(s), rk);
  }

  /** The inverse rounds, with the keys taken from the back, undo the rounds. */
  lemma {:induction false} InvMiddleRoundsUndoesMiddleRounds(s: State, keys: seq<State>)
    ensures InvMiddleRounds(Substitute(MiddleRounds(s, keys)), keys) == Substitute(s)
    decreases |keys|
  {
    if |keys| > 0 {
      var front, last := keys[..|keys| - 1], keys[|keys| - 1];
      InvRoundUndoesRound(MiddleRounds(s, front), last);
      InvMiddleRoundsUndoesMiddleRounds(s, front);
    }
  }

  /** The rounds undo the inverse rounds. */
  lemma {:induction false} MiddleRoundsUndoesInvMiddleRounds(s: State, keys: seq<State>)
    ensures MiddleRounds(InvSubstitute(InvMiddleRounds(s, keys)), keys) == InvSubstitute(s)
    decreases |keys|
  {
    if |keys| > 0 {
      var front, last := keys[..|keys| - 1], keys[|keys| - 1];
      MiddleRoundsUndoesInvMiddleRounds(InvRound(s, last), front);
      RoundUndoesInvRound(s, last);
    }
  }

  /** The block cipher inside `encrypt`: round key 0, nine full rounds, and a last round without
      mixColumns under round key 10. */
  function EncryptBlock(w: seq<Word>, s: State): State
    requires |w| == 44
  {
    AddRoundKey(Substitute(MiddleRounds(AddRoundKey(s, RoundKey(w, 0)), MiddleKeys(w))), RoundKey(w, 10))
  }

  /** The block cipher inside `decrypt`: round key 10, nine inverse rounds, and a last inverse
      round without invMixColumns under round key 0. */
  function DecryptBlock(w: seq<Word>, s: State): State
    requires |w| == 44
  {
    AddRoundKey(InvSubstitute(InvMiddleRounds(AddRoundKey(s, RoundKey(w, 10)), MiddleKeys(w))), RoundKey(w, 0))
  }

  /** Decrypting an encrypted block gives the block back, for any expanded key. */
  lemma DecryptBlockUndoesEncryptBlock(w: seq<Word>, s: State)
    requires |w| == 44
    ensures DecryptBlock(w, EncryptBlock(w, s)) == s
  {
    var t := AddRoundKey(s, RoundKey(w, 0));
    var u := Substitute(MiddleRounds(t, MiddleKeys(w)));
    AddRoundKeyInvolution(u, RoundKey(w, 10));
    InvMiddleRoundsUndoesMiddleRounds(t, MiddleKeys(w));
    InvSubstituteUndoesSubstitute(t);
    AddRoundKeyInvolution(s, RoundKey(w, 0));
  }

  /** Encrypting a decrypted block gives the block back, for any expanded key. */
  lemma EncryptBlockUndoesDecryptBlock(w: seq<Word>, s: State)
    requires |w| == 44
    ensures EncryptBlock(w, DecryptBlock(w, s)) == s
  {
    var u := AddRoundKey(s, RoundKey(w, 10));
    var d := InvSubstitute(InvMiddleRounds(u, MiddleKeys(w)));
    AddRoundKeyInvolution(d, RoundKey(w, 0));
    MiddleRoundsUndoesInvMiddleRounds(u, MiddleKeys(w));
    SubstituteUndoesInvSubstitute(u);
    AddRoundKeyInvolution(s, RoundKey(w, 10));
  }

  /** The bytes `encrypt` loads its block from: the plaintext, padded when its length is not a
      multiple of 16. */
  function Padded(plaintext: seq<bv8>): (p: seq<bv8>)
    ensures |p| % 16 == 0
    ensures |plaintext| > 0 ==> |p| >= 16 && p[..16] == (if |plaintext| >= 16 then plaintext[..16] else Pad(plaintext))
  {
    if |plaintext| % 16 != 0 then Pad(plaintext) else plaintext
  }

  /** `encrypt(plaintext)`: a plaintext whose length is not a multiple of 16 is padded; then its
      first 16 bytes are loaded (an empty plaintext is not padded and has no byte 0) and
      encrypted under the expanded key. Only one block is ever encrypted. */
  function Encrypt(c: Cipher, plaintext: seq<bv8>): (r: Result<seq<bv8>>)
    ensures r.Success? <==> |plaintext| > 0
    ensures r.Failure? ==> r.error == IndexOutOfBounds
    ensures r.Success? ==> |r.value| == 16
  {
    var p := Padded(plaintext);
    if |p| < 16 then
      Failure(IndexOutOfBounds)
    else
      Success(StoreState(EncryptBlock(KeyExpansion(c.key), LoadState(p))))
  }

  /** `decrypt(ciphertext)`: a length that is not a multiple of 16 is rejected; an empty input has
      no byte 0; otherwise the first 16 bytes are decrypted and the padding removed. */
  function Decrypt(c: Cipher, ciphertext: seq<bv8>): (r: Result<seq<bv8>>)
    ensures r == Failure(InvalidBlockLength) <==> |ciphertext| % 16 != 0
    ensures |ciphertext| == 0 ==> r == Failure(IndexOutOfBounds)
    ensures r.Success? ==> |r.value| <= 16 + 128
  {
    if |ciphertext| % 16 != 0 then
      Failure(InvalidBlockLength)
    else if |ciphertext| < 16 then
      Failure(IndexOutOfBounds)
    else
      RemovePadding(StoreState(DecryptBlock(KeyExpansion(c.key), LoadState(ciphertext))))
  }

  /** A non-empty plaintext encrypts to the stored cipher state of its first padded block. */
  lemma EncryptValue(c: Cipher, plaintext: seq<bv8>)
    requires |plaintext| > 0
    ensures Encrypt(c, plaintext).value == StoreState(EncryptBlock(KeyExpansion(c.key), LoadState(Padded(plaintext))))
  {
  }

  /** A ciphertext of whole blocks decrypts to its decrypted state with the padding removed. */
  lemma DecryptValue(c: Cipher, ciphertext: seq<bv8>)
    requires |ciphertext| >= 16 && |ciphertext| % 16 == 0
    ensures Decrypt(c, ciphertext) == RemovePadding(StoreState(DecryptBlock(KeyExpansion(c.key), LoadState(ciphertext))))
  {
  }

  /** The ciphertext `encrypt` returns decrypts, before the padding is removed, to the first 16
      bytes it loaded. */
  lemma DecryptsToFirstBlock(c: Cipher, plaintext: seq<bv8>)
    requires |plaintext| > 0
    ensures var e := Encrypt(c, plaintext).value;
      Decrypt(c, e) == RemovePadding(Padded(plaintext)[..16])
  {
    var w := KeyExpansion(c.key);
    var p := Padded(plaintext);
    var s := LoadState(p);
    var e := EncryptBlock(w, s);
    EncryptValue(c, plaintext);
    DecryptValue(c, StoreState(e));
    LoadStore(e);
    DecryptBlockUndoesEncryptBlock(w, s);
    StoreLoad(p);
  }

  /** A plaintext shorter than a block comes back from decrypt(encrypt(p)) unchanged. */
  lemma DecryptUndoesEncrypt(c: Cipher, plaintext: seq<bv8>)
    requires 0 < |plaintext| < 16
    ensures Encrypt(c, plaintext).Success?
    ensures Decrypt(c, Encrypt(c, plaintext).value) == Success(plaintext)
  {
    DecryptsToFirstBlock(c, plaintext);
    assert Pad(plaintext)[..16] == Pad(plaintext);
    RemovePaddingUndoesPad(plaintext);
  }

  /** A plaintext of exactly one block is not padded, so decrypt treats its last byte as a padding
      count: the round trip gives removePadding of the plaintext. */
  lemma DecryptEncryptFullBlock(c: Cipher, plaintext: seq<bv8>)
    requires |plaintext| == 16
    ensures Decrypt(c, Encrypt(c, plaintext).value) == RemovePadding(plaintext)
  {
    var q := Padded(plaintext)[..16];
    assert q == plaintext;
    DecryptsToFirstBlock(c, plaintext);
  }

  /** A 16-byte plaintext survives the round trip unchanged exactly when its last byte is 0: a
      count of 0 removes nothing, and any other count changes the length. */
  lemma DecryptEncryptFullBlockZero(c: Cipher, plaintext: seq<bv8>)
    requires |plaintext| == 16
    ensures Decrypt(c, Encrypt(c, plaintext).value) == Success(plaintext) <==> plaintext[15] == 0
  {
    DecryptEncryptFullBlock(c, plaintext);
    if plaintext[15] == 0 {
      RemovePaddingZero(plaintext);
    }
  }

  /** Only the first block of a longer plaintext is encrypted: the rest never reaches the output. */
  lemma EncryptUsesFirstBlock(c: Cipher, plaintext: seq<bv8>)
    requires |plaintext| >= 16
    ensures Encrypt(c, plaintext) == Encrypt(c, plaintext[..16])
  {
    var short := plaintext[..16];
    assert short[..16] == short;
    LoadStateFirstBlock(Padded(plaintext), Padded(short));
  }

  /** Only the first block of a longer ciphertext is decrypted. */
  lemma DecryptUsesFirstBlock(c: Cipher, ciphertext: seq<bv8>)
    requires |ciphertext| >= 16 && |ciphertext| % 16 == 0
    ensures Decrypt(c, ciphertext) == Decrypt(c, ciphertext[..16])
  {
    var short := ciphertext[..16];
    assert short[..16] == short;
    LoadStateFirstBlock(ciphertext, short);
  }
}
