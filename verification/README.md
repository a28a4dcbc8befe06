# AES128 in Dafny

This project models `AES128`, the cipher class of a small Java client/server demo of AES-128. It
covers the key check in the constructor, the key expansion, the round transformations and their
inverses, `gfMultiply`, the padding helpers, and `encrypt` / `decrypt`. Everything is written as
pure functions over byte sequences (`seq<bv8>`). Every exception that the constructor, `encrypt`,
`decrypt` and `removePadding` raise on a non-null array becomes a `Failure` of a `Result`.

The class follows FIPS-197 in outline, but the code departs from it in several places. The model
keeps each departure as written and proves what it leads to:

- **Row-major state.** `encrypt` loads byte i of the block into `state[i / 4][i % 4]`. So the
  "rows" that `shiftRows` rotates are the block's four-byte words, and the "columns" that
  `mixColumns` mixes are the bytes at one position of each word. FIPS-197 uses the transpose. The
  rounds still invert each other, and that inverse property is what the model proves. Outputs are
  not FIPS-197 ciphertexts.
- **Key-schedule aliasing.** `rotateWord` and `subWord` update `temp` in place and return it. Both
  arguments of `xorWords(rotateWord(temp), subWord(temp))` are therefore the same array, and their
  XOR is zero. Every fourth word of the expansion is the word four back with `rCon(i / 4)` XORed
  into its first byte (`KeySchedule.KeyExpansionRoundWord`). The S-box never reaches the schedule.
  Entry 0 of the `rCon` table is never read.
- **Signed shift in `gfMultiply`.** `b >>= 1` on a Java byte is an arithmetic shift. The loop only
  tests bit 0 of `b` in its eight iterations, so the result is still the GF(2^8) product for every
  pair of bytes (`GaloisField.GfMultiplyIsFieldProduct`, against a reference definition by
  polynomial long division modulo x^8 + x^4 + x^3 + x + 1).
- **Signed padding count.** `removePadding` reads the last byte as a signed Java byte. A last
  byte from 0x80 to 0xff is a negative count. `Arrays.copyOf` then lengthens the data with zero
  bytes instead of rejecting it (`Padding.RemovePaddingNegative`).
- **One block only.** `encrypt` pads a plaintext whose length is not a multiple of 16. It then
  encrypts only the first 16 bytes and returns 16 bytes. `decrypt` likewise decrypts only the
  first block. `decrypt(encrypt(p)) == p` holds for plaintexts of 1 to 15 bytes
  (`AES128.DecryptUndoesEncrypt`). A 16-byte plaintext is not padded, so on the way back its last
  byte is taken as a padding count (`AES128.DecryptEncryptFullBlock`).
- **Empty input.** An empty array has length 0, which is a multiple of 16. `encrypt` therefore
  does not pad it, and both `encrypt` and `decrypt` fail reading byte 0 with an
  `ArrayIndexOutOfBoundsException` (`IndexOutOfBounds` here). In `decrypt`, an empty
  ciphertext passes the `% 16` length check and only then fails reading byte 0.

Modules, in dependency order:

| file | module | contents |
|---|---|---|
| errors.dfy | Errors | `Error`, `Result` |
| blocks.dfy | Blocks | words, keys, the 4 x 4 state, loading and storing a block |
| xor_sums.dfy | XorSums | bookkeeping predicates for XOR sums of bytes |
| galois_field.dfy | GaloisField | `gfMultiply`, the reference field product, the MixColumns field identities |
| tables.dfy | Tables | S-box, inverse S-box, `rCon` |
| columns.dfy | Columns | one column of `mixColumns` / `invMixColumns` |
| key_schedule.dfy | KeySchedule | `keyExpansion` and its helpers |
| rounds.dfy | Rounds | `subBytes`, `shiftRows`, `mixColumns`, `addRoundKey` and their inverses |
| padding.dfy | Padding | `pad`, `addPadding`, `removePadding` |
| aes128.dfy | AES128 | the constructor, the block cipher, `encrypt`, `decrypt` |

All source paths below are in `algoritmo/src/main/java/com/aes/AES128.java`.

## Model

| member | source | states |
|---|---|---|
| AES128.NewCipher | algoritmo/src/main/java/com/aes/AES128.java:13-19 | the constructor succeeds exactly for 16-byte keys, keeps the key, and otherwise fails with the invalid-key-length error |
| AES128.Encrypt | algoritmo/src/main/java/com/aes/AES128.java:22-52 | encryption succeeds exactly for non-empty plaintexts and always returns 16 bytes; an empty plaintext is not padded and fails reading byte 0 |
| AES128.Decrypt | algoritmo/src/main/java/com/aes/AES128.java:55-85 | a length that is not a multiple of 16 is rejected as an invalid block length, and nothing else is; an empty input fails reading byte 0; a result is at most 144 bytes (16 minus a count as low as -128) |
| AES128.Padded | algoritmo/src/main/java/com/aes/AES128.java:23-25 | the bytes encrypt loads are a whole number of blocks, and their first block is the plaintext's own first 16 bytes or, for a shorter plaintext, its padding |
| AES128.RoundKeyZeroIsKey | algoritmo/src/main/java/com/aes/AES128.java:33 | round key 0, the first one `encrypt` adds, is the cipher key itself, laid out in the state the way a block is loaded |
| AES128.InvSubstituteUndoesSubstitute | algoritmo/src/main/java/com/aes/AES128.java:69-70 | invShiftRows then invSubBytes undoes subBytes then shiftRows |
| AES128.SubstituteUndoesInvSubstitute | algoritmo/src/main/java/com/aes/AES128.java:36-37 | subBytes then shiftRows undoes invShiftRows then invSubBytes |
| AES128.InvRoundUndoesRound | algoritmo/src/main/java/com/aes/AES128.java:68-73 | one decryption round under key k takes the substituted output of an encryption round under k back to the substituted input |
| AES128.RoundUndoesInvRound | algoritmo/src/main/java/com/aes/AES128.java:35-40 | one encryption round under key k undoes one decryption round under k, up to the substitution step |
| AES128.InvMiddleRoundsUndoesMiddleRounds | algoritmo/src/main/java/com/aes/AES128.java:67-73 | the decryption loop, taking the keys from the last, undoes the encryption loop up to the substitution step: applied to the substituted output of the encryption loop it gives the substituted input, for any sequence of round keys |
| AES128.MiddleRoundsUndoesInvMiddleRounds | algoritmo/src/main/java/com/aes/AES128.java:35-40 | the encryption loop undoes the decryption loop up to the inverse substitution step, for any sequence of round keys |
| AES128.DecryptBlockUndoesEncryptBlock | algoritmo/src/main/java/com/aes/AES128.java:66-77 | the block decryption inverts the block encryption under any 44-word expanded key |
| AES128.EncryptBlockUndoesDecryptBlock | algoritmo/src/main/java/com/aes/AES128.java:33-44 | the block encryption inverts the block decryption under any 44-word expanded key |
| AES128.DecryptsToFirstBlock | algoritmo/src/main/java/com/aes/AES128.java:22-85 | decrypting what encrypt returns gives removePadding of the first 16 bytes encrypt loaded |
| AES128.DecryptUndoesEncrypt | algoritmo/src/main/java/com/aes/AES128.java:22-85 | a plaintext of 1 to 15 bytes comes back unchanged from decrypt(encrypt(p)) |
| AES128.DecryptEncryptFullBlock | algoritmo/src/main/java/com/aes/AES128.java:22-85 | a 16-byte plaintext is not padded, so decrypt(encrypt(p)) is removePadding(p); `AES128.DecryptEncryptFullBlockZero` shows when this is p |
| AES128.DecryptEncryptFullBlockZero | algoritmo/src/main/java/com/aes/AES128.java:22-85 | a 16-byte plaintext comes back unchanged from decrypt(encrypt(p)) exactly when its last byte is 0 |
| AES128.EncryptUsesFirstBlock | algoritmo/src/main/java/com/aes/AES128.java:27-29 | encrypting a plaintext of 16 or more bytes depends only on its first 16 bytes |
| AES128.DecryptUsesFirstBlock | algoritmo/src/main/java/com/aes/AES128.java:60-62 | decrypting a ciphertext of whole blocks depends only on its first 16 bytes |
| Blocks.LoadState | algoritmo/src/main/java/com/aes/AES128.java:27-29 | byte i of the block lands in row i / 4, position i % 4 of the state |
| Blocks.StoreState | algoritmo/src/main/java/com/aes/AES128.java:46-49 | the output is 16 bytes, byte i taken from row i / 4, position i % 4 |
| Blocks.StoreLoad | algoritmo/src/main/java/com/aes/AES128.java:27-49 | storing a loaded state gives back the first 16 bytes of the input |
| Blocks.LoadStore | algoritmo/src/main/java/com/aes/AES128.java:46-62 | loading a stored state gives back the state |
| Blocks.LoadStateFirstBlock | algoritmo/src/main/java/com/aes/AES128.java:27-29 | two inputs with the same first 16 bytes load the same state |
| Tables.InvSBoxUndoesSBox | algoritmo/src/main/java/com/aes/AES128.java:224-260 | the inverse S-box maps every S-box output back to its input |
| Tables.SBoxUndoesInvSBox | algoritmo/src/main/java/com/aes/AES128.java:322-359 | the S-box maps every inverse S-box output back to its input, so both tables are permutations of the bytes |
| Tables.SBoxInjective | algoritmo/src/main/java/com/aes/AES128.java:357-359 | two bytes have the same substitute exactly when they are equal |
| Tables.RConIsXTimes | algoritmo/src/main/java/com/aes/AES128.java:314-320 | each round constant is the one before it multiplied by x in GF(2^8) |
| Tables.RConIsPowerOfX | algoritmo/src/main/java/com/aes/AES128.java:314-320 | round constant r, for r from 1 to 10, is x^(r-1) |
| GaloisField.GfMultiplyIsFieldProduct | algoritmo/src/main/java/com/aes/AES128.java:270-288 | gfMultiply, signed shift included, equals the GF(2^8) product modulo x^8 + x^4 + x^3 + x + 1, computed by polynomial long division, for all pairs of bytes |
| GaloisField.GfLoopInvariant | algoritmo/src/main/java/com/aes/AES128.java:276-286 | before iteration i, a holds x^i times the first factor, b holds the second factor shifted right i times (so its bit 0 is the second factor's bit i), and the remaining iterations add the remaining terms of the product |
| GaloisField.ShiftsRightSignedBit | algoritmo/src/main/java/com/aes/AES128.java:285 | after i arithmetic shifts, bit j of b is bit i + j of the original whenever i + j < 8, so the copied sign bit never reaches bit 0 in the eight iterations |
| GaloisField.GfMultiplyLinear | algoritmo/src/main/java/com/aes/AES128.java:270-288 | gfMultiply distributes over XOR in its first argument, for every multiplier |
| GaloisField.GfMultiply02 | algoritmo/src/main/java/com/aes/AES128.java:270-288 | multiplication by 0x02 is one doubling (shift left, reduce by 0x1b when the high bit was set) |
| GaloisField.GfMultiply03 | algoritmo/src/main/java/com/aes/AES128.java:270-288 | multiplication by 0x03 is a doubling plus the byte |
| GaloisField.GfMultiply09 | algoritmo/src/main/java/com/aes/AES128.java:270-288 | multiplication by 0x09 is three doublings plus the byte |
| GaloisField.GfMultiply0b | algoritmo/src/main/java/com/aes/AES128.java:270-288 | multiplication by 0x0b is three doublings plus one doubling plus the byte |
| GaloisField.GfMultiply0d | algoritmo/src/main/java/com/aes/AES128.java:270-288 | multiplication by 0x0d is three doublings plus two doublings plus the byte |
| GaloisField.GfMultiply0e | algoritmo/src/main/java/com/aes/AES128.java:270-288 | multiplication by 0x0e is three plus two plus one doublings |
| Columns.InvMixColumnUndoesMixColumn | algoritmo/src/main/java/com/aes/AES128.java:160-195 | the inverse column mix (0e 0b 0d 09) undoes the column mix (02 03 01 01) on every column |
| Columns.MixColumnUndoesInvMixColumn | algoritmo/src/main/java/com/aes/AES128.java:160-195 | the column mix undoes the inverse column mix on every column |
| Columns.MixColumnRows | algoritmo/src/main/java/com/aes/AES128.java:167-174 | each output byte of a column mix is the sum of the four products the matrix row names |
| Columns.InvMixColumnRows | algoritmo/src/main/java/com/aes/AES128.java:186-193 | each output byte of an inverse column mix is the sum of the four products the matrix row names |
| KeySchedule.XorWords | algoritmo/src/main/java/com/aes/AES128.java:120-126 | the result is as long as the first word, and byte i is the XOR of the two words' bytes i |
| KeySchedule.XorWordsCancel | algoritmo/src/main/java/com/aes/AES128.java:120-126 | XORing with the same word twice gives the first word back |
| KeySchedule.XorWordsSelf | algoritmo/src/main/java/com/aes/AES128.java:120-126 | a word XORed with itself is all zeros |
| KeySchedule.RotateWord | algoritmo/src/main/java/com/aes/AES128.java:298-305 | the word rotated one place to the left |
| KeySchedule.ScheduleCoreIsRoundConstant | algoritmo/src/main/java/com/aes/AES128.java:107-109 | because rotateWord and subWord return the same array, the core step yields the round constant followed by three zero bytes, whatever the word |
| KeySchedule.NextWordPlain | algoritmo/src/main/java/com/aes/AES128.java:102-113 | a word whose index is not a multiple of 4 is the XOR of the word four back and the previous word |
| KeySchedule.NextWordRound | algoritmo/src/main/java/com/aes/AES128.java:102-113 | a word whose index i is a multiple of 4 is the word four back with rCon(i / 4) in its first byte, where i / 4 is 1 to 10 |
| KeySchedule.KeyWordsStart | algoritmo/src/main/java/com/aes/AES128.java:92-98 | the key's four words start a valid expansion |
| KeySchedule.KeyWordsExtend | algoritmo/src/main/java/com/aes/AES128.java:101-115 | appending the next word keeps a valid prefix of the expansion valid |
| KeySchedule.ExtendWords | algoritmo/src/main/java/com/aes/AES128.java:100-115 | the loop extends any valid prefix to a valid 44-word expansion that keeps the prefix |
| KeySchedule.KeyExpansion | algoritmo/src/main/java/com/aes/AES128.java:87-118 | the expansion has 44 words, opens with the key, and every later word follows the recurrence |
| KeySchedule.KeyExpansionKeyWords | algoritmo/src/main/java/com/aes/AES128.java:92-98 | words 0 to 3 are the key, four bytes each |
| KeySchedule.KeyExpansionPlainWord | algoritmo/src/main/java/com/aes/AES128.java:101-115 | in the expansion of any key, word i for i not a multiple of 4 is the XOR of words i - 4 and i - 1 |
| KeySchedule.KeyExpansionRoundWord | algoritmo/src/main/java/com/aes/AES128.java:101-115 | in the expansion of any key, word i for i a multiple of 4 is word i - 4 with rCon(i / 4) in its first byte; the S-box is not involved |
| Rounds.SubBytes | algoritmo/src/main/java/com/aes/AES128.java:128-134 | every byte of the state is replaced by its S-box entry |
| Rounds.InvSubBytes | algoritmo/src/main/java/com/aes/AES128.java:137-143 | every byte of the state is replaced by its inverse S-box entry |
| Rounds.InvSubBytesUndoesSubBytes | algoritmo/src/main/java/com/aes/AES128.java:128-143 | invSubBytes undoes subBytes |
| Rounds.SubBytesUndoesInvSubBytes | algoritmo/src/main/java/com/aes/AES128.java:128-143 | subBytes undoes invSubBytes |
| Rounds.LeftRotate | algoritmo/src/main/java/com/aes/AES128.java:262-268 | the row keeps its length, and for a shift no longer than the row the result is the row rotated that many places to the left |
| Rounds.RightRotate | algoritmo/src/main/java/com/aes/AES128.java:216-222 | the row rotated n places to the right: its last n bytes, then the rest |
| Rounds.RightRotateUndoesLeftRotate | algoritmo/src/main/java/com/aes/AES128.java:216-268 | rotating right by n undoes rotating left by n |
| Rounds.LeftRotateUndoesRightRotate | algoritmo/src/main/java/com/aes/AES128.java:216-268 | rotating left by n undoes rotating right by n |
| Rounds.ShiftRows | algoritmo/src/main/java/com/aes/AES128.java:146-150 | row 0 stays, and row i for i = 1, 2, 3 is rotated i places to the left |
| Rounds.InvShiftRows | algoritmo/src/main/java/com/aes/AES128.java:153-157 | row 0 stays, and row i for i = 1, 2, 3 is rotated i places to the right |
| Rounds.InvShiftRowsUndoesShiftRows | algoritmo/src/main/java/com/aes/AES128.java:146-157 | invShiftRows undoes shiftRows |
| Rounds.ShiftRowsUndoesInvShiftRows | algoritmo/src/main/java/com/aes/AES128.java:146-157 | shiftRows undoes invShiftRows |
| Rounds.MixColumns | algoritmo/src/main/java/com/aes/AES128.java:160-176 | byte i of column c of the result depends only on column c: it is byte i of that column's mix |
| Rounds.InvMixColumns | algoritmo/src/main/java/com/aes/AES128.java:179-195 | byte i of column c of the result is byte i of that column's inverse mix |
| Rounds.InvMixColumnsUndoesMixColumns | algoritmo/src/main/java/com/aes/AES128.java:160-195 | invMixColumns undoes mixColumns on every state |
| Rounds.MixColumnsUndoesInvMixColumns | algoritmo/src/main/java/com/aes/AES128.java:160-195 | mixColumns undoes invMixColumns on every state |
| Rounds.AddRoundKey | algoritmo/src/main/java/com/aes/AES128.java:290-296 | each byte of the state is XORed with the round-key byte at the same place |
| Rounds.AddRoundKeyInvolution | algoritmo/src/main/java/com/aes/AES128.java:290-296 | adding the same round key twice gives the state back |
| Padding.PadLength | algoritmo/src/main/java/com/aes/AES128.java:198 | 1 to 16 padding bytes are added, and they bring the length to a multiple of 16 |
| Padding.Pad | algoritmo/src/main/java/com/aes/AES128.java:197-207 | the result keeps the data as its prefix, reaches a multiple of 16, and every added byte holds the number of bytes added |
| Padding.PadIsAddPadding | algoritmo/src/main/java/com/aes/AES128.java:197-207 | pad and addPadding return the same bytes for every input |
| Padding.AddPadding | algoritmo/src/main/java/com/aes/AES128.java:361-366 | the result is longer than the data by the padding length |
| Padding.CopyOf | algoritmo/src/main/java/com/aes/AES128.java:373 | Arrays.copyOf: the requested length, the data's bytes where they exist, zero bytes beyond |
| Padding.Fill | algoritmo/src/main/java/com/aes/AES128.java:364 | Arrays.fill: the given range holds the value, the rest is unchanged |
| Padding.Signed | algoritmo/src/main/java/com/aes/AES128.java:369 | a byte read as a signed Java byte lies in -128 to 127, is negative exactly for 0x80 to 0xff, and is congruent to the byte modulo 256 |
| Padding.RemovePadding | algoritmo/src/main/java/com/aes/AES128.java:368-374 | empty data fails reading the last byte; a count larger than the data, and only that, is rejected as malformed; every other input succeeds, and the result has length minus count bytes, the data's bytes where they exist and zeros beyond |
| Padding.RemovePaddingTruncates | algoritmo/src/main/java/com/aes/AES128.java:368-374 | a count from 0 to the length removes that many bytes from the end |
| Padding.RemovePaddingZero | algoritmo/src/main/java/com/aes/AES128.java:368-374 | a last byte of zero leaves the data unchanged |
| Padding.RemovePaddingNegative | algoritmo/src/main/java/com/aes/AES128.java:368-374 | a last byte from 0x80 to 0xff extends the data with as many zero bytes as the negated signed count |
| Padding.RemovePaddingUndoesPad | algoritmo/src/main/java/com/aes/AES128.java:197-207 | removePadding gives back exactly the data that pad padded, for every input |
| Padding.RemovePaddingUndoesAddPadding | algoritmo/src/main/java/com/aes/AES128.java:361-374 | removePadding gives back exactly the data that addPadding padded, for every input |

## Left out

- The TCP server, the client and their `main` methods: network I/O, not part of the cipher class.
- The `state` field. Each call of `encrypt` and `decrypt` overwrites all 16 bytes before reading
  them, so the model passes the state as a value. Running two calls on one object at the same
  time would share the field; concurrency is not modelled.
- Aliasing of the key array. The constructor keeps a reference to the caller's array, and a later
  change to that array would change the key. The model copies the key.
- `unpad`: a private method that nothing calls.
- Exception messages: each exception is modelled by its kind only (`Errors.Error`).
- `SubWord`, `MixColumn`, `InvMixColumn`, `Round`, `InvRound`, `EncryptBlock` and `DecryptBlock`
  have no contract of their own. Their meaning is stated by the lemmas about them: the schedule
  lemmas show that `subWord`'s output cancels out, and the inverse lemmas cover the rest.
- The same holds for these members, each pinned by the lemmas named after it:
  - `AES128.RoundKey` (line 39) and `AES128.MiddleKeys` (lines 35-40): their contracts only spell
    out the slice and the sequence they build. `AES128.RoundKeyZeroIsKey` relates round key 0 to
    the key. The block inverse lemmas hold for any schedule, so they need nothing more.
  - `AES128.MiddleRounds` (lines 35-40) and `AES128.InvMiddleRounds` (lines 68-73):
    `AES128.InvMiddleRoundsUndoesMiddleRounds` and `AES128.MiddleRoundsUndoesInvMiddleRounds`.
  - `AES128.Substitute` and `AES128.InvSubstitute` (lines 36-37, 42-43, 69-70 and 75-76):
    `AES128.InvSubstituteUndoesSubstitute` and `AES128.SubstituteUndoesInvSubstitute`.
  - `GaloisField.GfLoop` (lines 276-286) and `GaloisField.Accumulate` (lines 277-279):
    `GaloisField.GfLoopInvariant` and `GaloisField.GfMultiplyIsFieldProduct`.
  - `Rounds.Column` (lines 162-165 and 181-184): the contracts of `Rounds.MixColumns` and
    `Rounds.InvMixColumns`, which state each result column through it.
  - `GaloisField.GfMultiply` (lines 270-288): `GaloisField.GfMultiplyIsFieldProduct`,
    `GaloisField.GfLoopInvariant`, and the closed forms `GaloisField.GfMultiply02` to
    `GaloisField.GfMultiply0e`.
  - `GaloisField.XTime` (lines 280-284): `GaloisField.GfMultiply02` (multiplying by 0x02 is
    `XTime`) and `GaloisField.GfMultiplyIsFieldProduct`.
  - `GaloisField.ShiftRightSigned` (line 285): `GaloisField.ShiftsRightSignedBit`.
  - `Tables.SBoxTransform` (lines 357-359) and `Tables.InvSBoxTransform` (lines 224-260):
    `Tables.InvSBoxUndoesSBox`, `Tables.SBoxUndoesInvSBox` and `Tables.SBoxInjective`.
  - `Tables.RCon` (lines 314-320): `Tables.RConIsXTimes` and `Tables.RConIsPowerOfX`.
  - `KeySchedule.ScheduleCore` (lines 107-109): `KeySchedule.ScheduleCoreIsRoundConstant`.
  - `KeySchedule.NextWord` (lines 101-114): `KeySchedule.NextWordPlain` and
    `KeySchedule.NextWordRound`.
- Null arrays. A null key, plaintext or ciphertext makes the constructor, `encrypt` or `decrypt`
  throw a `NullPointerException` (lines 14, 23 and 56), and so does null data passed to
  `addPadding` or `removePadding` (lines 362 and 369). A Dafny sequence is never null, so these
  cases cannot arise in the model.
- KeySchedule.XorWords: requires the first word to be no longer than the second. In Java a longer
  first word makes `xorWords` throw; every caller passes two four-byte words.
- Tables.RCon: requires the round to index the table. In Java a larger round throws; the key
  expansion only asks for rounds 1 to 10.
- Padding.Fill: requires `from <= to <= |data|`. `Arrays.fill` throws outside that range; its
  only caller, `addPadding`, stays inside it.
- Rounds.RightRotate: requires n to be at most the row length. For a larger n the Java index
  `(i - n + length) % length` can be negative and the array access throws. The only callers pass
  1, 2 and 3 on four-byte rows.
- Rounds.LeftRotate: the shift is a natural number. A negative shift makes the Java index
  `(i + n) % length` negative and throws; no caller passes one.
- Known-answer test vectors: because of the row-major state and the key-schedule aliasing, the
  outputs are not FIPS-197 ciphertexts, and no vector was worked out.
