/** The key expansion of AES128: 44 four-byte words computed from a 16-byte key. */
module KeySchedule {
  import opened Blocks
  import opened Tables

  /** `xorWords(word1, word2)`: a fresh array as long as the first word; the second must be at least
      as long. */
  function XorWords(w1: seq<bv8>, w2: seq<bv8>): (r: seq<bv8>)
    requires |w1| <= |w2|
    ensures |r| == |w1|
    ensures forall i :: 0 <= i < |r| ==> r[i] == w1[i] ^ w2[i]
  {
    seq(|w1|, i requires 0 <= i < |w1| => w1[i] ^ w2[i])
  }

  /** `rotateWord(word)`: one cyclic step to the left. */
  function RotateWord(w: Word): (r: Word)
    ensures r == w[1..] + w[..1]
  {
    [w[1], w[2], w[3], w[0]]
  }

  /** `subWord(word)`: the S-box on each byte. */
  function SubWord(w: Word): Word
  {
    [SBoxTransform(w[0]), SBoxTransform(w[1]), SBoxTransform(w[2]), SBoxTransform(w[3])]
  }

  /** The statement `temp = xorWords(rotateWord(temp), subWord(temp)); temp[0] ^= rCon(i / Nk)`.
      Both helpers update `temp` in place and return it, so by the time `xorWords` runs, both of its
      arguments are the same array, holding the substituted rotation of the old word. */
  function ScheduleCore(temp: Word, round: nat): Word
    requires round < |RConTable|
  {
    var shared := SubWord(RotateWord(temp));
    var t := XorWords(shared, shared);
    [t[0] ^ RCon(round), t[1], t[2], t[3]]
  }

  /** Word i of the expansion (i >= 4) from the word four places back and the word before it:
      `temp` is the previous word, put through the core step every fourth word. */
  function NextWord(back: Word, prev: Word, i: nat): Word
    requires 4 <= i < 44
  {
    var temp := if i % 4 == 0 then ScheduleCore(prev, i / 4) else prev;
    XorWords(back, temp)
  }

  /** w is a prefix of the expansion of key: it opens with the key's four words, and each later
      word is the one `NextWord` computes from the words before it. */
  predicate IsExpansionPrefix(key: Key, w: seq<Word>)
  {
    && 4 <= |w| <= 44
    && (forall i :: 0 <= i < 4 ==> w[i] == key[4 * i .. 4 * i + 4])
    && (forall i :: 4 <= i < |w| ==> w[i] == NextWord(w[i - 4], w[i - 1], i))
  }

  /** The key's own four words start the expansion. */
  lemma KeyWordsStart(key: Key)
    ensures IsExpansionPrefix(key, [key[0..4], key[4..8], key[8..12], key[12..16]])
  {
  }

  /** Appending the next word keeps a prefix of the expansion a prefix. */
  lemma KeyWordsExtend(key: Key, w: seq<Word>)
    requires IsExpansionPrefix(key, w) && |w| < 44
    ensures IsExpansionPrefix(key, w + [NextWord(w[|w| - 4], w[|w| - 1], |w|)])
  {
  }

  /** The loop `for (i = Nk; i < Nb * (Nr + 1); i++)`: extend a prefix of the expansion one word
      at a time until it holds all 44 words. */
  function ExtendWords(key: Key, w: seq<Word>): (r: seq<Word>)
    requires IsExpansionPrefix(key, w)
    ensures |r| == 44 && IsExpansionPrefix(key, r)
    ensures r[..|w|] == w
    decreases 44 - |w|
  {
    if |w| == 44 then
      w
    else
      var v := w + [NextWord(w[|w| - 4], w[|w| - 1], |w|)];
      KeyWordsExtend(key, w);
      var r := ExtendWords(key, v);
      PrefixOfPrefix(r, v, w);
      r
  }

  lemma PrefixOfPrefix(r: seq<Word>, v: seq<Word>, w: seq<Word>)
    requires |w| <= |v| <= |r| && r[..|v|] == v && v[..|w|] == w
    ensures r[..|w|] == w
  {
    assert r[..|w|] == r[..|v|][..|w|];
  }

  /** `keyExpansion(key)`: the key's four words, then the 40 computed ones. */
  function KeyExpansion(key: Key): (w: seq<Word>)
    ensures |w| == 44 && IsExpansionPrefix(key, w)
  {
    KeyWordsStart(key);
    ExtendWords(key, [key[0..4], key[4..8], key[8..12], key[12..16]])
  }

  /** XOR of a word with itself is the zero word. */
  lemma XorWordsSelf(w: seq<bv8>)
    ensures XorWords(w, w) == seq(|w|, _ => 0)
  {
  }

  /** XOR with the same word twice gives the original word back. */
  lemma XorWordsCancel(a: seq<bv8>, b: seq<bv8>)
    requires |a| <= |b|
    ensures XorWords(XorWords(a, b), b) == a
  {
  }

  /** Because of the aliasing, the core step forgets its input word and never feeds the S-box into the
      schedule: `temp` becomes the round constant followed by three zero bytes. */
  lemma ScheduleCoreIsRoundConstant(temp: Word, round: nat)
    requires round < |RConTable|
    ensures ScheduleCore(temp, round) == [RCon(round), 0, 0, 0]
  {
    var shared := SubWord(RotateWord(temp));
    XorWordsSelf(shared);
  }

  /** A word that is not a multiple of four is the XOR of the word four back and the previous word. */
  lemma NextWordPlain(back: Word, prev: Word, i: nat)
    requires 4 <= i < 44 && i % 4 != 0
    ensures NextWord(back, prev, i) == XorWords(back, prev)
  {
  }

  /** A word whose index is a multiple of four is the word four back with round constant rCon(i / 4)
      XORed into its first byte; the previous word plays no part. */
  lemma NextWordRound(back: Word, prev: Word, i: nat)
    requires 4 <= i < 44 && i % 4 == 0
    ensures 1 <= i / 4 <= 10
    ensures NextWord(back, prev, i) == [back[0] ^ RCon(i / 4), back[1], back[2], back[3]]
  {
    ScheduleCoreIsRoundConstant(prev, i / 4);
  }

  /** Words 0 .. 3 of the expansion are the key, four bytes each. */
  lemma KeyExpansionKeyWords(key: Key, i: nat)
    requires i < 4
    ensures KeyExpansion(key)[i] == key[4 * i .. 4 * i + 4]
  {
  }

  /** Every later word whose index is not a multiple of four is the XOR of the word four back and the
      word before it. */
  lemma KeyExpansionPlainWord(key: Key, i: nat)
    requires 4 <= i < 44 && i % 4 != 0
    ensures var w := KeyExpansion(key); w[i] == XorWords(w[i - 4], w[i - 1])
  {
    var w := KeyExpansion(key);
    NextWordPlain(w[i - 4], w[i - 1], i);
  }

  /** Every fourth word is the word four back with rCon(i / 4), one of entries 1 .. 10 of the table,
      in its first byte: the S-box and the previous word never reach the schedule. */
  lemma KeyExpansionRoundWord(key: Key, i: nat)
    requires 4 <= i < 44 && i % 4 == 0
    ensures 1 <= i / 4 <= 10
    ensures var w := KeyExpansion(key); w[i] == [w[i - 4][0] ^ RCon(i / 4), w[i - 4][1], w[i - 4][2], w[i - 4][3]]
  {
    var w := KeyExpansion(key);
    NextWordRound(w[i - 4], w[i - 1], i);
  }
}
