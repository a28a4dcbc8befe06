/** The padding helpers of AES128: `pad` and `addPadding` append PKCS#7-style padding, and
    `removePadding` strips it again, reading the pad length from the last byte as a signed Java
    byte. */
module Padding {
  import opened Errors

  /** The number of padding bytes `pad` appends: 16 - length mod 16, from 1 to 16. */
  function PadLength(n: nat): (k: nat)
    ensures 1 <= k <= 16 && (n + k) % 16 == 0
  {
    16 - n % 16
  }

  /** `Arrays.copyOf(data, newLength)`: the first newLength bytes of data, extended with zero bytes
      when newLength is longer than data. */
  function CopyOf(data: seq<bv8>, newLength: nat): (r: seq<bv8>)
    ensures |r| == newLength
    ensures forall i :: 0 <= i < newLength ==> r[i] == (if i < |data| then data[i] else 0)
  {
    if newLength <= |data| then data[..newLength] else data + seq(newLength - |data|, _ => 0)
  }

  /** `Arrays.fill(data, from, to, value)`: positions from .. to - 1 set to value. */
  function Fill(data: seq<bv8>, from: nat, to: nat, value: bv8): (r: seq<bv8>)
    requires from <= to <= |data|
    ensures |r| == |data|
    ensures forall i :: 0 <= i < |r| ==> r[i] == (if from <= i < to then value else data[i])
  {
    data[..from] + seq(to - from, _ => value) + data[to..]
  }

  /** `pad(data)`: the data followed by k bytes of value k, for k = PadLength(|data|). */
  function Pad(data: seq<bv8>): (r: seq<bv8>)
    ensures |r| == |data| + PadLength(|data|) && |r| % 16 == 0
    ensures r[..|data|] == data
    ensures forall i :: |data| <= i < |r| ==> r[i] == PadLength(|data|) as bv8
  {
    var k := PadLength(|data|);
    data + seq(k, _ => k as bv8)
  }

  /** `addPadding(data)`: the same padding written as a copy and a fill. */
  function AddPadding(data: seq<bv8>): (r: seq<bv8>)
    ensures |r| == |data| + PadLength(|data|)
  {
    var k := PadLength(|data|);
    Fill(CopyOf(data, |data| + k), |data|, |data| + k, k as bv8)
  }

  /** The two padding methods agree on every input. */
  lemma PadIsAddPadding(data: seq<bv8>)
    ensures Pad(data) == AddPadding(data)
  {
    var p, a := Pad(data), AddPadding(data);
    forall i | 0 <= i < |p|
      ensures p[i] == a[i]
    {
      if i < |data| {
        assert p[i] == p[..|data|][i];
      }
    }
  }

  /** A Java byte widened to int: values 0x80 .. 0xff stand for -128 .. -1. */
  function Signed(b: bv8): (v: int)
    ensures -128 <= v < 128
    ensures v >= 0 <==> b < 0x80
    ensures v % 256 == b as int
  {
    if b < 0x80 then b as int else b as int - 256
  }

  /** Small counts survive the round trip through a signed byte. */
  lemma SignedSmall(k: nat)
    requires k < 0x80
    ensures Signed(k as bv8) == k
  {
  }

  /** `removePadding(data)`: the pad length p is the last byte, read as a signed byte. An empty
      array has no last byte; a p longer than the data is rejected; otherwise the result is
      `Arrays.copyOf(data, |data| - p)`, which for a negative p extends the data with -p zeros. */
  function RemovePadding(data: seq<bv8>): (r: Result<seq<bv8>>)
    ensures |data| == 0 <==> r == Failure(IndexOutOfBounds)
    ensures r == Failure(MalformedPadding) <==> |data| > 0 && Signed(data[|data| - 1]) > |data|
    ensures r.Success? <==> |data| > 0 && Signed(data[|data| - 1]) <= |data|
    ensures r.Success? ==> |r.value| == |data| - Signed(data[|data| - 1])
    ensures r.Success? ==> forall i :: 0 <= i < |r.value| ==> r.value[i] == (if i < |data| then data[i] else 0)
  {
    if |data| == 0 then
      Failure(IndexOutOfBounds)
    else
      var p := Signed(data[|data| - 1]);
      if p > |data| then Failure(MalformedPadding) else Success(CopyOf(data, |data| - p))
  }

  /** A last byte from 0 to the length (as a signed byte) removes that many bytes. */
  lemma RemovePaddingTruncates(data: seq<bv8>)
    requires |data| > 0 && 0 <= Signed(data[|data| - 1]) <= |data|
    ensures RemovePadding(data) == Success(data[..|data| - Signed(data[|data| - 1])])
  {
  }

  /** A last byte of zero leaves the data as it is. */
  lemma RemovePaddingZero(data: seq<bv8>)
    requires |data| > 0 && data[|data| - 1] == 0
    ensures RemovePadding(data) == Success(data)
  {
    assert data[..|data|] == data;
  }

  /** A last byte from 0x80 to 0xff is a negative count, and the result is the data followed by
      that many zero bytes. */
  lemma RemovePaddingNegative(data: seq<bv8>)
    requires |data| > 0 && data[|data| - 1] >= 0x80
    ensures RemovePadding(data) == Success(data + seq(-Signed(data[|data| - 1]), _ => 0))
  {
    var r := RemovePadding(data).value;
    var z := data + seq(-Signed(data[|data| - 1]), _ => 0);
    assert |r| == |z|;
    forall i | 0 <= i < |r|
      ensures r[i] == z[i]
    {
    }
  }

  /** Padding is undone by removePadding. */
  lemma RemovePaddingUndoesPad(data: seq<bv8>)
    ensures RemovePadding(Pad(data)) == Success(data)
  {
    var p := Pad(data);
    var k := PadLength(|data|);
    assert p[|p| - 1] == k as bv8;
    SignedSmall(k);
    RemovePaddingTruncates(p);
  }

  /** Padding added by addPadding is undone by removePadding. */
  lemma RemovePaddingUndoesAddPadding(data: seq<bv8>)
    ensures RemovePadding(AddPadding(data)) == Success(data)
  {
    PadIsAddPadding(data);
    RemovePaddingUndoesPad(data);
  }
}
