/** 16-bit PCM: the little-endian two's-complement sample codec (numpy's "<i2"
    dtype) and the float-to-PCM16 conversion of the noise-suppression stage. */
module Pcm16 {
  import opened Numerics
  import opened Bytes

  predicate IsInt16(v: int) {
    -32768 <= v <= 32767
  }

  /** The int16 whose little-endian bytes are `lo`, `hi`. */
  function Int16FromLE(lo: byte, hi: byte): (v: int)
    ensures IsInt16(v)
    ensures v >= 0 <==> hi < 128
  {
    var u := lo as int + 256 * hi as int;
    if u >= 32768 then u - 65536 else u
  }

  /** The two little-endian bytes of an int16 (what `ndarray.tobytes()` writes for one
      int16 on a little-endian machine). */
  function Int16ToLE(v: int): (b: (byte, byte))
    requires IsInt16(v)
    ensures Int16FromLE(b.0, b.1) == v
  {
    var u := if v < 0 then v + 65536 else v;
    ((u % 256) as byte, (u / 256) as byte)
  }

  /** Every byte pair is the encoding of the int16 it decodes to. */
  lemma Int16BytesRoundTrip(lo: byte, hi: byte)
    ensures Int16ToLE(Int16FromLE(lo, hi)) == (lo, hi)
  {
    var u := lo as int + 256 * hi as int;
    assert u % 256 == lo as int && u / 256 == hi as int;
  }

  /** `np.frombuffer(raw, dtype="<i2")`: consecutive byte pairs as int16 values. */
  function DecodeInt16LE(b: seq<byte>): (r: seq<int>)
    requires |b| % 2 == 0
    ensures |r| == |b| / 2
    ensures forall k :: 0 <= k < |r| ==> IsInt16(r[k])
  {
    if |b| == 0 then [] else [Int16FromLE(b[0], b[1])] + DecodeInt16LE(b[2..])
  }

  /** Sample `k` of a decoded buffer comes from bytes `2k` and `2k + 1`. */
  lemma {:induction false} DecodeInt16LEAt(b: seq<byte>, k: nat)
    requires |b| % 2 == 0 && k < |b| / 2
    ensures DecodeInt16LE(b)[k] == Int16FromLE(b[2 * k], b[2 * k + 1])
  {
    if k > 0 {
      DecodeInt16LEAt(b[2..], k - 1);
    }
  }

  /** `ndarray.tobytes()` of an int16 array: each value as two little-endian bytes. */
  function EncodeInt16LE(v: seq<int>): (b: seq<byte>)
    requires forall i :: 0 <= i < |v| ==> IsInt16(v[i])
    ensures |b| == 2 * |v|
  {
    if |v| == 0 then [] else
      var p := Int16ToLE(v[0]);
      [p.0, p.1] + EncodeInt16LE(v[1..])
  }

  /** Decoding the bytes of an int16 array gives the array back. */
  lemma {:induction false} Int16SeqRoundTrip(v: seq<int>)
    requires forall i :: 0 <= i < |v| ==> IsInt16(v[i])
    ensures DecodeInt16LE(EncodeInt16LE(v)) == v
  {
    if |v| > 0 {
      var e := EncodeInt16LE(v);
      assert e[2..] == EncodeInt16LE(v[1..]);
      Int16SeqRoundTrip(v[1..]);
    }
  }

  /** Encoding the decoded values of an even-length buffer gives the buffer back. */
  lemma {:induction false} Int16BytesSeqRoundTrip(b: seq<byte>)
    requires |b| % 2 == 0
    ensures EncodeInt16LE(DecodeInt16LE(b)) == b
  {
    if |b| > 0 {
      var d := DecodeInt16LE(b);
      assert d[1..] == DecodeInt16LE(b[2..]);
      Int16BytesRoundTrip(b[0], b[1]);
      Int16BytesSeqRoundTrip(b[2..]);
    }
  }

  /** `astype(np.float32) / 32768.0` on one int16 sample. */
  function Int16ToFloat(v: int): (x: real)
    requires IsInt16(v)
    ensures -1.0 <= x <= 32767.0 / 32768.0
  {
    v as real / 32768.0
  }

  /** One sample of `_float_to_pcm16`: clip to [-1, 1], scale by 32767 and round half to
      even. The code lies in [-32767, 32767] (never -32768) and is within half a step of
      the scaled, clipped sample. */
  function SampleToPcm16(v: real): (c: int)
    ensures -32767 <= c <= 32767 && IsInt16(c)
    ensures -0.5 <= c as real - Clip(v) * 32767.0 <= 0.5
  {
    RoundHalfEven(Clip(v) * 32767.0)
  }

  /** `_float_to_pcm16` on a whole signal, sample by sample. */
  function FloatToPcm16(s: seq<real>): (r: seq<int>)
    ensures |r| == |s|
    ensures forall i :: 0 <= i < |r| ==> r[i] == SampleToPcm16(s[i])
    ensures forall i :: 0 <= i < |r| ==> IsInt16(r[i])
  {
    seq(|s|, i requires 0 <= i < |s| => SampleToPcm16(s[i]))
  }

  /** Equal samples give equal codes, wherever they sit. */
  lemma FloatToPcm16Pointwise(a: seq<real>, i: nat, b: seq<real>, k: nat)
    requires i < |a| && k < |b| && a[i] == b[k]
    ensures FloatToPcm16(a)[i] == FloatToPcm16(b)[k]
  {
  }

  /** Encoding scales by 32767 while decoding divides by 32768: a sample that survives the
      trip through a backend unchanged comes back scaled by 32767/32768, up to one half
      code of rounding. Full scale 1.0 returns as 32767/32768. */
  lemma PcmRoundTripScale(s: seq<real>, i: nat)
    requires i < |s|
    ensures var back := Int16ToFloat(FloatToPcm16(s)[i]);
      -0.5 / 32768.0 <= back - Clip(s[i]) * (32767.0 / 32768.0) <= 0.5 / 32768.0
  {
  }

  lemma FullScaleRoundTrip()
    ensures Int16ToFloat(FloatToPcm16([1.0])[0]) == 32767.0 / 32768.0
  {
    assert Clip(1.0) * 32767.0 == 32767.0;
    RoundHalfEvenUnique(32767.0, 32767);
  }
}
