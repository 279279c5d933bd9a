/**
 * The sample conversion of save_wav: hard-clip a float buffer to [-1, 1], then
 * scale by 32767 and cast to 16-bit integers, truncating toward zero. There is
 * no peak rescaling.
 */
module Pcm {
  import opened Numeric

  /** A signed 16-bit PCM sample. */
  newtype Int16 = x: int | -32768 <= x <= 32767

  /** The scale factor from [-1, 1] to PCM sample values. */
  const FullScale: real := 32767.0

  /** numpy.clip(x, -1, 1) on one sample. */
  function Clip(x: real): (c: real)
    ensures -1.0 <= c <= 1.0
    ensures -1.0 <= x <= 1.0 ==> c == x
    ensures x > 1.0 ==> c == 1.0
    ensures x < -1.0 ==> c == -1.0
  {
    if x < -1.0 then -1.0 else if x > 1.0 then 1.0 else x
  }

  /** `np.clip(audio, -1, 1)`: every sample forced into [-1, 1], in-range samples left alone. */
  function ClipBuffer(audio: seq<real>): (c: seq<real>)
    ensures |c| == |audio|
    ensures forall k :: 0 <= k < |c| ==> -1.0 <= c[k] <= 1.0
    ensures forall k :: 0 <= k < |c| && -1.0 <= audio[k] <= 1.0 ==> c[k] == audio[k]
    ensures forall k :: 0 <= k < |c| && audio[k] > 1.0 ==> c[k] == 1.0
    ensures forall k :: 0 <= k < |c| && audio[k] < -1.0 ==> c[k] == -1.0
  {
    seq(|audio|, k requires 0 <= k < |audio| => Clip(audio[k]))
  }

  /** `np.int16(y * 32767)` on a clipped sample: scale, then truncate toward zero. */
  function ToInt16(y: real): (q: Int16)
    requires -1.0 <= y <= 1.0
    ensures -32767 <= q as int <= 32767
    ensures Abs(q as real) <= Abs(y * FullScale) < Abs(q as real) + 1.0
    ensures y > 0.0 ==> q >= 0
    ensures y < 0.0 ==> q <= 0
  {
    var t := Trunc(y * FullScale);
    t as Int16
  }

  /** The samples save_wav hands to the WAV writer. */
  function Encode(audio: seq<real>): (pcm: seq<Int16>)
    ensures |pcm| == |audio|
    ensures forall k :: 0 <= k < |pcm| ==> -32767 <= pcm[k] as int <= 32767
    ensures forall k :: 0 <= k < |pcm| && audio[k] > 0.0 ==> pcm[k] >= 0
    ensures forall k :: 0 <= k < |pcm| && audio[k] < 0.0 ==> pcm[k] <= 0
    ensures forall k :: 0 <= k < |pcm| && audio[k] == 0.0 ==> pcm[k] == 0
    ensures forall k :: 0 <= k < |pcm| && audio[k] >= 1.0 ==> pcm[k] == 32767
    ensures forall k :: 0 <= k < |pcm| && audio[k] <= -1.0 ==> pcm[k] == -32767
    ensures forall k :: 0 <= k < |pcm| ==>
              Abs(pcm[k] as real) <= Abs(Clip(audio[k]) * FullScale) < Abs(pcm[k] as real) + 1.0
  {
    var clipped := ClipBuffer(audio);
    seq(|audio|, k requires 0 <= k < |audio| => ToInt16(clipped[k]))
  }

  /** Encoding never reverses the order of two samples. */
  lemma EncodeMonotone(audio: seq<real>, i: nat, j: nat)
    requires i < |audio| && j < |audio|
    requires audio[i] <= audio[j]
    ensures Encode(audio)[i] <= Encode(audio)[j]
  {
    var c := ClipBuffer(audio);
    assert c[i] <= c[j];
    assert c[i] * FullScale <= c[j] * FullScale;
    TruncMonotone(c[i] * FullScale, c[j] * FullScale);
  }

  /** Reading a PCM sample back as a float in [-1, 1], the inverse scaling of Encode. */
  function Decode(pcm: seq<Int16>): (audio: seq<real>)
    ensures |audio| == |pcm|
  {
    seq(|pcm|, k requires 0 <= k < |pcm| => pcm[k] as real / FullScale)
  }

  /** Decoding what Encode wrote gives back the clipped input to within one quantisation step. */
  lemma DecodeEncodeWithinStep(audio: seq<real>)
    ensures forall k :: 0 <= k < |audio| ==>
              Abs(Decode(Encode(audio))[k] - Clip(audio[k])) < 1.0 / FullScale
  {
    var pcm := Encode(audio);
    var back := Decode(pcm);
    forall k | 0 <= k < |audio|
      ensures Abs(back[k] - Clip(audio[k])) < 1.0 / FullScale
    {
      var c := Clip(audio[k]);
      var q := pcm[k] as real;
      assert ClipBuffer(audio)[k] == c;
      assert Abs(q) <= Abs(c * FullScale) < Abs(q) + 1.0;
      assert c >= 0.0 ==> q >= 0.0;
      assert c <= 0.0 ==> q <= 0.0;
      assert Abs(q - c * FullScale) < 1.0;
      assert back[k] - c == (q - c * FullScale) / FullScale;
    }
  }

  /** Every PCM sample except -32768 survives decoding and re-encoding unchanged. */
  lemma EncodeDecodeRoundTrip(pcm: seq<Int16>)
    requires forall k :: 0 <= k < |pcm| ==> pcm[k] != -32768
    ensures Encode(Decode(pcm)) == pcm
  {
    var audio := Decode(pcm);
    forall k | 0 <= k < |pcm|
      ensures Encode(audio)[k] == pcm[k]
    {
      var q := pcm[k] as real;
      assert audio[k] == q / FullScale;
      assert -1.0 <= audio[k] <= 1.0;
      assert ClipBuffer(audio)[k] == audio[k];
      assert audio[k] * FullScale == q;
      assert Trunc(q) == pcm[k] as int;
    }
  }
}
