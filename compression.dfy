/** The dynamic-range compressor of the effects chain: every sample whose magnitude
    exceeds the threshold is pulled towards the threshold, keeping its sign, so that
    only the excess over the threshold is divided by the ratio. */
module Compression {
  import opened Buffers

  /** The compressor's transfer curve for one sample. */
  function CompressSample(x: real, ratio: real, threshold: real): real
    requires ratio != 0.0
  {
    if Abs(x) > threshold then Sign(x) * (threshold + (Abs(x) - threshold) / ratio) else x
  }

  /** The compressed buffer: the transfer curve applied to every sample. */
  function Compressed(audio: Buffer, ratio: real, threshold: real): (r: Buffer)
    requires ratio != 0.0
    ensures |r| == |audio|
  {
    seq(|audio|, i requires 0 <= i < |audio| => CompressSample(audio[i], ratio, threshold))
  }

  /** Copies the input, then rewrites in place the samples over the threshold. The
      input is a value and is left as it was; the result is the compressed buffer. */
  method ApplyCompression(audio: Buffer, ratio: real, threshold: real) returns (compressed: Buffer)
    requires ratio != 0.0
    ensures compressed == Compressed(audio, ratio, threshold)
  {
    var c := new real[|audio|](i requires 0 <= i < |audio| => audio[i]);
    var i := 0;
    while i < c.Length
      invariant 0 <= i <= c.Length == |audio|
      invariant forall k :: 0 <= k < i ==> c[k] == CompressSample(audio[k], ratio, threshold)
      invariant forall k :: i <= k < c.Length ==> c[k] == audio[k]
    {
      if Abs(c[i]) > threshold {
        c[i] := Sign(c[i]) * (threshold + (Abs(c[i]) - threshold) / ratio);
      }
      i := i + 1;
    }
    compressed := c[..];
  }

  /** Samples within the threshold pass unchanged. Above it, with a ratio over 1 and
      a non-negative threshold, the sample keeps its sign and its magnitude ends up
      strictly between the threshold and the original magnitude. */
  lemma CompressionContracts(x: real, ratio: real, threshold: real)
    requires ratio > 1.0 && threshold >= 0.0
    ensures Abs(x) <= threshold ==> CompressSample(x, ratio, threshold) == x
    ensures Abs(x) > threshold ==>
      var y := CompressSample(x, ratio, threshold);
      Sign(y) == Sign(x) && threshold < Abs(y) < Abs(x)
  {
    if Abs(x) > threshold {
      var excess := Abs(x) - threshold;
      assert 0.0 < excess / ratio < excess by {
        assert excess / ratio * ratio == excess;
      }
    }
  }

  /** With a positive ratio and a non-negative threshold the transfer curve is
      non-decreasing, so the compressor never reorders sample values. */
  lemma CompressionMonotone(x: real, y: real, ratio: real, threshold: real)
    requires ratio > 0.0 && threshold >= 0.0 && x <= y
    ensures CompressSample(x, ratio, threshold) <= CompressSample(y, ratio, threshold)
  {
    if x > threshold {
      DivideMonotone(x - threshold, y - threshold, ratio);
    } else if y < -threshold {
      DivideMonotone(-y - threshold, -x - threshold, ratio);
    } else if x < -threshold {
      DivideMonotone(0.0, -x - threshold, ratio);
      if y > threshold {
        DivideMonotone(0.0, y - threshold, ratio);
      }
    } else if y > threshold {
      DivideMonotone(0.0, y - threshold, ratio);
    }
  }

  lemma DivideMonotone(a: real, b: real, ratio: real)
    requires ratio > 0.0 && a <= b
    ensures a / ratio <= b / ratio
  {
    assert (b - a) / ratio * ratio == b - a;
    assert b / ratio - a / ratio == (b - a) / ratio;
  }

  /** The whole buffer: every sample within the threshold is kept, every louder one
      is attenuated towards the threshold with its sign kept. */
  lemma CompressedBuffer(audio: Buffer, ratio: real, threshold: real)
    requires ratio > 1.0 && threshold >= 0.0
    ensures forall i :: 0 <= i < |audio| && Abs(audio[i]) <= threshold ==>
      Compressed(audio, ratio, threshold)[i] == audio[i]
    ensures forall i :: 0 <= i < |audio| && Abs(audio[i]) > threshold ==>
      var y := Compressed(audio, ratio, threshold)[i];
      Sign(y) == Sign(audio[i]) && threshold < Abs(y) < Abs(audio[i])
  {
    forall i | 0 <= i < |audio| {
      CompressionContracts(audio[i], ratio, threshold);
    }
  }
}
