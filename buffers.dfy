/** Sample buffers: mono sample sequences at one sample rate, and the whole-buffer
    arithmetic (scale, add, peak, mean-square energy, peak normalisation) that the
    effects and the mashup strategies build on. Samples are modelled as reals. */
module Buffers {

  type Buffer = seq<real>

  /** The ways an operation of the core can fail instead of returning a buffer. */
  datatype Failure =
    | InvalidTempoEstimate  // a tempo that is zero or negative
    | DegenerateBuffer      // an empty buffer where a peak or an energy is needed
    | ShapeMismatch         // an element-wise product of buffers of different lengths
    | DivisionByZero        // an integer division by zero
    | ZeroStep              // a stepped range whose step is zero
    | InvalidCutoff         // a filter cutoff at or above the Nyquist frequency

  datatype Result<T> = Ok(value: T) | Err(error: Failure)

  datatype Option<T> = None | Some(value: T)

  function Min(a: int, b: int): int { if a <= b then a else b }

  function Abs(x: real): real { if x < 0.0 then -x else x }

  /** The sign of a sample: 1, -1, or 0 for silence. */
  function Sign(x: real): real { if x > 0.0 then 1.0 else if x < 0.0 then -1.0 else 0.0 }

  /** The buffer `a * c`. */
  function Scale(a: Buffer, c: real): (r: Buffer)
    ensures |r| == |a|
  {
    seq(|a|, i requires 0 <= i < |a| => a[i] * c)
  }

  /** The buffer `a + b`, defined when both have one shape. */
  function Add(a: Buffer, b: Buffer): (r: Buffer)
    requires |a| == |b|
    ensures |r| == |a|
  {
    seq(|a|, i requires 0 <= i < |a| => a[i] + b[i])
  }

  /** The weighted sum `a * wa + b * wb` of two buffers of one shape. */
  function Blend(a: Buffer, wa: real, b: Buffer, wb: real): (r: Buffer)
    requires |a| == |b|
    ensures |r| == |a|
  {
    Add(Scale(a, wa), Scale(b, wb))
  }

  /** The peak `max(|a|)` of a non-empty buffer: it bounds every sample's magnitude
      and is reached by one of them. */
  function Peak(a: Buffer): (m: real)
    requires |a| > 0
    ensures forall i :: 0 <= i < |a| ==> Abs(a[i]) <= m
    ensures exists i :: 0 <= i < |a| && Abs(a[i]) == m
  {
    if |a| == 1 then Abs(a[0])
    else
      var rest := Peak(a[1..]);
      assert forall i :: 1 <= i < |a| ==> a[i] == a[1..][i - 1];
      if Abs(a[0]) > rest then Abs(a[0]) else rest
  }

  /** The sum of the squares of the samples. */
  function SumSquares(a: Buffer): (r: real)
    ensures r >= 0.0
  {
    if |a| == 0 then 0.0
    else
      SquareFacts(a[0]);
      a[0] * a[0] + SumSquares(a[1..])
  }

  lemma SquareFacts(x: real)
    ensures x * x >= 0.0
  {
    if x < 0.0 {
      var y := -x;
      assert x * x == y * y;
    }
  }

  /** The mean-square energy `mean(a ** 2)` of a non-empty buffer. */
  function Energy(a: Buffer): (e: real)
    requires |a| > 0
    ensures e >= 0.0
  {
    SumSquares(a) / (|a| as real)
  }

  /** Peak normalisation to 0.95: a buffer with a non-zero peak is divided by its
      peak and scaled by 0.95; a silent buffer is returned as it is. */
  function Normalize(a: Buffer): (r: Buffer)
    requires |a| > 0
    ensures |r| == |a|
  {
    var m := Peak(a);
    if m > 0.0 then Rescaled(a, m) else a
  }

  /** The buffer `a / m * 0.95`. */
  function Rescaled(a: Buffer, m: real): (r: Buffer)
    requires m > 0.0
    ensures |r| == |a|
  {
    seq(|a|, i requires 0 <= i < |a| => a[i] / m * 0.95)
  }

  lemma ScaledSampleBound(x: real, m: real)
    requires m > 0.0 && Abs(x) <= m
    ensures Abs(x / m * 0.95) == Abs(x) / m * 0.95
    ensures Abs(x / m * 0.95) <= 0.95
    ensures (x / m * 0.95) * m == x * 0.95
    ensures Abs(x) == m ==> Abs(x / m * 0.95) == 0.95
  {
    var c := 0.95 / m;
    assert x / m * 0.95 == x * c;
    assert Abs(x) * c <= m * c;
    assert m * c == 0.95;
  }

  /** A buffer's peak is zero exactly when it is silent, and normalisation leaves
      a silent buffer unchanged. */
  lemma SilentBufferUnchanged(a: Buffer)
    requires |a| > 0
    ensures Peak(a) == 0.0 <==> forall i :: 0 <= i < |a| ==> a[i] == 0.0
    ensures Peak(a) == 0.0 ==> Normalize(a) == a
  {
    if forall i :: 0 <= i < |a| ==> a[i] == 0.0 {
      var k :| 0 <= k < |a| && Abs(a[k]) == Peak(a);
    }
  }

  /** Rescaling by a bound m of every sample's magnitude keeps every sample within
      0.95 and multiplies each by 0.95 / m. */
  lemma RescaledSamples(a: Buffer, m: real)
    requires m > 0.0
    requires forall i :: 0 <= i < |a| ==> Abs(a[i]) <= m
    ensures forall i :: 0 <= i < |a| ==>
      Abs(Rescaled(a, m)[i]) <= 0.95 && Rescaled(a, m)[i] * m == a[i] * 0.95
  {
    forall i | 0 <= i < |a|
      ensures Abs(Rescaled(a, m)[i]) <= 0.95 && Rescaled(a, m)[i] * m == a[i] * 0.95
    {
      ScaledSampleBound(a[i], m);
    }
  }

  /** A bound on every sample's magnitude that one sample reaches is the peak. */
  lemma PeakIsReachedBound(a: Buffer, c: real, k: int)
    requires 0 <= k < |a| && Abs(a[k]) == c
    requires forall i :: 0 <= i < |a| ==> Abs(a[i]) <= c
    ensures Peak(a) == c
  {
    var j :| 0 <= j < |a| && Abs(a[j]) == Peak(a);
  }

  /** After normalisation the peak is exactly 0.95, or 0 for a silent buffer. */
  lemma NormalizedPeak(a: Buffer)
    requires |a| > 0
    ensures Peak(Normalize(a)) == if Peak(a) > 0.0 then 0.95 else 0.0
  {
    var m := Peak(a);
    if m > 0.0 {
      var r := Rescaled(a, m);
      assert Normalize(a) == r;
      RescaledSamples(a, m);
      var k :| 0 <= k < |a| && Abs(a[k]) == m;
      ScaledSampleBound(a[k], m);
      assert Abs(r[k]) == 0.95 by { assert r[k] == a[k] / m * 0.95; }
      PeakIsReachedBound(r, 0.95, k);
    } else {
      SilentBufferUnchanged(a);
    }
  }

  /** Normalising twice is normalising once. */
  lemma NormalizeIdempotent(a: Buffer)
    requires |a| > 0
    ensures Normalize(Normalize(a)) == Normalize(a)
  {
    var r := Normalize(a);
    NormalizedPeak(a);
    if Peak(a) > 0.0 {
      assert Peak(r) == 0.95;
      assert forall i :: 0 <= i < |r| ==> r[i] / 0.95 * 0.95 == r[i];
    } else {
      SilentBufferUnchanged(a);
    }
  }

  /** Every sample of a normalised buffer lies in [-0.95, 0.95]. */
  lemma NormalizedWithinRange(a: Buffer)
    requires |a| > 0
    ensures forall i :: 0 <= i < |a| ==> -0.95 <= Normalize(a)[i] <= 0.95
  {
    NormalizedPeak(a);
  }
}
