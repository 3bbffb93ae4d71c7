/** The dynamic mix of the Classic mashup: the first track's length is cut into
    `segments` blocks of `n div segments` samples, the last block taking the remainder,
    and each block is the weighted sum of the two tracks with weights alternating
    between (0.7, 0.5) and (0.5, 0.7), starting with (0.7, 0.5). There is no
    crossfade: the weights jump at every block boundary. */
module DynamicMix {
  import opened Buffers
  import opened Arith

  /** The weights of the first and second track in block b. */
  function Weights(b: nat): (real, real)
  {
    if b % 2 == 0 then (0.7, 0.5) else (0.5, 0.7)
  }

  /** The first sample of block b. */
  function BlockStart(b: nat, n: nat, segments: nat): nat
    requires segments > 0
  {
    b * (n / segments)
  }

  /** One past the last sample of block b: the last block runs to the end. */
  function BlockEnd(b: nat, n: nat, segments: nat): nat
    requires segments > 0
  {
    if b < segments - 1 then b * (n / segments) + n / segments else n
  }

  /** The block of sample j: `j div (n div segments)`, capped at the last block; when
      the buffer is shorter than `segments` every sample is in the last block. */
  function BlockOf(j: nat, n: nat, segments: nat): nat
    requires segments > 0
  {
    var len := n / segments;
    if len == 0 then segments - 1 else Min(j / len, segments - 1)
  }

  /** The mixed buffer, as long as the first track. */
  function Mixed(audio1: Buffer, audio2: Buffer, segments: nat): (r: Buffer)
    requires segments > 0 && |audio1| <= |audio2|
    ensures |r| == |audio1|
  {
    seq(|audio1|, j requires 0 <= j < |audio1| =>
      var w := Weights(BlockOf(j, |audio1|, segments));
      audio1[j] * w.0 + audio2[j] * w.1)
  }

  /** `_dynamic_mix`: a zeroed buffer filled block by block. A zero segment count is
      the ZeroDivisionError of `len(audio1) // segments`. */
  method Mix(audio1: Buffer, audio2: Buffer, segments: nat) returns (r: Result<Buffer>)
    requires |audio1| <= |audio2|
    ensures r == if segments == 0 then Err(DivisionByZero) else Ok(Mixed(audio1, audio2, segments))
  {
    if segments == 0 {
      return Err(DivisionByZero);
    }
    var n := |audio1|;
    var len := n / segments;
    ghost var mixed := Mixed(audio1, audio2, segments);
    var mashup := new real[n](_ => 0.0);
    for i := 0 to segments
      invariant forall k :: 0 <= k < n ==>
        mashup[k] == if k < Filled(i, n, segments) then mixed[k] else 0.0
    {
      var start := i * len;
      var end := if i < segments - 1 then start + len else n;
      SegmentBounds(i, n, segments);
      var w1, w2;
      if i % 2 == 0 {
        w1, w2 := 0.7, 0.5;
      } else {
        w1, w2 := 0.5, 0.7;
      }
      for j := start to end
        invariant forall k :: 0 <= k < n ==>
          mashup[k] == if k < j then mixed[k] else 0.0
      {
        InSegment(j, i, n, segments);
        mashup[j] := audio1[j] * w1 + audio2[j] * w2;
      }
    }
    assert forall k :: 0 <= k < n ==> mashup[k] == mixed[k];
    assert mashup[..] == mixed;
    return Ok(mashup[..]);
  }

  /** How much of the output is filled after the first i blocks. */
  ghost function Filled(i: nat, n: nat, segments: nat): nat
    requires segments > 0
  {
    if i >= segments then n else i * (n / segments)
  }

  /** Block i starts where the blocks before it stop and ends where block i + 1 starts. */
  lemma SegmentBounds(i: nat, n: nat, segments: nat)
    requires i < segments
    ensures BlockStart(i, n, segments) == Filled(i, n, segments)
    ensures Filled(i, n, segments) <= BlockEnd(i, n, segments) == Filled(i + 1, n, segments) <= n
  {
    var len := n / segments;
    MulMonotone(i + 1, segments, len);
    assert (i + 1) * len == i * len + len;
  }

  lemma InSegment(j: nat, i: nat, n: nat, segments: nat)
    requires i < segments && BlockStart(i, n, segments) <= j < BlockEnd(i, n, segments)
    ensures BlockOf(j, n, segments) == i
  {
    var len := n / segments;
    if len > 0 {
      if i < segments - 1 {
        InBlock(j, i, len);
      } else {
        BlockStartBelow(j, i, len);
      }
    }
  }

  /** The blocks partition the buffer: every sample lies in the block BlockOf names,
      between its start and its end. */
  lemma BlocksPartition(j: nat, n: nat, segments: nat)
    requires segments > 0 && j < n
    ensures BlockOf(j, n, segments) < segments
    ensures BlockStart(BlockOf(j, n, segments), n, segments) <= j < BlockEnd(BlockOf(j, n, segments), n, segments)
  {
    var len := n / segments;
    var b := BlockOf(j, n, segments);
    if len > 0 {
      var q := j / len;
      assert q * len <= j < q * len + len;
      if q >= segments - 1 {
        MulMonotone(segments - 1, q, len);
      }
    } else {
      assert BlockStart(b, n, segments) == 0;
    }
  }

  /** A buffer shorter than the segment count is all in the last block; with 8
      segments every sample then has the weights (0.5, 0.7). */
  lemma ShortBufferIsLastBlock(j: nat, n: nat)
    requires j < n < 8
    ensures BlockOf(j, n, 8) == 7 && Weights(BlockOf(j, n, 8)) == (0.5, 0.7)
  {
  }

  /** With 8 segments the first block mixes with the weights (0.7, 0.5) and the
      second with (0.5, 0.7). */
  lemma AlternatingWeights(audio1: Buffer, audio2: Buffer, j: nat)
    requires |audio1| <= |audio2| && j < |audio1|
    ensures var len := |audio1| / 8;
      var r := Mixed(audio1, audio2, 8);
      && (j < len ==> r[j] == audio1[j] * 0.7 + audio2[j] * 0.5)
      && (len <= j < 2 * len ==> r[j] == audio1[j] * 0.5 + audio2[j] * 0.7)
  {
    var n := |audio1|;
    var len := n / 8;
    if j < len {
      InSegment(j, 0, n, 8);
    } else if j < 2 * len {
      InSegment(j, 1, n, 8);
    }
  }
}
