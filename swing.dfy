/** The swing groove of the House chain. The buffer is cut into quarter-beat blocks of
    L samples. Going through the block starts below n - s in order, an even block is
    copied to its own place in a zeroed output and an odd block is copied s samples
    later, so its first s samples stay silent and its last s samples spill into the
    next block, where the next even block (if there is one) overwrites them. */
module Swing {
  import opened Buffers
  import opened Arith

  /** `int(sr * 0.02)`: the swing offset, 20 ms worth of samples. */
  function SwingSamples(sr: nat): nat { sr / 50 }

  /** `sr // 4`: the length of a quarter-beat block. */
  function BeatLength(sr: nat): nat { sr / 4 }

  /** From 4 Hz up the offset is shorter than a block; at 44100 Hz it is 882 samples
      and a block is 11025. */
  lemma SwingParameters(sr: nat)
    ensures sr >= 4 ==> SwingSamples(sr) < BeatLength(sr)
    ensures sr < 4 ==> BeatLength(sr) == 0
    ensures SwingSamples(44100) == 882 && BeatLength(44100) == 11025
  {
  }

  /** The number of blocks the loop processes: the starts 0, L, 2L, ... below n - s. */
  function SwingBlocks(n: nat, s: nat, L: nat): nat
    requires L > 0
  {
    if n <= s then 0 else (n - s - 1) / L + 1
  }

  /** Sample p of the output once the first k blocks have been processed. */
  function SwungAfter(audio: Buffer, s: nat, L: nat, k: nat, p: nat): real
    requires s < L && p < |audio|
  {
    var q, o := p / L, p % L;
    BlockStartBelow(p, q, L);
    if q < k then
      if q % 2 == 0 then audio[p]
      else if o >= s then audio[p - s]
      else 0.0
    else if q == k && k % 2 == 0 && k > 0 && o < s then
      // the tail of odd block k - 1, moved s samples later
      BlockStartBelow(p, 1, L);
      audio[p - s]
    else 0.0
  }

  /** The swung buffer. */
  function Swung(audio: Buffer, s: nat, L: nat): (r: Buffer)
    requires s < L
    ensures |r| == |audio|
  {
    var k := SwingBlocks(|audio|, s, L);
    seq(|audio|, p requires 0 <= p < |audio| => SwungAfter(audio, s, L, k, p))
  }

  /** Block k is processed exactly when it starts below n - s, and so the last
      processed block ends at most s samples before the end of the buffer. */
  lemma SwingBlocksBounds(n: nat, s: nat, L: nat, k: nat)
    requires L > 0
    ensures k < SwingBlocks(n, s, L) <==> k * L < n - s
    ensures SwingBlocks(n, s, L) * L >= n - s
  {
    var K := SwingBlocks(n, s, L);
    if n > s {
      BlockStartBelow(n - s - 1, k, L);
      var q := (n - s - 1) / L;
      assert q * L <= n - s - 1 < q * L + L;
      assert K * L == q * L + L;
    }
    MulMonotone(0, k, L);
  }

  /** An even block that the loop reaches is copied to its own place, so the spill
      of the odd block before it does not survive. */
  lemma EvenBlockCopied(audio: Buffer, s: nat, L: nat, k: nat, p: nat)
    requires s < L && k % 2 == 0 && k * L < |audio| - s
    requires k * L <= p < k * L + L && p < |audio|
    ensures Swung(audio, s, L)[p] == audio[p]
  {
    BlockFacts(p, k, L);
    SwingBlocksBounds(|audio|, s, L, k);
  }

  /** An odd block that the loop reaches starts with s silent samples and then holds
      its own samples delayed by s. */
  lemma OddBlockShifted(audio: Buffer, s: nat, L: nat, k: nat, p: nat)
    requires s < L && k % 2 == 1 && k * L < |audio| - s
    requires k * L <= p < k * L + L && p < |audio|
    ensures p < k * L + s ==> Swung(audio, s, L)[p] == 0.0
    ensures p >= k * L + s ==> Swung(audio, s, L)[p] == audio[p - s]
  {
    BlockFacts(p, k, L);
    SwingBlocksBounds(|audio|, s, L, k);
  }

  /** Past the last processed block fewer than s samples remain; they hold the spill
      of that block when it is odd and stay silent otherwise. */
  lemma TailAfterLastBlock(audio: Buffer, s: nat, L: nat, p: nat)
    requires s < L
    requires SwingBlocks(|audio|, s, L) * L <= p < |audio|
    ensures p < SwingBlocks(|audio|, s, L) * L + s
    ensures var k := SwingBlocks(|audio|, s, L);
      Swung(audio, s, L)[p] == if k % 2 == 0 && k > 0 then audio[p - s] else 0.0
  {
    var k := SwingBlocks(|audio|, s, L);
    SwingBlocksBounds(|audio|, s, L, k);
    BlockFacts(p, k, L);
  }

  /** A buffer no longer than the offset is silenced entirely. */
  lemma ShortBufferSilenced(audio: Buffer, s: nat, L: nat)
    requires s < L && |audio| <= s
    ensures forall p :: 0 <= p < |audio| ==> Swung(audio, s, L)[p] == 0.0
  {
  }

  /** Processing odd block k writes `audio[kL .. end)` to `kL + s .. end + s` with
      `end = min(kL + L, n - s)`, and changes nothing else. */
  lemma OddBlockStep(audio: Buffer, s: nat, L: nat, k: nat, p: nat)
    requires s < L && p < |audio| && k % 2 == 1 && k * L < |audio| - s
    ensures SwungAfter(audio, s, L, k + 1, p) ==
      if k * L + s <= p < Min(k * L + L, |audio| - s) + s then audio[p - s]
      else SwungAfter(audio, s, L, k, p)
  {
    BlockFacts(p, k, L);
  }

  /** Processing even block k writes `audio[kL .. end)` to the same place with
      `end = min(kL + L, n)`, and changes nothing else. */
  lemma EvenBlockStep(audio: Buffer, s: nat, L: nat, k: nat, p: nat)
    requires s < L && p < |audio| && k % 2 == 0 && k * L < |audio| - s
    ensures SwungAfter(audio, s, L, k + 1, p) ==
      if k * L <= p < Min(k * L + L, |audio|) then audio[p]
      else SwungAfter(audio, s, L, k, p)
  {
    BlockFacts(p, k, L);
  }

  /** Where p lies relative to blocks k, k + 1 and k + 2. */
  lemma BlockFacts(p: nat, k: nat, L: nat)
    requires L > 0
    ensures p < k * L <==> p / L < k
    ensures k * L <= p < k * L + L <==> p / L == k
    ensures k * L + L <= p < k * L + 2 * L <==> p / L == k + 1
    ensures p / L == k ==> p % L == p - k * L
    ensures p / L == k + 1 ==> p % L == p - k * L - L
  {
    BlockStartBelow(p, k, L);
    BlockStartBelow(p, k + 1, L);
    BlockStartBelow(p, k + 2, L);
    assert (k + 1) * L == k * L + L;
    assert (k + 2) * L == k * L + 2 * L;
    if p / L == k {
      InBlock(p, k, L);
    } else if p / L == k + 1 {
      InBlock(p, k + 1, L);
    }
  }

  /** The loop of `_add_swing` over a zeroed output buffer. Every index it writes is
      below n: an odd block's copy ends at `end + s <= n`. */
  method AddSwing(audio: Buffer, s: nat, L: nat) returns (swung: Buffer)
    requires s < L
    ensures swung == Swung(audio, s, L)
  {
    var n := |audio|;
    var out := new real[n](_ => 0.0);
    var i := 0;
    ghost var k: nat := 0;
    while i < n - s
      invariant i == k * L
      invariant k == 0 || (k - 1) * L < n - s
      invariant forall p :: 0 <= p < n ==> out[p] == SwungAfter(audio, s, L, k, p)
    {
      DivModUnique(i, L, k, 0);
      if (i / L) % 2 == 1 {
        var end := Min(i + L, n - s);
        var j := i;
        while j < end
          invariant i <= j <= end
          invariant forall p :: 0 <= p < n ==>
            out[p] == if i + s <= p < j + s then audio[p - s] else SwungAfter(audio, s, L, k, p)
        {
          out[j + s] := audio[j];
          j := j + 1;
        }
        forall p | 0 <= p < n ensures out[p] == SwungAfter(audio, s, L, k + 1, p) {
          OddBlockStep(audio, s, L, k, p);
        }
      } else {
        var end := Min(i + L, n);
        var j := i;
        while j < end
          invariant i <= j <= end
          invariant forall p :: 0 <= p < n ==>
            out[p] == if i <= p < j then audio[p] else SwungAfter(audio, s, L, k, p)
        {
          out[j] := audio[j];
          j := j + 1;
        }
        forall p | 0 <= p < n ensures out[p] == SwungAfter(audio, s, L, k + 1, p) {
          EvenBlockStep(audio, s, L, k, p);
        }
      }
      assert (k + 1) * L == k * L + L;
      i := i + L;
      k := k + 1;
    }
    LoopEndIsSwingBlocks(n, s, L, k);
    swung := out[..];
  }

  lemma LoopEndIsSwingBlocks(n: nat, s: nat, L: nat, k: nat)
    requires L > 0
    requires k * L >= n - s && (k == 0 || (k - 1) * L < n - s)
    ensures k == SwingBlocks(n, s, L)
  {
    if k > 0 {
      MulMonotone(0, k - 1, L);
      assert (k - 1) * L + L == k * L;
      InBlock(n - s - 1, k - 1, L);
    }
  }
}
