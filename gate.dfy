/** The rhythmic gate of the Techno chain: the buffer is multiplied by an eight-step
    gain pattern repeated along it. Two versions are modelled: the code as written,
    which repeats the pattern once per sample and so only has the buffer's shape for
    very short buffers, and the gate it evidently intends, in which every step of the
    pattern lasts `sr div gateFreq` samples. */
module Gate {
  import opened Buffers
  import opened Arith

  /** The eight gain steps of the gate. */
  const GATE_PATTERN: seq<real> := [1.0, 1.0, 0.3, 1.0, 0.7, 1.0, 0.3, 0.8]

  /** `np.tile(p, reps)`: reps copies of p end to end; sample i is p[i mod |p|]. */
  function Tile(p: seq<real>, reps: nat): (r: seq<real>)
    requires |p| > 0
    ensures |r| == |p| * reps
    ensures forall i :: 0 <= i < |r| ==> r[i] == p[i % |p|]
  {
    if reps == 0 then []
    else
      var rest := Tile(p, reps - 1);
      var r := p + rest;
      assert |p| * reps == |p| + |p| * (reps - 1);
      forall i | 0 <= i < |r| ensures r[i] == p[i % |p|] {
        if i < |p| {
          InBlock(i, 0, |p|);
        } else {
          DivAddMultiple(i - |p|, 1, |p|);
          assert r[i] == rest[i - |p|];
        }
      }
      r
  }

  /** `audio * gains`: the buffer multiplied sample by sample with a gain sequence at
      least as long. */
  function Gated(audio: Buffer, gains: seq<real>): Buffer
    requires |gains| >= |audio|
  {
    seq(|audio|, i requires 0 <= i < |audio| => audio[i] * gains[i])
  }

  /** The gate as written: the pattern is tiled `n div (8 * gateSamples) + 1` times and
      cut to at most n samples, then multiplied sample by sample with the buffer. A
      zero `gateSamples` (or a zero frequency) is Python's ZeroDivisionError, and a
      pattern whose length is not n is numpy's shape error. */
  function GateAsWritten(audio: Buffer, sr: nat, gateFreq: nat): Result<Buffer>
  {
    if gateFreq == 0 || sr / gateFreq == 0 then Err(DivisionByZero)
    else TiledGate(audio, sr / gateFreq)
  }

  /** The multiplication of the gate as written, for a step of `gateSamples` samples. */
  function TiledGate(audio: Buffer, gateSamples: nat): Result<Buffer>
    requires gateSamples > 0
  {
    var tiled := Tile(GATE_PATTERN, |audio| / (gateSamples * 8) + 1);
    var pattern := tiled[..Min(|tiled|, |audio|)];
    // A one-sample pattern would broadcast, but the pattern is never shorter
    // than min(8, n), so it has length n or is a shape error.
    if |pattern| != |audio| then Err(ShapeMismatch)
    else Ok(Gated(audio, pattern))
  }

  /** The gate as written succeeds exactly when the tiled pattern covers the buffer,
      and then sample i is scaled by step `i mod 8`: one step per sample. */
  lemma GateAsWrittenOutcome(audio: Buffer, sr: nat, gateFreq: nat)
    ensures GateAsWritten(audio, sr, gateFreq).Ok? <==>
      gateFreq > 0 && sr / gateFreq > 0 &&
      |audio| <= 8 * (|audio| / (sr / gateFreq * 8) + 1)
    ensures GateAsWritten(audio, sr, gateFreq).Ok? ==>
      var r := GateAsWritten(audio, sr, gateFreq).value;
      |r| == |audio| && forall i :: 0 <= i < |audio| ==> r[i] == audio[i] * GATE_PATTERN[i % 8]
  {
    if gateFreq > 0 && sr / gateFreq > 0 {
      TiledGateOutcome(audio, sr / gateFreq);
    }
  }

  /** For a step of g samples, the pattern the code cuts from its tile has n samples
      exactly when the tile is long enough, and then sample i gets step `i mod 8`. */
  lemma TiledGateOutcome(audio: Buffer, g: nat)
    requires g > 0
    ensures TiledGate(audio, g).Ok? <==> |audio| <= 8 * (|audio| / (g * 8) + 1)
    ensures TiledGate(audio, g).Ok? ==>
      var r := TiledGate(audio, g).value;
      |r| == |audio| && forall i :: 0 <= i < |audio| ==> r[i] == audio[i] * GATE_PATTERN[i % 8]
  {
    var reps := |audio| / (g * 8) + 1;
    var tiled := Tile(GATE_PATTERN, reps);
    assert |tiled| == 8 * reps;
    var pattern := tiled[..Min(|tiled|, |audio|)];
    assert |pattern| == Min(8 * reps, |audio|);
    if |pattern| == |audio| {
      var r := Gated(audio, pattern);
      assert TiledGate(audio, g) == Ok(r);
      forall i | 0 <= i < |audio| ensures r[i] == audio[i] * GATE_PATTERN[i % 8] {
        assert pattern[i] == tiled[i] == GATE_PATTERN[i % 8];
      }
    }
  }

  /** At the app's sample rate of 44100 Hz and the Techno gate's 8 Hz, a step is 5512
      samples, the pattern is 8 samples for any buffer shorter than 44096 samples, and
      the gate as written fails for every buffer longer than 8 samples. */
  lemma GateAsWrittenFailsAt44100(audio: Buffer)
    requires |audio| >= 9
    ensures GateAsWritten(audio, 44100, 8) == Err(ShapeMismatch)
  {
    GateAsWrittenOutcome(audio, 44100, 8);
    var n := |audio|;
    var q := n / 44096;
    assert 44096 * q <= n;
    assert 8 * (q + 1) < n;
  }

  /** The gain of sample i when every step lasts `stepSamples` samples. */
  function StepGain(i: nat, stepSamples: nat): real
    requires stepSamples > 0
  {
    GATE_PATTERN[(i / stepSamples) % 8]
  }

  /** The intended gate: every step of the pattern lasts `sr div gateFreq` samples and
      the pattern repeats along the whole buffer. A zero step is still an error. */
  function Gate(audio: Buffer, sr: nat, gateFreq: nat): Result<Buffer>
  {
    if gateFreq == 0 || sr / gateFreq == 0 then Err(DivisionByZero)
    else
      Ok(Gated(audio, StepGains(sr / gateFreq, |audio|)))
  }

  /** The gain of each of n samples when every step lasts g samples. */
  function StepGains(g: nat, n: nat): seq<real>
    requires g > 0
  {
    seq(n, i requires 0 <= i < n => StepGain(i, g))
  }

  /** `np.repeat(p, g)`: every element of p held for g samples in turn. */
  function RepeatEach(p: seq<real>, g: nat): (r: seq<real>)
    requires g > 0
    ensures |r| == |p| * g
  {
    if |p| == 0 then []
    else
      HeldOnce(|p|, g);
      seq(g, _ => p[0]) + RepeatEach(p[1..], g)
  }

  /** Holding k elements for g samples each takes g samples more than holding k - 1. */
  lemma HeldOnce(k: nat, g: nat)
    requires k > 0
    ensures k * g == g + (k - 1) * g
  {
  }

  /** Sample i of the repeated sequence is the element whose g samples it falls in. */
  lemma {:induction false} RepeatEachAt(p: seq<real>, g: nat, i: nat)
    requires g > 0 && i < |p| * g
    ensures i / g < |p| && RepeatEach(p, g)[i] == p[i / g]
    decreases |p|
  {
    HeldOnce(|p|, g);
    if i < g {
      InBlock(i, 0, g);
    } else {
      RepeatEachAt(p[1..], g, i - g);
      DivAddMultiple(i - g, 1, g);
    }
  }

  /** The pattern the code evidently means to build: every step repeated
      `g = sr div gateFreq` times, then tiled `n div (8 * g) + 1` times as the code
      tiles it. */
  function HeldPattern(g: nat, n: nat): seq<real>
    requires g > 0
  {
    Tile(RepeatEach(GATE_PATTERN, g), n / (g * 8) + 1)
  }

  /** The held pattern always covers the buffer, and its sample i is the gain of the
      step that sample i falls in. */
  lemma HeldPatternCovers(g: nat, n: nat)
    requires g > 0
    ensures |HeldPattern(g, n)| > n
    ensures forall i :: 0 <= i < n ==> HeldPattern(g, n)[i] == StepGain(i, g)
  {
    var held := RepeatEach(GATE_PATTERN, g);
    var c := g * 8;
    var reps := n / c + 1;
    var pattern := Tile(held, reps);
    assert |held| == c;
    assert |pattern| == c * reps;
    assert n == (n / c) * c + n % c;
    assert c * reps == (n / c) * c + c;
    forall i | 0 <= i < n ensures pattern[i] == StepGain(i, g) {
      StepWithinCycle(i, g);
      assert 8 * g == c;
      RepeatEachAt(GATE_PATTERN, g, i % c);
      assert pattern[i] == held[i % c];
    }
  }

  /** The intended gate is the code with that missing repeat: it fails only for a
      zero step, and otherwise multiplies the buffer by the held pattern cut to the
      buffer's length. */
  lemma GateIsHeldPattern(audio: Buffer, sr: nat, gateFreq: nat)
    ensures Gate(audio, sr, gateFreq).Ok? <==> gateFreq > 0 && sr / gateFreq > 0
    ensures Gate(audio, sr, gateFreq).Ok? ==>
      var pattern := HeldPattern(sr / gateFreq, |audio|);
      && |pattern| > |audio|
      && Gate(audio, sr, gateFreq).value == Gated(audio, pattern[..|audio|])
  {
    if gateFreq > 0 && sr / gateFreq > 0 {
      HeldPatternCut(sr / gateFreq, |audio|);
    }
  }

  /** The first n samples of the held pattern are the step gains of n samples. */
  lemma HeldPatternCut(g: nat, n: nat)
    requires g > 0
    ensures |HeldPattern(g, n)| > n
    ensures HeldPattern(g, n)[..n] == StepGains(g, n)
  {
    HeldPatternCovers(g, n);
    var cut, gains := HeldPattern(g, n)[..n], StepGains(g, n);
    assert forall i :: 0 <= i < n ==> cut[i] == gains[i];
  }

  /** A step's gain is held for all of its samples, and the gains repeat every eight
      steps. */
  lemma StepGainRhythm(i: nat, j: nat, g: nat)
    requires g > 0
    ensures i / g == j / g ==> StepGain(i, g) == StepGain(j, g)
    ensures StepGain(i + 8 * g, g) == StepGain(i, g)
  {
    DivAddMultiple(i, 8, g);
    DivAddMultiple(i / g, 1, 8);
  }

  /** Where a step is a single sample (a sample rate below twice the gate frequency),
      the code as written and the intended gate agree. */
  lemma GateAgreesWithOneSampleSteps(audio: Buffer, sr: nat, gateFreq: nat)
    requires gateFreq > 0 && sr / gateFreq == 1
    ensures GateAsWritten(audio, sr, gateFreq) == Gate(audio, sr, gateFreq)
  {
    GateAsWrittenOutcome(audio, sr, gateFreq);
    assert |audio| <= 8 * (|audio| / 8 + 1);
    var r1, r2 := GateAsWritten(audio, sr, gateFreq).value, Gate(audio, sr, gateFreq).value;
    forall i | 0 <= i < |audio| ensures r1[i] == r2[i] {
      assert i / 1 == i;
    }
    assert r1 == r2;
  }
}
