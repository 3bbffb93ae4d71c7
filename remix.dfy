/** The remix engine: one track is stretched at rate `tempo / target`, computed from
    its tempo estimate and the genre's tempo, and then sent through the genre's fixed,
    ordered chain of effects. Techno's target is 130 BPM and its chain runs
    compression 8:1, a short reverb, the mid/high EQ and the 8 Hz gate; House's target
    is 125 BPM and its chain runs compression 4:1, the bass boost, the swing and a long
    reverb. The remix as the code computes it is `CreateRemix`; `IntendedRemix` is the
    same plan with the stretch rate and the gate as the code evidently means them. */
module Remix {
  import opened Buffers
  import opened Analysis
  import opened TimeSync
  import Compression
  import Gate
  import Swing

  /** One stage of an effects chain. */
  datatype Effect =
    | Compress(ratio: real)       // compression above the 0.1 threshold
    | Reverb(roomSize: real)      // 0.7 dry + 0.3 wet
    | TechnoEq                    // pre-emphasis 0.1, then a 1.2 gain
    | RhythmGate(frequency: nat)  // the gate as written: one pattern step per sample
    | SteppedGate(frequency: nat) // the intended gate: each step held for sr div frequency samples
    | BassBoost                   // the 200 Hz low band added back at 0.5
    | Swing

  datatype Genre = Techno | House

  /** The target tempo of each genre. */
  function GenreTempo(genre: Genre): real
  {
    match genre
    case Techno => 130.0
    case House => 125.0
  }

  /** The effects of each genre, in the order the code applies them. */
  function Chain(genre: Genre): seq<Effect>
  {
    match genre
    case Techno => [Compress(8.0), Reverb(0.3), TechnoEq, RhythmGate(8)]
    case House => [Compress(4.0), BassBoost, Swing, Reverb(0.7)]
  }

  /** The same chains with the intended gate. */
  function IntendedChain(genre: Genre): seq<Effect>
  {
    match genre
    case Techno => [Compress(8.0), Reverb(0.3), TechnoEq, SteppedGate(8)]
    case House => Chain(House)
  }

  /** An effect the model can apply at all: a compression ratio of zero would
      divide floats by zero, which no chain does. */
  predicate WellFormed(e: Effect)
  {
    e.Compress? ==> e.ratio != 0.0
  }

  /** Whether an effect succeeds at a sample rate on a buffer of n samples:
      - the gate as written needs a step of at least one sample and a tiled pattern
        that covers the buffer;
      - the intended gate needs a step of at least one sample;
      - the bass boost needs its 200 Hz cutoff below the Nyquist frequency `sr div 2`;
      - the swing needs a quarter-beat of at least one sample. */
  predicate Admissible(e: Effect, sr: nat, n: nat)
  {
    match e
    case RhythmGate(f) => f > 0 && sr / f > 0 && n <= 8 * (n / (sr / f * 8) + 1)
    case SteppedGate(f) => f > 0 && sr / f > 0
    case BassBoost => sr / 2 > 200
    case Swing => Swing.BeatLength(sr) > 0
    case _ => true
  }

  /** The failure of an effect that is not admissible. Compression, the reverb and
      the EQ are always admissible and have none. */
  function EffectError(e: Effect, sr: nat): Option<Failure>
  {
    match e
    case Compress(_) => None
    case Reverb(_) => None
    case TechnoEq => None
    case RhythmGate(f) => Some(if f == 0 || sr / f == 0 then DivisionByZero else ShapeMismatch)
    case SteppedGate(_) => Some(DivisionByZero)
    case BassBoost => Some(if sr / 2 == 0 then DivisionByZero else InvalidCutoff)
    case Swing => Some(ZeroStep)
  }

  /** One effect applied to a buffer. */
  function ApplyEffect(e: Effect, audio: Buffer, sr: nat, lib: Provider): Result<Buffer>
    requires WellFormed(e)
  {
    match e
    case Compress(ratio) => Ok(Compression.Compressed(audio, ratio, 0.1))
    case Reverb(roomSize) =>
      var wet := lib.reverbWet(audio, roomSize);
      if |wet| != |audio| then Err(ShapeMismatch) else Ok(Blend(audio, 0.7, wet, 0.3))
    case TechnoEq => Ok(Scale(lib.preemphasis(audio, 0.1), 1.2))
    case RhythmGate(f) => Gate.GateAsWritten(audio, sr, f)
    case SteppedGate(f) => Gate.Gate(audio, sr, f)
    case BassBoost =>
      // the normalised cutoff `200 / (sr // 2)` must lie strictly between 0 and 1
      var nyquist := sr / 2;
      if nyquist == 0 then Err(DivisionByZero)
      else if nyquist <= 200 then Err(InvalidCutoff)
      else
        var bass := lib.lowPass200(audio, sr);
        if |bass| != |audio| then Err(ShapeMismatch) else Ok(Add(audio, Scale(bass, 0.5)))
    case Swing =>
      var s, L := Swing.SwingSamples(sr), Swing.BeatLength(sr);
      Swing.SwingParameters(sr);
      if L == 0 then Err(ZeroStep) else Ok(Swing.Swung(audio, s, L))
  }

  /** The effects of a chain applied in order; the first failure stops the chain. */
  function ApplyChain(chain: seq<Effect>, audio: Buffer, sr: nat, lib: Provider): Result<Buffer>
    requires forall e :: e in chain ==> WellFormed(e)
  {
    if |chain| == 0 then Ok(audio)
    else
      var r := ApplyEffect(chain[0], audio, sr, lib);
      if r.Err? then r else ApplyChain(chain[1..], r.value, sr, lib)
  }

  /** With length-preserving services an effect succeeds exactly when it is admissible
      at the sample rate on the buffer's length, keeps that length, and otherwise fails
      with the effect's error. */
  lemma EffectOutcome(e: Effect, audio: Buffer, sr: nat, lib: Provider)
    requires lib.Valid() && WellFormed(e)
    ensures ApplyEffect(e, audio, sr, lib).Ok? <==> Admissible(e, sr, |audio|)
    ensures ApplyEffect(e, audio, sr, lib).Ok? ==> |ApplyEffect(e, audio, sr, lib).value| == |audio|
    ensures ApplyEffect(e, audio, sr, lib).Err? ==> EffectError(e, sr) == Some(ApplyEffect(e, audio, sr, lib).error)
    ensures EffectError(e, sr).None? ==> ApplyEffect(e, audio, sr, lib).Ok?
  {
    match e
    case RhythmGate(f) => Gate.GateAsWrittenOutcome(audio, sr, f);
    case SteppedGate(f) => Gate.GateIsHeldPattern(audio, sr, f);
    case _ =>
  }

  /** A chain of length-preserving effects succeeds exactly when every effect in it is
      admissible on the buffer's length, and then keeps that length; when it fails, it
      fails with the error of the first effect that is not admissible. */
  lemma {:induction false} ChainOutcome(chain: seq<Effect>, audio: Buffer, sr: nat, lib: Provider)
    requires lib.Valid() && forall e :: e in chain ==> WellFormed(e)
    ensures var r := ApplyChain(chain, audio, sr, lib);
      && (r.Ok? <==> forall j :: 0 <= j < |chain| ==> Admissible(chain[j], sr, |audio|))
      && (r.Ok? ==> |r.value| == |audio|)
      && (r.Err? ==>
            (exists k :: 0 <= k < |chain| && !Admissible(chain[k], sr, |audio|) &&
               (forall j :: 0 <= j < k ==> Admissible(chain[j], sr, |audio|)) &&
               EffectError(chain[k], sr) == Some(r.error)))
  {
    if |chain| > 0 {
      var r := ApplyEffect(chain[0], audio, sr, lib);
      EffectOutcome(chain[0], audio, sr, lib);
      if r.Ok? {
        var rest := chain[1..];
        assert forall j :: 1 <= j < |chain| ==> chain[j] == rest[j - 1];
        ChainOutcome(rest, r.value, sr, lib);
        var out := ApplyChain(rest, r.value, sr, lib);
        if out.Err? {
          var k :| 0 <= k < |rest| && !Admissible(rest[k], sr, |audio|) &&
            (forall j :: 0 <= j < k ==> Admissible(rest[j], sr, |audio|)) &&
            EffectError(rest[k], sr) == Some(out.error);
          assert !Admissible(chain[k + 1], sr, |audio|);
        }
      }
    }
  }

  /** The Techno chain as the code runs it succeeds exactly when the sample rate is at
      least 8 Hz and the per-sample pattern covers the buffer; otherwise the gate fails,
      with a zero divisor below 8 Hz and a shape error above. */
  lemma TechnoChainOutcome(audio: Buffer, sr: nat, lib: Provider)
    requires lib.Valid()
    ensures var r := ApplyChain(Chain(Techno), audio, sr, lib);
      var n := |audio|;
      && (r.Ok? <==> sr >= 8 && n <= 8 * (n / (sr / 8 * 8) + 1))
      && (r.Ok? ==> |r.value| == n)
      && (r.Err? ==> r.error == if sr < 8 then DivisionByZero else ShapeMismatch)
  {
    var chain := Chain(Techno);
    ChainOutcome(chain, audio, sr, lib);
    LastOfFourDecides(chain, sr, |audio|);
    var n := |audio|;
    assert Admissible(chain[3], sr, n) <==> sr >= 8 && n <= 8 * (n / (sr / 8 * 8) + 1);
  }

  /** The Techno chain with the intended gate succeeds exactly from 8 Hz up. */
  lemma IntendedTechnoChainOutcome(audio: Buffer, sr: nat, lib: Provider)
    requires lib.Valid()
    ensures var r := ApplyChain(IntendedChain(Techno), audio, sr, lib);
      && (r.Ok? <==> sr >= 8)
      && (r.Ok? ==> |r.value| == |audio|)
      && (r.Err? ==> r.error == DivisionByZero)
  {
    var chain := IntendedChain(Techno);
    ChainOutcome(chain, audio, sr, lib);
    LastOfFourDecides(chain, sr, |audio|);
    assert Admissible(chain[3], sr, |audio|) <==> sr >= 8;
  }

  /** In a chain of four whose first three effects are always admissible, the fourth
      decides success, and a failure is the fourth's. */
  lemma LastOfFourDecides(chain: seq<Effect>, sr: nat, n: nat)
    requires |chain| == 4 && chain[0].Compress? && chain[1].Reverb? && chain[2] == TechnoEq
    ensures (forall j :: 0 <= j < |chain| ==> Admissible(chain[j], sr, n)) <==> Admissible(chain[3], sr, n)
    ensures forall k :: 0 <= k < |chain| && !Admissible(chain[k], sr, n) ==> k == 3
  {
    assert Admissible(chain[0], sr, n) && Admissible(chain[1], sr, n) && Admissible(chain[2], sr, n);
  }

  /** The House chain succeeds exactly from 402 Hz up, where the bass boost's cutoff
      lies below the Nyquist frequency; below that the bass boost fails before the
      swing is reached, dividing by zero below 2 Hz. */
  lemma HouseChainOutcome(audio: Buffer, sr: nat, lib: Provider)
    requires lib.Valid()
    ensures var r := ApplyChain(Chain(House), audio, sr, lib);
      && (r.Ok? <==> sr >= 402)
      && (r.Ok? ==> |r.value| == |audio|)
      && (r.Err? ==> r.error == if sr < 2 then DivisionByZero else InvalidCutoff)
  {
    var chain := Chain(House);
    ChainOutcome(chain, audio, sr, lib);
    assert Admissible(chain[0], sr, |audio|) && Admissible(chain[3], sr, |audio|);
    if sr >= 402 {
      assert Admissible(chain[1], sr, |audio|) && Admissible(chain[2], sr, |audio|);
    } else {
      assert !Admissible(chain[1], sr, |audio|);
    }
  }

  /** `create_techno_remix` and `create_house_remix`: the track is stretched at the
      rate computed from its tempo estimate and the genre's tempo, then run through the
      genre's chain. A tempo estimate that is not positive is refused. */
  function CreateRemix(audio: Buffer, genre: Genre, sr: nat, lib: Provider): Result<Buffer>
  {
    var tempo := lib.beatTrack(audio, sr);
    if tempo <= 0.0 then Err(InvalidTempoEstimate)
    else
      var stretched := lib.timeStretch(audio, StretchRate(tempo, GenreTempo(genre)));
      ApplyChain(Chain(genre), stretched, sr, lib)
  }

  /** A remix with a positive tempo estimate is the genre's chain applied to the track
      stretched at rate `tempo / 130` (Techno) or `tempo / 125` (House). Of n stretched
      samples, a Techno remix succeeds exactly from 8 Hz up when the per-sample pattern
      covers them, a House remix exactly from 402 Hz up; the output has n samples. */
  lemma RemixOutcome(audio: Buffer, genre: Genre, sr: nat, lib: Provider)
    requires lib.Valid()
    ensures var tempo := lib.beatTrack(audio, sr);
      var r := CreateRemix(audio, genre, sr, lib);
      && (tempo <= 0.0 ==> r == Err(InvalidTempoEstimate))
      && (tempo > 0.0 ==>
            var stretched := lib.timeStretch(audio, tempo / GenreTempo(genre));
            var n := |stretched|;
            && r == ApplyChain(Chain(genre), stretched, sr, lib)
            && (r.Ok? ==> |r.value| == n)
            && (genre == Techno ==>
                  && (r.Ok? <==> sr >= 8 && n <= 8 * (n / (sr / 8 * 8) + 1))
                  && (r.Err? ==> r.error == if sr < 8 then DivisionByZero else ShapeMismatch))
            && (genre == House ==>
                  && (r.Ok? <==> sr >= 402)
                  && (r.Err? ==> r.error == if sr < 2 then DivisionByZero else InvalidCutoff)))
  {
    var tempo := lib.beatTrack(audio, sr);
    if tempo > 0.0 {
      StretchRateIsRatio(tempo, GenreTempo(genre));
      var stretched := lib.timeStretch(audio, StretchRate(tempo, GenreTempo(genre)));
      if genre == Techno {
        TechnoChainOutcome(stretched, sr, lib);
      } else {
        HouseChainOutcome(stretched, sr, lib);
      }
    }
  }

  /** At the app's 44100 Hz, a Techno remix of any track whose stretched version has 9
      or more samples fails with the gate's shape error. */
  lemma TechnoRemixFailsAt44100(audio: Buffer, lib: Provider)
    requires lib.Valid() && lib.beatTrack(audio, 44100) > 0.0
    requires |lib.timeStretch(audio, lib.beatTrack(audio, 44100) / 130.0)| >= 9
    ensures CreateRemix(audio, Techno, 44100, lib) == Err(ShapeMismatch)
  {
    RemixOutcome(audio, Techno, 44100, lib);
    var n := |lib.timeStretch(audio, lib.beatTrack(audio, 44100) / 130.0)|;
    var q := n / 44096;
    assert 44096 * q <= n;
    assert 8 * (q + 1) < n;
  }

  /** The remix as the code evidently means it: the track is stretched at the rate
      whose product with its tempo is the genre's tempo, and the Techno gate holds each
      step for `sr div 8` samples. */
  function IntendedRemix(audio: Buffer, genre: Genre, sr: nat, lib: Provider): Result<Buffer>
  {
    var tempo := lib.beatTrack(audio, sr);
    if tempo <= 0.0 then Err(InvalidTempoEstimate)
    else
      var stretched := lib.timeStretch(audio, SyncRate(tempo, GenreTempo(genre)));
      ApplyChain(IntendedChain(genre), stretched, sr, lib)
  }

  /** The intended remix stretches at the rate whose product with the tempo is the
      genre's tempo, and a Techno remix then succeeds from 8 Hz up whatever the
      track's length; House is unchanged apart from the rate. */
  lemma IntendedRemixOutcome(audio: Buffer, genre: Genre, sr: nat, lib: Provider)
    requires lib.Valid()
    ensures var tempo := lib.beatTrack(audio, sr);
      var r := IntendedRemix(audio, genre, sr, lib);
      && (tempo <= 0.0 ==> r == Err(InvalidTempoEstimate))
      && (tempo > 0.0 ==>
            var rate := SyncRate(tempo, GenreTempo(genre));
            var n := |lib.timeStretch(audio, rate)|;
            && tempo * rate == GenreTempo(genre)
            && (r.Ok? ==> |r.value| == n)
            && (genre == Techno ==> (r.Ok? <==> sr >= 8))
            && (genre == House ==> (r.Ok? <==> sr >= 402)))
  {
    var tempo := lib.beatTrack(audio, sr);
    if tempo > 0.0 {
      SyncRateReachesTarget(tempo, GenreTempo(genre));
      var stretched := lib.timeStretch(audio, SyncRate(tempo, GenreTempo(genre)));
      if genre == Techno {
        IntendedTechnoChainOutcome(stretched, sr, lib);
      } else {
        HouseChainOutcome(stretched, sr, lib);
      }
    }
  }
}
