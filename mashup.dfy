/** The mashup engine: each of two tracks is stretched at rate `tempo / target`, where
    the target is the mean of the two tempo estimates; both are cut to the shorter
    length and recombined by one of four strategies named by a string. Every strategy
    but the classic one compares the mean-square energy of a component of the two
    tracks with a strict `>`, so equal energies take the second branch, and
    peak-normalises its result. */
module Mashup {
  import opened Buffers
  import opened Analysis
  import opened TimeSync
  import DynamicMix

  /** The target tempo of the synchronisation: the mean of the two estimates. */
  function TargetTempo(tempo1: real, tempo2: real): real
  {
    (tempo1 + tempo2) / 2.0
  }

  /** The two tracks after synchronisation. */
  datatype Synced = Synced(track1: Buffer, track2: Buffer)

  /** The preamble every strategy shares: each track is stretched at rate
      `tempo / target` for the mean target tempo, and both are cut to the length of
      the shorter result. A tempo that is not positive makes the stretch rate zero or
      undefined, which the stretcher refuses. */
  function Synchronize(audio1: Buffer, audio2: Buffer, tempo1: real, tempo2: real, lib: Provider): (r: Result<Synced>)
    ensures r.Ok? <==> tempo1 > 0.0 && tempo2 > 0.0
    ensures r.Err? ==> r.error == InvalidTempoEstimate
    ensures r.Ok? ==>
      var target := TargetTempo(tempo1, tempo2);
      var s1 := lib.timeStretch(audio1, tempo1 / target);
      var s2 := lib.timeStretch(audio2, tempo2 / target);
      && |r.value.track1| == |r.value.track2| == Min(|s1|, |s2|)
      && r.value.track1 == s1[..|r.value.track1|]
      && r.value.track2 == s2[..|r.value.track2|]
  {
    if tempo1 <= 0.0 || tempo2 <= 0.0 then Err(InvalidTempoEstimate)
    else
      var target := TargetTempo(tempo1, tempo2);
      StretchRateIsRatio(tempo1, target);
      StretchRateIsRatio(tempo2, target);
      var s1 := lib.timeStretch(audio1, StretchRate(tempo1, target));
      var s2 := lib.timeStretch(audio2, StretchRate(tempo2, target));
      var m := Min(|s1|, |s2|);
      Ok(Synced(s1[..m], s2[..m]))
  }

  /** The band-pass approximation of vocal separation: the vocals are the 300-3400 Hz
      band, the instrumental is the track minus 0.6 of the vocals. */
  function SeparateVocals(audio: Buffer, lib: Provider): (r: (Buffer, Buffer))
    requires lib.Valid()
    ensures |r.0| == |r.1| == |audio|
    ensures forall i :: 0 <= i < |audio| ==> r.1[i] + 0.6 * r.0[i] == audio[i]
  {
    var vocals := lib.vocalBand(audio);
    (vocals, seq(|audio|, i requires 0 <= i < |audio| => audio[i] - vocals[i] * 0.6))
  }

  /** The vocal/instrumental choice: the track with the strictly louder vocals gives
      its vocals at 0.7, the other its instrumental at 0.8. */
  function VocalInstrumentalBlend(vocals1: Buffer, instr1: Buffer, vocals2: Buffer, instr2: Buffer): (r: Buffer)
    requires |vocals1| == |instr1| == |vocals2| == |instr2| > 0
    ensures |r| == |vocals1|
  {
    if Energy(vocals1) > Energy(vocals2) then Blend(vocals1, 0.7, instr2, 0.8)
    else Blend(vocals2, 0.7, instr1, 0.8)
  }

  /** The vocals always come from the louder track, a tie takes them from the second
      track, and with unequal energies the order of the tracks does not matter. */
  lemma VocalInstrumentalChoice(vocals1: Buffer, instr1: Buffer, vocals2: Buffer, instr2: Buffer)
    requires |vocals1| == |instr1| == |vocals2| == |instr2| > 0
    ensures Energy(vocals1) > Energy(vocals2) ==>
      VocalInstrumentalBlend(vocals1, instr1, vocals2, instr2) == Blend(vocals1, 0.7, instr2, 0.8)
    ensures Energy(vocals2) >= Energy(vocals1) ==>
      VocalInstrumentalBlend(vocals1, instr1, vocals2, instr2) == Blend(vocals2, 0.7, instr1, 0.8)
    ensures Energy(vocals1) != Energy(vocals2) ==>
      VocalInstrumentalBlend(vocals1, instr1, vocals2, instr2) == VocalInstrumentalBlend(vocals2, instr2, vocals1, instr1)
  {
  }

  /** The harmonic/percussive choice: the track with the strictly louder percussion
      gives its percussion at 0.8, the other its harmony at 0.6. */
  function HarmonicPercussiveBlend(harm1: Buffer, perc1: Buffer, harm2: Buffer, perc2: Buffer): (r: Buffer)
    requires |harm1| == |perc1| == |harm2| == |perc2| > 0
    ensures |r| == |harm1|
  {
    if Energy(perc1) > Energy(perc2) then Blend(harm2, 0.6, perc1, 0.8)
    else Blend(harm1, 0.6, perc2, 0.8)
  }

  /** The percussion comes from the louder track, a tie takes it from the second
      track, and with unequal energies the order of the tracks does not matter. */
  lemma HarmonicPercussiveChoice(harm1: Buffer, perc1: Buffer, harm2: Buffer, perc2: Buffer)
    requires |harm1| == |perc1| == |harm2| == |perc2| > 0
    ensures Energy(perc1) > Energy(perc2) ==>
      HarmonicPercussiveBlend(harm1, perc1, harm2, perc2) == Blend(harm2, 0.6, perc1, 0.8)
    ensures Energy(perc2) >= Energy(perc1) ==>
      HarmonicPercussiveBlend(harm1, perc1, harm2, perc2) == Blend(harm1, 0.6, perc2, 0.8)
    ensures Energy(perc1) != Energy(perc2) ==>
      HarmonicPercussiveBlend(harm1, perc1, harm2, perc2) == HarmonicPercussiveBlend(harm2, perc2, harm1, perc1)
  {
  }

  /** The frequency-split choice: the track with the strictly louder bass gives its
      bass, the other its treble, summed without weights. */
  function FrequencySplitBlend(bass1: Buffer, treble1: Buffer, bass2: Buffer, treble2: Buffer): (r: Buffer)
    requires |bass1| == |treble1| == |bass2| == |treble2| > 0
    ensures |r| == |bass1|
  {
    if Energy(bass1) > Energy(bass2) then Add(bass1, treble2) else Add(bass2, treble1)
  }

  /** The bass comes from the louder track, a tie takes it from the second track, and
      with unequal energies the order of the tracks does not matter. */
  lemma FrequencySplitChoice(bass1: Buffer, treble1: Buffer, bass2: Buffer, treble2: Buffer)
    requires |bass1| == |treble1| == |bass2| == |treble2| > 0
    ensures Energy(bass1) > Energy(bass2) ==>
      FrequencySplitBlend(bass1, treble1, bass2, treble2) == Add(bass1, treble2)
    ensures Energy(bass2) >= Energy(bass1) ==>
      FrequencySplitBlend(bass1, treble1, bass2, treble2) == Add(bass2, treble1)
    ensures Energy(bass1) != Energy(bass2) ==>
      FrequencySplitBlend(bass1, treble1, bass2, treble2) == FrequencySplitBlend(bass2, treble2, bass1, treble1)
  {
  }

  /** The classic mashup: the synchronised tracks through the eight-block dynamic mix,
      without normalisation. */
  function ClassicMashup(audio1: Buffer, audio2: Buffer, tempo1: real, tempo2: real, lib: Provider): Result<Buffer>
  {
    var sync := Synchronize(audio1, audio2, tempo1, tempo2, lib);
    if sync.Err? then Err(sync.error)
    else Ok(DynamicMix.Mixed(sync.value.track1, sync.value.track2, 8))
  }

  /** The vocal/instrumental mashup. Two empty synchronised tracks have no energy to
      compare and no peak to normalise by. */
  function VocalInstrumentalMashup(audio1: Buffer, audio2: Buffer, tempo1: real, tempo2: real, lib: Provider): Result<Buffer>
    requires lib.Valid()
  {
    var sync := Synchronize(audio1, audio2, tempo1, tempo2, lib);
    if sync.Err? then Err(sync.error)
    else if |sync.value.track1| == 0 then Err(DegenerateBuffer)
    else
      var (vocals1, instr1) := SeparateVocals(sync.value.track1, lib);
      var (vocals2, instr2) := SeparateVocals(sync.value.track2, lib);
      Ok(Normalize(VocalInstrumentalBlend(vocals1, instr1, vocals2, instr2)))
  }

  /** The harmonic/percussive mashup over the provider's decomposition. */
  function HarmonicPercussiveMashup(audio1: Buffer, audio2: Buffer, tempo1: real, tempo2: real, lib: Provider): Result<Buffer>
    requires lib.Valid()
  {
    var sync := Synchronize(audio1, audio2, tempo1, tempo2, lib);
    if sync.Err? then Err(sync.error)
    else if |sync.value.track1| == 0 then Err(DegenerateBuffer)
    else
      var (harm1, perc1) := lib.hpss(sync.value.track1);
      var (harm2, perc2) := lib.hpss(sync.value.track2);
      Ok(Normalize(HarmonicPercussiveBlend(harm1, perc1, harm2, perc2)))
  }

  /** The frequency-split mashup with an 800 Hz crossover. */
  function FrequencySplitMashup(audio1: Buffer, audio2: Buffer, tempo1: real, tempo2: real, lib: Provider): Result<Buffer>
    requires lib.Valid()
  {
    var sync := Synchronize(audio1, audio2, tempo1, tempo2, lib);
    if sync.Err? then Err(sync.error)
    else if |sync.value.track1| == 0 then Err(DegenerateBuffer)
    else
      var s1, s2 := sync.value.track1, sync.value.track2;
      Ok(Normalize(FrequencySplitBlend(lib.lowPass800(s1), lib.highPass800(s1), lib.lowPass800(s2), lib.highPass800(s2))))
  }

  /** The four strategies. */
  datatype Strategy = Classic | VocalInstrumental | HarmonicPercussive | FrequencySplit

  /** The name each strategy is requested by. */
  function NameOf(st: Strategy): string
  {
    match st
    case Classic => "classic"
    case VocalInstrumental => "vocal_instrumental"
    case HarmonicPercussive => "harmonic_percussive"
    case FrequencySplit => "frequency_split"
  }

  /** The strategy a name requests; an unknown name requests the classic mashup. */
  function StrategyOf(name: string): Strategy
  {
    if name == "vocal_instrumental" then VocalInstrumental
    else if name == "harmonic_percussive" then HarmonicPercussive
    else if name == "frequency_split" then FrequencySplit
    else Classic
  }

  /** Every strategy is found by its name, and any name that is not one of them
      falls back to the classic mashup. */
  lemma StrategyNames(st: Strategy, name: string)
    ensures StrategyOf(NameOf(st)) == st
    ensures (forall s: Strategy :: NameOf(s) != name) ==> StrategyOf(name) == Classic
    ensures StrategyOf(name) != Classic ==> NameOf(StrategyOf(name)) == name
  {
    if forall s: Strategy :: NameOf(s) != name {
      assert NameOf(VocalInstrumental) != name;
      assert NameOf(HarmonicPercussive) != name;
      assert NameOf(FrequencySplit) != name;
    }
  }

  /** `create_mashup`: the strategy the name requests, applied to both tracks. */
  function CreateMashup(audio1: Buffer, audio2: Buffer, tempo1: real, tempo2: real, name: string, lib: Provider): Result<Buffer>
    requires lib.Valid()
  {
    match StrategyOf(name)
    case Classic => ClassicMashup(audio1, audio2, tempo1, tempo2, lib)
    case VocalInstrumental => VocalInstrumentalMashup(audio1, audio2, tempo1, tempo2, lib)
    case HarmonicPercussive => HarmonicPercussiveMashup(audio1, audio2, tempo1, tempo2, lib)
    case FrequencySplit => FrequencySplitMashup(audio1, audio2, tempo1, tempo2, lib)
  }

  /** The length both synchronised tracks are cut to. */
  ghost function SyncedLength(audio1: Buffer, audio2: Buffer, tempo1: real, tempo2: real, lib: Provider): nat
    requires tempo1 > 0.0 && tempo2 > 0.0
  {
    var target := TargetTempo(tempo1, tempo2);
    Min(|lib.timeStretch(audio1, tempo1 / target)|, |lib.timeStretch(audio2, tempo2 / target)|)
  }

  /** A buffer ready for output: non-empty, with peak 0.95 or silent, and every
      sample within [-0.95, 0.95]. */
  ghost predicate OutputRange(b: Buffer)
  {
    && |b| > 0
    && (Peak(b) == 0.95 || Peak(b) == 0.0)
    && forall i :: 0 <= i < |b| ==> -0.95 <= b[i] <= 0.95
  }

  lemma NormalizedOutput(b: Buffer)
    requires |b| > 0
    ensures OutputRange(Normalize(b))
  {
    NormalizedPeak(b);
    NormalizedWithinRange(b);
  }

  /** What a normalising strategy promises: a tempo that is not positive is refused,
      two empty synchronised tracks are degenerate, and otherwise the output is as
      long as the synchronised tracks and ready for output. */
  ghost predicate NormalisingOutcome(r: Result<Buffer>, audio1: Buffer, audio2: Buffer, tempo1: real, tempo2: real, lib: Provider)
  {
    if tempo1 <= 0.0 || tempo2 <= 0.0 then r == Err(InvalidTempoEstimate)
    else if SyncedLength(audio1, audio2, tempo1, tempo2, lib) == 0 then r == Err(DegenerateBuffer)
    else r.Ok? && |r.value| == SyncedLength(audio1, audio2, tempo1, tempo2, lib) && OutputRange(r.value)
  }

  /** The classic mashup fails only for a tempo that is not positive, and is as long
      as the synchronised tracks. */
  lemma ClassicOutcome(audio1: Buffer, audio2: Buffer, tempo1: real, tempo2: real, lib: Provider)
    ensures var r := ClassicMashup(audio1, audio2, tempo1, tempo2, lib);
      if tempo1 <= 0.0 || tempo2 <= 0.0 then r == Err(InvalidTempoEstimate)
      else r.Ok? && |r.value| == SyncedLength(audio1, audio2, tempo1, tempo2, lib)
  {
  }

  lemma VocalInstrumentalOutcome(audio1: Buffer, audio2: Buffer, tempo1: real, tempo2: real, lib: Provider)
    requires lib.Valid()
    ensures NormalisingOutcome(VocalInstrumentalMashup(audio1, audio2, tempo1, tempo2, lib), audio1, audio2, tempo1, tempo2, lib)
  {
    var sync := Synchronize(audio1, audio2, tempo1, tempo2, lib);
    if sync.Ok? && |sync.value.track1| > 0 {
      var (v1, i1) := SeparateVocals(sync.value.track1, lib);
      var (v2, i2) := SeparateVocals(sync.value.track2, lib);
      NormalizedOutput(VocalInstrumentalBlend(v1, i1, v2, i2));
    }
  }

  lemma HarmonicPercussiveOutcome(audio1: Buffer, audio2: Buffer, tempo1: real, tempo2: real, lib: Provider)
    requires lib.Valid()
    ensures NormalisingOutcome(HarmonicPercussiveMashup(audio1, audio2, tempo1, tempo2, lib), audio1, audio2, tempo1, tempo2, lib)
  {
    var sync := Synchronize(audio1, audio2, tempo1, tempo2, lib);
    if sync.Ok? && |sync.value.track1| > 0 {
      var (h1, p1) := lib.hpss(sync.value.track1);
      var (h2, p2) := lib.hpss(sync.value.track2);
      NormalizedOutput(HarmonicPercussiveBlend(h1, p1, h2, p2));
    }
  }

  lemma FrequencySplitOutcome(audio1: Buffer, audio2: Buffer, tempo1: real, tempo2: real, lib: Provider)
    requires lib.Valid()
    ensures NormalisingOutcome(FrequencySplitMashup(audio1, audio2, tempo1, tempo2, lib), audio1, audio2, tempo1, tempo2, lib)
  {
    var sync := Synchronize(audio1, audio2, tempo1, tempo2, lib);
    if sync.Ok? && |sync.value.track1| > 0 {
      var s1, s2 := sync.value.track1, sync.value.track2;
      NormalizedOutput(FrequencySplitBlend(lib.lowPass800(s1), lib.highPass800(s1), lib.lowPass800(s2), lib.highPass800(s2)));
    }
  }

  /** Whatever the name, the mashup is refused exactly for a tempo that is not
      positive, or for empty synchronised tracks under a normalising strategy, and is
      otherwise as long as the shorter synchronised track; the normalising
      strategies' output is ready for output. */
  lemma MashupOutcome(audio1: Buffer, audio2: Buffer, tempo1: real, tempo2: real, name: string, lib: Provider)
    requires lib.Valid()
    ensures var r := CreateMashup(audio1, audio2, tempo1, tempo2, name, lib);
      if StrategyOf(name) == Classic then
        if tempo1 <= 0.0 || tempo2 <= 0.0 then r == Err(InvalidTempoEstimate)
        else r.Ok? && |r.value| == SyncedLength(audio1, audio2, tempo1, tempo2, lib)
      else NormalisingOutcome(r, audio1, audio2, tempo1, tempo2, lib)
  {
    match StrategyOf(name)
    case Classic => ClassicOutcome(audio1, audio2, tempo1, tempo2, lib);
    case VocalInstrumental => VocalInstrumentalOutcome(audio1, audio2, tempo1, tempo2, lib);
    case HarmonicPercussive => HarmonicPercussiveOutcome(audio1, audio2, tempo1, tempo2, lib);
    case FrequencySplit => FrequencySplitOutcome(audio1, audio2, tempo1, tempo2, lib);
  }

  /** Any name that is not one of the four gives the classic mashup. */
  lemma UnknownNameIsClassic(audio1: Buffer, audio2: Buffer, tempo1: real, tempo2: real, name: string, lib: Provider)
    requires lib.Valid()
    requires name != "vocal_instrumental" && name != "harmonic_percussive" && name != "frequency_split"
    ensures CreateMashup(audio1, audio2, tempo1, tempo2, name, lib) == ClassicMashup(audio1, audio2, tempo1, tempo2, lib)
  {
  }
}
