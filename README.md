# InTheMix: a verified model of the remix and mashup engine

InTheMix takes one or two mono tracks as sample buffers. In a **remix**, one track
is stretched at rate `tempo / target`, from its estimated tempo and a genre tempo:
130 BPM for Techno, 125 BPM for House. The track then goes through that genre's
fixed, ordered chain of effects. In a **mashup**, each of two tracks is stretched at
rate `tempo / target`, with the mean of their tempos as the target, and both are cut
to the shorter length. They are then recombined by one of four strategies,
chosen by name:

- the classic eight-block dynamic mix,
- vocals of one track over the instrumental of the other,
- the harmony of one over the percussion of the other,
- the bass of one under the treble of the other.

This project models that buffer logic in Dafny, with samples as `real`s. It proves
what each piece promises.

The modules follow the program's structure:

| module | file | what it holds |
|---|---|---|
| `Buffers` | buffers.dfy | buffers, the error kinds, scale/add/blend, the peak, the energy, normalisation to 0.95 |
| `Arith` | arith.dfy | lemmas on Euclidean division used for block arithmetic |
| `Compression` | compression.dfy | the compressor, as a copy-then-rewrite loop proved against its transfer curve |
| `DynamicMix` | mix.dfy | the alternating-weight block mix, as a loop over a zeroed buffer |
| `Gate` | gate.dfy | the rhythmic gate, both as written and as intended (see Findings) |
| `Swing` | swing.dfy | the swing groove, as the stepped block-copy loop over a zeroed buffer |
| `Analysis` | analysis.dfy | the numeric services the engine calls, as opaque functions |
| `TimeSync` | tempo.dfy | the stretch rate, as written and as intended (see Findings) |
| `Mashup` | mashup.dfy | synchronisation, the energy choosers, the four strategies, dispatch by name |
| `Remix` | remix.dfy | the effects, the two genre chains, the remix, and the remix with both corrections |

The services are beat tracking, time stretching, harmonic/percussive separation,
Butterworth filtering, pre-emphasis and the reverb's convolution. They are function
fields of `Analysis.Provider`. The model assumes only what the code relies on:
`Provider.Valid` says the filters, the separation, the pre-emphasis and the
"same"-mode convolution return a buffer as long as their input.

The three loops of the code are kept as loops:

- the compressor copies the buffer and rewrites the loud samples in place;
- the dynamic mix fills a zeroed buffer block by block;
- the swing copies blocks into a zeroed buffer, stepping by a quarter beat.

Each method takes and returns a `seq<real>` and works on a local array. Its
postcondition equals a closed-form function of its input, and the properties are
proved about that function. Functions and lemmas use the function.

Failures are values of `Buffers.Result`, not exceptions:

- a tempo estimate that is not positive gives `InvalidTempoEstimate`;
- a normalising mashup of empty tracks gives `DegenerateBuffer`;
- an integer division by zero gives `DivisionByZero`;
- the bass boost's 200 Hz cutoff at or above the Nyquist frequency `sr div 2` gives `InvalidCutoff`;
- a zero `range` step gives `ZeroStep`;
- a product of buffers of different lengths gives `ShapeMismatch`.

The stretch rate is kept as the code computes it: `1 / (target / tempo)`, which
equals `tempo / target`. `TimeSync.StretchedTempo` states the tempo this rate
produces when the stretcher reads its rate as a playback-speed factor. That reading
is a property of the stretcher which `Analysis.Provider` does not encode.

`Remix.CreateRemix` runs the code's chains, `Remix.Chain`, with the gate as written.
`Remix.IntendedRemix` runs `Remix.IntendedChain`, whose Techno chain ends with the
corrected gate, on the track stretched at the corrected rate `TimeSync.SyncRate`.

## Model

| member | source | states |
|---|---|---|
| Buffers.Peak | inthemix_app.py:350 | the peak bounds the magnitude of every sample and is reached by one of them |
| Buffers.Energy | inthemix_app.py:172-173 | the mean-square energy of a non-empty buffer is non-negative |
| Buffers.Normalize | inthemix_app.py:348-351 | normalisation keeps the buffer's length |
| Buffers.SilentBufferUnchanged | inthemix_app.py:348-351 | the peak is zero exactly when every sample is zero, and such a buffer is returned unchanged |
| Buffers.NormalizedPeak | inthemix_app.py:348-351 | after normalisation the peak is exactly 0.95, or 0 for a silent buffer |
| Buffers.NormalizeIdempotent | inthemix_app.py:348-351 | normalising twice equals normalising once |
| Buffers.NormalizedWithinRange | inthemix_app.py:348-351 | every normalised sample lies in [-0.95, 0.95] |
| Compression.CompressSample | inthemix_app.py:265-269 | no ensures; its outcome is `Compression.CompressionContracts` and `Compression.CompressionMonotone` |
| Compression.Compressed | inthemix_app.py:262-270 | the compressed buffer is as long as its input |
| Compression.ApplyCompression | inthemix_app.py:262-270 | the copy-then-rewrite loop yields the transfer curve applied to every sample; the input value is untouched |
| Compression.CompressionContracts | inthemix_app.py:265-269 | a sample within the threshold passes unchanged; with ratio > 1, a louder one keeps its sign and its magnitude ends strictly between the threshold and the original |
| Compression.CompressionMonotone | inthemix_app.py:265-269 | with a positive ratio the transfer curve is non-decreasing |
| Compression.CompressedBuffer | inthemix_app.py:262-270 | the two per-sample facts above, for every sample of a buffer |
| DynamicMix.Mixed | inthemix_app.py:329-346 | the mix is as long as the first track |
| DynamicMix.Mix | inthemix_app.py:329-346 | the block-by-block loop over a zeroed buffer yields the mix; zero segments is a division by zero |
| DynamicMix.SegmentBounds | inthemix_app.py:334-336 | block i starts where the first i blocks end, ends where block i + 1 starts, and stays within the buffer |
| DynamicMix.InSegment | inthemix_app.py:334-344 | every sample the loop writes for block i belongs to block i |
| DynamicMix.BlocksPartition | inthemix_app.py:331-336 | every sample lies in exactly the block `min(j div (n div segments), segments - 1)`, between that block's start and end |
| DynamicMix.ShortBufferIsLastBlock | inthemix_app.py:331-342 | below 8 samples every sample is in block 7 and gets the weights (0.5, 0.7) |
| DynamicMix.AlternatingWeights | inthemix_app.py:338-344 | the first block mixes at (0.7, 0.5), the second at (0.5, 0.7) |
| Gate.Tile | inthemix_app.py:294-295 | reps copies of the pattern; sample i is pattern[i mod 8] |
| Gate.GateAsWritten | inthemix_app.py:291-297 | no ensures; its outcome is `Gate.GateAsWrittenOutcome` |
| Gate.TiledGate | inthemix_app.py:293-297 | no ensures; its outcome is `Gate.TiledGateOutcome` |
| Gate.TiledGateOutcome | inthemix_app.py:293-297 | for a step of g samples the cut tile covers the buffer exactly when `n <= 8 * (n div (8g) + 1)`, and then sample i is scaled by step `i mod 8` |
| Gate.GateAsWrittenOutcome | inthemix_app.py:291-297 | the gate as written succeeds exactly when the tiled pattern covers the buffer, and then scales sample i by step i mod 8 |
| Gate.GateAsWrittenFailsAt44100 | inthemix_app.py:291-297 | at 44100 Hz and 8 Hz the gate as written fails with a shape error for every buffer of 9 or more samples |
| Gate.Gate | inthemix_app.py:291-297 | no ensures; the intended gate, whose outcome is `Gate.GateIsHeldPattern` |
| Gate.RepeatEach | inthemix_app.py:293-295 | each pattern value held for g samples is g times as long as the pattern |
| Gate.RepeatEachAt | inthemix_app.py:293-295 | sample i of the held pattern is pattern value `i div g` |
| Gate.HeldPatternCovers | inthemix_app.py:293-296 | the held 8-step pattern, tiled `n div (8g) + 1` times, is longer than n samples and gives sample i the gain of step `(i div g) mod 8` |
| Gate.HeldPatternCut | inthemix_app.py:293-296 | the held, tiled pattern cut to n samples is the sequence of the n samples' step gains |
| Gate.GateIsHeldPattern | inthemix_app.py:291-297 | the intended gate succeeds exactly for a positive frequency and a step of at least one sample, and then multiplies the buffer by the held, tiled pattern cut to the buffer's length |
| Gate.StepGainRhythm | inthemix_app.py:293-295 | a step's gain is held for all of its samples, and the gains repeat every 8 steps |
| Gate.GateAgreesWithOneSampleSteps | inthemix_app.py:291-297 | where a step is one sample, the gate as written and the intended gate agree |
| Swing.SwingParameters | inthemix_app.py:301-304 | the swing offset is shorter than a block from 4 Hz up; at 44100 Hz they are 882 and 11025 samples |
| Swing.Swung | inthemix_app.py:299-314 | the swung buffer is as long as its input |
| Swing.SwingBlocksBounds | inthemix_app.py:306 | block k is processed exactly when it starts below n - s |
| Swing.EvenBlockCopied | inthemix_app.py:310-312 | a processed even block is copied to its own place, overwriting the previous odd block's spill |
| Swing.OddBlockShifted | inthemix_app.py:307-309 | a processed odd block starts with s zero samples and then holds its own samples delayed by s |
| Swing.TailAfterLastBlock | inthemix_app.py:306-312 | past the last processed block fewer than s samples remain, holding that block's spill if it is odd and silence otherwise |
| Swing.ShortBufferSilenced | inthemix_app.py:303-306 | a buffer no longer than the offset comes out silent |
| Swing.OddBlockStep | inthemix_app.py:307-309 | processing an odd block writes only at positions below n, delayed by s, and changes nothing else |
| Swing.EvenBlockStep | inthemix_app.py:310-312 | processing an even block copies it in place and changes nothing else |
| Swing.AddSwing | inthemix_app.py:299-314 | the stepped block-copy loop over a zeroed buffer yields the swung buffer |
| TimeSync.StretchRate | inthemix_app.py:57-59 | no ensures; the rate as written, `1 / (target / tempo)`, also computed at inthemix_app.py:136-139; its value is `TimeSync.StretchRateIsRatio` |
| TimeSync.StretchRateIsRatio | inthemix_app.py:136-139 | the rate `1 / (target / tempo)` is `tempo / target` and is positive |
| TimeSync.StretchedTempo | inthemix_app.py:57-60 | read as a playback-speed factor, this rate plays a track at tempo t at `t * t / target`, which is the target only if t already was |
| TimeSync.RateAt100Bpm | inthemix_app.py:57-59 | a 100 BPM track synced to 130 BPM gets rate 10/13 and, read as a playback speed, slows to 1000/13 BPM |
| TimeSync.SyncRate | inthemix_app.py:57-59 | no ensures; the corrected rate, whose properties are `TimeSync.SyncRateReachesTarget` |
| TimeSync.SyncRateReachesTarget | inthemix_app.py:56-59 | the corrected rate `target / tempo` times the tempo is the target, it is the reciprocal of the code's rate, and the two agree exactly when the tempo already is the target |
| Mashup.Synchronize | inthemix_app.py:133-145 | fails exactly for a tempo that is not positive; otherwise both tracks are stretched at `tempo / mean tempo` and cut to equal length, the shorter one, keeping each prefix |
| Mashup.SeparateVocals | inthemix_app.py:316-327 | vocals and instrumental are as long as the track, and instrumental + 0.6 vocals gives back the track |
| Mashup.VocalInstrumentalBlend | inthemix_app.py:175-180 | the blend is as long as its parts; which parts it takes is `Mashup.VocalInstrumentalChoice` |
| Mashup.VocalInstrumentalChoice | inthemix_app.py:172-180 | the vocals come from the strictly louder track, a tie takes track 2's vocals over track 1's instrumental, and with unequal energies the order of the tracks does not matter |
| Mashup.HarmonicPercussiveBlend | inthemix_app.py:208-213 | the blend is as long as its parts; which parts it takes is `Mashup.HarmonicPercussiveChoice` |
| Mashup.HarmonicPercussiveChoice | inthemix_app.py:205-213 | the percussion comes from the strictly louder track, a tie gives harmony 1 × 0.6 + percussion 2 × 0.8, and with unequal energies the order does not matter |
| Mashup.FrequencySplitBlend | inthemix_app.py:251-256 | the sum is as long as its parts; which parts it takes is `Mashup.FrequencySplitChoice` |
| Mashup.FrequencySplitChoice | inthemix_app.py:247-256 | the bass comes from the strictly louder track, a tie gives bass 2 + treble 1, and with unequal energies the order does not matter |
| Mashup.StrategyOf | inthemix_app.py:118-125 | no ensures; the name lookup, whose outcome is `Mashup.StrategyNames` |
| Mashup.StrategyNames | inthemix_app.py:118-125 | each strategy is found by its name, an unknown name gives the classic mashup, and no two strategies share a name |
| Mashup.UnknownNameIsClassic | inthemix_app.py:125-126 | a name other than the three special ones dispatches to the classic mashup |
| Mashup.ClassicMashup | inthemix_app.py:128-149 | no ensures; its outcome is `Mashup.ClassicOutcome` |
| Mashup.VocalInstrumentalMashup | inthemix_app.py:151-182 | no ensures; its outcome is `Mashup.VocalInstrumentalOutcome` |
| Mashup.HarmonicPercussiveMashup | inthemix_app.py:184-215 | no ensures; its outcome is `Mashup.HarmonicPercussiveOutcome` |
| Mashup.FrequencySplitMashup | inthemix_app.py:217-258 | no ensures; its outcome is `Mashup.FrequencySplitOutcome` |
| Mashup.CreateMashup | inthemix_app.py:114-126 | no ensures; its outcome is `Mashup.MashupOutcome` and `Mashup.UnknownNameIsClassic` |
| Mashup.ClassicOutcome | inthemix_app.py:128-149 | the classic mashup fails only for a tempo that is not positive and is as long as the synchronised tracks |
| Mashup.VocalInstrumentalOutcome | inthemix_app.py:151-182 | refused for a tempo that is not positive, degenerate for empty tracks, otherwise as long as the tracks with peak 0.95 (or silent) and every sample in [-0.95, 0.95] |
| Mashup.HarmonicPercussiveOutcome | inthemix_app.py:184-215 | the same outcome for the harmonic/percussive mashup |
| Mashup.FrequencySplitOutcome | inthemix_app.py:217-258 | the same outcome for the frequency-split mashup |
| Mashup.MashupOutcome | inthemix_app.py:114-126 | every name's mashup has its strategy's outcome: error cases, output length, and output range for the normalising strategies |
| Remix.Chain | inthemix_app.py:62-88 | no ensures; the two chains as the code applies them, whose outcomes are `Remix.TechnoChainOutcome` and `Remix.HouseChainOutcome` |
| Remix.ApplyEffect | inthemix_app.py:262-314 | no ensures; its outcome is `Remix.EffectOutcome` |
| Remix.ApplyChain | inthemix_app.py:62-88 | no ensures; the effects applied in order, whose outcome is `Remix.ChainOutcome` |
| Remix.EffectOutcome | inthemix_app.py:262-314 | an effect succeeds exactly when admissible at the sample rate and length and keeps the length; the gate as written otherwise divides by zero or mismatches shapes, the bass boost divides by zero or has an invalid cutoff, the swing has a zero step; compression, the reverb and the EQ have no failure and always succeed |
| Remix.ChainOutcome | inthemix_app.py:63-66 | a chain succeeds exactly when every effect in it is admissible and keeps the length; a failing chain fails with the error of its first inadmissible effect |
| Remix.TechnoChainOutcome | inthemix_app.py:63-66 | the Techno chain succeeds exactly from 8 Hz up when the per-sample gate pattern covers the buffer; otherwise it divides by zero below 8 Hz and mismatches shapes above |
| Remix.IntendedTechnoChainOutcome | inthemix_app.py:63-66 | with the corrected gate the Techno chain succeeds exactly from 8 Hz up, whatever the length, and otherwise divides by zero |
| Remix.HouseChainOutcome | inthemix_app.py:85-88 | the House chain succeeds exactly from 402 Hz up; below, the bass boost fails first, dividing by zero below 2 Hz and with an invalid cutoff from 2 to 401 Hz |
| Remix.CreateRemix | inthemix_app.py:48-91 | no ensures; its outcome is `Remix.RemixOutcome` |
| Remix.RemixOutcome | inthemix_app.py:48-91 | a non-positive tempo is refused; otherwise the remix is the genre's chain on the track stretched at `tempo / 130` or `tempo / 125`, with the Techno and House success and error conditions above on the stretched length |
| Remix.TechnoRemixFailsAt44100 | inthemix_app.py:48-66 | at 44100 Hz every Techno remix whose stretched track has 9 or more samples fails with a shape error |
| Remix.IntendedRemix | inthemix_app.py:48-91 | no ensures; the remix with the corrected rate and gate, whose outcome is `Remix.IntendedRemixOutcome` |
| Remix.IntendedRemixOutcome | inthemix_app.py:48-91 | the corrected remix stretches at the rate whose product with the tempo is the genre's tempo, and succeeds from 8 Hz up (Techno) or 402 Hz up (House) |

## Left out

- `load_audio`, `save_audio`, `main`: decoding, encoding, temporary files and the interactive menu are I/O and are not modelled.
- `load_and_sync_audio_pair`: loading is I/O; `CreateMashup` takes its two tempo estimates as parameters.
- Beat tracking, time stretching, HPSS, pre-emphasis and Butterworth/`filtfilt` filtering are foreign library calls, modelled as opaque `Provider` functions. Their numerics are not modelled. Of their own failures, only the bass boost's cutoff check against the sample rate is modelled (`InvalidCutoff`). Not modelled are `filtfilt`'s refusal of a buffer of at most `3 * max(len(a), len(b))` samples, its padding length, and the failures of `time_stretch` and `hpss` themselves.
- `_add_reverb`: the impulse is random noise, so the wet signal is a `Provider` function of the buffer and the room size; only the 0.7 dry + 0.3 wet sum is modelled. An empty impulse at a sample rate below 2 Hz is not modelled.
- Floating point: samples and tempos are exact reals. NaN, infinities and rounding are not modelled, and `int(sr * 0.02)` is modelled as `sr div 50`.
- Printing is not modelled.
- A tempo estimate that is not positive is `Err(InvalidTempoEstimate)`. The code instead divides by a zero tempo, giving infinity, and then fails inside time stretching.
- A normalising mashup of empty tracks is `Err(DegenerateBuffer)`. In the code, `filtfilt` (inthemix_app.py:242-245, 324) or `hpss` (inthemix_app.py:201-202) raises first on an empty or very short track, before the maximum of an empty array would; `DegenerateBuffer` stands for that exception. Very short non-empty tracks, which `filtfilt` also refuses, are not modelled.
- Remix.WellFormed: a compression ratio of zero is excluded instead of modelled. Both chains use 8 and 4.
- Remix.HouseChainOutcome, Remix.EffectOutcome, Remix.RemixOutcome: the bass boost's filter is checked only for its cutoff against the sample rate. `filtfilt`'s minimum length is not modelled, so "succeeds from 402 Hz up" ignores the failure of the code on very short buffers.
- DynamicMix.Mix: requires the second track to be at least as long as the first. Its only caller passes two tracks cut to one length; a shorter second track would be numpy's shape error, or a broadcast of a one-sample slice of it.
- Buffers.Energy: states only that the energy is non-negative, not that it is zero exactly for a silent buffer.
- Complementarity of the 800 Hz low-pass and high-pass filters is a numeric property of the filters and is not modelled.

## Findings

| source | as written | input that shows it | evidently intended | confidence | as-written member | corrected member |
|---|---|---|---|---|---|---|
| inthemix_app.py:293-297 | the 8-step pattern is repeated `n div (8 * (sr div gate_freq)) + 1` times, one step per sample, cut to at most n samples, then multiplied with the buffer | any buffer of 9 or more samples at 44100 Hz with `gate_freq = 8`: the pattern has `8 * (n div 44096 + 1) < n` samples and the product is a shape error, so every Techno remix of real audio fails | every step lasts `sr div gate_freq` samples and the pattern runs along the whole buffer | not executed; high, since the shortfall follows from the integer arithmetic alone | Gate.GateAsWrittenFailsAt44100 | Gate.GateIsHeldPattern |
| inthemix_app.py:57-59 | the stretch rate is `1 / (target / tempo)`, that is `tempo / target`; the mashup preamble computes the same rate (inthemix_app.py:136-140, 157-161, 190-194, 223-227), so `Mashup.Synchronize` inherits it, and a 100/140 BPM pair ends near 83.3 and 163.3 BPM instead of 120 | a 100 BPM track for Techno gets rate 10/13; a stretcher whose rate is a playback speed (rate > 1 speeds up) slows it to about 76.9 BPM instead of raising it to 130 | rate `target / tempo`, whose product with the tempo is the target | not executed; medium, since it rests on the stretcher's rate convention | TimeSync.RateAt100Bpm | TimeSync.SyncRateReachesTarget |

`Gate.GateAsWritten` models the gate as written, and the code's Techno chain
`Remix.Chain` uses it. `Gate.GateAsWrittenOutcome` says exactly when it succeeds.
`Gate.GateAsWrittenFailsAt44100` and `Remix.TechnoRemixFailsAt44100` exhibit the
failure.

`Gate.Gate` is the corrected gate, used by `Remix.IntendedChain`.
`Gate.GateIsHeldPattern`, `Gate.HeldPatternCovers` and `Gate.StepGainRhythm` prove
what it promises:

- it keeps the length;
- it is the buffer times the held pattern, tiled as in the code;
- it holds each gain for a whole step;
- it repeats every 8 steps.

`Gate.GateAgreesWithOneSampleSteps` shows the two versions agree where a step is one
sample.

`TimeSync.StretchRate` is the rate as written, used by `Remix.CreateRemix` and
`Mashup.Synchronize`. `TimeSync.SyncRate` is the corrected rate, used by
`Remix.IntendedRemix`, and `Remix.IntendedRemixOutcome` states that its product with
the track's tempo is the genre's tempo.
