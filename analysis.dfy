/** The numeric services the core delegates to: beat tracking, time stretching,
    harmonic/percussive separation, Butterworth filtering run forward and backward,
    pre-emphasis and the convolution of the reverb. The core never looks inside them;
    here they are opaque functions, and what the core relies on about them is that
    the filters, the separation, the pre-emphasis and the "same"-mode convolution
    return a buffer as long as their input. */
module Analysis {
  import opened Buffers

  datatype Provider = Provider(
    // the tempo estimate of `librosa.beat.beat_track` at a sample rate, in beats per minute
    beatTrack: (Buffer, nat) -> real,
    // `librosa.effects.time_stretch(y, rate)`: its output length is its own affair
    timeStretch: (Buffer, real) -> Buffer,
    // `librosa.effects.hpss`: the harmonic and the percussive part
    hpss: Buffer -> (Buffer, Buffer),
    // order-4 Butterworth band-pass 300-3400 Hz, applied with `filtfilt`
    vocalBand: Buffer -> Buffer,
    // order-4 Butterworth low-pass and high-pass at 800 Hz, applied with `filtfilt`
    lowPass800: Buffer -> Buffer,
    highPass800: Buffer -> Buffer,
    // order-4 Butterworth low-pass at 200 Hz for a sample rate, applied with `filtfilt`
    lowPass200: (Buffer, nat) -> Buffer,
    // `librosa.effects.preemphasis(y, coef)`
    preemphasis: (Buffer, real) -> Buffer,
    // the "same"-mode convolution of y with the reverb's noise impulse scaled by the
    // room size; the noise is drawn at random, so this stands for one draw
    reverbWet: (Buffer, real) -> Buffer
  )
  {
    /** The length-preserving services keep the length of their input. */
    ghost predicate Valid()
    {
      && (forall x :: |hpss(x).0| == |x|)
      && (forall x :: |hpss(x).1| == |x|)
      && (forall x :: |vocalBand(x)| == |x|)
      && (forall x :: |lowPass800(x)| == |x|)
      && (forall x :: |highPass800(x)| == |x|)
      && (forall x, sr :: |lowPass200(x, sr)| == |x|)
      && (forall x, c :: |preemphasis(x, c)| == |x|)
      && (forall x, c :: |reverbWet(x, c)| == |x|)
    }
  }
}
