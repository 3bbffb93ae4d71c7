/** Tempo synchronisation: the rate at which a track is stretched, computed from its
    tempo estimate and a target tempo. Two rates are modelled: the one the code
    computes, `tempo / target`, and the one that, on the stretcher's own convention
    that a rate is a playback-speed factor, would bring the track to the target. */
module TimeSync {

  /** `1 / (target / tempo)`: the rate handed to the time stretcher. */
  function StretchRate(tempo: real, target: real): real
    requires tempo > 0.0 && target > 0.0
  {
    1.0 / (target / tempo)
  }

  /** The rate is the ratio of the track's tempo to the target, and it is positive. */
  lemma StretchRateIsRatio(tempo: real, target: real)
    requires tempo > 0.0 && target > 0.0
    ensures StretchRate(tempo, target) == tempo / target > 0.0
  {
    var q := target / tempo;
    assert q * tempo == target;
    assert (1.0 / q) * target == tempo;
  }

  /** Arithmetic about the rate as written: the tempo times the rate is
      `tempo * tempo / target`, which is the target only when the tempo already is.
      Reading `tempo * rate` as the tempo after stretching rests on the stretcher
      treating its rate as a playback-speed factor, a property of the stretcher that
      the model's `Provider` does not encode. */
  lemma StretchedTempo(tempo: real, target: real)
    requires tempo > 0.0 && target > 0.0
    ensures tempo * StretchRate(tempo, target) == tempo * tempo / target
    ensures tempo * StretchRate(tempo, target) == target <==> tempo == target
  {
    StretchRateIsRatio(tempo, target);
    var r := tempo / target;
    var t := tempo * tempo / target;
    assert r * target == tempo;
    assert t * target == tempo * tempo;
    assert (tempo * r) * target == tempo * tempo;
    assert (tempo * r - t) * target == 0.0;
    assert (t - target) * target == (tempo - target) * (tempo + target);
  }

  /** A track at 100 BPM headed for Techno's 130 BPM is stretched at rate 10/13, so
      at playback speed it plays at 1000/13, about 76.9 BPM, further from 130. */
  lemma RateAt100Bpm()
    ensures StretchRate(100.0, 130.0) == 10.0 / 13.0
    ensures 100.0 * StretchRate(100.0, 130.0) == 1000.0 / 13.0 < 100.0
  {
    StretchRateIsRatio(100.0, 130.0);
  }

  /** The rate that brings a track at `tempo` to `target` when a rate is a
      playback-speed factor: `target / tempo`. */
  function SyncRate(tempo: real, target: real): real
    requires tempo > 0.0 && target > 0.0
  {
    target / tempo
  }

  /** At the intended rate the track plays at exactly the target, the rate is the
      reciprocal of the one the code computes, and the two agree only at the target. */
  lemma SyncRateReachesTarget(tempo: real, target: real)
    requires tempo > 0.0 && target > 0.0
    ensures tempo * SyncRate(tempo, target) == target
    ensures SyncRate(tempo, target) * StretchRate(tempo, target) == 1.0
    ensures SyncRate(tempo, target) == StretchRate(tempo, target) <==> tempo == target
  {
    StretchRateIsRatio(tempo, target);
    var s, r := target / tempo, tempo / target;
    assert s * tempo == target;
    assert r * target == tempo;
    assert StretchRate(tempo, target) == 1.0 / s;
    assert s * (1.0 / s) == 1.0;
    assert (s - r) * (tempo * target) == (target - tempo) * (target + tempo);
  }
}
