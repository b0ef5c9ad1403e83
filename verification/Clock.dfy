/** Tempo sources: maps between beats and samples, both ways. */
module Clock {
  import opened Numbers

  const MIN_BPM := 20.0
  const MAX_BPM := 400.0

  /** The value of an InternalClock: a fixed tempo through one anchor. */
  datatype Line = Line(sampleRate: real, bpm: real, anchorSample: real, anchorBeat: real)
  {
    predicate Valid() { sampleRate > 0.0 && MIN_BPM <= bpm <= MAX_BPM }

    function SamplesPerBeat(): (r: real)
      requires Valid()
      ensures r > 0.0
    {
      sampleRate * 60.0 / bpm
    }

    function BeatAtSample(sample: real): real
      requires Valid()
    {
      anchorBeat + (sample - anchorSample) / SamplesPerBeat()
    }

    function SampleAtBeat(beat: real): real
      requires Valid()
    {
      anchorSample + (beat - anchorBeat) * SamplesPerBeat()
    }

    /** The same tempo through the point (`sample`, `beat`). */
    function Aligned(sample: real, beat: real): Line
    {
      this.(anchorSample := sample, anchorBeat := beat)
    }

    /** Changes tempo at `now`: the beat at `now` is the new anchor. */
    function WithTempo(bpm': real, now: real): Line
      requires Valid()
    {
      Line(sampleRate, Clamp(bpm', MIN_BPM, MAX_BPM), now, BeatAtSample(now))
    }
  }

  /** The output timeline of a FollowerClock: from the anchor at `slewRate` beats per
      sample until `slewEnd`, at `rate` from then on. */
  datatype Timeline = Timeline(
    sampleRate: real, bpm: real,
    anchorSample: real, anchorBeat: real, slewRate: real, slewEnd: real, rate: real)
  {
    predicate Valid() { sampleRate > 0.0 && MIN_BPM <= bpm <= MAX_BPM && slewRate > 0.0 && rate > 0.0 }

    function SlewEndBeat(): real
    {
      anchorBeat + (slewEnd - anchorSample) * slewRate
    }

    function BeatAtSample(sample: real): real
    {
      if sample <= slewEnd then anchorBeat + (sample - anchorSample) * slewRate
      else SlewEndBeat() + (sample - slewEnd) * rate
    }

    function SampleAtBeat(beat: real): real
      requires Valid()
    {
      if beat <= SlewEndBeat() then anchorSample + (beat - anchorBeat) / slewRate
      else slewEnd + (beat - SlewEndBeat()) / rate
    }

    function SamplesPerBeat(): (r: real)
      requires Valid()
      ensures r > 0.0
    {
      1.0 / rate
    }
  }

  /** The clock in use. */
  datatype ActiveClock = Internal(line: Line) | Follow(timeline: Timeline)
  {
    predicate Valid() { match this case Internal(l) => l.Valid() case Follow(t) => t.Valid() }

    function SampleRate(): real { match this case Internal(l) => l.sampleRate case Follow(t) => t.sampleRate }

    function BeatAtSample(sample: real): real
      requires Valid()
    {
      match this case Internal(l) => l.BeatAtSample(sample) case Follow(t) => t.BeatAtSample(sample)
    }

    function SampleAtBeat(beat: real): real
      requires Valid()
    {
      match this case Internal(l) => l.SampleAtBeat(beat) case Follow(t) => t.SampleAtBeat(beat)
    }

    /** `FollowerClock` overrides the trait's default: its long-run timeline rate. */
    function SamplesPerBeat(): (r: real)
      requires Valid()
      ensures r > 0.0
    {
      match this case Internal(l) => l.SamplesPerBeat() case Follow(t) => t.SamplesPerBeat()
    }
  }

  /** Global timing controls. */
  datatype Controls = Controls(nudgeBeats: real, latencyMs: real)

  /** An active clock shifted by the controls: what the scheduler reads. */
  datatype AdjustedClock = AdjustedClock(inner: ActiveClock, controls: Controls)
  {
    predicate Valid() { inner.Valid() }

    function SampleRate(): real { inner.SampleRate() }

    function LatencySamples(): real { controls.latencyMs * inner.SampleRate() / 1000.0 }

    function BeatAtSample(sample: real): real
      requires Valid()
    {
      inner.BeatAtSample(sample + LatencySamples()) - controls.nudgeBeats
    }

    function SampleAtBeat(beat: real): real
      requires Valid()
    {
      inner.SampleAtBeat(beat + controls.nudgeBeats) - LatencySamples()
    }
  }

  /** A beat spans at least 32 samples, and a slew is at most 5 % faster than the tempo: true of
      every clock at an audio sample rate (`AudioRateSuffices`, `FollowerRuns.SteadyAtAudioRate`).
      Rounding to whole samples is harmless only under it. */
  const MIN_SAMPLES_PER_BEAT := 32.0

  predicate AudioRate(c: AdjustedClock)
  {
    c.Valid() && match c.inner
      case Internal(l) => l.SamplesPerBeat() >= MIN_SAMPLES_PER_BEAT
      case Follow(t) =>
        && t.rate * MIN_SAMPLES_PER_BEAT <= 1.0
        && t.slewRate * MIN_SAMPLES_PER_BEAT <= 1.0
        && t.slewRate <= 1.05 * t.rate
  }

  // ---- Arithmetic the proofs below rest on ----

  lemma DivPos(x: real, d: real)
    requires d > 0.0
    ensures x > 0.0 ==> x / d > 0.0
    ensures x >= 0.0 ==> x / d >= 0.0
    ensures x / d * d == x
  {
  }

  lemma MulThenDiv(x: real, d: real)
    requires d != 0.0
    ensures x * d / d == x
  {
  }

  lemma DivLess(x: real, y: real, d: real)
    requires d > 0.0
    ensures x < y ==> x / d < y / d
  {
    assert (y - x) / d == y / d - x / d;
    DivPos(y - x, d);
  }

  lemma MulLess(x: real, y: real, d: real)
    requires d > 0.0
    ensures x < y ==> x * d < y * d
  {
  }

  // ---- The two maps are inverse to each other and strictly increasing ----

  lemma LineInverse(l: Line, sample: real, beat: real)
    requires l.Valid()
    ensures l.BeatAtSample(l.SampleAtBeat(beat)) == beat
    ensures l.SampleAtBeat(l.BeatAtSample(sample)) == sample
  {
    MulThenDiv(beat - l.anchorBeat, l.SamplesPerBeat());
    DivPos(sample - l.anchorSample, l.SamplesPerBeat());
  }

  lemma LineIncreasing(l: Line, s: real, t: real)
    requires l.Valid() && s < t
    ensures l.BeatAtSample(s) < l.BeatAtSample(t)
    ensures l.SampleAtBeat(s) < l.SampleAtBeat(t)
  {
    DivLess(s - l.anchorSample, t - l.anchorSample, l.SamplesPerBeat());
    MulLess(s - l.anchorBeat, t - l.anchorBeat, l.SamplesPerBeat());
  }

  lemma TimelineInverse(tl: Timeline, sample: real, beat: real)
    requires tl.Valid()
    ensures tl.BeatAtSample(tl.SampleAtBeat(beat)) == beat
    ensures tl.SampleAtBeat(tl.BeatAtSample(sample)) == sample
  {
    TimelineBeatBack(tl, beat);
    TimelineSampleBack(tl, sample);
  }

  lemma TimelineBeatBack(tl: Timeline, beat: real)
    requires tl.Valid()
    ensures tl.BeatAtSample(tl.SampleAtBeat(beat)) == beat
  {
    var e := tl.SlewEndBeat();
    if beat <= e {
      DivPos(beat - tl.anchorBeat, tl.slewRate);
      MulThenDiv(tl.slewEnd - tl.anchorSample, tl.slewRate);
      if beat < e { DivLess(beat - tl.anchorBeat, e - tl.anchorBeat, tl.slewRate); }
      assert tl.SampleAtBeat(beat) <= tl.slewEnd;
    } else {
      DivPos(beat - e, tl.rate);
    }
  }

  lemma TimelineSampleBack(tl: Timeline, sample: real)
    requires tl.Valid()
    ensures tl.SampleAtBeat(tl.BeatAtSample(sample)) == sample
  {
    if sample <= tl.slewEnd {
      if sample < tl.slewEnd { MulLess(sample - tl.anchorSample, tl.slewEnd - tl.anchorSample, tl.slewRate); }
      MulThenDiv(sample - tl.anchorSample, tl.slewRate);
    } else {
      MulLess(0.0, sample - tl.slewEnd, tl.rate);
      MulThenDiv(sample - tl.slewEnd, tl.rate);
    }
  }

  lemma TimelineIncreasing(tl: Timeline, s: real, t: real)
    requires tl.Valid() && s < t
    ensures tl.BeatAtSample(s) < tl.BeatAtSample(t)
    ensures tl.SampleAtBeat(s) < tl.SampleAtBeat(t)
  {
    TimelineBeatIncreasing(tl, s, t);
    // The inverse of a strictly increasing map is strictly increasing.
    TimelineBeatBack(tl, s);
    TimelineBeatBack(tl, t);
    var a, b := tl.SampleAtBeat(s), tl.SampleAtBeat(t);
    if b < a { TimelineBeatIncreasing(tl, b, a); }
  }

  lemma TimelineBeatIncreasing(tl: Timeline, s: real, t: real)
    requires tl.Valid() && s < t
    ensures tl.BeatAtSample(s) < tl.BeatAtSample(t)
  {
    if t <= tl.slewEnd {
      MulLess(s - tl.anchorSample, t - tl.anchorSample, tl.slewRate);
    } else if tl.slewEnd < s {
      MulLess(s - tl.slewEnd, t - tl.slewEnd, tl.rate);
    } else {
      if s < tl.slewEnd { MulLess(s - tl.anchorSample, tl.slewEnd - tl.anchorSample, tl.slewRate); }
      MulLess(0.0, t - tl.slewEnd, tl.rate);
    }
  }

  /** The consistency contract of the `ClockSource` trait, for every clock the engine uses:
      `beat_at_sample` and `sample_at_beat` are inverse to each other, in both orders. */
  lemma ClockInverse(c: AdjustedClock, sample: real, beat: real)
    requires c.Valid()
    ensures c.BeatAtSample(c.SampleAtBeat(beat)) == beat
    ensures c.SampleAtBeat(c.BeatAtSample(sample)) == sample
  {
    match c.inner
    case Internal(l) =>
      LineInverse(l, sample + c.LatencySamples(), beat + c.controls.nudgeBeats);
    case Follow(t) =>
      TimelineInverse(t, sample + c.LatencySamples(), beat + c.controls.nudgeBeats);
  }

  lemma ClockIncreasing(c: AdjustedClock, s: real, t: real)
    requires c.Valid() && s < t
    ensures c.BeatAtSample(s) < c.BeatAtSample(t)
    ensures c.SampleAtBeat(s) < c.SampleAtBeat(t)
  {
    var latency, nudge := c.LatencySamples(), c.controls.nudgeBeats;
    match c.inner
    case Internal(l) =>
      LineIncreasing(l, s + latency, t + latency);
      LineIncreasing(l, s + nudge, t + nudge);
    case Follow(tl) =>
      TimelineIncreasing(tl, s + latency, t + latency);
      TimelineIncreasing(tl, s + nudge, t + nudge);
  }

  /** A beat falls at or after a sample exactly when the beat at that sample is not later. */
  lemma ClockGalois(c: AdjustedClock, sample: real, beat: real)
    requires c.Valid()
    ensures c.SampleAtBeat(beat) >= sample <==> beat >= c.BeatAtSample(sample)
  {
    ClockInverse(c, sample, beat);
    var b := c.BeatAtSample(sample);
    if beat < b { ClockIncreasing(c, beat, b); }
    if b < beat { ClockIncreasing(c, b, beat); }
  }

  lemma AudioRateSuffices(l: Line, controls: Controls)
    requires l.Valid() && l.sampleRate >= 1000.0
    ensures AudioRate(AdjustedClock(Internal(l), controls))
  {
    assert l.sampleRate * 60.0 >= MIN_SAMPLES_PER_BEAT * l.bpm;
    var q := l.SamplesPerBeat();
    DivPos(l.sampleRate * 60.0, l.bpm);
    assert q * l.bpm == l.sampleRate * 60.0;
    if q < MIN_SAMPLES_PER_BEAT { MulLess(q, MIN_SAMPLES_PER_BEAT, l.bpm); }
  }

  /** Beats apart are samples apart. */
  lemma SamplesApart(c: AdjustedClock, a: real, b: real)
    requires AudioRate(c) && a <= b
    ensures c.SampleAtBeat(b) - c.SampleAtBeat(a) >= (b - a) * MIN_SAMPLES_PER_BEAT
  {
    match c.inner
    case Internal(l) =>
      LineSamplesApart(l, a + c.controls.nudgeBeats, b + c.controls.nudgeBeats);
    case Follow(t) =>
      TimelineSamplesApart(t, a + c.controls.nudgeBeats, b + c.controls.nudgeBeats, MIN_SAMPLES_PER_BEAT);
  }

  lemma MulAtLeast(x: real, a: real, b: real)
    requires x >= 0.0 && a >= b
    ensures x * a >= x * b
  {
  }

  lemma LineSamplesApart(l: Line, a: real, b: real)
    requires l.Valid() && a <= b && l.SamplesPerBeat() >= MIN_SAMPLES_PER_BEAT
    ensures l.SampleAtBeat(b) - l.SampleAtBeat(a) == (b - a) * l.SamplesPerBeat() >= (b - a) * MIN_SAMPLES_PER_BEAT
  {
    var d, spb := b - a, l.SamplesPerBeat();
    assert d * spb >= d * MIN_SAMPLES_PER_BEAT by { MulAtLeast(d, spb, MIN_SAMPLES_PER_BEAT); }
    assert l.SampleAtBeat(b) - l.SampleAtBeat(a) == d * spb;
  }

  lemma QuotientAtLeast(x: real, d: real, m: real)
    requires d > 0.0 && x >= 0.0 && d * m <= 1.0
    ensures x / d >= x * m
  {
    DivPos(x, d);
    var q := x / d;
    assert q >= 0.0 && q * d == x;
    assert x * m == q * (d * m);
  }

  /** Between two beats a timeline spends part of them on each segment. */
  lemma TimelineParts(t: Timeline, a: real, b: real) returns (low: real, high: real)
    requires t.Valid() && a <= b
    ensures low >= 0.0 && high >= 0.0 && low + high == b - a
    ensures t.SampleAtBeat(b) - t.SampleAtBeat(a) == low / t.slewRate + high / t.rate
  {
    var e := t.SlewEndBeat();
    MulThenDiv(t.slewEnd - t.anchorSample, t.slewRate);
    low, high := if a <= e then (if b <= e then b else e) - a else 0.0, if b <= e then 0.0
        else b - (if a <= e then e else a);
    QuotientOfDifference(if b <= e then b - t.anchorBeat else e - t.anchorBeat, a - t.anchorBeat, t.slewRate);
    QuotientOfDifference(b - e, a - e, t.rate);
  }

  /** A timeline stretches beats at least as much as the faster of its two segments. */
  lemma TimelineSamplesApart(t: Timeline, a: real, b: real, m: real)
    requires t.Valid() && a <= b && t.rate * m <= 1.0 && t.slewRate * m <= 1.0
    ensures t.SampleAtBeat(b) - t.SampleAtBeat(a) >= (b - a) * m
  {
    hide *;
    var low, high := TimelineParts(t, a, b);
    assert t.slewRate > 0.0 && t.rate > 0.0 by { TimelinePositive(t); }
    QuotientAtLeast(low, t.slewRate, m);
    QuotientAtLeast(high, t.rate, m);
    Distribute(low, high, m);
  }

  lemma TimelinePositive(t: Timeline)
    requires t.Valid()
    ensures t.slewRate > 0.0 && t.rate > 0.0
  {
  }

  lemma Distribute(x: real, y: real, m: real)
    ensures x * m + y * m == (x + y) * m
  {
  }

  lemma QuotientOfDifference(x: real, y: real, d: real)
    requires d != 0.0
    ensures x / d - y / d == (x - y) / d
  {
  }

  /** A tempo change keeps the beat at `now`. */
  lemma TempoChangeIsContinuous(l: Line, bpm: real, now: real)
    requires l.Valid()
    ensures l.WithTempo(bpm, now).Valid()
    ensures l.WithTempo(bpm, now).BeatAtSample(now) == l.BeatAtSample(now)
  {
    var m := l.WithTempo(bpm, now);
    assert (now - m.anchorSample) / m.SamplesPerBeat() == 0.0;
  }

  /** The internal clock, updated in place. */
  class InternalClock {
    var sampleRate: real
    var bpm: real
    var anchorSample: real
    var anchorBeat: real

    function Value(): Line
      reads this
    {
      Line(sampleRate, bpm, anchorSample, anchorBeat)
    }

    constructor (sampleRate: real, bpm: real)
      requires sampleRate > 0.0
      ensures Value().Valid()
      ensures Value() == Line(sampleRate, Clamp(bpm, MIN_BPM, MAX_BPM), 0.0, 0.0)
    {
      this.sampleRate := sampleRate;
      this.bpm := Clamp(bpm, MIN_BPM, MAX_BPM);
      anchorSample, anchorBeat := 0.0, 0.0;
    }

    method Reset(sample: real)
      requires Value().Valid()
      modifies this
      ensures Value() == old(Value()).Aligned(sample, 0.0)
      ensures Value().Valid() && Value().BeatAtSample(sample) == 0.0
    {
      anchorSample := sample;
      anchorBeat := 0.0;
      assert (sample - anchorSample) / Value().SamplesPerBeat() == 0.0;
    }

    method Align(sample: real, beat: real)
      requires Value().Valid()
      modifies this
      ensures Value() == old(Value()).Aligned(sample, beat)
      ensures Value().Valid() && Value().BeatAtSample(sample) == beat
    {
      anchorSample := sample;
      anchorBeat := beat;
      assert (sample - anchorSample) / Value().SamplesPerBeat() == 0.0;
    }

    method SetTempo(bpm: real, now: real)
      requires Value().Valid()
      modifies this
      ensures Value() == old(Value()).WithTempo(bpm, now)
      ensures Value().Valid() && Value().BeatAtSample(now) == old(Value().BeatAtSample(now))
    {
      TempoChangeIsContinuous(Value(), bpm, now);
      anchorBeat := Value().BeatAtSample(now);
      anchorSample := now;
      this.bpm := Clamp(bpm, MIN_BPM, MAX_BPM);
    }

    method SetSampleRate(sampleRate: real, now: real)
      requires Value().Valid() && sampleRate > 0.0
      modifies this
      ensures Value() == Line(sampleRate, old(bpm), now, old(Value().BeatAtSample(now)))
      ensures Value().Valid() && Value().BeatAtSample(now) == old(Value().BeatAtSample(now))
    {
      var beat := Value().BeatAtSample(now);
      this.sampleRate := sampleRate;
      anchorBeat := beat;
      anchorSample := now;
      assert (now - anchorSample) / Value().SamplesPerBeat() == 0.0;
    }
  }
}
