/** The global timing controls, in milliseconds: how far they move every step. */
module Offsets {
  import opened Numbers
  import opened Clock
  import opened Observing

  function FiniteOrZero(x: Float): real { match x case Finite(v) => v case NotFinite => 0.0 }

  /** A nudge in milliseconds is kept in beats of the tempo at the time. */
  function WithNudge(c: Controls, ms: Float, bpm: real): Controls
  {
    c.(nudgeBeats := FiniteOrZero(ms) / 1000.0 * bpm / 60.0)
  }

  function WithLatency(c: Controls, ms: Float): Controls { c.(latencyMs := FiniteOrZero(ms)) }

  /** The rate of a clock that keeps one tempo, in samples a beat. */
  ghost predicate KeepsTempo(c: ActiveClock)
    requires c.Valid()
  {
    match c
    case Internal(l) => true
    case Follow(t) => t.slewRate == t.rate && t.rate * (60.0 * t.sampleRate) == t.bpm
  }

  function Tempo(c: ActiveClock): real { match c case Internal(l) => l.bpm case Follow(t) => t.bpm }

  lemma BeatsOn(c: ActiveClock, beat: real, more: real)
    requires c.Valid() && KeepsTempo(c)
    ensures c.SampleAtBeat(beat + more) == c.SampleAtBeat(beat) + more * c.SamplesPerBeat()
    ensures c.SamplesPerBeat() * Tempo(c) == 60.0 * c.SampleRate()
  {
    match c
    case Internal(l) =>
      var d := beat - l.anchorBeat;
      assert (d + more) * l.SamplesPerBeat() == d * l.SamplesPerBeat() + more * l.SamplesPerBeat();
      DivPos(l.sampleRate * 60.0, l.bpm);
    case Follow(t) =>
      StraightAt(t, beat);
      StraightAt(t, beat + more);
      OverSum(beat - t.anchorBeat, more, t.rate);
      PerBeat(t.rate, 60.0 * t.sampleRate, t.bpm);
  }

  lemma OverSum(a: real, b: real, d: real)
    requires d > 0.0
    ensures (a + b) / d == a / d + b * (1.0 / d)
  {
  }

  lemma PerBeat(rate: real, n: real, bpm: real)
    requires rate > 0.0 && rate * n == bpm
    ensures 1.0 / rate * bpm == n
  {
    MulThenDiv(n, rate);
    assert bpm / rate == n;
  }

  lemma StraightAt(t: Timeline, beat: real)
    requires t.Valid() && t.slewRate == t.rate
    ensures t.SampleAtBeat(beat) == t.anchorSample + (beat - t.anchorBeat) / t.rate
  {
    var end := t.slewEnd - t.anchorSample;
    MulThenDiv(end, t.rate);
    assert beat - t.SlewEndBeat() == (beat - t.anchorBeat) - end * t.rate;
    Apart(beat - t.anchorBeat, end * t.rate, t.rate);
  }

  lemma Apart(a: real, b: real, d: real)
    requires d > 0.0
    ensures (a - b) / d == a / d - b / d
  {
  }

  /** A nudge makes every beat land that many milliseconds later, a latency offset that many earlier, at the tempo it
      was set at; no number at all counts as none. */
  lemma NudgeAndLatencyShift(c: ActiveClock, controls: Controls, nudge: Float, latency: Float, beat: real)
    requires c.Valid() && KeepsTempo(c)
    ensures var adjusted := AdjustedClock(c, WithLatency(WithNudge(controls, nudge, Tempo(c)), latency));
            adjusted.SampleAtBeat(beat)
            == c.SampleAtBeat(beat) + (FiniteOrZero(nudge) - FiniteOrZero(latency)) * c.SampleRate() / 1000.0
  {
    hide KeepsTempo, Tempo, ActiveClock.SampleAtBeat, ActiveClock.SamplesPerBeat, ActiveClock.SampleRate,
         ActiveClock.Valid, AdjustedClock.SampleAtBeat, FiniteOrZero;
    var ms, late := FiniteOrZero(nudge), FiniteOrZero(latency);
    var n := ms / 1000.0 * Tempo(c) / 60.0;
    var adjusted := AdjustedClock(c, WithLatency(WithNudge(controls, nudge, Tempo(c)), latency));
    AdjustedAt(adjusted, beat);
    BeatsOn(c, beat, n);
    assert adjusted.controls.nudgeBeats == n && adjusted.controls.latencyMs == late;
    var x, rate := c.SampleAtBeat(beat), c.SampleRate();
    assert adjusted.SampleAtBeat(beat) == c.SampleAtBeat(beat + n) - late * rate / 1000.0;
    assert adjusted.SampleAtBeat(beat) == x + n * c.SamplesPerBeat() - late * rate / 1000.0;
    Cancel(ms / 1000.0, Tempo(c), c.SamplesPerBeat(), c.SampleRate());
    assert n * c.SamplesPerBeat() == ms / 1000.0 * c.SampleRate();
    InMilliseconds(ms, late, c.SampleRate());
  }

  lemma AdjustedAt(c: AdjustedClock, beat: real)
    requires c.Valid()
    ensures c.SampleAtBeat(beat)
            == c.inner.SampleAtBeat(beat + c.controls.nudgeBeats) - c.controls.latencyMs * c.inner.SampleRate() / 1000.0
  {
  }

  lemma Cancel(seconds: real, bpm: real, perBeat: real, sampleRate: real)
    requires perBeat * bpm == 60.0 * sampleRate
    ensures seconds * bpm / 60.0 * perBeat == seconds * sampleRate
  {
    assert seconds * bpm / 60.0 * perBeat == seconds / 60.0 * (perBeat * bpm);
  }

  lemma InMilliseconds(ms: real, late: real, sampleRate: real)
    ensures ms / 1000.0 * sampleRate - late * sampleRate / 1000.0 == (ms - late) * sampleRate / 1000.0
  {
  }
}
