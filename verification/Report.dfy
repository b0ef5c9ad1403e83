/** What one report comes to, step by step, and a report that goes back in time. */
module Reporting {
  import opened Numbers
  import opened Clock
  import opened Observing
  import Following
  import FollowerRuns
  import FollowerClocks
  import FollowerJumps
  import AfterJumps

  // ---- The steps of a report ----

  /** A report of the tempo already held carries the estimate on at that tempo. */
  lemma CarriedOn(f: Following.State, sample: real, phase: real, modulus: real)
    requires Following.Valid(f) && modulus > 0.0
    ensures Following.Carried(f, sample, Some((phase, modulus)), Some(f.bpm))
            == f.(tempoReported := true, tempoKnown := true, estBeat := f.EstBeatAt(sample), estSample := sample,
                  lastObservation := Some(sample))
  {
    hide Following.State.EstRate, Following.TempoFromPhase;
    var f1 := f.(tempoReported := true, tempoKnown := true);
    Following.SameEstRate(f, f1);
  }

  /** The first phase report of a known tempo snaps an Exact follower onto it. */
  lemma FirstPhase(f: Following.State, sample: real, phase: real, sqrt: real -> real)
    requires Following.Valid(f) && f.precision == Following.Exact && f.lock == Following.Acquire && f.acquired == 0
    requires f.tempoKnown && !f.resyncRequested && f.lastPhaseObservation == None
    requires var ours := f.Output().BeatAtSample(sample); -0.5 <= phase - ours < 0.5
    ensures var ours := f.Output().BeatAtSample(sample);
            Following.ObservePhase(f, sample, phase, 1.0, sqrt)
            == f.(lastPhaseObservation := Some(sample), phaseError := phase - ours, estSample := sample,
                  estBeat := phase, updates := 0, jump := None, anchorSample := sample, anchorBeat := phase,
                  rate := f.EstRate(), slewRate := f.EstRate(), slewEnd := sample, discontinuity := true,
                  lock := Following.Track, locked := true, acquired := 0)
  {
    hide Following.State.EstRate, Following.Wrap, Timeline.BeatAtSample, Following.Threshold;
    var ours := f.Output().BeatAtSample(sample);
    WrapSmall(phase - ours);
    Following.SpacingPositive(f, sample);
    var f1 := f.(lastPhaseObservation := Some(sample), phaseError := phase - ours);
    var f2 := f1.(estSample := sample, estBeat := phase, updates := 0, jump := None, lock := Following.Acquire,
                  acquired := 1);
    Following.SameEstRate(f, f2);
  }

  lemma WrapSmall(x: real)
    requires -0.5 <= x < 0.5
    ensures Following.Wrap(x, 1.0) == x
  {
    assert x / 1.0 == x;
  }

  /** Whole turns do not count. */
  lemma WrapTurned(x: real, turns: int)
    requires -0.5 <= x < 0.5
    ensures Following.Wrap(x + turns as real, 1.0) == x
  {
    var k := Following.WrapTakesTurns(x + turns as real, 1.0);
    assert Following.LessTurns(x + turns as real, 1.0, turns) == x;
  }

  /** A follower on its estimate is steered straight on. */
  lemma SteeredOn(f: Following.State, t: real)
    requires Following.Valid(f) && AfterJumps.OnEstimate(f) && f.anchorSample == t == f.slewEnd
    ensures Following.Steered(f, t) == f
  {
    hide Following.Slew;
    AfterJumps.NoGap(f, t);
    AfterJumps.StraightLineAt(f, t);
  }

  /** A report in line with the estimate, `gain` beats behind the last by the follower's reckoning. */
  lemma Inlier(f: Following.State, sample: real, phase: real, err: real, gain: real, sqrt: real -> real)
    requires Following.Valid(f) && f.lock == Following.Track && !f.resyncRequested
    requires f.lastPhaseObservation.Some? && f.lastPhaseObservation.value < sample
    requires Following.GainSpacing(f, sample) == Following.Span(gain)
    requires err == Following.Wrap(phase - f.estBeat, 1.0)
    requires AbsR(err) <= Following.Threshold(f, 1.0)
    ensures gain >= 0.0
    ensures var seen := f.(lastPhaseObservation := Some(sample),
                           phaseError := Following.Wrap(phase - f.Output().BeatAtSample(sample), 1.0),
                           meanSpacing := Following.NoteSpacing(f, sample).meanSpacing, locked := true, jump := None);
            Following.ObservePhase(f, sample, phase, 1.0, sqrt)
            == Following.Update(seen, err, Following.Span(gain), sqrt)
  {
    hide Following.State.EstRate, Following.Wrap, Timeline.BeatAtSample, Following.Threshold, Following.Update,
         Following.RatesOk, Following.RawSpacing, Following.GainSpacing;
    Following.SpacingPositive(f, sample);
    var ours := f.Output().BeatAtSample(sample);
    var off := Following.Wrap(phase - ours, 1.0);
    var f1 := f.(lastPhaseObservation := Some(sample), phaseError := off,
                 meanSpacing := Following.NoteSpacing(f, sample).meanSpacing);
    FollowerJumps.NoteKeeps(f, sample);
    TracksOn(f1, sample, ours + off, off, err, Following.Threshold(f, 1.0), gain, sqrt);
  }

  lemma TracksOn(f: Following.State, sample: real, beat: real, outErr: real, err: real, threshold: real, gain: real,
                 sqrt: real -> real)
    requires f.sampleRate > 0.0 && f.lock == Following.Track && !f.resyncRequested
    requires AbsR(err) <= threshold && gain >= 0.0
    ensures Following.PhaseStep(f, sample, beat, outErr, err, threshold, Following.Span(gain), 1.0, sqrt)
            == Following.Update(f.(locked := true, jump := None), err, Following.Span(gain), sqrt)
  {
    hide Following.Update;
  }

  // ---- A report ----

  /** A report at `sample` of the beat phase and the tempo. */
  function Report(sample: real, phase: real, bpm: real): FollowerRuns.Op
  {
    FollowerRuns.Observe(Observation(Finite(sample), Beat(Finite(phase)), Some(Finite(bpm))), Finite(sample))
  }

  /** What a report comes to: the estimate carried on, the phase taken, the output steered. */
  lemma ReportIs(f: Following.State, sample: real, phase: real, sqrt: real -> real)
    requires Following.Valid(f) && (f.lastObservation.Some? ==> f.lastObservation.value < sample)
    ensures var f1 := f.(tempoReported := true, tempoKnown := true, estBeat := f.EstBeatAt(sample), estSample := sample,
                         lastObservation := Some(sample));
            && Following.Valid(f1) && (f1.lastPhaseObservation.Some? ==> f1.lastPhaseObservation.value < sample)
            && Following.Valid(Following.ObservePhase(f1, sample, phase, 1.0, sqrt))
            && FollowerRuns.After(f, Report(sample, phase, f.bpm), sqrt)
               == Following.Steered(Following.ObservePhase(f1, sample, phase, 1.0, sqrt), sample)
  {
    TakenHere(f, sample);
    FollowerRuns.PositiveRate(f);
    hide Following.State.EstRate, Following.Carried, Following.ObservePhase, Following.Steered, Following.Valid;
    CarriedOn(f, sample, phase, 1.0);
    Following.CarriedValid(f, sample, Some((phase, 1.0)), Some(f.bpm));
    FollowerRuns.CarriedTime(f, sample, Some((phase, 1.0)), Some(f.bpm));
    var f1 := f.(tempoReported := true, tempoKnown := true, estBeat := f.EstBeatAt(sample), estSample := sample,
                 lastObservation := Some(sample));
    Following.ObservePhaseValid(f1, sample, phase, 1.0, sqrt);
  }

  lemma TakenHere(f: Following.State, sample: real)
    requires Following.Valid(f) && (f.lastObservation.Some? ==> f.lastObservation.value < sample)
    ensures Following.Taken(f, sample, sample) == Some(f)
  {
  }

  // ---- A tick behind a report ----

  /** Planning again at the same position changes nothing. */
  lemma SteeredTwice(f: Following.State, t: real)
    requires Following.Valid(f)
    ensures Following.Valid(Following.Steered(f, t))
    ensures Following.Steered(Following.Steered(f, t), t) == Following.Steered(f, t)
  {
    Following.SteeredValid(f, t);
    AfterJumps.SteeredGap(f, t);
    var f1 := Following.Steered(f, t);
    Following.SameEstRate(f, f1);
    FollowerRuns.GapSame(f, t);
    FollowerRuns.SameDeadband(f, t);
    Following.SlewEndAfter(f, t);
    Following.AnchorBeat(f1, t);
    hide Following.State.EstRate, Following.Slew, Following.SlewTime, Following.Gap, Following.Excess,
         Timeline.BeatAtSample, Following.Deadband;
  }

  /** A tick right behind a report changes nothing. */
  lemma ReportTicks(f: Following.State, sample: real, phase: real, sqrt: real -> real)
    requires Following.Valid(f) && (f.lastObservation.Some? ==> f.lastObservation.value < sample)
    requires FollowerRuns.After(f, Report(sample, phase, f.bpm), sqrt).lastObservation == Some(sample)
    ensures var f' := FollowerRuns.After(f, Report(sample, phase, f.bpm), sqrt);
            && Following.Valid(f') && FollowerRuns.After(f', FollowerRuns.Advance(Finite(sample)), sqrt) == f'
  {
    FollowerRuns.PositiveRate(f);
    hide Following.State.EstRate, Following.Steered, Following.ObservePhase, Following.Valid, Timeline.BeatAtSample,
         Following.State.EstBeatAt, FollowerRuns.After;
    ReportIs(f, sample, phase, sqrt);
    var f1 := f.(tempoReported := true, tempoKnown := true, estBeat := f.EstBeatAt(sample), estSample := sample,
                 lastObservation := Some(sample));
    SteeredTwice(Following.ObservePhase(f1, sample, phase, 1.0, sqrt), sample);
    TickIs(FollowerRuns.After(f, Report(sample, phase, f.bpm), sqrt), sample, sqrt);
  }

  lemma TickIs(f: Following.State, t: real, sqrt: real -> real)
    requires Following.Valid(f) && f.lastObservation == Some(t)
    ensures FollowerRuns.After(f, FollowerRuns.Advance(Finite(t)), sqrt) == Following.Steered(f, t)
  {
    hide Following.Steered;
  }

  // ---- A new follower's first report ----

  /** Before its first report, straight on from beat `beat` at `t`. */
  ghost predicate Waiting(f: Following.State, t: real, beat: real)
  {
    && OnLine(f, t, beat) && f.lock == Following.Acquire && f.acquired == 0
    && f.lastObservation == None && f.lastPhaseObservation == None
  }

  /** Tracking since its one report at `t`, on the estimate. */
  ghost predicate Locked(f: Following.State, t: real, beat: real)
  {
    && OnLine(f, t, beat) && f.lock == Following.Track && f.locked && f.updates == 0 && f.tempoReported
    && f.lastObservation == Some(t) && f.lastPhaseObservation == Some(t)
  }

  /** Its output and its estimate run through `beat` at `t`. */
  ghost predicate OnLine(f: Following.State, t: real, beat: real)
  {
    && Following.Valid(f) && AfterJumps.OnEstimate(f) && f.anchorSample == t == f.slewEnd && f.anchorBeat == beat
    && f.precision == Following.Exact && f.drift == 0.0 && f.meanSpacing == None && f.jump == None
    && !f.resyncRequested && !f.discontinuity
  }

  /** A tick where the output is anchored changes nothing. */
  lemma TicksOn(f: Following.State, t: real, beat: real, sqrt: real -> real)
    requires OnLine(f, t, beat) && (f.lastObservation == None || f.lastObservation == Some(t))
    ensures FollowerRuns.After(f, FollowerRuns.Advance(Finite(t)), sqrt) == f
  {
    SteeredOn(f, t);
    FollowerRuns.PositiveRate(f);
    hide Following.Valid, Following.Steered, AfterJumps.OnEstimate;
  }

  /** A first report less than half a beat off makes it jump there. */
  lemma SnapsTo(f: Following.State, start: real, from: real, t: real, phase: real, sqrt: real -> real)
    requires Waiting(f, start, from) && -0.5 <= phase - f.Output().BeatAtSample(t) < 0.5
    ensures var f' := FollowerRuns.After(f, Report(t, phase, f.bpm), sqrt);
            && f'.discontinuity && Locked(f'.(discontinuity := false), t, phase)
            && f'.sampleRate == f.sampleRate && f'.bpm == f.bpm
  {
    FollowerRuns.PositiveRate(f);
    hide Following.Valid, Following.ObservePhase, Following.State.EstRate, FollowerRuns.After, Timeline.BeatAtSample,
         Following.Steered, Following.State.EstBeatAt;
    ReportIs(f, t, phase, sqrt);
    var f1 := f.(tempoReported := true, tempoKnown := true, estBeat := f.EstBeatAt(t), estSample := t,
                 lastObservation := Some(t));
    Following.SameEstRate(f, f1);
    Following.SameOutput(f, f1, t);
    FirstPhase(f1, t, phase, sqrt);
    var f2 := Following.ObservePhase(f1, t, phase, 1.0, sqrt);
    Following.SameEstRate(f1, f2);
    SteeredOn(f2, t);
    FollowerRuns.AfterValid(f2, FollowerRuns.TakeDiscontinuity, sqrt);
    Taken(f2, sqrt);
    var f3 := f2.(discontinuity := false);
    Following.SameEstRate(f2, f3);
  }

  /** Where output and estimate are later on. */
  lemma OnLineAt(f: Following.State, start: real, from: real, t: real)
    requires OnLine(f, start, from)
    ensures f.sampleRate > 0.0
    ensures var beat := from + (t - start) * f.EstRate(); f.EstBeatAt(t) == beat == f.Output().BeatAtSample(t)
  {
    hide Following.State.EstRate;
    FollowerRuns.PositiveRate(f);
    AfterJumps.StraightLineAt(f, t);
  }

  // ---- A report an Exact follower slews after ----

  /** Tracking, nothing out of line, since a report at `t`. */
  ghost predicate Tracking(f: Following.State, t: real)
  {
    && Following.Valid(f) && f.precision == Following.Exact && f.lock == Following.Track && f.locked
    && f.tempoReported && !f.resyncRequested && !f.discontinuity && f.jump == None
    && f.lastObservation == f.lastPhaseObservation == Some(t)
  }

  /** A residual of `err`, `gain` beats behind the last, moves the estimate by `step` and makes the drift
      `drift`. */
  predicate Corrects(f: Following.State, err: real, gain: real, step: real, drift: real, sqrt: real -> real)
    requires gain > 0.0
  {
    var fade := gain / (gain + 0.1);
    var slope := err / MaxR(gain, Following.MIN_UPDATE_BEATS);
    && step == Following.Step(fade, f.updates + 1, err)
    && drift == Clamp(f.drift + Following.Gain(1.0, sqrt(1.0 - fade), slope), -0.01, 0.01)
  }

  lemma UpdatedBy(f: Following.State, err: real, gain: real, step: real, drift: real, sqrt: real -> real)
    requires f.precision == Following.Exact && f.tempoReported && gain > 0.0
    requires Corrects(f, err, gain, step, drift, sqrt)
    ensures Following.Update(f, err, Following.Span(gain), sqrt)
            == f.(updates := f.updates + 1, estBeat := f.estBeat + step, drift := drift)
  {
    hide Following.Step, Following.Gain;
    assert Following.Fade(Following.Span(gain), 0.1) == gain / (gain + 0.1);
  }

  /** The spacing of the first two reports. */
  lemma SpacingIs(f: Following.State, t: real, spacing: real)
    requires f.sampleRate > 0.0 && f.lastPhaseObservation.Some? && f.meanSpacing == None
    requires (t - f.lastPhaseObservation.value) * f.EstRate() == spacing
    ensures Following.GainSpacing(f, t) == Following.Span(spacing)
    ensures Following.NoteSpacing(f, t) == f.(meanSpacing := Some(spacing))
  {
    hide Following.State.EstRate;
  }

  lemma GapIs(f: Following.State, t: real, gap: real)
    requires f.sampleRate > 0.0 && f.estSample == t && f.estBeat == f.Output().BeatAtSample(t) + gap
    ensures Following.Gap(f, t) == gap
  {
    hide Timeline.BeatAtSample, Following.State.EstRate;
    assert (t - f.estSample) * f.EstRate() == 0.0;
  }

  /** The slew after a gap of 0.005 beats or more. */
  function FullSlew(gap: real): real { if gap > 0.0 then 0.05 else -0.05 }

  lemma SteeredBy(f: Following.State, t: real, gap: real)
    requires Following.Valid(f) && f.precision == Following.Exact && f.lock == Following.Track && f.locked
    requires Following.Gap(f, t) == gap && AbsR(gap) >= 0.005
    ensures f.EstRate() > 0.0
    ensures Following.Steered(f, t)
            == f.(anchorSample := t, anchorBeat := f.Output().BeatAtSample(t), rate := f.EstRate(),
                  slewRate := f.EstRate() * (1.0 + FullSlew(gap)), slewEnd := t + gap / (f.EstRate() * FullSlew(gap)))
  {
    hide Following.State.EstRate, Following.Gap, Timeline.BeatAtSample;
    Following.EstRatePositive(f);
    assert Following.Deadband(f) == 0.0;
    assert Following.Excess(gap, 0.0) == gap;
    SaturatedSlew(gap);
  }

  lemma SaturatedSlew(gap: real)
    requires AbsR(gap) >= 0.005
    ensures Following.SlewFor(gap, Following.TuningOf(Following.Exact)) == FullSlew(gap)
  {
  }

  /** The follower with an inlier taken, before it steers. */
  function Taking(f: Following.State, t: real, phase: real, step: real, drift: real): Following.State
    requires f.sampleRate > 0.0
  {
    f.(tempoKnown := true, lastObservation := Some(t), lastPhaseObservation := Some(t), estSample := t,
       phaseError := Following.Wrap(phase - f.Output().BeatAtSample(t), 1.0),
       meanSpacing := Following.NoteSpacing(f, t).meanSpacing, updates := f.updates + 1,
       estBeat := f.EstBeatAt(t) + step, drift := drift)
  }

  /** A report that is no outlier corrects the estimate, and the output is steered from where it is. */
  lemma InlierLands(f: Following.State, since: real, t: real, phase: real, err: real, gain: real, step: real,
                    drift: real, sqrt: real -> real)
    requires Tracking(f, since) && since < t && Following.GainSpacing(f, t) == Following.Span(gain) && gain > 0.0
    requires err == Following.Wrap(phase - f.EstBeatAt(t), 1.0) && AbsR(err) <= Following.Threshold(f, 1.0)
    requires Corrects(f, err, gain, step, drift, sqrt)
    ensures f.sampleRate > 0.0 && Tracking(Taking(f, t, phase, step, drift), t)
    ensures FollowerRuns.After(f, Report(t, phase, f.bpm), sqrt)
            == Following.Steered(Taking(f, t, phase, step, drift), t)
  {
    FollowerRuns.PositiveRate(f);
    hide Following.Valid, Following.ObservePhase, Following.Steered, Following.State.EstRate, FollowerRuns.After,
         Timeline.BeatAtSample, Following.State.EstBeatAt, Following.Threshold, Following.NoteSpacing, AbsR,
         Following.GainSpacing, Corrects, Following.Wrap, Report, Following.State.Output;
    ReportIs(f, t, phase, sqrt);
    var f1 := f.(tempoReported := true, tempoKnown := true, estBeat := f.EstBeatAt(t), estSample := t,
                 lastObservation := Some(t));
    InlierTaken(f, f1, t, phase, err, gain, step, drift, sqrt);
    hide Taking;
    TakingTracks(f, since, t, phase, step, drift);
  }

  lemma TakingTracks(f: Following.State, since: real, t: real, phase: real, step: real, drift: real)
    requires Tracking(f, since) && f.sampleRate > 0.0 && Following.Valid(Taking(f, t, phase, step, drift))
    ensures Tracking(Taking(f, t, phase, step, drift), t)
  {
    hide Following.Valid, Following.State.EstRate, Timeline.BeatAtSample, Following.NoteSpacing, Following.Wrap;
  }

  lemma InlierTaken(f: Following.State, f1: Following.State, t: real, phase: real, err: real, gain: real, step: real,
                    drift: real, sqrt: real -> real)
    requires f.sampleRate > 0.0 && f.precision == Following.Exact && f.lock == Following.Track && f.locked
    requires f.tempoReported && !f.resyncRequested && f.jump == None
    requires f1 == f.(tempoReported := true, tempoKnown := true, estBeat := f.EstBeatAt(t), estSample := t,
                      lastObservation := Some(t))
    requires Following.Valid(f1) && f1.lastPhaseObservation.Some? && f1.lastPhaseObservation.value < t
    requires Following.GainSpacing(f, t) == Following.Span(gain) && gain > 0.0
    requires err == Following.Wrap(phase - f.EstBeatAt(t), 1.0) && AbsR(err) <= Following.Threshold(f, 1.0)
    requires Corrects(f, err, gain, step, drift, sqrt)
    ensures Following.ObservePhase(f1, t, phase, 1.0, sqrt) == Taking(f, t, phase, step, drift)
  {
    hide Following.Valid, Following.ObservePhase, Following.State.EstRate, Timeline.BeatAtSample, Following.Threshold,
         Following.State.EstBeatAt, Following.NoteSpacing, AbsR, Following.GainSpacing, Corrects, Following.Wrap;
    SameLineAt(f, f1, t);
    SameMeasures(f, f1, t);
    SameCorrects(f, f1, err, gain, step, drift, sqrt);
    InlierMoves(f1, t, phase, err, gain, step, drift, sqrt);
  }

  lemma SameLineAt(f: Following.State, f': Following.State, t: real)
    requires f' == f.(tempoReported := true, tempoKnown := true, estBeat := f'.estBeat, estSample := f'.estSample,
                      lastObservation := f'.lastObservation)
    ensures f'.Output().BeatAtSample(t) == f.Output().BeatAtSample(t)
  {
    hide Timeline.BeatAtSample;
  }

  /** If that leaves the estimate 0.005 beats or more off the output, the output slews after it by 5 %,
      and does not jump. */
  lemma InlierSlews(f: Following.State, since: real, t: real, phase: real, err: real, gain: real, step: real,
                    drift: real, gap: real, sqrt: real -> real)
    requires Tracking(f, since) && since < t && Following.GainSpacing(f, t) == Following.Span(gain) && gain > 0.0
    requires err == Following.Wrap(phase - f.EstBeatAt(t), 1.0) && AbsR(err) <= Following.Threshold(f, 1.0)
    requires Corrects(f, err, gain, step, drift, sqrt)
    requires gap == f.EstBeatAt(t) + step - f.Output().BeatAtSample(t) && AbsR(gap) >= 0.005
    ensures var f', ours := FollowerRuns.After(f, Report(t, phase, f.bpm), sqrt), f.Output().BeatAtSample(t);
            && Tracking(f', t) && f'.updates == f.updates + 1 && f'.drift == drift && f'.estSample == t
            && f'.estBeat == f.EstBeatAt(t) + step && f'.meanSpacing == Following.NoteSpacing(f, t).meanSpacing
            && f'.sampleRate == f.sampleRate && f'.bpm == f.bpm && f'.EstRate() > 0.0
            && f'.Output() == Timeline(f.sampleRate, f.bpm, t, ours, f'.EstRate() * (1.0 + FullSlew(gap)),
                                       t + gap / (f'.EstRate() * FullSlew(gap)), f'.EstRate())
  {
    hide Following.Valid, Following.ObservePhase, Following.Steered, Following.State.EstRate, FollowerRuns.After,
         Timeline.BeatAtSample, Following.State.EstBeatAt, Following.Threshold, Following.NoteSpacing,
         Following.GainSpacing, Corrects, Following.Wrap, FullSlew;
    InlierLands(f, since, t, phase, err, gain, step, drift, sqrt);
    Following.SameOutput(f, Taking(f, t, phase, step, drift), t);
    SlewsOn(Taking(f, t, phase, step, drift), t, gap);
  }

  lemma SlewsOn(f: Following.State, t: real, gap: real)
    requires Tracking(f, t) && f.estSample == t && gap == f.estBeat - f.Output().BeatAtSample(t) && AbsR(gap) >= 0.005
    ensures var f', ours := Following.Steered(f, t), f.Output().BeatAtSample(t);
            && Tracking(f', t) && f'.updates == f.updates && f'.drift == f.drift && f'.estSample == t
            && f'.estBeat == f.estBeat && f'.meanSpacing == f.meanSpacing && f'.sampleRate == f.sampleRate
            && f'.bpm == f.bpm && f'.EstRate() > 0.0
            && f'.Output() == Timeline(f.sampleRate, f.bpm, t, ours, f'.EstRate() * (1.0 + FullSlew(gap)),
                                       t + gap / (f'.EstRate() * FullSlew(gap)), f'.EstRate())
  {
    FollowerRuns.PositiveRate(f);
    Following.SteeredValid(f, t);
    GapIs(f, t, gap);
    SteeredBy(f, t, gap);
    Following.SameEstRate(f, Following.Steered(f, t));
    hide Following.Valid, Following.Steered, Following.State.EstRate, Timeline.BeatAtSample, FullSlew;
  }

  /** What such a report makes of the estimate. */
  lemma InlierMoves(f: Following.State, t: real, phase: real, err: real, gain: real, step: real, drift: real,
                    sqrt: real -> real)
    requires Following.Valid(f) && f.precision == Following.Exact && f.lock == Following.Track && !f.resyncRequested
    requires f.tempoReported && f.lastPhaseObservation.Some? && f.lastPhaseObservation.value < t
    requires f.sampleRate > 0.0 && Following.GainSpacing(f, t) == Following.Span(gain) && gain > 0.0
    requires err == Following.Wrap(phase - f.estBeat, 1.0) && AbsR(err) <= Following.Threshold(f, 1.0)
    requires Corrects(f, err, gain, step, drift, sqrt)
    ensures Following.ObservePhase(f, t, phase, 1.0, sqrt)
            == f.(lastPhaseObservation := Some(t), meanSpacing := Following.NoteSpacing(f, t).meanSpacing,
                  phaseError := Following.Wrap(phase - f.Output().BeatAtSample(t), 1.0), locked := true, jump := None,
                  updates := f.updates + 1, estBeat := f.estBeat + step, drift := drift)
  {
    hide Following.Valid, Following.ObservePhase, Following.State.EstRate, Timeline.BeatAtSample, Following.Update,
         Following.Threshold, Following.NoteSpacing, Following.GainSpacing, Corrects, Following.Wrap;
    Inlier(f, t, phase, err, gain, sqrt);
    var f2 := f.(lastPhaseObservation := Some(t), meanSpacing := Following.NoteSpacing(f, t).meanSpacing,
                 phaseError := Following.Wrap(phase - f.Output().BeatAtSample(t), 1.0), locked := true, jump := None);
    SameCorrects(f, f2, err, gain, step, drift, sqrt);
    UpdatedBy(f2, err, gain, step, drift, sqrt);
  }

  /** The residual beyond which a report of a beat phase is an outlier. */
  function OutlierBound(jumpS: real, estRate: real, sampleRate: real): real
  {
    MinR(jumpS * estRate * sampleRate, 0.45)
  }

  lemma BoundIs(f: Following.State, modulus: real)
    requires f.sampleRate > 0.0 && modulus == 1.0
    ensures Following.Threshold(f, modulus) == OutlierBound(f.Tuned().jumpS, f.EstRate(), f.sampleRate)
  {
    hide Following.TuningOf;
  }

  lemma SameMeasures(f: Following.State, f1: Following.State, t: real)
    requires f.sampleRate > 0.0
    requires f1 == f.(tempoReported := true, tempoKnown := true, estBeat := f1.estBeat, estSample := f1.estSample,
                      lastObservation := f1.lastObservation)
    ensures Following.Threshold(f1, 1.0) == Following.Threshold(f, 1.0)
    ensures Following.GainSpacing(f1, t) == Following.GainSpacing(f, t)
    ensures Following.NoteSpacing(f1, t).meanSpacing == Following.NoteSpacing(f, t).meanSpacing
  {
    Following.SameEstRate(f, f1);
    BoundIs(f, 1.0);
    BoundIs(f1, 1.0);
    hide Following.State.EstRate, Following.Threshold, OutlierBound;
  }

  lemma SameCorrects(f: Following.State, f': Following.State, err: real, gain: real, step: real, drift: real,
                     sqrt: real -> real)
    requires gain > 0.0 && f'.updates == f.updates && f'.drift == f.drift && Corrects(f, err, gain, step, drift, sqrt)
    ensures Corrects(f', err, gain, step, drift, sqrt)
  {
  }

  // ---- A report from before ----

  /** A first report in line with the output makes an Exact follower track. */
  lemma FirstTracks(f: Following.State, sample: real, sqrt: real -> real)
    requires Following.Valid(f) && f.precision == Following.Exact && f.lock == Following.Acquire && f.acquired == 0
    requires !f.resyncRequested && f.lastPhaseObservation == None && f.lastObservation == None
    ensures var f' := FollowerRuns.After(f, Report(sample, f.Output().BeatAtSample(sample), f.bpm), sqrt);
            && Following.Valid(f') && f'.lock == Following.Track && !f'.resyncRequested
            && f'.lastObservation == Some(sample) && f'.sampleRate == f.sampleRate && f'.precision == Following.Exact
  {
    FollowerRuns.PositiveRate(f);
    hide Following.Valid, Following.ObservePhase, Following.State.EstRate, FollowerRuns.After, Timeline.BeatAtSample,
         Following.Steered, Following.State.EstBeatAt;
    var phase := f.Output().BeatAtSample(sample);
    ReportIs(f, sample, phase, sqrt);
    FollowerRuns.AfterValid(f, Report(sample, phase, f.bpm), sqrt);
    var f1 := f.(tempoReported := true, tempoKnown := true, estBeat := f.EstBeatAt(sample), estSample := sample,
                 lastObservation := Some(sample));
    Following.SameOutput(f, f1, sample);
    FirstPhase(f1, sample, phase, sqrt);
    FollowerRuns.SteeredLock(Following.ObservePhase(f1, sample, phase, 1.0, sqrt), sample);
    SteeredKeepsRequest(Following.ObservePhase(f1, sample, phase, 1.0, sqrt), sample);
  }

  lemma SteeredKeepsRequest(f: Following.State, t: real)
    requires Following.Valid(f)
    ensures Following.Steered(f, t).resyncRequested == f.resyncRequested
  {
  }

  /** A new follower, before its first report. */
  lemma NewAcquires(bpm: real)
    ensures var f := Following.New(48000.0, Finite(bpm), Following.Exact);
            && Following.Valid(f) && f.sampleRate == 48000.0 && f.precision == Following.Exact
            && f.lock == Following.Acquire && f.acquired == 0 && !f.resyncRequested && f.lastPhaseObservation == None
            && f.lastObservation == None
  {
    hide Following.Valid;
    FollowerRuns.NewValid(48000.0, Finite(bpm), Following.Exact);
  }

  /** An Exact follower tracks; a report stamped 200000 samples before its newest one, with no outlier
      before it, makes it jump. */
  lemma WentBackJumps(bpm: real, sqrt: real -> real)
    ensures var f := Following.New(48000.0, Finite(bpm), Following.Exact);
            var first := Report(200000.0, f.Output().BeatAtSample(200000.0), f.bpm);
            && Following.Valid(f)
            && var s, op := FollowerRuns.Run(f, [first, FollowerRuns.TakeDiscontinuity], sqrt), Report(0.0, 0.0, f.bpm);
               && s.lock == Following.Track && !s.resyncRequested && !s.discontinuity
               && FollowerJumps.WentBack(s, 0.0) && FollowerRuns.After(s, op, sqrt).discontinuity
  {
    NewAcquires(bpm);
    hide FollowerRuns.After, FollowerRuns.Run, Following.New, FollowerJumps.History, FollowerJumps.TakesPhase,
         FollowerJumps.WentBack, Timeline.BeatAtSample, Following.Valid, FollowerJumps.NewestRun;
    var f := Following.New(48000.0, Finite(bpm), Following.Exact);
    var first, take := Report(200000.0, f.Output().BeatAtSample(200000.0), f.bpm), FollowerRuns.TakeDiscontinuity;
    var op := Report(0.0, 0.0, f.bpm);
    FirstTracks(f, 200000.0, sqrt);
    RunTwo(f, first, take, sqrt);
    var f' := FollowerRuns.After(f, first, sqrt);
    Taken(f', sqrt);
    var s := FollowerRuns.Run(f, [first, take], sqrt);
    BackBySamples(s, f.bpm);
    FollowerJumps.JumpsAreHeld(48000.0, Finite(bpm), Following.Exact, [first, take], op, sqrt);
  }

  lemma Taken(f: Following.State, sqrt: real -> real)
    requires Following.Valid(f)
    ensures FollowerRuns.After(f, FollowerRuns.TakeDiscontinuity, sqrt) == f.(discontinuity := false)
  {
  }

  lemma BackBySamples(s: Following.State, bpm: real)
    requires s.sampleRate == 48000.0 && s.lastObservation == Some(200000.0)
    ensures FollowerJumps.TakesPhase(s, Report(0.0, 0.0, bpm)) && FollowerJumps.WentBack(s, 0.0)
  {
  }

  lemma RunTwo(f: Following.State, a: FollowerRuns.Op, b: FollowerRuns.Op, sqrt: real -> real)
    requires Following.Valid(f)
    ensures Following.Valid(FollowerRuns.After(f, a, sqrt))
    ensures FollowerRuns.Run(f, [a, b], sqrt) == FollowerRuns.After(FollowerRuns.After(f, a, sqrt), b, sqrt)
  {
    hide FollowerRuns.After;
    FollowerRuns.AfterValid(f, a, sqrt);
    var f' := FollowerRuns.After(f, a, sqrt);
    FollowerRuns.AfterValid(f', b, sqrt);
    assert [a, b][1..] == [b] && [b][1..] == [];
    assert FollowerRuns.Run(f', [b], sqrt) == FollowerRuns.After(f', b, sqrt);
  }
}
