/** What the follower learns from a report: which reports it takes, how far each one moves the estimate, the
    drift and the tempo, and where a jump lands. */
module Estimating {
  import opened Numbers
  import opened Clock
  import opened Observing
  import opened Following
  import opened FollowerRuns
  import opened FollowerJumps
  import opened AfterJumps

  // ---- Which reports are taken ----

  /** A stamp from up to two seconds ago, or half a second ahead, that is news: newer than the newest one
      taken, or more than two seconds older, as after our own clock went back. */
  predicate IsNews(s: State, sample: real, now: real)
  {
    && now <= sample + 2.0 * s.sampleRate && sample <= now + 0.5 * s.sampleRate
    && (s.lastObservation.None? || sample > s.lastObservation.value
        || s.lastObservation.value > sample + 2.0 * s.sampleRate)
  }

  lemma ObservedTime(s: State, obs: Observation, now: real, sqrt: real -> real)
    requires Valid(s) && obs.sample.Finite? && Taken(s, obs.sample.value, now).Some?
    ensures Observed(s, obs, Finite(now), sqrt).lastObservation == Some(obs.sample.value)
  {
    hide Valid, ObservePhase, Steered, Carried;
    JudgedValid(s, obs, now);
    var s1, sample, target := Judged(s, obs, now), obs.sample.value, Target(obs.phase);
    TakenValid(s, sample, now);
    CarriedValid(Taken(s, sample, now).value, sample, target, ReportedTempo(obs.bpm));
    if target.Some? {
      ObservePhaseValid(s1, sample, target.value.0, target.value.1, sqrt);
      PhaseTime(s1, sample, target.value.0, target.value.1, sqrt);
      SteeredTime(ObservePhase(s1, sample, target.value.0, target.value.1, sqrt), now);
    } else {
      SteeredTime(Alive(s1), now);
    }
  }

  lemma PhaseTime(s: State, sample: real, phase: real, modulus: real, sqrt: real -> real)
    requires Valid(s) && modulus > 0.0
    requires s.lastPhaseObservation.Some? ==> s.lastPhaseObservation.value < sample
    ensures ObservePhase(s, sample, phase, modulus, sqrt).lastObservation == s.lastObservation
  {
    hide RatesOk, Threshold, Wrap, TuningOf, State.EstRate, Timeline.BeatAtSample, BeginAcquire, FinishAcquire, Update,
         Outlying, GainSpacing, NoteSpacing, AbsR;
    PositiveRate(s);
    SpacingPositive(s, sample);
    NoteKeeps(s, sample);
    var ours := s.Output().BeatAtSample(sample);
    var outErr, estErr := Wrap(phase - ours, modulus), Wrap(phase - s.estBeat, modulus);
    var threshold, spacing, needed := Threshold(s, modulus), GainSpacing(s, sample), s.Tuned().acquireObs;
    var s1 := NoteSpacing(s, sample).(lastPhaseObservation := Some(sample), phaseError := outErr);
    BeginTime(s1.(resyncRequested := false), sample, ours + outErr, needed);
    BeginTime(s1, sample, ours + outErr, needed);
    BeginTime(s1.(locked := false), sample, ours + outErr, needed);
    UpdateTime(s1, estErr, spacing, sqrt);
    FinishTime(Update(s1, estErr, spacing, sqrt).(acquired := Update(s1, estErr, spacing, sqrt).acquired + 1), needed);
    UpdateTime(s1.(locked := true, lock := Track), estErr, spacing, sqrt);
    UpdateTime(s1.(locked := true, jump := None), estErr, spacing, sqrt);
    OutlyingTime(s1.(locked := true), sample, estErr, modulus, threshold);
  }

  lemma FinishTime(s: State, needed: nat)
    requires s.sampleRate > 0.0
    ensures FinishAcquire(s, needed).lastObservation == s.lastObservation
  {
  }

  lemma BeginTime(s: State, sample: real, beat: real, needed: nat)
    requires s.sampleRate > 0.0
    ensures BeginAcquire(s, sample, beat, needed).lastObservation == s.lastObservation
  {
    hide State.EstRate;
  }

  lemma UpdateTime(s: State, err: real, spacing: Spacing, sqrt: real -> real)
    requires spacing.Span? ==> spacing.beats >= 0.0
    ensures Update(s, err, spacing, sqrt).lastObservation == s.lastObservation
    ensures s.tempoReported ==> Update(s, err, spacing, sqrt).bpm == s.bpm
  {
    hide Fade, Gain, Step;
  }

  lemma OutlyingTime(s: State, sample: real, err: real, modulus: real, threshold: real)
    requires s.sampleRate > 0.0 && modulus > 0.0
    ensures Outlying(s, sample, err, modulus, threshold).lastObservation == s.lastObservation
  {
    hide State.EstRate, JumpAfter, TuningOf;
  }

  lemma SteeredTime(s: State, t: real)
    requires Valid(s)
    ensures Steered(s, t).lastObservation == s.lastObservation
  {
    hide RatesOk;
  }

  /** A report is taken exactly if its stamp is news; any other leaves the follower as it was. */
  lemma NewsIsTaken(s: State, obs: Observation, now: Float, sqrt: real -> real)
    requires Valid(s) && (obs.sample.Finite? ==> s.lastObservation != Some(obs.sample.value))
    ensures var s', news := After(s, Observe(obs, now), sqrt),
                            obs.sample.Finite? && now.Finite? && IsNews(s, obs.sample.value, now.value);
            && (news <==> obs.sample.Finite? && s'.lastObservation == Some(obs.sample.value))
            && (!news ==> s' == s)
  {
    hide Valid, ObservePhase, Steered, Carried, Target, ReportedTempo;
    if obs.sample.Finite? && now.Finite? && Taken(s, obs.sample.value, now.value).Some? {
      ObservedTime(s, obs, now.value, sqrt);
    }
  }

  // ---- The estimate ----

  /** One report moves the estimate towards it, never past it, and no less than a running mean would;
      it counts as one more. */
  lemma EstimateMoves(s: State, err: real, spacing: Spacing, sqrt: real -> real)
    requires spacing.Span? ==> spacing.beats >= 0.0
    ensures var s' := Update(s, err, spacing, sqrt);
            var moved := s'.estBeat - s.estBeat;
            && (err >= 0.0 ==> 0.0 <= moved <= err) && (err <= 0.0 ==> err <= moved <= 0.0)
            && s'.updates == s.updates + 1 && s'.estSample == s.estSample
  {
    var fade, n := Fade(spacing, s.Tuned().phaseTau), s.updates + 1;
    FadeBetween(spacing, s.Tuned().phaseTau);
    hide Fade, Gain, TuningOf;
    MeanShare(n);
    var alpha := MaxR(fade, 1.0 / (n + 1) as real);
    ShareOf(alpha, err);
  }

  lemma FadeBetween(spacing: Spacing, tau: real)
    requires tau > 0.0 && (spacing.Span? ==> spacing.beats >= 0.0)
    ensures 0.0 <= Fade(spacing, tau) <= 1.0
    ensures spacing.Span? ==> Fade(spacing, tau) < 1.0
    ensures spacing.Span? && spacing.beats > 0.0 ==> Fade(spacing, tau) > 0.0
  {
    if spacing.Span? {
      var x, d := spacing.beats, spacing.beats + tau;
      DivPos(x, d);
      DivPos(tau, d);
      assert x / d + tau / d == 1.0;
    }
  }

  lemma MeanShare(n: nat)
    ensures 0.0 < 1.0 / (n + 1) as real <= 1.0
  {
  }

  lemma ShareOf(alpha: real, err: real)
    requires 0.0 <= alpha <= 1.0
    ensures err >= 0.0 ==> 0.0 <= alpha * err <= err
    ensures err <= 0.0 ==> err <= alpha * err <= 0.0
  {
    if err >= 0.0 {
      MulAtLeast(err, alpha, 0.0);
      MulAtLeast(err, 1.0, alpha);
    } else {
      MulAtLeast(-err, alpha, 0.0);
      MulAtLeast(-err, 1.0, alpha);
    }
  }

  /** So far the memory holds more than the reports span. */
  predicate IsFew(n: nat, spacing: real, tau: real) { spacing * (n + 1) as real <= tau }

  /** The mean of `n` values of mean `mean` and one more. */
  predicate IsMean(x: real, mean: real, n: real, more: real) { x * (n + 1.0) == mean * n + more }

  /** Of a residual as much as the spacing is of the spacing and the memory together. */
  predicate Moves(moved: real, err: real, spacing: real, tau: real) { moved * (spacing + tau) == err * spacing }

  /** While reports are few for their spacing, the estimate is their mean: the `n + 2` of them count alike.
      Later it forgets: of a residual it keeps the memory's share of the spacing and the memory. */
  lemma MeanThenMemory(s: State, err: real, spacing: real, sqrt: real -> real)
    requires spacing >= 0.0
    ensures var s', n, tau := Update(s, err, Span(spacing), sqrt), s.updates, s.Tuned().phaseTau;
            && (IsFew(n, spacing, tau) ==> IsMean(s'.estBeat, s.estBeat, (n + 1) as real, s.estBeat + err))
            && (!IsFew(n, spacing, tau) ==> Moves(s'.estBeat - s.estBeat, err, spacing, tau))
  {
    var n, tau := s.updates, s.Tuned().phaseTau;
    var m, moved := (n + 1) as real, Step(Fade(Span(spacing), tau), n + 1, err);
    MovesBy(s, err, spacing, sqrt);
    StepMoves(spacing, tau, n, err, moved);
    hide *;
    MeanOfAll(s.estBeat, Update(s, err, Span(spacing), sqrt).estBeat, err, moved, m, spacing, tau);
  }

  lemma MovesBy(s: State, err: real, spacing: real, sqrt: real -> real)
    requires spacing >= 0.0
    ensures Update(s, err, Span(spacing), sqrt).estBeat
            == s.estBeat + Step(Fade(Span(spacing), s.Tuned().phaseTau), s.updates + 1, err)
  {
    hide Gain, Fade, Step;
  }

  lemma StepMoves(spacing: real, tau: real, n: nat, err: real, moved: real)
    requires spacing >= 0.0 && tau > 0.0 && moved == Step(Fade(Span(spacing), tau), n + 1, err)
    ensures IsFew(n, spacing, tau) ==> IsMean(moved, 0.0, (n + 1) as real, err)
    ensures !IsFew(n, spacing, tau) ==> Moves(moved, err, spacing, tau)
  {
    var m := (n + 1) as real;
    Shares(spacing, tau, m);
    Unshare(m + 1.0, err);
    FadeTimes(spacing, spacing + tau, err);
    FadeIs(spacing, tau);
    StepIs(spacing, tau, n, err);
    hide Step, Fade;
    var fade, share := spacing / (spacing + tau), 1.0 / (m + 1.0);
    assert moved == if fade >= share then fade * err else share * err;
  }

  lemma FadeIs(spacing: real, tau: real)
    requires spacing >= 0.0 && tau > 0.0
    ensures Fade(Span(spacing), tau) == spacing / (spacing + tau)
  {
  }

  lemma StepIs(spacing: real, tau: real, n: nat, err: real)
    requires spacing >= 0.0 && tau > 0.0
    ensures var fade, share := spacing / (spacing + tau), 1.0 / ((n + 1) as real + 1.0);
            Step(Fade(Span(spacing), tau), n + 1, err) == if fade >= share then fade * err else share * err
  {
    assert (n + 1 + 1) as real == (n + 1) as real + 1.0;
  }

  lemma MeanOfAll(est: real, est': real, err: real, moved: real, m: real, spacing: real, tau: real)
    requires est' == est + moved
    ensures IsMean(moved, 0.0, m, err) ==> IsMean(est', est, m, est + err)
    ensures Moves(moved, err, spacing, tau) ==> Moves(est' - est, err, spacing, tau)
  {
    hide Moves;
    assert est' - est == moved;
  }

  lemma Unshare(k: real, err: real)
    requires k > 0.0
    ensures 1.0 / k * err * k == err
  {
    DivPos(1.0, k);
    var q := 1.0 / k;
    assert q * err * k == (q * k) * err;
  }

  lemma FadeTimes(x: real, d: real, err: real)
    requires d > 0.0
    ensures x / d * err * d == err * x
  {
    DivPos(x, d);
    var q := x / d;
    assert q * err * d == (q * d) * err;
  }

  lemma Regroup(x: real, y: real, z: real)
    ensures x * (y * z) == (x * y) * z
  {
  }

  /** Which of the two shares is the larger. */
  lemma Shares(spacing: real, tau: real, m: real)
    requires spacing >= 0.0 && tau > 0.0 && m >= 1.0
    ensures spacing * m <= tau ==> spacing / (spacing + tau) <= 1.0 / (m + 1.0)
    ensures spacing * m >= tau ==> spacing / (spacing + tau) >= 1.0 / (m + 1.0)
  {
    var d, k := spacing + tau, m + 1.0;
    var a, b := spacing / d, 1.0 / k;
    DivPos(spacing, d);
    DivPos(1.0, k);
    var dk := d * k;
    MulLess(0.0, d, k);
    Regroup(a, d, k);
    Regroup(b, k, d);
    assert d * k == k * d;
    assert a * dk == spacing * k && b * dk == d;
    assert spacing * k == spacing * m + spacing;
    if spacing * m <= tau && a > b { MulLess(b, a, dk); }
    if spacing * m >= tau && a < b { MulLess(a, b, dk); }
  }

  // ---- Drift and tempo ----

  ghost predicate Roots(sqrt: real -> real) { forall x :: x >= 0.0 ==> sqrt(x) >= 0.0 && sqrt(x) * sqrt(x) == x }

  /** The pull of a residual has its sign. */
  lemma GainSign(gain: real, fade: real, slope: real, sqrt: real -> real)
    requires gain > 0.0 && 0.0 < fade <= 1.0 && Roots(sqrt)
    ensures slope > 0.0 ==> Gain(gain, sqrt(1.0 - fade), slope) > 0.0
    ensures slope < 0.0 ==> Gain(gain, sqrt(1.0 - fade), slope) < 0.0
    ensures slope == 0.0 ==> Gain(gain, sqrt(1.0 - fade), slope) == 0.0
  {
    var theta := sqrt(1.0 - fade);
    BelowOne(theta, fade);
    hide Gain, Roots;
    GainPull(gain, theta, slope);
  }

  lemma GainPull(gain: real, theta: real, slope: real)
    requires gain > 0.0 && theta < 1.0
    ensures slope > 0.0 ==> Gain(gain, theta, slope) > 0.0
    ensures slope < 0.0 ==> Gain(gain, theta, slope) < 0.0
    ensures slope == 0.0 ==> Gain(gain, theta, slope) == 0.0
  {
    hide Gain;
    GainBy(gain, theta, slope, 1.0 - theta);
  }

  lemma GainBy(gain: real, theta: real, slope: real, x: real)
    requires gain > 0.0 && x > 0.0 && x == 1.0 - theta
    ensures slope > 0.0 ==> Gain(gain, theta, slope) > 0.0
    ensures slope < 0.0 ==> Gain(gain, theta, slope) < 0.0
    ensures slope == 0.0 ==> Gain(gain, theta, slope) == 0.0
  {
    hide Gain;
    GainIs(gain, theta, slope, x);
    var square := Square(x);
    MulLess(0.0, gain, square);
    PullSign(gain * square, slope);
  }

  lemma GainIs(gain: real, theta: real, slope: real, x: real)
    requires x == 1.0 - theta
    ensures Gain(gain, theta, slope) == gain * (x * x) * slope
  {
  }

  lemma PullSign(k: real, slope: real)
    requires k > 0.0
    ensures slope > 0.0 ==> k * slope > 0.0
    ensures slope < 0.0 ==> k * slope < 0.0
    ensures slope == 0.0 ==> k * slope == 0.0
  {
    if slope > 0.0 { MulLess(0.0, slope, k); }
    if slope < 0.0 { MulLess(slope, 0.0, k); }
  }

  lemma BelowOne(theta: real, fade: real)
    requires theta >= 0.0 && theta * theta == 1.0 - fade && 0.0 < fade
    ensures theta < 1.0
  {
    if theta >= 1.0 { MulAtLeast(theta, theta, 1.0); }
  }

  function Times(x: real, y: real): real { x * y }

  lemma TimesPositive(x: real, y: real)
    requires x > 0.0 && y > 0.0
    ensures Times(x, y) > 0.0
  {
  }

  lemma Square(x: real) returns (square: real)
    requires x > 0.0
    ensures square == x * x && square > 0.0
  {
    square := Times(x, x);
    TimesPositive(x, x);
  }

  /** A source ahead of the estimate makes it faster, one behind it slower, one on it neither: by way of the
      drift if the source reports its tempo, up to the precision's bound; else by way of the tempo, up to
      its range. */
  lemma LearnsTheSkew(s: State, err: real, spacing: real, sqrt: real -> real)
    requires Valid(s) && spacing > 0.0 && Roots(sqrt)
    ensures var s', max := Update(s, err, Span(spacing), sqrt), s.Tuned().maxDrift;
            && (s.tempoReported ==>
                  && s'.bpm == s.bpm
                  && (err > 0.0 ==> if s.drift < max then s'.drift > s.drift else s'.drift == max)
                  && (err < 0.0 ==> if s.drift > -max then s'.drift < s.drift else s'.drift == -max)
                  && (err == 0.0 ==> s'.drift == s.drift))
            && (!s.tempoReported ==>
                  && s'.drift == s.drift
                  && (err > 0.0 ==> if s.bpm < 400.0 then s'.bpm > s.bpm else s'.bpm == 400.0)
                  && (err < 0.0 ==> if s.bpm > 20.0 then s'.bpm < s.bpm else s'.bpm == 20.0)
                  && (err == 0.0 ==> s'.bpm == s.bpm))
  {
    var fade := Fade(Span(spacing), s.Tuned().phaseTau);
    FadeBetween(Span(spacing), s.Tuned().phaseTau);
    var width := MaxR(spacing, MIN_UPDATE_BEATS);
    SlopeSign(err, width);
    GainSign(s.Tuned().driftGain, fade, err / width, sqrt);
    GainSign(NO_TEMPO_GAIN, fade, err / width, sqrt);
    GainsPositive(s.precision);
    hide Fade, Gain, RatesOk, Roots, Step, TuningOf, Clamp, Slewed;
    var slope := err / width;
    DriftMoves(s.drift, Gain(s.Tuned().driftGain, sqrt(1.0 - fade), slope), s.Tuned().maxDrift);
    TempoMoves(s.bpm, Gain(NO_TEMPO_GAIN, sqrt(1.0 - fade), slope));
  }

  lemma GainsPositive(p: Precision)
    ensures TuningOf(p).driftGain > 0.0
  {
  }

  lemma DriftMoves(drift: real, g: real, max: real)
    requires -max <= drift <= max && max > 0.0
    ensures var d := Clamp(drift + g, -max, max);
            && (g > 0.0 ==> if drift < max then d > drift else d == max)
            && (g < 0.0 ==> if drift > -max then d < drift else d == -max) && (g == 0.0 ==> d == drift)
  {
  }

  lemma TempoMoves(bpm: real, g: real)
    requires MIN_BPM <= bpm <= MAX_BPM
    ensures var b := Clamp(Slewed(bpm, g), MIN_BPM, MAX_BPM);
            && (g > 0.0 ==> if bpm < MAX_BPM then b > bpm else b == MAX_BPM)
            && (g < 0.0 ==> if bpm > MIN_BPM then b < bpm else b == MIN_BPM) && (g == 0.0 ==> b == bpm)
  {
    PullSign(bpm, g);
    assert Slewed(bpm, g) == bpm + bpm * g;
  }

  lemma SlopeSign(err: real, width: real)
    requires width > 0.0
    ensures err > 0.0 ==> err / width > 0.0
    ensures err < 0.0 ==> err / width < 0.0
    ensures err == 0.0 ==> err / width == 0.0
  {
    DivPos(err, width);
    DivPos(-err, width);
    assert -err / width == -(err / width);
  }

  // ---- The spacing the gains use ----

  /** As long as reports come without a gap, how much one counts does not depend on its own stamp; behind a
      gap it counts by that gap. The mean of the spacings follows each by a sixteenth. */
  lemma GainIgnoresOwnStamp(s: State, a: real, b: real, mean: real)
    requires s.sampleRate > 0.0 && s.meanSpacing == Some(mean)
    requires RawSpacing(s, a).Some? && RawSpacing(s, b).Some?
    ensures RawSpacing(s, a).value <= 2.0 * mean && RawSpacing(s, b).value <= 2.0 * mean ==>
              GainSpacing(s, a) == GainSpacing(s, b) == Span(mean)
    ensures RawSpacing(s, a).value > 2.0 * mean ==> GainSpacing(s, a) == RawSpan(s, a)
    ensures NoteSpacing(s, a).meanSpacing.Some?
            && 16.0 * (NoteSpacing(s, a).meanSpacing.value - mean) == RawSpacing(s, a).value - mean
  {
    hide State.EstRate;
  }

  function RawSpan(s: State, sample: real): Spacing
    requires s.sampleRate > 0.0
  {
    if RawSpacing(s, sample).Some? then Span(RawSpacing(s, sample).value) else Unbounded
  }

  // ---- Carrying the estimate to a report ----

  /** A reported tempo is taken over, and the estimate is carried to the report at the mean of the tempo it had
      and the new one: exactly, if the source changed evenly between. Without a tempo, and one known, it
      goes on as it was. */
  lemma CarriedEvenly(s: State, sample: real, target: Option<(real, real)>, reported: Option<real>)
    requires Valid(s) && (target.Some? ==> target.value.1 > 0.0) && (reported.None? ==> s.tempoKnown || target.None?)
    ensures var s' := Carried(s, sample, target, reported);
            && s'.sampleRate > 0.0 && s'.estSample == sample && s'.tempoReported == reported.Some?
            && s'.bpm == (if reported.Some? then reported.value else s.bpm) && s'.drift == s.drift
            && s'.estBeat - s.estBeat == Ramp(s.EstRate(), s'.EstRate(), sample - s.estSample)
            && (s'.tempoKnown <==> s.tempoKnown || reported.Some?)
  {
    hide State.EstRate, RatesOk;
    PositiveRate(s);
    var s' := Carried(s, sample, target, reported);
    SameEstRate(s', s'.(estBeat := s.estBeat));
    var s1 := s.(tempoReported := reported.Some?, tempoKnown := s.tempoKnown || reported.Some?,
                 bpm := if reported.Some? then reported.value else s.bpm);
    SameEstRate(s1, s');
    RampIs(s.EstRate(), s'.EstRate(), sample - s.estSample);
  }

  /** The beats of a clock whose rate goes evenly from `a` to `b` over `t` samples. */
  function Ramp(a: real, b: real, t: real): real { a * t + (b - a) * t / 2.0 }

  lemma RampIs(a: real, b: real, t: real)
    ensures Ramp(a, b, t) == t * (0.5 * (a + b))
  {
    assert (b - a) * t == b * t - a * t;
  }

  /** The first tempo of a source that reports none is measured by its phase: it is the tempo that carries the
      estimate exactly onto the phase reported, by the number of turns nearest to what was expected. */
  lemma MeasuresTempo(s: State, sample: real, phase: real, modulus: real)
    requires Valid(s) && modulus > 0.0 && !s.tempoKnown && TempoFromPhase(s, sample, phase, modulus).Some?
    ensures var s' := Carried(s, sample, Some((phase, modulus)), None);
            && s'.tempoKnown && !s'.tempoReported && s'.sampleRate > 0.0 && s'.estSample == sample
            && (exists k: int :: s'.estBeat == LessTurns(phase, modulus, k))
            && AbsR(s'.estBeat - s.EstBeatAt(sample)) <= modulus / 2.0
            && s'.estBeat - s.estBeat == Over(sample - s.estSample, s'.EstRate())
  {
    PositiveRate(s);
    MeasuredIs(s, sample, phase, modulus);
    AdvanceLands(s, sample, phase, modulus);
    hide *;
  }

  /** The beats of a clock over that many samples. */
  function Over(samples: real, rate: real): real { samples * rate }

  /** The beats a source was to go since the estimate's anchor. */
  function Expected(s: State, sample: real): real
    requires s.sampleRate > 0.0
  {
    (sample - s.estSample) * s.EstRate()
  }

  /** The beats it went: those, and the residual. */
  function AdvanceBy(est: real, phase: real, expected: real, modulus: real): real
    requires modulus > 0.0
  {
    expected + Wrap(phase - RemEuclid(est, modulus) - expected, modulus)
  }

  lemma ExpectedIs(s: State, sample: real)
    requires s.sampleRate > 0.0
    ensures s.EstBeatAt(sample) == s.estBeat + Expected(s, sample)
  {
  }

  lemma AdvanceLands(s: State, sample: real, phase: real, modulus: real)
    requires s.sampleRate > 0.0 && modulus > 0.0
    ensures var beat := s.estBeat + AdvanceBy(s.estBeat, phase, Expected(s, sample), modulus);
            && (exists k: int :: beat == LessTurns(phase, modulus, k))
            && AbsR(beat - s.EstBeatAt(sample)) <= modulus / 2.0
  {
    ExpectedIs(s, sample);
    hide AdvanceBy, LessTurns, State.EstRate, Expected, State.EstBeatAt;
    var n := TurnsBetween(s.estBeat, phase, Expected(s, sample), modulus);
    assert s.estBeat + AdvanceBy(s.estBeat, phase, Expected(s, sample), modulus) == LessTurns(phase, modulus, n);
  }

  lemma TempoIs(s: State, sample: real, phase: real, modulus: real)
    requires Valid(s) && modulus > 0.0 && TempoFromPhase(s, sample, phase, modulus).Some? && s.sampleRate > 0.0
    ensures sample > s.estSample && 1.0 + s.drift > 0.0
    ensures var beats := AdvanceBy(s.estBeat, phase, Expected(s, sample), modulus);
            TempoFromPhase(s, sample, phase, modulus).value
            == BpmOver(beats, sample - s.estSample, s.sampleRate, 1.0 + s.drift)
  {
    DriftPositive(s);
    hide Wrap, RemEuclid, State.EstRate;
  }

  /** The tempo of a clock that goes `beats` over `samples`, but for the skew. */
  function BpmOver(beats: real, samples: real, sampleRate: real, skew: real): real
    requires samples > 0.0 && skew > 0.0
  {
    beats / samples * 60.0 * sampleRate / skew
  }

  /** The tempo measured carries the estimate on by these beats. */
  lemma MeasuredIs(s: State, sample: real, phase: real, modulus: real)
    requires Valid(s) && modulus > 0.0 && !s.tempoKnown && TempoFromPhase(s, sample, phase, modulus).Some?
    requires s.sampleRate > 0.0
    ensures var s' := Carried(s, sample, Some((phase, modulus)), None);
            var beats := AdvanceBy(s.estBeat, phase, Expected(s, sample), modulus);
            && s'.tempoKnown && !s'.tempoReported && s'.sampleRate > 0.0 && s'.estSample == sample
            && s'.estBeat == s.estBeat + beats && beats == Over(sample - s.estSample, s'.EstRate())
  {
    TempoIs(s, sample, phase, modulus);
    CarriedMeasured(s, sample, phase, modulus);
    hide AdvanceBy, Expected, BpmOver, TempoFromPhase, RatesOk, Carried, State.EstRate, Over;
    var s', samples := Carried(s, sample, Some((phase, modulus)), None), sample - s.estSample;
    var beats := AdvanceBy(s.estBeat, phase, Expected(s, sample), modulus);
    RateOver(s', beats, samples, s.sampleRate, 1.0 + s.drift);
  }

  lemma CarriedMeasured(s: State, sample: real, phase: real, modulus: real)
    requires Valid(s) && modulus > 0.0 && !s.tempoKnown && TempoFromPhase(s, sample, phase, modulus).Some?
    requires s.sampleRate > 0.0
    ensures var s', bpm := Carried(s, sample, Some((phase, modulus)), None), TempoFromPhase(s, sample, phase, modulus);
            && s'.tempoKnown && !s'.tempoReported && s'.sampleRate == s.sampleRate && s'.estSample == sample
            && s'.bpm == bpm.value && s'.drift == s.drift
            && s'.estBeat == s.estBeat + Over(sample - s.estSample, s'.EstRate())
  {
    hide TempoFromPhase, RatesOk, State.EstRate;
    var s' := Carried(s, sample, Some((phase, modulus)), None);
    var s1 := s.(tempoReported := false, tempoKnown := true, bpm := s'.bpm);
    SameEstRate(s1, s');
  }

  lemma RateOver(s': State, beats: real, samples: real, sampleRate: real, skew: real)
    requires samples > 0.0 && sampleRate > 0.0 && skew > 0.0
    requires s'.sampleRate == sampleRate && s'.bpm == BpmOver(beats, samples, sampleRate, skew)
    requires 1.0 + s'.drift == skew
    ensures Over(samples, s'.EstRate()) == beats
  {
    MeasuredRate(beats, samples, sampleRate, skew);
  }

  lemma DriftPositive(s: State)
    requires Valid(s)
    ensures 1.0 + s.drift > 0.0
  {
  }

  lemma MeasuredRate(beats: real, samples: real, sampleRate: real, skew: real)
    requires samples > 0.0 && sampleRate > 0.0 && skew > 0.0
    ensures samples * (beats / samples * 60.0 * sampleRate / skew / (60.0 * sampleRate) * skew) == beats
  {
    var r, d := beats / samples, 60.0 * sampleRate;
    DivPos(beats, samples);
    assert r * 60.0 * sampleRate == r * d;
    var q := r * d / skew;
    DivPos(r * d, skew);
    DivPos(q, d);
    var u := q / d;
    SwapLast(u, skew, d);
    MulThenDiv(r, d);
    MulThenDiv(u * skew, d);
    assert u * skew == r;
    assert samples * r == r * samples;
  }

  lemma SwapLast(x: real, y: real, z: real)
    ensures x * y * z == x * z * y
  {
  }

  /** Carried on by what was expected and the residual, the estimate has the phase. */
  lemma TurnsBetween(est: real, phase: real, expected: real, modulus: real) returns (n: int)
    requires modulus > 0.0
    ensures var beat := est + AdvanceBy(est, phase, expected, modulus);
            beat == LessTurns(phase, modulus, n) && AbsR(beat - (est + expected)) <= modulus / 2.0
  {
    hide Wrap;
    var turns := (est / modulus).Floor;
    var x := phase - RemEuclid(est, modulus) - expected;
    var k := WrapTakesTurns(x, modulus);
    assert modulus * (k - turns) as real == modulus * k as real - modulus * turns as real;
    n := k - turns;
    assert est + (expected + Wrap(x, modulus)) == LessTurns(phase, modulus, n);
  }

  // ---- The operations ----

  /** A tempo that is no positive number says nothing. */
  lemma BadTempoSaysNothing(s: State, obs: Observation, bpm: Float, now: Float, sqrt: real -> real)
    requires Valid(s) && (bpm.Finite? ==> bpm.value <= 0.0)
    ensures Observed(s, obs.(bpm := Some(bpm)), now, sqrt) == Observed(s, obs.(bpm := None), now, sqrt)
  {
    hide Valid, ObservePhase, Steered, Carried, Taken;
  }

  /** A tempo that comes with a report is taken over, within 20 to 400 BPM, whatever the phase of the report
      does. */
  lemma TempoIsAdopted(s: State, obs: Observation, now: real, bpm: real, sqrt: real -> real)
    requires Valid(s) && obs.sample.Finite? && obs.bpm == Some(Finite(bpm)) && bpm > 0.0
    requires Taken(s, obs.sample.value, now).Some?
    ensures var s' := After(s, Observe(obs, Finite(now)), sqrt);
            && s'.bpm == (if bpm < 20.0 then 20.0 else if bpm > 400.0 then 400.0 else bpm)
            && s'.tempoKnown && s'.tempoReported
  {
    hide Valid, ObservePhase, Steered, Carried;
    JudgedValid(s, obs, now);
    var s1, sample, target := Judged(s, obs, now), obs.sample.value, Target(obs.phase);
    TakenValid(s, sample, now);
    var s0 := Taken(s, sample, now).value;
    CarriedValid(s0, sample, target, ReportedTempo(obs.bpm));
    CarriedEvenly(s0, sample, target, ReportedTempo(obs.bpm));
    if target.Some? {
      ObservePhaseValid(s1, sample, target.value.0, target.value.1, sqrt);
      PhaseTempo(s1, sample, target.value.0, target.value.1, sqrt);
      SteeredTempo(ObservePhase(s1, sample, target.value.0, target.value.1, sqrt), now);
    } else {
      SteeredTempo(Alive(s1), now);
    }
  }

  lemma SteeredTempo(s: State, t: real)
    requires Valid(s)
    ensures var s' := Steered(s, t);
            s'.bpm == s.bpm && s'.tempoKnown == s.tempoKnown && s'.tempoReported == s.tempoReported
  {
    hide RatesOk;
  }

  /** The same of the tempo a report came with. */
  ghost predicate SameTempo(s: State, s': State)
  {
    s'.bpm == s.bpm && s'.tempoKnown == s.tempoKnown && s'.tempoReported == s.tempoReported
  }

  lemma PhaseTempo(s: State, sample: real, phase: real, modulus: real, sqrt: real -> real)
    requires Valid(s) && modulus > 0.0 && s.tempoReported
    requires s.lastPhaseObservation.Some? ==> s.lastPhaseObservation.value < sample
    ensures SameTempo(s, ObservePhase(s, sample, phase, modulus, sqrt))
  {
    hide RatesOk, Threshold, Wrap, TuningOf, State.EstRate, Timeline.BeatAtSample, BeginAcquire, FinishAcquire, Update,
         Outlying, GainSpacing, NoteSpacing, AbsR;
    PositiveRate(s);
    SpacingPositive(s, sample);
    NoteKeeps(s, sample);
    var ours := s.Output().BeatAtSample(sample);
    var outErr, estErr := Wrap(phase - ours, modulus), Wrap(phase - s.estBeat, modulus);
    var threshold, spacing, needed := Threshold(s, modulus), GainSpacing(s, sample), s.Tuned().acquireObs;
    var s1 := NoteSpacing(s, sample).(lastPhaseObservation := Some(sample), phaseError := outErr);
    BeginTempo(s1.(resyncRequested := false), sample, ours + outErr, needed);
    BeginTempo(s1, sample, ours + outErr, needed);
    BeginTempo(s1.(locked := false), sample, ours + outErr, needed);
    UpdateTempo(s1, estErr, spacing, sqrt);
    FinishTempo(Update(s1, estErr, spacing, sqrt).(acquired := Update(s1, estErr, spacing, sqrt).acquired + 1), needed);
    UpdateTempo(s1.(locked := true, lock := Track), estErr, spacing, sqrt);
    UpdateTempo(s1.(locked := true, jump := None), estErr, spacing, sqrt);
    OutlyingTempo(s1.(locked := true), sample, estErr, modulus, threshold);
  }

  lemma FinishTempo(s: State, needed: nat)
    requires s.sampleRate > 0.0
    ensures SameTempo(s, FinishAcquire(s, needed))
  {
  }

  lemma BeginTempo(s: State, sample: real, beat: real, needed: nat)
    requires s.sampleRate > 0.0
    ensures SameTempo(s, BeginAcquire(s, sample, beat, needed))
  {
    hide State.EstRate;
  }

  lemma UpdateTempo(s: State, err: real, spacing: Spacing, sqrt: real -> real)
    requires (spacing.Span? ==> spacing.beats >= 0.0) && s.tempoReported
    ensures SameTempo(s, Update(s, err, spacing, sqrt))
  {
    hide Fade, Gain, Step;
  }

  lemma OutlyingTempo(s: State, sample: real, err: real, modulus: real, threshold: real)
    requires s.sampleRate > 0.0 && modulus > 0.0
    ensures SameTempo(s, Outlying(s, sample, err, modulus, threshold))
  {
    hide State.EstRate, JumpAfter, TuningOf;
  }

  /** A report without a phase never jumps; it brings a source that was lost back, and one that is tracked
      stays so. */
  lemma TempoOnlyRevives(s: State, obs: Observation, now: real, sqrt: real -> real)
    requires Valid(s) && obs.sample.Finite? && !s.discontinuity && !WentBack(s, obs.sample.value)
    requires (obs.phase.TempoOnly? || obs.phase.position.NotFinite?) && Taken(s, obs.sample.value, now).Some?
    ensures var s' := After(s, Observe(obs, Finite(now)), sqrt);
            && !s'.discontinuity && s'.locked && s'.acquired == s.acquired
            && s'.lock == (if s.lock == Acquire then Acquire else Track)
            && s'.Output().BeatAtSample(now) == s.Output().BeatAtSample(now)
  {
    hide Valid, Steered, Carried, ReportedTempo, Timeline.BeatAtSample, WentBack;
    AfterValid(s, Observe(obs, Finite(now)), sqrt);
    JudgedValid(s, obs, now);
    JudgedKeeps(s, obs, now);
    var s1, sample := Judged(s, obs, now), obs.sample.value;
    TakenValid(s, sample, now);
    CarriedValid(Taken(s, sample, now).value, sample, None, ReportedTempo(obs.bpm));
    SteeredLocked(Alive(s1), now);
    LockKept(s, obs, now);
  }

  lemma SteeredLocked(s: State, t: real)
    requires Valid(s)
    ensures var s' := Steered(s, t);
            && s'.locked == s.locked && s'.lock == s.lock && s'.acquired == s.acquired
            && s'.discontinuity == s.discontinuity
  {
    hide RatesOk;
  }

  lemma LockKept(s: State, obs: Observation, now: real)
    requires Valid(s) && obs.sample.Finite? && Taken(s, obs.sample.value, now).Some?
    requires !WentBack(s, obs.sample.value)
    ensures Judged(s, obs, now).lock == s.lock && Judged(s, obs, now).acquired == s.acquired
  {
    hide Valid, TempoFromPhase, State.EstRate;
  }

  /** A reset puts output and estimate on the beat asked for, straight on at the tempo held, and the next phase
      report is a first one again. */
  lemma ResetAnchors(s: State, sample: real, beat: real, t: real, sqrt: real -> real)
    requires Valid(s)
    ensures var s' := After(s, Reset(Finite(sample), Finite(beat)), sqrt);
            && s'.discontinuity && s'.lock == Acquire && s'.acquired == 0 && s'.jump == None && s.sampleRate > 0.0
            && s'.Output().BeatAtSample(t) == beat + (t - sample) * s.EstRate()
            && s'.sampleRate == s.sampleRate && s'.EstRate() == s.EstRate() && s'.EstBeatAt(sample) == beat
            && s'.bpm == s.bpm && s'.drift == s.drift && s'.resyncRequested == s.resyncRequested
  {
    PositiveRate(s);
    ResetState(s, sample, beat);
    ResetValid(s, Finite(sample), Finite(beat));
    hide State.EstRate, Valid, After, ResetTo;
    var s' := After(s, Reset(Finite(sample), Finite(beat)), sqrt);
    assert s' == ResetTo(s, Finite(sample), Finite(beat)) by { AfterReset(s, sample, beat, sqrt); }
    SameEstRate(s, s');
    StraightLineAt(s', t);
    assert (sample - s'.estSample) * s'.EstRate() == 0.0;
  }

  lemma AfterReset(s: State, sample: real, beat: real, sqrt: real -> real)
    requires Valid(s)
    ensures After(s, Reset(Finite(sample), Finite(beat)), sqrt) == ResetTo(s, Finite(sample), Finite(beat))
  {
  }

  lemma ResetState(s: State, sample: real, beat: real)
    requires Valid(s)
    ensures var s' := ResetTo(s, Finite(sample), Finite(beat));
            && s.sampleRate > 0.0
            && s' == s.(estSample := sample, estBeat := beat, updates := 0, jump := None, anchorSample := sample,
                        anchorBeat := beat, rate := s.EstRate(), slewRate := s.EstRate(), slewEnd := sample,
                        lock := Acquire, acquired := 0, discontinuity := true)
  {
    hide State.EstRate, RatesOk;
    PositiveRate(s);
    SameEstRate(s, RestartEstimate(s, sample, beat));
  }

  /** A change of precision keeps as much of the drift as the new one allows. */
  lemma PrecisionKeepsDrift(s: State, p: Precision)
    requires Valid(s)
    ensures var s', max := WithPrecision(s, p), TuningOf(p).maxDrift;
            && (-max <= s.drift <= max ==> s'.drift == s.drift)
            && (s.drift > max ==> s'.drift == max) && (s.drift < -max ==> s'.drift == -max)
            && s'.bpm == s.bpm && s'.estBeat == s.estBeat && s'.estSample == s.estSample
  {
    hide RatesOk, State.EstRate;
    ClampIs(s.drift, TuningOf(p).maxDrift);
  }

  lemma ClampIs(x: real, max: real)
    requires max > 0.0
    ensures -max <= x <= max ==> Clamp(x, -max, max) == x
    ensures x > max ==> Clamp(x, -max, max) == max
    ensures x < -max ==> Clamp(x, -max, max) == -max
  {
  }

  // ---- Where a jump lands ----

  /** The jump of a held run puts output and estimate beyond the old estimate by the mean of its residuals, and
      counts on as many reports as agreed on it. */
  lemma JumpLands(s: State, sample: real, phase: real, modulus: real, sqrt: real -> real, log: seq<Report>)
    requires Valid(s) && modulus > 0.0 && Remembered(s, log) && s.lock == Track && !s.resyncRequested
             && !s.discontinuity
    requires s.lastPhaseObservation.Some? ==> s.lastPhaseObservation.value < sample
    ensures s.sampleRate > 0.0
    ensures var s', run := ObservePhase(s, sample, phase, modulus, sqrt),
                           NewestRun(log + [ReportOf(s, sample, phase, modulus)]);
            s'.discontinuity ==>
              && run != [] && s'.estSample == s'.anchorSample == sample
              && s'.estBeat == s'.anchorBeat == s.estBeat + MeanOf(run)
              && s'.updates == |run| - 1 && s'.jump == None && s'.lock == Track
  {
    hide RatesOk, GainSpacing, NoteSpacing, Noted, Update, Outlying, Threshold, Wrap, TuningOf, State.EstRate,
         NewestRun, Beyond, AbsR, ObservePhase, Valid, Fade, JumpAfter, MeanOf;
    TrackStep(s, sample, phase, modulus, sqrt);
    var estErr, threshold := Wrap(phase - s.estBeat, modulus), Threshold(s, modulus);
    var s1, r := Noted(s, sample, phase, modulus).(locked := true), ReportOf(s, sample, phase, modulus);
    if AbsR(estErr) <= threshold {
      UpdateKeepsLock(s1.(jump := None), estErr, GainSpacing(s, sample), sqrt);
    } else {
      JumpGrows(log, r);
      OutlyingLands(s1, sample, estErr, modulus, threshold);
    }
  }

  lemma OutlyingLands(s: State, sample: real, err: real, modulus: real, threshold: real)
    requires s.sampleRate > 0.0 && modulus > 0.0 && s.lock == Track && !s.discontinuity
    ensures var s', j := Outlying(s, sample, err, modulus, threshold), JumpAfter(s.jump, sample, err, modulus,
                                                                                 threshold);
            s'.discontinuity ==>
              && s'.estSample == s'.anchorSample == sample && s'.estBeat == s'.anchorBeat == s.estBeat + j.offset
              && s'.updates == j.count - 1 && s'.jump == None && s'.lock == Track
  {
    hide State.EstRate, JumpAfter, TuningOf;
  }
}
