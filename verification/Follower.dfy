/** The clock that follows another: an estimator of the source's timeline, and a smooth
    output timeline that closes the gap to it. */
module Following {
  import opened Numbers
  import opened Clock
  import opened Observing

  const LOCK_TIMEOUT_S := 2.0
  const MAX_AHEAD_S := 0.5
  const MIN_UPDATE_BEATS := 1.0 / 96.0
  const NO_TEMPO_GAIN := 0.25
  const SPACING_SMOOTHING := 1.0 / 16.0

  /** Slews smaller than this fraction are not started. */
  const MIN_SLEW := 0.000000000001

  datatype Precision = Exact | Fine | Coarse | Jittery

  datatype Tuning = Tuning(
    acquireObs: nat, phaseTau: real, driftGain: real, maxDrift: real, slewTau: real, maxSlew: real,
    deadbandS: real, jumpS: real, jumpHoldBeats: real, jumpHoldObs: nat)

  function TuningOf(p: Precision): (t: Tuning)
    ensures t.phaseTau > 0.0 && 0.0 < t.maxDrift <= 0.02 && t.slewTau > 0.0 && 0.0 < t.maxSlew <= 0.05
    ensures t.deadbandS >= 0.0 && t.acquireObs >= 1 && t.jumpHoldObs >= 2
  {
    match p
    case Exact => Tuning(1, 0.1, 1.0, 0.01, 0.1, 0.05, 0.0, 0.020, 0.25, 2)
    case Fine => Tuning(1, 0.5, 0.05, 0.01, 0.5, 0.04, 0.0005, 0.050, 1.5, 2)
    case Coarse => Tuning(8, 32.0, 0.02, 0.002, 4.0, 0.01, 0.010, 0.300, 4.0, 4)
    case Jittery => Tuning(1, 1.0, 0.5, 0.02, 0.5, 0.02, 0.00025, 0.040, 1.0, 12)
  }

  datatype Lock = Acquire | Reacquire | Track

  /** Outliers that agree with each other, since when and how many: what may become a jump. */
  datatype Jump = Jump(since: real, count: nat, offset: real)

  /** The distance in beats since the last phase report; `Unbounded` if there is none. */
  datatype Spacing = Span(beats: real) | Unbounded

  datatype State = State(
    sampleRate: real, precision: Precision,
    // Output timeline.
    anchorSample: real, anchorBeat: real, slewRate: real, slewEnd: real, rate: real,
    // Estimate of the source's timeline.
    bpm: real, drift: real, estSample: real, estBeat: real, updates: nat,
    // Lock state.
    lock: Lock, locked: bool, acquired: nat, jump: Option<Jump>, discontinuity: bool, resyncRequested: bool,
    lastObservation: Option<real>, lastPhaseObservation: Option<real>, meanSpacing: Option<real>,
    tempoReported: bool, tempoKnown: bool, phaseError: real)
  {
    function Tuned(): Tuning { TuningOf(precision) }

    function Output(): Timeline { Timeline(sampleRate, bpm, anchorSample, anchorBeat, slewRate, slewEnd, rate) }

    /** How fast the source is taken to run, in beats per sample. */
    function EstRate(): real
      requires sampleRate > 0.0
    {
      bpm / (60.0 * sampleRate) * (1.0 + drift)
    }

    function EstBeatAt(sample: real): real
      requires sampleRate > 0.0
    {
      estBeat + (sample - estSample) * EstRate()
    }

    function Timeout(): real { LOCK_TIMEOUT_S * sampleRate }
  }

  /** The representative of `x` nearest 0, counting by moduli. */
  function Wrap(x: real, modulus: real): (w: real)
    requires modulus > 0.0
    ensures -modulus / 2.0 <= w < modulus / 2.0
  {
    var e := RemEuclid(x, modulus);
    if e >= modulus / 2.0 then e - modulus else e
  }

  /** `x` with `n` whole moduli taken off. */
  function LessTurns(x: real, modulus: real, n: int): real { x - modulus * n as real }

  /** Wrapping takes off a whole number of moduli, and no other number would do. */
  lemma WrapTakesTurns(x: real, modulus: real) returns (k: int)
    requires modulus > 0.0
    ensures Wrap(x, modulus) == LessTurns(x, modulus, k)
    ensures forall n: int :: -modulus / 2.0 <= LessTurns(x, modulus, n) < modulus / 2.0 ==> n == k
  {
    var turns := (x / modulus).Floor;
    k := if RemEuclid(x, modulus) >= modulus / 2.0 then turns + 1 else turns;
    assert modulus * (turns + 1) as real == modulus * turns as real + modulus;
    var w := Wrap(x, modulus);
    assert w == LessTurns(x, modulus, k);
    forall n: int | -modulus / 2.0 <= LessTurns(x, modulus, n) < modulus / 2.0
      ensures n == k
    {
      SameTurn(modulus, n as real, k as real, LessTurns(x, modulus, n) - w);
    }
  }

  lemma SameTurn(m: real, n: real, k: real, d: real)
    requires m > 0.0 && d == m * k - m * n && -m < d < m
    ensures -1.0 < n - k < 1.0
  {
    var x := k - n;
    assert d == m * x by { Distribute(k, -n, m); }
    if x <= -1.0 { MulAtLeast(m, -x, 1.0); }
    if x >= 1.0 { MulAtLeast(m, x, 1.0); }
  }

  function New(sampleRate: real, initialBpm: Float, precision: Precision): State
    requires sampleRate > 0.0
  {
    var bpm := if initialBpm.Finite? then Clamp(initialBpm.value, MIN_BPM, MAX_BPM) else 120.0;
    var rate := bpm / (60.0 * sampleRate);
    State(sampleRate, precision, 0.0, 0.0, rate, 0.0, rate, bpm, 0.0, 0.0, 0.0, 0,
          Acquire, false, 0, None, false, false, None, None, None, false, false, 0.0)
  }

  /** What every operation keeps. */
  ghost predicate Valid(s: State)
  {
    && s.sampleRate > 0.0 && MIN_BPM <= s.bpm <= MAX_BPM
    && -s.Tuned().maxDrift <= s.drift <= s.Tuned().maxDrift
    && RatesOk(s)
    && (s.lastPhaseObservation.Some? ==>
          s.lastObservation.Some? && s.lastPhaseObservation.value <= s.lastObservation.value)
    && (s.meanSpacing.Some? ==> s.meanSpacing.value > 0.0)
    && (s.lock == Track ==> s.locked)
    && (s.lock == Reacquire ==> s.jump == None)
    && (s.jump.Some? ==> s.jump.value.count >= 1)
  }

  /** Both segments of the output run forwards: at a tempo a source may have, up to 2 % learned
      skew, and up to 5 % more while slewing. */
  ghost predicate RatesOk(s: State)
  {
    && s.sampleRate > 0.0
    && MIN_BPM * 0.98 <= s.rate * (60.0 * s.sampleRate) <= MAX_BPM * 1.02
    && 0.95 * s.rate <= s.slewRate <= 1.05 * s.rate && s.rate > 0.0
  }

  // ---- The estimate and the output line ----

  function RestartEstimate(s: State, sample: real, beat: real): State
  {
    s.(estSample := sample, estBeat := beat, updates := 0, jump := None)
  }

  /** The output runs through the given point at the tempo of the estimate. */
  function SetOutput(s: State, sample: real, beat: real): State
    requires s.sampleRate > 0.0
  {
    s.(anchorSample := sample, anchorBeat := beat, rate := s.EstRate(), slewRate := s.EstRate(), slewEnd := sample)
  }

  /** The output jumps onto the estimate, under a flag. */
  function SnapOutput(s: State): State
    requires s.sampleRate > 0.0
  {
    SetOutput(s, s.estSample, s.estBeat).(discontinuity := true, lock := Track, locked := true, acquired := 0)
  }

  /** Jumps onto the estimate if it rests on `needed` reports and on a tempo. */
  function FinishAcquire(s: State, needed: nat): State
    requires s.sampleRate > 0.0
  {
    if s.acquired >= needed && s.tempoKnown then SnapOutput(s) else s
  }

  function BeginAcquire(s: State, sample: real, beat: real, needed: nat): State
    requires s.sampleRate > 0.0
  {
    FinishAcquire(RestartEstimate(s, sample, beat).(lock := Acquire, acquired := 1), needed)
  }

  /** How much of a residual a fading memory of `tau` beats forgets over `spacing`. */
  function Fade(spacing: Spacing, tau: real): real
    requires tau > 0.0 && (spacing.Span? ==> spacing.beats >= 0.0)
  {
    if spacing.Span? then spacing.beats / (spacing.beats + tau) else 1.0
  }

  /** The tempo or drift correction of a residual. */
  function Corrected(s: State, err: real, spacing: real, fade: real, sqrt: real -> real): State
    requires spacing > 0.0
  {
    var theta := sqrt(1.0 - fade);
    var slope := err / MaxR(spacing, MIN_UPDATE_BEATS);
    if s.tempoReported then
      var max := s.Tuned().maxDrift;
      s.(drift := Clamp(s.drift + Gain(s.Tuned().driftGain, theta, slope), -max, max))
    else
      s.(bpm := Clamp(Slewed(s.bpm, Gain(NO_TEMPO_GAIN, theta, slope)), MIN_BPM, MAX_BPM))
  }

  /** The integral term: `beta` is that of a critically damped alpha-beta tracker. */
  function Gain(gain: real, theta: real, slope: real): real
  {
    var beta := (1.0 - theta) * (1.0 - theta);
    gain * beta * slope
  }

  /** The proportional term: a running mean of the residuals at first, a fading one later. */
  function Step(fade: real, updates: nat, err: real): real
  {
    var alpha := MaxR(fade, 1.0 / (updates + 1) as real);
    alpha * err
  }

  /** The estimate corrected for a residual of `err`, `spacing` beats on. */
  function Update(s: State, err: real, spacing: Spacing, sqrt: real -> real): (s': State)
    requires spacing.Span? ==> spacing.beats >= 0.0
    ensures s'.sampleRate == s.sampleRate
  {
    var fade := Fade(spacing, s.Tuned().phaseTau);
    var s1 := s.(updates := s.updates + 1);
    var s2 := s1.(estBeat := s1.estBeat + Step(fade, s1.updates, err));
    if spacing.Span? && spacing.beats > 0.0 then Corrected(s2, err, spacing.beats, fade, sqrt) else s2
  }

  // ---- Phase reports ----

  /** Residuals beyond this are outliers. */
  function Threshold(s: State, modulus: real): real
    requires s.sampleRate > 0.0
  {
    MinR(s.Tuned().jumpS * s.EstRate() * s.sampleRate, 0.45 * modulus)
  }

  /** Beats since the last phase report. */
  function RawSpacing(s: State, sample: real): Option<real>
    requires s.sampleRate > 0.0
  {
    if s.lastPhaseObservation.Some? then Some((sample - s.lastPhaseObservation.value) * s.EstRate()) else None
  }

  /** The spacing the gains use: the running mean, unless this report comes after a gap. */
  function GainSpacing(s: State, sample: real): Spacing
    requires s.sampleRate > 0.0
  {
    var raw := RawSpacing(s, sample);
    if raw.None? then Unbounded
    else if s.meanSpacing.Some? && raw.value <= 2.0 * s.meanSpacing.value then Span(s.meanSpacing.value)
    else Span(raw.value)
  }

  function NoteSpacing(s: State, sample: real): State
    requires s.sampleRate > 0.0
  {
    var raw := RawSpacing(s, sample);
    if raw.None? then s
    else
      s.(meanSpacing := Some(if s.meanSpacing.Some? then MeanAfter(s.meanSpacing.value, raw.value) else raw.value))
  }

  /** A running mean with one more spacing. */
  function MeanAfter(mean: real, raw: real): real { mean + (raw - mean) * SPACING_SMOOTHING }

  /** The run of outliers with one more. */
  function JumpAfter(jump: Option<Jump>, sample: real, err: real, modulus: real, threshold: real): (j: Jump)
    requires modulus > 0.0
    ensures j.count >= 1
  {
    if jump.Some? && AbsR(Wrap(err - jump.value.offset, modulus)) <= threshold then
      var count := jump.value.count + 1;
      Jump(jump.value.since, count, jump.value.offset + Wrap(err - jump.value.offset, modulus) / count as real)
    else Jump(sample, 1, err)
  }

  /** An outlier while tracking: ignored by the estimate, unless its run has held long enough. */
  function Outlying(s: State, sample: real, err: real, modulus: real, threshold: real): State
    requires s.sampleRate > 0.0 && modulus > 0.0
  {
    var j := JumpAfter(s.jump, sample, err, modulus, threshold);
    var held := (sample - j.since) * s.EstRate() >= s.Tuned().jumpHoldBeats;
    if held && j.count >= s.Tuned().jumpHoldObs then
      SnapOutput(RestartEstimate(s, sample, s.estBeat + j.offset).(updates := j.count - 1))
    else s.(jump := Some(j))
  }

  /** A phase report, with the estimate already at its sample. */
  function ObservePhase(s: State, sample: real, phase: real, modulus: real, sqrt: real -> real): State
    requires Valid(s) && modulus > 0.0
    requires s.lastPhaseObservation.Some? ==> s.lastPhaseObservation.value < sample
  {
    var ours := s.Output().BeatAtSample(sample);
    var outErr, estErr := Wrap(phase - ours, modulus), Wrap(phase - s.estBeat, modulus);
    var threshold, spacing := Threshold(s, modulus), GainSpacing(s, sample);
    SpacingPositive(s, sample);
    var s1 := NoteSpacing(s, sample).(lastPhaseObservation := Some(sample), phaseError := outErr);
    PhaseStep(s1, sample, ours + outErr, outErr, estErr, threshold, spacing, modulus, sqrt)
  }

  /** What a phase report does, by the state of the lock: `beat` is the beat it puts at `sample`,
      `outErr` and `estErr` how far off the output and the estimate are. */
  function PhaseStep(s: State, sample: real, beat: real, outErr: real, estErr: real, threshold: real, spacing: Spacing,
                     modulus: real, sqrt: real -> real): State
    requires s.sampleRate > 0.0 && modulus > 0.0 && (spacing.Span? ==> spacing.beats >= 0.0)
  {
    var needed := s.Tuned().acquireObs;
    if s.resyncRequested then BeginAcquire(s.(resyncRequested := false), sample, beat, needed)
    else
      match s.lock
      case Acquire =>
        if s.acquired == 0 then BeginAcquire(s, sample, beat, needed)
        else
          var s2 := Update(s, estErr, spacing, sqrt);
          FinishAcquire(s2.(acquired := s2.acquired + 1), needed)
      case Reacquire =>
        if AbsR(outErr) > threshold then BeginAcquire(s.(locked := false), sample, beat, needed)
        else Update(s.(locked := true, lock := Track), estErr, spacing, sqrt)
      case Track =>
        if AbsR(estErr) <= threshold then Update(s.(locked := true, jump := None), estErr, spacing, sqrt)
        else Outlying(s.(locked := true), sample, estErr, modulus, threshold)
  }

  // ---- Steering the output ----

  /** How far the estimate is ahead of the output. */
  function Gap(s: State, t: real): real
    requires s.sampleRate > 0.0
  {
    s.EstBeatAt(t) - s.Output().BeatAtSample(t)
  }

  function Deadband(s: State): real
    requires s.sampleRate > 0.0
  {
    s.Tuned().deadbandS * s.EstRate() * s.sampleRate
  }

  /** The part of a gap beyond the deadband. */
  function Excess(gap: real, deadband: real): real
    requires deadband >= 0.0
  {
    gap - Clamp(gap, -deadband, deadband)
  }

  /** The slew that closes an excess: the change of rate over the rate. */
  function SlewFor(excess: real, tuning: Tuning): real
    requires tuning.slewTau > 0.0 && tuning.maxSlew > 0.0
  {
    Clamp(excess / tuning.slewTau, -tuning.maxSlew, tuning.maxSlew)
  }

  /** The slew planned at `t`. */
  function Slew(s: State, t: real): real
    requires Valid(s)
  {
    DeadbandPositive(s);
    if s.locked && s.lock == Track then SlewFor(Excess(Gap(s, t), Deadband(s)), s.Tuned()) else 0.0
  }

  /** The output from `t` on: where it is, and the slew towards the estimate. */
  function Steered(s: State, t: real): State
    requires Valid(s)
  {
    var base, c := s.EstRate(), Slew(s, t);
    DeadbandPositive(s);
    EstRatePositive(s);
    var slews := AbsR(c) > MIN_SLEW;
    s.(anchorSample := t, anchorBeat := s.Output().BeatAtSample(t), rate := base,
       slewRate := if slews then Slewed(base, c) else base,
       slewEnd := if slews then t + SlewTime(Excess(Gap(s, t), Deadband(s)), base, c) else t)
  }

  /** A rate off by the fraction `c`. */
  function Slewed(base: real, c: real): real { base * (1.0 + c) }

  /** How long a slew of fraction `c` takes to close an excess. */
  function SlewTime(excess: real, base: real, c: real): real
    requires base > 0.0 && c != 0.0
  {
    excess / (base * c)
  }

  // ---- Operations ----

  /** The tempo at which the phase came here from the estimate's anchor. */
  function TempoFromPhase(s: State, sample: real, phase: real, modulus: real): (bpm: Option<real>)
    requires Valid(s) && modulus > 0.0
    ensures bpm.Some? ==> MIN_BPM <= bpm.value <= MAX_BPM
  {
    var samples := sample - s.estSample;
    if (s.lock == Acquire && s.acquired == 0) || samples <= 0.0 || s.lastPhaseObservation.None? then None
    else
      var expected := samples * s.EstRate();
      var anchorPhase := RemEuclid(s.estBeat, modulus);
      var beats := expected + Wrap(phase - anchorPhase - expected, modulus);
      var bpm := beats / samples * 60.0 * s.sampleRate / (1.0 + s.drift);
      if MIN_BPM <= bpm <= MAX_BPM then Some(bpm) else None
  }

  /** The phase of a report and its modulus, if it has one. */
  function Target(phase: Phase): (t: Option<(real, real)>)
    ensures t.Some? ==> t.value.1 > 0.0
  {
    match phase
    case Bar(p) => if p.Finite? then Some((p.value, 4.0)) else None
    case Beat(p) => if p.Finite? then Some((p.value, 1.0)) else None
    case TempoOnly => None
  }

  function ReportedTempo(bpm: Option<Float>): (b: Option<real>)
    ensures b.Some? ==> MIN_BPM <= b.value <= MAX_BPM
  {
    if bpm.Some? && bpm.value.Finite? && bpm.value.value > 0.0 then Some(Clamp(bpm.value.value, MIN_BPM, MAX_BPM))
    else None
  }

  /** What is left once our own samples count from further back. */
  function Forgotten(s: State): State
  {
    s.(lastObservation := None, lastPhaseObservation := None, meanSpacing := None,
       locked := false, lock := Acquire, acquired := 0)
  }

  /** The state an observation at `sample` is taken in, or `None` if it is ignored. */
  function Taken(s: State, sample: real, now: real): Option<State>
  {
    if now - sample > s.Timeout() || sample - now > MAX_AHEAD_S * s.sampleRate then None
    else if s.lastObservation.Some? && s.lastObservation.value - sample > s.Timeout() then Some(Forgotten(s))
    else if s.lastObservation.Some? && sample <= s.lastObservation.value then None
    else Some(s)
  }

  /** Carries the estimate forward to `sample` under the reported tempo. */
  function Carried(s: State, sample: real, target: Option<(real, real)>, reported: Option<real>): State
    requires Valid(s) && (target.Some? ==> target.value.1 > 0.0)
  {
    var measured := if reported.None? && target.Some? && !s.tempoKnown
                    then TempoFromPhase(s, sample, target.value.0, target.value.1) else None;
    var tempo := if reported.Some? then reported else measured;
    var s1 := s.(tempoReported := reported.Some?, tempoKnown := s.tempoKnown || tempo.Some?,
                 bpm := if tempo.Some? then tempo.value else s.bpm);
    var meanRate := if measured.Some? then s1.EstRate() else 0.5 * (s.EstRate() + s1.EstRate());
    s1.(estBeat := s.estBeat + (sample - s.estSample) * meanRate, estSample := sample, lastObservation := Some(sample))
  }

  /** A report without a phase shows that the source lives, and no more. */
  function Alive(s: State): State
  {
    s.(locked := true, lock := if s.lock == Reacquire then Track else s.lock)
  }

  function Observed(s: State, obs: Observation, now: Float, sqrt: real -> real): State
    requires Valid(s)
  {
    if obs.sample.NotFinite? || now.NotFinite? || Taken(s, obs.sample.value, now.value).None? then s
    else
      var sample, target := obs.sample.value, Target(obs.phase);
      var s0 := Taken(s, sample, now.value).value;
      TakenValid(s, sample, now.value);
      var s1 := Carried(s0, sample, target, ReportedTempo(obs.bpm));
      CarriedValid(s0, sample, target, ReportedTempo(obs.bpm));
      var s2 := if target.Some? then ObservePhase(s1, sample, target.value.0, target.value.1, sqrt) else Alive(s1);
      if target.Some? then
        ObservePhaseValid(s1, sample, target.value.0, target.value.1, sqrt);
        Steered(s2, now.value)
      else Steered(s2, now.value)
  }

  /** What giving up the source after a silence leaves. */
  function Lost(s: State): State
  {
    s.(locked := false, jump := None, lock := if s.lock == Track then Reacquire else s.lock)
  }

  predicate IsLost(s: State, now: real)
  {
    s.lastObservation.Some? && s.locked && now - s.lastObservation.value > s.Timeout()
  }

  function Advanced(s: State, now: Float): State
    requires Valid(s)
  {
    if now.NotFinite? then s else Steered(if IsLost(s, now.value) then Lost(s) else s, now.value)
  }

  function ResetTo(s: State, sample: Float, beat: Float): State
    requires Valid(s)
  {
    if sample.NotFinite? || beat.NotFinite? then s
    else
      SetOutput(RestartEstimate(s, sample.value, beat.value), sample.value, beat.value)
        .(lock := Acquire, acquired := 0, discontinuity := true)
  }

  function WithPrecision(s: State, p: Precision): State
  {
    if p == s.precision then s
    else
      var max := TuningOf(p).maxDrift;
      s.(precision := p, drift := Clamp(s.drift, -max, max), jump := None,
         lock := if s.lock == Track then Reacquire else s.lock)
  }

  // ---- Every step keeps the state valid ----

  /** Rates in the terms of beats per minute. */
  lemma EstRateBounds(s: State)
    requires s.sampleRate > 0.0 && MIN_BPM <= s.bpm <= MAX_BPM && -0.02 <= s.drift <= 0.02
    ensures s.EstRate() > 0.0
    ensures MIN_BPM * 0.98 <= s.EstRate() * (60.0 * s.sampleRate) <= MAX_BPM * 1.02
  {
    var d, k := 60.0 * s.sampleRate, 1.0 + s.drift;
    DivPos(s.bpm, d);
    RateProduct(s.bpm, k, s.bpm / d, d);
  }

  lemma RateProduct(bpm: real, k: real, q: real, d: real)
    requires MIN_BPM <= bpm <= MAX_BPM && 0.98 <= k <= 1.02 && d > 0.0 && q > 0.0 && q * d == bpm
    ensures q * k > 0.0 && MIN_BPM * 0.98 <= (q * k) * d <= MAX_BPM * 1.02
  {
    assert (q * k) * d == k * (q * d);
    assert k * bpm >= 0.98 * bpm;
    assert k * bpm <= 1.02 * bpm;
    MulLess(0.0, q, k);
  }

  lemma SameEstRate(s: State, s': State)
    requires s.sampleRate > 0.0 && s'.sampleRate == s.sampleRate && s'.bpm == s.bpm && s'.drift == s.drift
    ensures s'.EstRate() == s.EstRate()
  {
  }

  lemma EstRatePositive(s: State)
    requires Valid(s)
    ensures s.EstRate() > 0.0
  {
    EstRateBounds(s);
  }

  lemma DeadbandPositive(s: State)
    requires Valid(s)
    ensures Deadband(s) >= 0.0
  {
    EstRatePositive(s);
    var d := s.Tuned().deadbandS;
    MulAtLeast(d, s.EstRate(), 0.0);
    MulAtLeast(d * s.EstRate(), s.sampleRate, 0.0);
  }

  lemma SpacingPositive(s: State, sample: real)
    requires Valid(s) && (s.lastPhaseObservation.Some? ==> s.lastPhaseObservation.value < sample)
    ensures GainSpacing(s, sample).Span? ==> GainSpacing(s, sample).beats > 0.0
    ensures RawSpacing(s, sample).Some? ==> RawSpacing(s, sample).value > 0.0
    ensures NoteSpacing(s, sample).meanSpacing.Some? ==> NoteSpacing(s, sample).meanSpacing.value > 0.0
  {
    hide RawSpacing, MeanAfter, RatesOk;
    RawPositive(s, sample);
    var raw := RawSpacing(s, sample);
    if raw.Some? && s.meanSpacing.Some? {
      MeanPositive(s.meanSpacing.value, raw.value);
      assert NoteSpacing(s, sample).meanSpacing == Some(MeanAfter(s.meanSpacing.value, raw.value));
    }
  }

  lemma RawPositive(s: State, sample: real)
    requires Valid(s) && (s.lastPhaseObservation.Some? ==> s.lastPhaseObservation.value < sample)
    ensures RawSpacing(s, sample).Some? ==> RawSpacing(s, sample).value > 0.0
  {
    EstRatePositive(s);
    if s.lastPhaseObservation.Some? { MulLess(0.0, sample - s.lastPhaseObservation.value, s.EstRate()); }
  }

  lemma MeanPositive(mean: real, raw: real)
    requires mean > 0.0 && raw > 0.0
    ensures MeanAfter(mean, raw) > 0.0
  {
    assert (raw - mean) * SPACING_SMOOTHING == (raw - mean) / 16.0;
  }

  lemma TakenValid(s: State, sample: real, now: real)
    requires Valid(s)
    ensures Taken(s, sample, now).Some? ==>
              (var s' := Taken(s, sample, now).value;
               Valid(s') && s'.Output() == s.Output() && s'.discontinuity == s.discontinuity
               && (s'.lastObservation.Some? ==> s'.lastObservation.value < sample))
  {
  }

  lemma CarriedValid(s: State, sample: real, target: Option<(real, real)>, reported: Option<real>)
    requires Valid(s) && (target.Some? ==> target.value.1 > 0.0)
    requires reported.Some? ==> MIN_BPM <= reported.value <= MAX_BPM
    requires s.lastObservation.Some? ==> s.lastObservation.value < sample
    ensures var s' := Carried(s, sample, target, reported);
            && Valid(s') && (s'.lastPhaseObservation.Some? ==> s'.lastPhaseObservation.value < sample)
            && Valid(Alive(s')) && s'.discontinuity == s.discontinuity && s'.lock == s.lock && s'.jump == s.jump
            && s'.precision == s.precision && s'.resyncRequested == s.resyncRequested
            && (forall t :: s'.Output().BeatAtSample(t) == s.Output().BeatAtSample(t))
  {
    hide TempoFromPhase;
    var s' := Carried(s, sample, target, reported);
    forall t
      ensures s'.Output().BeatAtSample(t) == s.Output().BeatAtSample(t)
    {
      SameOutput(s, s', t);
    }
  }

  lemma SameOutput(s: State, s': State, t: real)
    requires s'.anchorSample == s.anchorSample && s'.anchorBeat == s.anchorBeat && s'.slewRate == s.slewRate
    requires s'.slewEnd == s.slewEnd && s'.rate == s.rate
    ensures s'.Output().BeatAtSample(t) == s.Output().BeatAtSample(t)
  {
  }

  /** The output line is untouched. */
  predicate SameLine(s: State, s': State)
  {
    && s'.anchorSample == s.anchorSample && s'.anchorBeat == s.anchorBeat && s'.slewRate == s.slewRate
    && s'.slewEnd == s.slewEnd && s'.rate == s.rate && s'.sampleRate == s.sampleRate
  }

  /** Nothing moved the output, or the move is flagged. */
  predicate Flagged(s: State, s': State) { s'.discontinuity || SameLine(s, s') }

  lemma SetOutputValid(s: State, sample: real, beat: real)
    requires Valid(s)
    ensures Valid(SetOutput(s, sample, beat))
  {
    EstRateBounds(s);
  }

  lemma BeginAcquireValid(s: State, sample: real, beat: real, needed: nat)
    requires Valid(s)
    ensures Valid(BeginAcquire(s, sample, beat, needed)) && Flagged(s, BeginAcquire(s, sample, beat, needed))
  {
    hide State.EstRate;
    var s1 := RestartEstimate(s, sample, beat).(lock := Acquire, acquired := 1);
    FinishAcquireValid(s1, needed);
  }

  lemma FinishAcquireValid(s: State, needed: nat)
    requires Valid(s)
    ensures Valid(FinishAcquire(s, needed)) && Flagged(s, FinishAcquire(s, needed))
  {
    hide State.EstRate;
    SetOutputValid(s, s.estSample, s.estBeat);
  }

  lemma UpdateValid(s: State, err: real, spacing: Spacing, sqrt: real -> real)
    requires Valid(s) && (spacing.Span? ==> spacing.beats >= 0.0)
    ensures var s' := Update(s, err, spacing, sqrt);
            && Valid(s') && SameLine(s, s') && s'.discontinuity == s.discontinuity
            && s'.lock == s.lock && s'.locked == s.locked && s'.jump == s.jump && s'.acquired == s.acquired
  {
    hide Fade;
    CorrectedValid(s, err, spacing, Fade(spacing, s.Tuned().phaseTau), sqrt);
  }

  lemma CorrectedValid(s: State, err: real, spacing: Spacing, fade: real, sqrt: real -> real)
    requires Valid(s)
    ensures spacing.Span? && spacing.beats > 0.0 ==>
              (var s' := Corrected(s, err, spacing.beats, fade, sqrt);
               Valid(s') && s' == s.(bpm := s'.bpm, drift := s'.drift))
  {
  }

  lemma OutlyingValid(s: State, sample: real, err: real, modulus: real, threshold: real)
    requires Valid(s) && modulus > 0.0 && s.lock == Track && s.locked
    ensures var s' := Outlying(s, sample, err, modulus, threshold);
            Valid(s') && Flagged(s, s')
  {
    hide State.EstRate, JumpAfter, RatesOk, SetOutput;
    var j := JumpAfter(s.jump, sample, err, modulus, threshold);
    var s1 := RestartEstimate(s, sample, s.estBeat + j.offset).(updates := j.count - 1);
    RatesSame(s, s1);
    RatesSame(s, s.(jump := Some(j)));
    SnapValid(s1);
  }

  lemma SnapValid(s: State)
    requires Valid(s) && s.jump == None
    ensures Valid(SnapOutput(s)) && SnapOutput(s).discontinuity
  {
    hide State.EstRate, RatesOk, TuningOf;
    SetOutputValid(s, s.estSample, s.estBeat);
    RatesSame(SetOutput(s, s.estSample, s.estBeat), SnapOutput(s));
  }

  lemma NotedValid(s: State, sample: real, outErr: real)
    requires Valid(s) && s.lastObservation == Some(sample)
    requires s.lastPhaseObservation.Some? ==> s.lastPhaseObservation.value < sample
    ensures var s1 := NoteSpacing(s, sample).(lastPhaseObservation := Some(sample), phaseError := outErr);
            Valid(s1) && SameLine(s, s1)
            && s1 == s.(meanSpacing := s1.meanSpacing, lastPhaseObservation := Some(sample), phaseError := outErr)
  {
    SpacingPositive(s, sample);
  }

  lemma ObservePhaseValid(s: State, sample: real, phase: real, modulus: real, sqrt: real -> real)
    requires Valid(s) && modulus > 0.0 && s.lastObservation == Some(sample)
    requires s.lastPhaseObservation.Some? ==> s.lastPhaseObservation.value < sample
    ensures Valid(ObservePhase(s, sample, phase, modulus, sqrt))
    ensures Flagged(s, ObservePhase(s, sample, phase, modulus, sqrt))
  {
    hide BeginAcquire, FinishAcquire, Update, Outlying, NoteSpacing, GainSpacing, Threshold, RatesOk;
    var ours := s.Output().BeatAtSample(sample);
    var outErr, estErr := Wrap(phase - ours, modulus), Wrap(phase - s.estBeat, modulus);
    var threshold, spacing := Threshold(s, modulus), GainSpacing(s, sample);
    SpacingPositive(s, sample);
    NotedValid(s, sample, outErr);
    var s1 := NoteSpacing(s, sample).(lastPhaseObservation := Some(sample), phaseError := outErr);
    var needed := s.Tuned().acquireObs;
    assert RatesOk(s1);
    if s.resyncRequested {
      RatesSame(s1, s1.(resyncRequested := false));
      BeginAcquireValid(s1.(resyncRequested := false), sample, ours + outErr, needed);
    } else {
      match s.lock
      case Acquire =>
        if s.acquired == 0 {
          BeginAcquireValid(s1, sample, ours + outErr, needed);
        } else {
          UpdateValid(s1, estErr, spacing, sqrt);
          var s2 := Update(s1, estErr, spacing, sqrt);
          RatesSame(s2, s2.(acquired := s2.acquired + 1));
          FinishAcquireValid(s2.(acquired := s2.acquired + 1), needed);
        }
      case Reacquire =>
        if AbsR(outErr) > threshold {
          RatesSame(s1, s1.(locked := false));
          BeginAcquireValid(s1.(locked := false), sample, ours + outErr, needed);
        } else {
          RatesSame(s1, s1.(locked := true, lock := Track));
          UpdateValid(s1.(locked := true, lock := Track), estErr, spacing, sqrt);
        }
      case Track =>
        if AbsR(estErr) <= threshold {
          RatesSame(s1, s1.(locked := true, jump := None));
          UpdateValid(s1.(locked := true, jump := None), estErr, spacing, sqrt);
        } else {
          RatesSame(s1, s1.(locked := true));
          OutlyingValid(s1.(locked := true), sample, estErr, modulus, threshold);
        }
    }
  }

  lemma RatesSame(s: State, s': State)
    requires RatesOk(s) && SameLine(s, s')
    ensures RatesOk(s')
  {
  }

  lemma SlewBounded(s: State, t: real)
    requires Valid(s)
    ensures -s.Tuned().maxSlew <= Slew(s, t) <= s.Tuned().maxSlew
  {
    hide Excess, Gap;
  }

  /** A slew closes its excess in no negative time. */
  lemma SlewTimePositive(excess: real, base: real, tuning: Tuning)
    requires base > 0.0 && tuning.slewTau > 0.0 && tuning.maxSlew > 0.0
    ensures var c := SlewFor(excess, tuning);
            && (c > 0.0 <==> excess > 0.0) && (c < 0.0 <==> excess < 0.0)
            && (c != 0.0 ==> SlewTime(excess, base, c) > 0.0 && SlewTime(excess, base, c) * (base * c) == excess)
  {
    var q, c := excess / tuning.slewTau, SlewFor(excess, tuning);
    QuotientSign(excess, tuning.slewTau);
    if c != 0.0 {
      ProductSign(base, c);
      QuotientSign(excess, base * c);
    }
  }

  lemma QuotientSign(x: real, d: real)
    requires d != 0.0
    ensures x / d * d == x
    ensures d > 0.0 ==> (x > 0.0 <==> x / d > 0.0) && (x < 0.0 <==> x / d < 0.0)
    ensures d < 0.0 ==> (x > 0.0 <==> x / d < 0.0) && (x < 0.0 <==> x / d > 0.0)
  {
  }

  lemma ProductSign(b: real, c: real)
    requires b > 0.0
    ensures (c > 0.0 ==> b * c > 0.0) && (c < 0.0 ==> b * c < 0.0)
  {
  }

  lemma SlewEndAfter(s: State, t: real)
    requires Valid(s)
    ensures Steered(s, t).slewEnd >= t
  {
    hide Gap, Excess, SlewFor, SlewTime, Deadband;
    EstRatePositive(s);
    DeadbandPositive(s);
    SlewTimePositive(Excess(Gap(s, t), Deadband(s)), s.EstRate(), s.Tuned());
  }

  lemma SlewRateBounds(base: real, c: real, m: real)
    requires base > 0.0 && -m <= c <= m && 0.0 < m <= 0.05
    ensures Slewed(base, -m) <= Slewed(base, c) <= Slewed(base, m)
    ensures 0.95 * base <= Slewed(base, -m) <= base <= Slewed(base, m) <= 1.05 * base
  {
    MulAtLeast(base, 1.0 + c, 1.0 - m);
    MulAtLeast(base, 1.0 + m, 1.0 + c);
    MulAtLeast(base, 1.0 - m, 0.95);
    MulAtLeast(base, 1.05, 1.0 + m);
    MulAtLeast(base, 1.0, 1.0 - m);
    MulAtLeast(base, 1.0 + m, 1.0);
  }

  /** Re-planning at `t` keeps the beat there, and runs at the estimated tempo within the slew. */
  lemma SteeredValid(s: State, t: real)
    requires Valid(s)
    ensures var s' := Steered(s, t);
            && Valid(s') && s'.Output().BeatAtSample(t) == s.Output().BeatAtSample(t)
            && s'.discontinuity == s.discontinuity && s'.rate == s.EstRate()
            && Slewed(s'.rate, -s.Tuned().maxSlew) <= s'.slewRate <= Slewed(s'.rate, s.Tuned().maxSlew)
  {
    hide Slew, SlewTime, State.EstRate, Timeline.BeatAtSample, Slewed;
    SlewBounded(s, t);
    EstRateBounds(s);
    SlewRateBounds(s.EstRate(), Slew(s, t), s.Tuned().maxSlew);
    SlewEndAfter(s, t);
    AnchorBeat(Steered(s, t), t);
  }

  lemma AnchorBeat(s: State, t: real)
    requires s.anchorSample == t && s.slewEnd >= t
    ensures s.Output().BeatAtSample(t) == s.anchorBeat
  {
  }
}
