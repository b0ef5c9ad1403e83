/** The follower, updated in place, field by field. */
module FollowerClocks {
  import opened Numbers
  import opened Clock
  import opened Observing
  import opened Following
  import opened FollowerRuns
  import Controlling

  function RateOf(sampleRate: real, tempo: real): real
    requires sampleRate > 0.0
  {
    tempo / (60.0 * sampleRate)
  }

  lemma NewIs(sampleRate: real, tempo: real, p: Precision)
    requires sampleRate > 0.0 && MIN_BPM <= tempo <= MAX_BPM
    ensures var rate := RateOf(sampleRate, tempo);
            New(sampleRate, Finite(tempo), p)
            == State(sampleRate, p, 0.0, 0.0, rate, 0.0, rate, tempo, 0.0, 0.0, 0.0, 0,
                     Acquire, false, 0, None, false, false, None, None, None, false, false, 0.0)
  {
  }

  lemma RatePositive(s: State)
    requires Valid(s)
    ensures s.sampleRate > 0.0
  {
  }

  /** A new follower anchored at `sample`. */
  function Renewed(sampleRate: real, tempo: real, p: Precision, sample: real, beat: real): State
    requires sampleRate > 0.0 && MIN_BPM <= tempo <= MAX_BPM
  {
    NewValid(sampleRate, Finite(tempo), p);
    ResetTo(New(sampleRate, Finite(tempo), p), Finite(sample), Finite(beat)).(discontinuity := false)
  }

  /** It runs straight on at the tempo it is given. */
  lemma RenewedRunsOn(sampleRate: real, tempo: real, p: Precision, sample: real, beat: real)
    requires sampleRate > 0.0 && MIN_BPM <= tempo <= MAX_BPM
    ensures Renewed(sampleRate, tempo, p, sample, beat).Output()
            == Controlling.StraightLine(sampleRate, tempo, sample, beat)
  {
  }

  lemma RenewedValid(sampleRate: real, tempo: real, p: Precision, sample: real, beat: real)
    requires sampleRate > 0.0 && MIN_BPM <= tempo <= MAX_BPM
    ensures var f := Renewed(sampleRate, tempo, p, sample, beat);
            Valid(f) && !f.discontinuity && f.sampleRate == sampleRate
  {
    hide Valid;
    var f := New(sampleRate, Finite(tempo), p);
    NewValid(sampleRate, Finite(tempo), p);
    ResetValid(f, Finite(sample), Finite(beat));
    var f' := ResetTo(f, Finite(sample), Finite(beat));
    AfterValid(f', TakeDiscontinuity, x => x);
  }

  /** What an observation that is taken does. */
  function Absorbed(s: State, obs: Observation, sample: real, now: real, sqrt: real -> real): State
    requires Valid(s) && (s.lastObservation.Some? ==> s.lastObservation.value < sample)
  {
    var target, reported := Target(obs.phase), ReportedTempo(obs.bpm);
    CarriedValid(s, sample, target, reported);
    CarriedTime(s, sample, target, reported);
    var s1 := Carried(s, sample, target, reported);
    if target.Some? then
      ObservePhaseValid(s1, sample, target.value.0, target.value.1, sqrt);
      Steered(ObservePhase(s1, sample, target.value.0, target.value.1, sqrt), now)
    else Steered(Alive(s1), now)
  }

  lemma ObservedIs(s: State, obs: Observation, now: Float, sqrt: real -> real)
    requires Valid(s)
    ensures var taken := if obs.sample.Finite? && now.Finite? then Taken(s, obs.sample.value, now.value) else None;
            if taken.None? then Observed(s, obs, now, sqrt) == s
            else
              && Valid(taken.value)
              && (taken.value.lastObservation.Some? ==> taken.value.lastObservation.value < obs.sample.value)
              && Observed(s, obs, now, sqrt) == Absorbed(taken.value, obs, obs.sample.value, now.value, sqrt)
  {
    hide Valid, Taken, Carried, ObservePhase, Steered, Target, ReportedTempo;
    if obs.sample.Finite? && now.Finite? { TakenValid(s, obs.sample.value, now.value); }
  }

  class FollowerClock {
    var sampleRate: real
    var precision: Precision
    // Output timeline.
    var anchorSample: real
    var anchorBeat: real
    var slewRate: real
    var slewEnd: real
    var rate: real
    // Estimate of the source's timeline.
    var bpm: real
    var drift: real
    var estSample: real
    var estBeat: real
    var updates: nat
    // Lock state.
    var lock: Lock
    var locked: bool
    var acquired: nat
    var jump: Option<Jump>
    var discontinuity: bool
    var resyncRequested: bool
    var lastObservation: Option<real>
    var lastPhaseObservation: Option<real>
    var meanSpacing: Option<real>
    var tempoReported: bool
    var tempoKnown: bool
    var phaseError: real

    function Value(): State
      reads this
    {
      State(sampleRate, precision, anchorSample, anchorBeat, slewRate, slewEnd, rate, bpm, drift, estSample, estBeat,
            updates, lock, locked, acquired, jump, discontinuity, resyncRequested, lastObservation,
            lastPhaseObservation, meanSpacing, tempoReported, tempoKnown, phaseError)
    }

    constructor (sampleRate: real, initialBpm: Float, precision: Precision)
      requires sampleRate > 0.0
      ensures Value() == New(sampleRate, initialBpm, precision) && Valid(Value())
    {
      NewValid(sampleRate, initialBpm, precision);
      var tempo := if initialBpm.Finite? then Clamp(initialBpm.value, MIN_BPM, MAX_BPM) else 120.0;
      var start := tempo / (60.0 * sampleRate);
      this.sampleRate, this.precision := sampleRate, precision;
      anchorSample, anchorBeat, slewRate, slewEnd, rate := 0.0, 0.0, start, 0.0, start;
      bpm, drift, estSample, estBeat, updates := tempo, 0.0, 0.0, 0.0, 0;
      lock, locked, acquired, jump := Acquire, false, 0, None;
      discontinuity, resyncRequested := false, false;
      lastObservation, lastPhaseObservation, meanSpacing := None, None, None;
      tempoReported, tempoKnown, phaseError := false, false, 0.0;
    }

    /** Starts over, unlocked and free-running at `tempo`. */
    method Clear(tempo: real, p: Precision)
      requires sampleRate > 0.0 && MIN_BPM <= tempo <= MAX_BPM
      modifies this
      ensures Value() == New(old(sampleRate), Finite(tempo), p)
    {
      NewIs(sampleRate, tempo, p);
      hide New, RateOf;
      PutPlan(0.0, 0.0, RateOf(sampleRate, tempo), RateOf(sampleRate, tempo), 0.0);
      ClearEstimate(tempo);
      ForgetReports();
      ClearLock();
      ClearReports();
      precision := p;
    }

    method ClearReports()
      modifies this
      ensures Value() == old(Value()).(discontinuity := false, resyncRequested := false, tempoReported := false,
                                       tempoKnown := false, phaseError := 0.0)
    {
      discontinuity, resyncRequested, tempoReported, tempoKnown, phaseError := false, false, false, false, 0.0;
    }

    method ClearEstimate(tempo: real)
      modifies this
      ensures Value() == old(Value()).(bpm := tempo, drift := 0.0, estSample := 0.0, estBeat := 0.0, updates := 0)
    {
      bpm, drift, estSample, estBeat, updates := tempo, 0.0, 0.0, 0.0, 0;
    }

    method ClearLock()
      modifies this
      ensures Value() == old(Value()).(lock := Acquire, locked := false, acquired := 0, jump := None)
    {
      lock, locked, acquired, jump := Acquire, false, 0, None;
    }

    /** Starts over as a new follower does that goes on at `tempo` with `beat` on `sample`. */
    method Renew(tempo: real, p: Precision, sample: real, beat: real)
      requires Valid(Value()) && MIN_BPM <= tempo <= MAX_BPM
      modifies this
      ensures Value() == Renewed(old(sampleRate), tempo, p, sample, beat) && Valid(Value())
    {
      RatePositive(Value());
      hide Valid, ResetTo;
      NewValid(sampleRate, Finite(tempo), p);
      Clear(tempo, p);
      Reset(Finite(sample), Finite(beat));
      var jumped := TakeJump();
    }

    method ChangePrecision(p: Precision)
      requires Valid(Value())
      modifies this
      ensures Value() == WithPrecision(old(Value()), p) && Valid(Value())
    {
      hide Valid;
      PrecisionValid(Value(), p);
      if p == precision { return; }
      var max := TuningOf(p).maxDrift;
      precision, drift, jump := p, Clamp(drift, -max, max), None;
      if lock == Track { lock := Reacquire; }
    }

    /** Takes note of a jump: tells of it, and tells of it only once. */
    method TakeJump() returns (jumped: bool)
      requires Valid(Value())
      modifies this
      ensures jumped == old(discontinuity) && Value() == old(Value()).(discontinuity := false) && Valid(Value())
    {
      jumped := discontinuity;
      discontinuity := false;
    }

    /** Asks for a snap at the next phase report. */
    method RequestResync()
      requires Valid(Value())
      modifies this
      ensures Value() == old(Value()).(resyncRequested := true) && Valid(Value())
    {
      hide RatesOk;
      RatesSame(Value(), Value().(resyncRequested := true));
      resyncRequested := true;
    }

    /** Feeds one observation. */
    method Observe(obs: Observation, now: Float, sqrt: real -> real)
      requires Valid(Value())
      modifies this
      ensures Value() == Observed(old(Value()), obs, now, sqrt) && Valid(Value())
    {
      hide Valid, Absorbed;
      ObservedValid(Value(), obs, now, sqrt);
      ObservedIs(Value(), obs, now, sqrt);
      hide Observed;
      if obs.sample.NotFinite? || now.NotFinite? { return; }
      var at, t := obs.sample.value, now.value;
      var timeout := Value().Timeout();
      if t - at > timeout || at - t > MAX_AHEAD_S * sampleRate { return; }
      TakenValid(Value(), at, t);
      if lastObservation.Some? {
        if lastObservation.value - at > timeout {
          Forget();
        } else if at <= lastObservation.value {
          return;
        }
      }
      Absorb(obs, at, t, sqrt);
    }

    /** Drops what is known of the source, when our own samples count from further back. */
    method Forget()
      modifies this
      ensures Value() == Forgotten(old(Value()))
    {
      ForgetReports();
      locked, lock, acquired := false, Acquire, 0;
    }

    method ForgetReports()
      modifies this
      ensures Value() == old(Value()).(lastObservation := None, lastPhaseObservation := None, meanSpacing := None)
    {
      lastObservation, lastPhaseObservation, meanSpacing := None, None, None;
    }

    /** Takes an observation that is neither stale nor out of order. */
    method Absorb(obs: Observation, at: real, now: real, sqrt: real -> real)
      requires Valid(Value()) && (lastObservation.Some? ==> lastObservation.value < at)
      modifies this
      ensures Value() == Absorbed(old(Value()), obs, at, now, sqrt)
    {
      hide Valid, Carried, ObservePhase, Steered, Target, ReportedTempo;
      var target, reported := Target(obs.phase), ReportedTempo(obs.bpm);
      CarriedValid(Value(), at, target, reported);
      CarriedTime(Value(), at, target, reported);
      Carry(at, target, reported);
      if target.Some? {
        ObservePhaseValid(Value(), at, target.value.0, target.value.1, sqrt);
        TakePhase(at, target.value.0, target.value.1, sqrt);
      } else {
        if lock == Reacquire { lock := Track; }
        locked := true;
      }
      Steer(now);
    }

    /** Carries the estimate forward to `at` under the reported, or measured, tempo. */
    method Carry(at: real, target: Option<(real, real)>, reported: Option<real>)
      requires Valid(Value()) && (target.Some? ==> target.value.1 > 0.0)
      modifies this
      ensures Value() == Carried(old(Value()), at, target, reported)
    {
      hide TempoFromPhase, RatesOk, State.EstRate;
      var measured: Option<real> := None;
      if reported.None? && target.Some? && !tempoKnown {
        measured := TempoFromPhase(Value(), at, target.value.0, target.value.1);
      }
      var oldRate := Value().EstRate();
      TakeTempo(reported, measured);
      var meanRate := if measured.Some? then Value().EstRate() else 0.5 * (oldRate + Value().EstRate());
      CarryTo(at, meanRate);
    }

    /** The tempo a report gives, or that its phase was measured to have. */
    method TakeTempo(reported: Option<real>, measured: Option<real>)
      modifies this
      ensures var tempo := if reported.Some? then reported else measured;
              Value() == old(Value()).(tempoReported := reported.Some?, tempoKnown := old(tempoKnown) || tempo.Some?,
                                       bpm := if tempo.Some? then tempo.value else old(bpm))
    {
      tempoReported := reported.Some?;
      if reported.Some? || measured.Some? { tempoKnown := true; }
      if reported.Some? { bpm := reported.value; } else if measured.Some? { bpm := measured.value; }
    }

    method CarryTo(at: real, meanRate: real)
      modifies this
      ensures Value() == old(Value()).(estBeat := old(estBeat) + (at - old(estSample)) * meanRate, estSample := at,
                                       lastObservation := Some(at))
    {
      estBeat := estBeat + (at - estSample) * meanRate;
      estSample, lastObservation := at, Some(at);
    }

    /** Judges a phase report by the output and the estimate at its sample. */
    method TakePhase(at: real, phase: real, modulus: real, sqrt: real -> real)
      requires Valid(Value()) && modulus > 0.0 && (lastPhaseObservation.Some? ==> lastPhaseObservation.value < at)
      modifies this
      ensures Value() == ObservePhase(old(Value()), at, phase, modulus, sqrt)
    {
      hide RatesOk, PhaseStep, Threshold, GainSpacing, RawSpacing, MeanAfter, Wrap, TuningOf, State.EstRate,
           Timeline.BeatAtSample;
      SpacingPositive(Value(), at);
      var ours := Value().Output().BeatAtSample(at);
      var outErr, estErr := Wrap(phase - ours, modulus), Wrap(phase - estBeat, modulus);
      var threshold, spacing, raw := Threshold(Value(), modulus), GainSpacing(Value(), at), RawSpacing(Value(), at);
      if raw.Some? {
        var mean := if meanSpacing.Some? then MeanAfter(meanSpacing.value, raw.value) else raw.value;
        meanSpacing := Some(mean);
      }
      lastPhaseObservation, phaseError := Some(at), outErr;
      StepLock(at, ours + outErr, outErr, estErr, threshold, spacing, modulus, sqrt);
    }

    /** Acts on a phase report according to the state of the lock. */
    method StepLock(at: real, beat: real, outErr: real, estErr: real, threshold: real, spacing: Spacing, modulus: real,
                    sqrt: real -> real)
      requires sampleRate > 0.0 && modulus > 0.0 && (spacing.Span? ==> spacing.beats >= 0.0)
      modifies this
      ensures Value() == PhaseStep(old(Value()), at, beat, outErr, estErr, threshold, spacing, modulus, sqrt)
    {
      hide BeginAcquire, FinishAcquire, Update, Outlying, TuningOf;
      var needed := TuningOf(precision).acquireObs;
      if resyncRequested {
        resyncRequested := false;
        StartAcquiring(at, beat, needed);
        return;
      }
      match lock {
        case Acquire =>
          if acquired == 0 {
            StartAcquiring(at, beat, needed);
          } else {
            Correct(estErr, spacing, sqrt);
            acquired := acquired + 1;
            EndAcquiring(needed);
          }
        case Reacquire =>
          if AbsR(outErr) > threshold {
            locked := false;
            StartAcquiring(at, beat, needed);
          } else {
            locked, lock := true, Track;
            Correct(estErr, spacing, sqrt);
          }
        case Track => Follow(at, estErr, threshold, spacing, modulus, sqrt);
      }
    }

    /** A report while tracking: an inlier steers the estimate, an outlier may be part of a jump. */
    method Follow(at: real, err: real, threshold: real, spacing: Spacing, modulus: real, sqrt: real -> real)
      requires sampleRate > 0.0 && modulus > 0.0 && (spacing.Span? ==> spacing.beats >= 0.0)
      modifies this
      ensures var s := old(Value());
              Value() == if AbsR(err) <= threshold then Update(s.(locked := true, jump := None), err, spacing, sqrt)
                         else Outlying(s.(locked := true), at, err, modulus, threshold)
    {
      hide Update, Outlying;
      locked := true;
      if AbsR(err) <= threshold {
        jump := None;
        Correct(err, spacing, sqrt);
      } else {
        TakeOutlier(at, err, modulus, threshold);
      }
    }

    /** Adds an outlier to the run of those that agree, and jumps once that has held. */
    method TakeOutlier(at: real, err: real, modulus: real, threshold: real)
      requires sampleRate > 0.0 && modulus > 0.0
      modifies this
      ensures Value() == Outlying(old(Value()), at, err, modulus, threshold)
    {
      hide Wrap, TuningOf, JumpAfter;
      var j := JumpAfter(jump, at, err, modulus, threshold);
      jump := Some(j);
      var held := (at - j.since) * Value().EstRate() >= TuningOf(precision).jumpHoldBeats;
      if held && j.count >= TuningOf(precision).jumpHoldObs {
        var beat := estBeat + j.offset;
        Restart(at, beat);
        updates := j.count - 1;
        Snap();
      }
    }

    /** Corrects the estimate for a residual of `err`, `spacing` beats on. */
    method Correct(err: real, spacing: Spacing, sqrt: real -> real)
      requires spacing.Span? ==> spacing.beats >= 0.0
      modifies this
      ensures Value() == Update(old(Value()), err, spacing, sqrt)
    {
      hide TuningOf, Corrected, Step, Fade;
      var fade := Fade(spacing, TuningOf(precision).phaseTau);
      updates := updates + 1;
      estBeat := estBeat + Step(fade, updates, err);
      if spacing.Span? && spacing.beats > 0.0 { Integrate(err, spacing.beats, fade, sqrt); }
    }

    method Integrate(err: real, spacing: real, fade: real, sqrt: real -> real)
      requires spacing > 0.0
      modifies this
      ensures Value() == Corrected(old(Value()), err, spacing, fade, sqrt)
    {
      hide TuningOf, Gain, Clamp, Slewed;
      var theta := sqrt(1.0 - fade);
      var slope := err / MaxR(spacing, MIN_UPDATE_BEATS);
      if tempoReported {
        var max := TuningOf(precision).maxDrift;
        drift := Clamp(drift + Gain(TuningOf(precision).driftGain, theta, slope), -max, max);
      } else {
        bpm := Clamp(Slewed(bpm, Gain(NO_TEMPO_GAIN, theta, slope)), MIN_BPM, MAX_BPM);
      }
    }

    method StartAcquiring(at: real, beat: real, needed: nat)
      requires sampleRate > 0.0
      modifies this
      ensures Value() == BeginAcquire(old(Value()), at, beat, needed)
    {
      hide FinishAcquire;
      Restart(at, beat);
      lock := Acquire;
      acquired := 1;
      EndAcquiring(needed);
    }

    method Restart(at: real, beat: real)
      modifies this
      ensures Value() == RestartEstimate(old(Value()), at, beat)
    {
      estSample := at;
      estBeat := beat;
      updates, jump := 0, None;
    }

    method EndAcquiring(needed: nat)
      requires sampleRate > 0.0
      modifies this
      ensures Value() == FinishAcquire(old(Value()), needed)
    {
      if acquired >= needed && tempoKnown { Snap(); }
    }

    /** The output jumps onto the estimate, under a flag. */
    method Snap()
      requires sampleRate > 0.0
      modifies this
      ensures Value() == SnapOutput(old(Value()))
    {
      PutOutput(estSample, estBeat);
      discontinuity := true;
      lock, locked := Track, true;
      acquired := 0;
    }

    /** An output line as straight as the estimate's. */
    method PutOutput(at: real, beat: real)
      requires sampleRate > 0.0
      modifies this
      ensures Value() == SetOutput(old(Value()), at, beat)
    {
      hide State.EstRate;
      var base := Value().EstRate();
      PutPlan(at, beat, base, base, at);
    }

    /** Gives up the source after a silence, and plans the output afresh. */
    method Advance(now: Float)
      requires Valid(Value())
      modifies this
      ensures Value() == Advanced(old(Value()), now) && Valid(Value())
    {
      hide Valid, Steered;
      AdvancedValid(Value(), now);
      if now.NotFinite? { return; }
      LostValid(Value());
      if lastObservation.Some? && locked && now.value - lastObservation.value > Value().Timeout() {
        locked, jump := false, None;
        if lock == Track { lock := Reacquire; }
      }
      Steer(now.value);
    }

    /** Moves the grid: `beat` now falls on `sample`, and the source must be found again. */
    method Reset(sample: Float, beat: Float)
      requires Valid(Value())
      modifies this
      ensures Value() == ResetTo(old(Value()), sample, beat) && Valid(Value())
    {
      hide RatesOk, State.EstRate;
      ResetValid(Value(), sample, beat);
      if sample.NotFinite? || beat.NotFinite? { return; }
      Restart(sample.value, beat.value);
      PutOutput(sample.value, beat.value);
      lock, acquired := Acquire, 0;
      discontinuity := true;
    }

    /** Plans the output afresh from where it stands at `now`, towards the estimate. */
    method Steer(now: real)
      requires Valid(Value())
      modifies this
      ensures Value() == Steered(old(Value()), now)
    {
      hide RatesOk, TuningOf, State.EstRate, Timeline.BeatAtSample, Gap, Deadband, Excess, SlewFor, SlewTime, Slewed;
      DeadbandPositive(Value());
      EstRatePositive(Value());
      var ours, base := Value().Output().BeatAtSample(now), Value().EstRate();
      var slewing, until := base, now;
      if locked && lock == Track {
        var excess := Excess(Gap(Value(), now), Deadband(Value()));
        var c := SlewFor(excess, TuningOf(precision));
        if AbsR(c) > MIN_SLEW {
          slewing := Slewed(base, c);
          until := now + SlewTime(excess, base, c);
        }
      }
      PutPlan(now, ours, base, slewing, until);
    }

    method PutPlan(at: real, beat: real, base: real, slewing: real, until: real)
      modifies this
      ensures Value() == old(Value()).(anchorSample := at, anchorBeat := beat, rate := base, slewRate := slewing,
                                       slewEnd := until)
    {
      anchorSample, anchorBeat, rate, slewRate, slewEnd := at, beat, base, slewing, until;
    }

    lemma LostValid(s: State)
      requires Valid(s)
      ensures Valid(Lost(s))
    {
      hide RatesOk;
      RatesSame(s, Lost(s));
    }
  }
}
