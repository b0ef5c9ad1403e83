/** The follower's timeline behind a jump: a straight line on the estimate, which ticks leave where
    it is until the next report. */
module AfterJumps {
  import opened Numbers
  import opened Clock
  import opened Observing
  import opened Following
  import opened FollowerRuns

  /** The output runs at the estimated tempo throughout, and no slew is due. */
  ghost predicate Straight(s: State)
    requires Valid(s)
  {
    s.slewRate == s.rate == s.EstRate() && AbsR(Slew(s, s.anchorSample)) <= MIN_SLEW
  }

  lemma StraightLineAt(s: State, t: real)
    requires Valid(s) && s.slewRate == s.rate
    ensures s.Output().BeatAtSample(t) == s.anchorBeat + (t - s.anchorSample) * s.rate
  {
  }

  lemma StraightSample(s: State, beat: real)
    requires Valid(s) && s.slewRate == s.rate
    ensures s.Output().Valid() && s.Output().SampleAtBeat(beat) == s.anchorSample + (beat - s.anchorBeat) / s.rate
  {
    var tl := s.Output();
    if beat > tl.SlewEndBeat() {
      var d := s.slewEnd - s.anchorSample;
      QuotientOfDifference(beat - s.anchorBeat, d * s.rate, s.rate);
      MulThenDiv(d, s.rate);
    }
  }

  /** Output and estimate run in parallel, so their gap stays. */
  lemma GapStays(s: State, t: real, u: real)
    requires Valid(s) && s.slewRate == s.rate == s.EstRate()
    ensures Gap(s, t) == Gap(s, u)
  {
    hide State.EstRate, Timeline.BeatAtSample;
    StraightLineAt(s, t);
    StraightLineAt(s, u);
    var r := s.rate;
    assert (t - s.estSample) * r - (t - s.anchorSample) * r == (s.anchorSample - s.estSample) * r;
    assert (u - s.estSample) * r - (u - s.anchorSample) * r == (s.anchorSample - s.estSample) * r;
  }

  lemma SlewStays(s: State, t: real, u: real)
    requires Valid(s) && s.slewRate == s.rate == s.EstRate()
    ensures Slew(s, t) == Slew(s, u)
  {
    hide Gap, State.EstRate, Excess;
    GapStays(s, t, u);
  }

  /** Two states on the same straight line. */
  ghost predicate SameTimeline(s: State, s': State)
    requires Valid(s) && Valid(s')
  {
    && (forall t :: s'.Output().BeatAtSample(t) == s.Output().BeatAtSample(t))
    && (forall beat :: s'.Output().SampleAtBeat(beat) == s.Output().SampleAtBeat(beat))
    && s'.rate == s.rate && s'.slewRate == s.slewRate && s'.sampleRate == s.sampleRate
  }

  /** A tick leaves a straight line where it is. */
  lemma StraightTick(s: State, t: real)
    requires Valid(s) && Straight(s)
    ensures var s' := Advanced(s, Finite(t)); Valid(s') && Straight(s') && SameTimeline(s, s')
  {
    hide Timeline.BeatAtSample, Timeline.SampleAtBeat, State.EstRate, Slew, RatesOk;
    AdvancedValid(s, Finite(t));
    var s0, s' := if IsLost(s, t) then Lost(s) else s, Advanced(s, Finite(t));
    RatesSame(s, Lost(s));
    SameEstRate(s, s0);
    SlewStays(s, s.anchorSample, t);
    LostSlew(s, t);
    SteeredStraight(s0, t);
    Reanchored(s, s', t);
  }

  /** A lost source is not steered after. */
  lemma LostSlew(s: State, t: real)
    requires Valid(s)
    ensures Valid(Lost(s)) && Slew(Lost(s), t) == 0.0
  {
    hide RatesOk;
    RatesSame(s, Lost(s));
  }

  /** Re-planning with no slew due lays a straight line. */
  lemma SteeredStraight(s: State, t: real)
    requires Valid(s) && AbsR(Slew(s, t)) <= MIN_SLEW
    ensures var s' := Steered(s, t);
            && Valid(s') && Straight(s') && s'.anchorSample == t && s'.anchorBeat == s.Output().BeatAtSample(t)
            && s'.rate == s.EstRate() && s'.sampleRate == s.sampleRate
  {
    hide Timeline.BeatAtSample, State.EstRate, SlewTime;
    SteeredValid(s, t);
    var s' := Steered(s, t);
    SameEstRate(s, s');
    SteeredGap(s, t);
  }

  lemma SteeredGap(s: State, t: real)
    requires Valid(s)
    ensures Valid(Steered(s, t)) && Slew(Steered(s, t), t) == Slew(s, t)
  {
    hide Timeline.BeatAtSample, SlewFor, Excess;
    SteeredValid(s, t);
    GapSame(s, t);
    SameDeadband(s, t);
  }

  lemma Reanchored(s: State, s': State, t: real)
    requires Valid(s) && Valid(s') && s.slewRate == s.rate == s'.rate == s'.slewRate && s'.sampleRate == s.sampleRate
    requires s'.anchorSample == t && s'.anchorBeat == s.Output().BeatAtSample(t)
    ensures SameTimeline(s, s')
  {
    hide Timeline.BeatAtSample, Timeline.SampleAtBeat, Valid;
    OutputValid(s);
    OutputValid(s');
    StraightLineAt(s, t);
    forall u
      ensures s'.Output().BeatAtSample(u) == s.Output().BeatAtSample(u)
    {
      StraightLineAt(s, u);
      StraightLineAt(s', u);
      Distribute(u - t, t - s.anchorSample, s.rate);
    }
    forall beat
      ensures s'.Output().SampleAtBeat(beat) == s.Output().SampleAtBeat(beat)
    {
      StraightSample(s, beat);
      StraightSample(s', beat);
      SamePoint(beat, s.anchorSample, s.anchorBeat, t, s'.anchorBeat, s.rate);
    }
  }

  lemma SamePoint(beat: real, a: real, b: real, a': real, b': real, rate: real)
    requires rate > 0.0 && b' == b + (a' - a) * rate
    ensures a' + (beat - b') / rate == a + (beat - b) / rate
  {
    QuotientOfDifference(beat - b, (a' - a) * rate, rate);
    MulThenDiv(a' - a, rate);
    assert beat - b' == beat - b - (a' - a) * rate;
  }

  /** Any number of ticks leave a straight line where it is. */
  lemma {:induction false} StraightTicks(s: State, times: seq<real>)
    requires Valid(s) && Straight(s)
    ensures var s' := AdvancedAll(s, times); Valid(s') && Straight(s') && SameTimeline(s, s')
    decreases |times|
  {
    hide Straight, Advanced, Timeline.BeatAtSample, Timeline.SampleAtBeat, Valid;
    if times != [] {
      StraightTick(s, times[0]);
      StraightTicks(Advanced(s, Finite(times[0])), times[1..]);
    }
  }

  // ---- Every jump lands on a straight line ----

  /** The output is anchored on the estimate. */
  ghost predicate OnEstimate(s: State)
    requires s.sampleRate > 0.0
  {
    s.anchorSample == s.estSample && s.anchorBeat == s.estBeat && s.slewRate == s.rate == s.EstRate()
  }

  lemma NoGap(s: State, t: real)
    requires Valid(s) && OnEstimate(s)
    ensures Slew(s, t) == 0.0
  {
    hide State.EstRate, Deadband, Timeline.BeatAtSample;
    StraightLineAt(s, t);
    DeadbandPositive(s);
    assert Gap(s, t) == 0.0;
  }

  /** A phase report moves the output only onto the estimate. */
  lemma PhaseLands(s: State, sample: real, phase: real, modulus: real, sqrt: real -> real)
    requires Valid(s) && modulus > 0.0 && !s.discontinuity
    requires s.lastPhaseObservation.Some? ==> s.lastPhaseObservation.value < sample
    ensures var s' := ObservePhase(s, sample, phase, modulus, sqrt);
            s'.discontinuity ==> s'.sampleRate > 0.0 && OnEstimate(s')
  {
    hide PhaseStep, Threshold, GainSpacing, Wrap, TuningOf, RawSpacing, RatesOk, Timeline.BeatAtSample, State.EstRate,
         OnEstimate;
    SpacingPositive(s, sample);
    var ours := s.Output().BeatAtSample(sample);
    var outErr, estErr := Wrap(phase - ours, modulus), Wrap(phase - s.estBeat, modulus);
    var s1 := NoteSpacing(s, sample).(lastPhaseObservation := Some(sample), phaseError := outErr);
    StepLands(s1, sample, ours + outErr, outErr, estErr, Threshold(s, modulus), GainSpacing(s, sample), modulus, sqrt);
  }

  lemma StepLands(s: State, sample: real, beat: real, outErr: real, estErr: real, threshold: real, spacing: Spacing,
                  modulus: real, sqrt: real -> real)
    requires s.sampleRate > 0.0 && modulus > 0.0 && (spacing.Span? ==> spacing.beats >= 0.0) && !s.discontinuity
    ensures var s' := PhaseStep(s, sample, beat, outErr, estErr, threshold, spacing, modulus, sqrt);
            s'.discontinuity ==> s'.sampleRate > 0.0 && OnEstimate(s')
  {
    hide SnapOutput, Update, JumpAfter, State.EstRate, TuningOf, AbsR, OnEstimate;
    var needed := s.Tuned().acquireObs;
    if s.resyncRequested {
      FinishLands(RestartEstimate(s, sample, beat).(resyncRequested := false, lock := Acquire, acquired := 1), needed);
    } else {
      match s.lock
      case Acquire =>
        if s.acquired == 0 {
          FinishLands(RestartEstimate(s, sample, beat).(lock := Acquire, acquired := 1), needed);
        } else {
          UpdateFlag(s, estErr, spacing, sqrt);
          var s2 := Update(s, estErr, spacing, sqrt);
          FinishLands(s2.(acquired := s2.acquired + 1), needed);
        }
      case Reacquire =>
        FinishLands(RestartEstimate(s, sample, beat).(locked := false, lock := Acquire, acquired := 1), needed);
        UpdateFlag(s.(locked := true, lock := Track), estErr, spacing, sqrt);
      case Track =>
        UpdateFlag(s.(locked := true, jump := None), estErr, spacing, sqrt);
        var j := JumpAfter(s.jump, sample, estErr, modulus, threshold);
        SnapLands(RestartEstimate(s.(locked := true), sample, s.estBeat + j.offset).(updates := j.count - 1));
    }
  }

  lemma UpdateFlag(s: State, err: real, spacing: Spacing, sqrt: real -> real)
    requires spacing.Span? ==> spacing.beats >= 0.0
    ensures Update(s, err, spacing, sqrt).discontinuity == s.discontinuity
  {
    hide Fade;
  }

  lemma SnapLands(s: State)
    requires s.sampleRate > 0.0
    ensures SnapOutput(s).sampleRate > 0.0 && OnEstimate(SnapOutput(s))
  {
  }

  lemma FinishLands(s: State, needed: nat)
    requires s.sampleRate > 0.0 && !s.discontinuity
    ensures var s' := FinishAcquire(s, needed);
            s'.discontinuity ==> s'.sampleRate > 0.0 && OnEstimate(s')
  {
    hide SnapOutput, OnEstimate;
    SnapLands(s);
  }

  /** Whatever makes the follower jump: it lands on a straight line. */
  lemma JumpIsStraight(s: State, op: Op, sqrt: real -> real)
    requires Valid(s) && !s.discontinuity && After(s, op, sqrt).discontinuity
    ensures Valid(After(s, op, sqrt)) && Straight(After(s, op, sqrt))
  {
    hide Valid, Carried, ObservePhase, Steered, Target, ReportedTempo, Straight, Timeline.BeatAtSample, State.EstRate,
         OnEstimate, WithPrecision, Slew;
    AfterValid(s, op, sqrt);
    match op
    case Observe(obs, now) =>
      if obs.sample.Finite? && now.Finite? && Taken(s, obs.sample.value, now.value).Some? {
        ObservedLands(s, obs, now.value, sqrt);
      }
    case Advance(now) => AdvancedValid(s, now);
    case Reset(sample, beat) => ResetLands(s, sample, beat);
    case SetPrecision(p) => PrecisionQuiet(s, p);
    case RequestResync =>
    case TakeDiscontinuity =>
  }

  lemma PrecisionQuiet(s: State, p: Precision)
    ensures WithPrecision(s, p).discontinuity == s.discontinuity
  {
  }

  lemma ResetLands(s: State, sample: Float, beat: Float)
    requires Valid(s) && !s.discontinuity && ResetTo(s, sample, beat).discontinuity
    ensures Valid(ResetTo(s, sample, beat)) && Straight(ResetTo(s, sample, beat))
  {
    hide Timeline.BeatAtSample;
    ResetValid(s, sample, beat);
  }

  lemma ObservedLands(s: State, obs: Observation, now: real, sqrt: real -> real)
    requires Valid(s) && !s.discontinuity && obs.sample.Finite? && Taken(s, obs.sample.value, now).Some?
    requires Observed(s, obs, Finite(now), sqrt).discontinuity
    ensures Valid(Observed(s, obs, Finite(now), sqrt)) && Straight(Observed(s, obs, Finite(now), sqrt))
  {
    hide Valid, Carried, ObservePhase, Steered, Target, ReportedTempo, Straight, Timeline.BeatAtSample, State.EstRate,
         OnEstimate, Slew;
    var sample, target := obs.sample.value, Target(obs.phase);
    TakenValid(s, sample, now);
    var s0 := Taken(s, sample, now).value;
    CarriedValid(s0, sample, target, ReportedTempo(obs.bpm));
    CarriedTime(s0, sample, target, ReportedTempo(obs.bpm));
    var s1 := Carried(s0, sample, target, ReportedTempo(obs.bpm));
    if target.Some? {
      PhaseLands(s1, sample, target.value.0, target.value.1, sqrt);
      ObservePhaseValid(s1, sample, target.value.0, target.value.1, sqrt);
      var s2 := ObservePhase(s1, sample, target.value.0, target.value.1, sqrt);
      SteeredValid(s2, now);
      NoGap(s2, now);
      SteeredStraight(s2, now);
    } else {
      SteeredValid(Alive(s1), now);
    }
  }
}
