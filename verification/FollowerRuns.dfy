/** What holds of the follower over whole runs: its timeline, its slews, and its jumps. */
module FollowerRuns {
  import opened Numbers
  import opened Clock
  import opened Observing
  import opened Following

  datatype Op =
    | Observe(obs: Observation, now: Float)
    | Advance(now: Float)
    | Reset(sample: Float, beat: Float)
    | SetPrecision(precision: Precision)
    | RequestResync
    | TakeDiscontinuity

  function After(s: State, op: Op, sqrt: real -> real): State
    requires Valid(s)
  {
    match op
    case Observe(obs, now) => Observed(s, obs, now, sqrt)
    case Advance(now) => Advanced(s, now)
    case Reset(sample, beat) => ResetTo(s, sample, beat)
    case SetPrecision(p) => WithPrecision(s, p)
    case RequestResync => s.(resyncRequested := true)
    case TakeDiscontinuity => s.(discontinuity := false)
  }

  /** The sample position an operation is made at. */
  function Now(op: Op): Float
  {
    match op
    case Observe(_, now) => now
    case Advance(now) => now
    case _ => NotFinite
  }

  // ---- The timeline ----

  lemma ObservedValid(s: State, obs: Observation, now: Float, sqrt: real -> real)
    requires Valid(s)
    ensures var s' := Observed(s, obs, now, sqrt);
            && Valid(s')
            && (now.Finite? && !s'.discontinuity ==>
                  s'.Output().BeatAtSample(now.value) == s.Output().BeatAtSample(now.value))
  {
    hide Valid, Taken, Carried, ObservePhase, Steered, Target, ReportedTempo, Timeline.BeatAtSample;
    if obs.sample.Finite? && now.Finite? && Taken(s, obs.sample.value, now.value).Some? {
      var sample, target, t := obs.sample.value, Target(obs.phase), now.value;
      TakenValid(s, sample, t);
      var s0 := Taken(s, sample, t).value;
      CarriedValid(s0, sample, target, ReportedTempo(obs.bpm));
      CarriedTime(s0, sample, target, ReportedTempo(obs.bpm));
      var s1 := Carried(s0, sample, target, ReportedTempo(obs.bpm));
      var s2 := if target.Some? then ObservePhase(s1, sample, target.value.0, target.value.1, sqrt) else Alive(s1);
      if target.Some? { ObservePhaseValid(s1, sample, target.value.0, target.value.1, sqrt); }
      SteeredValid(s2, t);
      if SameLine(s1, s2) { SameOutput(s1, s2, t); }
    }
  }

  lemma CarriedTime(s: State, sample: real, target: Option<(real, real)>, reported: Option<real>)
    requires Valid(s) && (target.Some? ==> target.value.1 > 0.0)
    ensures Carried(s, sample, target, reported).lastObservation == Some(sample)
  {
  }

  lemma AdvancedValid(s: State, now: Float)
    requires Valid(s)
    ensures var s' := Advanced(s, now);
            && Valid(s') && s'.discontinuity == s.discontinuity
            && (now.Finite? ==> s'.Output().BeatAtSample(now.value) == s.Output().BeatAtSample(now.value))
  {
    hide Steered, RatesOk, Timeline.BeatAtSample;
    if now.Finite? {
      RatesSame(s, Lost(s));
      SteeredValid(if IsLost(s, now.value) then Lost(s) else s, now.value);
      SameOutput(s, Lost(s), now.value);
    }
  }

  lemma ResetValid(s: State, sample: Float, beat: Float)
    requires Valid(s)
    ensures Valid(ResetTo(s, sample, beat))
    ensures sample.Finite? && beat.Finite? ==> ResetTo(s, sample, beat).discontinuity
  {
    hide State.EstRate;
    if sample.Finite? && beat.Finite? {
      SetOutputValid(RestartEstimate(s, sample.value, beat.value), sample.value, beat.value);
      var s1 := SetOutput(RestartEstimate(s, sample.value, beat.value), sample.value, beat.value);
      RatesSame(s1, s1.(lock := Acquire, acquired := 0, discontinuity := true));
    }
  }

  lemma PrecisionValid(s: State, p: Precision)
    requires Valid(s)
    ensures Valid(WithPrecision(s, p)) && SameLine(s, WithPrecision(s, p))
  {
    hide RatesOk, TuningOf, Clamp;
    ClampBounds(s.drift, TuningOf(p).maxDrift);
    RatesSame(s, WithPrecision(s, p));
  }

  lemma ClampBounds(x: real, max: real)
    requires max >= 0.0
    ensures -max <= Clamp(x, -max, max) <= max
  {
  }

  /** Every operation keeps the state valid, and the beat at its own sample position unless it
      reports a discontinuity. */
  lemma AfterValid(s: State, op: Op, sqrt: real -> real)
    requires Valid(s)
    ensures var s' := After(s, op, sqrt);
            && Valid(s')
            && (Now(op).Finite? && !s'.discontinuity ==>
                  s'.Output().BeatAtSample(Now(op).value) == s.Output().BeatAtSample(Now(op).value))
            && (Now(op).NotFinite? && !s'.discontinuity ==> SameLine(s, s'))
  {
    hide Observed, Advanced, ResetTo, WithPrecision, Timeline.BeatAtSample;
    match op
    case Observe(obs, now) => ObservedValid(s, obs, now, sqrt); NotFiniteIgnored(s, obs, now, sqrt);
    case Advance(now) => AdvancedValid(s, now); NotFiniteIgnored(s, Observation(now, TempoOnly, None), now, sqrt);
    case Reset(sample, beat) => ResetValid(s, sample, beat); ResetIgnored(s, sample, beat);
    case SetPrecision(p) => PrecisionValid(s, p);
    case RequestResync =>
    case TakeDiscontinuity =>
  }

  lemma NotFiniteIgnored(s: State, obs: Observation, now: Float, sqrt: real -> real)
    requires Valid(s)
    ensures now.NotFinite? ==> Observed(s, obs, now, sqrt) == s && Advanced(s, now) == s
  {
  }

  lemma ResetIgnored(s: State, sample: Float, beat: Float)
    requires Valid(s)
    ensures sample.NotFinite? || beat.NotFinite? ==> ResetTo(s, sample, beat) == s
  {
  }

  /** No operation changes the sample rate. */
  lemma RateKept(s: State, op: Op, sqrt: real -> real)
    requires Valid(s)
    ensures After(s, op, sqrt).sampleRate == s.sampleRate
  {
    hide Update, NoteSpacing, TempoFromPhase, Threshold, JumpAfter, GainSpacing, Slew, State.EstRate, Valid;
    if op.Observe? && op.obs.sample.Finite? && op.now.Finite? && Taken(s, op.obs.sample.value, op.now.value).Some? {
      var sample, target := op.obs.sample.value, Target(op.obs.phase);
      TakenValid(s, sample, op.now.value);
      var s0 := Taken(s, sample, op.now.value).value;
      CarriedValid(s0, sample, target, ReportedTempo(op.obs.bpm));
      CarriedTime(s0, sample, target, ReportedTempo(op.obs.bpm));
      var s1 := Carried(s0, sample, target, ReportedTempo(op.obs.bpm));
      if target.Some? { PhaseRateKept(s1, sample, target.value.0, target.value.1, sqrt); }
    }
  }

  lemma PhaseRateKept(s: State, sample: real, phase: real, modulus: real, sqrt: real -> real)
    requires Valid(s) && modulus > 0.0
    requires s.lastPhaseObservation.Some? ==> s.lastPhaseObservation.value < sample
    ensures ObservePhase(s, sample, phase, modulus, sqrt).sampleRate == s.sampleRate
  {
    hide PhaseStep, Threshold, GainSpacing, State.EstRate, Wrap, TuningOf, RawSpacing, RatesOk, Timeline.BeatAtSample;
    SpacingPositive(s, sample);
    var ours := s.Output().BeatAtSample(sample);
    var outErr, estErr := Wrap(phase - ours, modulus), Wrap(phase - s.estBeat, modulus);
    var s1 := NoteSpacing(s, sample).(lastPhaseObservation := Some(sample), phaseError := outErr);
    StepRateKept(s1, sample, ours + outErr, outErr, estErr, Threshold(s, modulus), GainSpacing(s, sample), modulus,
        sqrt);
  }

  lemma StepRateKept(s: State, sample: real, beat: real, outErr: real, estErr: real, threshold: real, spacing: Spacing,
                     modulus: real, sqrt: real -> real)
    requires s.sampleRate > 0.0 && modulus > 0.0 && (spacing.Span? ==> spacing.beats >= 0.0)
    ensures PhaseStep(s, sample, beat, outErr, estErr, threshold, spacing, modulus, sqrt).sampleRate == s.sampleRate
  {
    hide Update, JumpAfter, State.EstRate, TuningOf, AbsR;
  }

  function Run(s: State, ops: seq<Op>, sqrt: real -> real): (s': State)
    requires Valid(s)
    ensures Valid(s')
    decreases |ops|
  {
    if ops == [] then s
    else
      AfterValid(s, ops[0], sqrt);
      Run(After(s, ops[0], sqrt), ops[1..], sqrt)
  }

  lemma NewValid(sampleRate: real, bpm: Float, p: Precision)
    requires sampleRate > 0.0
    ensures Valid(New(sampleRate, bpm, p))
  {
    var s := New(sampleRate, bpm, p);
    EstRateBounds(s);
    assert s.rate == s.EstRate();
  }

  /** Whatever was observed before: the tempo stays within 20 to 400 BPM, the learned drift within
      its precision's bound, both segments of the timeline run forwards, the maps between beats
      and samples are exact inverses and strictly increasing, and the next operation leaves the
      beat at its own position where it was unless it reports a jump. */
  lemma FollowerTimeline(sampleRate: real, bpm: Float, p: Precision, ops: seq<Op>, op: Op, sqrt: real -> real,
                         a: real, b: real)
    requires sampleRate > 0.0 && a < b
    ensures Valid(New(sampleRate, bpm, p))
    ensures var s := Run(New(sampleRate, bpm, p), ops, sqrt);
            var line := s.Output();
            && MIN_BPM <= s.bpm <= MAX_BPM && AbsR(s.drift) <= s.Tuned().maxDrift
            && s.rate > 0.0 && s.slewRate > 0.0 && line.Valid()
            && line.BeatAtSample(line.SampleAtBeat(a)) == a && line.SampleAtBeat(line.BeatAtSample(a)) == a
            && line.BeatAtSample(a) < line.BeatAtSample(b) && line.SampleAtBeat(a) < line.SampleAtBeat(b)
            && (Now(op).Finite? && !After(s, op, sqrt).discontinuity ==>
                  After(s, op, sqrt).Output().BeatAtSample(Now(op).value) == line.BeatAtSample(Now(op).value))
  {
    hide After, Timeline.BeatAtSample, Timeline.SampleAtBeat;
    NewValid(sampleRate, bpm, p);
    var s := Run(New(sampleRate, bpm, p), ops, sqrt);
    OutputValid(s);
    TimelineInverse(s.Output(), a, a);
    TimelineIncreasing(s.Output(), a, b);
    AfterValid(s, op, sqrt);
  }

  lemma OutputValid(s: State)
    requires Valid(s)
    ensures s.rate > 0.0 && s.slewRate > 0.0 && s.Output().Valid()
  {
  }

  /** At any audio sample rate the follower's timeline is one the scheduler can walk exactly. */
  lemma SteadyAtAudioRate(s: State, controls: Controls)
    requires Valid(s) && s.sampleRate >= 1000.0
    ensures AudioRate(AdjustedClock(Follow(s.Output()), controls))
  {
    MulAtLeast(s.rate, 60.0 * s.sampleRate, 60000.0);
    assert s.rate <= 0.007;
    assert s.rate * 32.0 <= 1.0 && s.slewRate * 32.0 <= 1.0;
  }

  // ---- Slews ----

  /** Taking part of the excess away leaves the rest. */
  lemma ExcessShrinks(gap: real, deadband: real, part: real)
    requires deadband >= 0.0
    requires var e := Excess(gap, deadband); 0.0 <= part <= e || e <= part <= 0.0
    ensures Excess(gap - part, deadband) == Excess(gap, deadband) - part
  {
  }

  /** What a slew of fraction `c` takes off a gap in `u` samples. */
  function SlewedAway(base: real, c: real, u: real): real { base * c * u }

  /** What a slew planned at `t` has closed by `t'`. */
  function Closed(excess: real, base: real, c: real, u: real): real
    requires base > 0.0 && u >= 0.0
  {
    if AbsR(c) <= MIN_SLEW then 0.0
    else if u <= SlewTime(excess, base, c) then SlewedAway(base, c, u)
    else excess
  }

  lemma LineAhead(s: State, t: real, u: real)
    requires Valid(s) && s.anchorSample == t && s.slewEnd >= t && u >= 0.0
    ensures s.Output().BeatAtSample(t + u)
            == if u <= s.slewEnd - t then s.anchorBeat + u * s.slewRate
               else s.anchorBeat + (s.slewEnd - t) * s.slewRate + (u - (s.slewEnd - t)) * s.rate
  {
  }

  lemma GapAhead(s: State, t: real, u: real)
    requires Valid(s) && s.lock == Track && u >= 0.0
    ensures s.sampleRate > 0.0 && s.EstRate() > 0.0 && Deadband(s) >= 0.0
    ensures Gap(Steered(s, t), t + u)
            == Gap(s, t) - Closed(Excess(Gap(s, t), Deadband(s)), s.EstRate(),
                                  SlewFor(Excess(Gap(s, t), Deadband(s)), s.Tuned()), u)
  {
    hide State.EstRate, Excess, SlewFor, Deadband, SlewTime, Timeline.BeatAtSample, Slewed;
    EstRatePositive(s);
    DeadbandPositive(s);
    SteeredValid(s, t);
    SlewEndAfter(s, t);
    var s', base, e := Steered(s, t), s.EstRate(), Excess(Gap(s, t), Deadband(s));
    var c := SlewFor(e, s.Tuned());
    SlewTimePositive(e, base, s.Tuned());
    LineAhead(s', t, u);
    SameEstimate(s, s', t, u);
    GapArithmetic(s.EstBeatAt(t), s'.anchorBeat, base, c, e, u);
  }

  lemma SameEstimate(s: State, s': State, t: real, u: real)
    requires s.sampleRate > 0.0 && s' == s.(anchorSample := s'.anchorSample, anchorBeat := s'.anchorBeat,
                                            rate := s'.rate, slewRate := s'.slewRate, slewEnd := s'.slewEnd)
    ensures s'.EstRate() == s.EstRate() && s'.EstBeatAt(t + u) == s.EstBeatAt(t) + u * s.EstRate()
    ensures Deadband(s') == Deadband(s)
  {
    var d, r := t - s.estSample, s.EstRate();
    assert (d + u) * r == d * r + u * r;
  }

  lemma GapArithmetic(est: real, beat: real, base: real, c: real, e: real, u: real)
    requires base > 0.0 && u >= 0.0
    requires c != 0.0 ==> SlewTime(e, base, c) > 0.0 && SlewTime(e, base, c) * (base * c) == e
    ensures var slews := AbsR(c) > MIN_SLEW;
            var end, slewRate := if slews then SlewTime(e, base, c) else 0.0, if slews then Slewed(base, c) else base;
            est + u * base - (if u <= end then beat + u * slewRate else beat + end * slewRate + (u - end) * base)
            == est - beat - Closed(e, base, c, u)
  {
    assert u * Slewed(base, c) == u * base + base * c * u;
    if AbsR(c) > MIN_SLEW {
      var end := SlewTime(e, base, c);
      assert end * Slewed(base, c) == end * base + end * (base * c);
      assert (u - end) * base == u * base - end * base;
    }
  }

  lemma ClosedWithin(e: real, base: real, tuning: Tuning, u: real)
    requires base > 0.0 && u >= 0.0 && tuning.slewTau > 0.0 && tuning.maxSlew > 0.0
    ensures var x := Closed(e, base, SlewFor(e, tuning), u); 0.0 <= x <= e || e <= x <= 0.0
  {
    hide SlewFor, SlewTime;
    SlewTimePositive(e, base, tuning);
    var c := SlewFor(e, tuning);
    if AbsR(c) > MIN_SLEW {
      var end := SlewTime(e, base, c);
      ProductSign(base, c);
      if u <= end { ClosedBetween(base * c, u, end, e); }
    }
  }

  lemma ClosedBetween(k: real, u: real, end: real, e: real)
    requires 0.0 <= u <= end && end * k == e
    ensures k >= 0.0 ==> 0.0 <= k * u <= e
    ensures k <= 0.0 ==> e <= k * u <= 0.0
  {
    if k >= 0.0 {
      MulAtLeast(k, end, u);
      MulAtLeast(k, u, 0.0);
    } else {
      MulAtLeast(-k, end, u);
      MulAtLeast(-k, u, 0.0);
    }
  }

  /** What is left of an excess `u` samples into the slew planned for it. */
  function Left(e: real, base: real, tuning: Tuning, u: real): real
    requires base > 0.0 && u >= 0.0 && tuning.slewTau > 0.0 && tuning.maxSlew > 0.0
  {
    e - Closed(e, base, SlewFor(e, tuning), u)
  }

  /** The size of an excess after an unsaturated slew, and after a saturated one. */
  function Faded(e: real, base: real, tau: real, u: real): real
    requires tau > 0.0
  {
    MaxR(AbsR(e) * (1.0 - base * u / tau), 0.0)
  }

  function Worn(e: real, base: real, max: real, u: real): real { MaxR(AbsR(e) - base * max * u, 0.0) }

  /** A slew too small to start leaves the gap alone; an unsaturated one shrinks the excess in
      proportion to the time; a saturated one by the largest slew; both stop when it is closed. */
  lemma LeftOver(e: real, base: real, tuning: Tuning, u: real)
    requires base > 0.0 && u >= 0.0 && tuning.slewTau > 0.0 && tuning.maxSlew > MIN_SLEW
    ensures var left, c := Left(e, base, tuning, u), SlewFor(e, tuning);
            && (AbsR(c) <= MIN_SLEW ==> left == e)
            && (AbsR(c) > MIN_SLEW && c == e / tuning.slewTau ==>
                  AbsR(left) == Faded(e, base, tuning.slewTau, u))
            && (AbsR(c) > MIN_SLEW && c != e / tuning.slewTau ==> AbsR(left) == Worn(e, base, tuning.maxSlew, u))
  {
    hide SlewFor, SlewTime, SlewedAway, Faded, Worn;
    SlewTimePositive(e, base, tuning);
    ClosedWithin(e, base, tuning, u);
    var c := SlewFor(e, tuning);
    if AbsR(c) > MIN_SLEW {
      var end := SlewTime(e, base, c);
      ProductSign(base, c);
      SlewIs(e, tuning);
      if c == e / tuning.slewTau {
        Proportional(e, base, tuning.slewTau, c, u, end);
      } else {
        Saturated(e, base, tuning.maxSlew, c, u, end);
      }
    }
  }

  lemma SlewIs(e: real, tuning: Tuning)
    requires tuning.slewTau > 0.0 && tuning.maxSlew > 0.0
    ensures var c := SlewFor(e, tuning);
            c == e / tuning.slewTau || c == tuning.maxSlew || c == -tuning.maxSlew
  {
  }

  lemma Proportional(e: real, base: real, tau: real, c: real, u: real, end: real)
    requires base > 0.0 && tau > 0.0 && c == e / tau && c != 0.0 && u >= 0.0 && end > 0.0 && end * (base * c) == e
    ensures AbsR(e - if u <= end then SlewedAway(base, c, u) else e) == Faded(e, base, tau, u)
  {
    hide SlewedAway, Faded;
    var f := base * u / tau;
    FadedIs(e, base, tau, u, f);
    Quotient(e, tau, c);
    ShareOf(base, c, tau, u, e, f);
    EndTime(end, base, c, tau);
    ShareIs(base, u, tau, end, f);
    if u <= end { AbsScaled(e, f); } else { AbsScaledNegative(e, f); }
  }

  lemma Quotient(x: real, d: real, q: real)
    requires d != 0.0 && q == x / d
    ensures q * d == x
  {
  }

  lemma FadedIs(e: real, base: real, tau: real, u: real, f: real)
    requires tau > 0.0 && f == base * u / tau
    ensures Faded(e, base, tau, u) == MaxR(AbsR(e) * (1.0 - f), 0.0)
  {
  }

  lemma ShareIs(base: real, u: real, tau: real, end: real, f: real)
    requires base > 0.0 && tau > 0.0 && end * base == tau && f == base * u / tau
    ensures u <= end ==> f <= 1.0
    ensures u >= end ==> f >= 1.0
  {
    var x := base * u;
    if u <= end {
      MulAtLeast(base, end, u);
      ShareAtMost(x, tau, f);
    }
    if u >= end {
      MulAtLeast(base, u, end);
      ShareAtLeast(x, tau, f);
    }
  }

  lemma ShareOf(base: real, c: real, tau: real, u: real, e: real, f: real)
    requires tau > 0.0 && c * tau == e && f == base * u / tau
    ensures SlewedAway(base, c, u) == e * f
  {
    Quotient(base * u, tau, f);
    assert c * tau * f == c * (f * tau);
  }

  lemma EndTime(end: real, base: real, c: real, tau: real)
    requires c != 0.0 && end * (base * c) == c * tau
    ensures end * base == tau
  {
    assert (end * base) * c == tau * c;
    CancelFactor(end * base, tau, c);
  }

  lemma CancelFactor(x: real, y: real, c: real)
    requires c != 0.0 && x * c == y * c
    ensures x == y
  {
    assert x * c / c == y * c / c;
    MulThenDiv(x, c);
    MulThenDiv(y, c);
  }

  lemma ShareAtMost(x: real, d: real, f: real)
    requires d > 0.0 && f == x / d && x <= d
    ensures f <= 1.0
  {
    if f > 1.0 { MulLess(1.0, f, d); }
  }

  lemma ShareAtLeast(x: real, d: real, f: real)
    requires d > 0.0 && f == x / d && x >= d
    ensures f >= 1.0
  {
    if f < 1.0 { MulLess(f, 1.0, d); }
  }

  lemma AbsScaled(e: real, f: real)
    requires f <= 1.0
    ensures AbsR(e - e * f) == MaxR(AbsR(e) * (1.0 - f), 0.0)
  {
    var k := 1.0 - f;
    assert e - e * f == e * k;
    if e >= 0.0 { MulAtLeast(e, k, 0.0); } else { MulAtLeast(-e, k, 0.0); }
  }

  lemma AbsScaledNegative(e: real, f: real)
    requires f >= 1.0
    ensures MaxR(AbsR(e) * (1.0 - f), 0.0) == 0.0
  {
    MulAtLeast(AbsR(e), 0.0, 1.0 - f);
  }

  lemma Saturated(e: real, base: real, max: real, c: real, u: real, end: real)
    requires base > 0.0 && max > 0.0 && (c == max || c == -max) && u >= 0.0 && end > 0.0 && end * (base * c) == e
    ensures AbsR(e - if u <= end then SlewedAway(base, c, u) else e) == Worn(e, base, max, u)
  {
    var k := base * max;
    assert k > 0.0;
    assert base * c == if c == max then k else -k;
    assert end * k == AbsR(e) by { MulAtLeast(k, end, 0.0); }
    if u <= end { MulAtLeast(k, end, u); } else { MulAtLeast(k, u, end); }
  }

  /** While tracking, with no new observation: between a plan at `t` and any later `t'` the excess
      gap neither changes sign nor grows; unless the slew is too small to be started, it shrinks
      by the factor `1 - rate * dt / tau` (unsaturated) or by `rate * max * dt` (saturated) until
      it is closed, and then the output runs on at the gap clamped to the deadband; the output
      never runs more than the largest slew off the estimated tempo. */
  lemma SlewConverges(s: State, t: real, t': real)
    requires Valid(s) && s.lock == Track && t <= t'
    ensures Deadband(s) >= 0.0 && s.EstRate() > 0.0 && Deadband(Steered(s, t)) == Deadband(s)
    ensures var s', deadband, tuning := Steered(s, t), Deadband(s), s.Tuned();
            var base, g, g' := s.EstRate(), Gap(s, t), Gap(s', t');
            var e, e', dt := Excess(g, deadband), Excess(g', deadband), t' - t;
            var c := SlewFor(e, tuning);
            && (e >= 0.0 ==> 0.0 <= e' <= e) && (e <= 0.0 ==> e <= e' <= 0.0)
            && (AbsR(c) <= MIN_SLEW ==> g' == g)
            && (AbsR(c) > MIN_SLEW && c == e / tuning.slewTau ==>
                  AbsR(e') == Faded(e, base, tuning.slewTau, dt))
            && (AbsR(c) > MIN_SLEW && c != e / tuning.slewTau ==> AbsR(e') == Worn(e, base, tuning.maxSlew, dt))
            && (AbsR(c) > MIN_SLEW && t' >= s'.slewEnd ==> g' == Clamp(g, -deadband, deadband))
            && s'.rate == base && Slewed(base, -tuning.maxSlew) <= s'.slewRate <= Slewed(base, tuning.maxSlew)
  {
    hide State.EstRate, Gap, Excess, SlewFor, Deadband, SlewTime, Slewed, Closed, TuningOf, Faded, Worn, Steered, Valid;
    GapAhead(s, t, t' - t);
    SteeredValid(s, t);
    SameDeadband(s, t);
    var g, deadband, base, u := Gap(s, t), Deadband(s), s.EstRate(), t' - t;
    var e := Excess(g, deadband);
    BigSlew(s);
    ClosedWithin(e, base, s.Tuned(), u);
    ExcessShrinks(g, deadband, Closed(e, base, SlewFor(e, s.Tuned()), u));
    LeftOver(e, base, s.Tuned(), u);
    ClosedAll(s, t, t');
  }

  lemma BigSlew(s: State)
    ensures s.Tuned().maxSlew > MIN_SLEW
  {
  }

  lemma SameDeadband(s: State, t: real)
    requires Valid(s)
    ensures Deadband(Steered(s, t)) == Deadband(s) && Steered(s, t).EstRate() == s.EstRate()
  {
  }

  lemma ClosedAll(s: State, t: real, t': real)
    requires Valid(s) && s.lock == Track && t <= t'
    ensures s.EstRate() > 0.0 && Deadband(s) >= 0.0
    ensures var g := Gap(s, t);
            var e := Excess(g, Deadband(s));
            var c, x := SlewFor(e, s.Tuned()), Closed(e, s.EstRate(), SlewFor(e, s.Tuned()), t' - t);
            && (AbsR(c) <= MIN_SLEW ==> x == 0.0)
            && (AbsR(c) > MIN_SLEW && t' >= Steered(s, t).slewEnd ==> g - x == Clamp(g, -Deadband(s), Deadband(s)))
  {
    hide State.EstRate, Gap, SlewFor, SlewTime, Deadband, Slewed, Timeline.BeatAtSample;
    EstRatePositive(s);
    DeadbandPositive(s);
    var base, e := s.EstRate(), Excess(Gap(s, t), Deadband(s));
    var c := SlewFor(e, s.Tuned());
    SlewTimePositive(e, base, s.Tuned());
    if AbsR(c) > MIN_SLEW && t' - t == SlewTime(e, base, c) { FullClose(base, c, e, t' - t); }
  }

  lemma FullClose(base: real, c: real, e: real, u: real)
    requires u * (base * c) == e
    ensures base * c * u == e
  {
  }

  /** A run of control ticks without observations. */
  function AdvancedAll(s: State, times: seq<real>): (s': State)
    requires Valid(s)
    ensures Valid(s')
    decreases |times|
  {
    if times == [] then s
    else
      AdvancedValid(s, Finite(times[0]));
      AdvancedAll(Advanced(s, Finite(times[0])), times[1..])
  }

  /** The ticks go forward from `from`, and the source does not count as lost by the last. */
  predicate TicksForward(s: State, from: real, times: seq<real>)
    decreases |times|
  {
    times == [] || (from <= times[0] && !IsLost(s, times[0]) && TicksForward(s, times[0], times[1..]))
  }

  lemma TicksSame(s: State, s': State, from: real, times: seq<real>)
    requires TicksForward(s, from, times)
    requires s'.lastObservation == s.lastObservation && s'.locked == s.locked && s'.sampleRate == s.sampleRate
    ensures TicksForward(s', from, times)
    decreases |times|
  {
    if times != [] { TicksSame(s, s', times[0], times[1..]); }
  }

  function Last(from: real, times: seq<real>): real { if times == [] then from else times[|times| - 1] }

  /** Over any number of ticks at non-decreasing times the excess gap never changes sign and
      never grows. */
  lemma {:induction false} ExcessNeverGrows(s: State, from: real, times: seq<real>)
    requires Valid(s) && s.lock == Track && TicksForward(Steered(s, from), from, times)
    ensures var s0 := Steered(s, from);
            && Valid(s0) && Deadband(s0) >= 0.0 && Valid(AdvancedAll(s0, times))
            && var e, e' := Excess(Gap(s0, from), Deadband(s0)),
                            Excess(Gap(AdvancedAll(s0, times), Last(from, times)), Deadband(s0));
               (e >= 0.0 ==> 0.0 <= e' <= e) && (e <= 0.0 ==> e <= e' <= 0.0)
    decreases |times|
  {
    hide State.EstRate, Excess, Deadband, Gap, Valid, TuningOf, Steered;
    SteeredValid(s, from);
    SteeredLock(s, from);
    var s0 := Steered(s, from);
    DeadbandPositive(s0);
    if times != [] {
      var t := times[0];
      SlewConverges(s, from, t);
      SameDeadband(s, from);
      SameDeadband(s0, t);
      GapSame(s, from);
      GapSame(s0, t);
      SteeredLock(s0, t);
      assert Advanced(s0, Finite(t)) == Steered(s0, t);
      TicksSame(s0, Steered(s0, t), t, times[1..]);
      ExcessNeverGrows(s0, t, times[1..]);
      assert Last(from, times) == Last(t, times[1..]);
    }
  }

  /** What one tick leaves of an excess: all of it if the slew is too small to be started, else
      what a proportional or, beyond the largest slew, a constant one leaves. */
  function NextExcess(x: real, base: real, tuning: Tuning, dt: real): real
    requires tuning.slewTau > 0.0
  {
    if x / tuning.slewTau <= MIN_SLEW then x
    else if x / tuning.slewTau <= tuning.maxSlew then MaxR(x * (1.0 - base * dt / tuning.slewTau), 0.0)
    else MaxR(x - base * tuning.maxSlew * dt, 0.0)
  }

  lemma TickLeaves(s: State, t: real, t': real)
    requires Valid(s) && s.lock == Track && t <= t'
    ensures s.sampleRate > 0.0 && Steered(s, t).sampleRate > 0.0 && Deadband(s) >= 0.0 && s.EstRate() > 0.0
    ensures AbsR(Excess(Gap(Steered(s, t), t'), Deadband(s)))
            == NextExcess(AbsR(Excess(Gap(s, t), Deadband(s))), s.EstRate(), s.Tuned(), t' - t)
  {
    hide State.EstRate, Gap, Excess, Deadband, TuningOf, Steered, Valid, NextExcess, SlewFor, Faded, Worn, Slewed;
    SteeredValid(s, t);
    PositiveRate(s);
    PositiveRate(Steered(s, t));
    SlewConverges(s, t, t');
    BigSlew(s);
    ExcessCases(Excess(Gap(s, t), Deadband(s)), Excess(Gap(Steered(s, t), t'), Deadband(s)), s.EstRate(), s.Tuned(),
        t' - t);
  }

  lemma ExcessCases(e: real, e': real, base: real, tuning: Tuning, dt: real)
    requires tuning.slewTau > 0.0 && tuning.maxSlew > MIN_SLEW
    requires var c := SlewFor(e, tuning);
             && (AbsR(c) <= MIN_SLEW ==> e' == e)
             && (AbsR(c) > MIN_SLEW && c == e / tuning.slewTau ==> AbsR(e') == Faded(e, base, tuning.slewTau, dt))
             && (AbsR(c) > MIN_SLEW && c != e / tuning.slewTau ==> AbsR(e') == Worn(e, base, tuning.maxSlew, dt))
    ensures AbsR(e') == NextExcess(AbsR(e), base, tuning, dt)
  {
    hide SlewFor;
    QuotientAbs(e, tuning.slewTau);
    SlewForIs(e, tuning);
  }

  lemma PositiveRate(s: State)
    requires Valid(s)
    ensures s.sampleRate > 0.0
  {
  }

  lemma QuotientAbs(x: real, d: real)
    requires d > 0.0
    ensures AbsR(x) / d == AbsR(x / d)
  {
    QuotientSign(x, d);
    assert -x / d == -(x / d);
  }

  lemma SlewForIs(e: real, tuning: Tuning)
    requires tuning.slewTau > 0.0 && tuning.maxSlew > 0.0
    ensures var c, q := SlewFor(e, tuning), e / tuning.slewTau;
            if AbsR(q) <= tuning.maxSlew then c == q else AbsR(c) == tuning.maxSlew && c != q
  {
  }

  /** What a run of ticks from `from` leaves of an excess. */
  function Remaining(x: real, base: real, tuning: Tuning, from: real, times: seq<real>): real
    requires tuning.slewTau > 0.0
    decreases |times|
  {
    if times == [] then x
    else Remaining(NextExcess(x, base, tuning, times[0] - from), base, tuning, times[0], times[1..])
  }

  /** Over any number of ticks the excess decays exactly so: by the largest slew until that is more
      than it takes, then by a factor a tick, until it is closed or too small to be taken up. */
  lemma {:induction false} ExcessDecays(s: State, from: real, times: seq<real>)
    requires Valid(s) && s.lock == Track && TicksForward(Steered(s, from), from, times)
    ensures var s0 := Steered(s, from);
            && Valid(s0) && Deadband(s0) >= 0.0 && s0.EstRate() > 0.0 && Valid(AdvancedAll(s0, times))
            && AbsR(Excess(Gap(AdvancedAll(s0, times), Last(from, times)), Deadband(s0)))
               == Remaining(AbsR(Excess(Gap(s0, from), Deadband(s0))), s0.EstRate(), s0.Tuned(), from, times)
    decreases |times|
  {
    hide State.EstRate, Excess, Deadband, Gap, Valid, TuningOf, Steered, NextExcess;
    SteeredValid(s, from);
    SteeredLock(s, from);
    var s0 := Steered(s, from);
    DeadbandPositive(s0);
    EstRatePositive(s0);
    if times != [] {
      var t := times[0];
      TickLeaves(s, from, t);
      SameDeadband(s, from);
      SameDeadband(s0, t);
      GapSame(s, from);
      GapSame(s0, t);
      SteeredLock(s0, t);
      assert Advanced(s0, Finite(t)) == Steered(s0, t);
      TicksSame(s0, Steered(s0, t), t, times[1..]);
      ExcessDecays(s0, t, times[1..]);
      assert Last(from, times) == Last(t, times[1..]);
    }
  }

  lemma SteeredLock(s: State, t: real)
    requires Valid(s)
    ensures var s' := Steered(s, t);
            && s'.lock == s.lock && s'.locked == s.locked && s'.lastObservation == s.lastObservation
            && s'.sampleRate == s.sampleRate && s'.precision == s.precision
  {
  }

  lemma GapSame(s: State, t: real)
    requires Valid(s)
    ensures Valid(Steered(s, t)) && Gap(Steered(s, t), t) == Gap(s, t)
  {
    hide Timeline.BeatAtSample, Slew, SlewTime;
    SteeredValid(s, t);
  }
}
