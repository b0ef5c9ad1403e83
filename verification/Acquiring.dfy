/** What a phase report does to a follower that does not track: on its way to a lock, back after a loss of
    the source or a change of precision, or asked to re-sync. */
module Acquiring {
  import opened Numbers
  import opened Clock
  import opened Observing
  import opened Following
  import opened FollowerRuns
  import opened FollowerJumps
  import opened AfterJumps

  // ---- Near, counting by whole bars or beats ----

  /** Some whole number of moduli brings the phase within `bound` of `beat`. */
  ghost predicate Near(phase: real, beat: real, modulus: real, bound: real)
  {
    var off := phase - beat;
    exists k: int :: AbsR(LessTurns(off, modulus, k)) <= bound
  }

  /** The beat with this phase next to `beat`. */
  ghost predicate Nearest(landed: real, phase: real, beat: real, modulus: real)
  {
    && (exists k: int :: landed == LessTurns(phase, modulus, k))
    && AbsR(landed - beat) <= modulus / 2.0
  }

  lemma NearIsWrap(phase: real, beat: real, modulus: real, bound: real)
    requires modulus > 0.0 && 0.0 <= bound < modulus / 2.0
    ensures Near(phase, beat, modulus, bound) <==> AbsR(Wrap(phase - beat, modulus)) <= bound
  {
    hide Wrap;
    var k := WrapTakesTurns(phase - beat, modulus);
    var off := phase - beat;
    if n: int :| AbsR(LessTurns(off, modulus, n)) <= bound { assert n == k; }
  }

  lemma WrapIsNearest(phase: real, beat: real, modulus: real)
    requires modulus > 0.0
    ensures Nearest(beat + Wrap(phase - beat, modulus), phase, beat, modulus)
  {
    var k := WrapTakesTurns(phase - beat, modulus);
    assert beat + Wrap(phase - beat, modulus) == LessTurns(phase, modulus, k);
  }

  lemma ThresholdSmall(s: State, modulus: real)
    requires Valid(s) && modulus > 0.0
    ensures s.sampleRate > 0.0 && 0.0 <= Threshold(s, modulus) < modulus / 2.0
  {
    EstRatePositive(s);
    hide State.EstRate, RatesOk;
    MulAtLeast(s.EstRate(), s.sampleRate, 0.0);
    JumpPositive(s.precision, s.EstRate(), s.sampleRate);
  }

  lemma JumpPositive(p: Precision, estRate: real, sampleRate: real)
    requires estRate > 0.0 && sampleRate > 0.0
    ensures TuningOf(p).jumpS * estRate * sampleRate > 0.0
  {
    MulLess(0.0, TuningOf(p).jumpS * estRate, sampleRate);
    MulLess(0.0, TuningOf(p).jumpS, estRate);
  }

  // ---- One phase report ----

  /** How many phase reports a lock rests on. */
  function Enough(p: Precision): nat { if p == Coarse then 8 else 1 }

  lemma EnoughIs(p: Precision)
    ensures TuningOf(p).acquireObs == Enough(p)
  {
  }

  /** A lock is begun anew by this report: asked for, or due, or because the source is back elsewhere. */
  ghost predicate Begins(s: State, sample: real, phase: real, modulus: real)
    requires s.sampleRate > 0.0
  {
    || s.resyncRequested || (s.lock == Acquire && s.acquired == 0)
    || (s.lock == Reacquire && !Near(phase, s.Output().BeatAtSample(sample), modulus, Threshold(s, modulus)))
  }

  /** Jumped onto the estimate, and tracking. */
  ghost predicate Landed(s: State)
  {
    && s.discontinuity && s.lock == Track && s.locked && s.acquired == 0
    && s.anchorSample == s.estSample && s.anchorBeat == s.estBeat
  }

  /** Still acquiring, `n` reports in, with the output where it was. */
  ghost predicate Waits(s: State, s': State, n: nat)
  {
    !s'.discontinuity && s'.lock == Acquire && s'.acquired == n && SameLine(s, s')
  }

  lemma BeginOutcome(s: State, sample: real, beat: real)
    requires s.sampleRate > 0.0 && !s.discontinuity
    ensures var s' := BeginAcquire(s, sample, beat, Enough(s.precision));
            && s'.estSample == sample && s'.estBeat == beat && s'.resyncRequested == s.resyncRequested
            && (if Enough(s.precision) <= 1 && s.tempoKnown then Landed(s') else Waits(s, s', 1))
  {
    hide State.EstRate;
  }

  lemma FinishOutcome(s: State, n: nat)
    requires s.sampleRate > 0.0 && !s.discontinuity && s.lock == Acquire && s.acquired == n
    ensures var s' := FinishAcquire(s, Enough(s.precision));
            if n >= Enough(s.precision) && s.tempoKnown then Landed(s') else Waits(s, s', n)
  {
    hide State.EstRate;
  }

  /** A report that begins a lock puts the estimate on the beat of its phase next to the output, and the
      output jumps there exactly if one report is enough and the tempo is known. */
  lemma BeginsAnew(s: State, sample: real, phase: real, modulus: real, sqrt: real -> real)
    requires Valid(s) && modulus > 0.0 && !s.discontinuity && s.sampleRate > 0.0
    requires s.lastPhaseObservation.Some? ==> s.lastPhaseObservation.value < sample
    requires Begins(s, sample, phase, modulus)
    ensures var s' := ObservePhase(s, sample, phase, modulus, sqrt);
            && s'.estSample == sample && Nearest(s'.estBeat, phase, s.Output().BeatAtSample(sample), modulus)
            && !s'.resyncRequested
            && (if Enough(s.precision) <= 1 && s.tempoKnown then Landed(s') else Waits(s, s', 1))
  {
    hide RatesOk, GainSpacing, NoteSpacing, BeginAcquire, Threshold, Wrap, TuningOf, State.EstRate, Near, Nearest,
         Timeline.BeatAtSample, Update, Outlying, FinishAcquire, AbsR;
    var ours := s.Output().BeatAtSample(sample);
    ThresholdSmall(s, modulus);
    NearIsWrap(phase, ours, modulus, Threshold(s, modulus));
    WrapIsNearest(phase, ours, modulus);
    SpacingPositive(s, sample);
    NoteKeeps(s, sample);
    EnoughIs(s.precision);
    var outErr := Wrap(phase - ours, modulus);
    var s1 := NoteSpacing(s, sample).(lastPhaseObservation := Some(sample), phaseError := outErr);
    BeginOutcome(s1.(resyncRequested := false), sample, ours + outErr);
    BeginOutcome(s1, sample, ours + outErr);
    BeginOutcome(s1.(locked := false), sample, ours + outErr);
  }

  /** A later report of a lock is averaged in, and the output jumps exactly if that makes enough. */
  lemma AcquiresMore(s: State, sample: real, phase: real, modulus: real, sqrt: real -> real)
    requires Valid(s) && modulus > 0.0 && !s.discontinuity && !s.resyncRequested
    requires s.lastPhaseObservation.Some? ==> s.lastPhaseObservation.value < sample
    requires s.lock == Acquire && s.acquired > 0
    ensures var s' := ObservePhase(s, sample, phase, modulus, sqrt);
            if s.acquired + 1 >= Enough(s.precision) && s.tempoKnown then Landed(s') else Waits(s, s', s.acquired + 1)
  {
    hide RatesOk, GainSpacing, NoteSpacing, Threshold, Wrap, TuningOf, State.EstRate, FinishAcquire,
         Timeline.BeatAtSample, Update;
    PositiveRate(s);
    SpacingPositive(s, sample);
    NoteKeeps(s, sample);
    EnoughIs(s.precision);
    var outErr := Wrap(phase - s.Output().BeatAtSample(sample), modulus);
    var estErr, spacing := Wrap(phase - s.estBeat, modulus), GainSpacing(s, sample);
    var s1 := NoteSpacing(s, sample).(lastPhaseObservation := Some(sample), phaseError := outErr);
    UpdateKeepsLock(s1, estErr, spacing, sqrt);
    UpdateKeepsLine(s1, estErr, spacing, sqrt);
    var s2 := Update(s1, estErr, spacing, sqrt);
    FinishOutcome(s2.(acquired := s2.acquired + 1), s.acquired + 1);
  }

  lemma UpdateKeepsLine(s: State, err: real, spacing: Spacing, sqrt: real -> real)
    requires spacing.Span? ==> spacing.beats >= 0.0
    ensures var s' := Update(s, err, spacing, sqrt);
            SameLine(s, s') && s'.precision == s.precision && s'.locked == s.locked
            && s'.resyncRequested == s.resyncRequested
  {
    hide Fade;
  }

  /** A source that comes back within the threshold of the output is tracked again, without a jump. */
  lemma ComesBack(s: State, sample: real, phase: real, modulus: real, sqrt: real -> real)
    requires Valid(s) && modulus > 0.0 && !s.discontinuity && !s.resyncRequested && s.lock == Reacquire
    requires s.lastPhaseObservation.Some? ==> s.lastPhaseObservation.value < sample
    requires s.sampleRate > 0.0
    requires Near(phase, s.Output().BeatAtSample(sample), modulus, Threshold(s, modulus))
    ensures var s' := ObservePhase(s, sample, phase, modulus, sqrt);
            !s'.discontinuity && s'.lock == Track && s'.locked && s'.jump == None && SameLine(s, s')
  {
    hide RatesOk, GainSpacing, NoteSpacing, Threshold, Wrap, TuningOf, State.EstRate, Near, BeginAcquire,
         Timeline.BeatAtSample, Update, AbsR;
    var ours := s.Output().BeatAtSample(sample);
    ThresholdSmall(s, modulus);
    NearIsWrap(phase, ours, modulus, Threshold(s, modulus));
    SpacingPositive(s, sample);
    NoteKeeps(s, sample);
    var estErr, spacing := Wrap(phase - s.estBeat, modulus), GainSpacing(s, sample);
    var s1 := NoteSpacing(s, sample).(lastPhaseObservation := Some(sample), phaseError := Wrap(phase - ours, modulus));
    UpdateKeepsLock(s1.(locked := true, lock := Track), estErr, spacing, sqrt);
    UpdateKeepsLine(s1.(locked := true, lock := Track), estErr, spacing, sqrt);
  }

  // ---- Over every history ----

  /** The state a phase report is judged in, and the output, which judging leaves alone. */
  lemma JudgedLine(s: State, obs: Observation, now: real)
    requires Valid(s) && obs.sample.Finite? && Taken(s, obs.sample.value, now).Some?
    ensures SameLine(s, Judged(s, obs, now)) && Judged(s, obs, now).Output().rate == s.Output().rate
  {
    hide Valid, TempoFromPhase, State.EstRate;
  }

  lemma SteeredOutcome(s: State, t: real)
    requires Valid(s)
    ensures var s' := Steered(s, t);
            && Valid(s') && s'.discontinuity == s.discontinuity && s'.lock == s.lock && s'.locked == s.locked
            && s'.acquired == s.acquired && s'.estBeat == s.estBeat && s'.estSample == s.estSample
  {
    SteeredValid(s, t);
  }

  /** A phase report taken while the follower looks for a source it lost, its clock not gone back. */
  ghost predicate LooksFor(s: State, op: Op)
  {
    Valid(s) && s.lock == Reacquire && !s.discontinuity && !s.resyncRequested && TakesPhase(s, op)
    && !WentBack(s, op.obs.sample.value)
  }

  /** How far off the output a report may be and still be of the same source: in the terms of the tempo
      it is judged at. */
  function Tolerance(s: State, op: Op): real
    requires Valid(s) && TakesPhase(s, op)
  {
    JudgedValid(s, op.obs, op.now.value);
    Threshold(Judged(s, op.obs, op.now.value), Target(op.obs.phase).value.1)
  }

  lemma ReportReacquires(s: State, op: Op, sqrt: real -> real)
    requires LooksFor(s, op) && s.tempoKnown
    ensures var s', target := After(s, op, sqrt), Target(op.obs.phase).value;
            var ours := s.Output().BeatAtSample(op.obs.sample.value);
            if Near(target.0, ours, target.1, Tolerance(s, op))
            then !s'.discontinuity && s'.lock == Track && s'.locked
            else if s.precision != Coarse then s'.discontinuity && s'.lock == Track && s'.locked
            else !s'.discontinuity && s'.lock == Acquire && s'.acquired == 1
  {
    var sample, target, t := op.obs.sample.value, Target(op.obs.phase).value, op.now.value;
    JudgedValid(s, op.obs, t);
    JudgedKeeps(s, op.obs, t);
    JudgedLine(s, op.obs, t);
    var s1 := Judged(s, op.obs, t);
    SameOutput(s, s1, sample);
    TakenValid(s, sample, t);
    CarriedValid(Taken(s, sample, t).value, sample, Target(op.obs.phase), ReportedTempo(op.obs.bpm));
    ObservePhaseValid(s1, sample, target.0, target.1, sqrt);
    SteeredOutcome(ObservePhase(s1, sample, target.0, target.1, sqrt), t);
    hide Valid, ObservePhase, Steered, Near, Threshold, Timeline.BeatAtSample, Carried, Taken, WentBack;
    if Near(target.0, s1.Output().BeatAtSample(sample), target.1, Threshold(s1, target.1)) {
      ComesBack(s1, sample, target.0, target.1, sqrt);
    } else {
      BeginsAnew(s1, sample, target.0, target.1, sqrt);
    }
  }

  /** Over every history: a follower that lost its source, or changed precision, takes a phase report
      within the tolerance of its output for the same source and tracks it without a jump, the beat at
      `now` where it was; one beyond it makes it jump, unless it has to average several, and then it
      begins to. */
  lemma LostSourceReturns(sampleRate: real, bpm: Float, p: Precision, ops: seq<Op>, op: Op, sqrt: real -> real)
    requires sampleRate > 0.0
    ensures Valid(New(sampleRate, bpm, p))
    ensures var s := Run(New(sampleRate, bpm, p), ops, sqrt);
            var s' := After(s, op, sqrt);
            LooksFor(s, op) ==>
              var target, ours := Target(op.obs.phase).value, s.Output().BeatAtSample(op.obs.sample.value);
              var near := Near(target.0, ours, target.1, Tolerance(s, op));
              && (s'.discontinuity <==> !near && s.precision != Coarse)
              && (near || s.precision != Coarse ==> s'.lock == Track && s'.locked)
              && (!near && s.precision == Coarse ==> s'.lock == Acquire && s'.acquired == 1)
              && (!s'.discontinuity ==>
                    s'.Output().BeatAtSample(op.now.value) == s.Output().BeatAtSample(op.now.value))
  {
    hide After, Remembered, Valid, Near, Timeline.BeatAtSample, History;
    NewValid(sampleRate, bpm, p);
    var s0 := New(sampleRate, bpm, p);
    NewRemembered(sampleRate, bpm, p);
    HistoryRemembered(s0, ops, sqrt, []);
    var s := Run(s0, ops, sqrt);
    if LooksFor(s, op) {
      KnowsTempo(s, History(s0, ops, sqrt, []));
      ReportReacquires(s, op, sqrt);
      AfterValid(s, op, sqrt);
    }
  }

  lemma KnowsTempo(s: State, log: seq<Report>)
    requires Remembered(s, log) && s.lock != Acquire
    ensures s.tempoKnown
  {
  }

  /** A source is lost exactly when it was tracked and nothing of it came for two seconds; then the
      follower goes on straight at its last tempo. */
  lemma SilenceLoses(s: State, now: real, sqrt: real -> real)
    requires Valid(s) && s.lock == Track
    ensures var s' := After(s, Advance(Finite(now)), sqrt);
            && (s'.lock == Reacquire
                <==> s.lastObservation.Some? && now > s.lastObservation.value + 2.0 * s.sampleRate)
            && s'.lock != Acquire && (s'.lock == Reacquire ==> !s'.locked && s'.slewRate == s'.rate == s.EstRate())
  {
    PositiveRate(s);
    LostValid(s);
    SteeredOutcome(if IsLost(s, now) then Lost(s) else s, now);
    hide RatesOk, State.EstRate, Timeline.BeatAtSample;
    if IsLost(s, now) {
      LostSlew(s, now);
      SteeredStraight(Lost(s), now);
      SameEstRate(s, Lost(s));
    }
  }

  lemma LostValid(s: State)
    requires Valid(s)
    ensures Valid(Lost(s))
  {
    hide RatesOk;
    RatesSame(s, Lost(s));
  }

  /** A change of precision makes a tracking follower look for its source again, without a jump. */
  lemma PrecisionLooks(s: State, p: Precision, sqrt: real -> real)
    requires Valid(s) && s.lock == Track
    ensures var s' := After(s, SetPrecision(p), sqrt);
            && (s'.lock == Reacquire <==> p != s.precision) && s'.precision == p && SameLine(s, s')
            && s'.discontinuity == s.discontinuity && (p != s.precision ==> s'.jump == None)
  {
  }

  // ---- On the way to a lock ----

  /** Behind a jump the output runs through the estimate. */
  lemma OutputOnEstimate(s: State, t: real)
    requires Valid(s) && OnEstimate(s)
    ensures Valid(Steered(s, t)) && Steered(s, t).Output().BeatAtSample(s.estSample) == s.estBeat
  {
    hide State.EstRate, Timeline.BeatAtSample;
    NoGap(s, t);
    SteeredStraight(s, t);
    StraightLineAt(s, t);
    StraightLineAt(Steered(s, t), s.estSample);
    var r := s.rate;
    assert (t - s.estSample) * r + (s.estSample - t) * r == 0.0;
  }

  /** A phase report taken on the way to a lock, or when a re-sync was asked for: `n` reports in. */
  ghost predicate OnTheWay(s: State, op: Op, n: nat)
  {
    && Valid(s) && !s.discontinuity && TakesPhase(s, op)
    && var s1 := Judged(s, op.obs, op.now.value);
       if s1.resyncRequested || (s1.lock == Acquire && s1.acquired == 0) then n == 1
       else s1.lock == Acquire && n == s1.acquired + 1
  }

  /** It makes the follower jump exactly if it is the last of the reports its precision asks for and the
      tempo is known; the output then runs through the estimate. A first one puts that on the beat of
      its phase next to the output. */
  lemma ReportAcquires(s: State, op: Op, n: nat, sqrt: real -> real)
    requires OnTheWay(s, op, n)
    ensures var s', s1, target := After(s, op, sqrt), Judged(s, op.obs, op.now.value), Target(op.obs.phase).value;
            var sample := op.obs.sample.value;
            && s'.estSample == sample
            && (n == 1 ==> Nearest(s'.estBeat, target.0, s.Output().BeatAtSample(sample), target.1))
            && (s'.discontinuity <==> n >= Enough(s.precision) && s1.tempoKnown)
            && (s'.discontinuity ==>
                  s'.lock == Track && s'.locked && s'.Output().BeatAtSample(sample) == s'.estBeat)
            && (!s'.discontinuity ==> s'.lock == Acquire && s'.acquired == n)
  {
    var sample, target, t := op.obs.sample.value, Target(op.obs.phase).value, op.now.value;
    JudgedValid(s, op.obs, t);
    JudgedKeeps(s, op.obs, t);
    JudgedLine(s, op.obs, t);
    var s1 := Judged(s, op.obs, t);
    SameOutput(s, s1, sample);
    TakenValid(s, sample, t);
    CarriedValid(Taken(s, sample, t).value, sample, Target(op.obs.phase), ReportedTempo(op.obs.bpm));
    JudgedAt(s, op.obs, t);
    ObservePhaseValid(s1, sample, target.0, target.1, sqrt);
    var s2 := ObservePhase(s1, sample, target.0, target.1, sqrt);
    SteeredOutcome(s2, t);
    PhaseLands(s1, sample, target.0, target.1, sqrt);
    hide Valid, ObservePhase, Steered, Near, Nearest, Threshold, Timeline.BeatAtSample, Carried, Taken, WentBack,
         OnEstimate;
    if s1.resyncRequested || s1.acquired == 0 {
      BeginsAnew(s1, sample, target.0, target.1, sqrt);
    } else {
      AcquiresMore(s1, sample, target.0, target.1, sqrt);
      EstimateStays(s1, sample, target.0, target.1, sqrt);
    }
    if s2.discontinuity { OutputOnEstimate(s2, t); }
  }

  /** A lock begun by a place in the bar is whole bars from it, at most two beats from the output; one begun by
      a place in the beat is whole beats from it, at most half a beat away. */
  lemma BeginsInPlace(s: State, op: Op, sqrt: real -> real)
    requires OnTheWay(s, op, 1)
    ensures var s', ours := After(s, op, sqrt), s.Output().BeatAtSample(op.obs.sample.value);
            && (op.obs.phase.Bar? ==> Nearest(s'.estBeat, op.obs.phase.position.value, ours, 4.0))
            && (op.obs.phase.Beat? ==> Nearest(s'.estBeat, op.obs.phase.position.value, ours, 1.0))
  {
    hide Valid, After, Timeline.BeatAtSample, Nearest;
    ReportAcquires(s, op, 1, sqrt);
  }

  lemma JudgedAt(s: State, obs: Observation, now: real)
    requires Valid(s) && obs.sample.Finite? && Taken(s, obs.sample.value, now).Some?
    ensures Judged(s, obs, now).estSample == obs.sample.value
  {
    hide Valid, TempoFromPhase, State.EstRate;
  }

  lemma EstimateStays(s: State, sample: real, phase: real, modulus: real, sqrt: real -> real)
    requires Valid(s) && modulus > 0.0 && !s.resyncRequested && s.lock == Acquire && s.acquired > 0
    requires s.lastPhaseObservation.Some? ==> s.lastPhaseObservation.value < sample
    requires s.estSample == sample
    ensures ObservePhase(s, sample, phase, modulus, sqrt).estSample == sample
  {
    hide RatesOk, GainSpacing, Threshold, Wrap, TuningOf, State.EstRate, Timeline.BeatAtSample, Fade, Step, Gain;
    PositiveRate(s);
    SpacingPositive(s, sample);
  }
}
