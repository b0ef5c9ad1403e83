/** What keeps the next step in order: exactly which changes of controls, pattern and follower plan do,
    and that a follower's own slews do behind a queued step, and its ticks behind a jump. */
module PaceChanges {
  import opened Numbers
  import opened Clock
  import opened Pattern
  import opened Scheduling
  import opened Controlling
  import opened Engines
  import opened Pacing
  import opened Observing
  import opened Realigning
  import opened Ordering
  import opened GridHits
  import Following
  import FollowerRuns
  import AfterJumps

  // ---- Tempo and controls on the internal clock ----

  /** A tempo change leaves the next step in order if and only if the beats from `now` to it, at the
      new tempo, reach half a step of that tempo, or its flam, beyond the newest step queued. */
  lemma TempoKeepsOrder(c: ControlState, bpm: real, last: Option<nat>, now: nat)
    requires c.Valid() && OneRate(c) && c.mode == FreeRunning && c.scheduler.playing
    ensures var c' := c.(internal := c.internal.WithTempo(bpm, now as real));
            var next := Round(AtTempo(c, bpm, now) - EarlyBy(c, c.controls));
            && c'.Valid()
            && (InOrder(c', last)
                <==> next >= 0 && (last.Some? ==> next as real >= last.value as real + DistanceAt(c, SetTempo(bpm))))
  {
    hide InOrder, DistanceAt, Round, Line.WithTempo, ActiveClock.BeatAtSample, AtTempo, EarlyBy;
    TempoChangeIsContinuous(c.internal, bpm, now as real);
    assert Moved(c, SetTempo(bpm), 0, now) == c.(internal := c.internal.WithTempo(bpm, now as real));
    WithTempoRate(c.internal, bpm, now as real);
    OrderKept(c, SetTempo(bpm), 0, now, last);
  }

  lemma WithTempoRate(l: Line, bpm: real, now: real)
    requires l.Valid()
    ensures l.WithTempo(bpm, now).sampleRate == l.sampleRate
  {
  }

  /** New controls move the next step by the new nudge in beats and the new latency in samples: so
      far, and no further, may it come nearer to the newest step queued. */
  lemma ControlsKeepOrder(c: ControlState, controls: Controls, last: Option<nat>)
    requires c.Valid() && OneRate(c) && c.mode == FreeRunning && c.scheduler.playing
    ensures var c' := c.(controls := controls);
            var at := c.Adjusted().SampleAtBeat(c.Pattern().StepBeat(c.scheduler.nextStep));
            var moved := (controls.nudgeBeats - c.controls.nudgeBeats) * c.internal.SamplesPerBeat()
                         - (EarlyBy(c, controls) - EarlyBy(c, c.controls));
            && c'.Valid()
            && (InOrder(c', last)
                <==> Round(at + moved) >= 0
                     && (last.Some? ==> Round(at + moved) as real >= last.value as real + Margin(c)))
  {
    hide InOrder, DistanceAt, Margin, Round;
    assert Moved(c, SetControls(controls), 0, 0) == c.(controls := controls);
    OrderKept(c, SetControls(controls), 0, 0, last);
    assert c.Adjusted().LatencySamples() == EarlyBy(c, c.controls);
    NudgeMoves(c.internal, c.Pattern().StepBeat(c.scheduler.nextStep), c.controls.nudgeBeats, controls.nudgeBeats);
    SameDistance(c, controls);
    hide Line.SampleAtBeat, EarlyBy, Line.SamplesPerBeat, Pattern.StepBeat;
    var at := c.Adjusted().SampleAtBeat(c.Pattern().StepBeat(c.scheduler.nextStep));
    var nudged := (controls.nudgeBeats - c.controls.nudgeBeats) * c.internal.SamplesPerBeat();
    var sample := c.internal.SampleAtBeat(c.Pattern().StepBeat(c.scheduler.nextStep) + controls.nudgeBeats);
    assert NextAt(c, SetControls(controls), 0) == Round(sample - EarlyBy(c, controls));
    assert at == c.internal.SampleAtBeat(c.Pattern().StepBeat(c.scheduler.nextStep) + c.controls.nudgeBeats)
                 - EarlyBy(c, c.controls);
    assert sample - EarlyBy(c, controls) == at + (nudged - (EarlyBy(c, controls) - EarlyBy(c, c.controls)));
  }

  lemma NudgeMoves(l: Line, beat: real, nudge: real, nudge': real)
    requires l.Valid()
    ensures l.SampleAtBeat(beat + nudge') == l.SampleAtBeat(beat + nudge) + (nudge' - nudge) * l.SamplesPerBeat()
  {
    hide Line.SamplesPerBeat;
    Distribute(beat + nudge - l.anchorBeat, nudge' - nudge, l.SamplesPerBeat());
  }

  lemma SameDistance(c: ControlState, controls: Controls)
    requires c.Valid() && OneRate(c)
    requires c.scheduler.playing
    ensures DistanceAt(c, SetControls(controls)) == Margin(c)
  {
    hide HalfStep, Pattern.HasFlam;
    MovedFlams(c, Stop, 0, 0);
  }

  // ---- Pattern changes ----

  /** A new pattern leaves the next step in order if and only if its shuffle still puts that step
      on or behind the beat of the first sample, the distance to keep beyond the newest step queued,
      that rounding reaches. */
  lemma PatternKeepsOrder(c: ControlState, p: Pattern, last: nat)
    requires c.Valid() && p.Valid()
    ensures var c' := c.(scheduler := c.scheduler.(pattern := p));
            var reach := Ceil(last as real + Margin(c')) as real - 0.5;
            && c'.Valid()
            && (InOrder(c', Some(last)) <==> p.StepBeat(c.scheduler.nextStep) >= c.Adjusted().BeatAtSample(reach))
  {
    var c' := c.(scheduler := c.scheduler.(pattern := p));
    var n := Ceil(last as real + Margin(c'));
    var beat := p.StepBeat(c.scheduler.nextStep);
    hide HalfStep, Margin, AdjustedClock.SampleAtBeat, AdjustedClock.BeatAtSample;
    HalfStepPositive(c');
    ClockGalois(c.Adjusted(), n as real - 0.5, beat);
    RoundReaches(c.Adjusted().SampleAtBeat(beat), n);
    assert c'.Adjusted() == c.Adjusted() && c'.Active() == c.Active();
  }

  lemma HalfStepPositive(c: ControlState)
    requires c.Valid()
    ensures HalfStep(c.Active()) > 0.0
  {
  }

  lemma RoundReaches(x: real, n: int)
    requires n >= 1
    ensures Round(x) >= n <==> x >= n as real - 0.5
  {
  }

  /** Once a step has been queued, no change of pattern on a steady internal clock can bring the
      next one too near, if its flams are shorter than what the shuffle left of the step. */
  lemma PatternChangeKeeps(c: ControlState, p: Pattern, s: Score, now: nat)
    requires Aligned(c, s, now) && c.Valid() && c.mode == FreeRunning && c.scheduler.playing && p.Valid()
    requires s.mark.queued && s.mark.slowest == s.mark.fastest == Fastest(c.Active())
    requires FlamSamples(p, c.Adjusted()) as real + 2.0 <= s.mark.gap * c.internal.SamplesPerBeat()
    ensures var c' := c.(scheduler := c.scheduler.(pattern := p)); c'.Valid() && InOrder(c', LastSample(s.plan))
  {
    hide Aligned, Spaced, Remembers, Counted, Consecutive, Queues, Fastest, Slowest, FlamFits, InOrder, AudioRate,
         ActiveClock.BeatAtSample, InPace, Gentle, Marked, FromQueue;
    AlignedValid(c, s, now);
    var c' := c.(scheduler := c.scheduler.(pattern := p));
    var shifted := Shifted(c, c', s.mark);
    assert AudioRate(c'.Adjusted()) by { OrderRates(c, s.plan); }
    ShiftedIsMarked(c, c', s.mark, now);
    ShiftedFromQueue(c, c', s.mark, LastSample(s.plan));
    GapIs(c, s.mark, LastSample(s.plan));
    SteadyIsGentle(c', shifted);
    GentleKeepsOrder(c', shifted, LastSample(s.plan), now);
  }

  lemma GapIs(c: ControlState, m: Mark, last: Option<nat>)
    requires c.Valid() && FromQueue(c, m, last) && m.queued
    ensures m.gap >= 1.0 / 6.0
  {
  }

  // ---- A follower's plans ----

  /** The samples a clock takes over `ahead` beats that slews at `slewRate` for `slew` samples first. */
  function PlannedSpan(ahead: real, slewRate: real, slew: real, rate: real): real
    requires slewRate > 0.0 && rate > 0.0
  {
    if ahead <= slew * slewRate then ahead / slewRate else slew + (ahead - slew * slewRate) / rate
  }

  /** A plan made at `now` that keeps the beat there leaves the next step in order if and only if the
      beats ahead, first at the slew and then at the long-run rate, reach half a step or its flam
      beyond the newest step queued. */
  lemma PlanKeepsOrder(c: ControlState, plan: Timeline, last: Option<nat>, now: nat)
    requires c.Valid() && OneRate(c) && c.mode == Mode.Following && c.scheduler.playing
    requires plan.Valid() && plan.sampleRate == c.sampleRate && plan.slewEnd >= now as real == plan.anchorSample
    requires plan.anchorBeat == c.follower.BeatAtSample(now as real)
    ensures var c' := c.(follower := plan);
            var span := PlannedSpan(BeatsAhead(c, now), plan.slewRate, plan.slewEnd - now as real, plan.rate);
            var next := Round(now as real + span - EarlyBy(c, c.controls));
            && c'.Valid()
            && (InOrder(c', last)
                <==> next >= 0 && (last.Some? ==> next as real >= last.value as real
                                                  + DistanceAt(c, Observe(plan, false))))
  {
    hide InOrder, DistanceAt, Round, Timeline.BeatAtSample;
    OrderKept(c, Observe(plan, false), 0, now, last);
  }

  /** Every plan of the follower is of that kind, unless it ignores what it is told. */
  lemma FollowerPlans(f: Following.State, op: FollowerRuns.Op, sqrt: real -> real, now: real)
    requires Following.Valid(f) && FollowerRuns.Now(op) == Finite(now)
    ensures var f' := FollowerRuns.After(f, op, sqrt);
            && Following.Valid(f') && f'.sampleRate == f.sampleRate
            && (f' == f || f'.slewEnd >= now == f'.anchorSample)
            && (!f'.discontinuity ==> f'.Output().BeatAtSample(now) == f.Output().BeatAtSample(now))
  {
    hide Following.Valid, Following.Steered, Timeline.BeatAtSample, Following.Carried, Following.ObservePhase;
    FollowerRuns.AfterValid(f, op, sqrt);
    FollowerRuns.RateKept(f, op, sqrt);
    PlansAtNow(f, op, sqrt, now);
  }

  lemma PlansAtNow(f: Following.State, op: FollowerRuns.Op, sqrt: real -> real, now: real)
    requires Following.Valid(f) && FollowerRuns.Now(op) == Finite(now)
    ensures var f' := FollowerRuns.After(f, op, sqrt); f' == f || f'.slewEnd >= now == f'.anchorSample
  {
    hide Following.Valid, Following.Carried, Following.ObservePhase, Timeline.BeatAtSample, Following.Gap;
    match op
    case Advance(_) =>
      var f0 := if Following.IsLost(f, now) then Following.Lost(f) else f;
      AfterJumps.LostSlew(f, now);
      SteersAt(f0, now);
    case Observe(obs, _) =>
      if obs.sample.Finite? && Following.Taken(f, obs.sample.value, now).Some? {
        var sample, target := obs.sample.value, Following.Target(obs.phase);
        Following.TakenValid(f, sample, now);
        var f0 := Following.Taken(f, sample, now).value;
        Following.CarriedValid(f0, sample, target, Following.ReportedTempo(obs.bpm));
        FollowerRuns.CarriedTime(f0, sample, target, Following.ReportedTempo(obs.bpm));
        var f1 := Following.Carried(f0, sample, target, Following.ReportedTempo(obs.bpm));
        if target.Some? {
          Following.ObservePhaseValid(f1, sample, target.value.0, target.value.1, sqrt);
          SteersAt(Following.ObservePhase(f1, sample, target.value.0, target.value.1, sqrt), now);
        } else {
          SteersAt(Following.Alive(f1), now);
        }
      }
  }

  lemma SteersAt(f: Following.State, now: real)
    requires Following.Valid(f)
    ensures var f' := Following.Steered(f, now); f'.slewEnd >= now == f'.anchorSample
  {
    Following.SlewEndAfter(f, now);
  }

  lemma FollowerBounds(s: Following.State, controls: Controls)
    requires Following.Valid(s)
    ensures var a := Follow(s.Output());
            && a.Valid() && s.rate > 0.0 && 0.95 * s.rate <= Slowest(a) && Fastest(a) <= 1.05 * s.rate
            && 0.5 * BEATS_PER_STEP * a.SamplesPerBeat() == 0.125 / s.rate
  {
  }

  lemma SlowerHalf(rate: real, r: real)
    requires rate > 0.0 && r > 0.0 && r <= 1.01 * rate
    ensures 0.125 / rate <= 0.125 * 1.01 / r
  {
    DivPos(0.125, rate);
    AtLeastQuotient(0.125 * 1.01, r, 0.125 / rate);
  }

  // ---- Behind a queued step a follower's own slews keep the order ----

  /** What is known of a queued step while the follower's tempo stays within 1 % of `rate` beats a
      sample: its clock ran no slower, and no clock since faster, than the largest slew allows; and
      the lookahead and the flams suit that tempo. */
  ghost predicate Paced(c: ControlState, m: Mark, last: Option<nat>, rate: real, now: nat)
    requires c.Valid()
  {
    && Marked(c, m, now) && FromQueue(c, m, last) && m.queued
    && 0.0 < 0.95 * rate <= m.slowest && m.fastest <= 1.05 * 1.01 * rate
    && SlewsReach(rate, Reach(c), m.gap)
    && FlamSamples(c.Pattern(), c.Adjusted()) as real + 1.0 <= 0.125 * 1.01 / rate
  }

  /** A step queued while following is paced at the follower's tempo, if the lookahead and the flams
      suit that. */
  lemma QueuedIsPaced(c: ControlState, f: Following.State, now: nat)
    requires c.Valid() && c.mode == Mode.Following && Following.Valid(f) && c.follower == f.Output()
    requires c.scheduler.nextStep >= 1
    requires 0 <= StepPosition(c.Pattern(), c.Adjusted(), c.scheduler.nextStep - 1) < now + c.lookahead
    requires SlewsReach(f.rate, Reach(c), BEATS_PER_STEP - Delay(c.Pattern(), c.scheduler.nextStep - 1))
    requires f.rate > 0.0 && FlamSamples(c.Pattern(), c.Adjusted()) as real + 1.0 <= 0.125 * 1.01 / f.rate
    ensures Paced(c, QueuedMark(c, now), Some(StepSample(c.Pattern(), c.Adjusted(), c.scheduler.nextStep - 1)), f.rate,
                  now)
  {
    hide Marked, FromQueue, Reach, Delay, FlamSamples, StepPosition, StepSample, Slowest, Fastest;
    QueueingMarks(c, now);
    FollowerBounds(f, c.controls);
  }

  /** A re-plan at `now`, whatever the follower is told, as long as it reports no jump and the step is
      still ahead: the step stays in order, and paced. */
  lemma FollowerKeepsPace(c: ControlState, m: Mark, last: Option<nat>, f: Following.State, op: FollowerRuns.Op,
                          sqrt: real -> real, rate: real, now: nat)
    requires c.Valid() && c.mode == Mode.Following && Following.Valid(f) && c.follower == f.Output()
    requires FollowerRuns.Now(op) == Finite(now as real) && !FollowerRuns.After(f, op, sqrt).discontinuity
    requires Paced(c, m, last, rate, now) && BeatsAhead(c, now) >= 0.0
    requires rate <= 1.01 * FollowerRuns.After(f, op, sqrt).rate && FollowerRuns.After(f, op, sqrt).rate <= 1.01 * rate
    ensures var c' := c.(follower := FollowerRuns.After(f, op, sqrt).Output());
            && Following.Valid(FollowerRuns.After(f, op, sqrt)) && c'.Valid() && InOrder(c', last)
            && Paced(c', Shifted(c, c', m), last, rate, now)
  {
    hide FollowerRuns.After, Following.Valid, Timeline.BeatAtSample, HalfStep, Gentle, InPace, Marked, FromQueue, Reach,
         Slowest, Fastest, InOrder, SlewsReach, FlamSamples, Reckons;
    FollowerRuns.AfterValid(f, op, sqrt);
    FollowerRuns.RateKept(f, op, sqrt);
    var f' := FollowerRuns.After(f, op, sqrt);
    FollowerBounds(f', c.controls);
    var c' := c.(follower := f'.Output());
    var m' := Shifted(c, c', m);
    SameReach(c, c');
    ShiftedIsMarked(c, c', m, now);
    ShiftedFromQueue(c, c', m, last);
    PacedIsGentle(c', m', last, f', rate, now);
    StillAhead(c, c', now);
    GentleKeepsOrder(c', m', last, now);
  }

  lemma SameReach(c: ControlState, c': ControlState)
    requires c.Valid() && c'.Valid() && c' == c.(follower := c'.follower)
    requires c'.follower.sampleRate == c.follower.sampleRate
    ensures Reach(c') == Reach(c) && Latency(c') == Latency(c)
    ensures FlamSamples(c'.Pattern(), c'.Adjusted()) == FlamSamples(c.Pattern(), c.Adjusted())
  {
  }

  lemma StillAhead(c: ControlState, c': ControlState, now: nat)
    requires c.Valid() && c'.Valid() && c' == c.(follower := c'.follower) && BeatsAhead(c, now) >= 0.0
    requires c'.Active().BeatAtSample(now as real) == c.Active().BeatAtSample(now as real)
    ensures forall m: Mark :: Reckons(c', m, now)
  {
    hide ActiveClock.BeatAtSample;
  }

  lemma PacedIsGentle(c: ControlState, m: Mark, last: Option<nat>, f: Following.State, rate: real, now: nat)
    requires c.Valid() && c.mode == Mode.Following && Following.Valid(f) && c.follower == f.Output()
    requires Paced(c, m, last, rate, now) && rate <= 1.01 * f.rate
    ensures m.fastest > 0.0 && Gentle(c, m)
  {
    hide Following.Valid, HalfStep, Gentle, Slowest, Fastest, Marked, SlewsReach, Reach;
    FollowerBounds(f, c.controls);
    MarkPositive(c, m, now);
    GapIs(c, m, last);
    SlowerHalf(f.rate, rate);
    HalfStepIs(c);
    SlewsAreGentle(c, m, rate);
  }

  /** Operations at non-decreasing positions from `now` on, none of them a jump, with the tempo within
      1 % of `rate` and the next step still ahead at each. */
  ghost predicate OnPace(c: ControlState, f: Following.State, ops: seq<FollowerRuns.Op>, times: seq<nat>,
                         sqrt: real -> real, rate: real, now: nat)
    requires c.Valid() && c.mode == Mode.Following && Following.Valid(f) && c.follower == f.Output() && |ops| == |times|
    decreases |ops|
  {
    ops == [] ||
    (FollowerRuns.AfterValid(f, ops[0], sqrt);
     FollowerRuns.OutputValid(FollowerRuns.After(f, ops[0], sqrt));
     var f' := FollowerRuns.After(f, ops[0], sqrt);
     && FollowerRuns.Now(ops[0]) == Finite(times[0] as real) && now <= times[0] && !f'.discontinuity
     && rate <= 1.01 * f'.rate && f'.rate <= 1.01 * rate && BeatsAhead(c, times[0]) >= 0.0
     && OnPace(c.(follower := f'.Output()), f', ops[1..], times[1..], sqrt, rate, times[0]))
  }

  /** However many reports and ticks come before the next step is queued: it stays in order. */
  lemma {:induction false} ReplansKeepOrder(c: ControlState, m: Mark, last: Option<nat>, f: Following.State,
                                            ops: seq<FollowerRuns.Op>, times: seq<nat>, sqrt: real -> real, rate: real,
                                            now: nat)
    requires c.Valid() && c.mode == Mode.Following && Following.Valid(f) && c.follower == f.Output()
    requires |ops| == |times| && OnPace(c, f, ops, times, sqrt, rate, now)
    requires Paced(c, m, last, rate, now) && InOrder(c, last)
    ensures var c' := c.(follower := FollowerRuns.Run(f, ops, sqrt).Output()); c'.Valid() && InOrder(c', last)
    decreases |ops|
  {
    hide FollowerRuns.After, Following.Valid, Paced, InOrder, BeatsAhead, Shifted, ControlState.Valid;
    if ops != [] {
      FollowerRuns.AfterValid(f, ops[0], sqrt);
      PacedLater(c, m, last, rate, now, times[0]);
      FollowerKeepsPace(c, m, last, f, ops[0], sqrt, rate, times[0]);
      var f' := FollowerRuns.After(f, ops[0], sqrt);
      var c' := c.(follower := f'.Output());
      ReplansKeepOrder(c', Shifted(c, c', m), last, f', ops[1..], times[1..], sqrt, rate, times[0]);
      assert c'.(follower := FollowerRuns.Run(f, ops, sqrt).Output())
             == c.(follower := FollowerRuns.Run(f, ops, sqrt).Output());
    }
  }

  lemma PacedLater(c: ControlState, m: Mark, last: Option<nat>, rate: real, now: nat, later: nat)
    requires c.Valid() && Paced(c, m, last, rate, now) && now <= later
    ensures Paced(c, m, last, rate, later)
  {
    hide Marked, FromQueue, SlewsReach, Reach, FlamSamples;
    MarkedLater(c, m, now, later);
  }

  // ---- Behind a jump ticks keep the order; a report may not ----

  /** A clock on the same straight line puts every step where it was. */
  lemma SameLineKeepsOrder(c: ControlState, f: Following.State, f': Following.State, last: Option<nat>)
    requires c.Valid() && c.mode == Mode.Following && Following.Valid(f) && Following.Valid(f')
    requires c.follower == f.Output() && AfterJumps.SameTimeline(f, f')
    ensures var c' := c.(follower := f'.Output()); c'.Valid() && (InOrder(c', last) <==> InOrder(c, last))
  {
    hide Following.Valid, Timeline.BeatAtSample, Timeline.SampleAtBeat, Round;
    FollowerBounds(f, c.controls);
    FollowerBounds(f', c.controls);
    var c' := c.(follower := f'.Output());
    assert c'.Adjusted().SampleAtBeat(c.Pattern().StepBeat(c.scheduler.nextStep))
           == c.Adjusted().SampleAtBeat(c.Pattern().StepBeat(c.scheduler.nextStep));
    SameReach(c, c');
    assert HalfStep(c'.Active()) == HalfStep(c.Active());
  }

  /** Behind a jump, until the next report, any number of ticks leave the next step exactly where the
      jump put it, so in order. */
  lemma TicksKeepOrder(c: ControlState, f: Following.State, op: FollowerRuns.Op, sqrt: real -> real, times: seq<real>,
                       last: Option<nat>)
    requires c.Valid() && c.mode == Mode.Following && Following.Valid(f) && !f.discontinuity
    requires FollowerRuns.After(f, op, sqrt).discontinuity && c.follower == FollowerRuns.After(f, op, sqrt).Output()
    ensures Following.Valid(FollowerRuns.After(f, op, sqrt))
    ensures var c' := c.(follower := FollowerRuns.AdvancedAll(FollowerRuns.After(f, op, sqrt), times).Output());
            c'.Valid() && (InOrder(c', last) <==> InOrder(c, last))
  {
    hide Following.Valid, FollowerRuns.After, InOrder, AfterJumps.Straight;
    AfterJumps.JumpIsStraight(f, op, sqrt);
    var f' := FollowerRuns.After(f, op, sqrt);
    AfterJumps.StraightTicks(f', times);
    SameLineKeepsOrder(c, f', FollowerRuns.AdvancedAll(f', times), last);
  }

  /** A re-plan can bring the next step nearer, but by no more than 6 % of its way, with the tempo
      moved by no more than 1 %: `ahead` is the way from the mark at tempo `rate`. */
  lemma ReplanPullsLittle(c: ControlState, m: Mark, rate: real, ahead: real, now: nat)
    requires c.Valid() && Marked(c, m, now) && Reckons(c, m, now)
    requires 0.0 < rate && m.fastest <= 1.05 * 1.01 * rate && ahead >= 0.0 && m.beats >= ahead * rate
    ensures StepPosition(c.Pattern(), c.Adjusted(), c.scheduler.nextStep) as real
            >= m.at + ahead - Latency(c) - 0.06 * ahead - 0.5
  {
    hide Marked, Reckons, ActiveClock.BeatAtSample, ActiveClock.SampleAtBeat, Round, Arrival;
    MarkPositive(c, m, now);
    ArrivalIsEarliest(c, m, now);
    var x := c.Active().SampleAtBeat(BeatOf(c, c.scheduler.nextStep));
    assert c.Adjusted().SampleAtBeat(c.Pattern().StepBeat(c.scheduler.nextStep)) == x - Latency(c);
    RoundNear(x - Latency(c));
    ArrivalNear(m, rate, ahead);
  }

  lemma ArrivalNear(m: Mark, rate: real, ahead: real)
    requires 0.0 < rate && 0.0 < m.fastest <= 1.0605 * rate && ahead >= 0.0 && m.beats >= ahead * rate
    ensures Arrival(m) >= m.at + 0.94 * ahead
  {
    MulAtLeast(0.94 * ahead, 1.0605 * rate, m.fastest);
    assert 0.94 * ahead * (1.0605 * rate) == 0.99687 * (ahead * rate);
    MulAtLeast(ahead, rate, 0.0);
    AtLeastQuotient(m.beats, m.fastest, 0.94 * ahead);
  }

  lemma HalfStepIs(c: ControlState)
    requires c.Valid()
    ensures HalfStep(c.Active()) == 0.5 * BEATS_PER_STEP * c.Active().SamplesPerBeat()
  {
  }
}
