/** How early the next step can fall while the clock keeps being re-planned: a lower bound that
    no re-plan can undercut as long as the clock runs no faster. */
module Pacing {
  import opened Numbers
  import opened Clock
  import opened Pattern
  import opened Scheduling
  import opened Controlling

  // ---- The rates of a clock ----

  /** Beats per sample, at the slowest and at the fastest. */
  function Slowest(a: ActiveClock): real
    requires a.Valid()
  {
    match a case Internal(l) => 1.0 / l.SamplesPerBeat() case Follow(t) => MinR(t.slewRate, t.rate)
  }

  function Fastest(a: ActiveClock): real
    requires a.Valid()
  {
    match a case Internal(l) => 1.0 / l.SamplesPerBeat() case Follow(t) => MaxR(t.slewRate, t.rate)
  }

  lemma RatesPositive(a: ActiveClock)
    requires a.Valid()
    ensures 0.0 < Slowest(a) <= Fastest(a)
  {
    match a
    case Internal(l) => DivPos(1.0, l.SamplesPerBeat());
    case Follow(t) =>
  }

  lemma ScaledBetween(low: real, high: real, rate: real, d: real)
    requires low <= rate <= high && d >= 0.0
    ensures low * d <= d * rate <= high * d
  {
    MulAtLeast(d, rate, low);
    MulAtLeast(d, high, rate);
  }

  /** Over any stretch of samples a clock moves on by no less than its slowest and no more than
      its fastest rate. */
  lemma BeatsBetween(a: ActiveClock, s: real, t: real)
    requires a.Valid() && s <= t
    ensures Slowest(a) * (t - s) <= a.BeatAtSample(t) - a.BeatAtSample(s) <= Fastest(a) * (t - s)
  {
    match a
    case Internal(l) =>
      var spb := l.SamplesPerBeat();
      QuotientOfDifference(t - l.anchorSample, s - l.anchorSample, spb);
      assert (t - s) / spb == 1.0 / spb * (t - s);
    case Follow(tl) => TimelineBetween(tl, s, t);
  }

  lemma TimelineBetween(tl: Timeline, s: real, t: real)
    requires tl.Valid() && s <= t
    ensures var low, high := MinR(tl.slewRate, tl.rate), MaxR(tl.slewRate, tl.rate);
            low * (t - s) <= tl.BeatAtSample(t) - tl.BeatAtSample(s) <= high * (t - s)
  {
    var low, high, e := MinR(tl.slewRate, tl.rate), MaxR(tl.slewRate, tl.rate), tl.slewEnd;
    var x := if t <= e then t - s else if s <= e then e - s else 0.0;
    ScaledBetween(low, high, tl.slewRate, x);
    ScaledBetween(low, high, tl.rate, (t - s) - x);
    Distribute(x, (t - s) - x, low);
    Distribute(x, (t - s) - x, high);
    TimelineTwoParts(tl, s, t, x);
  }

  /** A stretch of a timeline runs `x` samples at the slew rate and the rest at the long-run one. */
  lemma TimelineTwoParts(tl: Timeline, s: real, t: real, x: real)
    requires tl.Valid() && s <= t
    requires x == if t <= tl.slewEnd then t - s else if s <= tl.slewEnd then tl.slewEnd - s else 0.0
    ensures tl.BeatAtSample(t) - tl.BeatAtSample(s) == x * tl.slewRate + (t - s - x) * tl.rate
  {
  }

  lemma ActiveInverse(a: ActiveClock, beat: real)
    requires a.Valid()
    ensures a.BeatAtSample(a.SampleAtBeat(beat)) == beat
  {
    match a
    case Internal(l) => LineInverse(l, 0.0, beat);
    case Follow(t) => TimelineBeatBack(t, beat);
  }

  lemma ActiveIncreasing(a: ActiveClock, s: real, t: real)
    requires a.Valid() && a.BeatAtSample(s) <= a.BeatAtSample(t)
    ensures s <= t
  {
    if t < s {
      match a
      case Internal(l) => LineIncreasing(l, t, s);
      case Follow(tl) => TimelineBeatIncreasing(tl, t, s);
    }
  }

  // ---- Flams ----

  /** The shortest distance in beats between two steps, under the pattern's shuffle. */
  function ShortestStep(p: Pattern): real { BEATS_PER_STEP - Clamp(p.shuffle, 0.0, 1.0) * MAX_SHUFFLE_BEATS }

  /** Flams are shorter than the shortest step, with a sample to spare for rounding at either end. */
  predicate FlamFits(c: ControlState)
    requires c.Valid()
  {
    FlamSamples(c.Pattern(), c.Adjusted()) as real + 2.0 <= ShortestStep(c.Pattern()) / Fastest(c.Active())
  }

  /** Flams shorter than half a step fit, at 60 samples a beat or more. */
  lemma HalfStepFlamsFit(c: ControlState)
    requires c.Valid() && AudioRate(c.Adjusted()) && c.Active().SamplesPerBeat() >= 60.0
    requires FlamSamples(c.Pattern(), c.Adjusted()) as real < HalfStep(c.Active())
    ensures FlamFits(c)
  {
    hide FlamSamples;
    var spb, f, step := c.Active().SamplesPerBeat(), Fastest(c.Active()), ShortestStep(c.Pattern());
    assert HalfStep(c.Active()) == 0.125 * spb;
    assert step >= 1.0 / 6.0;
    RatesPositive(c.Active());
    FastestAtMost(c);
    hide Fastest, HalfStep, ShortestStep, AudioRate, ActiveClock.SamplesPerBeat;
    DivPos(1.05, spb);
    MulAtLeast(spb, 1.05 / spb, f);
    assert spb * f <= 1.05;
    AtLeastQuotient(step, f, 0.158 * spb);
  }

  lemma FastestAtMost(c: ControlState)
    requires c.Valid() && AudioRate(c.Adjusted())
    ensures Fastest(c.Active()) <= 1.05 / c.Active().SamplesPerBeat()
  {
    match c.Active()
    case Internal(l) =>
      QuotientGrows(1.0, 1.05, l.SamplesPerBeat());
    case Follow(t) =>
      DivPos(1.0, t.rate);
      assert 1.05 / (1.0 / t.rate) == 1.05 * t.rate by { OverReciprocal(1.05, t.rate); }
  }

  lemma SamplesBetween(c: AdjustedClock, a: real, b: real)
    requires c.Valid() && a <= b
    ensures Fastest(c.inner) > 0.0 && c.SampleAtBeat(b) - c.SampleAtBeat(a) >= (b - a) / Fastest(c.inner)
  {
    hide Fastest, ActiveClock.BeatAtSample, ActiveClock.SampleAtBeat;
    var nudge, f := c.controls.nudgeBeats, Fastest(c.inner);
    var x, y := c.inner.SampleAtBeat(a + nudge), c.inner.SampleAtBeat(b + nudge);
    RatesPositive(c.inner);
    ActiveInverse(c.inner, a + nudge);
    ActiveInverse(c.inner, b + nudge);
    ActiveIncreasing(c.inner, x, y);
    BeatsBetween(c.inner, x, y);
    QuotientAtMost(b - a, f, y - x);
  }

  /** Then a step's grace note comes behind the step before it. */
  lemma FlamBehind(c: ControlState, step: nat)
    requires c.Valid() && FlamFits(c)
    ensures StepPosition(c.Pattern(), c.Adjusted(), step + 1)
            >= StepPosition(c.Pattern(), c.Adjusted(), step) + FlamSamples(c.Pattern(), c.Adjusted()) + 1
  {
    hide Fastest, AdjustedClock.SampleAtBeat, FlamSamples, Round;
    var p, clock := c.Pattern(), c.Adjusted();
    var a, b := p.StepBeat(step), p.StepBeat(step + 1);
    assert b - a >= ShortestStep(p) by { ShortestIsShortest(p, step); }
    SamplesBetween(clock, a, b);
    QuotientGrows(ShortestStep(p), b - a, Fastest(clock.inner));
    RoundNear(clock.SampleAtBeat(a));
    RoundNear(clock.SampleAtBeat(b));
  }

  lemma ShortestIsShortest(p: Pattern, step: nat)
    ensures p.StepBeat(step + 1) - p.StepBeat(step) >= ShortestStep(p)
  {
  }

  lemma QuotientGrows(x: real, y: real, d: real)
    requires d > 0.0 && x <= y
    ensures x / d <= y / d
  {
    if x < y { DivLess(x, y, d); }
  }

  // ---- Where the next step falls ----

  /** The beat a step falls on, in the terms of the clock itself. */
  function BeatOf(c: ControlState, step: nat): real { c.Pattern().StepBeat(step) + c.controls.nudgeBeats }

  function Latency(c: ControlState): real { c.Adjusted().LatencySamples() }

  /** Beats from sample `now` to the next step. */
  function BeatsAhead(c: ControlState, now: nat): real
    requires c.Valid()
  {
    BeatOf(c, c.scheduler.nextStep) - c.Active().BeatAtSample(now as real)
  }

  /** How far the next step must keep from the one before it: half a step, and if it has a flam,
      far enough that its grace note comes behind that step too. */
  function Margin(c: ControlState): (m: real)
    requires c.Valid()
    ensures m >= HalfStep(c.Active())
  {
    var half := HalfStep(c.Active());
    if c.Pattern().HasFlam(c.scheduler.nextStep) then MaxR(half, FlamSamples(c.Pattern(), c.Adjusted()) as real + 1.0)
    else half
  }

  /** The next step falls at or after sample 0, and keeps its distance from `last`. */
  ghost predicate InOrder(c: ControlState, last: Option<nat>)
    requires c.Valid()
  {
    var next := StepPosition(c.Pattern(), c.Adjusted(), c.scheduler.nextStep);
    next >= 0 && (last.Some? ==> next as real >= last.value as real + Margin(c))
  }

  /** What is known of the way to the next step: at sample `at` it was `beats` away, and since then
      the clock ran no faster than `fastest`. If the step before it was queued at that moment,
      `last` is where, `gap` the beats from there to the next one without its shuffle, and the
      clock it was queued on runs no slower than `slowest`. */
  datatype Mark =
    Mark(at: real, beats: real, slowest: real, fastest: real, queued: bool, last: real, gap: real)

  ghost predicate Marked(c: ControlState, m: Mark, now: nat)
    requires c.Valid()
  {
    && m.at <= now as real && 0.0 < m.slowest && Slowest(c.Active()) > 0.0
    && m.fastest >= Fastest(c.Active()) && m.fastest >= m.slowest
    && m.beats - BeatsAhead(c, now) <= m.fastest * (now as real - m.at)
  }

  /** No clock that keeps to the mark reaches the next step before this sample. */
  function Arrival(m: Mark): real
    requires m.fastest > 0.0
  {
    m.at + m.beats / m.fastest
  }

  /** Even at its earliest the next step is in order. */
  ghost predicate InPace(c: ControlState, m: Mark, last: Option<nat>)
    requires c.Valid() && m.fastest > 0.0
  {
    var next := Round(Arrival(m) - Latency(c));
    next >= 0 && (last.Some? ==> next as real >= last.value as real + Margin(c))
  }

  /** The next step is still ahead at `now`, or the clock is the internal one and has kept one tempo
      since the mark, so that it is no matter. */
  predicate Reckons(c: ControlState, m: Mark, now: nat)
    requires c.Valid()
  {
    BeatsAhead(c, now) >= 0.0 || (c.mode == FreeRunning && m.fastest == Fastest(c.Active()))
  }

  lemma ArrivalIsEarliest(c: ControlState, m: Mark, now: nat)
    requires c.Valid() && Marked(c, m, now) && Reckons(c, m, now)
    ensures c.Active().SampleAtBeat(BeatOf(c, c.scheduler.nextStep)) >= Arrival(m)
  {
    if BeatsAhead(c, now) >= 0.0 { ArrivalAhead(c, m, now); } else { ArrivalOnLine(c, m, now); }
  }

  lemma ArrivalOnLine(c: ControlState, m: Mark, now: nat)
    requires c.Valid() && Marked(c, m, now) && c.mode == FreeRunning && m.fastest == Fastest(c.Active())
    ensures c.Active().SampleAtBeat(BeatOf(c, c.scheduler.nextStep)) >= Arrival(m)
  {
    var l, f, n := c.internal, m.fastest, now as real;
    hide Line.BeatAtSample, Line.SampleAtBeat, Line.SamplesPerBeat;
    var ahead := BeatsAhead(c, now);
    FreshArrival(l, BeatOf(c, c.scheduler.nextStep), n);
    DivPos(ahead, f);
    assert f * (ahead / f) + f * (n - m.at) == f * (ahead / f + (n - m.at));
    QuotientAtMost(m.beats, f, ahead / f + (n - m.at));
  }

  lemma ArrivalAhead(c: ControlState, m: Mark, now: nat)
    requires c.Valid() && Marked(c, m, now) && BeatsAhead(c, now) >= 0.0
    ensures c.Active().SampleAtBeat(BeatOf(c, c.scheduler.nextStep)) >= Arrival(m)
  {
    hide Slowest, Fastest, ActiveClock.BeatAtSample, ActiveClock.SampleAtBeat;
    var a, n := c.Active(), now as real;
    var x := a.SampleAtBeat(BeatOf(c, c.scheduler.nextStep));
    ActiveInverse(a, BeatOf(c, c.scheduler.nextStep));
    ActiveIncreasing(a, n, x);
    BeatsBetween(a, n, x);
    MulAtLeast(x - n, m.fastest, Fastest(a));
    assert m.fastest * (x - n) + m.fastest * (n - m.at) == m.fastest * (x - m.at);
    QuotientAtMost(m.beats, m.fastest, x - m.at);
  }

  lemma QuotientAtMost(x: real, d: real, y: real)
    requires d > 0.0 && x <= d * y
    ensures x / d <= y
  {
    DivPos(x, d);
    if x / d > y { MulLess(y, x / d, d); }
  }

  lemma MarkPositive(c: ControlState, m: Mark, now: nat)
    requires c.Valid() && Marked(c, m, now)
    ensures m.fastest > 0.0
  {
  }

  /** Any clock that kept to the mark has the next step in order, if the mark's earliest is. */
  lemma PaceKeepsOrder(c: ControlState, m: Mark, last: Option<nat>, now: nat)
    requires c.Valid() && Marked(c, m, now) && Reckons(c, m, now) && InPace(c, m, last)
    ensures InOrder(c, last)
  {
    MarkPositive(c, m, now);
    hide Marked, Reckons, ActiveClock.BeatAtSample, ActiveClock.SampleAtBeat, Round, Margin, Arrival;
    ArrivalIsEarliest(c, m, now);
    var x := c.Active().SampleAtBeat(BeatOf(c, c.scheduler.nextStep));
    RoundMonotone(Arrival(m) - Latency(c), x - Latency(c));
    assert c.Adjusted().SampleAtBeat(c.Pattern().StepBeat(c.scheduler.nextStep)) == x - Latency(c);
  }

  // ---- Marks taken afresh ----

  function FreshMark(c: ControlState, now: nat): (m: Mark)
    requires c.Valid()
    ensures m.fastest > 0.0
  {
    RatesPositive(c.Active());
    Mark(now as real, BeatsAhead(c, now), Slowest(c.Active()), Fastest(c.Active()), false, 0.0, 0.0)
  }

  lemma FreshIsMarked(c: ControlState, now: nat)
    requires c.Valid()
    ensures Marked(c, FreshMark(c, now), now)
  {
    RatesPositive(c.Active());
  }

  lemma FreshArrival(l: Line, beat: real, now: real)
    requires l.Valid()
    ensures 1.0 / l.SamplesPerBeat() > 0.0
    ensures now + (beat - l.BeatAtSample(now)) / (1.0 / l.SamplesPerBeat()) == l.SampleAtBeat(beat)
  {
    var spb, d := l.SamplesPerBeat(), now - l.anchorSample;
    hide Line.SamplesPerBeat;
    DivPos(1.0, spb);
    DivPos(d, spb);
    OverReciprocal(beat - l.BeatAtSample(now), spb);
    Distribute(beat - l.anchorBeat - d / spb, d / spb, spb);
  }

  lemma OverReciprocal(q: real, spb: real)
    requires spb > 0.0
    ensures q / (1.0 / spb) == q * spb
  {
    var r := 1.0 / spb;
    DivPos(1.0, spb);
    assert r * spb == 1.0;
    assert q * spb * r == q * (r * spb);
    MulThenDiv(q * spb, r);
  }

  // ---- Marks carried over a change ----

  /** The mark after a change of clock or pattern that keeps the beat at `now`. */
  function Shifted(c: ControlState, c': ControlState, m: Mark): (m': Mark)
    requires c'.Valid()
    ensures m'.fastest > 0.0
  {
    RatesPositive(c'.Active());
    var step := c.scheduler.nextStep;
    m.(beats := m.beats + c'.Pattern().StepBeat(step) - c.Pattern().StepBeat(step),
       fastest := MaxR(m.fastest, Fastest(c'.Active())))
  }

  lemma ShiftedIsMarked(c: ControlState, c': ControlState, m: Mark, now: nat)
    requires c.Valid() && c'.Valid() && Marked(c, m, now) && c'.controls == c.controls
    requires c'.scheduler.nextStep == c.scheduler.nextStep
    requires c'.Active().BeatAtSample(now as real) == c.Active().BeatAtSample(now as real)
    ensures Marked(c', Shifted(c, c', m), now)
  {
    hide Slowest, Fastest, ActiveClock.BeatAtSample;
    RatesPositive(c'.Active());
    MulAtLeast(now as real - m.at, Shifted(c, c', m).fastest, m.fastest);
  }

  /** Time passes. */
  lemma MarkedLater(c: ControlState, m: Mark, now: nat, later: nat)
    requires c.Valid() && Marked(c, m, now) && now <= later
    ensures Marked(c, m, later)
  {
    hide Slowest, Fastest, ActiveClock.BeatAtSample;
    var d := later as real - now as real;
    BeatsBetween(c.Active(), now as real, later as real);
    MulAtLeast(d, m.fastest, Fastest(c.Active()));
    Distribute(now as real - m.at, d, m.fastest);
  }

  // ---- Queueing a step leaves room for slews ----

  /** The furthest ahead of `now` a step is queued, before latency. */
  function Reach(c: ControlState): real { c.lookahead as real + Latency(c) + 0.5 }

  /** How late shuffle makes a step. */
  function Delay(p: Pattern, step: nat): (d: real)
    ensures 0.0 <= d <= MAX_SHUFFLE_BEATS
  {
    p.StepBeat(step) - step as real * BEATS_PER_STEP
  }

  /** The fewest beats from the mark on to the step just queued, or the most back to it. */
  function ToNewest(m: Mark): real
  {
    if m.last >= m.at then m.slowest * (m.last - m.at) else m.fastest * (m.last - m.at)
  }

  /** The mark was taken as the step before the next was queued, at `last`: from there the next
      one is at least `gap` on, however a new pattern may shuffle it. */
  ghost predicate FromQueue(c: ControlState, m: Mark, last: Option<nat>)
    requires c.Valid()
  {
    m.queued ==>
      && last.Some? && AbsR(last.value as real - (m.last - Latency(c))) <= 0.5
      && 0.0 < m.slowest <= m.fastest && m.last <= m.at + Reach(c)
      && m.gap >= 1.0 / 6.0 && m.beats - Delay(c.Pattern(), c.scheduler.nextStep) >= m.gap + ToNewest(m)
  }

  /** What the gap leaves at the fastest rate, less what the clock can gain on the step just queued
      while that is still ahead, is more than the distance to keep. */
  ghost predicate Gentle(c: ControlState, m: Mark)
    requires c.Valid() && m.fastest > 0.0
  {
    m.queued && m.gap / m.fastest - (1.0 - m.slowest / m.fastest) * MaxR(Reach(c), 0.0) >= 1.0 + Margin(c)
  }

  lemma GentleKeepsPace(c: ControlState, m: Mark, last: Option<nat>)
    requires c.Valid() && m.fastest > 0.0 && Gentle(c, m) && FromQueue(c, m, last)
    ensures InPace(c, m, last)
  {
    QueuedAhead(c, m, last);
    hide FromQueue, Margin, Round, Latency, Reach;
    LatestArrival(m, MaxR(Reach(c), 0.0));
    assert Arrival(m) >= m.last + 1.0 + Margin(c);
    RoundNear(Arrival(m) - Latency(c));
  }

  lemma QueuedAhead(c: ControlState, m: Mark, last: Option<nat>)
    requires c.Valid() && m.queued && FromQueue(c, m, last)
    ensures last.Some? && AbsR(last.value as real - (m.last - Latency(c))) <= 0.5
    ensures 0.0 < m.slowest <= m.fastest && m.last - m.at <= Reach(c) <= MaxR(Reach(c), 0.0)
    ensures m.beats >= m.gap + ToNewest(m)
  {
    hide Delay, ToNewest;
    assert Delay(c.Pattern(), c.scheduler.nextStep) >= 0.0;
  }

  /** From a step queued at most `reach` samples ahead the next one is the gap at the fastest rate,
      less what that rate gains on the step. */
  lemma LatestArrival(m: Mark, reach: real)
    requires 0.0 < m.slowest <= m.fastest && reach >= 0.0 && m.last - m.at <= reach
    requires m.beats >= m.gap + ToNewest(m)
    ensures Arrival(m) >= m.last + m.gap / m.fastest - (1.0 - m.slowest / m.fastest) * reach
  {
    var d := m.last - m.at;
    if d >= 0.0 {
      AheadAtLeast(m.beats, m.fastest, m.gap, m.slowest, d, reach);
    } else {
      BehindAtLeast(m.beats, m.fastest, m.gap, m.slowest, d, reach);
    }
  }

  lemma AheadAtLeast(beats: real, f: real, gap: real, slowest: real, d: real, reach: real)
    requires 0.0 < slowest <= f && d <= reach && beats >= gap + slowest * d
    ensures beats / f >= gap / f + d - (1.0 - slowest / f) * reach
  {
    var share := slowest / f;
    ShareWithin(slowest, f);
    QuotientAtLeastSum(beats, f, gap, slowest, d);
    MulAtLeast(1.0 - share, reach, d);
    assert share * d == d - (1.0 - share) * d;
  }

  lemma BehindAtLeast(beats: real, f: real, gap: real, slowest: real, d: real, reach: real)
    requires 0.0 < slowest <= f && reach >= 0.0 && beats >= gap + f * d
    ensures beats / f >= gap / f + d - (1.0 - slowest / f) * reach
  {
    QuotientAtLeastSum(beats, f, gap, f, d);
    assert f / f == 1.0;
    ShareWithin(slowest, f);
    MulAtLeast(1.0 - slowest / f, reach, 0.0);
  }

  lemma ShareWithin(part: real, f: real)
    requires 0.0 < part <= f
    ensures part / f <= 1.0
  {
    DivPos(part, f);
    var share := part / f;
    assert share * f == part;
    if share > 1.0 { MulLess(1.0, share, f); }
  }

  lemma QuotientAtLeastSum(x: real, f: real, a: real, b: real, d: real)
    requires f > 0.0 && x >= a + b * d
    ensures x / f >= a / f + b / f * d
  {
    var rest := x - (a + b * d);
    DivPos(rest, f);
    assert x / f == (a + b * d) / f + rest / f;
    assert b * d / f == b / f * d;
  }

  lemma ShiftedFromQueue(c: ControlState, c': ControlState, m: Mark, last: Option<nat>)
    requires c.Valid() && c'.Valid() && FromQueue(c, m, last)
    requires c'.scheduler.nextStep == c.scheduler.nextStep && c'.lookahead == c.lookahead && Latency(c') == Latency(c)
    ensures FromQueue(c', Shifted(c, c', m), last)
  {
    hide Fastest, AbsR, Latency;
    if m.queued && m.last < m.at { MulAtLeast(m.at - m.last, Shifted(c, c', m).fastest, m.fastest); }
  }

  /** The mark of a state whose newest step has just been queued at `now`. */
  function QueuedMark(c: ControlState, now: nat): (m: Mark)
    requires c.Valid() && c.scheduler.nextStep >= 1
    ensures m.fastest > 0.0
  {
    var newest := c.scheduler.nextStep - 1;
    FreshMark(c, now).(queued := true, last := c.Active().SampleAtBeat(BeatOf(c, newest)),
                       gap := BEATS_PER_STEP - Delay(c.Pattern(), newest))
  }

  /** Only the shuffle of the step before shortens the way to a step without its own. */
  lemma NextStepIsOn(c: ControlState)
    requires c.Valid() && c.scheduler.nextStep >= 1
    ensures BeatOf(c, c.scheduler.nextStep) - Delay(c.Pattern(), c.scheduler.nextStep)
            == BeatOf(c, c.scheduler.nextStep - 1) + BEATS_PER_STEP - Delay(c.Pattern(), c.scheduler.nextStep - 1)
  {
    hide Pattern.StepBeat;
  }

  lemma QueueingMarks(c: ControlState, now: nat)
    requires c.Valid() && c.scheduler.nextStep >= 1
    requires 0 <= StepPosition(c.Pattern(), c.Adjusted(), c.scheduler.nextStep - 1) < now + c.lookahead
    ensures Marked(c, QueuedMark(c, now), now)
    ensures FromQueue(c, QueuedMark(c, now), Some(StepSample(c.Pattern(), c.Adjusted(), c.scheduler.nextStep - 1)))
  {
    var a, step := c.Active(), c.scheduler.nextStep;
    assert c.Adjusted().SampleAtBeat(c.Pattern().StepBeat(step - 1))
        == a.SampleAtBeat(BeatOf(c, step - 1)) - Latency(c);
    hide Slowest, Fastest, ActiveClock.BeatAtSample, ActiveClock.SampleAtBeat, BeatOf, Delay, Pattern.StepBeat, Latency,
         AdjustedClock.SampleAtBeat, ToNewest, Round;
    var y := a.SampleAtBeat(BeatOf(c, step - 1));
    RatesPositive(a);
    FreshIsMarked(c, now);
    ActiveInverse(a, BeatOf(c, step - 1));
    RoundNear(y - Latency(c));
    NextStepIsOn(c);
    LeadToNewest(a, QueuedMark(c, now));
  }

  lemma LeadToNewest(a: ActiveClock, m: Mark)
    requires a.Valid() && m.slowest == Slowest(a) && m.fastest == Fastest(a)
    ensures a.BeatAtSample(m.last) - a.BeatAtSample(m.at) >= ToNewest(m)
  {
    hide Slowest, Fastest, ActiveClock.BeatAtSample;
    if m.last >= m.at { BeatsBetween(a, m.at, m.last); } else { BeatsBetween(a, m.last, m.at); }
  }

  // ---- One change of clock, pattern or controls ----

  /** The mark after a change at `now` that leaves the cursor alone: carried over if the beat at
      `now` is, else taken afresh. */
  ghost function Repaced(c: ControlState, c': ControlState, m: Mark, now: nat): (m': Mark)
    requires c.Valid() && c'.Valid()
    ensures m'.fastest > 0.0
  {
    if c'.controls == c.controls && c'.Active().BeatAtSample(now as real) == c.Active().BeatAtSample(now as real)
    then Shifted(c, c', m)
    else FreshMark(c', now)
  }

  lemma RepacedIsMarked(c: ControlState, c': ControlState, m: Mark, last: Option<nat>, now: nat)
    requires c.Valid() && c'.Valid() && Marked(c, m, now) && FromQueue(c, m, last)
    requires c'.scheduler.nextStep == c.scheduler.nextStep && c'.lookahead == c.lookahead
    requires c'.controls == c.controls ==> Latency(c') == Latency(c)
    ensures Marked(c', Repaced(c, c', m, now), now) && FromQueue(c', Repaced(c, c', m, now), last)
  {
    hide Marked, FromQueue, Shifted, FreshMark, ActiveClock.BeatAtSample;
    FreshIsMarked(c', now);
    FreshFromQueue(c', now, last);
    if Repaced(c, c', m, now) == Shifted(c, c', m) && c'.controls == c.controls {
      ShiftedFromQueue(c, c', m, last);
      if c'.Active().BeatAtSample(now as real) == c.Active().BeatAtSample(now as real) {
        ShiftedIsMarked(c, c', m, now);
      }
    }
  }

  lemma FreshFromQueue(c: ControlState, now: nat, last: Option<nat>)
    requires c.Valid()
    ensures FromQueue(c, FreshMark(c, now), last)
  {
  }

  /** A gentle mark keeps the next step in order. */
  lemma GentleKeepsOrder(c: ControlState, m: Mark, last: Option<nat>, now: nat)
    requires c.Valid() && Marked(c, m, now) && FromQueue(c, m, last) && Reckons(c, m, now)
    requires m.fastest > 0.0 && Gentle(c, m)
    ensures InOrder(c, last)
  {
    hide Marked, FromQueue, Gentle, InPace, Reckons, InOrder;
    GentleKeepsPace(c, m, last);
    PaceKeepsOrder(c, m, last, now);
  }

  /** A follower's slews are gentle: at most 5 % off the tempo, the tempo moved by no more than
      1 % since the newest step was queued, and the gap long enough at that tempo for the lookahead.
      At 100 ms of lookahead it is (`SlewsFit`) at every tempo without shuffle, and up to 160 BPM
      with any. */
  lemma SlewsAreGentle(c: ControlState, m: Mark, rate: real)
    requires c.Valid() && m.queued && 0.0 < 0.95 * rate <= m.slowest && 0.0 < m.fastest <= 1.05 * 1.01 * rate
    requires Margin(c) <= 0.125 * 1.01 / rate && m.gap >= 0.0
    requires SlewsReach(rate, Reach(c), m.gap)
    ensures Gentle(c, m)
  {
    hide Reach, Margin;
    SlewArithmetic(m.slowest, m.fastest, MaxR(Reach(c), 0.0), Margin(c), rate, m.gap);
  }

  /** At a tempo of `rate` beats a sample the slowest slew up to a step queued `reach` samples ahead
      and the fastest one from there on leave more of `gap` beats than half a step. */
  predicate SlewsReach(rate: real, reach: real, gap: real)
  {
    rate * (1.0 + 0.1042 * MaxR(reach, 0.0)) <= gap / 1.0605 - 0.12625
  }

  /** With 100 ms of lookahead and no latency: up to 400 BPM, a skew of 2 % included, without shuffle,
      and up to 160 BPM with any. */
  lemma SlewsFit(rate: real, sampleRate: real, reach: real, gap: real)
    requires sampleRate >= 1000.0 && rate > 0.0 && reach <= 0.1 * sampleRate + 0.5
    ensures gap >= BEATS_PER_STEP && rate * (60.0 * sampleRate) <= 400.0 * 1.02 ==> SlewsReach(rate, reach, gap)
    ensures gap >= BEATS_PER_STEP - MAX_SHUFFLE_BEATS && rate * (60.0 * sampleRate) <= 160.0 ==>
              SlewsReach(rate, reach, gap)
  {
    var most, x := MaxR(reach, 0.0), rate * sampleRate;
    MulAtLeast(rate, 0.1 * sampleRate + 0.5, most);
    assert rate * (0.1 * sampleRate + 0.5) == 0.1 * x + 0.5 * rate;
    assert rate <= x / 1000.0 by { MulAtLeast(rate, sampleRate, 1000.0); }
    assert rate * (60.0 * sampleRate) == 60.0 * x;
    assert rate * (1.0 + 0.1042 * most) == rate + 0.1042 * (rate * most);
    assert rate * (1.0 + 0.1042 * most) <= 0.01147211 * x;
  }

  lemma SlewArithmetic(slowest: real, fastest: real, reach: real, half: real, rate: real, gap: real)
    requires 0.0 < 0.95 * rate <= slowest && 0.0 < fastest <= 1.0605 * rate && half <= 0.12625 / rate
    requires reach >= 0.0 && gap >= 0.0 && rate * (1.0 + 0.1042 * reach) <= gap / 1.0605 - 0.12625
    ensures gap / fastest - (1.0 - slowest / fastest) * reach >= 1.0 + half
  {
    var s, share := 1.0 / rate, slowest / fastest;
    DivPos(1.0, rate);
    GapAtLeast(gap, fastest, rate, s);
    ShareAtLeastOf(slowest, fastest, rate);
    MulAtLeast(reach, 0.1042, 1.0 - share);
    Scaled(rate, s);
    SlewRoom(rate, s, 1.0 + 0.1042 * reach, gap / 1.0605);
  }

  lemma SlewRoom(rate: real, s: real, far: real, room: real)
    requires rate > 0.0 && s * rate == 1.0 && rate * far <= room - 0.12625
    ensures far <= s * room - 0.12625 * s
  {
    assert s > 0.0 by { if s <= 0.0 { MulAtLeast(rate, 0.0, s); } }
    MulAtLeast(s, room - 0.12625, rate * far);
    assert s * (rate * far) == s * rate * far;
  }

  lemma Scaled(rate: real, s: real)
    requires rate > 0.0 && s == 1.0 / rate
    ensures 0.12625 / rate == 0.12625 * s
  {
  }

  lemma AtLeastQuotient(x: real, d: real, y: real)
    requires d > 0.0 && x >= y * d
    ensures x / d >= y
  {
    DivPos(x, d);
    if x / d < y { MulLess(x / d, y, d); }
  }

  lemma GapAtLeast(gap: real, f: real, rate: real, s: real)
    requires rate > 0.0 && s * rate == 1.0 && 0.0 < f <= 1.0605 * rate && gap >= 0.0
    ensures gap / f >= s * (gap / 1.0605)
  {
    var x := s * (gap / 1.0605);
    assert s > 0.0 by { if s <= 0.0 { MulAtLeast(rate, 0.0, s); } }
    MulAtLeast(s, gap / 1.0605, 0.0);
    MulAtLeast(x, 1.0605 * rate, f);
    assert x * (1.0605 * rate) == s * rate * gap;
    AtLeastQuotient(gap, f, x);
  }

  lemma ShareAtLeastOf(slow: real, f: real, rate: real)
    requires rate > 0.0 && slow >= 0.95 * rate && 0.0 < f <= 1.0605 * rate
    ensures slow / f >= 0.8958
  {
    AtLeastQuotient(slow, f, 0.8958);
  }

  /** While the tempo has not changed since the newest step was queued, nothing else can bring the
      next one too near. */
  lemma SteadyIsGentle(c: ControlState, m: Mark)
    requires AudioRate(c.Adjusted()) && c.mode == FreeRunning && c.Valid() && m.queued
    requires m.slowest == m.fastest == Fastest(c.Active())
    requires m.gap >= 1.0 / 6.0
    requires FlamSamples(c.Pattern(), c.Adjusted()) as real + 2.0 <= m.gap * c.internal.SamplesPerBeat()
    ensures m.fastest > 0.0 && Gentle(c, m)
  {
    var spb := c.internal.SamplesPerBeat();
    hide Line.SamplesPerBeat;
    DivPos(1.0, spb);
    assert m.slowest / m.fastest == 1.0;
    OverReciprocal(m.gap, spb);
    MulAtLeast(spb, m.gap, 1.0 / 6.0);
  }
}
