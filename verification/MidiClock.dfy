/** MIDI clock input: a tempo fit over the newest pulses, and the song position. */
module MidiClocks {
  import opened Numbers
  import opened Clock
  import opened Rings
  import opened LeastSquares
  import opened Observing

  const PPQN := 24.0
  const WINDOW := 96
  const RAMP_SIGMAS := 4.0
  const MIN_FIT := 6
  const OUTLIER_FRACTION := 0.5
  const MAX_REJECTED := 4
  const CONFIRM_FRACTION := 0.1
  const CONFIRM_FIT := 24

  /** Run numbers wrap like a 32-bit counter. */
  const RUN_MODULUS := 0x1_0000_0000

  datatype MidiMessage = TimingClock | Start | Continue | Stop

  /** The follower of a MIDI clock. `window` holds the pulses of the fit, oldest first. */
  datatype MidiState = MidiState(
    sampleRate: real, running: bool, pulses: nat, index: nat, lastPulse: Option<real>,
    window: seq<Point>, rejected: nat, run: nat, reported: Option<real>, afterStall: bool)
  {
    predicate Valid() { sampleRate > 0.0 && |window| <= WINDOW }
  }

  function NewState(sampleRate: real): MidiState
  {
    MidiState(sampleRate, false, 0, 0, None, [], 0, 0, None, false)
  }

  // ---- What the fit says ----

  /** The newest `count` pulses. */
  function Newest(window: seq<Point>, count: nat): (points: seq<Point>)
    ensures |points| == Min(count, |window|)
  {
    window[|window| - Min(count, |window|)..]
  }

  function LineOf(window: seq<Point>, count: nat): (fit: Option<Fit>)
    ensures fit.Some? ==> fit.value.n == Min(count, |window|) >= MIN_FIT
  {
    if Min(count, |window|) < MIN_FIT then None else FitOf(Newest(window, count))
  }

  /** How far unit jitter moves the slope of `n` pulses. */
  function SlopeVariance(n: real): real
    requires n > 1.0
  {
    VarianceDefined(n);
    12.0 / (n * (n * n - 1.0))
  }

  lemma VarianceDefined(n: real)
    requires n > 1.0
    ensures n * (n * n - 1.0) > 0.0
  {
    assert n * n > 1.0;
    MulPositive(n, n * n - 1.0);
  }

  /** How far the newest half's slope may stray from the whole's by jitter alone. */
  function SlopeSpread(full: Fit, half: Fit, sqrt: real -> real): real
    requires full.n > 1 && half.n > 1
  {
    var dof := Max(full.n - full.runs - 1, 1) as real;
    var jitter := MaxR(sqrt(full.rss / dof), 0.5);
    jitter * sqrt(SlopeVariance(half.n as real) - SlopeVariance(full.n as real))
  }

  /** The spacing of the newest pulses: the slope of the whole window, or its trend carried on to
      the last of them while the tempo moves. */
  function PeriodOf(window: seq<Point>, sqrt: real -> real): (p: Option<real>)
    ensures p.Some? ==> p.value > 0.0
  {
    var full := LineOf(window, WINDOW);
    if full.None? then None
    else
      var half := if full.value.n == WINDOW then LineOf(window, WINDOW / 2) else None;
      var period :=
        if half.Some? && AbsR(half.value.b - full.value.b) > RAMP_SIGMAS * SlopeSpread(full.value, half.value, sqrt)
        then 2.0 * half.value.b - full.value.b
        else full.value.b;
      if period > 0.0 then Some(period) else None
  }

  /** Beats per minute of a pulse period. */
  function BpmOf(sampleRate: real, period: real): real
    requires period > 0.0
  {
    60.0 * sampleRate / (period * PPQN)
  }

  function TempoOf(s: MidiState, sqrt: real -> real): (bpm: Option<real>)
    ensures bpm.Some? ==> MIN_BPM <= bpm.value <= MAX_BPM
  {
    var period := PeriodOf(s.window, sqrt);
    if period.None? then None
    else
      var bpm := BpmOf(s.sampleRate, period.value);
      if MIN_BPM <= bpm <= MAX_BPM then Some(bpm) else None
  }

  /** Where a line puts pulse `index`. */
  function OnFit(line: Fit, index: nat): real
  {
    line.origin + line.a + line.b * (index as real - line.newest as real)
  }

  /** The fit carried on to a pulse of its newest run; other runs have none. */
  function PredictOf(window: seq<Point>, index: nat, run: nat): Option<real>
  {
    var line := LineOf(window, WINDOW);
    if line.Some? && line.value.run == run then Some(OnFit(line.value, index)) else None
  }

  // ---- Messages ----

  /** The longest gap between two pulses of an accepted tempo. */
  function MaxGap(sampleRate: real): real { 60.0 * sampleRate / (MIN_BPM * PPQN) }

  predicate IsOutlier(s: MidiState, index: nat, sample: real, sqrt: real -> real)
  {
    |s.window| >= MIN_FIT &&
    var period, predicted := PeriodOf(s.window, sqrt), PredictOf(s.window, index, s.run);
    period.Some? && predicted.Some? && AbsR(sample - predicted.value) > OUTLIER_FRACTION * period.value
  }

  function Cleared(s: MidiState): MidiState { s.(window := [], rejected := 0) }

  /** Whether a pulse's timestamp is trusted; a trusted one joins the fit. */
  function Accepted(s: MidiState, index: nat, sample: real, sqrt: real -> real): (MidiState, bool)
  {
    var gap := if s.lastPulse.Some? then sample - s.lastPulse.value else 1.0;
    var s1 := if s.lastPulse.Some? && gap > MaxGap(s.sampleRate) then Cleared(s).(afterStall := true) else s;
    if s.lastPulse.Some? && gap <= MaxGap(s.sampleRate) && gap <= 0.0 then (s, false)
    else if IsOutlier(s1, index, sample, sqrt) && s1.rejected + 1 < MAX_REJECTED then
      (s1.(rejected := s1.rejected + 1), false)
    else
      var s2 := if IsOutlier(s1, index, sample, sqrt) then Cleared(s1) else s1;
      (s2.(rejected := 0, window := Pushed(s2.window, Point(index, sample, s2.run), WINDOW)), true)
  }

  /** Which tempo a fresh fit after a stall must confirm before it is reported. */
  predicate Unconfirmed(s: MidiState, period: real)
  {
    && s.afterStall && s.reported.Some?
    && s.reported.value != 0.0 && AbsR(period / s.reported.value - 1.0) > CONFIRM_FRACTION
    && |s.window| < CONFIRM_FIT
  }

  /** Counts a pulse: its index in the fit, and its song position. */
  function Counted(s: MidiState): MidiState
  {
    s.(pulses := if s.running then s.pulses + 1 else s.pulses, index := s.index + 1)
  }

  /** The report of pulse `pulse` since Start: its bar position while running. */
  function Reported(s: MidiState, pulse: nat, sample: real, bpm: real, period: real): (MidiState, Option<Observation>)
  {
    var phase := if s.running then Bar(Finite(RemEuclid(pulse as real / PPQN, 4.0))) else TempoOnly;
    (s.(afterStall := false, reported := Some(period)),
     Some(Observation(Finite(sample), phase, Some(Finite(bpm)))))
  }

  function Pulsed(s: MidiState, sample: real, sqrt: real -> real): (MidiState, Option<Observation>)
  {
    var (s1, usable) := Accepted(Counted(s), s.index, sample, sqrt);
    var s2 := s1.(lastPulse := Some(sample));
    var bpm := TempoOf(s2, sqrt);
    if !usable || bpm.None? then (s2, None)
    else
      TempoPositive(s2, sqrt);
      var period := 60.0 * s.sampleRate / (bpm.value * PPQN);
      if Unconfirmed(s2, period) then (s2, None) else Reported(s2, s.pulses, sample, bpm.value, period)
  }

  lemma TempoPositive(s: MidiState, sqrt: real -> real)
    ensures TempoOf(s, sqrt).Some? ==> TempoOf(s, sqrt).value >= 20.0
  {
  }

  function Handled(s: MidiState, message: MidiMessage, sample: Float, sqrt: real -> real): (MidiState,
                   Option<Observation>)
  {
    match message
    case Start =>
      (s.(running := true, pulses := 0, run := (s.run + 1) % RUN_MODULUS, afterStall := false), None)
    case Continue => (s.(running := true, run := (s.run + 1) % RUN_MODULUS, afterStall := false), None)
    case Stop => (s.(running := false), None)
    case TimingClock => if sample.Finite? then Pulsed(s, sample.value, sqrt) else (s, None)
  }

  // ---- A steady clock ----

  /** Where a clock of `period` samples a pulse is at pulse `index`, going by `p`. */
  function Ahead(p: Point, period: real, index: nat): real { p.sample + period * (index - p.index) as real }

  /** Neighbouring pulses of one run are as many periods apart as pulses. */
  ghost predicate SteadyPoints(points: seq<Point>, period: real)
  {
    forall i :: 1 <= i < |points| && points[i].run == points[i - 1].run ==>
      points[i].sample == Ahead(points[i - 1], period, points[i].index)
  }

  /** How far a pulse lies off the line of slope `period` through the origin. */
  function Offset(p: Point, origin: Point, period: real): real { p.Y(origin) - period * p.X(origin) }

  /** The sums of a run on a line of slope `t` at offset `d`. */
  ghost predicate OnLine(r: RunSums, t: real, d: real)
  {
    && r.sy == t * r.sx + r.n * d
    && r.sxy == t * r.sxx + d * r.sx
    && r.syy == t * r.sxy + d * r.sy
  }

  lemma OnLineAdds(r: RunSums, t: real, d: real, x: real, y: real)
    requires OnLine(r, t, d) && y == t * x + d
    ensures OnLine(r.Add(x, y), t, d)
  {
    var xx, xy, yy := x * x, x * y, y * y;
    PointOnLine(t, d, x, y);
    OneMoreMean(r.n, d);
    SumDistributes(t, r.sx, x);
    SumDistributes(t, r.sxx, xx);
    SumDistributes(d, r.sx, x);
    SumDistributes(t, r.sxy, xy);
    SumDistributes(d, r.sy, y);
  }

  lemma PointOnLine(t: real, d: real, x: real, y: real)
    requires y == t * x + d
    ensures x * y == t * (x * x) + d * x && y * y == t * (x * y) + d * y
  {
  }

  lemma OneMoreMean(n: real, d: real)
    ensures (n + 1.0) * d == n * d + d
  {
  }

  lemma SumDistributes(k: real, a: real, b: real)
    ensures k * (a + b) == k * a + k * b
  {
  }

  lemma OnLineStarts(t: real, d: real, x: real, y: real)
    requires y == t * x + d
    ensures OnLine(NO_RUN.Add(x, y), t, d)
  {
    OnLineAdds(NO_RUN, t, d, x, y);
  }

  /** Runs on parallel lines have covariance `t` times the variance. */
  ghost predicate PoolOnLine(p: Pooled, t: real) { p.sxy == t * p.sxx && p.syy == t * p.sxy }

  lemma OnLinePools(p: Pooled, r: RunSums, t: real, d: real)
    requires OnLine(r, t, d) && r.n > 0.0 && PoolOnLine(p, t)
    ensures PoolOnLine(p.Add(r), t)
  {
    var mx, my := r.sx / r.n, r.sy / r.n;
    MeanForm(r, t, mx, my);
    QuotientIs(r.sy, r.n, t * mx + d);
    var v, c := r.sxx - r.n * mx * mx, r.sxy - r.n * mx * my;
    MeanOnLine(r.n, mx, t, d, my);
    assert t * v == t * r.sxx - t * (r.n * mx * mx);
    assert t * c == t * r.sxy - t * (r.n * mx * my);
    assert c == t * v;
    PoolAddsLine(p, r, t, v, c);
  }

  lemma MeanOnLine(n: real, mx: real, t: real, d: real, my: real)
    requires my == t * mx + d
    ensures n * mx * my == t * (n * mx * mx) + d * (n * mx)
    ensures n * my * my == t * (n * mx * my) + d * (n * my)
  {
    assert n * mx * (t * mx) == t * (n * mx * mx);
    assert n * my * (t * mx) == t * (n * mx * my);
  }

  lemma PoolAddsLine(p: Pooled, r: RunSums, t: real, v: real, c: real)
    requires r.n > 0.0 && PoolOnLine(p, t)
    requires v == r.sxx - r.sx * r.sx / r.n && c == r.sxy - r.sx * r.sy / r.n
    requires c == t * v && r.syy - r.sy * r.sy / r.n == t * c
    ensures PoolOnLine(p.Add(r), t)
  {
    assert t * (p.sxx + v) == t * p.sxx + t * v;
    assert t * (p.sxy + c) == t * p.sxy + t * c;
  }

  lemma NothingOnLine(t: real)
    ensures PoolOnLine(NO_POOL, t)
  {
  }

  lemma {:induction false} SteadySums(points: seq<Point>, origin: Point, period: real)
    requires points != [] && SteadyPoints(points, period)
    ensures var (pool, run) := Sums(points, origin);
            && run.n >= 1.0 && OnLine(run, period, Offset(points[|points| - 1], origin, period))
            && PoolOnLine(pool, period)
  {
    hide OnLine, PoolOnLine, RunSums.Add, Pooled.Add, Sums, Offset;
    var p := points[|points| - 1];
    var x, y, d := p.X(origin), p.Y(origin), Offset(p, origin, period);
    OffsetIs(p, origin, period);
    OnLineStarts(period, d, x, y);
    SumsShape(points, origin);
    SumsNext(points, origin);
    NothingOnLine(period);
    if |points| > 1 {
      var front := points[..|points| - 1];
      SteadySums(front, origin, period);
      SumsShape(front, origin);
      var (pool, run) := Sums(front, origin);
      var last := points[|points| - 2];
      if Begins(points) {
        OnLinePools(pool, run, period, Offset(last, origin, period));
      } else {
        SameOffset(last, p, origin, period);
        OnLineAdds(run, period, d, x, y);
      }
    }
  }

  lemma OffsetIs(p: Point, origin: Point, period: real)
    ensures p.Y(origin) == period * p.X(origin) + Offset(p, origin, period)
  {
  }

  lemma SameOffset(a: Point, b: Point, origin: Point, period: real)
    requires b.sample == Ahead(a, period, b.index)
    ensures Offset(a, origin, period) == Offset(b, origin, period)
  {
    var x, n := a.X(origin), (b.index - a.index) as real;
    assert b.X(origin) == x + n;
    assert period * (x + n) == period * x + period * n;
  }

  /** The fit of a steady clock: its exact period, through its newest pulse. */
  lemma SteadyFit(points: seq<Point>, period: real)
    requires points != [] && SteadyPoints(points, period) && FitOf(points).Some?
    ensures var fit, newest := FitOf(points).value, points[|points| - 1];
            && fit.b == period && fit.a == 0.0
            && fit.newest == newest.index && fit.origin == newest.sample && fit.run == newest.run
            && fit.n == |points|
  {
    hide Sums, Offset;
    var newest := points[|points| - 1];
    var (closed, run) := Sums(points, newest);
    SteadySums(points, newest, period);
    NewestOffset(newest, period);
    OnLinePools(closed, run, period, 0.0);
    var pool := closed.Add(run);
    QuotientIs(pool.sxy, pool.sxx, period);
    assert run.sy - period * run.sx == 0.0;
    QuotientIs(run.sy - period * run.sx, run.n, 0.0);
  }

  lemma NewestOffset(p: Point, period: real)
    ensures Offset(p, p, period) == 0.0
  {
  }

  lemma SteadyNewest(window: seq<Point>, count: nat, period: real)
    requires SteadyPoints(window, period)
    ensures SteadyPoints(Newest(window, count), period)
    ensures count >= 1 && window != [] ==>
              (Newest(window, count) != [] && Newest(window, count)[|Newest(window, count)| - 1]
                  == window[|window| - 1])
  {
  }

  lemma SteadyLine(window: seq<Point>, count: nat, period: real)
    requires SteadyPoints(window, period) && count >= 1
    ensures var line := LineOf(window, count);
            line.Some? ==>
              && window != [] && line.value.b == period && line.value.a == 0.0
              && line.value.newest == window[|window| - 1].index && line.value.origin == window[|window| - 1].sample
              && line.value.run == window[|window| - 1].run
  {
    hide FitOf;
    SteadyNewest(window, count, period);
    if LineOf(window, count).Some? { SteadyFit(Newest(window, count), period); }
  }

  ghost predicate IsRoot(sqrt: real -> real) { forall x :: sqrt(x) >= 0.0 }

  lemma SlopeSpreadNonNegative(full: Fit, half: Fit, sqrt: real -> real)
    requires full.n > 1 && half.n > 1 && IsRoot(sqrt)
    ensures SlopeSpread(full, half, sqrt) >= 0.0
  {
    hide SlopeVariance;
    var dof := Max(full.n - full.runs - 1, 1) as real;
    var noise := MaxR(sqrt(full.rss / dof), 0.5);
    MulNonNegative(noise, sqrt(SlopeVariance(half.n as real) - SlopeVariance(full.n as real)));
  }

  lemma SteadyPeriod(window: seq<Point>, period: real, sqrt: real -> real)
    requires SteadyPoints(window, period) && period > 0.0 && IsRoot(sqrt)
    ensures PeriodOf(window, sqrt) == if LineOf(window, WINDOW).Some? then Some(period) else None
  {
    hide LineOf, SlopeSpread;
    SteadyLine(window, WINDOW, period);
    SteadyLine(window, WINDOW / 2, period);
    var full, half := LineOf(window, WINDOW), LineOf(window, WINDOW / 2);
    if full.Some? && half.Some? { SlopeSpreadNonNegative(full.value, half.value, sqrt); }
  }

  lemma SteadyPrediction(window: seq<Point>, period: real, index: nat, run: nat)
    requires SteadyPoints(window, period) && window != []
    ensures var newest := window[|window| - 1];
            var predicted := PredictOf(window, index, run);
            && (predicted.Some? <==> LineOf(window, WINDOW).Some? && run == newest.run)
            && (predicted.Some? ==> predicted.value == Ahead(newest, period, index))
  {
    hide LineOf;
    SteadyLine(window, WINDOW, period);
  }

  /** All that a steady clock of `period` samples a pulse leaves in the follower. */
  ghost predicate SteadyState(s: MidiState, period: real)
  {
    && s.Valid() && period > 0.0 && s.rejected < MAX_REJECTED
    && SteadyPoints(s.window, period) && Increasing(s.window)
    && (s.window == [] <==> s.lastPulse == None)
    && (s.window != [] ==> s.window[|s.window| - 1].index < s.index)
    && (s.reported.Some? ==> s.reported.value > 0.0)
  }

  /** The next pulse of a steady clock: later than the last message's, and on the line of the pulses
      before it unless a Start or Continue lies between them, or a gap no tempo in range accounts for. */
  ghost predicate SteadyPulse(s: MidiState, sample: real, period: real)
    requires s.window != [] <==> s.lastPulse.Some?
  {
    s.lastPulse.Some? ==>
      && sample > s.lastPulse.value
      && (sample - s.lastPulse.value > MaxGap(s.sampleRate)
          || s.window[|s.window| - 1].run != s.run
          || sample == Ahead(s.window[|s.window| - 1], period, s.index))
  }

  /** The window after a steady pulse. */
  function SteadyWindow(s: MidiState, sample: real): seq<Point>
  {
    var stalled := s.lastPulse.Some? && sample - s.lastPulse.value > MaxGap(s.sampleRate);
    Pushed(if stalled then [] else s.window, Point(s.index, sample, s.run), WINDOW)
  }

  lemma SteadyAppend(points: seq<Point>, p: Point, period: real)
    requires SteadyPoints(points, period) && Increasing(points)
    requires points != [] ==>
               (var last := points[|points| - 1];
                p.index > last.index && (p.run == last.run ==> p.sample == Ahead(last, period, p.index)))
    ensures SteadyPoints(points + [p], period) && Increasing(points + [p])
  {
  }

  lemma SteadyTail(points: seq<Point>, period: real)
    requires SteadyPoints(points, period) && Increasing(points) && |points| >= 2
    ensures SteadyPoints(points[1..], period) && Increasing(points[1..])
    ensures points[1..][|points| - 2] == points[|points| - 1]
  {
  }

  lemma SteadyPushed(s: MidiState, sample: real, period: real)
    requires SteadyState(s, period) && SteadyPulse(s, sample, period)
    ensures var w := SteadyWindow(s, sample);
            && SteadyPoints(w, period) && Increasing(w) && 1 <= |w| <= WINDOW
            && w[|w| - 1] == Point(s.index, sample, s.run)
  {
    hide SteadyPoints, Increasing, MaxGap;
    var p := Point(s.index, sample, s.run);
    NoPoints(period);
    SteadyAppend([], p, period);
    var stalled := s.lastPulse.Some? && sample - s.lastPulse.value > MaxGap(s.sampleRate);
    if !stalled {
      SteadyAppend(s.window, p, period);
      if |s.window| >= WINDOW {
        SteadyTail(s.window, period);
        SteadyAppend(s.window[1..], p, period);
      }
    }
  }

  lemma NoPoints(period: real)
    ensures SteadyPoints([], period) && Increasing([])
  {
  }

  lemma GapPositive(sampleRate: real)
    requires sampleRate > 0.0
    ensures MaxGap(sampleRate) > 0.0
  {
  }

  /** A steady pulse is never an outlier. */
  lemma SteadyAccepted(s: MidiState, sample: real, period: real, sqrt: real -> real)
    requires SteadyState(s, period) && SteadyPulse(s, sample, period) && IsRoot(sqrt)
    ensures var (s', usable) := Accepted(Counted(s), s.index, sample, sqrt);
            && usable && s'.window == SteadyWindow(s, sample) && s'.rejected == 0
            && s' == Counted(s).(window := s'.window, rejected := 0,
                                 afterStall := s.afterStall || (s.lastPulse.Some?
                                                 && sample - s.lastPulse.value > MaxGap(s.sampleRate)))
  {
    hide PeriodOf, PredictOf, SteadyPoints, Increasing, MaxGap;
    GapPositive(s.sampleRate);
    var stalled := s.lastPulse.Some? && sample - s.lastPulse.value > MaxGap(s.sampleRate);
    if !stalled && s.window != [] {
      SteadyPrediction(s.window, period, s.index, s.run);
      assert !IsOutlier(Counted(s), s.index, sample, sqrt);
    }
  }

  /** The tempo of a period in range is the period's, and gives the period back. */
  lemma PeriodBack(sampleRate: real, period: real)
    requires sampleRate > 0.0 && period > 0.0
    ensures var bpm := BpmOf(sampleRate, period);
            bpm > 0.0 && 60.0 * sampleRate / (bpm * PPQN) == period
  {
    var bpm := BpmOf(sampleRate, period);
    DivPos(60.0 * sampleRate, period * PPQN);
    assert bpm * (period * PPQN) == 60.0 * sampleRate;
    assert bpm * PPQN * period == bpm * (period * PPQN);
    QuotientIs(60.0 * sampleRate, bpm * PPQN, period);
  }

  /** What a steady pulse makes the follower say. */
  lemma SteadyTempo(s: MidiState, period: real, sqrt: real -> real)
    requires s.sampleRate > 0.0 && SteadyPoints(s.window, period) && Increasing(s.window) && period > 0.0
             && IsRoot(sqrt)
    requires 1 <= |s.window| <= WINDOW
    ensures var bpm := BpmOf(s.sampleRate, period);
            TempoOf(s, sqrt)
            == if |s.window| >= MIN_FIT && |s.window| > Runs(s.window) && MIN_BPM <= bpm <= MAX_BPM
               then Some(bpm) else None
  {
    hide PeriodOf, BpmOf, FitOf, Runs;
    SteadyPeriod(s.window, period, sqrt);
    assert Newest(s.window, WINDOW) == s.window;
    FitExists(s.window);
  }

  /** A tempo more than a tenth off the last one reported, behind a pause nothing explains, has to be borne
      out by 24 pulses. */
  predicate Doubted(s: MidiState, stalled: bool, pulses: nat, period: real)
  {
    && (s.afterStall || stalled) && s.reported.Some? && pulses < 24
    && (period < 0.9 * s.reported.value || period > 1.1 * s.reported.value)
  }

  lemma UnconfirmedIs(s: MidiState, period: real)
    requires s.reported.Some? ==> s.reported.value > 0.0
    ensures Unconfirmed(s, period) <==> Doubted(s, false, |s.window|, period)
  {
    if s.reported.Some? {
      QuotientCompares(period, s.reported.value, 0.9);
      QuotientCompares(period, s.reported.value, 1.1);
    }
  }

  lemma QuotientCompares(x: real, d: real, k: real)
    requires d > 0.0
    ensures x / d < k <==> x < k * d
    ensures x / d > k <==> x > k * d
  {
    DivPos(x, d);
    MulLess(x / d, k, d);
    MulLess(k, x / d, d);
  }

  /** Every pulse of a steady clock is accepted. It is reported exactly if six pulses are in the fit, two of
      them in one run, the tempo is one the follower takes, and not in doubt; and then with the clock's exact
      tempo. */
  lemma SteadyPulsed(s: MidiState, sample: real, period: real, sqrt: real -> real)
    requires SteadyState(s, period) && SteadyPulse(s, sample, period) && IsRoot(sqrt)
    ensures var (s', out) := Pulsed(s, sample, sqrt);
            var bpm := BpmOf(s.sampleRate, period);
            var stalled := s.lastPulse.Some? && sample - s.lastPulse.value > MaxGap(s.sampleRate);
            && SteadyState(s', period) && s'.sampleRate == s.sampleRate && s'.rejected == 0
            && s'.lastPulse == Some(sample) && s'.window != []
            && s'.window[|s'.window| - 1] == Point(s.index, sample, s.run)
            && (out.Some? <==> |s'.window| >= MIN_FIT && |s'.window| > Runs(s'.window) && MIN_BPM <= bpm <= MAX_BPM
                               && !Doubted(s, stalled, |s'.window|, period))
            && (out.Some? ==> out.value.bpm == Some(Finite(bpm)) && s'.reported == Some(period) && !s'.afterStall)
            && (out.None? ==> s'.reported == s.reported && s'.afterStall == (s.afterStall || stalled))
  {
    hide Accepted, TempoOf, BpmOf, SteadyPoints, Increasing, SteadyPulse, SteadyWindow, Unconfirmed, Runs, RemEuclid;
    SteadyPushed(s, sample, period);
    SteadyAccepted(s, sample, period, sqrt);
    var s2 := Accepted(Counted(s), s.index, sample, sqrt).0.(lastPulse := Some(sample));
    SteadyTempo(s2, period, sqrt);
    PeriodBack(s.sampleRate, period);
    UnconfirmedIs(s2, period);
  }

  // ---- Whole message streams ----

  datatype Timed = Timed(message: MidiMessage, sample: Float)

  function HandledAll(s: MidiState, messages: seq<Timed>, sqrt: real -> real)
    : (r: (MidiState, seq<Option<Observation>>))
    ensures |r.1| == |messages|
    decreases |messages|
  {
    if messages == [] then (s, [])
    else
      var (s1, out) := Handled(s, messages[0].message, messages[0].sample, sqrt);
      var (s2, rest) := HandledAll(s1, messages[1..], sqrt);
      (s2, [out] + rest)
  }

  /** The pulses of the stream keep one period, run by run. */
  ghost predicate SteadyStream(s: MidiState, messages: seq<Timed>, period: real, sqrt: real -> real)
    decreases |messages|
  {
    messages == [] ||
    (&& (messages[0].message.TimingClock? && messages[0].sample.Finite? ==>
           (s.window != [] <==> s.lastPulse.Some?) && SteadyPulse(s, messages[0].sample.value, period))
     && SteadyStream(Handled(s, messages[0].message, messages[0].sample, sqrt).0, messages[1..], period, sqrt))
  }

  lemma SteadyHandled(s: MidiState, m: Timed, period: real, sqrt: real -> real)
    requires SteadyState(s, period) && IsRoot(sqrt)
    requires m.message.TimingClock? && m.sample.Finite? ==> SteadyPulse(s, m.sample.value, period)
    ensures var (s', out) := Handled(s, m.message, m.sample, sqrt);
            && SteadyState(s', period) && s'.sampleRate == s.sampleRate
            && (out.Some? ==> out.value.bpm == Some(Finite(BpmOf(s.sampleRate, period))))
            && (m.message.TimingClock? && m.sample.Finite? ==> s'.lastPulse == Some(m.sample.value) && s'.rejected == 0)
            && (s.rejected == 0 ==> s'.rejected == 0)
  {
    hide Pulsed, BpmOf, SteadyPulse, SteadyPoints, Increasing;
    if m.message.TimingClock? && m.sample.Finite? { SteadyPulsed(s, m.sample.value, period, sqrt); }
  }

  /** A steady clock reports its exact tempo, whatever Starts, Continues, Stops and pauses lie
      between its pulses, and not one of its pulses is rejected. */
  lemma {:induction false} SteadyClockIsExact(s: MidiState, messages: seq<Timed>, period: real, sqrt: real -> real)
    requires SteadyState(s, period) && s.rejected == 0 && IsRoot(sqrt) && SteadyStream(s, messages, period, sqrt)
    ensures var (s', outs) := HandledAll(s, messages, sqrt);
            && SteadyState(s', period) && s'.rejected == 0
            && forall i :: 0 <= i < |outs| && outs[i].Some? ==>
                 outs[i].value.bpm == Some(Finite(BpmOf(s.sampleRate, period)))
    decreases |messages|
  {
    hide Handled, BpmOf, SteadyPulse, SteadyState;
    assert period > 0.0 && (s.window != [] <==> s.lastPulse.Some?) by { SteadyStateIs(s, period); }
    if messages != [] {
      SteadyHandled(s, messages[0], period, sqrt);
      SteadyClockIsExact(Handled(s, messages[0].message, messages[0].sample, sqrt).0, messages[1..], period, sqrt);
    }
  }

  lemma SteadyStateIs(s: MidiState, period: real)
    requires SteadyState(s, period)
    ensures period > 0.0 && (s.window != [] <==> s.lastPulse.Some?)
  {
  }

  lemma FreshIsSteady(sampleRate: real, period: real)
    requires sampleRate > 0.0 && period > 0.0
    ensures SteadyState(NewState(sampleRate), period)
  {
  }

  // ---- In place ----

  class MidiClockFollower {
    const sampleRate: real
    var running: bool
    var pulses: nat
    var index: nat
    var lastPulse: Option<real>
    const fit: array<Point>
    var len: nat
    var head: nat
    var rejected: nat
    var run: nat
    var reportedPeriod: Option<real>
    var afterStall: bool

    ghost predicate Valid()
      reads this
    {
      sampleRate > 0.0 && fit.Length == WINDOW && head < WINDOW && len <= WINDOW
    }

    ghost function Points(): (points: seq<Point>)
      reads this, fit
      requires Valid()
      ensures |points| == len
    {
      Window(fit[..], head, len)
    }

    ghost function Value(): MidiState
      reads this, fit
      requires Valid()
    {
      MidiState(sampleRate, running, pulses, index, lastPulse, Points(), rejected, run, reportedPeriod, afterStall)
    }

    constructor (sampleRate: real)
      requires sampleRate > 0.0
      ensures Valid() && fresh(fit) && Value() == NewState(sampleRate)
    {
      this.sampleRate := sampleRate;
      running, pulses, index, lastPulse := false, 0, 0, None;
      fit := new Point[WINDOW](_ => Point(0, 0.0, 0));
      len, head, rejected, run, reportedPeriod, afterStall := 0, 0, 0, 0, None, false;
    }

    /** One message: counters, fit and report. */
    method Handle(message: MidiMessage, sample: Float, sqrt: real -> real) returns (out: Option<Observation>)
      requires Valid()
      modifies this, fit
      ensures Valid() && (Value(), out) == Handled(old(Value()), message, sample, sqrt)
    {
      hide Pulsed;
      out := None;
      match message {
        case Start =>
          running := true;
          pulses := 0;
          run := (run + 1) % RUN_MODULUS;
          afterStall := false;
        case Continue =>
          running := true;
          run := (run + 1) % RUN_MODULUS;
          afterStall := false;
        case Stop =>
          running := false;
        case TimingClock =>
          if sample.Finite? { out := ClockPulse(sample.value, sqrt); }
      }
    }

    method ClockPulse(sample: real, sqrt: real -> real) returns (out: Option<Observation>)
      requires Valid()
      modifies this, fit
      ensures Valid() && (Value(), out) == Pulsed(old(Value()), sample, sqrt)
    {
      hide Accepted, TempoOf, Reported, Unconfirmed;
      var pulse := pulses;
      if running { pulses := pulses + 1; }
      var i := index;
      index := index + 1;
      var usable := AcceptTiming(i, sample, sqrt);
      lastPulse := Some(sample);
      ghost var s2 := Value();
      if !usable { return None; }
      var bpm := Tempo(sqrt);
      if bpm.None? { return None; }
      TempoPositive(Value(), sqrt);
      out := Report(pulse, sample, bpm.value);
    }

    /** Reports a tempo, unless it still needs confirming after a stall. */
    method Report(pulse: nat, sample: real, bpm: real) returns (out: Option<Observation>)
      requires Valid() && bpm > 0.0
      modifies this`reportedPeriod, this`afterStall
      ensures Valid()
      ensures var s, period := old(Value()), 60.0 * sampleRate / (bpm * PPQN);
              (Value(), out) == if Unconfirmed(s, period) then (s, None) else Reported(s, pulse, sample, bpm, period)
    {
      var period := 60.0 * sampleRate / (bpm * PPQN);
      if afterStall {
        var differs := reportedPeriod.Some? && reportedPeriod.value != 0.0
                       && AbsR(period / reportedPeriod.value - 1.0) > CONFIRM_FRACTION;
        if differs && len < CONFIRM_FIT { return None; }
        afterStall := false;
      }
      reportedPeriod := Some(period);
      var phase := if running then Bar(Finite(RemEuclid(pulse as real / PPQN, 4.0))) else TempoOnly;
      out := Some(Observation(Finite(sample), phase, Some(Finite(bpm))));
    }

    /** Lets a pulse into the fit, or turns it away. */
    method AcceptTiming(i: nat, sample: real, sqrt: real -> real) returns (usable: bool)
      requires Valid()
      modifies this`len, this`head, this`rejected, this`afterStall, fit
      ensures Valid() && (Value(), usable) == Accepted(old(Value()), i, sample, sqrt)
    {
      hide PeriodOf, PredictOf, Window, Pushed;
      var maxGap := MaxGap(sampleRate);
      if lastPulse.Some? {
        if sample - lastPulse.value > maxGap {
          ClearFit();
          afterStall := true;
        } else if sample <= lastPulse.value {
          return false;
        }
      }
      var off := Misses(i, sample, sqrt);
      if off {
        rejected := rejected + 1;
        if rejected < MAX_REJECTED { return false; }
        ClearFit();
      }
      rejected := 0;
      Join(Point(i, sample, run));
      usable := true;
    }

    /** Whether the fit puts pulse `i` elsewhere. */
    method Misses(i: nat, sample: real, sqrt: real -> real) returns (off: bool)
      requires Valid()
      ensures off == IsOutlier(Value(), i, sample, sqrt)
    {
      hide PeriodOf, PredictOf, Window;
      if len < MIN_FIT { return false; }
      var period := Period(sqrt);
      var predicted := Predict(i, run);
      off := period.Some? && predicted.Some? && AbsR(sample - predicted.value) > OUTLIER_FRACTION * period.value;
    }

    /** Adds a point to the fit. */
    method Join(p: Point)
      requires Valid()
      modifies this`len, this`head, fit
      ensures Valid() && Points() == Pushed(old(Points()), p, WINDOW)
    {
      WindowPush(fit[..], head, len, p);
      fit[head] := p;
      head := (head + 1) % WINDOW;
      len := Min(len + 1, WINDOW);
    }

    method ClearFit()
      requires Valid()
      modifies this`len, this`rejected
      ensures Valid() && Value() == Cleared(old(Value()))
    {
      len := 0;
      rejected := 0;
    }

    /** Least-squares fit over the newest `count` points. */
    method LineThrough(count: nat) returns (line: Option<Fit>)
      requires Valid()
      ensures line == LineOf(Points(), count)
    {
      hide Window, Sums, BestSlope, BestIntercept, PoolMinimum, Newest;
      var n := Min(count, len);
      if n < MIN_FIT { return None; }
      PointAt(count, n - 1);
      var newest := fit[(head + WINDOW - 1) % WINDOW];
      var closed, sums := SumUp(count, newest);
      SumsShape(Newest(Points(), count), newest);
      var pooled := closed.Add(sums);
      if pooled.sxx <= 0.0 { return None; }
      var b := BestSlope(pooled);
      line := Some(Fit(newest.index, newest.sample, newest.run, BestIntercept(sums, b), b,
                       MaxR(PoolMinimum(pooled), 0.0), n, pooled.runs));
    }

    /** The sums over the newest `count` points, in one pass; runs are contiguous. */
    method SumUp(count: nat, newest: Point) returns (pooled: Pooled, sums: RunSums)
      requires Valid() && count >= 1 && len >= 1
      ensures (pooled, sums) == Sums(Newest(Points(), count), newest)
    {
      hide Window, Sums, Newest;
      var n := Min(count, len);
      ghost var points := Newest(Points(), count);
      pooled, sums := NO_POOL, NO_RUN;
      var current: Option<nat> := None;
      var start := (head + WINDOW - n) % WINDOW;
      NothingPooled();
      for i := 0 to n
        invariant if i == 0 then pooled == NO_POOL && sums == NO_RUN && current == None
                  else (pooled, sums) == Sums(points[..i], newest) && current == Some(points[i - 1].run)
      {
        var p := fit[(start + i) % WINDOW];
        PointAt(count, i);
        SumsNext(points[..i + 1], newest);
        assert points[..i + 1][..i] == points[..i];
        if current != Some(p.run) {
          pooled := pooled.Add(sums);
          sums := NO_RUN;
          current := Some(p.run);
        }
        sums := sums.Add(p.X(newest), p.Y(newest));
      }
      assert points[..n] == points;
    }

    lemma PointAt(count: nat, i: nat)
      requires Valid() && i < Min(count, len)
      ensures var n := Min(count, len);
              Newest(Points(), count)[i] == fit[((head + WINDOW - n) % WINDOW + i) % WINDOW]
      ensures i == Min(count, len) - 1 ==> Newest(Points(), count)[i] == fit[(head + WINDOW - 1) % WINDOW]
    {
    }

    method Period(sqrt: real -> real) returns (period: Option<real>)
      requires Valid()
      ensures period == PeriodOf(Points(), sqrt)
    {
      hide LineOf;
      var full := LineThrough(WINDOW);
      if full.None? { return None; }
      var p := full.value.b;
      if full.value.n == WINDOW {
        var half := LineThrough(WINDOW / 2);
        if half.Some? {
          var spread := SlopeSpread(full.value, half.value, sqrt);
          if AbsR(half.value.b - full.value.b) > RAMP_SIGMAS * spread {
            p := 2.0 * half.value.b - full.value.b;
          }
        }
      }
      period := if p > 0.0 then Some(p) else None;
    }

    method Predict(i: nat, r: nat) returns (sample: Option<real>)
      requires Valid()
      ensures sample == PredictOf(Points(), i, r)
    {
      hide LineOf;
      var line := LineThrough(WINDOW);
      sample := if line.Some? && line.value.run == r then Some(OnFit(line.value, i)) else None;
    }

    method Tempo(sqrt: real -> real) returns (bpm: Option<real>)
      requires Valid()
      ensures bpm == TempoOf(Value(), sqrt)
    {
      hide PeriodOf;
      var period := Period(sqrt);
      if period.None? { return None; }
      var b := BpmOf(sampleRate, period.value);
      bpm := if MIN_BPM <= b <= MAX_BPM then Some(b) else None;
    }
  }

  lemma NothingPooled()
    ensures NO_POOL.Add(NO_RUN) == NO_POOL
  {
  }
}
