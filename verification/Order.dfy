/** Exactly when a call that moves the clock or the pattern under a run leaves the next step in order:
    where the call puts that step and how far it must keep, from what is known before the call. */
module Ordering {
  import opened Numbers
  import opened Clock
  import opened Pattern
  import opened Scheduling
  import opened Rendering
  import opened Controlling
  import opened Engines
  import opened Pacing
  import opened Realigning

  // ---- What a call moves ----

  /** Whether a call realigns a running pattern: a tap on the internal clock, or a snap of the
      follower. */
  predicate Realigns(c: ControlState, op: Op)
  {
    c.scheduler.playing &&
    match op
    case Tap(_, _, _, snapped) => c.mode == FreeRunning || snapped
    case Observe(_, snapped) => c.mode == Following && snapped
    case Render(_, _, jumped) => c.mode == Following && jumped
    case _ => false
  }

  /** Whether a call restarts the internal clock under a run. */
  predicate Restarts(c: ControlState, op: Op)
  {
    c.mode == FreeRunning && (op.Start? || (op.Resync? && c.scheduler.playing))
  }

  /** Whether a call starts a run on the followed timeline. */
  predicate Joins(c: ControlState, op: Op) { c.mode == Following && op.Start? }

  predicate MovesCursor(c: ControlState, op: Op) { Realigns(c, op) || Restarts(c, op) || Joins(c, op) }

  /** The control half after a call, before a render's tick schedules. */
  function Moved(c: ControlState, op: Op, position: nat, now: nat): (c': ControlState)
    requires c.Valid() && OpValid(op)
    ensures c'.Valid()
  {
    if op.Render? then
      ObservedValid(NoteRenderPosition(c, position), op.advanced, op.jumped, position, now);
      Observed(NoteRenderPosition(c, position), op.advanced, op.jumped, position, now)
    else
      ControlStepValid(c, op, position, now);
      ControlStep(c, op, position, now)
  }

  predicate Changes(c: ControlState, moved: ControlState)
  {
    moved.Adjusted() != c.Adjusted() || moved.Pattern() != c.Pattern()
  }

  // ---- Where a call puts the next step ----

  /** The samples of a beat at a tempo asked for. */
  function SpanAt(c: ControlState, bpm: real): real
    requires c.sampleRate > 0.0
  {
    c.sampleRate * 60.0 / Clamp(bpm, MIN_BPM, MAX_BPM)
  }

  /** The tempo of the clock in use. */
  function TempoOf(c: ControlState): real
  {
    match c.mode case FreeRunning => c.internal.bpm case Following => c.follower.bpm
  }

  /** The sample, before latency, of the next step on a line through `now` at a tempo asked for: as
      many samples on as the beats to that step span. */
  function AtTempo(c: ControlState, bpm: real, now: nat): real
    requires c.Valid()
  {
    now as real + BeatsAhead(c, now) * SpanAt(c, bpm)
  }

  /** How early latency makes a step sound. */
  function EarlyBy(c: ControlState, controls: Controls): real { controls.latencyMs * c.sampleRate / 1000.0 }

  /** The timeline a followed clock goes over to with a call. */
  function NewPlan(c: ControlState, op: Op): (plan: Option<Timeline>)
    requires OpValid(op)
    ensures plan.Some? ==> plan.value.Valid()
  {
    if c.mode == FreeRunning then None
    else match op
      case Tap(_, _, next, _) => Some(next)
      case Observe(next, _) => Some(next)
      case Render(_, next, _) => Some(next)
      case _ => None
  }

  /** The tempo of a new line a call puts the clock on. */
  function NewTempo(c: ControlState, op: Op): Option<real>
  {
    match op
    case SetTempo(bpm) => if c.mode == FreeRunning then Some(bpm) else None
    case SetMode(mode) => if mode == c.mode then None else Some(TempoOf(c))
    case _ => None
  }

  function PatternAt(c: ControlState, op: Op): Pattern { if op.SetPattern? then op.pattern else c.Pattern() }

  function ControlsAt(c: ControlState, op: Op): Controls { if op.SetControls? then op.controls else c.controls }

  /** Where a call at `now` that leaves the cursor alone puts the next step. */
  function NextAt(c: ControlState, op: Op, now: nat): int
    requires c.Valid() && OpValid(op)
  {
    var controls, plan, bpm := ControlsAt(c, op), NewPlan(c, op), NewTempo(c, op);
    var beat := PatternAt(c, op).StepBeat(c.scheduler.nextStep) + controls.nudgeBeats;
    var sample :=
      if plan.Some? then plan.value.SampleAtBeat(beat)
      else if bpm.Some? then AtTempo(c, bpm.value, now)
      else c.Active().SampleAtBeat(beat);
    Round(sample - EarlyBy(c, controls))
  }

  /** Half a step on the clock a call leaves. */
  function HalfAt(c: ControlState, op: Op): real
    requires c.Valid() && OpValid(op)
  {
    var plan, bpm := NewPlan(c, op), NewTempo(c, op);
    if plan.Some? then 0.125 / plan.value.rate
    else if bpm.Some? then 0.125 * SpanAt(c, bpm.value)
    else HalfStep(c.Active())
  }

  /** The samples a flam spans behind a call. */
  function FlamsAt(c: ControlState, op: Op): nat { RoundToNat(PatternAt(c, op).FlamSeconds() * c.sampleRate) }

  /** How far the next step must keep behind the newest one queued: half a step, and if it has a flam
      far enough that its grace note comes behind that one too. */
  function DistanceAt(c: ControlState, op: Op): real
    requires c.Valid() && OpValid(op)
  {
    var half, p := HalfAt(c, op), PatternAt(c, op);
    if p.HasFlam(c.scheduler.nextStep) then MaxR(half, FlamsAt(c, op) as real + 1.0)
    else half
  }

  /** The call leaves the next step at or after sample 0, and far enough behind `last`. */
  predicate NextFits(c: ControlState, op: Op, last: Option<nat>, now: nat)
    requires c.Valid() && OpValid(op)
  {
    var next := NextAt(c, op, now);
    next >= 0 && (last.Some? ==> next as real >= last.value as real + DistanceAt(c, op))
  }

  // ---- It says exactly what the call does ----

  /** On either clock, whatever the call: it leaves the next step in order if and only if it fits. */
  lemma OrderKept(c: ControlState, op: Op, position: nat, now: nat, last: Option<nat>)
    requires c.Valid() && OpValid(op) && OneRate(c) && c.scheduler.playing && !MovesCursor(c, op)
    requires OneRate(Moved(c, op, position, now))
    ensures InOrder(Moved(c, op, position, now), last) <==> NextFits(c, op, last, now)
  {
    hide NextAt, DistanceAt, Margin, StepPosition, Moved, MovesCursor, OpValid;
    MovedPlaces(c, op, position, now);
    MovedDistance(c, op, position, now);
  }

  lemma MovedDistance(c: ControlState, op: Op, position: nat, now: nat)
    requires c.Valid() && OpValid(op) && OneRate(c) && c.scheduler.playing && !MovesCursor(c, op)
    requires OneRate(Moved(c, op, position, now))
    ensures Margin(Moved(c, op, position, now)) == DistanceAt(c, op)
  {
    hide HalfAt, HalfStep, Moved, FlamSamples, PatternAt, Pattern.HasFlam, MovesCursor, OpValid, FlamsAt;
    MovedHalves(c, op, position, now);
    MovedFlams(c, op, position, now);
  }

  /** The next step after a call. */
  lemma MovedPlaces(c: ControlState, op: Op, position: nat, now: nat)
    requires c.Valid() && OpValid(op) && OneRate(c) && c.scheduler.playing && !MovesCursor(c, op)
    requires OneRate(Moved(c, op, position, now))
    ensures var c' := Moved(c, op, position, now);
            && c'.scheduler.nextStep == c.scheduler.nextStep
            && StepPosition(c'.Pattern(), c'.Adjusted(), c'.scheduler.nextStep) == NextAt(c, op, now)
  {
    var c' := Moved(c, op, position, now);
    MovedShape(c, op, position, now);
    if NewTempo(c, op).Some? { TempoPlaces(c, op, now); }
    hide Moved, MovesCursor, OpValid, Pattern.StepBeat, ActiveClock.SampleAtBeat, Timeline.SampleAtBeat, Round, NewLine,
         NewTempo, NewPlan, PatternAt, ControlsAt, AtTempo, ControlState.Valid;
    assert c'.Adjusted().LatencySamples() == EarlyBy(c, c'.controls);
  }

  /** The clock, the pattern and the controls after a call. */
  lemma MovedShape(c: ControlState, op: Op, position: nat, now: nat)
    requires c.Valid() && OpValid(op) && OneRate(c) && c.scheduler.playing && !MovesCursor(c, op)
    requires OneRate(Moved(c, op, position, now))
    ensures var c', plan, bpm := Moved(c, op, position, now), NewPlan(c, op), NewTempo(c, op);
            && c'.Pattern() == PatternAt(c, op) && c'.controls == ControlsAt(c, op)
            && c'.scheduler.nextStep == c.scheduler.nextStep && c'.sampleRate == c.sampleRate
            && c'.mode == (if op.SetMode? then op.mode else c.mode)
            && c'.Active() == if plan.Some? then Follow(plan.value)
                              else if bpm.Some? then NewLine(c, bpm.value, now, c'.mode) else c.Active()
  {
    hide StraightLine, RealignContinuous, DropQueuedFrom, RestartInternalAt, FirstStepAtOrAfter;
  }

  /** The line through the beat at `now` at a tempo asked for: of the internal clock or of a new
      follower. */
  function NewLine(c: ControlState, bpm: real, now: nat, mode: Mode): ActiveClock
    requires c.Valid()
  {
    var sample := now as real;
    match mode
    case FreeRunning => Internal(c.internal.WithTempo(bpm, sample).Aligned(sample, c.Active().BeatAtSample(sample)))
    case Following => Follow(StraightLine(c.sampleRate, bpm, sample, c.Active().BeatAtSample(sample)))
  }

  lemma MovedHalves(c: ControlState, op: Op, position: nat, now: nat)
    requires c.Valid() && OpValid(op) && OneRate(c) && c.scheduler.playing && !MovesCursor(c, op)
    requires OneRate(Moved(c, op, position, now))
    ensures HalfStep(Moved(c, op, position, now).Active()) == HalfAt(c, op)
  {
  }

  lemma MovedFlams(c: ControlState, op: Op, position: nat, now: nat)
    requires c.Valid() && OpValid(op) && OneRate(c) && c.scheduler.playing && !MovesCursor(c, op)
    requires OneRate(Moved(c, op, position, now))
    ensures var c' := Moved(c, op, position, now);
            && c'.scheduler.nextStep == c.scheduler.nextStep && c'.Pattern() == PatternAt(c, op)
            && FlamSamples(c'.Pattern(), c'.Adjusted()) == FlamsAt(c, op)
  {
    hide Moved, FlamSamples, FlamsAt, OpValid, MovesCursor, PatternAt;
    MovedRate(c, op, position, now);
    FlamsFrom(Moved(c, op, position, now), c, op);
  }

  lemma MovedRate(c: ControlState, op: Op, position: nat, now: nat)
    requires c.Valid() && OpValid(op) && OneRate(c) && c.scheduler.playing && !MovesCursor(c, op)
    requires OneRate(Moved(c, op, position, now))
    ensures var c' := Moved(c, op, position, now);
            && c'.scheduler.nextStep == c.scheduler.nextStep && c'.Pattern() == PatternAt(c, op)
            && c'.Adjusted().SampleRate() == c.sampleRate
  {
    hide Pattern.FlamSeconds;
  }

  lemma FlamsFrom(c': ControlState, c: ControlState, op: Op)
    requires c'.Valid() && c'.Pattern() == PatternAt(c, op) && c'.Adjusted().SampleRate() == c.sampleRate
    ensures FlamSamples(c'.Pattern(), c'.Adjusted()) == FlamsAt(c, op)
  {
  }

  lemma TempoPlaces(c: ControlState, op: Op, now: nat)
    requires c.Valid() && OneRate(c) && NewTempo(c, op).Some?
    ensures var beat, mode, bpm := BeatOf(c, c.scheduler.nextStep), if op.SetMode? then op.mode else c.mode,
                                   NewTempo(c, op).value;
            && NewLine(c, bpm, now, mode).Valid() && NewPlan(c, op) == None
            && NewLine(c, bpm, now, mode).SampleAtBeat(beat) == AtTempo(c, bpm, now)
            && PatternAt(c, op) == c.Pattern() && ControlsAt(c, op) == c.controls
  {
    hide Timeline.BeatAtSample, ActiveClock.BeatAtSample, Pattern.StepBeat;
    var bpm := NewTempo(c, op).value;
    if MIN_BPM <= bpm <= MAX_BPM { StraightSpan(c, bpm, BeatsAhead(c, now)); }
  }

  lemma StraightSpan(c: ControlState, bpm: real, ahead: real)
    requires c.Valid() && MIN_BPM <= bpm <= MAX_BPM
    ensures var rate := bpm / (60.0 * c.sampleRate); rate > 0.0 && ahead / rate == ahead * SpanAt(c, bpm)
  {
    var d := 60.0 * c.sampleRate;
    var rate := bpm / d;
    DivPos(bpm, d);
    DivPos(d, bpm);
    var span := d / bpm;
    assert span == SpanAt(c, bpm);
    assert rate * span == 1.0 by { Reciprocals(bpm, d, rate, span); }
    assert ahead == ahead * span * rate;
    MulThenDiv(ahead * span, rate);
  }

  lemma Reciprocals(x: real, y: real, q: real, r: real)
    requires x > 0.0 && y > 0.0 && q * y == x && r * x == y
    ensures q * r == 1.0
  {
    assert q * r * x == q * y == x;
    assert (q * r) * x / x == 1.0 by { MulThenDiv(1.0, x); }
    MulThenDiv(q * r, x);
  }
}
