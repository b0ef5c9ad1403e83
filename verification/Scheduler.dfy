/** The pattern turned into a stream of timed events, and the cursor that queues it. */
module Scheduling {
  import opened Numbers
  import opened Clock
  import opened Pattern

  /** Slots steps never fill, so that a flush finds room. */
  const FLUSH_RESERVE := 2

  /** Slots a step may need: a grace note and a hit for every voice. */
  const STEP_SLOTS := 2 * VOICE_COUNT

  // ---- Where a step falls and what it plays ----

  /** Where a step falls on the clock, to the nearest sample: negative before sample 0. */
  function StepPosition(p: Pattern, c: AdjustedClock, step: nat): int
    requires c.Valid()
  {
    Round(c.SampleAtBeat(p.StepBeat(step)))
  }

  /** The same in queue positions, which begin at 0: steps before that are queued at 0. */
  function StepSample(p: Pattern, c: AdjustedClock, step: nat): (n: nat)
    requires c.Valid()
    ensures n == Max(StepPosition(p, c, step), 0)
  {
    RoundToNat(c.SampleAtBeat(p.StepBeat(step)))
  }

  function FlamSamples(p: Pattern, c: AdjustedClock): nat
    requires c.Valid()
  {
    RoundToNat(p.FlamSeconds() * c.SampleRate())
  }

  /** The samples of a step's earliest event and of its grid hit. */
  function StepSpan(p: Pattern, c: AdjustedClock, step: nat): (nat, nat)
    requires p.Valid() && c.Valid()
  {
    var sample := StepSample(p, c, step);
    if p.HasFlam(step) then (SaturatingSub(sample, FlamSamples(p, c)), sample) else (sample, sample)
  }

  /** What one voice plays on a step: nothing, its hit, or a grace note and its hit. */
  function VoiceEvents(p: Pattern, c: AdjustedClock, step: nat, voice: VoiceId): seq<Event>
    requires p.Valid() && c.Valid()
  {
    var s := p.At(voice, step);
    if p.tracks[voice].mute || !s.on then []
    else
      var sample, velocity := StepSample(p, c, step), p.Velocity(s);
      var hit := [Event(sample, Trigger(voice, velocity))];
      if s.flam then
        [Event(SaturatingSub(sample, FlamSamples(p, c)), Trigger(voice, velocity * FLAM_GRACE_RATIO))] + hit
      else hit
  }

  /** What the first `voices` voices play on a step. */
  function EventsOfFirst(p: Pattern, c: AdjustedClock, step: nat, voices: nat): seq<Event>
    requires p.Valid() && c.Valid() && voices <= VOICE_COUNT
  {
    if voices == 0 then [] else EventsOfFirst(p, c, step, voices - 1) + VoiceEvents(p, c, step, voices - 1)
  }

  function StepEvents(p: Pattern, c: AdjustedClock, step: nat): seq<Event>
    requires p.Valid() && c.Valid()
  {
    EventsOfFirst(p, c, step, VOICE_COUNT)
  }

  /** The ideal step stream: every event of the steps `first`, ..., `end - 1`, in order. */
  function Stream(p: Pattern, c: AdjustedClock, first: nat, end: nat): seq<Event>
    requires p.Valid() && c.Valid() && first <= end
    decreases end
  {
    if first == end then [] else Stream(p, c, first, end - 1) + StepEvents(p, c, end - 1)
  }

  lemma {:induction false} StreamSplits(p: Pattern, c: AdjustedClock, first: nat, mid: nat, end: nat)
    requires p.Valid() && c.Valid() && first <= mid <= end
    ensures Stream(p, c, first, end) == Stream(p, c, first, mid) + Stream(p, c, mid, end)
    decreases end
  {
    hide StepEvents;
    if mid < end { StreamSplits(p, c, first, mid, end - 1); }
  }

  lemma VoiceEventsInSpan(p: Pattern, c: AdjustedClock, step: nat, voice: VoiceId)
    requires p.Valid() && c.Valid()
    ensures |VoiceEvents(p, c, step, voice)| <= 2
    ensures forall e <- VoiceEvents(p, c, step, voice) ::
              e.kind.Trigger? && StepSpan(p, c, step).0 <= e.sample <= StepSpan(p, c, step).1
  {
    var s := p.At(voice, step);
    if !p.tracks[voice].mute && s.on && s.flam { assert p.HasFlam(step); }
  }

  /** Every event of a step is a trigger inside the step's span, and its slots suffice. */
  lemma {:induction false} EventsInSpan(p: Pattern, c: AdjustedClock, step: nat, voices: nat)
    requires p.Valid() && c.Valid() && voices <= VOICE_COUNT
    ensures |EventsOfFirst(p, c, step, voices)| <= 2 * voices
    ensures forall e <- EventsOfFirst(p, c, step, voices) ::
              e.kind.Trigger? && StepSpan(p, c, step).0 <= e.sample <= StepSpan(p, c, step).1
  {
    if voices > 0 {
      EventsInSpan(p, c, step, voices - 1);
      VoiceEventsInSpan(p, c, step, voices - 1);
    }
  }

  lemma StepEventsInSpan(p: Pattern, c: AdjustedClock, step: nat)
    requires p.Valid() && c.Valid()
    ensures |StepEvents(p, c, step)| <= STEP_SLOTS
    ensures forall e <- StepEvents(p, c, step) ::
              e.kind.Trigger? && StepSpan(p, c, step).0 <= e.sample <= StepSpan(p, c, step).1
  {
    EventsInSpan(p, c, step, VOICE_COUNT);
  }

  // ---- Steps keep their order and their distance ----

  /** Queued steps never swap, and no two share a sample unless both are clamped to 0. */
  lemma StepsApart(p: Pattern, c: AdjustedClock, a: nat, b: nat)
    requires AudioRate(c) && a < b
    ensures StepSample(p, c, a) <= StepSample(p, c, b)
    ensures StepSample(p, c, b) >= 1 ==> StepSample(p, c, a) < StepSample(p, c, b)
    ensures StepSample(p, c, a) >= 1 ==> StepSample(p, c, a) + 3 <= StepSample(p, c, b)
  {
    StepBeatIncreasing(p, a, b);
    var x, y := c.SampleAtBeat(p.StepBeat(a)), c.SampleAtBeat(p.StepBeat(b));
    SamplesApart(c, p.StepBeat(a), p.StepBeat(b));
    assert y - x >= 4.0;
    RoundNear(x);
    RoundNear(y);
    RoundMonotone(x, y);
  }

  /** The grid hit of every step from here on falls at or after `sample`. */
  function StepBound(c: AdjustedClock, sample: nat): nat
    requires c.Valid()
  {
    var beat := c.BeatAtSample(sample as real + 1.0);
    if beat <= 0.0 then 0 else 4 * Ceil(beat) as nat
  }

  lemma StepBoundIsBound(p: Pattern, c: AdjustedClock, sample: nat, step: nat)
    requires c.Valid() && step >= StepBound(c, sample)
    ensures StepSample(p, c, step) >= sample
  {
    var beat := c.BeatAtSample(sample as real + 1.0);
    StepBeatSpacing(p, step);
    assert p.StepBeat(step) >= beat;
    ClockGalois(c, sample as real + 1.0, p.StepBeat(step));
    RoundNear(c.SampleAtBeat(p.StepBeat(step)));
  }

  // ---- The search for a step ----

  /** Where the search starts: one step before the beat at `sample`. */
  function SearchStart(c: AdjustedClock, sample: nat): nat
    requires c.Valid()
  {
    var beat := c.BeatAtSample(sample as real);
    if beat <= 0.0 then 0 else SaturatingSub((beat / BEATS_PER_STEP).Floor as nat, 1)
  }

  function Walk(p: Pattern, c: AdjustedClock, sample: nat, step: nat): (r: nat)
    requires c.Valid()
    ensures r >= step && StepSample(p, c, r) >= sample
    ensures forall k :: step <= k < r ==> StepSample(p, c, k) < sample
    decreases StepBound(c, sample) - step
  {
    if StepSample(p, c, step) < sample then
      assert step < StepBound(c, sample) by { if step >= StepBound(c, sample) { StepBoundIsBound(p, c, sample,
          step); } }
      Walk(p, c, sample, step + 1)
    else step
  }

  function FirstStepAtOrAfter(p: Pattern, c: AdjustedClock, sample: nat): nat
    requires c.Valid()
  {
    Walk(p, c, sample, SearchStart(c, sample))
  }

  /** No step before this one lies at or after `sample` on the clock. */
  ghost predicate IsFirstStep(p: Pattern, c: AdjustedClock, sample: nat, step: nat)
    requires c.Valid()
  {
    && StepPosition(p, c, step) >= sample
    && forall k: nat :: k < step ==> StepPosition(p, c, k) < sample
  }

  /** Nothing before the start of the search can round up to `sample`. */
  lemma SearchStartIsEarly(p: Pattern, c: AdjustedClock, sample: nat, step: nat)
    requires AudioRate(c) && step < SearchStart(c, sample)
    ensures StepPosition(p, c, step) < sample
  {
    var beat := c.BeatAtSample(sample as real);
    StepBeatSpacing(p, step);
    assert (step + 2) as real <= beat / BEATS_PER_STEP;
    assert p.StepBeat(step) <= beat - BEATS_PER_STEP;
    SamplesApart(c, p.StepBeat(step), beat);
    ClockInverse(c, sample as real, beat);
  }

  /** At sample 0 the search does not walk: every step is queued at 0 or later. If it starts
      late enough to skip a step, it still starts on one that is past. */
  lemma SearchAtZero(p: Pattern, c: AdjustedClock)
    requires AudioRate(c)
    ensures FirstStepAtOrAfter(p, c, 0) == SearchStart(c, 0)
    ensures StepPosition(p, c, 0) < 0 ==> StepPosition(p, c, SearchStart(c, 0)) < 0
    ensures StepPosition(p, c, 0) >= 0 ==> SearchStart(c, 0) == 0
  {
    var beat, step := c.BeatAtSample(0.0), SearchStart(c, 0);
    ClockInverse(c, 0.0, 0.0);
    if step > 0 {
      assert (step + 1) as real <= beat / BEATS_PER_STEP;
      assert p.StepBeat(step) <= beat - 1.0 / 6.0;
      SamplesApart(c, p.StepBeat(step), beat);
      assert StepPosition(p, c, step) < 0;
      SearchStartIsEarly(p, c, 0, 0);
    }
  }

  /** From sample 1 on the search finds the first step that is not before `sample`; at 0
      exactly if step 0 is not already past there. Otherwise it stops too early, on a step
      that lies before sample 0. */
  lemma FirstStepExact(p: Pattern, c: AdjustedClock, sample: nat)
    requires AudioRate(c)
    ensures IsFirstStep(p, c, sample, FirstStepAtOrAfter(p, c, sample))
            <==> sample >= 1 || StepPosition(p, c, 0) >= 0
    ensures sample == 0 && StepPosition(p, c, 0) < 0 ==> StepPosition(p, c, FirstStepAtOrAfter(p, c, 0)) < 0
  {
    hide StepPosition, SearchStart;
    if sample >= 1 {
      var step := FirstStepAtOrAfter(p, c, sample);
      forall k: nat | k < step
        ensures StepPosition(p, c, k) < sample
      {
        if k < SearchStart(c, sample) { SearchStartIsEarly(p, c, sample, k); }
            else { assert StepSample(p, c, k) < sample; }
      }
    } else {
      SearchAtZero(p, c);
    }
  }

  /** Every voice on every step, straight. */
  function EveryStep(): Pattern
  {
    var hits := seq(STEP_COUNT, _ => Step(true, false, false));
    Pattern(seq(VOICE_COUNT, _ => Track(hits, false)), 0.0, 0.0, 0.0)
  }

  /** 48 kHz and 120 BPM, two fifths of a beat into the bar at sample 0. */
  const AHEAD_AT_ZERO := AdjustedClock(Internal(Line(48000.0, 120.0, 0.0, 0.4)), Controls(0.0, 0.0))

  /** A clock and a pattern on which the search at sample 0 stops on step 0, 9600 samples in the
      past, instead of on step 2; steps 0 and 1 are then both queued at sample 0. */
  lemma FirstStepTooEarlyAtZero()
    ensures var p, c := EveryStep(), AHEAD_AT_ZERO;
            && p.Valid() && AudioRate(c)
            && FirstStepAtOrAfter(p, c, 0) == 0 && StepPosition(p, c, 0) == -9600
            && IsFirstStep(p, c, 0, 2)
            && StepSample(p, c, 0) == StepSample(p, c, 1) == 0
  {
    var p, c := EveryStep(), AHEAD_AT_ZERO;
    AheadIsValid();
    hide StepPosition, AudioRate, SearchStart, EveryStep, FirstStepAtOrAfter, StepSample, AdjustedClock.Valid,
         Pattern.Valid, AHEAD_AT_ZERO;
    PositionAhead(0);
    PositionAhead(1);
    PositionAhead(2);
    SearchAheadAtZero();
    SearchAtZero(p, c);
  }

  lemma AheadIsValid()
    ensures EveryStep().Valid() && AudioRate(AHEAD_AT_ZERO)
  {
    AudioRateSuffices(AHEAD_AT_ZERO.inner.line, AHEAD_AT_ZERO.controls);
  }

  lemma PositionAhead(step: nat)
    requires step <= 2
    ensures StepPosition(EveryStep(), AHEAD_AT_ZERO, step) == 6000 * step - 9600
  {
    var l := AHEAD_AT_ZERO.inner.line;
    assert l.SamplesPerBeat() == 24000.0;
    assert EveryStep().StepBeat(step) == step as real * 0.25;
    assert AHEAD_AT_ZERO.SampleAtBeat(step as real * 0.25) == 6000.0 * step as real - 9600.0;
  }

  lemma SearchAheadAtZero()
    ensures SearchStart(AHEAD_AT_ZERO, 0) == 0
  {
    assert AHEAD_AT_ZERO.BeatAtSample(0.0) == 0.4;
  }

  // ---- The queue as its producer sees it ----

  /** Everything ever pushed, how much of it the consumer has popped, and the room. */
  datatype Ring = Ring(capacity: nat, pushed: seq<Event>, popped: nat)
  {
    predicate Valid() { popped <= |pushed| <= popped + capacity }

    function Vacant(): nat
      requires Valid()
    {
      capacity - (|pushed| - popped)
    }

    function Waiting(): seq<Event>
      requires Valid()
    {
      pushed[popped..]
    }

    function Push(e: Event): Ring
    {
      this.(pushed := pushed + [e])
    }

    function PushAll(es: seq<Event>): Ring
    {
      this.(pushed := pushed + es)
    }

    /** The consumer pops `n` events, or all there are. */
    function Pop(n: nat): (r: Ring)
      requires Valid()
      ensures r.Valid() && r.Vacant() >= Vacant()
    {
      this.(popped := Min(popped + n, |pushed|) as nat)
    }
  }

  /** What the consumer pops before the producer's next look, and the looks after that. */
  function Next(pops: seq<nat>): nat { if pops == [] then 0 else pops[0] }

  function Later(pops: seq<nat>): seq<nat> { if pops == [] then [] else pops[1..] }

  // ---- The scheduler ----

  datatype SchedulerState = SchedulerState(
    pattern: Pattern, nextStep: nat, playing: bool, stopAfter: Option<nat>, stopAt: Option<nat>)
  {
    predicate AtEnd() { stopAt.Some? && nextStep >= stopAt.value }

    function StartAt(step: nat): SchedulerState
    {
      this.(nextStep := step, playing := true,
            stopAt := if stopAfter.Some? then Some(SaturatingAdd(step, stopAfter.value)) else None)
    }

    function Seek(step: nat, unplayed: nat): SchedulerState
    {
      this.(nextStep := step,
            stopAt := if stopAt.Some?
                      then Some(SaturatingAdd(step, SaturatingSub(stopAt.value, Min(unplayed, nextStep) as nat)))
                      else None)
    }

    function SetStopAfter(steps: Option<nat>): SchedulerState
    {
      this.(stopAfter := steps,
            stopAt := if steps.Some? then Some(SaturatingAdd(nextStep, steps.value)) else None)
    }
  }

  /** The outcome of one call of `schedule`. `pops` is what a concurrently running consumer
      takes before each look at the room; in lockstep it is empty. */
  function Scheduled(s: SchedulerState, c: AdjustedClock, horizon: nat, q: Ring, pops: seq<nat>)
    : (r: (SchedulerState, Ring))
    requires s.pattern.Valid() && c.Valid() && q.Valid()
    ensures r.0.pattern == s.pattern && r.1.capacity == q.capacity
    decreases StepBound(c, horizon) - s.nextStep
  {
    if !s.playing then (s, q)
    else if s.AtEnd() then (s.(playing := false), q)
    else if StepSample(s.pattern, c, s.nextStep) >= horizon then (s, q)
    else
      var q' := q.Pop(Next(pops));
      if q'.Vacant() < STEP_SLOTS + FLUSH_RESERVE then (s, q')
      else
        StepEventsInSpan(s.pattern, c, s.nextStep);
        assert s.nextStep < StepBound(c, horizon) by {
          if s.nextStep >= StepBound(c, horizon) { StepBoundIsBound(s.pattern, c, horizon, s.nextStep); }
        }
        Scheduled(s.(nextStep := s.nextStep + 1), c, horizon,
                 q'.PushAll(StepEvents(s.pattern, c, s.nextStep)), Later(pops))
  }

  /** The pushed events are the ideal stream from the cursor on, cut at a step boundary; no
      push failed; a call that emitted a step left the reserve; and it ended only at the
      horizon, at the end of the run, or for want of room. */
  ghost predicate Outcome(s: SchedulerState, c: AdjustedClock, horizon: nat, q: Ring, s': SchedulerState, q': Ring)
    requires s.pattern.Valid() && c.Valid() && q.Valid()
  {
    && q'.Valid() && q'.popped >= q.popped && q'.capacity == q.capacity
    && s'.nextStep >= s.nextStep && s' == s.(nextStep := s'.nextStep, playing := s'.playing)
    && (!s.playing ==> s' == s)
    && q'.pushed == q.pushed + Stream(s.pattern, c, s.nextStep, s'.nextStep)
    && (s'.nextStep > s.nextStep ==> q'.Vacant() >= FLUSH_RESERVE)
    && (forall k :: s.nextStep <= k < s'.nextStep ==>
          StepSample(s.pattern, c, k) < horizon && (s.stopAt.Some? ==> k < s.stopAt.value))
    && (s'.playing ==> !s'.AtEnd() && (StepSample(s.pattern, c, s'.nextStep) >= horizon
                                       || q'.Vacant() < STEP_SLOTS + FLUSH_RESERVE))
    && (s.playing && !s'.playing ==> s'.AtEnd())
  }

  /** What one call does, whatever the consumer pops meanwhile. */
  lemma {:induction false} ScheduleRefines(s: SchedulerState, c: AdjustedClock, horizon: nat, q: Ring, pops: seq<nat>)
    requires s.pattern.Valid() && c.Valid() && q.Valid()
    ensures var (s', q') := Scheduled(s, c, horizon, q, pops);
            Outcome(s, c, horizon, q, s', q') && (pops == [] ==> q'.popped == q.popped)
    decreases StepBound(c, horizon) - s.nextStep
  {
    hide StepSample, StepEvents, StepBound, Stream;
    NoStream(s.pattern, c, s.nextStep);
    if s.playing && !s.AtEnd() && StepSample(s.pattern, c, s.nextStep) < horizon {
      var q1 := q.Pop(Next(pops));
      if q1.Vacant() >= STEP_SLOTS + FLUSH_RESERVE {
        hide Outcome;
        StepEventsInSpan(s.pattern, c, s.nextStep);
        if s.nextStep >= StepBound(c, horizon) { StepBoundIsBound(s.pattern, c, horizon, s.nextStep); }
        var s2, q2 := s.(nextStep := s.nextStep + 1), q1.PushAll(StepEvents(s.pattern, c, s.nextStep));
        ScheduleRefines(s2, c, horizon, q2, Later(pops));
        var (s', q') := Scheduled(s2, c, horizon, q2, Later(pops));
        OutcomeExtends(s, c, horizon, q, q1, s', q');
      }
    }
  }

  lemma NoStream(p: Pattern, c: AdjustedClock, first: nat)
    requires p.Valid() && c.Valid()
    ensures Stream(p, c, first, first) == []
  {
  }

  /** One more step before an outcome is an outcome. */
  lemma OutcomeExtends(s: SchedulerState, c: AdjustedClock, horizon: nat, q: Ring, q1: Ring, s': SchedulerState,
                       q': Ring)
    requires s.pattern.Valid() && c.Valid() && q.Valid() && q1.Valid()
    requires s.playing && !s.AtEnd() && StepSample(s.pattern, c, s.nextStep) < horizon
    requires q1.pushed == q.pushed && q1.popped >= q.popped && q1.capacity == q.capacity
    requires q1.Vacant() >= STEP_SLOTS + FLUSH_RESERVE
    requires q1.PushAll(StepEvents(s.pattern, c, s.nextStep)).Valid()
    requires Outcome(s.(nextStep := s.nextStep + 1), c, horizon, q1.PushAll(StepEvents(s.pattern, c, s.nextStep)), s',
             q')
    ensures Outcome(s, c, horizon, q, s', q')
  {
    hide StepSample, StepEvents, Stream;
    var p, first := s.pattern, s.nextStep;
    StepEventsInSpan(p, c, first);
    StreamSplits(p, c, first, first + 1, s'.nextStep);
    StreamOne(p, c, first);
  }

  lemma StreamOne(p: Pattern, c: AdjustedClock, step: nat)
    requires p.Valid() && c.Valid()
    ensures Stream(p, c, step, step + 1) == StepEvents(p, c, step)
  {
    hide StepEvents;
  }

  /** One call: its horizon and what the consumer pops meanwhile. */
  datatype Call = Call(horizon: nat, pops: seq<nat>, popsAfter: nat)

  function ScheduleAll(s: SchedulerState, c: AdjustedClock, q: Ring, calls: seq<Call>): (SchedulerState, Ring)
    requires s.pattern.Valid() && c.Valid() && q.Valid()
    decreases |calls|
  {
    if calls == [] then (s, q)
    else
      ScheduleRefines(s, c, calls[0].horizon, q, calls[0].pops);
      var (s1, q1) := Scheduled(s, c, calls[0].horizon, q, calls[0].pops);
      ScheduleAll(s1, c, q1.Pop(calls[0].popsAfter), calls[1..])
  }

  /** Over any sequence of horizons, full-queue pauses and concurrent pops, what has been
      pushed is the ideal stream cut at a step boundary: nothing is dropped, nothing repeats. */
  lemma {:induction false} ScheduleAllRefines(s: SchedulerState, c: AdjustedClock, q: Ring, calls: seq<Call>)
    requires s.pattern.Valid() && c.Valid() && q.Valid()
    ensures var (s', q') := ScheduleAll(s, c, q, calls);
            && q'.Valid() && s'.nextStep >= s.nextStep
            && q'.pushed == q.pushed + Stream(s.pattern, c, s.nextStep, s'.nextStep)
            && (q.Vacant() >= FLUSH_RESERVE ==> q'.Vacant() >= FLUSH_RESERVE)
    decreases |calls|
  {
    hide Scheduled, StepSample, StepEvents, Stream;
    assert Stream(s.pattern, c, s.nextStep, s.nextStep) == [] by { NoStream(s.pattern, c, s.nextStep); }
    if calls != [] {
      ScheduleRefines(s, c, calls[0].horizon, q, calls[0].pops);
      var (s1, q1) := Scheduled(s, c, calls[0].horizon, q, calls[0].pops);
      var q2 := q1.Pop(calls[0].popsAfter);
      ScheduleAllRefines(s1, c, q2, calls[1..]);
      var (s', q') := ScheduleAll(s1, c, q2, calls[1..]);
      StreamSplits(s.pattern, c, s.nextStep, s1.nextStep, s'.nextStep);
    }
  }

  // ---- Stop-after counts survive jumps ----

  /** A seek leaves as many steps to play as before, the discarded ones counted in again, exactly
      when the new end fits in 64 bits. */
  lemma SeekKeepsCount(s: SchedulerState, step: nat, unplayed: nat)
    requires s.stopAt.Some? && s.nextStep <= s.stopAt.value && step <= U64_MAX
    ensures var discarded := s.nextStep - Min(unplayed, s.nextStep);
            var s' := s.Seek(step, unplayed);
            (s'.stopAt.value - s'.nextStep == s.stopAt.value - s.nextStep + discarded)
            <==> step + (s.stopAt.value - s.nextStep) + discarded <= U64_MAX
  {
  }

  /** A run's history: calls of `schedule` and jumps. */
  datatype RunOp =
    | Emit(c: AdjustedClock, horizon: nat, pops: seq<nat>)
    | Jump(step: nat, unplayed: nat)

  predicate HistoryValid(ops: seq<RunOp>) { forall i :: 0 <= i < |ops| && ops[i].Emit? ==> ops[i].c.Valid() }

  /** Runs `ops`, counting the steps scheduled and not discarded since. */
  function RunOps(s: SchedulerState, q: Ring, heard: int, ops: seq<RunOp>): (SchedulerState, Ring, int)
    requires s.pattern.Valid() && q.Valid() && HistoryValid(ops)
    decreases |ops|
  {
    if ops == [] then (s, q, heard)
    else match ops[0]
      case Emit(c, horizon, pops) =>
        ScheduleRefines(s, c, horizon, q, pops);
        var (s1, q1) := Scheduled(s, c, horizon, q, pops);
        RunOps(s1, q1, heard + s1.nextStep - s.nextStep, ops[1..])
      case Jump(step, unplayed) =>
        RunOps(s.Seek(step, unplayed), q, heard - (s.nextStep - Min(unplayed, s.nextStep)), ops[1..])
  }

  /** No jump of the history moves the end past 64 bits. */
  ghost predicate EndsFit(s: SchedulerState, q: Ring, ops: seq<RunOp>)
    requires s.pattern.Valid() && q.Valid() && HistoryValid(ops)
    decreases |ops|
  {
    ops == [] || match ops[0]
      case Emit(c, horizon, pops) =>
        ScheduleRefines(s, c, horizon, q, pops);
        var (s1, q1) := Scheduled(s, c, horizon, q, pops);
        EndsFit(s1, q1, ops[1..])
      case Jump(step, unplayed) =>
        && (s.stopAt.Some? ==>
              step + SaturatingSub(s.stopAt.value, Min(unplayed, s.nextStep) as nat) <= U64_MAX)
        && EndsFit(s.Seek(step, unplayed), q, ops[1..])
  }

  /** Under any interleaving of scheduling and jumps, the steps scheduled and not discarded
      plus the steps left make up the configured count, so a run that ends has kept exactly
      that many. */
  lemma {:induction false} StopAfterConserved(s: SchedulerState, q: Ring, heard: int, ops: seq<RunOp>, count: nat)
    requires s.pattern.Valid() && q.Valid() && HistoryValid(ops) && EndsFit(s, q, ops)
    requires s.stopAt.Some? && s.nextStep <= s.stopAt.value
    requires heard + (s.stopAt.value - s.nextStep) == count
    ensures var (s', q', heard') := RunOps(s, q, heard, ops);
            && s'.stopAt.Some? && s'.nextStep <= s'.stopAt.value
            && heard' + (s'.stopAt.value - s'.nextStep) == count
            && (s'.AtEnd() ==> heard' == count)
    decreases |ops|
  {
    hide Scheduled, StepSample, StepEvents;
    if ops != [] {
      match ops[0]
      case Emit(c, horizon, pops) =>
        ScheduleRefines(s, c, horizon, q, pops);
        var (s1, q1) := Scheduled(s, c, horizon, q, pops);
        if s1.nextStep > s.nextStep { assert StepSample(s.pattern, c, s1.nextStep - 1) < horizon; }
        StopAfterConserved(s1, q1, heard + s1.nextStep - s.nextStep, ops[1..], count);
      case Jump(step, unplayed) =>
        StopAfterConserved(s.Seek(step, unplayed), q, heard - (s.nextStep - Min(unplayed, s.nextStep)), ops[1..],
            count);
    }
  }

  // ---- The same, updated in place ----

  /** The event queue, as its two halves see it. While the producer looks at the room a
      consumer may be running: `pops` is how much it takes before each of the coming looks. */
  class EventQueue {
    const capacity: nat
    var pushed: seq<Event>
    var popped: nat
    var pops: seq<nat>

    function Value(): Ring
      reads this
    {
      Ring(capacity, pushed, popped)
    }

    constructor (capacity: nat, pops: seq<nat>)
      ensures Value() == Ring(capacity, [], 0) && Value().Valid() && this.pops == pops
    {
      this.capacity := capacity;
      pushed, popped, this.pops := [], 0, pops;
    }

    method Vacant() returns (n: nat)
      requires Value().Valid()
      modifies this
      ensures Value() == old(Value().Pop(Next(pops))) && pops == Later(old(pops))
      ensures n == Value().Vacant()
    {
      popped := Min(popped + Next(pops), |pushed|) as nat;
      pops := Later(pops);
      n := capacity - (|pushed| - popped);
    }

    /** Fails, handing nothing over, if the ring is full. */
    method Push(e: Event) returns (ok: bool)
      requires Value().Valid()
      modifies this
      ensures pops == old(pops) && ok == (old(Value().Vacant()) > 0)
      ensures Value() == if ok then old(Value()).Push(e) else old(Value())
      ensures Value().Valid()
    {
      ok := |pushed| - popped < capacity;
      if ok { pushed := pushed + [e]; }
    }

    /** Hands out the event that has waited longest. */
    method Pop() returns (e: Option<Event>)
      requires Value().Valid()
      modifies this
      ensures Value() == old(Value()).Pop(1) && Value().Valid() && pops == old(pops)
      ensures e == if old(Value().Waiting()) == [] then None else Some(old(Value().Waiting())[0])
    {
      if popped == |pushed| { return None; }
      e := Some(pushed[popped]);
      popped := popped + 1;
    }
  }

  class Scheduler {
    var pattern: Pattern
    var nextStep: nat
    var playing: bool
    var stopAfter: Option<nat>
    var stopAt: Option<nat>

    function Value(): SchedulerState
      reads this
    {
      SchedulerState(pattern, nextStep, playing, stopAfter, stopAt)
    }

    constructor (pattern: Pattern)
      ensures Value() == SchedulerState(pattern, 0, false, None, None)
    {
      this.pattern := pattern;
      nextStep, playing, stopAfter, stopAt := 0, false, None, None;
    }

    method SetPattern(pattern: Pattern)
      modifies this
      ensures Value() == old(Value()).(pattern := pattern)
    {
      this.pattern := pattern;
    }

    method StartAt(step: nat)
      modifies this
      ensures Value() == old(Value()).StartAt(step)
    {
      nextStep := step;
      playing := true;
      stopAt := match stopAfter case Some(n) => Some(SaturatingAdd(step, n)) case None => None;
    }

    method Start()
      modifies this
      ensures Value() == old(Value()).StartAt(0)
    {
      StartAt(0);
    }

    method Stop()
      modifies this
      ensures Value() == old(Value()).(playing := false)
    {
      playing := false;
    }

    method Seek(step: nat, unplayed: nat)
      modifies this
      ensures Value() == old(Value()).Seek(step, unplayed)
    {
      if stopAt.Some? {
        var first: nat := if unplayed <= nextStep then unplayed else nextStep;
        var remaining := SaturatingSub(stopAt.value, first);
        stopAt := Some(SaturatingAdd(step, remaining));
      }
      nextStep := step;
    }

    method SetStopAfter(steps: Option<nat>)
      modifies this
      ensures Value() == old(Value()).SetStopAfter(steps)
    {
      stopAfter := steps;
      stopAt := match steps case Some(n) => Some(SaturatingAdd(nextStep, n)) case None => None;
    }

    /** The search loop: back off one step from the beat at `sample`, then walk forward. */
    method FindFirstStep(c: AdjustedClock, sample: nat) returns (step: nat)
      requires c.Valid()
      ensures step == FirstStepAtOrAfter(pattern, c, sample)
      ensures AudioRate(c) ==>
                (IsFirstStep(pattern, c, sample, step) <==> sample >= 1 || StepPosition(pattern, c, 0) >= 0)
    {
      hide StepSample, StepPosition;
      var beat := c.BeatAtSample(sample as real);
      step := if beat <= 0.0 then 0 else (beat / BEATS_PER_STEP).Floor as nat;
      step := SaturatingSub(step, 1);
      while StepSample(pattern, c, step) < sample
        invariant Walk(pattern, c, sample, step) == FirstStepAtOrAfter(pattern, c, sample)
        decreases StepBound(c, sample) - step
      {
        if step >= StepBound(c, sample) { StepBoundIsBound(pattern, c, sample, step); }
        step := step + 1;
      }
      if AudioRate(c) { FirstStepExact(pattern, c, sample); }
    }

    /** Queues step after step up to `horizon`, and counts their events. */
    method Schedule(c: AdjustedClock, horizon: nat, out: EventQueue) returns (count: nat)
      requires pattern.Valid() && c.Valid() && out.Value().Valid()
      modifies this, out
      ensures out.Value().Valid()
      ensures (Value(), out.Value()) == old(Scheduled(Value(), c, horizon, out.Value(), out.pops))
      ensures count == |out.pushed| - |old(out.pushed)|
      ensures old(out.pops) == [] ==> out.pops == []
    {
      hide StepSample, VoiceEvents, StepBound;
      count := 0;
      if !playing { return; }
      while true
        invariant playing && pattern == old(pattern) && out.Value().Valid()
        invariant count == |out.pushed| - |old(out.pushed)| && (old(out.pops) == [] ==> out.pops == [])
        invariant Scheduled(Value(), c, horizon, out.Value(), out.pops)
                  == old(Scheduled(Value(), c, horizon, out.Value(), out.pops))
        decreases StepBound(c, horizon) - nextStep
      {
        if stopAt.Some? && nextStep >= stopAt.value {
          playing := false;
          break;
        }
        var sample := StepSample(pattern, c, nextStep);
        if sample >= horizon { break; }
        var vacant := out.Vacant();
        if vacant < STEP_SLOTS + FLUSH_RESERVE { break; }
        if nextStep >= StepBound(c, horizon) { StepBoundIsBound(pattern, c, horizon, nextStep); }
        var n := EmitStep(c, sample, out);
        count := count + n;
        nextStep := nextStep + 1;
      }
    }

    /** Pushes all the events of the next step; none of the pushes can fail. */
    method EmitStep(c: AdjustedClock, sample: nat, out: EventQueue) returns (count: nat)
      requires pattern.Valid() && c.Valid() && out.Value().Valid() && sample == StepSample(pattern, c, nextStep)
      requires out.Value().Vacant() >= STEP_SLOTS
      modifies out
      ensures out.Value() == old(out.Value()).PushAll(StepEvents(pattern, c, nextStep)) && out.Value().Valid()
      ensures out.pops == old(out.pops) && count == |StepEvents(pattern, c, nextStep)|
    {
      hide StepSample, FlamSamples, Pattern.Velocity, Pattern.At;
      count := 0;
      var flamSamples := FlamSamples(pattern, c);
      for voice := 0 to VOICE_COUNT
        invariant out.Value() == old(out.Value()).PushAll(EventsOfFirst(pattern, c, nextStep, voice))
        invariant out.pops == old(out.pops) && out.Value().Valid()
        invariant count == |EventsOfFirst(pattern, c, nextStep, voice)|
      {
        EventsInSpan(pattern, c, nextStep, voice);
        ghost var sofar, more := EventsOfFirst(pattern, c, nextStep, voice), VoiceEvents(pattern, c, nextStep, voice);
        assert EventsOfFirst(pattern, c, nextStep, voice + 1) == sofar + more;
        hide EventsOfFirst;
        var track := pattern.tracks[voice];
        var step := pattern.At(voice, nextStep);
        if !track.mute && step.on {
          var velocity := pattern.Velocity(step);
          if step.flam {
            var graceAt := SaturatingSub(sample, flamSamples);
            var pushedGrace := out.Push(Event(graceAt, Trigger(voice, velocity * FLAM_GRACE_RATIO)));
            count := count + 1;
          }
          var pushedHit := out.Push(Event(sample, Trigger(voice, velocity)));
          count := count + 1;
        }
        assert out.Value() == old(out.Value()).PushAll(sofar + more);
      }
    }
  }
}
