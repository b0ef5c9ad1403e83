/** Runs from a new engine that bring two steps closer than half a step, or miscount: what the
    conditions on a run shut out does happen. */
module Counterexamples {
  import opened Numbers
  import opened Clock
  import opened Pattern
  import opened Scheduling
  import opened QueuedLogs
  import opened Rendering
  import opened Controlling
  import opened Engines
  import opened BlockSizes
  import opened Realigning
  import opened Ordering
  import opened GridHits
  import opened GridRuns
  import opened Tracing
  import opened Observing
  import opened TappedRuns
  import TapTempos

  // ---- A new engine at 48 kHz ----

  /** A new engine at 48 kHz with this tempo, pattern, controls and lookahead. */
  ghost predicate Fresh(e: Engine, bpm: real, p: Pattern, controls: Controls, lookahead: nat)
  {
    && IsNew(e) && e.control.scheduler == SchedulerState(p, 0, false, None, None)
    && e.control.internal == Line(48000.0, bpm, 0.0, 0.0) && e.control.controls == controls
    && e.control.lookahead == lookahead && e.control.queue.capacity == EVENT_QUEUE_CAPACITY
  }

  /** Every voice on every step, fully shuffled. */
  function ShuffledSteps(): Pattern { EveryStep().(shuffle := 1.0) }

  lemma PlainSteps(p: Pattern, k: nat)
    requires p == EveryStep() || p == ShuffledSteps()
    ensures p.Valid() && !p.HasFlam(k)
  {
    assert forall v :: 0 <= v < VOICE_COUNT ==> |p.tracks[v].steps| == STEP_COUNT;
    forall v: VoiceId
      ensures !p.At(v, k).flam
    {
    }
  }

  /** A restart anchors the line where step 0 is to sound. */
  lemma RestartLine(core: ControlState, sample: nat)
    requires core.Valid() && core.mode == FreeRunning && core.internal.sampleRate == core.sampleRate
    ensures var anchor := RestartAnchor(core.internal, core.controls, core.sampleRate, sample);
            RestartInternalAt(core, sample) == core.(internal := core.internal.Aligned(anchor, 0.0))
  {
    RestartPutsStepZero(core, sample);
    var anchor := RestartAnchor(core.internal, core.controls, core.sampleRate, sample);
    var moved := core.(internal := core.internal.Aligned(anchor, 0.0));
    assert moved.internal.SamplesPerBeat() == core.internal.SamplesPerBeat();
    assert moved.Adjusted().SampleAtBeat(0.0) == sample as real;
    assert core.Pattern().StepBeat(0) == 0.0;
  }

  // ---- Rendering a step at a time ----

  lemma LogOne(log: seq<Queued>, p: Pattern, clock: AdjustedClock, k: nat)
    requires p.Valid() && clock.Valid() && !p.HasFlam(k) && |log| < QUEUED_MEMORY
    ensures LogSteps(log, p, clock, k, k + 1)
            == log + [Queued(k, StepSample(p, clock, k), StepSample(p, clock, k))]
  {
    hide StepSample;
    assert LogSteps(log, p, clock, k, k) == log;
  }

  /** The step at the cursor is due at `at`, and the one behind it no earlier than `horizon`. */
  ghost predicate OneDue(c: ControlState, at: nat, horizon: nat)
    requires c.Valid()
  {
    var p, clock, k := c.Pattern(), c.Adjusted(), c.scheduler.nextStep;
    && c.scheduler.playing && c.scheduler.stopAt == None && !p.HasFlam(k) && |c.log| < QUEUED_MEMORY
    && StepPosition(p, clock, k) == at < horizon <= StepPosition(p, clock, k + 1)
  }

  /** The core with the step at the cursor queued at `at`. */
  function WithStep(c: ControlState, at: nat): ControlState
  {
    var k := c.scheduler.nextStep;
    c.(scheduler := c.scheduler.(nextStep := k + 1), log := c.log + [Queued(k, at, at)])
  }

  /** A render that queues one step. */
  lemma RenderOne(e: Engine, core: ControlState, position: nat, room: int, op: Op, at: nat)
    requires Stands(e, core, position, room) && op.Render? && OpValid(op) && op.frames >= 1 && !op.jumped
    requires var c := Planned(core, op); c.Valid() && OneDue(c, at, position + c.lookahead)
    requires room > 2 * STEP_SLOTS + FLUSH_RESERVE
    ensures Stands(After(e, op), WithStep(Planned(core, op), at), position + op.frames, room - STEP_SLOTS)
  {
    hide StepPosition, LogSteps, Stands;
    var c := Planned(core, op);
    var k := c.scheduler.nextStep;
    StandsIs(e, core, position, room);
    var here, next := StepSample(c.Pattern(), c.Adjusted(), k), StepSample(c.Pattern(), c.Adjusted(), k + 1);
    StandsRender(e, core, position, room, op, k + 1);
    LogOne(c.log, c.Pattern(), c.Adjusted(), k);
    assert Queueing(c, k + 1) == WithStep(c, at);
  }

  /** A render that queues nothing. */
  lemma RenderNone(e: Engine, core: ControlState, position: nat, room: int, op: Op)
    requires Stands(e, core, position, room) && op.Render? && OpValid(op) && op.frames >= 1 && !op.jumped
    requires var c := Planned(core, op);
             && c.Valid() && c.scheduler.playing && c.scheduler.stopAt == None
             && StepPosition(c.Pattern(), c.Adjusted(), c.scheduler.nextStep) >= position + c.lookahead
    requires room > STEP_SLOTS + FLUSH_RESERVE
    ensures Stands(After(e, op), Planned(core, op), position + op.frames, room)
  {
    hide StepPosition, Stands;
    var c := Planned(core, op);
    StandsIs(e, core, position, room);
    var next := StepSample(c.Pattern(), c.Adjusted(), c.scheduler.nextStep);
    StandsRender(e, core, position, room, op, c.scheduler.nextStep);
    assert Queueing(c, c.scheduler.nextStep) == c;
  }

  /** Steps on a line without latency. */
  lemma StepOn(p: Pattern, l: Line, nudge: real, k: nat, at: nat)
    requires l.Valid() && l.anchorSample + (p.StepBeat(k) + nudge - l.anchorBeat) * l.SamplesPerBeat() == at as real
    ensures var clock := AdjustedClock(Internal(l), Controls(nudge, 0.0)); StepPosition(p, clock, k) == at
  {
    hide Line.SamplesPerBeat, Pattern.StepBeat;
    var clock := AdjustedClock(Internal(l), Controls(nudge, 0.0));
    assert clock.SampleAtBeat(p.StepBeat(k)) == at as real;
  }

  /** Started at sample 0 on the internal clock without nudge or latency. */
  function StartedCore(core: ControlState): ControlState
  {
    core.(scheduler := core.scheduler.StartAt(0))
  }

  lemma StartKeepsLine(core: ControlState)
    requires core.Valid() && core.mode == FreeRunning && core.internal.sampleRate == core.sampleRate
    requires core.controls == Controls(0.0, 0.0) && core.internal.anchorSample == core.internal.anchorBeat == 0.0
    ensures RestartInternalAt(core, 0).(scheduler := core.scheduler.StartAt(0)) == StartedCore(core)
  {
    hide Line.SamplesPerBeat;
    RestartLine(core, 0);
    assert 0.0 * core.sampleRate / 1000.0 == 0.0;
  }

  lemma FirstSteps(core: ControlState, p: Pattern)
    requires core.Valid() && core.mode == FreeRunning && core.internal == Line(48000.0, 120.0, 0.0, 0.0)
    requires core.controls == Controls(0.0, 0.0) && core.scheduler == SchedulerState(p, 0, false, None, None)
    requires (p == EveryStep() || p == ShuffledSteps()) && core.log == []
    ensures var started := StartedCore(core); started.Valid() && OneDue(started, 0, 4800)
  {
    hide EveryStep, ShuffledSteps, StepPosition, Pattern.HasFlam, Pattern.StepBeat, Pattern.Valid;
    PlainSteps(p, 0);
    BeatOn(p, 0);
    BeatOn(p, 1);
    SpanOf120(core.internal);
    StepOn(p, core.internal, 0.0, 0, 0);
    StepOn(p, core.internal, 0.0, 1, if p == EveryStep() then 6000 else 8000);
  }

  /** A shuffled step is a twelfth of a beat late. */
  lemma BeatOn(p: Pattern, k: nat)
    requires p == EveryStep() || p == ShuffledSteps()
    ensures p.StepBeat(k)
            == k as real * 0.25 + if k % 2 == 1 && p == ShuffledSteps() && p != EveryStep() then 1.0 / 12.0 else 0.0
  {
    assert EveryStep().shuffle == 0.0 && ShuffledSteps().shuffle == 1.0;
    hide EveryStep;
  }

  lemma RetunedTo(l: Line, sample: real, bpm: real)
    requires l.Valid() && MIN_BPM <= bpm <= MAX_BPM
    ensures Retuned(l, sample, Some(bpm)) == Line(l.sampleRate, bpm, sample, Round(l.BeatAtSample(sample)) as real)
  {
    TempoChangeIsContinuous(l, bpm, sample);
  }

  lemma SpanOf120(l: Line)
    requires l.Valid() && l.sampleRate == 48000.0 && l.bpm == 120.0
    ensures l.SamplesPerBeat() == 24000.0
  {
  }

  /** The first tick behind a start at 120 BPM queues step 0 on sample 0. */
  lemma StartedOne(e: Engine, p: Pattern, op: Op)
    requires Fresh(e, 120.0, p, Controls(0.0, 0.0), 4800) && (p == EveryStep() || p == ShuffledSteps())
    requires op.Render? && OpValid(op) && op.frames >= 1 && !op.jumped
    ensures e.Valid() && After(e, Start).Valid()
    ensures var started := StartedCore(Core(e.control));
            Stands(After(After(e, Start), op), WithStep(started, 0), op.frames, 1004)
  {
    hide After, Stands, OneDue, RestartInternalAt, EveryStep, ShuffledSteps;
    var core := Core(e.control);
    NewStands(e);
    FreshIs(e, 120.0, p, Controls(0.0, 0.0), 4800);
    StandsStart(e, core, 0, EVENT_QUEUE_CAPACITY);
    StartKeepsLine(core);
    FirstSteps(core, p);
    var started := StartedCore(core);
    StandsIs(After(e, Start), started, 0, EVENT_QUEUE_CAPACITY);
    RenderOne(After(e, Start), started, 0, EVENT_QUEUE_CAPACITY, op, 0);
  }

  lemma FreshIs(e: Engine, bpm: real, p: Pattern, controls: Controls, lookahead: nat)
    requires Fresh(e, bpm, p, controls, lookahead)
    ensures e.Valid() && IsNew(e) && e.control.queue.capacity == EVENT_QUEUE_CAPACITY
    ensures var core := Core(e.control);
            && core.Valid() && core.mode == FreeRunning && core.sampleRate == 48000.0 == core.follower.sampleRate
            && core.internal == Line(48000.0, bpm, 0.0, 0.0)
            && core.controls == controls && core.scheduler == SchedulerState(p, 0, false, None, None)
            && core.lookahead == lookahead && core.log == [] && core.pendingFlush == None
  {
  }

  /** A new engine goes over to the follower. */
  lemma FreshStarts(e: Engine, bpm: real, p: Pattern)
    requires Fresh(e, bpm, p, Controls(0.0, 0.0), 4800)
    ensures e.Valid() && After(e, SetMode(Following)).Valid()
    ensures After(e, SetMode(Following)).renderer.position == 0
  {
    FreshIs(e, bpm, p, Controls(0.0, 0.0), 4800);
    AfterValid(e, SetMode(Following));
    hide ControlStep;
  }

  // ---- A change of tempo ----

  lemma CrowdedCore(e: Engine, core: ControlState, position: nat, room: int, sample: nat, next: nat)
    requires Stands(e, core, position, room) && core.Valid() && Crowded(core, sample, next)
    ensures e.Valid() && Crowded(e.control, sample, next)
  {
  }

  /** Two starts more of a run. */
  lemma RunThree(e: Engine, a: Op, b: Op, c: Op)
    requires e.Valid() && OpValid(a) && OpValid(b) && OpValid(c)
    ensures OpsValid([a, b, c]) && After(e, a).Valid() && After(After(e, a), b).Valid()
    ensures Run(e, [a, b, c]) == After(After(After(e, a), b), c)
  {
    hide After, Run;
    RunTwo(e, a, b, [c]);
    assert [a, b] + [c] == [a, b, c];
    RunCons(After(After(e, a), b), c, []);
    assert [c] + [] == [c];
    RunFirst(After(After(After(e, a), b), c), []);
  }

  /** Once step 1 is queued at 6000, by a second tick. */
  lemma SecondStep(e: Engine, tl: Timeline)
    requires Fresh(e, 120.0, EveryStep(), Controls(0.0, 0.0), 4800) && tl.Valid()
    ensures var ops := [Start, Render(1500, tl, false), Render(500, tl, false)];
            && e.Valid() && OpsValid(ops)
            && Stands(Run(e, ops), WithStep(WithStep(StartedCore(Core(e.control)), 0), 6000), 2000, 984)
  {
    hide After, Stands, OneDue, EveryStep, Run;
    var a, b := Render(1500, tl, false), Render(500, tl, false);
    FreshIs(e, 120.0, EveryStep(), Controls(0.0, 0.0), 4800);
    StartedOne(e, EveryStep(), a);
    var s1 := WithStep(StartedCore(Core(e.control)), 0);
    SecondDue(s1);
    RunThree(e, Start, a, b);
    RenderOne(After(After(e, Start), a), s1, 1500, 1004, b, 6000);
  }

  /** Steps at 120 BPM from sample 0. */
  lemma EvenStep(core: ControlState, k: nat)
    requires core.Valid() && core.mode == FreeRunning && core.internal == Line(48000.0, 120.0, 0.0, 0.0)
    requires core.controls == Controls(0.0, 0.0) && core.scheduler.pattern == EveryStep()
    ensures !core.Pattern().HasFlam(k) && StepPosition(core.Pattern(), core.Adjusted(), k) == 6000 * k
  {
    hide EveryStep, StepPosition, Pattern.HasFlam, Pattern.StepBeat, Pattern.Valid;
    PlainSteps(EveryStep(), k);
    BeatOn(EveryStep(), k);
    SpanOf120(core.internal);
    StepOn(EveryStep(), core.internal, 0.0, k, 6000 * k);
  }

  lemma SecondDue(core: ControlState)
    requires core.Valid() && core.mode == FreeRunning && core.internal == Line(48000.0, 120.0, 0.0, 0.0)
    requires core.controls == Controls(0.0, 0.0) && core.scheduler == SchedulerState(EveryStep(), 1, true, None, None)
    requires |core.log| < QUEUED_MEMORY
    ensures OneDue(core, 6000, 6300)
  {
    hide EveryStep, StepPosition, Pattern.HasFlam;
    EvenStep(core, 1);
    EvenStep(core, 2);
  }

  /** Step 1 is queued at 6000. A tempo of 266.7 asked for at 2000 puts step 2 at 6500, where half a
      step is 1350 samples, and it is queued there. */
  lemma TempoChangeCrowds(e: Engine, tl: Timeline)
    requires Fresh(e, 120.0, EveryStep(), Controls(0.0, 0.0), 4800) && tl.Valid()
    ensures var ops := [Start, Render(1500, tl, false), Render(500, tl, false)] + [SetTempo(800.0 / 3.0),
                        Render(1, tl, false)];
            && e.Valid() && OpsValid(ops) && Crowded(Run(e, ops).control, 6000, 6500)
  {
    hide After, Stands, OneDue, EveryStep, Run, Crowded;
    var tempo, last := SetTempo(800.0 / 3.0), Render(1, tl, false);
    var begun := [Start, Render(1500, tl, false), Render(500, tl, false)];
    FreshIs(e, 120.0, EveryStep(), Controls(0.0, 0.0), 4800);
    SecondStep(e, tl);
    var s2 := WithStep(WithStep(StartedCore(Core(e.control)), 0), 6000);
    var e2 := Run(e, begun);
    StandsEdit(e2, s2, 2000, 984, tempo);
    var s3 := ControlStep(s2, tempo, 0, 2000);
    FasterDue(s2, s3);
    StandsIs(After(e2, tempo), s3, 2000, 984);
    RenderOne(After(e2, tempo), s3, 2000, 984, last, 6500);
    CrowdedCore(After(After(e2, tempo), last), WithStep(s3, 6500), 2001, 964, 6000, 6500);
    RunPair(e, begun, tempo, last);
  }

  lemma RunPair(e: Engine, ops: seq<Op>, a: Op, b: Op)
    requires e.Valid() && OpsValid(ops) && OpValid(a) && OpValid(b)
    ensures OpsValid(ops + [a, b]) && After(Run(e, ops), a).Valid()
    ensures Run(e, ops + [a, b]) == After(After(Run(e, ops), a), b)
  {
    hide After, Run;
    RunAppend(e, ops, a);
    RunAppend(e, ops + [a], b);
    assert ops + [a] + [b] == ops + [a, b];
  }

  lemma FasterDue(core: ControlState, core': ControlState)
    requires core.Valid() && core.mode == FreeRunning && core.internal == Line(48000.0, 120.0, 0.0, 0.0)
    requires core.controls == Controls(0.0, 0.0) && core.scheduler == SchedulerState(EveryStep(), 2, true, None, None)
    requires core.log == [Queued(0, 0, 0), Queued(1, 6000, 6000)]
    requires core' == ControlStep(core, SetTempo(800.0 / 3.0), 0, 2000)
    ensures core'.Valid() && OneDue(core', 6500, 6800)
    ensures Crowded(WithStep(core', 6500), 6000, 6500)
  {
    hide EveryStep, StepPosition, Pattern.HasFlam, Pattern.StepBeat, Pattern.Valid;
    PlainSteps(EveryStep(), 2);
    BeatOn(EveryStep(), 2);
    BeatOn(EveryStep(), 3);
    SpanOf120(core.internal);
    var l := core'.internal;
    assert l == Line(48000.0, 800.0 / 3.0, 2000.0, 1.0 / 12.0);
    assert l.SamplesPerBeat() == 10800.0;
    StepOn(EveryStep(), l, 0.0, 2, 6500);
    StepOn(EveryStep(), l, 0.0, 3, 9200);
    assert HalfStep(core'.Active()) == 1350.0;
  }

  // ---- A change of the controls ----

  /** Started at sample 0 with a nudge of a fifth of a beat: the beat grid lies 4800 samples earlier. */
  function NudgedCore(core: ControlState): ControlState
  {
    core.(internal := Line(48000.0, 120.0, -4800.0, 0.0), scheduler := core.scheduler.StartAt(0))
  }

  lemma NudgedStart(core: ControlState)
    requires core.Valid() && core.mode == FreeRunning && core.sampleRate == 48000.0
    requires core.controls == Controls(0.2, 0.0) && core.internal == Line(48000.0, 120.0, 0.0, 0.0)
    ensures RestartInternalAt(core, 0).(scheduler := core.scheduler.StartAt(0)) == NudgedCore(core)
  {
    SpanOf120(core.internal);
    RestartLine(core, 0);
    assert RestartAnchor(core.internal, core.controls, core.sampleRate, 0) == -4800.0;
  }

  lemma NudgedStep(core: ControlState, k: nat, nudge: real)
    requires core.Valid() && core.mode == FreeRunning && core.internal == Line(48000.0, 120.0, -4800.0, 0.0)
    requires core.controls == Controls(nudge, 0.0) && core.scheduler.pattern == EveryStep()
    ensures !core.Pattern().HasFlam(k)
    ensures nudge == 0.2 ==> StepPosition(core.Pattern(), core.Adjusted(), k) == 6000 * k
    ensures nudge == 0.0 && k >= 1 ==> StepPosition(core.Pattern(), core.Adjusted(), k) == 6000 * k - 4800
  {
    hide EveryStep, StepPosition, Pattern.HasFlam, Pattern.StepBeat, Pattern.Valid;
    PlainSteps(EveryStep(), k);
    BeatOn(EveryStep(), k);
    SpanOf120(core.internal);
    if nudge == 0.2 { StepOn(EveryStep(), core.internal, 0.2, k, 6000 * k); }
    if nudge == 0.0 && k >= 1 { StepOn(EveryStep(), core.internal, 0.0, k, 6000 * k - 4800); }
  }

  lemma NudgedDue(core: ControlState, at: nat, horizon: nat)
    requires core.Valid() && core.mode == FreeRunning && core.internal == Line(48000.0, 120.0, -4800.0, 0.0)
    requires core.controls == Controls(0.2, 0.0) && |core.log| < QUEUED_MEMORY && core.scheduler.playing
    requires core.scheduler.stopAt == None && core.scheduler.pattern == EveryStep()
    requires at == 6000 * core.scheduler.nextStep && at < horizon <= at + 6000
    ensures OneDue(core, at, horizon)
  {
    hide EveryStep, StepPosition, Pattern.HasFlam;
    NudgedStep(core, core.scheduler.nextStep, 0.2);
    NudgedStep(core, core.scheduler.nextStep + 1, 0.2);
  }

  lemma UnnudgedDue(core: ControlState)
    requires core.Valid() && core.mode == FreeRunning && core.internal == Line(48000.0, 120.0, -4800.0, 0.0)
    requires core.controls == Controls(0.0, 0.0) && core.scheduler == SchedulerState(EveryStep(), 2, true, None, None)
    requires core.log == [Queued(0, 0, 0), Queued(1, 6000, 6000)]
    ensures OneDue(core, 7200, 7300) && Crowded(WithStep(core, 7200), 6000, 7200)
  {
    hide EveryStep, StepPosition, Pattern.HasFlam;
    NudgedStep(core, 2, 0.0);
    NudgedStep(core, 3, 0.0);
    SpanOf120(core.internal);
  }

  lemma NudgedRun(e: Engine, tl: Timeline)
    requires Fresh(e, 120.0, EveryStep(), Controls(0.2, 0.0), 4800) && tl.Valid()
    ensures var ops := [Start, Render(1500, tl, false), Render(1000, tl, false)];
            && e.Valid() && OpsValid(ops)
            && Stands(Run(e, ops), WithStep(WithStep(NudgedCore(Core(e.control)), 0), 6000), 2500, 984)
  {
    hide After, Stands, OneDue, EveryStep, Run, RestartInternalAt;
    var a, b, core := Render(1500, tl, false), Render(1000, tl, false), Core(e.control);
    FreshIs(e, 120.0, EveryStep(), Controls(0.2, 0.0), 4800);
    NewStands(e);
    RunThree(e, Start, a, b);
    StandsStart(e, core, 0, EVENT_QUEUE_CAPACITY);
    NudgedStart(core);
    var s0 := NudgedCore(core);
    StandsIs(After(e, Start), s0, 0, EVENT_QUEUE_CAPACITY);
    NudgedDue(s0, 0, 4800);
    RenderOne(After(e, Start), s0, 0, EVENT_QUEUE_CAPACITY, a, 0);
    NudgedDue(WithStep(s0, 0), 6000, 6300);
    RenderOne(After(After(e, Start), a), WithStep(s0, 0), 1500, 1004, b, 6000);
  }

  /** Under a nudge of a fifth of a beat step 1 is queued at 6000. Taking the nudge away at 2500 moves
      step 2 from 12000 to 7200, where half a step is 3000 samples, and it is queued there. */
  lemma ControlsChangeCrowds(e: Engine, tl: Timeline)
    requires Fresh(e, 120.0, EveryStep(), Controls(0.2, 0.0), 4800) && tl.Valid()
    ensures var ops := [Start, Render(1500, tl, false), Render(1000, tl, false)]
                       + [SetControls(Controls(0.0, 0.0)), Render(1, tl, false)];
            && e.Valid() && OpsValid(ops) && Crowded(Run(e, ops).control, 6000, 7200)
  {
    hide After, Stands, OneDue, EveryStep, Run, Crowded;
    var change, last := SetControls(Controls(0.0, 0.0)), Render(1, tl, false);
    var begun := [Start, Render(1500, tl, false), Render(1000, tl, false)];
    FreshIs(e, 120.0, EveryStep(), Controls(0.2, 0.0), 4800);
    NudgedRun(e, tl);
    var s2 := WithStep(WithStep(NudgedCore(Core(e.control)), 0), 6000);
    var e2 := Run(e, begun);
    StandsEdit(e2, s2, 2500, 984, change);
    var s3 := ControlStep(s2, change, 0, 2500);
    UnnudgedDue(s3);
    StandsIs(After(e2, change), s3, 2500, 984);
    RenderOne(After(e2, change), s3, 2500, 984, last, 7200);
    CrowdedCore(After(After(e2, change), last), WithStep(s3, 7200), 2501, 964, 6000, 7200);
    RunPair(e, begun, change, last);
  }

  // ---- A change of the pattern behind a jump ----

  /** A fully shuffled step at 120 BPM with beat 0 on `anchor`. */
  lemma ShuffledStep(core: ControlState, anchor: nat, k: nat)
    requires core.Valid() && core.mode == FreeRunning && core.internal == Line(48000.0, 120.0, anchor as real, 0.0)
    requires core.controls == Controls(0.0, 0.0) && core.scheduler.pattern == ShuffledSteps()
    ensures !core.Pattern().HasFlam(k)
    ensures StepPosition(core.Pattern(), core.Adjusted(), k) == anchor + 6000 * k + if k % 2 == 1 then 2000 else 0
  {
    assert ShuffledSteps() != EveryStep() by { assert EveryStep().shuffle == 0.0; }
    hide EveryStep, ShuffledSteps, StepPosition, Pattern.HasFlam, Pattern.StepBeat, Pattern.Valid;
    PlainSteps(ShuffledSteps(), k);
    BeatOn(ShuffledSteps(), k);
    SpanOf120(core.internal);
    StepOn(ShuffledSteps(), core.internal, 0.0, k, anchor + 6000 * k + if k % 2 == 1 then 2000 else 0);
  }

  lemma ShuffledDue(core: ControlState, at: nat, horizon: nat)
    requires core.Valid() && core.mode == FreeRunning && core.internal == Line(48000.0, 120.0, 0.0, 0.0)
    requires core.controls == Controls(0.0, 0.0) && core.scheduler.pattern == ShuffledSteps()
    requires core.scheduler.playing && core.scheduler.stopAt == None && |core.log| < QUEUED_MEMORY
    requires var k := core.scheduler.nextStep;
             && at == 6000 * k + (if k % 2 == 1 then 2000 else 0)
             && at < horizon <= 6000 * (k + 1) + if k % 2 == 1 then 0 else 2000
    ensures OneDue(core, at, horizon)
  {
    hide EveryStep, ShuffledSteps, StepPosition, Pattern.HasFlam;
    ShuffledStep(core, 0, core.scheduler.nextStep);
    ShuffledStep(core, 0, core.scheduler.nextStep + 1);
  }

  lemma FirstUnique(p: Pattern, c: AdjustedClock, sample: nat, a: nat, b: nat)
    requires c.Valid() && IsFirstStep(p, c, sample, a) && IsFirstStep(p, c, sample, b)
    ensures a == b
  {
    hide StepPosition;
  }

  /** The search from `sample` stops on step 1 if that is the first one there. */
  lemma FindsOne(p: Pattern, c: AdjustedClock, sample: nat)
    requires AudioRate(c) && sample >= 1 && StepPosition(p, c, 0) < sample <= StepPosition(p, c, 1)
    ensures FirstStepAtOrAfter(p, c, sample) == 1
  {
    hide StepPosition, FirstStepAtOrAfter;
    FirstStepExact(p, c, sample);
    FirstUnique(p, c, sample, FirstStepAtOrAfter(p, c, sample), 1);
  }

  /** Four shuffled steps heard. */
  function HeardFour(): seq<Queued>
  {
    [Queued(0, 0, 0), Queued(1, 8000, 8000), Queued(2, 12000, 12000), Queued(3, 20000, 20000)]
  }

  lemma CutHeard()
    ensures CutFrom(HeardFour(), 20100, None) == Cut(20100, Some(Queued(3, 20000, 20000)), None)
    ensures FlushFrom(HeardFour(), 20100) == HeardFour()
  {
    var log := HeardFour();
    assert log[1..] == [Queued(1, 8000, 8000), Queued(2, 12000, 12000), Queued(3, 20000, 20000)];
    assert log[1..][1..] == [Queued(2, 12000, 12000), Queued(3, 20000, 20000)];
    assert log[1..][1..][1..] == [Queued(3, 20000, 20000)];
    assert log[1..][1..][1..][1..] == [];
  }

  /** A tap at 180 BPM puts beat 1 on 17000, and the cursor on step 5. */
  function TappedCore(core: ControlState): ControlState
  {
    core.(internal := Line(48000.0, 180.0, 17000.0, 1.0), scheduler := core.scheduler.(nextStep := 5))
  }

  lemma SpanOf180(l: Line)
    requires l.Valid() && l.sampleRate == 48000.0 && l.bpm == 180.0
    ensures l.SamplesPerBeat() == 16000.0
  {
  }

  /** A step on that line: 1333 samples later if shuffled. */
  lemma TappedStep(core: ControlState, k: nat)
    requires core.Valid() && core.mode == FreeRunning && core.internal == Line(48000.0, 180.0, 17000.0, 1.0)
    requires core.controls == Controls(0.0, 0.0)
    requires core.scheduler.pattern == ShuffledSteps() || core.scheduler.pattern == EveryStep()
    ensures !core.Pattern().HasFlam(k)
    ensures var at := 4000 * k + 1000;
            StepPosition(core.Pattern(), core.Adjusted(), k)
            == if k % 2 == 1 && core.scheduler.pattern == ShuffledSteps() then at + 1333 else at
  {
    assert ShuffledSteps() != EveryStep() by { assert EveryStep().shuffle == 0.0; }
    hide EveryStep, ShuffledSteps, Pattern.HasFlam, Pattern.StepBeat, Pattern.Valid;
    PlainSteps(core.Pattern(), k);
    BeatOn(core.Pattern(), k);
    SpanOf180(core.internal);
    hide Line.SamplesPerBeat;
    var late := if k % 2 == 1 && core.scheduler.pattern == ShuffledSteps() then 16000.0 / 12.0 else 0.0;
    assert core.Adjusted().SampleAtBeat(core.Pattern().StepBeat(k)) == (4000 * k + 1000) as real + late;
    RoundLate(4000 * k + 1000);
  }

  lemma RoundLate(n: nat)
    ensures Round(n as real + 16000.0 / 12.0) == n + 1333
  {
  }

  lemma FindsFifth(p: Pattern, c: AdjustedClock, sample: nat)
    requires AudioRate(c) && sample >= 1 && sample <= StepPosition(p, c, 5)
    requires forall k: nat :: k < 5 ==> StepPosition(p, c, k) < sample
    ensures FirstStepAtOrAfter(p, c, sample) == 5
  {
    hide StepPosition, FirstStepAtOrAfter;
    FirstStepExact(p, c, sample);
    FirstUnique(p, c, sample, FirstStepAtOrAfter(p, c, sample), 5);
  }

  lemma TapShuffled(core: ControlState)
    requires core.Valid() && core.mode == FreeRunning && core.internal == Line(48000.0, 120.0, 0.0, 0.0)
    requires core.controls == Controls(0.0, 0.0) && core.sampleRate == 48000.0 && core.log == HeardFour()
    requires core.scheduler == SchedulerState(ShuffledSteps(), 4, true, None, None)
    ensures var moved := core.(internal := Retuned(core.internal, 17000.0, Some(180.0)));
            moved.Valid() && Jumped(moved, Internal(core.internal), 20100) == TappedCore(core)
  {
    hide ShuffledSteps, StepPosition, FirstStepAtOrAfter, CutFrom, FlushFrom, HeardFour, AudioRate, Pattern.Valid;
    SpanOf120(core.internal);
    assert core.internal.BeatAtSample(17000.0) == 17000.0 / 24000.0;
    RetunedTo(core.internal, 17000.0, 180.0);
    var moved := core.(internal := Line(48000.0, 180.0, 17000.0, 1.0));
    CutHeard();
    SpanOf180(moved.internal);
    assert HalfStepAfter(moved, 20000.0) == 22000;
    assert RealignFrom(moved, 20100, Internal(core.internal)) == 22000;
    forall k: nat | k <= 5
      ensures k < 5 ==> StepPosition(moved.Pattern(), moved.Adjusted(), k) < 22000
      ensures k == 5 ==> StepPosition(moved.Pattern(), moved.Adjusted(), k) >= 22000
    {
      TappedStep(moved, k);
    }
    AudioRateSuffices(moved.internal, moved.controls);
    FindsFifth(moved.Pattern(), moved.Adjusted(), 22000);
  }

  lemma StraightenedDue(core: ControlState)
    requires core.Valid() && core.mode == FreeRunning && core.internal == Line(48000.0, 180.0, 17000.0, 1.0)
    requires core.controls == Controls(0.0, 0.0) && core.scheduler == SchedulerState(EveryStep(), 5, true, None, None)
    requires core.log == HeardFour()
    ensures OneDue(core, 21000, 24900) && Crowded(WithStep(core, 21000), 20000, 21000)
  {
    assert ShuffledSteps() != EveryStep() by { assert EveryStep().shuffle == 0.0; }
    hide EveryStep, ShuffledSteps, StepPosition, Pattern.HasFlam, Pattern.Valid;
    TappedStep(core, 5);
    TappedStep(core, 6);
    SpanOf180(core.internal);
  }

  /** Steps 0 to 3 heard under full shuffle, at 20100. */
  lemma ShuffledRun(e: Engine, tl: Timeline)
    requires Fresh(e, 120.0, ShuffledSteps(), Controls(0.0, 0.0), 4800) && tl.Valid()
    ensures var ops := [Start, Render(5000, tl, false), Render(4000, tl, false)]
                       + [Render(7000, tl, false), Render(4100, tl, false)];
            && e.Valid() && OpsValid(ops)
            && Stands(Run(e, ops), StartedCore(Core(e.control)).(
                        log := HeardFour(), scheduler := SchedulerState(ShuffledSteps(), 4, true, None, None)),
                      20100, 944)
  {
    hide After, Stands, OneDue, EveryStep, ShuffledSteps, Run;
    var a, b, c, d := Render(5000, tl, false), Render(4000, tl, false), Render(7000, tl, false),
                      Render(4100, tl, false);
    FreshIs(e, 120.0, ShuffledSteps(), Controls(0.0, 0.0), 4800);
    StartedOne(e, ShuffledSteps(), a);
    RunThree(e, Start, a, b);
    var s1 := WithStep(StartedCore(Core(e.control)), 0);
    ShuffledDue(s1, 8000, 9800);
    RenderOne(After(After(e, Start), a), s1, 5000, 1004, b, 8000);
    var s2, e2 := WithStep(s1, 8000), After(After(After(e, Start), a), b);
    ShuffledDue(s2, 12000, 13800);
    RenderOne(e2, s2, 9000, 984, c, 12000);
    var s3 := WithStep(s2, 12000);
    ShuffledDue(s3, 20000, 20800);
    RenderOne(After(e2, c), s3, 16000, 964, d, 20000);
    RunPair(e, [Start, a, b], c, d);
    assert WithStep(s3, 20000).log == HeardFour();
  }

  /** Taps at 1000 and 17000, both handled at 20100, then a change of pattern. */
  function PatternMoves(tl: Timeline): seq<Move>
  {
    [Made(Start), Made(Render(5000, tl, false)), Made(Render(4000, tl, false)), Made(Render(7000, tl, false)),
     Made(Render(4100, tl, false)), Press(Finite(1000.0), tl, false), Press(Finite(17000.0), tl, false),
     Made(SetPattern(EveryStep())), Made(Render(1, tl, false))]
  }

  /** Of the two taps the second makes a call, at 180 BPM. */
  lemma PatternMovesCall(tl: Timeline)
    requires tl.Valid() && EveryStep().Valid()
    ensures TapTempos.Valid(TapTempos.TapState(48000.0, [], 0)) && MovesValid(PatternMoves(tl))
    ensures Ops(TapTempos.TapState(48000.0, [], 0), PatternMoves(tl))
            == [Start, Render(5000, tl, false), Render(4000, tl, false)]
               + [Render(7000, tl, false), Render(4100, tl, false)]
               + [Tap(17000.0, Some(180.0), tl, false), SetPattern(EveryStep())] + [Render(1, tl, false)]
  {
    hide TapTempos.Valid, Ops, EveryStep, Pattern.Valid;
    var silent, s2 := TapTempos.TapState(48000.0, [], 0), TapTempos.TapState(48000.0, [1000.0, 17000.0], 0);
    assert 60.0 * 48000.0 / (17000.0 - 1000.0) == 180.0;
    var last := [Made(Render(1, tl, false))] + [];
    var change := [Made(SetPattern(EveryStep()))] + last;
    OpsSecond(48000.0, 1000.0, 17000.0, tl, change);
    OpsMade(s2, Render(1, tl, false), []);
    OpsDone(s2);
    OpsMade(s2, SetPattern(EveryStep()), last);
    var second := [Press(Finite(17000.0), tl, false)] + change;
    OpsFirst(48000.0, 1000.0, tl, second);
    var m5 := [Press(Finite(1000.0), tl, false)] + second;
    OpsMade(silent, Render(4100, tl, false), m5);
    var m4 := [Made(Render(4100, tl, false))] + m5;
    OpsMade(silent, Render(7000, tl, false), m4);
    var m3 := [Made(Render(7000, tl, false))] + m4;
    OpsMade(silent, Render(4000, tl, false), m3);
    var m2 := [Made(Render(4000, tl, false))] + m3;
    OpsMade(silent, Render(5000, tl, false), m2);
    var m1 := [Made(Render(5000, tl, false))] + m2;
    OpsMade(silent, Start, m1);
    assert PatternMoves(tl) == [Made(Start)] + m1;
  }

  /** Behind taps that move beat 1 to 17000 at 180 BPM, step 5 is due at 22333 under full shuffle.
      Taking the shuffle away puts it at 21000, 1000 samples behind the last step heard, where half a
      step is 2000, and it is queued there. */
  lemma PatternChangeCrowds(e: Engine, tl: Timeline)
    requires Fresh(e, 120.0, ShuffledSteps(), Controls(0.0, 0.0), 4800) && tl.Valid() && EveryStep().Valid()
    ensures TapTempos.Valid(TapTempos.TapState(48000.0, [], 0)) && MovesValid(PatternMoves(tl))
    ensures e.Valid()
    ensures Crowded(Run(e, Ops(TapTempos.TapState(48000.0, [], 0), PatternMoves(tl))).control, 20000, 21000)
  {
    hide After, Stands, OneDue, EveryStep, ShuffledSteps, Run, Crowded, HeardFour, Jumped, Retuned, Ops, PatternMoves,
         TapTempos.Valid;
    PatternMovesCall(tl);
    var tap, change, last := Tap(17000.0, Some(180.0), tl, false), SetPattern(EveryStep()), Render(1, tl, false);
    var begun := [Start, Render(5000, tl, false), Render(4000, tl, false)]
                 + [Render(7000, tl, false), Render(4100, tl, false)];
    FreshIs(e, 120.0, ShuffledSteps(), Controls(0.0, 0.0), 4800);
    ShuffledRun(e, tl);
    var s3 := StartedCore(Core(e.control)).(
              log := HeardFour(), scheduler := SchedulerState(ShuffledSteps(), 4, true, None, None));
    var e3 := Run(e, begun);
    StandsIs(e3, s3, 20100, 944);
    TapShuffled(s3);
    StandsTap(e3, s3, 20100, 944, tap);
    RunPair(e, begun, tap, change);
    StandsEdit(After(e3, tap), TappedCore(s3), 20100, 943, change);
    var s5 := ControlStep(TappedCore(s3), change, 0, 20100);
    StraightenedDue(s5);
    var e5 := After(After(e3, tap), change);
    StandsIs(e5, s5, 20100, 943);
    RenderOne(e5, s5, 20100, 943, last, 21000);
    CrowdedCore(After(e5, last), WithStep(s5, 21000), 20101, 923, 20000, 21000);
    RunAppend(e, begun + [tap, change], last);
  }

  // ---- A start at sample 0 behind a jump ahead ----

  /** 120 BPM, two fifths of a beat into the bar at sample 0. */
  function AheadLine(): Timeline { StraightLine(48000.0, 120.0, 0.0, 0.4) }

  lemma AheadStep(core: ControlState, k: nat)
    requires core.Valid() && core.mode == Following && core.follower == AheadLine()
    requires core.controls == Controls(0.0, 0.0) && core.scheduler.pattern == EveryStep()
    ensures core.Pattern().Valid() && !core.Pattern().HasFlam(k)
    ensures StepPosition(core.Pattern(), core.Adjusted(), k) == 6000 * k - 9600
  {
    hide EveryStep, Pattern.HasFlam, Pattern.Valid;
    PlainSteps(EveryStep(), k);
    BeatOn(EveryStep(), k);
    hide Timeline.SampleAtBeat, AheadLine;
    AheadSample(k);
    assert core.Adjusted().SampleAtBeat(k as real * 0.25) == (6000 * k - 9600) as real;
  }

  lemma AheadSample(k: nat)
    ensures AheadLine().SampleAtBeat(k as real * 0.25) == (6000 * k - 9600) as real
  {
    var t, ahead := AheadLine(), k as real * 0.25 - 0.4;
    assert t.rate == 1.0 / 24000.0 && t.slewRate == t.rate;
    MulThenDiv(ahead * 24000.0, t.rate);
    assert ahead * 24000.0 * t.rate == ahead;
    assert t.SlewEndBeat() == 0.4 && t.SampleAtBeat(k as real * 0.25) == ahead / t.rate;
  }

  lemma AheadAtZero(core: ControlState)
    requires core.Valid() && core.mode == Following && core.follower == AheadLine()
    requires core.controls == Controls(0.0, 0.0) && core.scheduler.pattern == EveryStep()
    ensures FirstStepAtOrAfter(core.Pattern(), core.Adjusted(), 0) == 0
  {
    hide EveryStep;
    assert core.follower.BeatAtSample(0.0) == 0.4;
    assert core.Adjusted().BeatAtSample(0.0) == 0.4;
    assert SearchStart(core.Adjusted(), 0) == 0;
  }

  lemma LogThree(p: Pattern, clock: AdjustedClock)
    requires p.Valid() && clock.Valid() && forall k: nat :: k < 3 ==> !p.HasFlam(k)
    ensures var a, b, c := StepSample(p, clock, 0), StepSample(p, clock, 1), StepSample(p, clock, 2);
            LogSteps([], p, clock, 0, 3) == [Queued(0, a, a), Queued(1, b, b), Queued(2, c, c)]
  {
    hide StepSample, StepSpan, Pattern.HasFlam;
    LogAt([], p, clock, 0, 3);
    LogAt([], p, clock, 0, 2);
    LogAt([], p, clock, 0, 1);
    PlainSpan(p, clock, 0);
    PlainSpan(p, clock, 1);
    PlainSpan(p, clock, 2);
  }

  lemma LogAt(log: seq<Queued>, p: Pattern, clock: AdjustedClock, first: nat, end: nat)
    requires p.Valid() && clock.Valid() && first < end && |log| + (end - first) < QUEUED_MEMORY
    ensures var span := StepSpan(p, clock, end - 1);
            LogSteps(log, p, clock, first, end)
            == LogSteps(log, p, clock, first, end - 1) + [Queued(end - 1, span.0, span.1)]
  {
    hide StepSpan;
    LogLength(log, p, clock, first, end - 1);
  }

  lemma PlainSpan(p: Pattern, clock: AdjustedClock, k: nat)
    requires p.Valid() && clock.Valid() && !p.HasFlam(k)
    ensures StepSpan(p, clock, k) == (StepSample(p, clock, k), StepSample(p, clock, k))
  {
    hide StepSample;
  }

  lemma JoinedLog(core: ControlState)
    requires core.Valid() && core.mode == Following && core.follower == AheadLine() && core.log == []
    requires core.controls == Controls(0.0, 0.0) && core.scheduler == SchedulerState(EveryStep(), 0, true, None, None)
    ensures Queueing(core, 3).log == [Queued(0, 0, 0), Queued(1, 0, 0), Queued(2, 2400, 2400)]
    ensures forall k: nat :: k < 3 ==> StepSample(core.Pattern(), core.Adjusted(), k) < 4800
    ensures StepSample(core.Pattern(), core.Adjusted(), 3) >= 4800
  {
    hide EveryStep, StepPosition, Pattern.HasFlam, LogSteps;
    forall k: nat | k <= 3
      ensures !core.Pattern().HasFlam(k)
      ensures StepSample(core.Pattern(), core.Adjusted(), k) == Max(6000 * k - 9600, 0)
    {
      AheadStep(core, k);
    }
    LogThree(core.Pattern(), core.Adjusted());
  }

  lemma JoiningCore(e: Engine)
    requires Fresh(e, 120.0, EveryStep(), Controls(0.0, 0.0), 4800) && AheadLine().Valid()
    ensures var ops := [SetMode(Following), Observe(AheadLine(), true), Start];
            var joined := Core(e.control).(mode := Following, follower := AheadLine(),
                                           scheduler := SchedulerState(EveryStep(), 0, true, None, None));
            && e.Valid() && OpsValid(ops) && joined.Valid() && Stands(Run(e, ops), joined, 0, EVENT_QUEUE_CAPACITY)
  {
    hide After, Stands, EveryStep, Run, AheadLine;
    var core, a, b := Core(e.control), SetMode(Following), Observe(AheadLine(), true);
    FreshIs(e, 120.0, EveryStep(), Controls(0.0, 0.0), 4800);
    NewStands(e);
    RunThree(e, a, b, Start);
    StandsEdit(e, core, 0, EVENT_QUEUE_CAPACITY, a);
    var following := ControlStep(core, a, 0, 0);
    StandsEdit(After(e, a), following, 0, EVENT_QUEUE_CAPACITY, b);
    var ahead := ControlStep(following, b, 0, 0);
    StandsJoin(After(After(e, a), b), ahead, 0, EVENT_QUEUE_CAPACITY);
    AheadAtZero(ahead);
  }

  lemma AheadIsValid()
    ensures AheadLine().Valid()
  {
  }

  /** An engine follows, and its follower snaps to two fifths of a beat at sample 0. A start there
      begins with step 0, which is past, and queues steps 0 and 1 both at sample 0. */
  lemma JoinAtZeroDoubles(e: Engine)
    requires Fresh(e, 120.0, EveryStep(), Controls(0.0, 0.0), 4800)
    ensures AheadLine().Valid()
    ensures var ops := [SetMode(Following), Observe(AheadLine(), true), Start] + [Render(1, AheadLine(), false)];
            && e.Valid() && OpsValid(ops)
            && Run(e, ops).control.log == [Queued(0, 0, 0), Queued(1, 0, 0), Queued(2, 2400, 2400)]
  {
    AheadIsValid();
    hide After, Stands, EveryStep, Run, AheadLine, StepSample;
    var begun, last := [SetMode(Following), Observe(AheadLine(), true), Start], Render(1, AheadLine(), false);
    FreshIs(e, 120.0, EveryStep(), Controls(0.0, 0.0), 4800);
    JoiningCore(e);
    var joined := Core(e.control).(mode := Following, follower := AheadLine(),
                                   scheduler := SchedulerState(EveryStep(), 0, true, None, None));
    JoinedLog(joined);
    var e1 := Run(e, begun);
    StandsRender(e1, joined, 0, EVENT_QUEUE_CAPACITY, last, 3);
    StandsIs(After(e1, last), Queueing(joined, 3), 1, 964);
    RunAppend(e, begun, last);
  }
}
